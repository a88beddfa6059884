/** Engine dispatch and the up-front checks of script generation, from
    pyneuroml/runners.py: `run_lems_with` looks its runner up by name among
    the module's functions, and `generate_sim_scripts_in_folder` refuses
    unsupported engines, LEMS file names with a directory part, and model
    files that climb out of the root directory. */
module Dispatch {
  import opened Base

  // ---------------------------------------------------------------------
  // run_lems_with

  /** A module function is a runner for `engine` when its name starts with
      "run_lems_with" and ends with the engine name. */
  predicate IsRunnerFor(name: string, engine: string) {
    StartsWith(name, "run_lems_with") && EndsWith(name, engine)
  }

  /** The names of the runners that `run_lems_with` calls, in the order of
      the module's function list. */
  function CalledRunners(engine: string, names: seq<string>): (r: seq<string>)
    decreases |names|
  {
    if names == [] then []
    else
      var last := names[|names| - 1];
      CalledRunners(engine, names[..|names| - 1]) + (if IsRunnerFor(last, engine) then [last] else [])
  }

  /** The value `run_lems_with` returns: that of the last runner it called,
      or None (the source's `False`) when no function matched. */
  function LastRunnerResult<R>(engine: string, members: seq<(string, R)>): Option<R>
    decreases |members|
  {
    if members == [] then None
    else if IsRunnerFor(members[|members| - 1].0, engine) then Some(members[|members| - 1].1)
    else LastRunnerResult(engine, members[..|members| - 1])
  }

  /** `run_lems_with`: every module function whose name fits the engine is
      called, in order, and the value of the last one is returned.  Each
      function is given as its name and the value calling it would return. */
  method RunLemsWith<R>(engine: string, members: seq<(string, R)>) returns (called: seq<string>, retval: Option<R>)
    ensures called == CalledRunners(engine, Names(members))
    ensures retval == LastRunnerResult(engine, members)
  {
    var found := false;
    var last: Option<R> := None;
    called := [];
    for i := 0 to |members|
      invariant called == CalledRunners(engine, Names(members[..i]))
      invariant last == LastRunnerResult(engine, members[..i])
      invariant found <==> last.Some?
    {
      var (fname, result) := members[i];
      assert members[..i + 1][..i] == members[..i];
      assert Names(members[..i + 1])[..i] == Names(members[..i]);
      if StartsWith(fname, "run_lems_with") && EndsWith(fname, engine) {
        called := called + [fname];
        found := true;
        last := Some(result);
      }
    }
    assert members[..|members|] == members;
    if !found {
      return called, None;
    }
    retval := last;
  }

  /** The dispatcher returns None exactly when no function name fits the
      engine. */
  lemma {:induction false} NoRunnerNoResult<R>(engine: string, members: seq<(string, R)>)
    ensures LastRunnerResult(engine, members).None?
            <==> forall i :: 0 <= i < |members| ==> !IsRunnerFor(members[i].0, engine)
    decreases |members|
  {
    if members != [] {
      var n := |members| - 1;
      NoRunnerNoResult(engine, members[..n]);
      assert forall i :: 0 <= i < n ==> members[i] == members[..n][i];
    }
  }

  /** Otherwise it returns the value of the last function that fits. */
  lemma {:induction false} LastRunnerResultIsLastMatch<R>(engine: string, members: seq<(string, R)>)
    ensures LastRunnerResult(engine, members).Some? ==>
              exists i :: 0 <= i < |members| && IsRunnerFor(members[i].0, engine)
                          && LastRunnerResult(engine, members).value == members[i].1
                          && forall j :: i < j < |members| ==> !IsRunnerFor(members[j].0, engine)
    decreases |members|
  {
    if members != [] {
      var n := |members| - 1;
      var r := LastRunnerResult(engine, members);
      if IsRunnerFor(members[n].0, engine) {
        assert r.value == members[n].1;
      } else if LastRunnerResult(engine, members[..n]).Some? {
        assert r == LastRunnerResult(engine, members[..n]);
        LastRunnerResultIsLastMatch(engine, members[..n]);
        var i :| 0 <= i < n && IsRunnerFor(members[..n][i].0, engine)
                 && r.value == members[..n][i].1
                 && forall j :: i < j < n ==> !IsRunnerFor(members[..n][j].0, engine);
        assert members[i] == members[..n][i];
        forall j | i < j < |members|
          ensures !IsRunnerFor(members[j].0, engine)
        {
          if j < n {
            assert members[j] == members[..n][j];
          }
        }
        assert IsRunnerFor(members[i].0, engine) && r.value == members[i].1;
      }
    }
  }

  /** Every called name fits the engine, and every fitting name is called. */
  lemma {:induction false} CalledRunnersAreTheMatches(engine: string, names: seq<string>)
    ensures forall k :: 0 <= k < |CalledRunners(engine, names)| ==> IsRunnerFor(CalledRunners(engine, names)[k], engine)
    ensures forall i :: 0 <= i < |names| && IsRunnerFor(names[i], engine) ==> names[i] in CalledRunners(engine, names)
    decreases |names|
  {
    if names != [] {
      var n := |names| - 1;
      CalledRunnersAreTheMatches(engine, names[..n]);
      assert forall i :: 0 <= i < n ==> names[i] == names[..n][i];
    }
  }

  /** The functions of pyneuroml/runners.py, sorted by name as the module
      inspection lists them. */
  const RunnersModuleFunctions: seq<string> := [
    "_gui_string",
    "_include_string",
    "execute_command_in_dir",
    "execute_command_in_dir_with_realtime_output",
    "generate_sim_scripts_in_folder",
    "reload_saved_data",
    "run_jneuroml",
    "run_jneuroml_with_realtime_output",
    "run_lems_with",
    "run_lems_with_eden",
    "run_lems_with_jneuroml",
    "run_lems_with_jneuroml_brian2",
    "run_lems_with_jneuroml_netpyne",
    "run_lems_with_jneuroml_neuron",
    "run_multiple_lems_with"
  ]

  /** Each of the five engine names selects exactly its own runner among
      the module's functions. */
  const RunnableEngines: seq<string> := ["jneuroml", "jneuroml_neuron", "jneuroml_netpyne", "jneuroml_brian2", "eden"]

  /** Where the runner of an engine sits in the module's function list. */
  function RunnerIndex(engine: string): nat {
    if engine == "eden" then 9 else if engine == "jneuroml" then 10
    else if engine == "jneuroml_brian2" then 11 else if engine == "jneuroml_netpyne" then 12 else 13
  }

  /** Each of the five engine names selects exactly its own runner among
      the module's functions. */
  lemma EngineSelectsItsRunner(engine: string)
    requires engine in RunnableEngines
    ensures CalledRunners(engine, RunnersModuleFunctions) == ["run_lems_with_" + engine]
  {
    var names := RunnersModuleFunctions;
    var k := RunnerIndex(engine);
    assert names[k] == "run_lems_with_" + engine;
    assert StartsWith(names[k], "run_lems_with");
    forall i | 0 <= i < |names| && i != k
      ensures !IsRunnerFor(names[i], engine)
    {
      OtherFunctionIsNotRunner(engine, i);
    }
    OnlyMatch(engine, names, k);
  }

  lemma OtherFunctionIsNotRunner(engine: string, i: nat)
    requires engine in RunnableEngines
    requires i < |RunnersModuleFunctions| && i != RunnerIndex(engine)
    ensures !IsRunnerFor(RunnersModuleFunctions[i], engine)
  {
    var name := RunnersModuleFunctions[i];
    if StartsWith(name, "run_lems_with") {
      assert name[12] == 'h';
      assert 8 <= i < 14;
    }
  }

  lemma {:induction false} OnlyMatch(engine: string, names: seq<string>, k: nat)
    requires k < |names| && IsRunnerFor(names[k], engine)
    requires forall i :: 0 <= i < |names| && i != k ==> !IsRunnerFor(names[i], engine)
    ensures CalledRunners(engine, names) == [names[k]]
  {
    NoMatch(engine, names[..k]);
    NoMatch(engine, names[k + 1..]);
    CalledRunnersAppend(engine, names[..k], [names[k]] + names[k + 1..]);
    CalledRunnersAppend(engine, [names[k]], names[k + 1..]);
    assert names == names[..k] + ([names[k]] + names[k + 1..]);
    assert CalledRunners(engine, [names[k]]) == CalledRunners(engine, []) + [names[k]];
  }

  lemma {:induction false} NoMatch(engine: string, names: seq<string>)
    requires forall i :: 0 <= i < |names| ==> !IsRunnerFor(names[i], engine)
    ensures CalledRunners(engine, names) == []
    decreases |names|
  {
    if names != [] {
      NoMatch(engine, names[..|names| - 1]);
    }
  }

  lemma {:induction false} CalledRunnersAppend(engine: string, a: seq<string>, b: seq<string>)
    ensures CalledRunners(engine, a + b) == CalledRunners(engine, a) + CalledRunners(engine, b)
    decreases |b|
  {
    if b == [] {
      assert a + b == a;
    } else {
      var n := |b| - 1;
      CalledRunnersAppend(engine, a, b[..n]);
      assert (a + b)[..|a + b| - 1] == a + b[..n];
    }
  }

  // ---------------------------------------------------------------------
  // generate_sim_scripts_in_folder

  const SupportedEngines: seq<string> := ["jneuroml_neuron", "jneuroml_netpyne"]

  /** Python's `pathlib.PurePosixPath(p).parts`: the root "/" if the path is
      absolute, then the components, with empty and "." components dropped. */
  function PathParts(p: string): (r: seq<string>) {
    var comps := DropTrivial(Split(p, '/'));
    if |p| > 0 && p[0] == '/' then ["/"] + comps else comps
  }

  function DropTrivial(comps: seq<string>): (r: seq<string>)
    ensures forall k :: 0 <= k < |r| ==> r[k] != "" && r[k] != "."
    ensures |r| <= |comps|
    decreases |comps|
  {
    if comps == [] then []
    else (if comps[0] == "" || comps[0] == "." then [] else [comps[0]]) + DropTrivial(comps[1..])
  }

  /** A plain file name has at most one part, so it passes the check;
      a name below a directory has two parts, so it is refused. */
  lemma PathPartsOfNames(dir: string, name: string)
    ensures '/' !in name ==> |PathParts(name)| <= 1
    ensures '/' !in dir && '/' !in name && dir != "" && dir != "." && name != "" && name != "."
            ==> PathParts(dir + "/" + name) == [dir, name]
  {
    if '/' !in name {
      SplitWithoutSeparator(name, '/');
      assert name != "" ==> name[0] != '/';
    }
    if '/' !in dir && '/' !in name && dir != "" && dir != "." && name != "" && name != "." {
      SplitAtFirstSeparator(dir, '/', name);
      SplitWithoutSeparator(name, '/');
      assert dir + "/" + name == dir + ['/'] + name;
      assert (dir + "/" + name)[0] == dir[0];
    }
  }

  /** The model-file check: a file whose path has a directory part and
      contains "../" cannot be recreated under the new folder. */
  predicate RefersToParent(modelFile: string) {
    |Split(modelFile, '/')| > 1 && Contains(modelFile, "../")
  }

  /** The directory-part test is implied by the "../" test. */
  lemma ParentReferenceHasDirectoryPart(modelFile: string)
    ensures RefersToParent(modelFile) <==> Contains(modelFile, "../")
  {
    if Contains(modelFile, "../") {
      ContainsHasChar(modelFile, "../", 2);
      SeparatorMakesTwoPieces(modelFile, '/');
    }
  }

  lemma {:induction false} ContainsHasChar(s: string, p: string, k: nat)
    requires k < |p| && Contains(s, p)
    ensures p[k] in s
    decreases |s|
  {
    if StartsWith(s, p) {
      assert s[k] == s[..|p|][k];
    } else {
      ContainsHasChar(s[1..], p, k);
      assert p[k] in s[1..];
    }
  }

  lemma {:induction false} SeparatorMakesTwoPieces(s: string, sep: char)
    requires sep in s
    ensures |Split(s, sep)| >= 2
    decreases |s|
  {
    if s[0] != sep {
      SeparatorMakesTwoPieces(s[1..], sep);
    }
  }

  datatype ScriptsOutcome =
    | UnsupportedEngine            // prints a notice and returns None
    | LemsNameHasDirectory         // RuntimeError
    | ParentDirectoryFile(file: string)  // ValueError
    | Proceed                      // goes on to copy the files and generate the scripts

  /** Walks the model files in order, as the copy loop does, and stops at
      the first one that refers to a parent directory. */
  method FirstParentReference(modelFiles: seq<string>) returns (bad: Option<nat>)
    ensures bad.None? <==> forall i :: 0 <= i < |modelFiles| ==> !RefersToParent(modelFiles[i])
    ensures bad.Some? ==> bad.value < |modelFiles| && RefersToParent(modelFiles[bad.value])
                          && forall j :: 0 <= j < bad.value ==> !RefersToParent(modelFiles[j])
  {
    for i := 0 to |modelFiles|
      invariant forall j :: 0 <= j < i ==> !RefersToParent(modelFiles[j])
    {
      var modelFile := modelFiles[i];
      if |Split(modelFile, '/')| > 1 {
        if Contains(modelFile, "../") {
          return Some(i);
        }
      }
    }
    return None;
  }

  /** The checks of `generate_sim_scripts_in_folder`, in the order the
      source makes them. */
  method ScriptsGuard(engine: string, lemsFileName: string, modelFiles: seq<string>)
    returns (outcome: ScriptsOutcome)
    ensures outcome.UnsupportedEngine? <==> engine !in SupportedEngines
    ensures outcome.LemsNameHasDirectory? <==> engine in SupportedEngines && |PathParts(lemsFileName)| > 1
    ensures outcome.ParentDirectoryFile? ==>
              exists i :: 0 <= i < |modelFiles| && modelFiles[i] == outcome.file && RefersToParent(modelFiles[i])
                          && forall j :: 0 <= j < i ==> !RefersToParent(modelFiles[j])
    ensures outcome.Proceed? <==>
              engine in SupportedEngines && |PathParts(lemsFileName)| <= 1
              && forall i :: 0 <= i < |modelFiles| ==> !RefersToParent(modelFiles[i])
  {
    if engine !in SupportedEngines {
      return UnsupportedEngine;
    }
    if |PathParts(lemsFileName)| > 1 {
      return LemsNameHasDirectory;
    }
    var bad := FirstParentReference(modelFiles);
    if bad.Some? {
      return ParentDirectoryFile(modelFiles[bad.value]);
    }
    return Proceed;
  }
}

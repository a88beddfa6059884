/** The jnml command-line fragments built in pyneuroml/runners.py: the GUI
    switch, the include-path option, the per-engine `post_args` strings for
    NEURON and NetPyNE, the headless JVM flag, and what `run_jneuroml`
    returns for each process outcome.

    Each builder has a reader beside it that takes the string apart again
    the way jnml's own option parser would; the round-trip lemmas and
    ensures clauses say that every switch the caller asked for, and only
    those, can be read back. */
module JnmlArgs {
  import opened Base

  /** `_gui_string`: the switch that stops jnml from opening a window. */
  function GuiString(nogui: bool): (r: string)
    ensures r == " -nogui" <==> nogui
    ensures r == "" <==> !nogui
  {
    if nogui then " -nogui" else ""
  }

  /** What `_include_string` may be given: a single path as a string, a list
      or tuple of paths, or anything else (None in practice). */
  datatype IncludeArg = Text(path: string) | Paths(paths: seq<string>) | Absent

  const IncludePrefix := " -I '"

  /** `_include_string`: a non-empty string counts as a one-element list;
      every list (even an empty one) becomes ` -I '<p1>:<p2>:...'`; an empty
      string or a non-list becomes the empty string. */
  function IncludeString(a: IncludeArg): (r: string)
    ensures r == "" || (StartsWith(r, IncludePrefix) && EndsWith(r, "'") && |r| >= 6)
    ensures r == "" <==> a.Absent? || a == Text("")
  {
    match a
    case Text(p) => if p != "" then IncludeOption([p]) else ""
    case Paths(ps) => IncludeOption(ps)
    case Absent => ""
  }

  function IncludeOption(paths: seq<string>): (r: string) {
    IncludePrefix + Join(paths, ':') + "'"
  }

  /** How jnml reads the `-I` option back: the quoted text, split on ':'. */
  function ReadIncludePaths(r: string): Option<seq<string>> {
    if |r| >= 6 && StartsWith(r, IncludePrefix) && EndsWith(r, "'")
    then Some(Split(r[5..|r| - 1], ':'))
    else None
  }

  /** Every path of a non-empty list comes back from the include option, in
      order; a path given as a plain string comes back as the only one; an
      empty string or a missing argument gives no option at all. */
  lemma IncludeStringRoundTrip(a: IncludeArg)
    ensures a.Paths? && |a.paths| >= 1 && (forall i :: 0 <= i < |a.paths| ==> ':' !in a.paths[i])
            ==> ReadIncludePaths(IncludeString(a)) == Some(a.paths)
    ensures a.Text? && a.path != "" && ':' !in a.path
            ==> ReadIncludePaths(IncludeString(a)) == Some([a.path])
    ensures a.Paths? && a.paths == [] ==> ReadIncludePaths(IncludeString(a)) == Some([""])
    ensures a.Absent? || a == Text("") ==> ReadIncludePaths(IncludeString(a)) == None
  {
    match a
    case Paths(ps) =>
      var r := IncludeOption(ps);
      assert r[5..|r| - 1] == Join(ps, ':');
      if |ps| >= 1 && (forall i :: 0 <= i < |ps| ==> ':' !in ps[i]) {
        SplitJoin(ps, ':');
      }
    case Text(p) =>
      if p != "" {
        var r := IncludeOption([p]);
        assert r[5..|r| - 1] == p;
        if ':' !in p {
          SplitWithoutSeparator(p, ':');
        }
      }
    case Absent =>
  }

  /** A switch is either present (its text) or absent (nothing). */
  function Switch(present: bool, text: string): string {
    if present then text else ""
  }

  /** Reads one optional switch off the front of an argument string. */
  function TakeSwitch(s: string, sw: string): (bool, string) {
    if StartsWith(s, sw) then (true, s[|sw|..]) else (false, s)
  }

  lemma TakeOptionalSwitch(present: bool, sw: string, rest: string)
    requires !StartsWith(rest, sw)
    ensures TakeSwitch(Switch(present, sw) + rest, sw) == (present, rest)
  {
    if present {
      assert (sw + rest)[..|sw|] == sw;
      assert (sw + rest)[|sw|..] == rest;
    } else {
      assert Switch(present, sw) + rest == rest;
    }
  }

  /** Every switch and option is " -" followed by a letter; two of them
      with different letters never read as one another. */
  predicate OptionLetterIsNot(s: string, c: char) {
    s == "" || (|s| >= 3 && s[2] != c)
  }

  lemma OtherLetterIsNotSwitch(s: string, sw: string)
    requires |sw| >= 3 && OptionLetterIsNot(s, sw[2])
    ensures !StartsWith(s, sw)
  {
  }

  lemma SwitchLetter(present: bool, sw: string, rest: string, c: char)
    requires |sw| >= 3 && sw[2] != c && OptionLetterIsNot(rest, c)
    ensures OptionLetterIsNot(Switch(present, sw) + rest, c)
  {
    if present {
      assert (sw + rest)[2] == sw[2];
    } else {
      assert Switch(present, sw) + rest == rest;
    }
  }

  // ---------------------------------------------------------------------
  // NEURON

  datatype NeuronSwitches = NeuronSwitches(run: bool, compile: bool, nogui: bool, includes: string)

  /** Reads the NEURON post arguments the way jnml would. */
  function ReadNeuronArgs(s: string): Option<NeuronSwitches> {
    if !StartsWith(s, " -neuron") then None
    else
      var (run, s1) := TakeSwitch(s[8..], " -run");
      var (compile, s2) := TakeSwitch(s1, " -compile");
      var (nogui, s3) := TakeSwitch(s2, " -nogui");
      Some(NeuronSwitches(run, compile, nogui, s3))
  }

  lemma ReadNeuronArgsOf(run: bool, compile: bool, nogui: bool, includes: string)
    requires OptionLetterIsNot(includes, 'r') && OptionLetterIsNot(includes, 'c')
    requires OptionLetterIsNot(includes, 'n')
    ensures ReadNeuronArgs(" -neuron" + (Switch(run, " -run") + (Switch(compile, " -compile")
                           + (Switch(nogui, " -nogui") + includes))))
            == Some(NeuronSwitches(run, compile, nogui, includes))
  {
    var s3 := includes;
    OtherLetterIsNotSwitch(s3, " -nogui");
    TakeOptionalSwitch(nogui, " -nogui", s3);
    var s2 := Switch(nogui, " -nogui") + s3;
    SwitchLetter(nogui, " -nogui", s3, 'c');
    SwitchLetter(nogui, " -nogui", s3, 'r');
    OtherLetterIsNotSwitch(s2, " -compile");
    TakeOptionalSwitch(compile, " -compile", s2);
    var s1 := Switch(compile, " -compile") + s2;
    SwitchLetter(compile, " -compile", s2, 'r');
    OtherLetterIsNotSwitch(s1, " -run");
    TakeOptionalSwitch(run, " -run", s1);
    var s0 := Switch(run, " -run") + s1;
    PrefixAndRest(" -neuron", s0);
  }

  lemma PrefixAndRest(p: string, s: string)
    ensures StartsWith(p + s, p) && (p + s)[|p|..] == s
  {
    assert (p + s)[..|p|] == p;
  }

  /** The `post_args` that `run_lems_with_jneuroml_neuron` hands to jnml,
      built by successive appends as the source does. */
  method NeuronPostArgs(onlyGenerateScripts: bool, compileMods: bool, nogui: bool, paths: IncludeArg)
    returns (postArgs: string)
    ensures StartsWith(postArgs, " -neuron")
    ensures EndsWith(postArgs, GuiString(nogui) + IncludeString(paths))
    ensures ReadNeuronArgs(postArgs)
            == Some(NeuronSwitches(!onlyGenerateScripts, compileMods, nogui, IncludeString(paths)))
  {
    postArgs := " -neuron";
    if !onlyGenerateScripts {
      postArgs := postArgs + " -run";
    }
    ghost var run := Switch(!onlyGenerateScripts, " -run");
    assert postArgs == " -neuron" + run;
    if compileMods {
      postArgs := postArgs + " -compile";
    }
    ghost var compile := Switch(compileMods, " -compile");
    assert postArgs == " -neuron" + run + compile;
    postArgs := postArgs + GuiString(nogui);
    postArgs := postArgs + IncludeString(paths);
    assert postArgs == " -neuron" + run + compile + GuiString(nogui) + IncludeString(paths);

    NeuronArgsOf(!onlyGenerateScripts, compileMods, nogui, IncludeString(paths));
  }

  lemma NeuronArgsOf(run: bool, compile: bool, nogui: bool, includes: string)
    requires OptionLetterIsNot(includes, 'r') && OptionLetterIsNot(includes, 'c')
    requires OptionLetterIsNot(includes, 'n')
    ensures var s := " -neuron" + Switch(run, " -run") + Switch(compile, " -compile")
                     + GuiString(nogui) + includes;
            && StartsWith(s, " -neuron")
            && EndsWith(s, GuiString(nogui) + includes)
            && ReadNeuronArgs(s) == Some(NeuronSwitches(run, compile, nogui, includes))
  {
    var r, c, g := Switch(run, " -run"), Switch(compile, " -compile"), Switch(nogui, " -nogui");
    assert GuiString(nogui) == g;
    AppendsNest(" -neuron", r, c, g, includes);
    ReadNeuronArgsOf(run, compile, nogui, includes);
    PrefixAndRest(" -neuron", r + (c + (g + includes)));
    SuffixOf(" -neuron" + r + c, g + includes);
  }

  /** Successive appends nest to the right, and split after the third. */
  lemma AppendsNest(a: string, b: string, c: string, d: string, e: string)
    ensures a + b + c + d + e == a + (b + (c + (d + e)))
    ensures a + b + c + d + e == (a + b + c) + (d + e)
  {
  }

  lemma SuffixOf(a: string, s: string)
    ensures EndsWith(a + s, s)
  {
    assert (a + s)[|a + s| - |s|..] == s;
  }

  // ---------------------------------------------------------------------
  // NetPyNE

  datatype NetpyneSwitches =
    NetpyneSwitches(processors: Option<int>, run: bool, json: bool, nogui: bool, includes: string)

  /** The word up to the next space, and what follows it. */
  function TakeWord(s: string): (string, string)
    decreases |s|
  {
    if |s| == 0 || s[0] == ' ' then ("", s)
    else var (w, t) := TakeWord(s[1..]); ([s[0]] + w, t)
  }

  lemma {:induction false} TakeWordOf(w: string, t: string)
    requires ' ' !in w
    requires t == "" || t[0] == ' '
    ensures TakeWord(w + t) == (w, t)
    decreases |w|
  {
    if |w| > 0 {
      assert (w + t)[1..] == w[1..] + t;
      TakeWordOf(w[1..], t);
      assert [w[0]] + w[1..] == w;
    } else {
      assert w + t == t;
    }
  }

  /** Reads the NetPyNE post arguments the way jnml would. */
  function ReadNetpyneArgs(s: string): Option<NetpyneSwitches> {
    if !StartsWith(s, " -netpyne") then None
    else
      var (np, s1) := ReadProcessors(s[9..]);
      var (run, json, nogui, rest) := ReadRunJsonGui(s1);
      Some(NetpyneSwitches(np, run, json, nogui, rest))
  }

  /** The optional ` -np <n>` switch. */
  function ReadProcessors(s: string): (Option<int>, string) {
    if StartsWith(s, " -np ") then (var (w, t) := TakeWord(s[5..]); (Some(ParseInt(w)), t))
    else (None, s)
  }

  /** The optional ` -run`, ` -json` and ` -nogui` switches, in that order. */
  function ReadRunJsonGui(s: string): (bool, bool, bool, string) {
    var (run, s2) := TakeSwitch(s, " -run");
    var (json, s3) := TakeSwitch(s2, " -json");
    var (nogui, s4) := TakeSwitch(s3, " -nogui");
    (run, json, nogui, s4)
  }

  function ProcessorsSwitch(numProcessors: int): string {
    if numProcessors != 1 then " -np " + IntText(numProcessors) else ""
  }

  lemma ReadRunJsonGuiOf(run: bool, json: bool, nogui: bool, includes: string)
    requires includes == "" || includes[0] == ' '
    requires OptionLetterIsNot(includes, 'r') && OptionLetterIsNot(includes, 'j')
    requires OptionLetterIsNot(includes, 'n')
    ensures var s := Switch(run, " -run") + (Switch(json, " -json") + (Switch(nogui, " -nogui") + includes));
            && ReadRunJsonGui(s) == (run, json, nogui, includes)
            && (s == "" || s[0] == ' ')
            && !StartsWith(s, " -np ")
  {
    var s4 := includes;
    OtherLetterIsNotSwitch(s4, " -nogui");
    TakeOptionalSwitch(nogui, " -nogui", s4);
    var s3 := Switch(nogui, " -nogui") + s4;
    SwitchLetter(nogui, " -nogui", s4, 'j');
    SwitchLetter(nogui, " -nogui", s4, 'r');
    OtherLetterIsNotSwitch(s3, " -json");
    TakeOptionalSwitch(json, " -json", s3);
    var s2 := Switch(json, " -json") + s3;
    SwitchLetter(json, " -json", s3, 'r');
    OtherLetterIsNotSwitch(s2, " -run");
    TakeOptionalSwitch(run, " -run", s2);
    SwitchStartsWithSpace(nogui, " -nogui", s4);
    SwitchStartsWithSpace(json, " -json", s3);
    SwitchStartsWithSpace(run, " -run", s2);
    NotProcessorsSwitch(run, json, nogui, includes);
  }

  lemma ReadProcessorsOf(numProcessors: int, rest: string)
    requires rest == "" || rest[0] == ' '
    requires !StartsWith(rest, " -np ")
    ensures ReadProcessors(ProcessorsSwitch(numProcessors) + rest)
            == (if numProcessors != 1 then Some(numProcessors) else None, rest)
  {
    var s0 := ProcessorsSwitch(numProcessors) + rest;
    if numProcessors != 1 {
      var w := IntText(numProcessors);
      assert s0 == " -np " + (w + rest);
      PrefixAndRest(" -np ", w + rest);
      TakeWordOf(w, rest);
      ParseIntText(numProcessors);
    } else {
      assert s0 == rest;
    }
  }

  lemma ReadNetpyneArgsOf(numProcessors: int, run: bool, json: bool, nogui: bool, includes: string)
    requires includes == "" || includes[0] == ' '
    requires OptionLetterIsNot(includes, 'r') && OptionLetterIsNot(includes, 'j')
    requires OptionLetterIsNot(includes, 'n')
    ensures ReadNetpyneArgs(" -netpyne" + (ProcessorsSwitch(numProcessors) + (Switch(run, " -run")
                            + (Switch(json, " -json") + (Switch(nogui, " -nogui") + includes)))))
            == Some(NetpyneSwitches(if numProcessors != 1 then Some(numProcessors) else None,
                                    run, json, nogui, includes))
  {
    var s1 := Switch(run, " -run") + (Switch(json, " -json") + (Switch(nogui, " -nogui") + includes));
    ReadRunJsonGuiOf(run, json, nogui, includes);
    ReadProcessorsOf(numProcessors, s1);
    PrefixAndRest(" -netpyne", ProcessorsSwitch(numProcessors) + s1);
  }

  lemma SwitchStartsWithSpace(present: bool, sw: string, rest: string)
    requires |sw| >= 1 && sw[0] == ' '
    requires rest == "" || rest[0] == ' '
    ensures var s := Switch(present, sw) + rest; s == "" || s[0] == ' '
  {
    if !present {
      assert Switch(present, sw) + rest == rest;
    }
  }

  /** With one processor there is no ` -np` switch, and nothing that
      follows can be mistaken for one. */
  lemma NotProcessorsSwitch(run: bool, json: bool, nogui: bool, includes: string)
    requires OptionLetterIsNot(includes, 'n')
    ensures !StartsWith(Switch(run, " -run") + (Switch(json, " -json") + (Switch(nogui, " -nogui") + includes)),
                        " -np ")
  {
    var g := Switch(nogui, " -nogui") + includes;
    var j := Switch(json, " -json") + g;
    var s := Switch(run, " -run") + j;
    if run {
      assert s[2] == 'r';
    } else if json {
      assert s == j;
      assert s[2] == 'j';
    } else if nogui {
      assert s == g;
      assert s[3] == 'o';
    } else {
      assert s == includes;
      OtherLetterIsNotSwitch(includes, " -np ");
    }
  }

  /** The `post_args` that `run_lems_with_jneuroml_netpyne` hands to jnml,
      built by successive appends as the source does. */
  method NetpynePostArgs(numProcessors: int, onlyGenerateScripts: bool, onlyGenerateJson: bool,
                         nogui: bool, paths: IncludeArg)
    returns (postArgs: string)
    ensures StartsWith(postArgs, " -netpyne")
    ensures EndsWith(postArgs, GuiString(nogui) + IncludeString(paths))
    ensures ReadNetpyneArgs(postArgs)
            == Some(NetpyneSwitches(if numProcessors != 1 then Some(numProcessors) else None,
                                    !onlyGenerateScripts && !onlyGenerateJson, onlyGenerateJson,
                                    nogui, IncludeString(paths)))
  {
    postArgs := " -netpyne";
    if numProcessors != 1 {
      postArgs := postArgs + " -np " + IntText(numProcessors);
    }
    ghost var np := ProcessorsSwitch(numProcessors);
    assert postArgs == " -netpyne" + np;
    if !onlyGenerateScripts && !onlyGenerateJson {
      postArgs := postArgs + " -run";
    }
    ghost var run := Switch(!onlyGenerateScripts && !onlyGenerateJson, " -run");
    assert postArgs == " -netpyne" + np + run;
    if onlyGenerateJson {
      postArgs := postArgs + " -json";
    }
    ghost var json := Switch(onlyGenerateJson, " -json");
    assert postArgs == " -netpyne" + np + run + json;
    postArgs := postArgs + GuiString(nogui);
    postArgs := postArgs + IncludeString(paths);
    assert postArgs == " -netpyne" + np + run + json + GuiString(nogui) + IncludeString(paths);
    NetpyneArgsOf(numProcessors, !onlyGenerateScripts && !onlyGenerateJson, onlyGenerateJson,
                  nogui, IncludeString(paths));
  }

  lemma NetpyneArgsOf(numProcessors: int, run: bool, json: bool, nogui: bool, includes: string)
    requires includes == "" || includes[0] == ' '
    requires OptionLetterIsNot(includes, 'r') && OptionLetterIsNot(includes, 'j')
    requires OptionLetterIsNot(includes, 'n')
    ensures var s := " -netpyne" + ProcessorsSwitch(numProcessors) + Switch(run, " -run")
                     + Switch(json, " -json") + GuiString(nogui) + includes;
            && StartsWith(s, " -netpyne")
            && EndsWith(s, GuiString(nogui) + includes)
            && ReadNetpyneArgs(s) == Some(NetpyneSwitches(if numProcessors != 1 then Some(numProcessors) else None,
                                                          run, json, nogui, includes))
  {
    var p, r, j, g := ProcessorsSwitch(numProcessors), Switch(run, " -run"), Switch(json, " -json"),
                      Switch(nogui, " -nogui");
    assert GuiString(nogui) == g;
    AppendsNest6(" -netpyne", p, r, j, g, includes);
    ReadNetpyneArgsOf(numProcessors, run, json, nogui, includes);
    PrefixAndRest(" -netpyne", p + (r + (j + (g + includes))));
    SuffixOf(" -netpyne" + p + r + j, g + includes);
  }

  lemma AppendsNest6(a: string, b: string, c: string, d: string, e: string, f: string)
    ensures a + b + c + d + e + f == a + (b + (c + (d + (e + f))))
    ensures a + b + c + d + e + f == (a + b + c + d) + (e + f)
  {
  }

  // ---------------------------------------------------------------------
  // run_jneuroml

  const HeadlessFlag := " -Djava.awt.headless=true"

  /** The JVM flag placed before `-jar`: headless exactly when the post
      arguments are non-empty and mention "nogui", and the OS is not "nt". */
  function PreJar(postArgs: string, osName: string): (r: string)
    ensures r == HeadlessFlag || r == ""
  {
    if postArgs != "" && Contains(postArgs, "nogui") && osName != "nt" then HeadlessFlag else ""
  }

  /** Asking for no GUI anywhere in the post arguments makes the JVM
      headless on every OS except "nt"; without "nogui" it never is. */
  lemma GuiSwitchMakesHeadless(before: string, after: string, osName: string)
    ensures PreJar(before + GuiString(true) + after, osName) == HeadlessFlag <==> osName != "nt"
    ensures !Contains(before + after, "nogui") ==> PreJar(before + GuiString(false) + after, osName) == ""
  {
    var s := before + GuiString(true) + after;
    assert s == before + " -" + "nogui" + after;
    assert s == (before + " -") + "nogui" + after;
    ContainsInMiddle(before + " -", "nogui", after);
    assert before + GuiString(false) + after == before + after;
  }

  /** What `execute_command_in_dir` reported: a finished process with its
      return code and output, or an exception. */
  datatype ProcessOutcome = Completed(retcode: int, output: string) | Raised

  /** What `run_jneuroml` hands back: a flag, a flag with the output, or an
      exit of the interpreter (with the process's code, or with
      UNKNOWN_ERR after an exception). */
  datatype JnmlReturn =
    | Flag(ok: bool)
    | FlagWithOutput(ok: bool, output: string)
    | SysExit(code: int)
    | SysExitUnknownErr

  predicate Succeeded(outcome: ProcessOutcome) {
    outcome.Completed? && outcome.retcode == 0
  }

  /** The output captured before the failure or success; "" when the call
      raised before any output was assigned. */
  function CapturedOutput(outcome: ProcessOutcome): string {
    if outcome.Completed? then outcome.output else ""
  }

  /** `run_jneuroml` after the command has run. */
  function RunJneuroml(outcome: ProcessOutcome, exitOnFail: bool, returnString: bool): (r: JnmlReturn)
    ensures (r.SysExit? || r.SysExitUnknownErr?) <==> exitOnFail && !Succeeded(outcome)
    ensures r.SysExit? ==> outcome.Completed? && r.code == outcome.retcode && r.code != 0
    ensures r.SysExitUnknownErr? ==> outcome.Raised?
    ensures r.Flag? ==> !returnString && r.ok == Succeeded(outcome)
    ensures r.FlagWithOutput? ==> returnString && r.ok == Succeeded(outcome)
                                  && r.output == CapturedOutput(outcome)
    ensures !exitOnFail || Succeeded(outcome) ==> (r.Flag? || r.FlagWithOutput?)
  {
    match outcome
    case Completed(retcode, output) =>
      if retcode != 0 then
        if exitOnFail then SysExit(retcode)
        else if returnString then FlagWithOutput(false, output) else Flag(false)
      else if returnString then FlagWithOutput(true, output) else Flag(true)
    case Raised =>
      if exitOnFail then SysExitUnknownErr
      else if returnString then FlagWithOutput(false, "") else Flag(false)
  }
}

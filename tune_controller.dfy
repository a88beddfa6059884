/** The `NeuroMLController` object of pyneuroml/tune/NeuroMLController.py:
    its validated settings, its run counter and its document, and the
    candidate loop of `run`.  Running a simulation is a parameter
    (`simulate`), given the updated document and the path it is written to. */
module Tune {
  import opened Base
  import opened Variables

  // =====================================================================
  // Settings

  /** `generate_dir` if it already ends with "/", and otherwise with one
      "/" appended. */
  function NormaliseDir(dir: string): (r: string)
    ensures EndsWith(r, "/")
    ensures EndsWith(dir, "/") ==> r == dir
    ensures !EndsWith(dir, "/") ==> r == dir + "/"
  {
    if EndsWith(dir, "/") then dir else dir + "/"
  }

  lemma NormaliseDirIdempotent(dir: string)
    ensures NormaliseDir(NormaliseDir(dir)) == NormaliseDir(dir)
  {
  }

  /** The constructor's check: the value is a whole number, at least 1. */
  predicate ValidParallelism(n: real) {
    n.Floor as real == n && n >= 1.0
  }

  // =====================================================================
  // sim_var = dict(zip(parameters, candidate))

  /** Python `zip`: pairs up to the shorter length. */
  function Zip(keys: seq<string>, values: seq<string>): (r: seq<(string, string)>)
    ensures |r| == if |keys| < |values| then |keys| else |values|
    ensures forall i :: 0 <= i < |r| ==> r[i] == (keys[i], values[i])
  {
    seq(if |keys| < |values| then |keys| else |values|, i requires 0 <= i < |keys| && i < |values| => (keys[i], values[i]))
  }

  /** `d[key] = value` on an insertion-ordered dictionary. */
  function Insert(d: seq<(string, string)>, key: string, value: string): seq<(string, string)> {
    match FirstIndex(Names(d), (k: string) => k == key)
    case Some(i) => d[i := (key, value)]
    case None => d + [(key, value)]
  }

  /** Python `dict(pairs)`: keys in first-insertion order, the last value
      given for a key wins. */
  function DictOf(pairs: seq<(string, string)>): seq<(string, string)>
    decreases |pairs|
  {
    if pairs == [] then []
    else Insert(DictOf(pairs[..|pairs| - 1]), pairs[|pairs| - 1].0, pairs[|pairs| - 1].1)
  }

  predicate DistinctKeys(d: seq<(string, string)>) {
    forall i, j :: 0 <= i < j < |d| ==> d[i].0 != d[j].0
  }

  /** With distinct parameter names the dictionary is the zipped pairs
      themselves, in parameter order. */
  lemma {:induction false} DictOfDistinct(pairs: seq<(string, string)>)
    requires DistinctKeys(pairs)
    ensures DictOf(pairs) == pairs
    decreases |pairs|
  {
    if pairs != [] {
      var n := |pairs| - 1;
      DictOfDistinct(pairs[..n]);
      FirstIndexIsFirstMatch(Names(pairs[..n]), (k: string) => k == pairs[n].0);
      assert pairs[..n] + [pairs[n]] == pairs;
    }
  }

  /** The dictionary never holds a key twice. */
  lemma {:induction false} DictOfHasDistinctKeys(pairs: seq<(string, string)>)
    ensures DistinctKeys(DictOf(pairs))
    decreases |pairs|
  {
    if pairs != [] {
      var n := |pairs| - 1;
      var d := DictOf(pairs[..n]);
      DictOfHasDistinctKeys(pairs[..n]);
      FirstIndexIsFirstMatch(Names(d), (k: string) => k == pairs[n].0);
    }
  }

  function SimVar(parameters: seq<string>, candidate: seq<string>): seq<(string, string)> {
    DictOf(Zip(parameters, candidate))
  }

  // =====================================================================
  // What `run` computes

  datatype RunError = Tuning(error: TuneError) | ZeroDivision

  /** The documents and traces of the sequential path from candidate `i` on:
      every candidate's values are applied to the document the previous
      candidates left, in candidate order. */
  datatype Progress<V> = Progress(doc: Document, traces: seq<V>, error: Option<TuneError>)

  function Sequential<V>(doc: Document, parameters: seq<string>, candidates: seq<seq<string>>, i: nat,
                         traces: seq<V>, newFile: string, simulate: (Document, string) -> V): Progress<V>
    requires i <= |candidates|
    decreases |candidates| - i
  {
    if i == |candidates| then Progress(doc, traces, None)
    else
      var a := ApplyKeys(doc, SimVar(parameters, candidates[i]), 0);
      if a.error.Some? then Progress(a.doc, traces, a.error)
      else Sequential(a.doc, parameters, candidates, i + 1, traces + [simulate(a.doc, newFile)], newFile, simulate)
  }

  /** One step of the sequential path. */
  lemma SequentialStep<V>(doc: Document, parameters: seq<string>, candidates: seq<seq<string>>, i: nat,
                          traces: seq<V>, newFile: string, simulate: (Document, string) -> V)
    requires i < |candidates|
    ensures var a := ApplyKeys(doc, SimVar(parameters, candidates[i]), 0);
            Sequential(doc, parameters, candidates, i, traces, newFile, simulate)
            == if a.error.Some? then Progress(a.doc, traces, a.error)
               else Sequential(a.doc, parameters, candidates, i + 1, traces + [simulate(a.doc, newFile)], newFile, simulate)
  {
  }

  /** `self.generate_dir + "/CANDIDATE_%s" % candidate_i`. */
  function CandidateDir(generateDir: string, i: nat): string {
    generateDir + "/CANDIDATE_" + NatText(i)
  }

  /** One parallel job: the candidate's values applied to the controller's
      own document, written into the candidate's directory. */
  function Job<V>(doc: Document, parameters: seq<string>, candidate: seq<string>, candDir: string,
                  neuromlFile: string, simulate: (Document, string) -> V): Result<V, TuneError>
  {
    var a := ApplyKeys(doc, SimVar(parameters, candidate), 0);
    if a.error.Some? then Err(a.error.value)
    else Ok(simulate(a.doc, NewNeuromlFile(candDir, neuromlFile)))
  }

  /** The jobs of a parallel run, one per candidate, in submission order. */
  function Jobs<V>(doc: Document, parameters: seq<string>, candidates: seq<seq<string>>,
                   generateDir: string, neuromlFile: string, simulate: (Document, string) -> V): (js: seq<Result<V, TuneError>>)
    ensures |js| == |candidates|
    ensures forall k :: 0 <= k < |candidates| ==>
              js[k] == Job(doc, parameters, candidates[k], CandidateDir(generateDir, k), neuromlFile, simulate)
  {
    seq(|candidates|, k requires 0 <= k < |candidates| =>
          Job(doc, parameters, candidates[k], CandidateDir(generateDir, k), neuromlFile, simulate))
  }

  /** `t, v = job(); traces.append([t, v])` for the jobs from `i` on: the
      first failed job ends the collection. */
  function Collect<V>(jobs: seq<Result<V, TuneError>>, i: nat): Result<seq<V>, TuneError>
    requires i <= |jobs|
    decreases |jobs| - i
  {
    if i == |jobs| then Ok([])
    else match jobs[i]
      case Err(e) => Err(e)
      case Ok(v) =>
        match Collect(jobs, i + 1)
        case Err(e) => Err(e)
        case Ok(vs) => Ok([v] + vs)
  }

  /** The traces of the parallel path. */
  function Parallel<V>(doc: Document, parameters: seq<string>, candidates: seq<seq<string>>,
                       generateDir: string, neuromlFile: string, simulate: (Document, string) -> V): Result<seq<V>, TuneError>
  {
    Collect(Jobs(doc, parameters, candidates, generateDir, neuromlFile, simulate), 0)
  }

  /** The collecting loop of the parallel path: `t, v = job()` in
      submission order, the first failed job ending the run. */
  method CollectResults<V>(jobs: seq<Result<V, TuneError>>) returns (r: Result<seq<V>, TuneError>)
    ensures r == Collect(jobs, 0)
  {
    ghost var whole := Collect(jobs, 0);
    var traces: seq<V> := [];
    if whole.Ok? {
      assert traces + whole.value == whole.value;
    }
    for i := 0 to |jobs|
      invariant whole == match Collect(jobs, i)
                         case Err(e) => Err(e)
                         case Ok(vs) => Ok(traces + vs)
    {
      var job := jobs[i];
      if job.Err? {
        return Err(job.error);
      }
      ghost var rest := Collect(jobs, i + 1);
      if rest.Ok? {
        assert traces + [job.value] + rest.value == traces + ([job.value] + rest.value);
      }
      traces := traces + [job.value];
    }
    assert traces + [] == traces;
    return Ok(traces);
  }

  /** A collection that succeeds holds every job's value, in order. */
  lemma {:induction false} CollectTraces<V>(jobs: seq<Result<V, TuneError>>, i: nat)
    requires i <= |jobs|
    ensures Collect(jobs, i).Ok? ==>
              && |Collect(jobs, i).value| == |jobs| - i
              && forall k :: i <= k < |jobs| ==> jobs[k] == Ok(Collect(jobs, i).value[k - i])
    decreases |jobs| - i
  {
    if i < |jobs| {
      CollectTraces(jobs, i + 1);
      var r := Collect(jobs, i);
      if r.Ok? {
        var rest := Collect(jobs, i + 1);
        assert rest.Ok? && r.value == [jobs[i].value] + rest.value;
        forall k | i < k < |jobs|
          ensures jobs[k] == Ok(r.value[k - i])
        {
          assert r.value[k - i] == rest.value[k - (i + 1)];
        }
      }
    }
  }

  /** A collection fails exactly when one of its jobs fails. */
  lemma {:induction false} CollectFails<V>(jobs: seq<Result<V, TuneError>>, i: nat)
    requires i <= |jobs|
    ensures Collect(jobs, i).Err? <==> exists k :: i <= k < |jobs| && jobs[k].Err?
    decreases |jobs| - i
  {
    if i < |jobs| {
      CollectFails(jobs, i + 1);
      if jobs[i].Ok? {
        forall k | i <= k < |jobs| && jobs[k].Err?
          ensures i + 1 <= k
        {
        }
      }
    }
  }

  /** A sequential run that finishes has one trace per candidate, in order,
      after the traces it started with. */
  lemma {:induction false} SequentialTraceCount<V>(doc: Document, parameters: seq<string>, candidates: seq<seq<string>>, i: nat,
                                                  traces: seq<V>, newFile: string, simulate: (Document, string) -> V)
    requires i <= |candidates|
    ensures var p := Sequential(doc, parameters, candidates, i, traces, newFile, simulate);
            && (p.error.None? ==> |p.traces| == |traces| + |candidates| - i)
            && (p.error.Some? ==> |p.traces| < |traces| + |candidates| - i)
            && |traces| <= |p.traces| && p.traces[..|traces|] == traces
    decreases |candidates| - i
  {
    if i < |candidates| {
      var a := ApplyKeys(doc, SimVar(parameters, candidates[i]), 0);
      if a.error.None? {
        var t' := traces + [simulate(a.doc, newFile)];
        SequentialTraceCount(a.doc, parameters, candidates, i + 1, t', newFile, simulate);
        var p := Sequential(a.doc, parameters, candidates, i + 1, t', newFile, simulate);
        assert p.traces[..|traces|] == p.traces[..|t'|][..|traces|];
      }
    }
  }

  /** Every parallel job sees the controller's document as it was: trace `k`
      comes from candidate `k`'s values applied to that document alone, in
      directory `CANDIDATE_k`. */
  lemma ParallelTraces<V>(doc: Document, parameters: seq<string>, candidates: seq<seq<string>>,
                          generateDir: string, neuromlFile: string, simulate: (Document, string) -> V)
    ensures var r := Parallel(doc, parameters, candidates, generateDir, neuromlFile, simulate);
            r.Ok? ==>
              && |r.value| == |candidates|
              && forall k :: 0 <= k < |candidates| ==>
                   Job(doc, parameters, candidates[k], CandidateDir(generateDir, k), neuromlFile, simulate) == Ok(r.value[k])
  {
    var jobs := Jobs(doc, parameters, candidates, generateDir, neuromlFile, simulate);
    CollectTraces(jobs, 0);
    var r := Collect(jobs, 0);
    if r.Ok? {
      forall k | 0 <= k < |candidates|
        ensures Job(doc, parameters, candidates[k], CandidateDir(generateDir, k), neuromlFile, simulate) == Ok(r.value[k])
      {
        assert jobs[k] == Ok(r.value[k - 0]);
      }
    }
  }

  /** The parallel run fails exactly when one of its jobs fails. */
  lemma ParallelFailsOnFailedJob<V>(doc: Document, parameters: seq<string>, candidates: seq<seq<string>>,
                                    generateDir: string, neuromlFile: string, simulate: (Document, string) -> V)
    ensures Parallel(doc, parameters, candidates, generateDir, neuromlFile, simulate).Err?
            <==> exists k :: 0 <= k < |candidates| && JobFails(doc, parameters, candidates, k, generateDir, neuromlFile, simulate)
  {
    var jobs := Jobs(doc, parameters, candidates, generateDir, neuromlFile, simulate);
    CollectFails(jobs, 0);
    if exists k :: 0 <= k < |candidates| && JobFails(doc, parameters, candidates, k, generateDir, neuromlFile, simulate) {
      var k :| 0 <= k < |candidates| && JobFails(doc, parameters, candidates, k, generateDir, neuromlFile, simulate);
      assert jobs[k].Err?;
    }
    if Collect(jobs, 0).Err? {
      var k :| 0 <= k < |jobs| && jobs[k].Err?;
      assert JobFails(doc, parameters, candidates, k, generateDir, neuromlFile, simulate);
    }
  }

  predicate JobFails<V>(doc: Document, parameters: seq<string>, candidates: seq<seq<string>>, k: nat,
                        generateDir: string, neuromlFile: string, simulate: (Document, string) -> V)
    requires k < |candidates|
  {
    Job(doc, parameters, candidates[k], CandidateDir(generateDir, k), neuromlFile, simulate).Err?
  }

  // =====================================================================
  // The controller object

  class Controller {
    var reference: string
    var neuromlFile: string
    var target: string
    var simTime: real
    var dt: real
    var simulator: string
    var generateDir: string
    var numParallelEvaluations: real
    var cleanup: bool
    var nmlDoc: Document
    var stillIncluded: seq<string>
    var count: nat

    /** What construction establishes and every method keeps. */
    predicate Valid()
      reads this
    {
      EndsWith(generateDir, "/") && ValidParallelism(numParallelEvaluations)
    }

    /** What `Valid` buys the parallel path: a controller whose parallelism
      is not 1 hands `pp.Server` a whole number of at least two workers. */
    lemma ParallelPathHasWorkers()
      requires Valid() && numParallelEvaluations != 1.0
      ensures numParallelEvaluations.Floor as real == numParallelEvaluations
      ensures numParallelEvaluations >= 2.0
    {
      assert numParallelEvaluations.Floor >= 1;
    }

    /** `__init__` on a document already read from `neuromlFile`; the check
      on the parallelism value that raises is `NewController`'s. */
    constructor(reference: string, neuromlFile: string, target: string, simTime: real, dt: real,
                simulator: string, generateDir: string, numParallelEvaluations: real, cleanup: bool,
                doc: Document)
      requires ValidParallelism(numParallelEvaluations)
      ensures Valid()
      ensures this.generateDir == NormaliseDir(generateDir)
      ensures this.numParallelEvaluations == numParallelEvaluations
      ensures this.nmlDoc == doc && this.stillIncluded == doc.includes && this.count == 0
      ensures this.reference == reference && this.neuromlFile == neuromlFile && this.target == target
      ensures this.simTime == simTime && this.dt == dt && this.simulator == simulator && this.cleanup == cleanup
    {
      this.reference := reference;
      this.neuromlFile := neuromlFile;
      this.target := target;
      this.simTime := simTime;
      this.dt := dt;
      this.simulator := simulator;
      this.generateDir := if EndsWith(generateDir, "/") then generateDir else generateDir + "/";
      this.numParallelEvaluations := numParallelEvaluations;
      this.cleanup := cleanup;
      this.nmlDoc := doc;
      new;
      var included: seq<string> := [];
      for k := 0 to |doc.includes|
        invariant included == doc.includes[..k]
      {
        included := included + [doc.includes[k]];
      }
      this.stillIncluded := included;
      this.count := 0;
    }

    /** `run_individual` on the controller's own document, which it changes
      in place, written to the controller's directory. */
    method RunIndividual<V>(simVar: seq<(string, string)>, simulate: (Document, string) -> V)
      returns (r: Result<V, TuneError>)
      requires Valid()
      modifies this`nmlDoc
      ensures Valid()
      ensures var a := ApplyKeys(old(nmlDoc), simVar, 0);
              && nmlDoc == a.doc
              && r == (if a.error.Some? then Err(a.error.value) else Ok(simulate(a.doc, NewNeuromlFile(generateDir, neuromlFile))))
      ensures count == old(count) && generateDir == old(generateDir) && neuromlFile == old(neuromlFile)
      ensures numParallelEvaluations == old(numParallelEvaluations)
    {
      var applied := ApplyVariables(nmlDoc, simVar);
      nmlDoc := applied.doc;
      if applied.error.Some? {
        return Err(applied.error.value);
      }
      var newNeuromlFile := generateDir + "/" + Basename(neuromlFile);
      return Ok(simulate(nmlDoc, newNeuromlFile));
    }

    /** `run`: one trace per candidate, in candidate order.  With a
      parallelism of 1 the candidates run one after another on the
      controller's document, which keeps their changes; otherwise each job
      starts from the document as it is, in its own directory.  Either way
      the counter rises by one per candidate started, and an empty candidate
      list ends in a division by zero. */
    method Run<V>(candidates: seq<seq<string>>, parameters: seq<string>, simulate: (Document, string) -> V)
      returns (r: Result<seq<V>, RunError>)
      requires Valid()
      modifies this`nmlDoc, this`count
      ensures Valid()
      ensures generateDir == old(generateDir) && neuromlFile == old(neuromlFile)
      ensures numParallelEvaluations == old(numParallelEvaluations)
      ensures old(numParallelEvaluations) == 1.0 ==>
                var p := Sequential(old(nmlDoc), parameters, candidates, 0, [], NewNeuromlFile(generateDir, neuromlFile), simulate);
                && nmlDoc == p.doc
                && count == old(count) + (if p.error.Some? then |p.traces| + 1 else |candidates|)
                && r == (if p.error.Some? then Err(Tuning(p.error.value))
                         else if |candidates| == 0 then Err(ZeroDivision) else Ok(p.traces))
      ensures old(numParallelEvaluations) != 1.0 ==>
                var jobs := Parallel(old(nmlDoc), parameters, candidates, generateDir, neuromlFile, simulate);
                && nmlDoc == old(nmlDoc)
                && count == old(count) + |candidates|
                && r == (if jobs.Err? then Err(Tuning(jobs.error))
                         else if |candidates| == 0 then Err(ZeroDivision) else Ok(jobs.value))
    {
      var traces: Result<seq<V>, TuneError>;
      if numParallelEvaluations == 1.0 {
        traces := RunSequential(candidates, parameters, simulate);
      } else {
        traces := RunParallel(candidates, parameters, simulate);
      }
      if traces.Err? {
        return Err(Tuning(traces.error));
      }
      if |candidates| == 0 {
        return Err(ZeroDivision);
      }
      return Ok(traces.value);
    }

    /** The sequential path of `run`. */
    method RunSequential<V>(candidates: seq<seq<string>>, parameters: seq<string>, simulate: (Document, string) -> V)
      returns (r: Result<seq<V>, TuneError>)
      requires Valid()
      modifies this`nmlDoc, this`count
      ensures Valid()
      ensures generateDir == old(generateDir) && neuromlFile == old(neuromlFile)
      ensures numParallelEvaluations == old(numParallelEvaluations)
      ensures var p := Sequential(old(nmlDoc), parameters, candidates, 0, [], NewNeuromlFile(generateDir, neuromlFile), simulate);
              && nmlDoc == p.doc
              && count == old(count) + (if p.error.Some? then |p.traces| + 1 else |candidates|)
              && r == (if p.error.Some? then Err(p.error.value) else Ok(p.traces))
    {
      var traces: seq<V> := [];
      ghost var newFile := NewNeuromlFile(generateDir, neuromlFile);
      ghost var whole := Sequential(nmlDoc, parameters, candidates, 0, [], newFile, simulate);
      for i := 0 to |candidates|
        invariant Valid()
        invariant generateDir == old(generateDir) && neuromlFile == old(neuromlFile)
        invariant numParallelEvaluations == old(numParallelEvaluations)
        invariant Sequential(nmlDoc, parameters, candidates, i, traces, newFile, simulate) == whole
        invariant |traces| == i && count == old(count) + i
        invariant newFile == NewNeuromlFile(generateDir, neuromlFile)
      {
        ghost var doc := nmlDoc;
        var simVar := SimVar(parameters, candidates[i]);
        count := count + 1;
        var tv := RunIndividual(simVar, simulate);
        SequentialStep(doc, parameters, candidates, i, traces, newFile, simulate);
        if tv.Err? {
          return Err(tv.error);
        }
        traces := traces + [tv.value];
      }
      return Ok(traces);
    }

    /** The parallel path of `run`: every job is submitted, then the results
      are collected in submission order. */
    method RunParallel<V>(candidates: seq<seq<string>>, parameters: seq<string>, simulate: (Document, string) -> V)
      returns (r: Result<seq<V>, TuneError>)
      requires Valid()
      modifies this`count
      ensures Valid()
      ensures generateDir == old(generateDir) && neuromlFile == old(neuromlFile)
      ensures numParallelEvaluations == old(numParallelEvaluations)
      ensures nmlDoc == old(nmlDoc) && count == old(count) + |candidates|
      ensures r == Parallel(old(nmlDoc), parameters, candidates, generateDir, neuromlFile, simulate)
    {
      var doc, dir, file := nmlDoc, generateDir, neuromlFile;
      var jobs: seq<Result<V, TuneError>> := [];
      for i := 0 to |candidates|
        invariant Valid() && numParallelEvaluations == old(numParallelEvaluations)
        invariant generateDir == dir && neuromlFile == file && nmlDoc == doc
        invariant count == old(count) + i
        invariant |jobs| == i
        invariant forall k :: 0 <= k < i ==>
                    jobs[k] == Job(doc, parameters, candidates[k], CandidateDir(dir, k), file, simulate)
      {
        var simVar := SimVar(parameters, candidates[i]);
        count := count + 1;
        var candDir := dir + "/CANDIDATE_" + NatText(i);
        jobs := jobs + [Job(doc, parameters, candidates[i], candDir, file, simulate)];
      }
      assert jobs == Jobs(doc, parameters, candidates, dir, file, simulate);
      r := CollectResults(jobs);
    }
  }

  /** The constructor with its check: a parallelism value that is not a whole
      number of at least 1 raises instead of building a controller. */
  method NewController(reference: string, neuromlFile: string, target: string, simTime: real, dt: real,
                       simulator: string, generateDir: string, numParallelEvaluations: real, cleanup: bool,
                       doc: Document)
    returns (r: Result<Controller, string>)
    ensures r.Err? <==> !ValidParallelism(numParallelEvaluations)
    ensures r.Ok? ==>
              var c := r.value;
              && fresh(c) && c.Valid()
              && c.generateDir == NormaliseDir(generateDir)
              && c.numParallelEvaluations == numParallelEvaluations
              && c.nmlDoc == doc && c.stillIncluded == doc.includes && c.count == 0
              && c.reference == reference && c.neuromlFile == neuromlFile && c.target == target
              && c.simTime == simTime && c.dt == dt && c.simulator == simulator && c.cleanup == cleanup
  {
    if numParallelEvaluations.Floor as real != numParallelEvaluations || numParallelEvaluations < 1.0 {
      return Err("Error with num_parallel_evaluations");
    }
    var c := new Controller(reference, neuromlFile, target, simTime, dt, simulator, generateDir,
                            numParallelEvaluations, cleanup, doc);
    return Ok(c);
  }
}

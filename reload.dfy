/** The plain-text result readers of `reload_saved_data` in
    pyneuroml/runners.py.  The LEMS file has already been read: each output
    file arrives as its name, whether it was found, whether it is older than
    the run, its declared columns or event selections, and its lines split
    into whitespace-separated tokens. */
module Reload {
  import opened Base

  /** A whitespace-separated token of a data file, as Python's `float()` and
      `int()` see it: an integer literal, a decimal literal, or anything
      else. */
  datatype Token = IntTok(i: int) | DecTok(r: real) | Word(text: string)

  datatype ReloadError =
    | OutputNotFound(fileName: string)     // OSError
    | OutputNotModified(fileName: string)  // Exception: older than the run
    | IndexError
    | ValueError
    | KeyError
    | UnboundLocal                         // UnboundLocalError on `t` or `id`

  /** Python `float(token)`. */
  function AsFloat(tok: Token): (r: Result<real, ReloadError>)
    ensures r.Ok? <==> !tok.Word?
    ensures tok.IntTok? ==> r == Ok(tok.i as real)
  {
    match tok
    case IntTok(i) => Ok(i as real)
    case DecTok(x) => Ok(x)
    case Word(_) => Err(ValueError)
  }

  /** Python `int(token)`: only integer literals convert. */
  function AsInt(tok: Token): (r: Result<int, ReloadError>)
    ensures r.Ok? <==> tok.IntTok?
  {
    if tok.IntTok? then Ok(tok.i) else Err(ValueError)
  }

  /** The number a numeric token denotes (a word stands for no number;
      it gets 0, which no accepted file ever uses). */
  function Number(tok: Token): real {
    match tok
    case IntTok(i) => i as real
    case DecTok(x) => x
    case Word(_) => 0.0
  }

  // =====================================================================
  // Column traces

  type Traces = map<string, seq<real>>

  datatype OutputFile = OutputFile(
    fileName: string,
    found: bool,
    stale: bool,
    quantities: seq<string>,
    lines: seq<seq<Token>>)

  /** The column list: "t" and then the declared quantities in order. */
  function Columns(quantities: seq<string>): (cols: seq<string>)
    ensures |cols| == |quantities| + 1 && cols[0] == "t"
    ensures forall i :: 0 <= i < |quantities| ==> cols[i + 1] == quantities[i]
  {
    ["t"] + quantities
  }

  /** `traces[cols[vi]].append(float(values[vi]))` for one token. */
  function ColumnStep(traces: Traces, cols: seq<string>, vi: nat, tok: Token): Result<Traces, ReloadError> {
    if vi >= |cols| then Err(IndexError)
    else if cols[vi] !in traces then Err(KeyError)
    else match AsFloat(tok)
      case Err(e) => Err(e)
      case Ok(v) => Ok(traces[cols[vi] := traces[cols[vi]] + [v]])
  }

  /** The tokens of one line from position `vi` on, left to right. */
  function AppendTokens(traces: Traces, cols: seq<string>, line: seq<Token>, vi: nat): Result<Traces, ReloadError>
    requires vi <= |line|
    decreases |line| - vi
  {
    if vi == |line| then Ok(traces)
    else match ColumnStep(traces, cols, vi, line[vi])
      case Err(e) => Err(e)
      case Ok(t) => AppendTokens(t, cols, line, vi + 1)
  }

  /** The lines of a file from line `l` on, in order. */
  function AppendLines(traces: Traces, cols: seq<string>, lines: seq<seq<Token>>, l: nat): Result<Traces, ReloadError>
    requires l <= |lines|
    decreases |lines| - l
  {
    if l == |lines| then Ok(traces)
    else match AppendTokens(traces, cols, lines[l], 0)
      case Err(e) => Err(e)
      case Ok(t) => AppendLines(t, cols, lines, l + 1)
  }

  /** `traces[quantity] = []` for each declared quantity in turn. */
  function ResetColumns(traces: Traces, quantities: seq<string>): Traces
    decreases |quantities|
  {
    if quantities == [] then traces
    else ResetColumns(traces, quantities[..|quantities| - 1])[quantities[|quantities| - 1] := []]
  }

  /** Resetting adds exactly the quantities as keys, empties their traces
      and keeps every other trace. */
  lemma {:induction false} ResetColumnsMeaning(traces: Traces, quantities: seq<string>)
    ensures ResetColumns(traces, quantities).Keys == traces.Keys + set q | q in quantities
    ensures forall q :: q in quantities ==> ResetColumns(traces, quantities)[q] == []
    ensures forall k :: k in traces && k !in quantities ==> ResetColumns(traces, quantities)[k] == traces[k]
    decreases |quantities|
  {
    if quantities != [] {
      var n := |quantities| - 1;
      ResetColumnsMeaning(traces, quantities[..n]);
      assert quantities == quantities[..n] + [quantities[n]];
      assert forall q :: q in quantities <==> q in quantities[..n] || q == quantities[n];
    }
  }

  /** One output file: "t" is reset, missing and stale files raise, the
      quantities are reset, and every line is appended column by column. */
  function LoadOutputFile(traces: Traces, of: OutputFile): Result<Traces, ReloadError> {
    var withTime := traces["t" := []];
    if !of.found then Err(OutputNotFound(of.fileName))
    else if of.stale then Err(OutputNotModified(of.fileName))
    else AppendLines(ResetColumns(withTime, of.quantities), Columns(of.quantities), of.lines, 0)
  }

  /** All output files from file `i` on, in order. */
  function LoadOutputFiles(traces: Traces, files: seq<OutputFile>, i: nat): Result<Traces, ReloadError>
    requires i <= |files|
    decreases |files| - i
  {
    if i == |files| then Ok(traces)
    else match LoadOutputFile(traces, files[i])
      case Err(e) => Err(e)
      case Ok(t) => LoadOutputFiles(t, files, i + 1)
  }

  /** The reading loop over one output file. */
  method ReadOutputFile(traces0: Traces, of: OutputFile) returns (r: Result<Traces, ReloadError>)
    ensures r == LoadOutputFile(traces0, of)
  {
    var traces := traces0["t" := []];
    if !of.found {
      return Err(OutputNotFound(of.fileName));
    }
    if of.stale {
      return Err(OutputNotModified(of.fileName));
    }
    var cols;
    traces, cols := DeclareColumns(traces, of.quantities);
    r := ReadLines(traces, cols, of.lines);
  }

  /** `cols = ["t"]`, then `traces[quantity] = []` and `cols.append(quantity)`
      for each declared quantity. */
  method DeclareColumns(traces0: Traces, quantities: seq<string>) returns (traces: Traces, cols: seq<string>)
    ensures traces == ResetColumns(traces0, quantities) && cols == Columns(quantities)
  {
    traces, cols := traces0, ["t"];
    for q := 0 to |quantities|
      invariant traces == ResetColumns(traces0, quantities[..q])
      invariant cols == ["t"] + quantities[..q]
    {
      ghost var upTo := quantities[..q + 1];
      assert upTo[..|upTo| - 1] == quantities[..q] && upTo[|upTo| - 1] == quantities[q];
      assert ResetColumns(traces0, upTo) == ResetColumns(traces0, quantities[..q])[quantities[q] := []];
      traces := traces[quantities[q] := []];
      cols := cols + [quantities[q]];
    }
    assert quantities[..|quantities|] == quantities;
  }

  /** The loop over the lines of a data file. */
  method ReadLines(traces0: Traces, cols: seq<string>, lines: seq<seq<Token>>) returns (r: Result<Traces, ReloadError>)
    ensures r == AppendLines(traces0, cols, lines, 0)
  {
    var traces := traces0;
    for l := 0 to |lines|
      invariant AppendLines(traces, cols, lines, l) == AppendLines(traces0, cols, lines, 0)
    {
      var line := ReadLine(traces, cols, lines[l]);
      if line.Err? {
        return Err(line.error);
      }
      traces := line.value;
    }
    return Ok(traces);
  }

  /** `for vi in range(len(values)): traces[cols[vi]].append(float(values[vi]))`. */
  method ReadLine(traces0: Traces, cols: seq<string>, values: seq<Token>) returns (r: Result<Traces, ReloadError>)
    ensures r == AppendTokens(traces0, cols, values, 0)
  {
    var traces := traces0;
    for vi := 0 to |values|
      invariant AppendTokens(traces, cols, values, vi) == AppendTokens(traces0, cols, values, 0)
    {
      if vi >= |cols| {
        return Err(IndexError);
      }
      if cols[vi] !in traces {
        return Err(KeyError);
      }
      var tok := values[vi];
      if tok.Word? {
        return Err(ValueError);
      }
      var v := if tok.IntTok? then tok.i as real else tok.r;
      traces := traces[cols[vi] := traces[cols[vi]] + [v]];
    }
    return Ok(traces);
  }

  /** The reading loop over all output files. */
  method ReloadTraces(traces0: Traces, files: seq<OutputFile>) returns (r: Result<Traces, ReloadError>)
    ensures r == LoadOutputFiles(traces0, files, 0)
  {
    var traces := traces0;
    for i := 0 to |files|
      invariant LoadOutputFiles(traces, files, i) == LoadOutputFiles(traces0, files, 0)
    {
      var loaded := ReadOutputFile(traces, files[i]);
      if loaded.Err? {
        return Err(loaded.error);
      }
      traces := loaded.value;
    }
    return Ok(traces);
  }

  // ---------------------------------------------------------------------
  // What the column reader computes

  /** No column name appears twice. */
  predicate Distinct(cols: seq<string>) {
    forall i, j :: 0 <= i < j < |cols| ==> cols[i] != cols[j]
  }

  /** A line the reader accepts: every token has a column and is numeric
      (so no more tokens than columns). */
  predicate LineFits(line: seq<Token>, cols: seq<string>) {
    forall k :: 0 <= k < |line| ==> TokenFits(line, cols, k)
  }

  /** Token `k` has a column and is numeric. */
  predicate TokenFits(line: seq<Token>, cols: seq<string>, k: nat)
    requires k < |line|
  {
    k < |cols| && !line[k].Word?
  }

  /** Column `i` of the lines from line `l` on: token `i` of each line that
      has one, in line order. */
  function Column(lines: seq<seq<Token>>, i: nat, l: nat): seq<real>
    requires l <= |lines|
    decreases |lines| - l
  {
    if l == |lines| then []
    else (if i < |lines[l]| then [Number(lines[l][i])] else []) + Column(lines, i, l + 1)
  }

  /** One line: it is accepted exactly when it fits. */
  lemma {:induction false} AppendTokensAccepts(traces: Traces, cols: seq<string>, line: seq<Token>, vi: nat)
    requires vi <= |line|
    requires forall k :: 0 <= k < |cols| ==> cols[k] in traces
    ensures AppendTokens(traces, cols, line, vi).Ok?
            <==> forall k :: vi <= k < |line| ==> TokenFits(line, cols, k)
    decreases |line| - vi
  {
    if vi < |line| {
      var step := ColumnStep(traces, cols, vi, line[vi]);
      if step.Ok? {
        var t := step.value;
        assert TokenFits(line, cols, vi);
        assert forall k :: 0 <= k < |cols| ==> cols[k] in t;
        AppendTokensAccepts(t, cols, line, vi + 1);
      } else {
        assert !TokenFits(line, cols, vi);
      }
    }
  }

  /** One line that fits: token `i` is appended to column `i`, and no key
      and no other trace changes. */
  lemma {:induction false} AppendTokensColumns(traces: Traces, cols: seq<string>, line: seq<Token>, vi: nat)
    requires vi <= |line|
    requires Distinct(cols)
    requires forall k :: 0 <= k < |cols| ==> cols[k] in traces
    requires forall k :: vi <= k < |line| ==> TokenFits(line, cols, k)
    ensures AppendTokens(traces, cols, line, vi).Ok?
    ensures var r := AppendTokens(traces, cols, line, vi).value;
            && r.Keys == traces.Keys
            && (forall k :: k in traces && k !in cols ==> r[k] == traces[k])
            && forall c :: 0 <= c < |cols| ==>
                 r[cols[c]] == traces[cols[c]] + (if vi <= c < |line| then [Number(line[c])] else [])
    decreases |line| - vi
  {
    if vi < |line| {
      assert TokenFits(line, cols, vi);
      var t := traces[cols[vi] := traces[cols[vi]] + [Number(line[vi])]];
      assert ColumnStep(traces, cols, vi, line[vi]) == Ok(t);
      AppendTokensColumns(t, cols, line, vi + 1);
    }
  }

  /** All lines: the file is accepted exactly when every line fits. */
  lemma {:induction false} AppendLinesAccepts(traces: Traces, cols: seq<string>, lines: seq<seq<Token>>, l: nat)
    requires l <= |lines|
    requires Distinct(cols)
    requires forall k :: 0 <= k < |cols| ==> cols[k] in traces
    ensures AppendLines(traces, cols, lines, l).Ok? <==> forall m :: l <= m < |lines| ==> LineFits(lines[m], cols)
    decreases |lines| - l
  {
    if l < |lines| {
      AppendTokensAccepts(traces, cols, lines[l], 0);
      var step := AppendTokens(traces, cols, lines[l], 0);
      assert step.Ok? <==> LineFits(lines[l], cols);
      if step.Ok? {
        AppendTokensColumns(traces, cols, lines[l], 0);
      }
      if step.Ok? {
        AppendLinesAccepts(step.value, cols, lines, l + 1);
      }
    }
  }

  /** All lines, when every one fits: each column holds its own tokens in
      line order, after what it held, and every other trace is left as it
      was. */
  lemma {:induction false} AppendLinesColumns(traces: Traces, cols: seq<string>, lines: seq<seq<Token>>, l: nat)
    requires l <= |lines|
    requires Distinct(cols)
    requires forall k :: 0 <= k < |cols| ==> cols[k] in traces
    requires forall m :: l <= m < |lines| ==> LineFits(lines[m], cols)
    ensures AppendLines(traces, cols, lines, l).Ok?
    ensures var r := AppendLines(traces, cols, lines, l).value;
            && r.Keys == traces.Keys
            && (forall k :: k in traces && k !in cols ==> r[k] == traces[k])
            && forall c :: 0 <= c < |cols| ==> r[cols[c]] == traces[cols[c]] + Column(lines, c, l)
    decreases |lines| - l
  {
    if l < |lines| {
      assert LineFits(lines[l], cols);
      AppendTokensColumns(traces, cols, lines[l], 0);
      var t := AppendTokens(traces, cols, lines[l], 0).value;
      AppendLinesStep(traces, cols, lines, l);
      AppendLinesColumns(t, cols, lines, l + 1);
      LineThenRest(traces, t, AppendLines(t, cols, lines, l + 1).value, cols, lines, l);
    }
  }

  /** A line that is accepted hands its traces on to the lines after it. */
  lemma AppendLinesStep(traces: Traces, cols: seq<string>, lines: seq<seq<Token>>, l: nat)
    requires l < |lines| && AppendTokens(traces, cols, lines[l], 0).Ok?
    ensures AppendLines(traces, cols, lines, l) == AppendLines(AppendTokens(traces, cols, lines[l], 0).value, cols, lines, l + 1)
  {
  }

  /** What reading line `l` does, followed by what reading the lines after it
      does, is what reading the lines from `l` on does. */
  lemma LineThenRest(traces: Traces, t: Traces, r: Traces, cols: seq<string>, lines: seq<seq<Token>>, l: nat)
    requires l < |lines|
    requires forall k :: 0 <= k < |cols| ==> cols[k] in traces
    requires t.Keys == traces.Keys && r.Keys == t.Keys
    requires forall k :: k in traces && k !in cols ==> t[k] == traces[k]
    requires forall k :: k in t && k !in cols ==> r[k] == t[k]
    requires forall c :: 0 <= c < |cols| ==>
               t[cols[c]] == traces[cols[c]] + (if 0 <= c < |lines[l]| then [Number(lines[l][c])] else [])
    requires forall c :: 0 <= c < |cols| ==> r[cols[c]] == t[cols[c]] + Column(lines, c, l + 1)
    ensures forall k :: k in traces && k !in cols ==> r[k] == traces[k]
    ensures forall c :: 0 <= c < |cols| ==> r[cols[c]] == traces[cols[c]] + Column(lines, c, l)
  {
    forall c | 0 <= c < |cols|
      ensures r[cols[c]] == traces[cols[c]] + Column(lines, c, l)
    {
      ColumnAfterLine(traces[cols[c]], t[cols[c]], r[cols[c]], lines, c, l);
    }
  }

  /** Reading line `l` and then the lines after it leaves a column with its
      tokens from line `l` on. */
  lemma ColumnAfterLine(before: seq<real>, mid: seq<real>, after: seq<real>, lines: seq<seq<Token>>, c: nat, l: nat)
    requires l < |lines|
    requires mid == before + (if 0 <= c < |lines[l]| then [Number(lines[l][c])] else [])
    requires after == mid + Column(lines, c, l + 1)
    ensures after == before + Column(lines, c, l)
  {
    var here, rest := (if c < |lines[l]| then [Number(lines[l][c])] else []), Column(lines, c, l + 1);
    assert Column(lines, c, l) == here + rest;
    assert before + here + rest == before + (here + rest);
  }

  /** An output file whose columns are distinct is accepted exactly when every
      line fits; then column `c` of the result is token `c` of each line, in
      line order, and every other trace is left as it was. */
  lemma OutputFileColumns(traces: Traces, of: OutputFile)
    requires of.found && !of.stale
    requires Distinct(Columns(of.quantities))
    ensures LoadOutputFile(traces, of).Ok? <==> forall m :: 0 <= m < |of.lines| ==> LineFits(of.lines[m], Columns(of.quantities))
    ensures LoadOutputFile(traces, of).Ok? ==>
              var r := LoadOutputFile(traces, of).value;
              var cols := Columns(of.quantities);
              && (forall k :: k in traces && k !in cols ==> k in r && r[k] == traces[k])
              && forall c :: 0 <= c < |cols| ==> cols[c] in r && r[cols[c]] == Column(of.lines, c, 0)
  {
    var cols := Columns(of.quantities);
    var start := ResetColumns(traces["t" := []], of.quantities);
    ResetStartsColumnsEmpty(traces, of.quantities);
    assert LoadOutputFile(traces, of) == AppendLines(start, cols, of.lines, 0);
    AppendLinesAccepts(start, cols, of.lines, 0);
    if forall m :: 0 <= m < |of.lines| ==> LineFits(of.lines[m], cols) {
      AppendLinesColumns(start, cols, of.lines, 0);
    }
  }

  /** Before the lines are read, every column exists and is empty, and every
      other trace is as it was. */
  lemma ResetStartsColumnsEmpty(traces: Traces, quantities: seq<string>)
    ensures var start := ResetColumns(traces["t" := []], quantities);
            && (forall c :: 0 <= c < |Columns(quantities)| ==> Columns(quantities)[c] in start && start[Columns(quantities)[c]] == [])
            && (forall k :: k in traces && k !in Columns(quantities) ==> k in start && start[k] == traces[k])
  {
    var cols := Columns(quantities);
    var start := ResetColumns(traces["t" := []], quantities);
    ResetColumnsMeaning(traces["t" := []], quantities);
    forall c | 0 <= c < |cols|
      ensures cols[c] in start && start[cols[c]] == []
    {
      if c > 0 {
        assert cols[c] == quantities[c - 1];
      }
    }
  }

  /** A missing output file anywhere in the list stops the whole reload. */
  lemma {:induction false} MissingFileStops(traces: Traces, files: seq<OutputFile>, j: nat, i: nat)
    requires j <= i < |files| && !files[i].found
    ensures LoadOutputFiles(traces, files, j).Err?
    decreases i - j
  {
    if j < i {
      var step := LoadOutputFile(traces, files[j]);
      if step.Ok? {
        MissingFileStops(step.value, files, j + 1, i);
      }
    }
  }

  // =====================================================================
  // Events

  datatype EventFile = EventFile(
    fileName: string,
    found: bool,
    format: string,
    selections: seq<(Token, string)>,
    lines: seq<seq<Token>>)

  type Events = map<string, seq<real>>

  /** The events dictionary and the function locals `t` and `id`, which keep
      their values from one line, selection and file to the next. */
  datatype EventState = EventState(events: Events, t: Option<real>, id: Option<int>)

  /** `id = int(col.attrib["id"])`, `events[select] = []` and
      `selections[id] = select` for each selection in turn, from selection
      `k` on. */
  function DeclareSelections(st: EventState, sel: map<int, string>, sels: seq<(Token, string)>, k: nat)
    : Result<(EventState, map<int, string>), ReloadError>
    requires k <= |sels|
    decreases |sels| - k
  {
    if k == |sels| then Ok((st, sel))
    else match AsInt(sels[k].0)
      case Err(e) => Err(e)
      case Ok(id) =>
        DeclareSelections(EventState(st.events[sels[k].1 := []], st.t, Some(id)), sel[id := sels[k].1], sels, k + 1)
  }

  /** One line of an event file: the time and id are read in the order the
      format names them (other formats leave `t` and `id` as they were),
      then the time is appended to the list of the id's selection. */
  function EventLine(st: EventState, sel: map<int, string>, format: string, line: seq<Token>): Result<EventState, ReloadError> {
    var read: Result<(Option<real>, Option<int>), ReloadError> :=
      if format == "TIME_ID" then
        if |line| < 1 then Err(IndexError)
        else match AsFloat(line[0])
          case Err(e) => Err(e)
          case Ok(t) =>
            if |line| < 2 then Err(IndexError)
            else match AsInt(line[1])
              case Err(e) => Err(e)
              case Ok(id) => Ok((Some(t), Some(id)))
      else if format == "ID_TIME" then
        if |line| < 1 then Err(IndexError)
        else match AsInt(line[0])
          case Err(e) => Err(e)
          case Ok(id) =>
            if |line| < 2 then Err(IndexError)
            else match AsFloat(line[1])
              case Err(e) => Err(e)
              case Ok(t) => Ok((Some(t), Some(id)))
      else Ok((st.t, st.id));
    match read
    case Err(e) => Err(e)
    case Ok((t, id)) =>
      if id.None? then Err(UnboundLocal)
      else if id.value !in sel then Err(KeyError)
      else if t.None? then Err(UnboundLocal)
      else if sel[id.value] !in st.events then Err(KeyError)
      else Ok(EventState(st.events[sel[id.value] := st.events[sel[id.value]] + [t.value]], t, id))
  }

  /** The lines of an event file from line `l` on. */
  function EventLines(st: EventState, sel: map<int, string>, format: string, lines: seq<seq<Token>>, l: nat)
    : Result<EventState, ReloadError>
    requires l <= |lines|
    decreases |lines| - l
  {
    if l == |lines| then Ok(st)
    else match EventLine(st, sel, format, lines[l])
      case Err(e) => Err(e)
      case Ok(s) => EventLines(s, sel, format, lines, l + 1)
  }

  /** One event file: a missing file raises, the selections (fresh for each
      file) are declared, then the lines are read. */
  function LoadEventFile(st: EventState, ef: EventFile): Result<EventState, ReloadError> {
    if !ef.found then Err(OutputNotFound(ef.fileName))
    else match DeclareSelections(st, map[], ef.selections, 0)
      case Err(e) => Err(e)
      case Ok((s, sel)) => EventLines(s, sel, ef.format, ef.lines, 0)
  }

  function LoadEventFiles(st: EventState, files: seq<EventFile>, i: nat): Result<EventState, ReloadError>
    requires i <= |files|
    decreases |files| - i
  {
    if i == |files| then Ok(st)
    else match LoadEventFile(st, files[i])
      case Err(e) => Err(e)
      case Ok(s) => LoadEventFiles(s, files, i + 1)
  }

  /** The reading loop over one event file. */
  method ReadEventFile(st0: EventState, ef: EventFile) returns (r: Result<EventState, ReloadError>)
    ensures r == LoadEventFile(st0, ef)
  {
    if !ef.found {
      return Err(OutputNotFound(ef.fileName));
    }
    var st := st0;
    var selections: map<int, string> := map[];
    for k := 0 to |ef.selections|
      invariant DeclareSelections(st0, map[], ef.selections, 0) == DeclareSelections(st, selections, ef.selections, k)
    {
      var (idTok, select) := ef.selections[k];
      if !idTok.IntTok? {
        return Err(ValueError);
      }
      var id := idTok.i;
      st := EventState(st.events[select := []], st.t, Some(id));
      selections := selections[id := select];
    }
    ghost var whole := LoadEventFile(st0, ef);
    for l := 0 to |ef.lines|
      invariant EventLines(st, selections, ef.format, ef.lines, l) == whole
    {
      var next := EventLine(st, selections, ef.format, ef.lines[l]);
      if next.Err? {
        return Err(next.error);
      }
      st := next.value;
    }
    return Ok(st);
  }

  /** The reading loop over all event files. */
  method ReloadEvents(st0: EventState, files: seq<EventFile>) returns (r: Result<EventState, ReloadError>)
    ensures r == LoadEventFiles(st0, files, 0)
  {
    var st := st0;
    for i := 0 to |files|
      invariant LoadEventFiles(st, files, i) == LoadEventFiles(st0, files, 0)
    {
      var loaded := ReadEventFile(st, files[i]);
      if loaded.Err? {
        return Err(loaded.error);
      }
      st := loaded.value;
    }
    return Ok(st);
  }

  // ---------------------------------------------------------------------
  // What the event reader computes

  predicate KnownFormat(format: string) {
    format == "TIME_ID" || format == "ID_TIME"
  }

  /** Where the id and the time of an event line sit in a known format. */
  function IdAt(format: string): nat { if format == "TIME_ID" then 1 else 0 }
  function TimeAt(format: string): nat { if format == "TIME_ID" then 0 else 1 }

  /** A line the event reader accepts: an integer id that names a declared
      selection and a numeric time, where the format puts them. */
  predicate EventLineFits(line: seq<Token>, format: string, sel: map<int, string>) {
    && |line| >= 2
    && line[IdAt(format)].IntTok? && line[IdAt(format)].i in sel
    && !line[TimeAt(format)].Word?
  }

  /** The times the lines from line `l` on record for selection `name`. */
  function TimesFor(lines: seq<seq<Token>>, format: string, sel: map<int, string>, name: string, l: nat): seq<real>
    requires l <= |lines|
    requires forall m :: 0 <= m < |lines| ==> EventLineFits(lines[m], format, sel)
    decreases |lines| - l
  {
    if l == |lines| then []
    else
      var line := lines[l];
      assert EventLineFits(line, format, sel);
      (if sel[line[IdAt(format)].i] == name then [Number(line[TimeAt(format)])] else [])
      + TimesFor(lines, format, sel, name, l + 1)
  }

  /** One line in a known format: it is accepted exactly when it fits, and
      then its time is appended to its selection's list and nothing else
      changes. */
  lemma EventLineMeaning(st: EventState, sel: map<int, string>, format: string, line: seq<Token>)
    requires KnownFormat(format)
    requires forall id :: id in sel ==> sel[id] in st.events
    ensures EventLine(st, sel, format, line).Ok? <==> EventLineFits(line, format, sel)
    ensures EventLineFits(line, format, sel) ==>
              var name := sel[line[IdAt(format)].i];
              EventLine(st, sel, format, line).value.events
              == st.events[name := st.events[name] + [Number(line[TimeAt(format)])]]
  {
  }

  /** A line that is accepted hands its state on to the lines after it. */
  lemma EventLinesStep(st: EventState, sel: map<int, string>, format: string, lines: seq<seq<Token>>, l: nat)
    requires l < |lines| && EventLine(st, sel, format, lines[l]).Ok?
    ensures EventLines(st, sel, format, lines, l) == EventLines(EventLine(st, sel, format, lines[l]).value, sel, format, lines, l + 1)
  {
  }

  /** In a known format a file's lines are accepted exactly when each one
      fits. */
  lemma {:induction false} EventLinesAccepts(st: EventState, sel: map<int, string>, format: string,
                                             lines: seq<seq<Token>>, l: nat)
    requires l <= |lines|
    requires KnownFormat(format)
    requires forall id :: id in sel ==> sel[id] in st.events
    ensures EventLines(st, sel, format, lines, l).Ok? <==> forall m :: l <= m < |lines| ==> EventLineFits(lines[m], format, sel)
    decreases |lines| - l
  {
    if l < |lines| {
      EventLineMeaning(st, sel, format, lines[l]);
      if EventLine(st, sel, format, lines[l]).Ok? {
        var s := EventLine(st, sel, format, lines[l]).value;
        EventLinesStep(st, sel, format, lines, l);
        EventLinesAccepts(s, sel, format, lines, l + 1);
      }
    }
  }

  /** In a known format, when every line fits, each selection's list gains
      the times of the lines whose id maps to it, in file order. */
  lemma {:induction false} EventLinesTimes(st: EventState, sel: map<int, string>, format: string,
                                           lines: seq<seq<Token>>, l: nat)
    requires l <= |lines|
    requires KnownFormat(format)
    requires forall id :: id in sel ==> sel[id] in st.events
    requires forall m :: 0 <= m < |lines| ==> EventLineFits(lines[m], format, sel)
    ensures EventLines(st, sel, format, lines, l).Ok?
    ensures var r := EventLines(st, sel, format, lines, l).value.events;
            && r.Keys == st.events.Keys
            && forall name :: name in st.events ==> r[name] == st.events[name] + TimesFor(lines, format, sel, name, l)
    decreases |lines| - l
  {
    if l < |lines| {
      EventLineMeaning(st, sel, format, lines[l]);
      var s := EventLine(st, sel, format, lines[l]).value;
      EventLinesStep(st, sel, format, lines, l);
      EventLinesTimes(s, sel, format, lines, l + 1);
      var r := EventLines(s, sel, format, lines, l + 1).value.events;
      forall name | name in st.events
        ensures r[name] == st.events[name] + TimesFor(lines, format, sel, name, l)
      {
        assert EventLineFits(lines[l], format, sel);
        TimesAfterLine(st.events[name], s.events[name], r[name], lines, format, sel, name, l);
      }
    }
  }

  /** Reading line `l` and then the lines after it leaves a selection's list
      with its times from line `l` on. */
  lemma TimesAfterLine(before: seq<real>, mid: seq<real>, after: seq<real>, lines: seq<seq<Token>>, format: string,
                       sel: map<int, string>, name: string, l: nat)
    requires l < |lines|
    requires forall m :: 0 <= m < |lines| ==> EventLineFits(lines[m], format, sel)
    requires EventLineFits(lines[l], format, sel)
    requires mid == before + (if sel[lines[l][IdAt(format)].i] == name then [Number(lines[l][TimeAt(format)])] else [])
    requires after == mid + TimesFor(lines, format, sel, name, l + 1)
    ensures after == before + TimesFor(lines, format, sel, name, l)
  {
    var here := if sel[lines[l][IdAt(format)].i] == name then [Number(lines[l][TimeAt(format)])] else [];
    var rest := TimesFor(lines, format, sel, name, l + 1);
    assert TimesFor(lines, format, sel, name, l) == here + rest;
    assert before + here + rest == before + (here + rest);
  }

  /** Declaring the selections succeeds exactly when every id is an integer;
      then every declared name starts empty and every id maps to a declared
      name, the last declaration of an id winning. */
  lemma {:induction false} DeclareSelectionsMeaning(st: EventState, sel: map<int, string>, sels: seq<(Token, string)>, k: nat)
    requires k <= |sels|
    requires forall id :: id in sel ==> sel[id] in st.events
    ensures DeclareSelections(st, sel, sels, k).Ok? <==> forall j :: k <= j < |sels| ==> sels[j].0.IntTok?
    ensures DeclareSelections(st, sel, sels, k).Ok? ==>
              var (s, m) := DeclareSelections(st, sel, sels, k).value;
              && (forall id :: id in m ==> m[id] in s.events)
              && (forall id :: id in sel ==> id in m)
              && (forall j :: k <= j < |sels| ==> sels[j].1 in s.events && s.events[sels[j].1] == [])
              && (forall j :: k <= j < |sels| ==> sels[j].0.i in m)
              && (forall name :: name in st.events && (forall j :: k <= j < |sels| ==> sels[j].1 != name)
                    ==> name in s.events && s.events[name] == st.events[name])
    decreases |sels| - k
  {
    if k < |sels| && sels[k].0.IntTok? {
      var id := sels[k].0.i;
      var st' := EventState(st.events[sels[k].1 := []], st.t, Some(id));
      DeclareSelectionsMeaning(st', sel[id := sels[k].1], sels, k + 1);
    }
  }

  /** A well-formed event file: every selection declared in it ends up
      holding exactly the times of its own events, in file order. */
  lemma EventFileSelections(st: EventState, ef: EventFile)
    requires ef.found && KnownFormat(ef.format)
    requires forall j :: 0 <= j < |ef.selections| ==> ef.selections[j].0.IntTok?
    ensures LoadEventFile(st, ef).Ok? ==>
              var sel := DeclareSelections(st, map[], ef.selections, 0).value.1;
              (forall m :: 0 <= m < |ef.lines| ==> EventLineFits(ef.lines[m], ef.format, sel))
              && forall j :: 0 <= j < |ef.selections| ==>
                   var name := ef.selections[j].1;
                   name in LoadEventFile(st, ef).value.events
                   && LoadEventFile(st, ef).value.events[name] == TimesFor(ef.lines, ef.format, sel, name, 0)
  {
    DeclareSelectionsMeaning(st, map[], ef.selections, 0);
    var (s, sel) := DeclareSelections(st, map[], ef.selections, 0).value;
    EventLinesAccepts(s, sel, ef.format, ef.lines, 0);
    if forall m :: 0 <= m < |ef.lines| ==> EventLineFits(ef.lines[m], ef.format, sel) {
      EventLinesTimes(s, sel, ef.format, ef.lines, 0);
    }
  }

  /** A blank line in a known format raises IndexError. */
  lemma BlankEventLine(st: EventState, sel: map<int, string>, format: string)
    requires KnownFormat(format)
    ensures EventLine(st, sel, format, []) == Err(IndexError)
  {
  }

  // =====================================================================
  // Plot grid and the returned value

  /** `rows = max(1, ceil(n / 3))` and `columns = min(3, n)`. */
  function GridShape(n: nat): (shape: (nat, nat))
    ensures shape.0 >= 1 && shape.1 <= 3
    ensures n >= 1 ==> shape.0 * shape.1 >= n && (shape.0 - 1) * 3 < n
    ensures n <= 3 ==> shape.0 == 1 && shape.1 == n
    ensures n >= 3 ==> shape.1 == 3
  {
    var rows := if n == 0 then 1 else (n + 2) / 3;
    var columns := if n < 3 then n else 3;
    (rows, columns)
  }

  datatype Reloaded = Traces(traces: Traces) | TracesAndEvents(traces: Traces, events: Events)

  /** `reload_saved_data`: events first when asked for, then the traces; the
      returned shape follows `reload_events`. */
  method ReloadSavedData(outputFiles: seq<OutputFile>, eventFiles: seq<EventFile>, reloadEvents: bool)
    returns (r: Result<Reloaded, ReloadError>)
    ensures r.Ok? ==> (r.value.TracesAndEvents? <==> reloadEvents)
    ensures reloadEvents ==>
              match LoadEventFiles(EventState(map[], None, None), eventFiles, 0)
              case Err(e) => r == Err(e)
              case Ok(st) => r == match LoadOutputFiles(map[], outputFiles, 0)
                                  case Err(e) => Err(e)
                                  case Ok(t) => Ok(TracesAndEvents(t, st.events))
    ensures !reloadEvents ==>
              r == match LoadOutputFiles(map[], outputFiles, 0)
                   case Err(e) => Err(e)
                   case Ok(t) => Ok(Traces(t))
  {
    var events: Events := map[];
    if reloadEvents {
      var loaded := ReloadEvents(EventState(map[], None, None), eventFiles);
      if loaded.Err? {
        return Err(loaded.error);
      }
      events := loaded.value.events;
    }
    var traces := ReloadTraces(map[], outputFiles);
    if traces.Err? {
      return Err(traces.error);
    }
    if reloadEvents {
      return Ok(TracesAndEvents(traces.value, events));
    }
    return Ok(Traces(traces.value));
  }
}

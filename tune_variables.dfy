/** The variable-expression interpreter of `run_individual` in
    pyneuroml/tune/NeuroMLController.py.  A variable key such as
    `cell:pyr/channelDensity:na_all/mS_per_cm2` names one field of the
    NeuroML document; several keys joined with "+" share one value.  Every
    list lookup keeps the last element that matches, and the field receives
    the text "value units".  The document is the part of a parsed NeuroML
    file the interpreter touches, as a plain record. */
module Variables {
  import opened Base

  // =====================================================================
  // The document

  /** A `channelDensity` or a `channelDensityVShift` (only the latter has
      a voltage shift). */
  datatype ChannelDensity = ChannelDensity(id: string, ion: string, condDensity: string, erev: string, vShift: Option<string>)

  datatype NernstDensity = NernstDensity(id: string, condDensity: string)

  /** A `specificCapacitance` or a `resistivity`: a value and the segment
      group it applies to, if any. */
  datatype GroupValue = GroupValue(segmentGroups: Option<string>, value: string)

  datatype Cell = Cell(
    id: string,
    densities: seq<ChannelDensity>,
    vShiftDensities: seq<ChannelDensity>,
    nernsts: seq<NernstDensity>,
    capacitances: seq<GroupValue>,
    resistivities: seq<GroupValue>)

  datatype IonChannel = IonChannel(id: string, vShift: Option<string>)

  /** An `izhikevich2007Cell`: its id and its other attributes by name. */
  datatype IzhikevichCell = IzhikevichCell(id: string, attributes: map<string, string>)

  datatype Document = Document(
    includes: seq<string>,
    ionChannels: seq<IonChannel>,
    cells: seq<Cell>,
    izhikevichCells: seq<IzhikevichCell>)

  datatype TuneError =
    | SystemExit       // `exit()` after an unknown channel or variable
    | AttributeError   // a lookup found nothing and its field was set on None
    | ValueError       // a word did not unpack into exactly two parts
    | IndexError       // a key with fewer than three "/"-words

  // =====================================================================
  // Lookups

  /** The index of the last element that satisfies `p`. */
  function LastIndex<T>(xs: seq<T>, p: T -> bool): (r: Option<nat>)
    ensures r.Some? ==> r.value < |xs|
    decreases |xs|
  {
    if xs == [] then None
    else if p(xs[|xs| - 1]) then Some(|xs| - 1)
    else LastIndex(xs[..|xs| - 1], p)
  }

  /** The index of the first element that satisfies `p`. */
  function FirstIndex<T>(xs: seq<T>, p: T -> bool): (r: Option<nat>)
    ensures r.Some? ==> r.value < |xs|
    decreases |xs|
  {
    if xs == [] then None
    else if p(xs[0]) then Some(0)
    else match FirstIndex(xs[1..], p)
      case None => None
      case Some(i) => Some(i + 1)
  }

  /** Last match wins: the index found satisfies `p` and nothing after it
      does; nothing is found exactly when no element satisfies `p`. */
  lemma {:induction false} LastIndexIsLastMatch<T>(xs: seq<T>, p: T -> bool)
    ensures LastIndex(xs, p).None? <==> forall i :: 0 <= i < |xs| ==> !p(xs[i])
    ensures LastIndex(xs, p).Some? ==>
              p(xs[LastIndex(xs, p).value])
              && forall j :: LastIndex(xs, p).value < j < |xs| ==> !p(xs[j])
    decreases |xs|
  {
    if xs != [] && !p(xs[|xs| - 1]) {
      var n := |xs| - 1;
      LastIndexIsLastMatch(xs[..n], p);
      assert forall i :: 0 <= i < n ==> xs[..n][i] == xs[i];
    }
  }

  /** First match wins, as libNeuroML's `get_by_id` returns. */
  lemma {:induction false} FirstIndexIsFirstMatch<T>(xs: seq<T>, p: T -> bool)
    ensures FirstIndex(xs, p).None? <==> forall i :: 0 <= i < |xs| ==> !p(xs[i])
    ensures FirstIndex(xs, p).Some? ==>
              p(xs[FirstIndex(xs, p).value])
              && forall j :: 0 <= j < FirstIndex(xs, p).value ==> !p(xs[j])
    decreases |xs|
  {
    if xs != [] && !p(xs[0]) {
      FirstIndexIsFirstMatch(xs[1..], p);
      assert forall i :: 1 <= i < |xs| ==> xs[1..][i - 1] == xs[i];
    }
  }

  /** A lookup only depends on which elements match. */
  lemma {:induction false} LastIndexSameMatches<T>(xs: seq<T>, ys: seq<T>, p: T -> bool)
    requires |xs| == |ys|
    requires forall i :: 0 <= i < |xs| ==> p(xs[i]) == p(ys[i])
    ensures LastIndex(xs, p) == LastIndex(ys, p)
    decreases |xs|
  {
    if xs != [] {
      var n := |xs| - 1;
      assert forall i :: 0 <= i < n ==> xs[..n][i] == xs[i] && ys[..n][i] == ys[i];
      LastIndexSameMatches(xs[..n], ys[..n], p);
    }
  }

  /** The search loop `for c in xs: if p(c): found = c`. */
  method FindLast<T>(xs: seq<T>, p: T -> bool) returns (found: Option<nat>)
    ensures found == LastIndex(xs, p)
  {
    found := None;
    for i := 0 to |xs|
      invariant found == LastIndex(xs[..i], p)
    {
      assert xs[..i + 1][..i] == xs[..i];
      if p(xs[i]) {
        found := Some(i);
      }
    }
    assert xs[..|xs|] == xs;
  }

  /** The match rule of `specificCapacitance` and `resistivity`: no segment
      group and the id "all", or the very same segment group (so an element
      without a group also matches a missing id). */
  predicate GroupMatches(g: GroupValue, id2: Option<string>) {
    (g.segmentGroups.None? && id2 == Some("all")) || g.segmentGroups == id2
  }

  // =====================================================================
  // Variable keys

  /** One parsed `type:id1/variable[:id2]/units` expression. */
  datatype Piece = Piece(kind: string, id1: string, variable: string, id2: Option<string>, units: string)

  /** Python's unpacking of `words[0].split(":")` and `words[1].split(":")`,
      and the indexing of `words`, in the order the source performs them. */
  function ParsePiece(s: string): (r: Result<Piece, TuneError>)
    ensures r.Ok? ==> '/' !in r.value.kind && '/' !in r.value.id1 && '/' !in r.value.variable && '/' !in r.value.units
    ensures r.Ok? ==> ':' !in r.value.kind && ':' !in r.value.id1 && ':' !in r.value.variable
  {
    var words := Split(s, '/');
    SplitPiecesLackSeparator(s, '/');
    var head := Split(words[0], ':');
    SplitPiecesLackSeparator(words[0], ':');
    if |head| != 2 then Err(ValueError)
    else if |words| < 2 then Err(IndexError)
    else if ':' in words[1] then
      var second := Split(words[1], ':');
      SplitPiecesLackSeparator(words[1], ':');
      if |second| != 2 then Err(ValueError)
      else if |words| < 3 then Err(IndexError)
      else Ok(Piece(head[0], head[1], second[0], Some(second[1]), words[2]))
    else if |words| < 3 then Err(IndexError)
    else Ok(Piece(head[0], head[1], words[1], None, words[2]))
  }

  lemma {:induction false} SplitPiecesLackSeparator(s: string, sep: char)
    ensures forall k :: 0 <= k < |Split(s, sep)| ==> sep !in Split(s, sep)[k]
    ensures forall k :: 0 <= k < |Split(s, sep)| ==> forall c :: c in Split(s, sep)[k] ==> c in s
    decreases |s|
  {
    if |s| > 0 {
      SplitPiecesLackSeparator(s[1..], sep);
    }
  }

  /** The second word: the variable, and `:id2` when there is one. */
  function VariableWord(p: Piece): string {
    if p.id2.Some? then Join([p.variable, p.id2.value], ':') else p.variable
  }

  /** The text of a piece. */
  function FormatPiece(p: Piece): string {
    Join([Join([p.kind, p.id1], ':'), VariableWord(p), p.units], '/')
  }

  /** Writing a piece out and parsing it back gives the piece, when no word
      holds a separator. */
  lemma ParseFormatPiece(p: Piece)
    requires '/' !in p.kind && '/' !in p.id1 && '/' !in p.variable && '/' !in p.units
    requires ':' !in p.kind && ':' !in p.id1 && ':' !in p.variable
    requires p.id2.Some? ==> '/' !in p.id2.value && ':' !in p.id2.value
    ensures ParsePiece(FormatPiece(p)) == Ok(p)
  {
    var w0 := Join([p.kind, p.id1], ':');
    var w1 := VariableWord(p);
    SplitJoin([p.kind, p.id1], ':');
    assert w0 == p.kind + [':'] + p.id1;
    assert '/' !in w0;
    if p.id2.Some? {
      SplitJoin([p.variable, p.id2.value], ':');
      assert w1 == p.variable + [':'] + p.id2.value;
      assert ':' in w1;
    } else {
      assert ':' !in w1;
    }
    assert '/' !in w1;
    SplitJoin([w0, w1, p.units], '/');
  }

  /** A piece parses only if it has at least three "/"-words. */
  lemma ShortKeyFails(s: string)
    requires |Split(s, '/')| < 3
    ensures ParsePiece(s).Err?
  {
  }

  // =====================================================================
  // Field updates

  /** The densities the `channelDensity`, `erev_id` and `erev_ion` lookups
      walk: the plain densities followed by the voltage-shift ones. */
  function Combined(cell: Cell): seq<ChannelDensity> {
    cell.densities + cell.vShiftDensities
  }

  /** Replaces element `j` of the combined list in whichever list holds it. */
  function SetCombined(cell: Cell, j: nat, cd: ChannelDensity): (r: Cell)
    requires j < |Combined(cell)|
    ensures Combined(r) == Combined(cell)[j := cd]
    ensures r.id == cell.id && r.nernsts == cell.nernsts
    ensures r.capacitances == cell.capacitances && r.resistivities == cell.resistivities
  {
    if j < |cell.densities| then cell.(densities := cell.densities[j := cd])
    else cell.(vShiftDensities := cell.vShiftDensities[j - |cell.densities| := cd])
  }

  const CellVariables: set<string> := {
    "channelDensity", "vShift_channelDensity", "channelDensityNernst",
    "erev_id", "erev_ion", "specificCapacitance", "resistivity"
  }

  /** The list a known cell variable walks, and the element it keeps: the
      last one whose id (whose ion, for `erev_ion`; whose segment group, for
      capacitance and resistivity) matches `id2`. */
  function CellLookup(cell: Cell, variable: string, id2: Option<string>): (r: Option<nat>)
    requires variable in CellVariables
    ensures r.Some? ==> r.value < CellListLength(cell, variable)
  {
    if variable == "channelDensity" || variable == "erev_id" then
      LastIndex(Combined(cell), (cd: ChannelDensity) => Some(cd.id) == id2)
    else if variable == "erev_ion" then
      LastIndex(Combined(cell), (cd: ChannelDensity) => Some(cd.ion) == id2)
    else if variable == "vShift_channelDensity" then
      LastIndex(cell.vShiftDensities, (cd: ChannelDensity) => Some(cd.id) == id2)
    else if variable == "channelDensityNernst" then
      LastIndex(cell.nernsts, (cd: NernstDensity) => Some(cd.id) == id2)
    else if variable == "specificCapacitance" then
      LastIndex(cell.capacitances, (g: GroupValue) => GroupMatches(g, id2))
    else
      LastIndex(cell.resistivities, (g: GroupValue) => GroupMatches(g, id2))
  }

  /** The length of the list a variable walks. */
  function CellListLength(cell: Cell, variable: string): nat
    requires variable in CellVariables
  {
    if variable == "channelDensity" || variable == "erev_id" || variable == "erev_ion" then |Combined(cell)|
    else if variable == "vShift_channelDensity" then |cell.vShiftDensities|
    else if variable == "channelDensityNernst" then |cell.nernsts|
    else if variable == "specificCapacitance" then |cell.capacitances|
    else |cell.resistivities|
  }

  /** Sets the field a variable designates in element `j` of its list. */
  function SetCellField(cell: Cell, variable: string, j: nat, text: string): Cell
    requires variable in CellVariables && j < CellListLength(cell, variable)
  {
    if variable == "channelDensity" then SetCombined(cell, j, Combined(cell)[j].(condDensity := text))
    else if variable == "erev_id" || variable == "erev_ion" then SetCombined(cell, j, Combined(cell)[j].(erev := text))
    else if variable == "vShift_channelDensity" then
      cell.(vShiftDensities := cell.vShiftDensities[j := cell.vShiftDensities[j].(vShift := Some(text))])
    else if variable == "channelDensityNernst" then
      cell.(nernsts := cell.nernsts[j := cell.nernsts[j].(condDensity := text)])
    else if variable == "specificCapacitance" then
      cell.(capacitances := cell.capacitances[j := cell.capacitances[j].(value := text)])
    else
      cell.(resistivities := cell.resistivities[j := cell.resistivities[j].(value := text)])
  }

  /** Reads the field a variable designates in element `j` of its list. */
  function GetCellField(cell: Cell, variable: string, j: nat): Option<string>
    requires variable in CellVariables && j < CellListLength(cell, variable)
  {
    if variable == "channelDensity" then Some(Combined(cell)[j].condDensity)
    else if variable == "erev_id" || variable == "erev_ion" then Some(Combined(cell)[j].erev)
    else if variable == "vShift_channelDensity" then cell.vShiftDensities[j].vShift
    else if variable == "channelDensityNernst" then Some(cell.nernsts[j].condDensity)
    else if variable == "specificCapacitance" then Some(cell.capacitances[j].value)
    else Some(cell.resistivities[j].value)
  }

  /** The update of one known cell variable: a lookup, then one field set,
      or AttributeError when the lookup found nothing. */
  function UpdateCell(cell: Cell, variable: string, id2: Option<string>, text: string): Result<Cell, TuneError>
    requires variable in CellVariables
  {
    match CellLookup(cell, variable, id2)
    case None => Err(AttributeError)
    case Some(j) => Ok(SetCellField(cell, variable, j, text))
  }

  /** The field a known cell variable designates, found by the same lookup. */
  function ReadCell(cell: Cell, variable: string, id2: Option<string>): Option<string>
    requires variable in CellVariables
  {
    match CellLookup(cell, variable, id2)
    case None => None
    case Some(j) => GetCellField(cell, variable, j)
  }

  /** One piece applied to the document with the text "value units". */
  function ApplyPiece(doc: Document, p: Piece, text: string): Result<Document, TuneError> {
    if p.kind == "channel" then
      match FirstIndex(doc.ionChannels, (c: IonChannel) => c.id == p.id1)
      case None => Err(SystemExit)
      case Some(k) =>
        if p.variable == "vShift" then
          Ok(doc.(ionChannels := doc.ionChannels[k := doc.ionChannels[k].(vShift := Some(text))]))
        else Ok(doc)
    else if p.kind == "cell" then
      var found := LastIndex(doc.cells, (c: Cell) => c.id == p.id1);
      if p.variable !in CellVariables then Err(SystemExit)
      else if found.None? then Err(AttributeError)
      else match UpdateCell(doc.cells[found.value], p.variable, p.id2, text)
        case Err(e) => Err(e)
        case Ok(c) => Ok(doc.(cells := doc.cells[found.value := c]))
    else if p.kind == "izhikevich2007Cell" then
      match LastIndex(doc.izhikevichCells, (c: IzhikevichCell) => c.id == p.id1)
      case None => Err(AttributeError)
      case Some(k) => Ok(doc.(izhikevichCells := doc.izhikevichCells[k := SetAttribute(doc.izhikevichCells[k], p.variable, text)]))
    else Ok(doc)
  }

  /** `izhcell.__setattr__(variable, text)`: "id" is the id, any other name
      an attribute. */
  function SetAttribute(c: IzhikevichCell, name: string, text: string): (r: IzhikevichCell)
    ensures name == "id" ==> r.id == text && r.attributes == c.attributes
    ensures name != "id" ==> r.id == c.id && r.attributes == c.attributes[name := text]
  {
    if name == "id" then c.(id := text) else c.(attributes := c.attributes[name := text])
  }

  /** The field a piece designates, found by the same lookups as the update. */
  function ReadPiece(doc: Document, p: Piece): Option<string> {
    if p.kind == "channel" then
      match FirstIndex(doc.ionChannels, (c: IonChannel) => c.id == p.id1)
      case None => None
      case Some(k) => if p.variable == "vShift" then doc.ionChannels[k].vShift else None
    else if p.kind == "cell" then
      match LastIndex(doc.cells, (c: Cell) => c.id == p.id1)
      case None => None
      case Some(k) => if p.variable in CellVariables then ReadCell(doc.cells[k], p.variable, p.id2) else None
    else if p.kind == "izhikevich2007Cell" then
      match LastIndex(doc.izhikevichCells, (c: IzhikevichCell) => c.id == p.id1)
      case None => None
      case Some(k) =>
        var c := doc.izhikevichCells[k];
        if p.variable == "id" then Some(c.id)
        else if p.variable in c.attributes then Some(c.attributes[p.variable])
        else None
    else None
  }

  /** The pieces that write a field: a channel's vShift, a known cell
      variable, or an Izhikevich attribute other than its id. */
  predicate Writes(p: Piece) {
    || (p.kind == "channel" && p.variable == "vShift")
    || (p.kind == "cell" && p.variable in CellVariables)
    || (p.kind == "izhikevich2007Cell" && p.variable != "id")
  }

  // ---------------------------------------------------------------------
  // What an update does

  /** Setting a field changes no id, ion or segment group, so the lookup
      finds the same element afterwards. */
  lemma SetKeepsLookup(cell: Cell, variable: string, j: nat, text: string, id2: Option<string>)
    requires variable in CellVariables && j < CellListLength(cell, variable)
    ensures CellListLength(SetCellField(cell, variable, j, text), variable) == CellListLength(cell, variable)
    ensures CellLookup(SetCellField(cell, variable, j, text), variable, id2) == CellLookup(cell, variable, id2)
  {
    var c := SetCellField(cell, variable, j, text);
    if variable == "channelDensity" || variable == "erev_id" {
      LastIndexSameMatches(Combined(cell), Combined(c), (cd: ChannelDensity) => Some(cd.id) == id2);
    } else if variable == "erev_ion" {
      LastIndexSameMatches(Combined(cell), Combined(c), (cd: ChannelDensity) => Some(cd.ion) == id2);
    } else if variable == "vShift_channelDensity" {
      LastIndexSameMatches(cell.vShiftDensities, c.vShiftDensities, (cd: ChannelDensity) => Some(cd.id) == id2);
    } else if variable == "channelDensityNernst" {
      LastIndexSameMatches(cell.nernsts, c.nernsts, (cd: NernstDensity) => Some(cd.id) == id2);
    } else if variable == "specificCapacitance" {
      LastIndexSameMatches(cell.capacitances, c.capacitances, (g: GroupValue) => GroupMatches(g, id2));
    } else {
      LastIndexSameMatches(cell.resistivities, c.resistivities, (g: GroupValue) => GroupMatches(g, id2));
    }
  }

  /** After a successful update the designated field holds the new text. */
  lemma CellPutGet(cell: Cell, variable: string, id2: Option<string>, text: string)
    requires variable in CellVariables
    ensures UpdateCell(cell, variable, id2, text).Ok? ==> ReadCell(UpdateCell(cell, variable, id2, text).value, variable, id2) == Some(text)
  {
    match CellLookup(cell, variable, id2)
    case None =>
    case Some(j) =>
      SetKeepsLookup(cell, variable, j, text, id2);
  }

  /** The update fails, with AttributeError, exactly when its lookup finds
      nothing. */
  lemma CellUpdateFailsOnlyWhenNotFound(cell: Cell, variable: string, id2: Option<string>, text: string)
    requires variable in CellVariables
    ensures UpdateCell(cell, variable, id2, text).Err? <==> CellLookup(cell, variable, id2).None?
    ensures UpdateCell(cell, variable, id2, text).Err? ==> UpdateCell(cell, variable, id2, text) == Err(AttributeError)
  {
  }

  /** An update keeps every id, ion, segment group and list length, so later
      lookups see the same elements. */
  predicate SameShape(a: Cell, b: Cell) {
    && a.id == b.id
    && |Combined(a)| == |Combined(b)| && |a.densities| == |b.densities|
    && (forall i :: 0 <= i < |Combined(a)| ==> Combined(a)[i].id == Combined(b)[i].id && Combined(a)[i].ion == Combined(b)[i].ion)
    && |a.nernsts| == |b.nernsts| && (forall i :: 0 <= i < |a.nernsts| ==> a.nernsts[i].id == b.nernsts[i].id)
    && |a.capacitances| == |b.capacitances|
    && (forall i :: 0 <= i < |a.capacitances| ==> a.capacitances[i].segmentGroups == b.capacitances[i].segmentGroups)
    && |a.resistivities| == |b.resistivities|
    && (forall i :: 0 <= i < |a.resistivities| ==> a.resistivities[i].segmentGroups == b.resistivities[i].segmentGroups)
  }

  lemma UpdateCellKeepsShape(cell: Cell, variable: string, id2: Option<string>, text: string)
    requires variable in CellVariables
    ensures UpdateCell(cell, variable, id2, text).Ok? ==> SameShape(cell, UpdateCell(cell, variable, id2, text).value)
  {
    match CellLookup(cell, variable, id2)
    case None =>
    case Some(j) =>
      SetKeepsShape(cell, variable, j, text);
  }

  /** Setting one field keeps the shape of the cell. */
  lemma SetKeepsShape(cell: Cell, variable: string, j: nat, text: string)
    requires variable in CellVariables && j < CellListLength(cell, variable)
    ensures SameShape(cell, SetCellField(cell, variable, j, text))
  {
    var c := SetCellField(cell, variable, j, text);
    if variable == "channelDensity" || variable == "erev_id" || variable == "erev_ion" {
      assert |c.densities| == |cell.densities|;
    } else {
      assert c.densities == cell.densities && Combined(c) == c.densities + c.vShiftDensities;
    }
  }

  /** Setting the same field twice leaves the second value. */
  lemma CellPutPut(cell: Cell, variable: string, id2: Option<string>, text1: string, text2: string)
    requires variable in CellVariables
    ensures UpdateCell(cell, variable, id2, text1).Ok? ==>
              UpdateCell(UpdateCell(cell, variable, id2, text1).value, variable, id2, text2)
              == UpdateCell(cell, variable, id2, text2)
  {
    match CellLookup(cell, variable, id2)
    case None =>
    case Some(j) =>
      SetKeepsLookup(cell, variable, j, text1, id2);
      SetTwice(cell, variable, j, text1, text2);
  }

  /** Setting one field twice is setting it to the second text. */
  lemma SetTwice(cell: Cell, variable: string, j: nat, text1: string, text2: string)
    requires variable in CellVariables && j < CellListLength(cell, variable)
    ensures CellListLength(SetCellField(cell, variable, j, text1), variable) == CellListLength(cell, variable)
    ensures SetCellField(SetCellField(cell, variable, j, text1), variable, j, text2) == SetCellField(cell, variable, j, text2)
  {
    var c := SetCellField(cell, variable, j, text1);
    if variable == "channelDensity" || variable == "erev_id" || variable == "erev_ion" {
      if j < |cell.densities| {
        assert c.densities == cell.densities[j := c.densities[j]] && c.vShiftDensities == cell.vShiftDensities;
      } else {
        assert c.densities == cell.densities;
      }
    }
  }

  /** At document level: a successful writing update leaves the new text in
      the field the piece designates. */
  lemma PiecePutGet(doc: Document, p: Piece, text: string)
    requires Writes(p)
    ensures ApplyPiece(doc, p, text).Ok? ==> ReadPiece(ApplyPiece(doc, p, text).value, p) == Some(text)
  {
    if ApplyPiece(doc, p, text).Ok? {
      var d := ApplyPiece(doc, p, text).value;
      if p.kind == "channel" {
        var byId := (c: IonChannel) => c.id == p.id1;
        FirstIndexSameMatches(doc.ionChannels, d.ionChannels, byId);
      } else if p.kind == "cell" {
        var byId := (c: Cell) => c.id == p.id1;
        var k := LastIndex(doc.cells, byId).value;
        UpdateCellKeepsShape(doc.cells[k], p.variable, p.id2, text);
        LastIndexSameMatches(doc.cells, d.cells, byId);
        CellPutGet(doc.cells[k], p.variable, p.id2, text);
      } else {
        var byId := (c: IzhikevichCell) => c.id == p.id1;
        LastIndexSameMatches(doc.izhikevichCells, d.izhikevichCells, byId);
      }
    }
  }

  lemma {:induction false} FirstIndexSameMatches<T>(xs: seq<T>, ys: seq<T>, p: T -> bool)
    requires |xs| == |ys|
    requires forall i :: 0 <= i < |xs| ==> p(xs[i]) == p(ys[i])
    ensures FirstIndex(xs, p) == FirstIndex(ys, p)
    decreases |xs|
  {
    if xs != [] {
      assert forall i :: 0 <= i < |xs| - 1 ==> xs[1..][i] == xs[i + 1] && ys[1..][i] == ys[i + 1];
      FirstIndexSameMatches(xs[1..], ys[1..], p);
    }
  }

  /** Pieces of an unknown type change nothing; a channel piece that names
      another variable than vShift changes nothing once the channel exists. */
  lemma NonWritingPieceKeepsDocument(doc: Document, p: Piece, text: string)
    requires (p.kind != "channel" && p.kind != "cell" && p.kind != "izhikevich2007Cell")
             || (p.kind == "channel" && p.variable != "vShift")
    ensures ApplyPiece(doc, p, text).Ok? ==> ApplyPiece(doc, p, text).value == doc
  {
  }

  /** An unknown cell variable exits before the cell is looked at. */
  lemma UnknownCellVariableExits(doc: Document, p: Piece, text: string)
    requires p.kind == "cell" && p.variable !in CellVariables
    ensures ApplyPiece(doc, p, text) == Err(SystemExit)
  {
  }

  // =====================================================================
  // Keys and the whole sim_var dictionary

  /** The text written into a field: `"%s %s" % (value, units)`. */
  function Quantity(value: string, units: string): (r: string)
    ensures |r| == |value| + 1 + |units| && r[|value|] == ' '
  {
    value + " " + units
  }

  /** The document after some pieces, and the error that stopped them, if
      any; pieces before the error have already changed the document. */
  datatype Applied = Applied(doc: Document, error: Option<TuneError>)

  /** One piece of text applied with the key's value. */
  function ApplyText(doc: Document, piece: string, value: string): Result<Document, TuneError> {
    match ParsePiece(piece)
    case Err(e) => Err(e)
    case Ok(p) => ApplyPiece(doc, p, Quantity(value, p.units))
  }

  /** The pieces of one key from piece `i` on, all with the same value. */
  function ApplyPieces(doc: Document, pieces: seq<string>, value: string, i: nat): Applied
    requires i <= |pieces|
    decreases |pieces| - i
  {
    if i == |pieces| then Applied(doc, None)
    else match ApplyText(doc, pieces[i], value)
      case Err(e) => Applied(doc, Some(e))
      case Ok(d) => ApplyPieces(d, pieces, value, i + 1)
  }

  /** The keys of `sim_var` from key `k` on, in dictionary order. */
  function ApplyKeys(doc: Document, simVar: seq<(string, string)>, k: nat): Applied
    requires k <= |simVar|
    decreases |simVar| - k
  {
    if k == |simVar| then Applied(doc, None)
    else
      var a := ApplyPieces(doc, Split(simVar[k].0, '+'), simVar[k].1, 0);
      if a.error.Some? then a else ApplyKeys(a.doc, simVar, k + 1)
  }

  /** A key made of several pieces applies each of them, in order, with the
      key's one value. */
  lemma JoinedKeyAppliesEachPiece(doc: Document, pieces: seq<string>, value: string)
    requires |pieces| >= 1 && forall i :: 0 <= i < |pieces| ==> '+' !in pieces[i]
    ensures ApplyKeys(doc, [(Join(pieces, '+'), value)], 0)
            == var a := ApplyPieces(doc, pieces, value, 0); if a.error.Some? then a else Applied(a.doc, None)
  {
    SplitJoin(pieces, '+');
  }

  /** A key applied twice with two values ends as if applied with the second
      value only, when its one piece writes a cell field. */
  lemma SecondValueWins(doc: Document, p: Piece, text1: string, text2: string)
    requires p.kind == "cell" && p.variable in CellVariables
    ensures ApplyPiece(doc, p, text1).Ok? ==>
              ApplyPiece(ApplyPiece(doc, p, text1).value, p, text2) == ApplyPiece(doc, p, text2)
  {
    if ApplyPiece(doc, p, text1).Ok? {
      var d := ApplyPiece(doc, p, text1).value;
      var byId := (c: Cell) => c.id == p.id1;
      var k := LastIndex(doc.cells, byId).value;
      UpdateCellKeepsShape(doc.cells[k], p.variable, p.id2, text1);
      LastIndexSameMatches(doc.cells, d.cells, byId);
      CellPutPut(doc.cells[k], p.variable, p.id2, text1, text2);
      assert d.cells[k := UpdateCell(doc.cells[k], p.variable, p.id2, text2).value]
             == doc.cells[k := UpdateCell(doc.cells[k], p.variable, p.id2, text2).value];
    }
  }

  // =====================================================================
  // The interpreter as the source runs it

  /** The lookup-and-set chain of `run_individual` for one piece, with the
      source's search loops. */
  method ChangeValue(doc: Document, p: Piece, text: string) returns (r: Result<Document, TuneError>)
    ensures r == ApplyPiece(doc, p, text)
  {
    if p.kind == "channel" {
      var channel := FirstIndex(doc.ionChannels, (c: IonChannel) => c.id == p.id1);
      if channel.None? {
        return Err(SystemExit);
      }
      if p.variable == "vShift" {
        var k := channel.value;
        return Ok(doc.(ionChannels := doc.ionChannels[k := doc.ionChannels[k].(vShift := Some(text))]));
      }
      return Ok(doc);
    } else if p.kind == "cell" {
      var cellAt := FindLast(doc.cells, (c: Cell) => c.id == p.id1);
      if p.variable !in CellVariables {
        return Err(SystemExit);
      }
      if cellAt.None? {
        return Err(AttributeError);
      }
      var cell := doc.cells[cellAt.value];
      var updated := ChangeCell(cell, p.variable, p.id2, text);
      if updated.Err? {
        return Err(updated.error);
      }
      return Ok(doc.(cells := doc.cells[cellAt.value := updated.value]));
    } else if p.kind == "izhikevich2007Cell" {
      var izhAt := FindLast(doc.izhikevichCells, (c: IzhikevichCell) => c.id == p.id1);
      if izhAt.None? {
        return Err(AttributeError);
      }
      var k := izhAt.value;
      return Ok(doc.(izhikevichCells := doc.izhikevichCells[k := SetAttribute(doc.izhikevichCells[k], p.variable, text)]));
    }
    return Ok(doc);
  }

  /** The cell branch: each variable walks its list keeping the last match,
      then sets one field of it. */
  method ChangeCell(cell: Cell, variable: string, id2: Option<string>, text: string) returns (r: Result<Cell, TuneError>)
    requires variable in CellVariables
    ensures r == UpdateCell(cell, variable, id2, text)
  {
    if variable == "channelDensity" || variable == "erev_id" || variable == "erev_ion" {
      var chanDens;
      if variable == "erev_ion" {
        chanDens := FindLast(Combined(cell), (cd: ChannelDensity) => Some(cd.ion) == id2);
      } else {
        chanDens := FindLast(Combined(cell), (cd: ChannelDensity) => Some(cd.id) == id2);
      }
      if chanDens.None? {
        return Err(AttributeError);
      }
      var j := chanDens.value;
      var cd := Combined(cell)[j];
      if variable == "channelDensity" {
        return Ok(SetCombined(cell, j, cd.(condDensity := text)));
      }
      return Ok(SetCombined(cell, j, cd.(erev := text)));
    } else if variable == "vShift_channelDensity" {
      var chanDens := FindLast(cell.vShiftDensities, (cd: ChannelDensity) => Some(cd.id) == id2);
      if chanDens.None? {
        return Err(AttributeError);
      }
      var j := chanDens.value;
      return Ok(cell.(vShiftDensities := cell.vShiftDensities[j := cell.vShiftDensities[j].(vShift := Some(text))]));
    } else if variable == "channelDensityNernst" {
      var chanDens := FindLast(cell.nernsts, (cd: NernstDensity) => Some(cd.id) == id2);
      if chanDens.None? {
        return Err(AttributeError);
      }
      var j := chanDens.value;
      return Ok(cell.(nernsts := cell.nernsts[j := cell.nernsts[j].(condDensity := text)]));
    } else if variable == "specificCapacitance" {
      var specCap := FindLast(cell.capacitances, (g: GroupValue) => GroupMatches(g, id2));
      if specCap.None? {
        return Err(AttributeError);
      }
      var j := specCap.value;
      return Ok(cell.(capacitances := cell.capacitances[j := cell.capacitances[j].(value := text)]));
    }
    var resistivity := FindLast(cell.resistivities, (g: GroupValue) => GroupMatches(g, id2));
    if resistivity.None? {
      return Err(AttributeError);
    }
    var j := resistivity.value;
    return Ok(cell.(resistivities := cell.resistivities[j := cell.resistivities[j].(value := text)]));
  }

  /** The loops of `run_individual` over the keys of `sim_var` and the
      "+"-pieces of each key. */
  method ApplyVariables(doc0: Document, simVar: seq<(string, string)>) returns (out: Applied)
    ensures out == ApplyKeys(doc0, simVar, 0)
  {
    var doc := doc0;
    for k := 0 to |simVar|
      invariant ApplyKeys(doc, simVar, k) == ApplyKeys(doc0, simVar, 0)
    {
      var (varName, value) := simVar[k];
      var individualVarNames := Split(varName, '+');
      var applied := ApplyKey(doc, individualVarNames, value);
      if applied.error.Some? {
        return applied;
      }
      doc := applied.doc;
    }
    return Applied(doc, None);
  }

  /** The inner loop of `update_model_with_parameters`: the pieces of one
      key, in order, with the key's one value. */
  method ApplyKey(doc0: Document, individualVarNames: seq<string>, value: string) returns (out: Applied)
    ensures out == ApplyPieces(doc0, individualVarNames, value, 0)
  {
    var doc := doc0;
    for i := 0 to |individualVarNames|
      invariant ApplyPieces(doc, individualVarNames, value, i) == ApplyPieces(doc0, individualVarNames, value, 0)
    {
      var parsed := ParsePiece(individualVarNames[i]);
      if parsed.Err? {
        return Applied(doc, Some(parsed.error));
      }
      var p := parsed.value;
      var changed := ChangeValue(doc, p, Quantity(value, p.units));
      if changed.Err? {
        return Applied(doc, Some(changed.error));
      }
      doc := changed.value;
    }
    return Applied(doc, None);
  }

  // =====================================================================
  // Output location

  /** Python's `os.path.basename`: what follows the last "/". */
  function Basename(path: string): (r: string)
    ensures '/' !in r
    ensures EndsWith(path, r)
    decreases |path|
  {
    if path == [] then ""
    else if path[|path| - 1] == '/' then ""
    else Basename(path[..|path| - 1]) + [path[|path| - 1]]
  }

  /** `"%s/%s" % (generate_dir, os.path.basename(neuroml_file))`. */
  function NewNeuromlFile(generateDir: string, neuromlFile: string): (r: string)
    ensures StartsWith(r, generateDir + "/")
    ensures EndsWith(r, Basename(neuromlFile)) && '/' !in Basename(neuromlFile)
  {
    generateDir + "/" + Basename(neuromlFile)
  }

  /** The file keeps its name: for a name with a directory part, the new path
      is the generation directory, a slash, and what follows the last slash. */
  lemma NewFileKeepsName(generateDir: string, dir: string, name: string)
    requires '/' !in name
    ensures NewNeuromlFile(generateDir, dir + "/" + name) == generateDir + "/" + name
    ensures NewNeuromlFile(generateDir, name) == generateDir + "/" + name
  {
    BasenameAfterSlash(dir, name);
    BasenameAfterSlash("", name);
    assert "" + "/" + name == "/" + name;
    BasenameOfPlainName(name);
  }

  lemma {:induction false} BasenameOfPlainName(name: string)
    requires '/' !in name
    ensures Basename(name) == name
    decreases |name|
  {
    if name != [] {
      BasenameOfPlainName(name[..|name| - 1]);
      assert name[..|name| - 1] + [name[|name| - 1]] == name;
    }
  }

  lemma {:induction false} BasenameAfterSlash(dir: string, name: string)
    requires '/' !in name
    ensures Basename(dir + "/" + name) == name
    decreases |name|
  {
    var s := dir + "/" + name;
    if name == [] {
      assert s[|s| - 1] == '/';
    } else {
      var n := |name| - 1;
      assert s[..|s| - 1] == dir + "/" + name[..n];
      BasenameAfterSlash(dir, name[..n]);
      assert name[..n] + [name[n]] == name;
    }
  }
}

/**
 * What `GULP_OC.read` does with a log, as functions of the log's lines.
 *
 * The reader makes one forward pass with no `try`: an exception ends the pass
 * and leaves `read` at once, so the code after the loop does not run. Each
 * line first records the version (line 7), then is either an energy line or
 * goes down a chain of markers. After the pass the cell defaults to the
 * structure's own, and the structure takes a lattice built from it.
 */
module OcRead {
  import opened Wrappers
  import opened Text
  import opened Numbers
  import opened Crystal
  import opened LogFields
  import opened LogBlocks
  import GulpRead

  /** The attributes the pass assigns; `energy` is the structure's. */
  datatype OcFields = OcFields(
    energy: Option<Float>,
    version: Option<string>,
    optimized: bool,
    cputime: Float,
    stress: Option<seq<Float>>,
    iter: int,
    positions: Option<seq<seq<Float>>>,
    species: Option<seq<string>>,
    cell: Option<Mat3>)

  /** The attributes after some lines, and whether an exception ended the pass. */
  datatype OcOutcome = OcOutcome(fields: OcFields, raised: bool)

  /** Everything `read` may change: the attributes, the structure's lattice and
      the calculator's own `lattice`. */
  datatype OcResults = OcResults(fields: OcFields, structureLattice: Lattice, lattice: Option<Lattice>)

  /** The line whose text is kept as the version. */
  const VersionLine := 7

  /** The phrase of the energy pattern. */
  const EnergyMarker := "Total lattice energy"

  /** The asymmetric-unit header, matched by a prefix of its words. */
  const UnitMarker := "Final asymmetric unit coord"

  /** What a line is, by the first test it passes. */
  datatype OcKind = EnergyText | Finished | CpuTime | StressTable | CycleLine | CoordinateTable | VectorTable | Other

  /** The tests of the loop body in order: the energy phrase, then the chain. */
  function OcClassify(line: string): OcKind
  {
    if Contains(line, EnergyMarker) then EnergyText
    else if Contains(line, GulpRead.JobMarker) then Finished
    else if Contains(line, GulpRead.CpuMarker) then CpuTime
    else if Contains(line, GulpRead.StressMarker) then StressTable
    else if Contains(line, GulpRead.CycleMarker) then CycleLine
    else if Contains(line, UnitMarker) || Contains(line, GulpRead.FractionalMarker) then CoordinateTable
    else if Contains(line, GulpRead.VectorsMarker) then VectorTable
    else Other
  }

  /** A line holding the energy phrase: when the pattern matches, the captured text
      as a float (raising where `float()` does); otherwise nothing. */
  function OcEnergyStep(line: string, f: OcFields): OcOutcome
  {
    match MatchEnergy(line, EnergyMarker)
    case None => OcOutcome(f, false)
    case Some(t) =>
      match ParseFloat(t)
      case None => OcOutcome(f, true)
      case Some(e) => OcOutcome(f.(energy := Some(e)), false)
  }

  /** A line whose energy text reads as a float sets the energy to it. */
  lemma EnergyParsed(line: string, f: OcFields, e: Option<Float>)
    requires MatchEnergy(line, EnergyMarker).Some? && e == ParseFloat(MatchEnergy(line, EnergyMarker).value) && e.Some?
    ensures OcEnergyStep(line, f) == OcOutcome(f.(energy := e), false)
  {
  }

  /** A coordinates header: the positions as an array, then the species. */
  function OcCoordinatesStep(lines: seq<string>, i: nat, f: OcFields): OcOutcome
  {
    match CoordinateBlock(lines, i)
    case None => OcOutcome(f, true)
    case Some(c) =>
      match AsArray(c.positions)
      case None => OcOutcome(f, true)
      case Some(rows) => OcOutcome(f.(positions := Some(rows), species := Some(c.species)), false)
  }

  /** `float(line.split()[-1])` into `cputime`. */
  function OcCpuStep(line: string, f: OcFields): OcOutcome
  {
    match CpuField(line)
    case None => OcOutcome(f, true)
    case Some(x) => OcOutcome(f.(cputime := x), false)
  }

  /** The six stress components into `stress`. */
  function OcStressStep(lines: seq<string>, i: nat, f: OcFields): OcOutcome
  {
    match StressBlock(lines, i)
    case None => OcOutcome(f, true)
    case Some(st) => OcOutcome(f.(stress := Some(st)), false)
  }

  /** `int(line.split()[1])` into `iter`. */
  function OcCycleStep(line: string, f: OcFields): OcOutcome
  {
    match CycleField(line)
    case None => OcOutcome(f, true)
    case Some(n) => OcOutcome(f.(iter := n), false)
  }

  /** The three lattice vectors into `cell`. */
  function OcVectorsStep(lines: seq<string>, i: nat, f: OcFields): OcOutcome
  {
    match VectorBlock(lines, i)
    case None => OcOutcome(f, true)
    case Some(m) => OcOutcome(f.(cell := Some(m)), false)
  }

  /** The branch for a line of the given kind. */
  function OcDispatch(kind: OcKind, lines: seq<string>, i: nat, f: OcFields): OcOutcome
    requires i < |lines|
  {
    match kind
    case EnergyText => OcEnergyStep(lines[i], f)
    case Finished => OcOutcome(f.(optimized := true), false)
    case CpuTime => OcCpuStep(lines[i], f)
    case StressTable => OcStressStep(lines, i, f)
    case CycleLine => OcCycleStep(lines[i], f)
    case CoordinateTable => OcCoordinatesStep(lines, i, f)
    case VectorTable => OcVectorsStep(lines, i, f)
    case Other => OcOutcome(f, false)
  }

  /** The version at line 7, if this is it. */
  function WithVersion(lines: seq<string>, i: nat, f: OcFields): OcFields
    requires i < |lines|
  {
    if i == VersionLine then f.(version := Some(lines[i])) else f
  }

  /** The body of the loop for line `i`. */
  function OcStep(lines: seq<string>, i: nat, f: OcFields): OcOutcome
    requires i < |lines|
  {
    OcDispatch(OcClassify(lines[i]), lines, i, WithVersion(lines, i, f))
  }

  /** The loop body as a function of the line index; past the last line it does nothing. */
  function OcLineStep(lines: seq<string>): (nat, OcFields) -> OcOutcome
  {
    (i: nat, f: OcFields) => if i < |lines| then OcStep(lines, i, f) else OcOutcome(f, false)
  }

  /** The first `n` rounds of a loop with body `step`, ending at the first exception. */
  function OcPass(step: (nat, OcFields) -> OcOutcome, n: nat, start: OcFields): OcOutcome
  {
    if n == 0 then OcOutcome(start, false)
    else
      var prev := OcPass(step, n - 1, start);
      if prev.raised then prev else step(n - 1, prev.fields)
  }

  /** The pass of `read` over the first `n` lines. */
  function OcScan(lines: seq<string>, n: nat, start: OcFields): OcOutcome
  {
    OcPass(OcLineStep(lines), n, start)
  }

  /**
   * The code after the loop, which runs only when no exception ended it: the cell
   * defaults to the structure's lattice matrix, and a lattice built from the cell
   * with the space group's lattice type becomes the structure's lattice.
   */
  function OcFinish(o: OcOutcome, r0: OcResults, matrix: Mat3, ltype: string): OcResults
  {
    if o.raised then r0.(fields := o.fields)
    else
      var cell := if o.fields.cell.Some? then o.fields.cell.value else matrix;
      var lat := FromMatrix(cell, ltype);
      OcResults(o.fields.(cell := Some(cell)), lat, Some(lat))
  }

  /** `GULP_OC.read` on a log, from the state `r0` before the call, given the
      structure's lattice matrix and its group's lattice type; and whether it
      raised. */
  function OcReadLog(r0: OcResults, lines: seq<string>, matrix: Mat3, ltype: string): (r: (OcResults, bool))
    // a `read` that raised leaves both lattices as they were
    ensures r.1 ==> (r.0.structureLattice == r0.structureLattice && r.0.lattice == r0.lattice)
    // otherwise the structure and the calculator share one lattice, built from the cell
    ensures !r.1 ==> (r.0.fields.cell.Some? && r.0.lattice == Some(r.0.structureLattice)
      && r.0.structureLattice == FromMatrix(r.0.fields.cell.value, ltype))
  {
    var o := OcScan(lines, |lines|, r0.fields);
    (OcFinish(o, r0, matrix, ltype), o.raised)
  }

  // ---------------------------------------------------------------------------
  // Properties of one line

  /** A line holding the energy phrase is never handled by the chain: it can change
      only the energy (and the version on line 7), even when it also holds a marker. */
  lemma EnergyLineSkipsChain(lines: seq<string>, i: nat, f: OcFields)
    requires i < |lines| && Contains(lines[i], EnergyMarker)
    ensures var o := OcStep(lines, i, f);
      o.fields == WithVersion(lines, i, f).(energy := o.fields.energy)
      && (o.fields.energy != f.energy ==> MatchEnergy(lines[i], EnergyMarker).Some?)
      && (o.raised <==> MatchEnergy(lines[i], EnergyMarker).Some? && ParseFloat(MatchEnergy(lines[i], EnergyMarker).value).None?)
  {
  }

  /** A line GULP prints as `Total lattice energy = <number> eV` holds the phrase,
      and the pattern captures the number. */
  lemma EnergyPrinted(w1: string, w2: string, w3: string, tok: string, w4: string, tail: string)
    requires AllSpace(w1) && AllSpace(w2) && AllSpace(w3) && AllSpace(w4) && w4 != []
    requires tok != [] && NoSpace(tok)
    ensures var line := w1 + EnergyMarker + w2 + "=" + w3 + tok + w4 + "eV" + tail;
      Contains(line, EnergyMarker) && MatchEnergy(line, EnergyMarker) == Some(tok)
  {
    MatchEnergyOfLine(w1, EnergyMarker, w2, w3, tok, w4, tail);
    MatchEnergyContains(w1 + EnergyMarker + w2 + "=" + w3 + tok + w4 + "eV" + tail, EnergyMarker);
  }

  /** Such a line sets the structure's energy to the number; a number `float()`
      rejects raises. */
  lemma OcStepEnergyLine(lines: seq<string>, i: nat, f: OcFields,
                         w1: string, w2: string, w3: string, tok: string, w4: string, tail: string)
    requires i < |lines|
    requires AllSpace(w1) && AllSpace(w2) && AllSpace(w3) && AllSpace(w4) && w4 != []
    requires tok != [] && NoSpace(tok)
    requires lines[i] == w1 + EnergyMarker + w2 + "=" + w3 + tok + w4 + "eV" + tail
    ensures var o := OcStep(lines, i, f);
      (o.raised <==> ParseFloat(tok).None?)
      && (!o.raised ==> o.fields == WithVersion(lines, i, f).(energy := ParseFloat(tok)))
  {
    EnergyPrinted(w1, w2, w3, tok, w4, tail);
    OcStepEnergyText(lines, i, f, tok);
  }

  /** The round for a line holding the phrase whose pattern captures `tok`. */
  lemma OcStepEnergyText(lines: seq<string>, i: nat, f: OcFields, tok: string)
    requires i < |lines| && Contains(lines[i], EnergyMarker) && MatchEnergy(lines[i], EnergyMarker) == Some(tok)
    ensures var o := OcStep(lines, i, f);
      (o.raised <==> ParseFloat(tok).None?)
      && (!o.raised ==> o.fields == WithVersion(lines, i, f).(energy := ParseFloat(tok)))
  {
    var g := WithVersion(lines, i, f);
    assert OcClassify(lines[i]) == EnergyText;
    assert OcStep(lines, i, f) == OcEnergyStep(lines[i], g);
    var e := ParseFloat(tok);
    if e.Some? {
      assert OcEnergyStep(lines[i], g) == OcOutcome(g.(energy := e), false);
    }
  }

  /** A coordinates header takes the positions (fields 3 to 5) and species (field 1)
      of every row from line `i + 6` up to the first sentinel line; a missing
      sentinel, a bad row or rows of different lengths raise. */
  lemma OcCoordinatesRows(lines: seq<string>, i: nat, f: OcFields)
    ensures var o := OcCoordinatesStep(lines, i, f);
      var t := TableFrom(lines, i + 6, CoordRow);
      var e := SentinelFrom(lines, i + 6);
      (e.None? ==> o.raised)
      && (!o.raised ==> (e.Some? && o.fields.positions.Some? && o.fields.species.Some?
        && o.fields == f.(positions := o.fields.positions, species := o.fields.species)
        && |o.fields.positions.value| == e.value - (i + 6) && |o.fields.species.value| == e.value - (i + 6)
        && Rectangular(o.fields.positions.value)
        && t.Some? && RowsRead(lines, i + 6, CoordRow, t.value)
        && o.fields.positions.value == Unzip(t.value).positions && o.fields.species.value == Unzip(t.value).species))
      && (o.raised ==> o.fields == f)
  {
    CoordinateRows(lines, i);
  }

  /** `after` keeps the cell, or line `i` holds the vectors marker and sets the cell
      to the three vectors under it. */
  predicate SetsCell(lines: seq<string>, i: nat, before: OcFields, after: OcOutcome)
  {
    after.fields.cell == before.cell
    || (i < |lines| && Contains(lines[i], GulpRead.VectorsMarker) && VectorBlock(lines, i).Some?
      && after.fields.cell == Some(VectorBlock(lines, i).value))
  }

  /** Only line 7 sets the version, to its own text. */
  predicate SetsVersion(lines: seq<string>, i: nat, before: OcFields, after: OcOutcome)
  {
    i < |lines|
    && after.fields.version == (if i == VersionLine then Some(lines[i]) else before.version)
  }

  /** Only a vectors table sets the cell, and no branch of the chain touches the
      version. */
  lemma OcDispatchFrame(kind: OcKind, lines: seq<string>, i: nat, f: OcFields)
    requires i < |lines|
    ensures var o := OcDispatch(kind, lines, i, f);
      o.fields.version == f.version
      && (o.fields.cell == f.cell || (kind == VectorTable && VectorBlock(lines, i).Some?
        && o.fields.cell == Some(VectorBlock(lines, i).value)))
  {
    match kind
    case VectorTable =>
    case CoordinateTable =>
    case EnergyText =>
    case _ =>
  }

  /** One round sets the cell and the version only as the lines allow. */
  lemma OcStepFrame(lines: seq<string>, i: nat, f: OcFields)
    requires i < |lines|
    ensures SetsCell(lines, i, f, OcStep(lines, i, f)) && SetsVersion(lines, i, f, OcStep(lines, i, f))
  {
    OcDispatchFrame(OcClassify(lines[i]), lines, i, WithVersion(lines, i, f));
  }

  /** Every round of the pass sets the cell and the version only as the lines allow. */
  lemma OcLineStepFrame(lines: seq<string>)
    ensures forall i: nat, f: OcFields :: i < |lines| ==> SetsCell(lines, i, f, OcLineStep(lines)(i, f))
    ensures forall i: nat, f: OcFields :: i < |lines| ==> SetsVersion(lines, i, f, OcLineStep(lines)(i, f))
  {
    forall i: nat, f: OcFields | i < |lines|
      ensures SetsCell(lines, i, f, OcStep(lines, i, f)) && SetsVersion(lines, i, f, OcStep(lines, i, f))
    {
      OcStepFrame(lines, i, f);
    }
  }

  // ---------------------------------------------------------------------------
  // Properties of the pass and of `read`

  /** One more line of the pass: the round for line `n` applied to the state after
      the lines before it, unless one of them raised. */
  lemma OcScanNext(lines: seq<string>, n: nat, start: OcFields)
    requires n < |lines|
    ensures var prev := OcScan(lines, n, start);
      OcScan(lines, n + 1, start) == if prev.raised then prev else OcStep(lines, n, prev.fields)
  {
  }

  /** Once a round has raised, later rounds change nothing. */
  lemma {:induction false} OcPassStops(step: (nat, OcFields) -> OcOutcome, n: nat, m: nat, start: OcFields)
    requires n <= m && OcPass(step, n, start).raised
    ensures OcPass(step, m, start) == OcPass(step, n, start)
    decreases m
  {
    if m > n {
      OcPassStops(step, n, m - 1, start);
    }
  }

  /** Once a line has raised, the pass of `read` is over. */
  lemma OcScanStops(lines: seq<string>, n: nat, start: OcFields)
    requires n <= |lines| && OcScan(lines, n, start).raised
    ensures OcScan(lines, |lines|, start) == OcScan(lines, n, start)
  {
    OcPassStops(OcLineStep(lines), n, |lines|, start);
  }

  /** Over a pass whose rounds set the cell only from vectors headers, the cell is
      the one before the pass or comes from such a header, and stays the one
      before the pass without one. */
  lemma {:induction false} OcPassCell(step: (nat, OcFields) -> OcOutcome, lines: seq<string>, n: nat, start: OcFields)
    requires n <= |lines|
    requires forall i: nat, f: OcFields :: i < |lines| ==> SetsCell(lines, i, f, step(i, f))
    ensures var c := OcPass(step, n, start).fields.cell;
      c == start.cell || exists k :: (0 <= k < n && Contains(lines[k], GulpRead.VectorsMarker)
        && VectorBlock(lines, k).Some? && c == Some(VectorBlock(lines, k).value))
    ensures (forall k :: 0 <= k < n ==> !Contains(lines[k], GulpRead.VectorsMarker))
      ==> OcPass(step, n, start).fields.cell == start.cell
  {
    if n > 0 {
      OcPassCell(step, lines, n - 1, start);
      var prev := OcPass(step, n - 1, start);
      if !prev.raised {
        assert SetsCell(lines, n - 1, prev.fields, step(n - 1, prev.fields));
      }
    }
  }

  /** Over a pass whose rounds set the version only at line 7, the version is that
      line's text once the pass has run past it without raising before it, and is
      left alone until then. */
  lemma {:induction false} OcPassVersion(step: (nat, OcFields) -> OcOutcome, lines: seq<string>, n: nat, start: OcFields)
    requires n <= |lines|
    requires forall i: nat, f: OcFields :: i < |lines| ==> SetsVersion(lines, i, f, step(i, f))
    ensures n <= VersionLine ==> OcPass(step, n, start).fields.version == start.version
    ensures n > VersionLine && !OcPass(step, VersionLine, start).raised
      ==> OcPass(step, n, start).fields.version == Some(lines[VersionLine])
  {
    if n > 0 {
      OcPassVersion(step, lines, n - 1, start);
      var prev := OcPass(step, n - 1, start);
      if !prev.raised {
        assert SetsVersion(lines, n - 1, prev.fields, step(n - 1, prev.fields));
      } else if n - 1 == VersionLine {
        assert prev == OcPass(step, VersionLine, start);
      }
    }
  }

  /** The version after the pass of `read`: the text of line 7 once the pass has run
      past it, the old one before. */
  lemma OcScanVersion(lines: seq<string>, n: nat, start: OcFields)
    requires n <= |lines|
    ensures n <= VersionLine ==> OcScan(lines, n, start).fields.version == start.version
    ensures n > VersionLine && !OcScan(lines, VersionLine, start).raised
      ==> OcScan(lines, n, start).fields.version == Some(lines[VersionLine])
  {
    OcLineStepFrame(lines);
    OcPassVersion(OcLineStep(lines), lines, n, start);
  }

  /**
   * After a `read` that did not raise, the structure's lattice and the
   * calculator's `lattice` are the same lattice, built with the group's lattice
   * type from the cell. The cell comes from a vectors block of the log, or else
   * is the one the calculator already held, or else the structure's own matrix.
   * A `read` that raised leaves both lattices as they were.
   */
  lemma ReadCell(r0: OcResults, lines: seq<string>, matrix: Mat3, ltype: string)
    ensures var (r, raised) := OcReadLog(r0, lines, matrix, ltype);
      var kept := if r0.fields.cell.Some? then r0.fields.cell.value else matrix;
      (raised ==> r.structureLattice == r0.structureLattice && r.lattice == r0.lattice)
      && (!raised ==> (r.lattice == Some(r.structureLattice) && r.fields.cell.Some?
        && r.structureLattice == FromMatrix(r.fields.cell.value, ltype)
        && (r.fields.cell == Some(kept) || exists k :: (0 <= k < |lines| && Contains(lines[k], GulpRead.VectorsMarker)
          && VectorBlock(lines, k).Some? && r.fields.cell == Some(VectorBlock(lines, k).value)))
        && ((forall k :: 0 <= k < |lines| ==> !Contains(lines[k], GulpRead.VectorsMarker))
          ==> r.fields.cell == Some(kept))))
  {
    OcLineStepFrame(lines);
    OcPassCell(OcLineStep(lines), lines, |lines|, r0.fields);
  }

  /** Every attribute but the cell is what the pass left, raised or not. */
  lemma ReadKeepsPass(r0: OcResults, lines: seq<string>, matrix: Mat3, ltype: string)
    ensures var (r, raised) := OcReadLog(r0, lines, matrix, ltype);
      var o := OcScan(lines, |lines|, r0.fields);
      raised == o.raised && r.fields.(cell := o.fields.cell) == o.fields
  {
  }
}

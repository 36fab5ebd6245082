/**
 * What `GULP.read` does with a log, as functions of the log's lines.
 *
 * The reader makes one forward pass inside a bare `try`. Each line is matched
 * against the energy pattern and then against a chain of markers; the first
 * that applies decides what the line does. Any exception ends the pass: what
 * was assigned before it stays, and the `except` clears the energy and sets
 * the error flag. After the pass the lattice is chosen and the energy checked.
 */
module GulpRead {
  import opened Wrappers
  import opened Text
  import opened Numbers
  import opened Crystal
  import opened LogFields
  import opened LogBlocks
  import opened ForceRepair

  /** The attributes of a `GULP` object that the pass assigns. */
  datatype Fields = Fields(
    energy: Option<Float>,
    energyPerAtom: Option<Float>,
    optimized: bool,
    cputime: Float,
    stress: Option<seq<Float>>,
    forces: Option<seq<Vec3>>,
    iter: int,
    fracCoords: seq<seq<Float>>,
    pyxtal: Option<Pyxtal>)

  /** The state of the pass: the attributes and the locals `lattice_para` and `lattice_vector`. */
  datatype Scan = Scan(fields: Fields, para: Option<Lattice>, vector: Option<Lattice>)

  /** The state after some lines, and whether an exception ended the pass. */
  datatype Outcome = Outcome(scan: Scan, raised: bool)

  /** Everything `read` may change: the assigned attributes, `lattice` and `error`. */
  datatype Results = Results(fields: Fields, lattice: Lattice, error: bool)

  /** The configuration `read` consults. */
  datatype Config = Config(symmetry: bool, pstress: Option<Float>)

  /**
   * The phrase of the energy pattern. `None` where choosing it raises: with
   * symmetry on, a missing pyxtal structure (`AttributeError`) or an empty
   * group symbol (`IndexError`).
   */
  function EnergyPhrase(cfg: Config, pyxtal: Option<Pyxtal>): (r: Option<string>)
    ensures r.Some? ==> r.value != [] && !IsSpace(r.value[0])
  {
    if cfg.symmetry && (pyxtal.None? || pyxtal.value.groupSymbol == []) then None
    else if cfg.symmetry && pyxtal.value.groupSymbol[0] != 'P' then Some("Non-primitive unit cell")
    else if cfg.pstress.None? || cfg.pstress == Some(Finite(0.0)) then Some("Total lattice energy")
    else Some("Total lattice enthalpy")
  }

  /** Which phrase the pattern uses: `Non-primitive unit cell` for a symmetric run
      of a group whose symbol does not start with `P`; otherwise `Total lattice
      energy` without a pressure or at pressure 0 and `Total lattice enthalpy` under
      any other pressure. */
  lemma EnergyPhraseChoice(cfg: Config, pyxtal: Option<Pyxtal>)
    ensures EnergyPhrase(cfg, pyxtal).None? <==> cfg.symmetry && (pyxtal.None? || pyxtal.value.groupSymbol == [])
    ensures EnergyPhrase(cfg, pyxtal) == Some("Non-primitive unit cell")
      <==> cfg.symmetry && pyxtal.Some? && pyxtal.value.groupSymbol != [] && pyxtal.value.groupSymbol[0] != 'P'
    ensures EnergyPhrase(cfg, pyxtal) == Some("Total lattice energy")
      <==> ((!cfg.symmetry || (pyxtal.Some? && pyxtal.value.groupSymbol != [] && pyxtal.value.groupSymbol[0] == 'P'))
        && (cfg.pstress.None? || cfg.pstress == Some(Finite(0.0))))
  {
  }

  /** What a line is, by the first test of the `if`/`elif` chain it passes. */
  datatype Kind =
    | EnergyLine(text: string)
    | JobFinished
    | CpuTime
    | StressHeader
    | DerivativesHeader
    | CycleLine
    | AsymmetricHeader
    | FractionalHeader
    | VectorsHeader
    | ParametersHeader
    | Plain

  const JobMarker := "Job Finished"
  const CpuMarker := "Total CPU time"
  const StressMarker := "Final stress tensor components"
  const DerivativesMarker := "Final internal derivatives"
  const CycleMarker := " Cycle: "
  const AsymmetricMarker := "Final asymmetric unit coordinates"
  const FractionalMarker := "Final fractional coordinates of atoms"
  const VectorsMarker := "Final Cartesian lattice vectors"
  const ParametersMarker := "Non-primitive lattice parameters"

  /** The markers in the order the chain tests them. */
  const Markers := [JobMarker, CpuMarker, StressMarker, DerivativesMarker, CycleMarker,
                    AsymmetricMarker, FractionalMarker, VectorsMarker, ParametersMarker]

  function Classify(line: string, phrase: string): Kind
  {
    match MatchEnergy(line, phrase)
    case Some(t) => EnergyLine(t)
    case None =>
      if Contains(line, JobMarker) then JobFinished
      else if Contains(line, CpuMarker) then CpuTime
      else if Contains(line, StressMarker) then StressHeader
      else if Contains(line, DerivativesMarker) then DerivativesHeader
      else if Contains(line, CycleMarker) then CycleLine
      else if Contains(line, AsymmetricMarker) then AsymmetricHeader
      else if Contains(line, FractionalMarker) then FractionalHeader
      else if Contains(line, VectorsMarker) then VectorsHeader
      else if Contains(line, ParametersMarker) then ParametersHeader
      else Plain
  }

  /** The `k`-th marker of the chain as a kind. */
  function MarkerKind(k: nat): Kind
    requires k < |Markers|
  {
    [JobFinished, CpuTime, StressHeader, DerivativesHeader, CycleLine,
     AsymmetricHeader, FractionalHeader, VectorsHeader, ParametersHeader][k]
  }

  // ---------------------------------------------------------------------------
  // One line

  /** `[float(x) for x in lines[s].split()[3:6]]` handed to `atom_site.update`,
      which takes exactly three coordinates. */
  function AsymmetricRow(line: string): Option<Vec3>
  {
    match ParseAll(FieldSlice(line, 3, 6))
    case None => None
    case Some(xyz) => if |xyz| == 3 then Some(Vec3(xyz[0], xyz[1], xyz[2])) else None
  }

  /** Line `j` is missing or `row` gets no position from it. */
  predicate RowFails(lines: seq<string>, j: nat, row: string -> Option<Vec3>)
  {
    j >= |lines| || row(lines[j]).None?
  }

  /**
   * The loop over the first `n` atom sites, site `k` taking its position from
   * line `s + k` as `row` reads it (`AsymmetricRow` in the reader). The sites updated before a failing line keep their new
   * positions; the flag says whether a line failed.
   */
  function AsymmetricSites(sites: seq<AtomSite>, lines: seq<string>, s: nat, n: nat, row: string -> Option<Vec3>): (r: (seq<AtomSite>, bool))
    requires n <= |sites|
    ensures |r.0| == |sites|
  {
    if n == 0 then (sites, false)
    else
      var prev := AsymmetricSites(sites, lines, s, n - 1, row);
      if prev.1 || RowFails(lines, s + n - 1, row) then (prev.0, true)
      else (prev.0[n - 1 := AtomSite(prev.0[n - 1].specie, row(lines[s + n - 1]).value)], false)
  }

  /** The loop keeps every species and the sites past `n`; without a failing line
      each of the first `n` sites has the position its line gives; and the flag is
      set exactly when one of those lines fails. */
  lemma {:induction false} AsymmetricSitesSpec(sites: seq<AtomSite>, lines: seq<string>, s: nat, n: nat, row: string -> Option<Vec3>)
    requires n <= |sites|
    ensures var r := AsymmetricSites(sites, lines, s, n, row);
      (forall k :: 0 <= k < |sites| ==> r.0[k].specie == sites[k].specie)
      && (forall k :: n <= k < |sites| ==> r.0[k] == sites[k])
      && (!r.1 ==> forall k :: 0 <= k < n ==> (s + k < |lines|
        && row(lines[s + k]) == Some(r.0[k].position)))
      && (r.1 <==> exists j :: s <= j < s + n && RowFails(lines, j, row))
    decreases n
  {
    if n > 0 {
      AsymmetricSitesSpec(sites, lines, s, n - 1, row);
      var prev := AsymmetricSites(sites, lines, s, n - 1, row);
      if !prev.1 && RowFails(lines, s + n - 1, row) {
        assert exists j :: s <= j < s + n && RowFails(lines, j, row);
      }
    }
  }

  /** A line that gives a position moves the next site there. */
  lemma AsymmetricNext(sites: seq<AtomSite>, lines: seq<string>, s: nat, k: nat, row: string -> Option<Vec3>)
    requires k < |sites|
    requires !AsymmetricSites(sites, lines, s, k, row).1 && !RowFails(lines, s + k, row)
    ensures var prev := AsymmetricSites(sites, lines, s, k, row).0;
      AsymmetricSites(sites, lines, s, k + 1, row)
        == (prev[k := AtomSite(prev[k].specie, row(lines[s + k]).value)], false)
  {
  }

  /** Once a row has failed, the later sites are left alone and the flag stays set. */
  lemma {:induction false} AsymmetricStops(sites: seq<AtomSite>, lines: seq<string>, s: nat, k: nat, n: nat, row: string -> Option<Vec3>)
    requires k < n <= |sites|
    requires !AsymmetricSites(sites, lines, s, k, row).1 && RowFails(lines, s + k, row)
    ensures AsymmetricSites(sites, lines, s, n, row) == (AsymmetricSites(sites, lines, s, k, row).0, true)
    decreases n
  {
    if n > k + 1 {
      AsymmetricStops(sites, lines, s, k, n - 1, row);
    }
  }

  /** The energy branch: the captured text as a float, then the energy per atom. */
  function EnergyStep(text: string, f: Fields): (Fields, bool)
  {
    match ParseFloat(text)
    case None => (f, true)
    case Some(e) =>
      var g := f.(energy := Some(e));
      if |f.fracCoords| == 0 then (g, true)
      else (g.(energyPerAtom := Some(DivideByCount(e, |f.fracCoords|))), false)
  }

  /** The CPU time branch. */
  function CpuStep(line: string, f: Fields): (Fields, bool)
  {
    match CpuField(line)
    case None => (f, true)
    case Some(x) => (f.(cputime := x), false)
  }

  /** The cycle branch. */
  function CycleStep(line: string, f: Fields): (Fields, bool)
  {
    match CycleField(line)
    case None => (f, true)
    case Some(n) => (f.(iter := n), false)
  }

  /** The asymmetric-unit branch: it needs the pyxtal structure (`AttributeError` otherwise). */
  function AsymmetricStep(lines: seq<string>, i: nat, f: Fields): (Fields, bool)
  {
    match f.pyxtal
    case None => (f, true)
    case Some(x) =>
      var r := AsymmetricSites(x.atomSites, lines, i + 6, |x.atomSites|, AsymmetricRow);
      (f.(pyxtal := Some(x.(atomSites := r.0))), r.1)
  }

  /** The fractional-coordinates branch: `np.array(positions)` rejects ragged rows. */
  function FractionalStep(lines: seq<string>, i: nat, f: Fields): (Fields, bool)
  {
    match CoordinateBlock(lines, i)
    case None => (f, true)
    case Some(c) =>
      match AsArray(c.positions)
      case None => (f, true)
      case Some(rows) => (f.(fracCoords := rows), false)
  }

  /** Lift a step on the attributes to the state of the pass. */
  function OnFields(sc: Scan, r: (Fields, bool)): Outcome
  {
    Outcome(sc.(fields := r.0), r.1)
  }

  /** The body of the `for` loop for line `i`: the pattern is chosen, then the line
      is handled by its kind. */
  function Step(cfg: Config, ltype: string, lines: seq<string>, i: nat, sc: Scan): Outcome
    requires i < |lines|
  {
    match EnergyPhrase(cfg, sc.fields.pyxtal)
    case None => Outcome(sc, true)
    case Some(phrase) => Dispatch(Classify(lines[i], phrase), ltype, lines, i, sc)
  }

  /** The branch of the chain for a line of the given kind. */
  function Dispatch(kind: Kind, ltype: string, lines: seq<string>, i: nat, sc: Scan): Outcome
    requires i < |lines|
  {
    var f := sc.fields;
    match kind
      case EnergyLine(t) => OnFields(sc, EnergyStep(t, f))
      case JobFinished => Outcome(sc.(fields := f.(optimized := true)), false)
      case CpuTime => OnFields(sc, CpuStep(lines[i], f))
      case StressHeader =>
        (match StressBlock(lines, i)
         case None => Outcome(sc, true)
         case Some(st) => Outcome(sc.(fields := f.(stress := Some(st))), false))
      case DerivativesHeader =>
        (match DerivativesBlock(lines, i)
         case None => Outcome(sc, true)
         case Some(fs) => Outcome(sc.(fields := f.(forces := Some(fs))), false))
      case CycleLine => OnFields(sc, CycleStep(lines[i], f))
      case AsymmetricHeader => OnFields(sc, AsymmetricStep(lines, i, f))
      case FractionalHeader => OnFields(sc, FractionalStep(lines, i, f))
      case VectorsHeader =>
        (match VectorBlock(lines, i)
         case None => Outcome(sc, true)
         case Some(m) => Outcome(sc.(vector := Some(FromMatrix(m, ltype))), false))
      case ParametersHeader =>
        (match ParaBlock(lines, i)
         case None => Outcome(sc, true)
         case Some(p) => Outcome(sc.(para := Some(FromPara(p, ltype))), false))
      case Plain => Outcome(sc, false)
  }

  // ---------------------------------------------------------------------------
  // The pass and the end of `read`

  /** The loop body as a function of the line index; past the last line it does nothing. */
  function LineStep(cfg: Config, ltype: string, lines: seq<string>): (nat, Scan) -> Outcome
  {
    (i: nat, sc: Scan) => if i < |lines| then Step(cfg, ltype, lines, i, sc) else Outcome(sc, false)
  }

  /** The first `n` rounds of a loop with body `step`, ending at the first exception. */
  function Pass(step: (nat, Scan) -> Outcome, n: nat, start: Scan): Outcome
  {
    if n == 0 then Outcome(start, false)
    else
      var prev := Pass(step, n - 1, start);
      if prev.raised then prev else step(n - 1, prev.scan)
  }

  /** The pass of `read` over the first `n` lines. */
  function ScanUpTo(cfg: Config, ltype: string, lines: seq<string>, n: nat, start: Scan): Outcome
  {
    Pass(LineStep(cfg, ltype, lines), n, start)
  }

  /** The code after the `try`: the `except`, the lattice choice and the energy check. */
  function Finish(o: Outcome, lattice: Lattice, error: bool): (r: Results)
    // the error flag is the old flag or a missing energy, and a kept energy is a number
    ensures r.error <==> error || r.fields.energy.None?
    ensures r.fields.energy.Some? <==> (!o.raised && (o.scan.para.Some? || o.scan.vector.Some?)
      && o.scan.fields.energy.Some? && !IsNaN(o.scan.fields.energy.value))
    ensures r.fields.energy.Some? ==> r.fields.energy == o.scan.fields.energy
    // lattice parameters win over lattice vectors; with neither the lattice stays
    ensures r.lattice == if o.scan.para.Some? then o.scan.para.value
      else if o.scan.vector.Some? then o.scan.vector.value else lattice
    // the pyxtal structure, if any, takes the new lattice; nothing else changes
    ensures r.fields.pyxtal.Some? <==> o.scan.fields.pyxtal.Some?
    ensures r.fields.pyxtal.Some? ==> r.fields.pyxtal.value == o.scan.fields.pyxtal.value.(lattice := r.lattice)
    ensures r.fields == o.scan.fields.(energy := r.fields.energy, pyxtal := r.fields.pyxtal)
  {
    var f0 := o.scan.fields;
    var f1 := if o.raised then f0.(energy := None) else f0;
    var e1 := error || o.raised;
    var lat := if o.scan.para.Some? then o.scan.para.value
               else if o.scan.vector.Some? then o.scan.vector.value else lattice;
    var noLattice := o.scan.para.None? && o.scan.vector.None?;
    var f2 := if noLattice then f1.(energy := None) else f1;
    var e2 := e1 || noLattice;
    var f3 := if f2.pyxtal.Some? then f2.(pyxtal := Some(f2.pyxtal.value.(lattice := lat))) else f2;
    if f3.energy.None? || IsNaN(f3.energy.value) then Results(f3.(energy := None), lat, true)
    else Results(f3, lat, e2)
  }

  /** `ltype`: the pyxtal structure's lattice type, else `triclinic`. */
  function LatticeType(pyxtal: Option<Pyxtal>): string
  {
    if pyxtal.Some? then pyxtal.value.lattice.ltype else "triclinic"
  }

  /** `GULP.read` on a log, from the state `r0` of the object before the call. */
  function ReadLog(cfg: Config, r0: Results, lines: seq<string>): (r: Results)
    // an earlier error stays, and a kept energy is a number
    ensures r0.error ==> r.error
    ensures r.fields.energy.Some? ==> !IsNaN(r.fields.energy.value)
    // the pyxtal structure, if any, shares the calculator's lattice
    ensures r.fields.pyxtal.Some? ==> r.fields.pyxtal.value.lattice == r.lattice
  {
    var start := Scan(r0.fields, None, None);
    Finish(ScanUpTo(cfg, LatticeType(r0.fields.pyxtal), lines, |lines|, start), r0.lattice, r0.error)
  }

  // ---------------------------------------------------------------------------
  // Properties of the pass

  /** The chain is tested in order: a line the energy pattern does not match is
      classified by the first marker it contains. */
  lemma ClassifyFirstMarker(line: string, phrase: string, k: nat)
    requires MatchEnergy(line, phrase).None?
    requires k < |Markers| && Contains(line, Markers[k])
    requires forall j :: 0 <= j < k ==> !Contains(line, Markers[j])
    ensures Classify(line, phrase) == MarkerKind(k)
  {
    if k > 0 { assert !Contains(line, Markers[0]); }
    if k > 1 { assert !Contains(line, Markers[1]); }
    if k > 2 { assert !Contains(line, Markers[2]); }
    if k > 3 { assert !Contains(line, Markers[3]); }
    if k > 4 { assert !Contains(line, Markers[4]); }
    if k > 5 { assert !Contains(line, Markers[5]); }
    if k > 6 { assert !Contains(line, Markers[6]); }
    if k > 7 { assert !Contains(line, Markers[7]); }
  }

  /** A line is passed over exactly when the pattern does not match it and it holds no marker. */
  lemma ClassifyPlain(line: string, phrase: string)
    ensures Classify(line, phrase) == Plain <==>
      MatchEnergy(line, phrase).None? && forall k :: 0 <= k < |Markers| ==> !Contains(line, Markers[k])
  {
    var m := Markers;
    assert m[0] == JobMarker && m[1] == CpuMarker && m[2] == StressMarker && m[3] == DerivativesMarker
      && m[4] == CycleMarker && m[5] == AsymmetricMarker && m[6] == FractionalMarker && m[7] == VectorsMarker
      && m[8] == ParametersMarker;
    if Classify(line, phrase) == Plain {
      forall k | 0 <= k < |m| ensures !Contains(line, m[k]) {
        assert k in {0, 1, 2, 3, 4, 5, 6, 7, 8};
      }
    }
  }

  /** The kinds that stand for a marker are given only to lines holding it. */
  lemma ClassifyHolds(line: string, phrase: string)
    ensures Classify(line, phrase) == JobFinished ==> Contains(line, JobMarker)
    ensures Classify(line, phrase) == VectorsHeader ==> Contains(line, VectorsMarker)
    ensures Classify(line, phrase) == ParametersHeader ==> Contains(line, ParametersMarker)
  {
  }

  /** Only a parameters header sets `lattice_para`, only a vectors header sets
      `lattice_vector`, each to the lattice built from the block under it, and only
      a `Job Finished` line changes `optimized`, turning it on. */
  lemma DispatchFrame(kind: Kind, ltype: string, lines: seq<string>, i: nat, sc: Scan)
    requires i < |lines|
    ensures var o := Dispatch(kind, ltype, lines, i, sc);
      (o.scan.para == sc.para || (kind == ParametersHeader && ParaBlock(lines, i).Some?
        && o.scan.para == Some(FromPara(ParaBlock(lines, i).value, ltype))))
      && (o.scan.vector == sc.vector || (kind == VectorsHeader && VectorBlock(lines, i).Some?
        && o.scan.vector == Some(FromMatrix(VectorBlock(lines, i).value, ltype))))
      && (o.scan.fields.optimized == sc.fields.optimized || (kind == JobFinished && o.scan.fields.optimized))
  {
    match kind
    case ParametersHeader =>
    case VectorsHeader =>
    case JobFinished =>
    case _ =>
  }

  /** One round of the pass sets the locals and `optimized` only as the markers allow. */
  lemma StepFrame(cfg: Config, ltype: string, lines: seq<string>, i: nat, sc: Scan)
    requires i < |lines|
    ensures var o := Step(cfg, ltype, lines, i, sc);
      SetsPara(lines, ltype, i, sc, o) && SetsVector(lines, ltype, i, sc, o) && SetsOptimized(lines, i, sc, o)
  {
    var p := EnergyPhrase(cfg, sc.fields.pyxtal);
    if p.Some? {
      ClassifyHolds(lines[i], p.value);
      DispatchFrame(Classify(lines[i], p.value), ltype, lines, i, sc);
    }
  }

  /** An energy line GULP prints as `<phrase> = <number> eV` sets the energy to the
      number and the energy per atom to its share; a number `float()` rejects, or an
      empty coordinate array (`ZeroDivisionError`), raises. */
  lemma StepEnergyLine(cfg: Config, ltype: string, lines: seq<string>, i: nat, sc: Scan,
                       w1: string, w2: string, w3: string, tok: string, w4: string, tail: string)
    requires i < |lines| && EnergyPhrase(cfg, sc.fields.pyxtal).Some?
    requires AllSpace(w1) && AllSpace(w2) && AllSpace(w3) && AllSpace(w4) && w4 != []
    requires tok != [] && NoSpace(tok)
    requires lines[i] == w1 + EnergyPhrase(cfg, sc.fields.pyxtal).value + w2 + "=" + w3 + tok + w4 + "eV" + tail
    ensures var o := Step(cfg, ltype, lines, i, sc);
      var n := |sc.fields.fracCoords|;
      (o.raised <==> ParseFloat(tok).None? || n == 0)
      && (ParseFloat(tok).Some? ==> o.scan.fields.energy == ParseFloat(tok))
      && (!o.raised ==> o.scan == sc.(fields := sc.fields.(energy := ParseFloat(tok),
        energyPerAtom := Some(DivideByCount(ParseFloat(tok).value, n)))))
  {
    var phrase := EnergyPhrase(cfg, sc.fields.pyxtal).value;
    MatchEnergyOfLine(w1, phrase, w2, w3, tok, w4, tail);
    assert Classify(lines[i], phrase) == EnergyLine(tok);
  }

  /** A stress header takes the six components from the three lines after the next
      two; a log that ends before them, or a field that is missing or not a number,
      raises. */
  lemma DispatchStress(ltype: string, lines: seq<string>, i: nat, sc: Scan)
    requires i < |lines|
    ensures var o := Dispatch(StressHeader, ltype, lines, i, sc);
      (i + 5 >= |lines| ==> o.raised)
      && (o.raised <==> StressBlock(lines, i).None?)
      && (!o.raised ==> (o.scan == sc.(fields := sc.fields.(stress := StressBlock(lines, i)))
        && |StressBlock(lines, i).value| == 6))
  {
  }

  /** A derivatives header takes one force per line from `i + 6` up to the first
      sentinel line; a log without the sentinel, or a row that does not convert, raises. */
  lemma DispatchDerivatives(ltype: string, lines: seq<string>, i: nat, sc: Scan)
    requires i < |lines|
    ensures var o := Dispatch(DerivativesHeader, ltype, lines, i, sc);
      var e := SentinelFrom(lines, i + 6);
      (e.None? ==> o.raised)
      && (!o.raised ==> (e.Some? && o.scan.fields.forces.Some?
        && o.scan == sc.(fields := sc.fields.(forces := o.scan.fields.forces))
        && |o.scan.fields.forces.value| == e.value - (i + 6)
        && RowsRead(lines, i + 6, ForceRow, o.scan.fields.forces.value)))
  {
    var o := Dispatch(DerivativesHeader, ltype, lines, i, sc);
    var t := DerivativesBlock(lines, i);
    assert o == if t.None? then Outcome(sc, true) else Outcome(sc.(fields := sc.fields.(forces := t)), false);
    DerivativeRows(lines, i);
  }

  /** A fractional-coordinates header replaces the coordinate array by the rows of
      its table, as many as the table has: nothing compares their number with the
      number of sites. */
  lemma DispatchFractional(ltype: string, lines: seq<string>, i: nat, sc: Scan)
    requires i < |lines|
    ensures var o := Dispatch(FractionalHeader, ltype, lines, i, sc);
      var t := TableFrom(lines, i + 6, CoordRow);
      var e := SentinelFrom(lines, i + 6);
      (e.None? ==> o.raised)
      && (!o.raised ==> (e.Some?
        && o.scan == sc.(fields := sc.fields.(fracCoords := o.scan.fields.fracCoords))
        && |o.scan.fields.fracCoords| == e.value - (i + 6) && Rectangular(o.scan.fields.fracCoords)
        && t.Some? && RowsRead(lines, i + 6, CoordRow, t.value)
        && o.scan.fields.fracCoords == Unzip(t.value).positions))
  {
    var o := Dispatch(FractionalHeader, ltype, lines, i, sc);
    assert o == OnFields(sc, FractionalStep(lines, i, sc.fields));
    CoordinateRows(lines, i);
  }

  /** One more line of the pass of `read`: the round for line `n` applied to the
      state after the lines before it, unless one of them raised. */
  lemma ScanNext(cfg: Config, ltype: string, lines: seq<string>, n: nat, start: Scan)
    requires n < |lines|
    ensures var prev := ScanUpTo(cfg, ltype, lines, n, start);
      ScanUpTo(cfg, ltype, lines, n + 1, start)
        == if prev.raised then prev else Step(cfg, ltype, lines, n, prev.scan)
  {
  }

  /** Once a line has raised, the pass of `read` is over. */
  lemma ScanStops(cfg: Config, ltype: string, lines: seq<string>, n: nat, start: Scan)
    requires n <= |lines| && ScanUpTo(cfg, ltype, lines, n, start).raised
    ensures ScanUpTo(cfg, ltype, lines, |lines|, start) == ScanUpTo(cfg, ltype, lines, n, start)
  {
    PassStopsAtRaise(LineStep(cfg, ltype, lines), n, |lines|, start);
  }

  /** Once an exception has ended the pass, later rounds change nothing. */
  lemma {:induction false} PassStopsAtRaise(step: (nat, Scan) -> Outcome, n: nat, m: nat, start: Scan)
    requires n <= m && Pass(step, n, start).raised
    ensures Pass(step, m, start) == Pass(step, n, start)
    decreases m
  {
    if m > n {
      PassStopsAtRaise(step, n, m - 1, start);
    }
  }

  /** `after` keeps `lattice_para`, or line `i` is a parameters header and sets it
      to the lattice built from the block under it. */
  predicate SetsPara(lines: seq<string>, ltype: string, i: nat, before: Scan, after: Outcome)
  {
    after.scan.para == before.para
    || (i < |lines| && Contains(lines[i], ParametersMarker) && ParaBlock(lines, i).Some?
      && after.scan.para == Some(FromPara(ParaBlock(lines, i).value, ltype)))
  }

  /** The same for `lattice_vector` and a vectors header. */
  predicate SetsVector(lines: seq<string>, ltype: string, i: nat, before: Scan, after: Outcome)
  {
    after.scan.vector == before.vector
    || (i < |lines| && Contains(lines[i], VectorsMarker) && VectorBlock(lines, i).Some?
      && after.scan.vector == Some(FromMatrix(VectorBlock(lines, i).value, ltype)))
  }

  /** `after` keeps `optimized`, or line `i` holds `Job Finished` and turns it on. */
  predicate SetsOptimized(lines: seq<string>, i: nat, before: Scan, after: Outcome)
  {
    after.scan.fields.optimized == before.fields.optimized
    || (i < |lines| && Contains(lines[i], JobMarker) && after.scan.fields.optimized)
  }

  /** Over a pass whose rounds set `lattice_para` only from parameters headers, a set
      `lattice_para` comes from such a header, and none is set without one. */
  lemma {:induction false} PassPara(step: (nat, Scan) -> Outcome, lines: seq<string>, ltype: string, n: nat, start: Scan)
    requires n <= |lines| && start.para.None?
    requires forall i: nat, sc: Scan :: SetsPara(lines, ltype, i, sc, step(i, sc))
    ensures var p := Pass(step, n, start).scan.para;
      p.Some? ==> (exists k :: (0 <= k < n && Contains(lines[k], ParametersMarker) && ParaBlock(lines, k).Some?
        && p == Some(FromPara(ParaBlock(lines, k).value, ltype))))
    ensures (forall k :: 0 <= k < n ==> !Contains(lines[k], ParametersMarker)) ==> Pass(step, n, start).scan.para.None?
  {
    if n > 0 {
      PassPara(step, lines, ltype, n - 1, start);
      var prev := Pass(step, n - 1, start);
      if !prev.raised {
        assert SetsPara(lines, ltype, n - 1, prev.scan, step(n - 1, prev.scan));
      }
    }
  }

  /** The same for `lattice_vector`. */
  lemma {:induction false} PassVector(step: (nat, Scan) -> Outcome, lines: seq<string>, ltype: string, n: nat, start: Scan)
    requires n <= |lines| && start.vector.None?
    requires forall i: nat, sc: Scan :: SetsVector(lines, ltype, i, sc, step(i, sc))
    ensures var v := Pass(step, n, start).scan.vector;
      v.Some? ==> (exists k :: (0 <= k < n && Contains(lines[k], VectorsMarker) && VectorBlock(lines, k).Some?
        && v == Some(FromMatrix(VectorBlock(lines, k).value, ltype))))
    ensures (forall k :: 0 <= k < n ==> !Contains(lines[k], VectorsMarker)) ==> Pass(step, n, start).scan.vector.None?
  {
    if n > 0 {
      PassVector(step, lines, ltype, n - 1, start);
      var prev := Pass(step, n - 1, start);
      if !prev.raised {
        assert SetsVector(lines, ltype, n - 1, prev.scan, step(n - 1, prev.scan));
      }
    }
  }

  /** Over a pass whose rounds turn `optimized` on only at `Job Finished`, it ends on
      only if it started on or such a line was passed. */
  lemma {:induction false} PassOptimized(step: (nat, Scan) -> Outcome, lines: seq<string>, n: nat, start: Scan)
    requires n <= |lines|
    requires forall i: nat, sc: Scan :: SetsOptimized(lines, i, sc, step(i, sc))
    ensures Pass(step, n, start).scan.fields.optimized
      ==> start.fields.optimized || exists k :: 0 <= k < n && Contains(lines[k], JobMarker)
  {
    if n > 0 {
      PassOptimized(step, lines, n - 1, start);
      var prev := Pass(step, n - 1, start);
      if !prev.raised {
        assert SetsOptimized(lines, n - 1, prev.scan, step(n - 1, prev.scan));
      }
    }
  }

  /** Every round of `read`'s pass sets the locals and `optimized` only as the markers allow. */
  lemma LineStepFrame(cfg: Config, ltype: string, lines: seq<string>)
    ensures forall i: nat, sc: Scan :: SetsPara(lines, ltype, i, sc, LineStep(cfg, ltype, lines)(i, sc))
    ensures forall i: nat, sc: Scan :: SetsVector(lines, ltype, i, sc, LineStep(cfg, ltype, lines)(i, sc))
    ensures forall i: nat, sc: Scan :: SetsOptimized(lines, i, sc, LineStep(cfg, ltype, lines)(i, sc))
  {
    forall i: nat, sc: Scan | i < |lines| ensures SetsPara(lines, ltype, i, sc, Step(cfg, ltype, lines, i, sc))
      && SetsVector(lines, ltype, i, sc, Step(cfg, ltype, lines, i, sc))
      && SetsOptimized(lines, i, sc, Step(cfg, ltype, lines, i, sc))
    {
      StepFrame(cfg, ltype, lines, i, sc);
    }
  }

  /**
   * After `read`, a log without a non-primitive parameters header or Cartesian
   * lattice vectors header leaves the lattice as it was and reports an error;
   * with either, the lattice comes from a block of the log.
   */
  lemma ReadLattice(cfg: Config, r0: Results, lines: seq<string>)
    ensures var r := ReadLog(cfg, r0, lines);
      var ltype := LatticeType(r0.fields.pyxtal);
      (r.lattice == r0.lattice
        || (exists k :: (0 <= k < |lines| && Contains(lines[k], ParametersMarker)
          && ParaBlock(lines, k).Some? && r.lattice == FromPara(ParaBlock(lines, k).value, ltype)))
        || (exists k :: (0 <= k < |lines| && Contains(lines[k], VectorsMarker)
          && VectorBlock(lines, k).Some? && r.lattice == FromMatrix(VectorBlock(lines, k).value, ltype))))
      && ((forall k :: 0 <= k < |lines| ==> !Contains(lines[k], ParametersMarker) && !Contains(lines[k], VectorsMarker))
        ==> r.lattice == r0.lattice && r.error && r.fields.energy.None?)
  {
    var ltype := LatticeType(r0.fields.pyxtal);
    var start := Scan(r0.fields, None, None);
    LineStepFrame(cfg, ltype, lines);
    PassPara(LineStep(cfg, ltype, lines), lines, ltype, |lines|, start);
    PassVector(LineStep(cfg, ltype, lines), lines, ltype, |lines|, start);
  }

  /** On an object without an earlier error, `error` after `read` holds exactly
      when `energy` is `None`, and a kept energy is never NaN; an earlier error
      stays. */
  lemma ReadErrorIffNoEnergy(cfg: Config, r0: Results, lines: seq<string>)
    ensures var r := ReadLog(cfg, r0, lines);
      (r0.error ==> r.error)
      && (!r0.error ==> (r.error <==> r.fields.energy.None?))
      && (r.fields.energy.Some? ==> !IsNaN(r.fields.energy.value))
  {
  }

  /** After `read`, `optimized` is on only if it was on before or the log has a
      `Job Finished` line; a missing marker by itself is no error. */
  lemma ReadOptimized(cfg: Config, r0: Results, lines: seq<string>)
    ensures ReadLog(cfg, r0, lines).fields.optimized
      ==> r0.fields.optimized || exists k :: 0 <= k < |lines| && Contains(lines[k], JobMarker)
  {
    var ltype := LatticeType(r0.fields.pyxtal);
    LineStepFrame(cfg, ltype, lines);
    PassOptimized(LineStep(cfg, ltype, lines), lines, |lines|, Scan(r0.fields, None, None));
  }
}

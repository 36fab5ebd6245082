/**
 * The `GULP_OC` calculator object for molecular crystals: the settings it was
 * built with, the structure it holds, and the attributes `read` assigns.
 *
 * `Write` returns the pieces it would pass to `f.write` and the exception, if
 * one stopped it; `Read` takes the lines of the log and says whether an
 * exception left it. Each method is proved to agree with the functions of
 * `OcDeck` and `OcRead`, whose properties are proved there.
 */
module OcCalc {
  import opened Wrappers
  import opened Text
  import opened Numbers
  import opened Crystal
  import opened AtomTypes
  import opened LogFields
  import opened LogBlocks
  import opened GulpDeck
  import opened OcDeck
  import opened OcRead

  class GulpOC {
    const ff: string
    const bondType: bool
    const opt: string
    const steps: int
    const stepmx: string
    const dump: Option<string>
    const atomInfo: Option<AtomInfo>

    var structure: MolCrystal
    var version: Option<string>
    var optimized: bool
    var cputime: Float
    var stress: Option<seq<Float>>
    var iter: int
    var positions: Option<seq<seq<Float>>>
    var species: Option<seq<string>>
    var cell: Option<Mat3>
    var lattice: Option<Lattice>

    /** The settings that shape the deck. */
    function Settings(): OcSettings
    {
      OcSettings(ff, bondType, opt, steps, stepmx, dump, atomInfo)
    }

    /** The attributes the pass of `read` assigns. */
    function Attributes(): OcFields
      reads this
    {
      OcFields(structure.energy, version, optimized, cputime, stress, iter, positions, species, cell)
    }

    /** Everything `read` may change. */
    function Snapshot(): OcResults
      reads this
    {
      OcResults(Attributes(), structure.lattice, lattice)
    }

    /** `GULP_OC(struc, ...)`: no results yet; `version` and `lattice` are not set
        until `read` sets them. */
    constructor(st: OcSettings, struc: MolCrystal)
      ensures Settings() == st && structure == struc
      ensures Snapshot() == OcResults(OcFields(struc.energy, None, false, Finite(0.0), None, 0, None, None, None), struc.lattice, None)
    {
      ff := st.ff;
      bondType := st.bondType;
      opt := st.opt;
      steps := st.steps;
      stepmx := st.stepmx;
      dump := st.dump;
      atomInfo := st.atomInfo;
      structure := struc;
      version := None;
      optimized := false;
      cputime := Finite(0.0);
      stress := None;
      iter := 0;
      positions := None;
      species := None;
      cell := None;
      lattice := None;
    }

    // -------------------------------------------------------------------------
    // write

    /** The inner loop of the atom lines: one line per atom until one raises. */
    static method WriteMolecule(types: map<string, string>, atoms: seq<MolAtom>, labels: seq<string>, charges: seq<Float>) returns (out: AtomsOut)
      ensures out == MoleculeLines(types, atoms, labels, charges, |atoms|)
    {
      var pieces, symbols := [], [];
      var j := 0;
      while j < |atoms|
        invariant 0 <= j <= |atoms|
        invariant MoleculeLines(types, atoms, labels, charges, j) == AtomsOut(pieces, symbols, None)
      {
        ghost var entry := AtomEntry(types, atoms[j], labels, charges, j);
        assert MoleculeLines(types, atoms, labels, charges, j + 1) == if entry.Failed? then AtomsOut(pieces, symbols, Some(entry.failure))
          else AtomsOut(pieces + [entry.piece], symbols + [entry.symbol], None);
        var element := atoms[j].element;
        var symbol;
        if IsBareHalogen(element) {
          symbol := element;
        } else if j < |labels| {
          symbol := SymbolOf(element, labels[j]);
        } else {
          MoleculeStops(types, atoms, labels, charges, j + 1, |atoms|);
          return AtomsOut(pieces, symbols, Some(IndexError));
        }
        var code := TypeCode(types, symbol);
        if code.None? {
          MoleculeStops(types, atoms, labels, charges, j + 1, |atoms|);
          return AtomsOut(pieces, symbols, Some(UnsupportedSymbol(symbol)));
        }
        if j >= |charges| {
          MoleculeStops(types, atoms, labels, charges, j + 1, |atoms|);
          return AtomsOut(pieces, symbols, Some(IndexError));
        }
        pieces := pieces + [AtomRow(code.value, atoms[j].coord, charges[j])];
        symbols := symbols + [symbol];
        j := j + 1;
      }
      out := AtomsOut(pieces, symbols, None);
    }

    /** The loop over the molecular sites: each takes its labels and charges from
        its molecule or from `atom_info`. */
    method WriteAtoms(types: map<string, string>) returns (out: AtomsOut)
      ensures out == AtomsPart(types, structure.molSites, atomInfo, |structure.molSites|)
    {
      var sites := structure.molSites;
      out := AtomsOut([], [], None);
      var k := 0;
      while k < |sites|
        invariant 0 <= k <= |sites|
        invariant out == AtomsPart(types, sites, atomInfo, k) && out.failure.None?
      {
        var site := sites[k];
        var labels, charges := site.gmxLabels, site.charges;
        if atomInfo.Some? {
          if site.siteType >= |atomInfo.value.labels| || site.siteType >= |atomInfo.value.charges| {
            AtomsPartStops(types, sites, atomInfo, k + 1, |sites|);
            return AtomsOut(out.pieces, out.symbols, Some(IndexError));
          }
          labels, charges := atomInfo.value.labels[site.siteType], atomInfo.value.charges[site.siteType];
        }
        var here := WriteMolecule(types, site.atoms, labels, charges);
        out := AtomsOut(out.pieces + here.pieces, out.symbols + here.symbols, here.failure);
        k := k + 1;
        if here.failure.Some? {
          AtomsPartStops(types, sites, atomInfo, k, |sites|);
          return;
        }
      }
    }

    /** The `Species` lines, one per symbol of the set. */
    static method WriteSpecies(types: map<string, string>, order: seq<string>) returns (w: OcWritten)
      ensures w == SpeciesPart(types, order, |order|)
    {
      var pieces := [];
      var k := 0;
      while k < |order|
        invariant 0 <= k <= |order|
        invariant SpeciesPart(types, order, k) == OcWritten(pieces, None)
      {
        var code := TypeCode(types, order[k]);
        if code.None? {
          SpeciesStops(types, order, k + 1, |order|);
          return OcWritten(pieces, Some(UnsupportedSymbol(order[k])));
        }
        pieces := pieces + [SpeciesRow(code.value, order[k])];
        k := k + 1;
      }
      w := OcWritten(pieces, None);
    }

    /** The `symmetry_operator` blocks, three rows per operation. */
    static method WriteOperators(ops: seq<SymOp>) returns (pieces: seq<Piece>)
      ensures pieces == OperatorLines(ops, |ops|)
    {
      pieces := [];
      for k := 0 to |ops|
        invariant pieces == OperatorLines(ops, k)
      {
        var block := [Plain("symmetry_operator\n")];
        for r := 0 to 3
          invariant block == OperatorBlock(ops[k])[..r + 1]
        {
          block := block + [OpRow(Column(ops[k].rotation, r), Component(ops[k].translation, r))];
        }
        pieces := pieces + block;
      }
    }

    /** The `connect` lines: every bond once per copy, shifted by the copy's index
        times the atom count. */
    static method WriteConnect(bonds: seq<Bond>, copies: nat, count: nat) returns (pieces: seq<Piece>)
      ensures pieces == ConnectLines(bonds, copies, count, |bonds|)
    {
      pieces := [];
      for b := 0 to |bonds|
        invariant pieces == ConnectLines(bonds, copies, count, b)
      {
        var rows := [];
        for i := 0 to copies
          invariant rows == BondLines(bonds[b], copies, count, i)
        {
          var shift := i * count;
          rows := rows + [ConnectRow(bonds[b].first + shift, bonds[b].second + shift)];
        }
        pieces := pieces + rows;
      }
    }

    /** The closing directives. */
    method WriteDirectives() returns (pieces: seq<Piece>)
      ensures pieces == OcDirectives(Settings())
    {
      pieces := [Plain("\nlibrary " + ff + ".lib\n"), Plain("ewald 10.0\n"), Plain(MaxcycleLine(steps)),
                 Plain("stepmx " + stepmx + "\n"), Plain("ftol 0.0001\n"), Plain("gtol 0.002\n"), Plain("gmax 0.01\n")];
      if dump.Some? {
        pieces := pieces + [Plain(CifLine(dump.value))];
      }
    }

    /**
     * `GULP_OC.write`, given the cell parameters of the structure's lattice in
     * degrees and the order in which `set(symbols)` is iterated: the calls made,
     * and the exception that stopped it, if any.
     */
    method Write(para: CellPara, order: seq<string>) returns (w: OcWritten)
      ensures w == OcDeckOf(AtTypes, Settings(), structure.molSites, para, structure.lattice.ltype, order)
    {
      var sites := structure.molSites;
      var pieces := OcPreamble(opt, para);
      var atoms := WriteAtoms(AtTypes);
      pieces := pieces + atoms.pieces;
      if atoms.failure.Some? {
        return OcWritten(pieces, atoms.failure);
      }
      pieces := pieces + [Plain("\nSpecies\n")];
      var entries := WriteSpecies(AtTypes, order);
      pieces := pieces + entries.pieces;
      if entries.failure.Some? {
        return OcWritten(pieces, entries.failure);
      }
      pieces := pieces + [Plain("\nsymmetry_cell " + structure.lattice.ltype + "\n")];
      if sites == [] {
        return OcWritten(pieces, Some(IndexError));
      }
      var site0, last := sites[0], sites[|sites| - 1];
      var ops := WriteOperators(Tail(site0.ops));
      var bonds := [];
      if bondType {
        bonds := WriteConnect(site0.bonds, |last.ops|, |last.atoms|);
      }
      var directives := WriteDirectives();
      w := OcWritten(pieces + (ops + bonds + directives), None);
    }

    // -------------------------------------------------------------------------
    // read

    /** A line holding the energy phrase. */
    method HandleEnergy(line: string) returns (raised: bool)
      modifies this`structure
      ensures OcOutcome(Attributes(), raised) == OcEnergyStep(line, old(Attributes()))
      ensures structure == old(structure).(energy := structure.energy)
    {
      var t := MatchEnergy(line, EnergyMarker);
      if t.None? {
        return false;
      }
      var e := ParseFloat(t.value);
      if e.None? {
        return true;
      }
      EnergyParsed(line, Attributes(), e);
      structure := structure.(energy := e);
      return false;
    }

    /** The `Total CPU time` branch. */
    method HandleCpu(line: string) returns (raised: bool)
      modifies this`cputime
      ensures OcOutcome(Attributes(), raised) == OcCpuStep(line, old(Attributes()))
    {
      var x := CpuField(line);
      if x.None? {
        return true;
      }
      cputime := x.value;
      return false;
    }

    /** The stress branch. */
    method HandleStress(lines: seq<string>, i: nat) returns (raised: bool)
      modifies this`stress
      ensures OcOutcome(Attributes(), raised) == OcStressStep(lines, i, old(Attributes()))
    {
      var st := ReadStress(lines, i);
      if st.None? {
        return true;
      }
      stress := st;
      return false;
    }

    /** The ` Cycle: ` branch. */
    method HandleCycle(line: string) returns (raised: bool)
      modifies this`iter
      ensures OcOutcome(Attributes(), raised) == OcCycleStep(line, old(Attributes()))
    {
      var n := CycleField(line);
      if n.None? {
        return true;
      }
      iter := n.value;
      return false;
    }

    /** The coordinates branch: positions first, then species. */
    method HandleCoordinates(lines: seq<string>, i: nat) returns (raised: bool)
      modifies this`positions, this`species
      ensures OcOutcome(Attributes(), raised) == OcCoordinatesStep(lines, i, old(Attributes()))
    {
      var c := ReadCoordinates(lines, i);
      if c.None? {
        return true;
      }
      var rows := AsArray(c.value.positions);
      if rows.None? {
        return true;
      }
      positions := rows;
      species := Some(c.value.species);
      return false;
    }

    /** The lattice vectors branch. */
    method HandleVectors(lines: seq<string>, i: nat) returns (raised: bool)
      modifies this`cell
      ensures OcOutcome(Attributes(), raised) == OcVectorsStep(lines, i, old(Attributes()))
    {
      var m := ReadVectors(lines, i);
      if m.None? {
        return true;
      }
      cell := m;
      return false;
    }

    /** The tests of the loop body, in order. */
    static method ClassifyLine(line: string) returns (kind: OcKind)
      ensures kind == OcClassify(line)
    {
      if Contains(line, EnergyMarker) {
        kind := EnergyText;
      } else if Contains(line, "Job Finished") {
        kind := Finished;
      } else if Contains(line, "Total CPU time") {
        kind := CpuTime;
      } else if Contains(line, "Final stress tensor components") {
        kind := StressTable;
      } else if Contains(line, " Cycle: ") {
        kind := CycleLine;
      } else if Contains(line, UnitMarker) || Contains(line, "Final fractional coordinates of atoms") {
        kind := CoordinateTable;
      } else if Contains(line, "Final Cartesian lattice vectors") {
        kind := VectorTable;
      } else {
        kind := Other;
      }
    }

    /** The branch for a line of the given kind. */
    method Handle(kind: OcKind, lines: seq<string>, i: nat) returns (raised: bool)
      requires i < |lines|
      modifies this`structure, this`optimized, this`cputime, this`stress, this`iter, this`positions, this`species, this`cell
      ensures OcOutcome(Attributes(), raised) == OcDispatch(kind, lines, i, old(Attributes()))
      ensures structure == old(structure).(energy := structure.energy)
    {
      match kind
      case EnergyText => raised := HandleEnergy(lines[i]);
      case Finished => optimized := true; raised := false;
      case CpuTime => raised := HandleCpu(lines[i]);
      case StressTable => raised := HandleStress(lines, i);
      case CycleLine => raised := HandleCycle(lines[i]);
      case CoordinateTable => raised := HandleCoordinates(lines, i);
      case VectorTable => raised := HandleVectors(lines, i);
      case Other => raised := false;
    }

    /** The body of the loop for line `i`: the version first, then the line's branch. */
    method ReadLine(lines: seq<string>, i: nat) returns (raised: bool)
      requires i < |lines|
      modifies this`structure, this`version, this`optimized, this`cputime, this`stress, this`iter, this`positions, this`species, this`cell
      ensures OcOutcome(Attributes(), raised) == OcStep(lines, i, old(Attributes()))
      ensures structure == old(structure).(energy := structure.energy)
    {
      if i == 7 {
        version := Some(lines[i]);
      }
      var kind := ClassifyLine(lines[i]);
      raised := Handle(kind, lines, i);
    }

    /** The `for` loop over the lines, left at the first exception. */
    method ReadLines(lines: seq<string>) returns (raised: bool)
      modifies this`structure, this`version, this`optimized, this`cputime, this`stress, this`iter, this`positions, this`species, this`cell
      ensures OcOutcome(Attributes(), raised) == OcScan(lines, |lines|, old(Attributes()))
      ensures structure == old(structure).(energy := structure.energy)
    {
      raised := false;
      ghost var start := Attributes();
      var i := 0;
      while i < |lines| && !raised
        invariant 0 <= i <= |lines|
        invariant OcScan(lines, i, start) == OcOutcome(Attributes(), raised)
        invariant structure == old(structure).(energy := structure.energy)
      {
        OcScanNext(lines, i, start);
        raised := ReadLine(lines, i);
        i := i + 1;
      }
      if raised {
        OcScanStops(lines, i, start);
      }
    }

    /**
     * `GULP_OC.read` on the lines of the log, given the matrix of the structure's
     * lattice: the pass, then, unless it raised, the default cell and the new
     * lattice of the structure.
     */
    method Read(lines: seq<string>, matrix: Mat3) returns (raised: bool)
      requires structure.lattice.FromMatrix? ==> matrix == structure.lattice.matrix
      modifies this
      ensures (Snapshot(), raised) == OcReadLog(old(Snapshot()), lines, matrix, old(structure.groupLtype))
      ensures structure.molSites == old(structure.molSites) && structure.groupLtype == old(structure.groupLtype)
    {
      raised := ReadLines(lines);
      if raised {
        return;
      }
      if cell.None? {
        cell := Some(matrix);
      }
      var lat := FromMatrix(cell.value, structure.groupLtype);
      lattice := Some(lat);
      structure := structure.(lattice := lat);
    }
  }
}

/**
 * The `GULP` calculator object: the settings it was built with, the structure
 * it holds, and the attributes `read` assigns from a GULP log.
 *
 * `write` returns the chunks it would pass to `f.write`; `read` takes the
 * lines of the log. Each method is proved to agree with the functions of
 * `GulpDeck` and `GulpRead`, whose properties are proved there.
 */
module GulpCalc {
  import opened Wrappers
  import opened Text
  import opened Numbers
  import opened Crystal
  import opened LogFields
  import opened LogBlocks
  import opened GulpDeck
  import opened GulpRead

  /** The lattice type `Lattice.from_matrix` gives a cell when none is named. */
  const DefaultType := "triclinic"

  class Gulp {
    const symmetry: bool
    const ff: string
    const opt: string
    const steps: int
    const pstress: Option<Float>
    const dump: Option<string>
    const labels: Option<map<string, string>>
    /** `struc.get_chemical_symbols()`. */
    const sites: seq<string>

    var energy: Option<Float>
    var energyPerAtom: Option<Float>
    var optimized: bool
    var cputime: Float
    var stress: Option<seq<Float>>
    var forces: Option<seq<Vec3>>
    var iter: int
    var fracCoords: seq<seq<Float>>
    var pyxtal: Option<Pyxtal>
    var lattice: Lattice
    var error: bool

    /** The settings that shape the deck. */
    function DeckSettings(): Settings
    {
      Settings(symmetry, ff, opt, steps, pstress, dump, labels)
    }

    /** The attributes the pass of `read` assigns. */
    function Attributes(): Fields
      reads this
    {
      Fields(energy, energyPerAtom, optimized, cputime, stress, forces, iter, fracCoords, pyxtal)
    }

    /** Everything `read` may change. */
    function Snapshot(): Results
      reads this
    {
      Results(Attributes(), lattice, error)
    }

    /**
     * `GULP(struc, ...)`. A pyxtal structure is kept and converted to ASE atoms;
     * the object then holds the cell as a lattice, the scaled positions and the
     * chemical symbols of those atoms (`cell`, `scaled`, `symbols`), and starts
     * with no results.
     */
    constructor(st: Settings, struc: Option<Pyxtal>, cell: Mat3, scaled: seq<seq<Float>>, symbols: seq<string>)
      ensures DeckSettings() == st && sites == symbols
      ensures Snapshot() == Results(Fields(None, None, false, Finite(0.0), None, None, 0, scaled, struc),
        FromMatrix(cell, DefaultType), false)
    {
      symmetry := st.symmetry;
      ff := st.ff;
      opt := st.opt;
      steps := st.steps;
      pstress := st.pstress;
      dump := st.dump;
      labels := st.labels;
      sites := symbols;
      pyxtal := struc;
      lattice := FromMatrix(cell, DefaultType);
      fracCoords := scaled;
      iter := 0;
      energy := None;
      energyPerAtom := None;
      stress := None;
      forces := None;
      optimized := false;
      cputime := Finite(0.0);
      error := false;
    }

    // -------------------------------------------------------------------------
    // write

    /** The atom lines of the symmetry path: a core per site, and a shell for
        oxygen under `catlow`. */
    method WriteSymmetricSites(x: Pyxtal) returns (chunks: seq<Chunk>)
      ensures chunks == SymSiteLines(x.atomSites, ff, |x.atomSites|)
    {
      chunks := [];
      var k := 0;
      while k < |x.atomSites|
        invariant 0 <= k <= |x.atomSites|
        invariant chunks == SymSiteLines(x.atomSites, ff, k)
      {
        var site := x.atomSites[k];
        chunks := chunks + [Site(site.specie, site.position, "core")];
        if HasShell(ff, site.specie) {
          chunks := chunks + [Site(site.specie, site.position, "shell")];
        }
        k := k + 1;
      }
    }

    /** The atom lines of `zip(frac_coords, sites)`, stopping where a row is too short. */
    method WriteZippedSites() returns (w: Written)
      ensures w == ZipLines(fracCoords, sites, if |fracCoords| < |sites| then |fracCoords| else |sites|)
    {
      var n := if |fracCoords| < |sites| then |fracCoords| else |sites|;
      var chunks := [];
      var k := 0;
      while k < n
        invariant 0 <= k <= n
        invariant ZipLines(fracCoords, sites, k) == Written(chunks, false)
      {
        var coord := RowVec(fracCoords[k]);
        if coord.None? {
          return Written(chunks, true);
        }
        chunks := chunks + [Site(sites[k], coord.value, "core")];
        k := k + 1;
      }
      w := Written(chunks, false);
    }

    /** The `Species` entries, one per symbol in the order `set(sites)` yields. */
    method WriteSpecies(order: seq<string>) returns (chunks: seq<Chunk>)
      ensures chunks == SpeciesLines(order, labels, ff, |order|)
    {
      chunks := [];
      var k := 0;
      while k < |order|
        invariant 0 <= k <= |order|
        invariant chunks == SpeciesLines(order, labels, ff, k)
      {
        var specie := order[k];
        if labels.Some? {
          if specie in labels.value {
            chunks := chunks + [Text(PadRight(specie, 4) + " core " + labels.value[specie] + "\n")];
          } else {
            chunks := chunks + [Text(PadRight(specie, 4) + " core " + PadRight(specie, 4) + "\n")];
          }
        } else if HasShell(ff, specie) {
          chunks := chunks + [Text("O    core O_O2- core\n")];
          chunks := chunks + [Text("O    shell O_O2- shell\n")];
        } else {
          chunks := chunks + [Text(PadRight(specie, 4) + " core " + PadRight(specie, 4) + "\n")];
        }
        k := k + 1;
      }
    }

    /** The run keywords, `nosymmetry` when symmetry is off, and the cell. */
    method WritePreamble(para: CellPara) returns (chunks: seq<Chunk>)
      ensures chunks == Preamble(DeckSettings(), para)
    {
      chunks := [Text(Header(opt))];
      if !symmetry {
        chunks := chunks + [Text("nosymmetry\n")];
      }
      chunks := chunks + [Text("\ncell\n")];
      chunks := chunks + [Cell(para)];
      chunks := chunks + [Text("\nfractional\n")];
    }

    /** The library and Ewald lines, then the optional directives. */
    method WriteDirectives() returns (chunks: seq<Chunk>)
      ensures chunks == Directives(DeckSettings())
    {
      chunks := [Text("\nlibrary " + ff + "\n")];
      chunks := chunks + [Text("ewald 10.0\n")];
      if opt != "single" {
        chunks := chunks + [Text(MaxcycleLine(steps))];
      }
      if pstress.Some? {
        chunks := chunks + [Pressure(pstress.value)];
      }
      if dump.Some? {
        chunks := chunks + [Text(CifLine(dump.value))];
      }
    }

    /**
     * `GULP.write`, given the cell parameters of the current lattice
     * (`get_para(degree=True)`) and the order in which `set(sites)` is iterated:
     * the calls made, and whether a format raised part way.
     */
    method Write(para: CellPara, order: seq<string>) returns (w: Written)
      ensures w == Deck(DeckSettings(), pyxtal, fracCoords, sites, para, order)
    {
      var chunks := WritePreamble(para);
      if symmetry && pyxtal.Some? {
        var atoms := WriteSymmetricSites(pyxtal.value);
        chunks := chunks + atoms;
        chunks := chunks + [Text("\nspace\n" + IntText(pyxtal.value.groupNumber) + "\n")];
        chunks := chunks + [Text("\norigin\n0 0 0\n")];
      } else {
        var atoms := WriteZippedSites();
        chunks := chunks + atoms.chunks;
        if atoms.raised {
          return Written(chunks, true);
        }
      }
      chunks := chunks + [Text("\nSpecies\n")];
      var entries := WriteSpecies(order);
      chunks := chunks + entries;
      var directives := WriteDirectives();
      w := Written(chunks + directives, false);
    }

    // -------------------------------------------------------------------------
    // read

    /** The loop over the atom sites of the asymmetric-unit branch: site `k`
        takes its position from line `s + k`, until a line fails; the sites
        updated before it keep their new positions. */
    static method UpdateSites(sites0: seq<AtomSite>, lines: seq<string>, s: nat) returns (sites: seq<AtomSite>, raised: bool)
      ensures (sites, raised) == AsymmetricSites(sites0, lines, s, |sites0|, AsymmetricRow)
    {
      sites, raised := sites0, false;
      var k := 0;
      while k < |sites0|
        invariant 0 <= k <= |sites0|
        invariant AsymmetricSites(sites0, lines, s, k, AsymmetricRow) == (sites, false)
      {
        var v := if s + k < |lines| then AsymmetricRow(lines[s + k]) else None;
        assert RowFails(lines, s + k, AsymmetricRow) <==> v.None?;
        if v.None? {
          AsymmetricStops(sites0, lines, s, k, |sites0|, AsymmetricRow);
          return sites, true;
        }
        AsymmetricNext(sites0, lines, s, k, AsymmetricRow);
        sites := sites[k := AtomSite(sites[k].specie, v.value)];
        k := k + 1;
      }
    }

    /** The asymmetric-unit branch: it needs the pyxtal structure. */
    method ReadAsymmetric(lines: seq<string>, i: nat) returns (raised: bool)
      modifies this`pyxtal
      ensures (Attributes(), raised) == AsymmetricStep(lines, i, old(Attributes()))
    {
      if pyxtal.None? {
        return true;
      }
      var x := pyxtal.value;
      var sites;
      sites, raised := UpdateSites(x.atomSites, lines, i + 6);
      pyxtal := Some(x.(atomSites := sites));
    }

    /** The energy branch: the energy, then its share per atom. */
    method ReadEnergy(text: string) returns (raised: bool)
      modifies this`energy, this`energyPerAtom
      ensures (Attributes(), raised) == EnergyStep(text, old(Attributes()))
    {
      var e := ParseFloat(text);
      if e.None? {
        return true;
      }
      energy := e;
      if |fracCoords| == 0 {
        return true;
      }
      energyPerAtom := Some(DivideByCount(e.value, |fracCoords|));
      return false;
    }

    /** The `Total CPU time` branch. */
    method ReadCpuTime(line: string) returns (raised: bool)
      modifies this`cputime
      ensures (Attributes(), raised) == CpuStep(line, old(Attributes()))
    {
      var t := LastField(line);
      if t.None? {
        return true;
      }
      var x := ParseFloat(t.value);
      if x.None? {
        return true;
      }
      cputime := x.value;
      return false;
    }

    /** The ` Cycle: ` branch. */
    method ReadCycle(line: string) returns (raised: bool)
      modifies this`iter
      ensures (Attributes(), raised) == CycleStep(line, old(Attributes()))
    {
      var t := FieldAt(line, 1);
      if t.None? {
        return true;
      }
      var n := ParseInt(t.value);
      if n.None? {
        return true;
      }
      iter := n.value;
      return false;
    }

    /** The fractional-coordinates branch. */
    method ReadFractional(lines: seq<string>, i: nat) returns (raised: bool)
      modifies this`fracCoords
      ensures (Attributes(), raised) == FractionalStep(lines, i, old(Attributes()))
    {
      var c := ReadCoordinates(lines, i);
      if c.None? {
        return true;
      }
      var rows := AsArray(c.value.positions);
      if rows.None? {
        return true;
      }
      fracCoords := rows.value;
      return false;
    }

    /** The pattern for the energy line, chosen afresh for every line. */
    method ChoosePhrase() returns (phrase: Option<string>)
      ensures phrase == EnergyPhrase(Config(symmetry, pstress), pyxtal)
    {
      if symmetry && (pyxtal.None? || pyxtal.value.groupSymbol == []) {
        return None;
      } else if symmetry && pyxtal.value.groupSymbol[0] != 'P' {
        return Some("Non-primitive unit cell");
      } else if pstress.None? || pstress == Some(Finite(0.0)) {
        return Some("Total lattice energy");
      }
      return Some("Total lattice enthalpy");
    }

    /** The `if`/`elif` chain: the energy pattern first, then the markers in order. */
    static method ClassifyLine(line: string, phrase: string) returns (kind: Kind)
      ensures kind == Classify(line, phrase)
    {
      var m := MatchEnergy(line, phrase);
      if m.Some? {
        kind := EnergyLine(m.value);
      } else if Contains(line, JobMarker) {
        kind := JobFinished;
      } else if Contains(line, CpuMarker) {
        kind := CpuTime;
      } else if Contains(line, StressMarker) {
        kind := StressHeader;
      } else if Contains(line, DerivativesMarker) {
        kind := DerivativesHeader;
      } else if Contains(line, CycleMarker) {
        kind := CycleLine;
      } else if Contains(line, AsymmetricMarker) {
        kind := AsymmetricHeader;
      } else if Contains(line, FractionalMarker) {
        kind := FractionalHeader;
      } else if Contains(line, VectorsMarker) {
        kind := VectorsHeader;
      } else if Contains(line, ParametersMarker) {
        kind := ParametersHeader;
      } else {
        kind := Plain;
      }
    }

    /** The branch of the chain taken for a line of kind `kind`. */
    method Handle(kind: Kind, ltype: string, lines: seq<string>, i: nat, para0: Option<Lattice>, vector0: Option<Lattice>)
      returns (para: Option<Lattice>, vector: Option<Lattice>, raised: bool)
      requires i < |lines|
      modifies this`energy, this`energyPerAtom, this`optimized, this`cputime, this`stress, this`forces, this`iter, this`fracCoords, this`pyxtal
      ensures Outcome(Scan(Attributes(), para, vector), raised)
        == Dispatch(kind, ltype, lines, i, Scan(old(Attributes()), para0, vector0))
    {
      para, vector, raised := para0, vector0, false;
      match kind
      case EnergyLine(t) =>
        raised := ReadEnergy(t);
      case JobFinished =>
        optimized := true;
      case CpuTime =>
        raised := ReadCpuTime(lines[i]);
      case StressHeader =>
        var st := ReadStress(lines, i);
        if st.None? {
          raised := true;
        } else {
          stress := st;
        }
      case DerivativesHeader =>
        var fs := ReadDerivatives(lines, i);
        if fs.None? {
          raised := true;
        } else {
          forces := fs;
        }
      case CycleLine =>
        raised := ReadCycle(lines[i]);
      case AsymmetricHeader =>
        raised := ReadAsymmetric(lines, i);
      case FractionalHeader =>
        raised := ReadFractional(lines, i);
      case VectorsHeader =>
        var mv := ReadVectors(lines, i);
        if mv.None? {
          raised := true;
        } else {
          vector := Some(FromMatrix(mv.value, ltype));
        }
      case ParametersHeader =>
        var p := ParaBlock(lines, i);
        if p.None? {
          raised := true;
        } else {
          para := Some(FromPara(p.value, ltype));
        }
      case Plain =>
    }

    /**
     * The body of the `for` loop of `read` for line `i`: the attributes are
     * assigned in place, the locals `lattice_para` and `lattice_vector` come in
     * as `para0`, `vector0` and go out as `para`, `vector`.
     */
    method ReadLine(ltype: string, lines: seq<string>, i: nat, para0: Option<Lattice>, vector0: Option<Lattice>)
      returns (para: Option<Lattice>, vector: Option<Lattice>, raised: bool)
      requires i < |lines|
      modifies this`energy, this`energyPerAtom, this`optimized, this`cputime, this`stress, this`forces, this`iter, this`fracCoords, this`pyxtal
      ensures Outcome(Scan(Attributes(), para, vector), raised)
        == Step(Config(symmetry, pstress), ltype, lines, i, Scan(old(Attributes()), para0, vector0))
    {
      var phrase := ChoosePhrase();
      if phrase.None? {
        return para0, vector0, true;
      }
      var kind := ClassifyLine(lines[i], phrase.value);
      para, vector, raised := Handle(kind, ltype, lines, i, para0, vector0);
    }

    /** The `for` loop of `read` inside its `try`: it runs until the lines end or
        a line raises. */
    method ReadLines(ltype: string, lines: seq<string>) returns (para: Option<Lattice>, vector: Option<Lattice>, raised: bool)
      modifies this`energy, this`energyPerAtom, this`optimized, this`cputime, this`stress, this`forces, this`iter, this`fracCoords, this`pyxtal
      ensures Outcome(Scan(Attributes(), para, vector), raised)
        == ScanUpTo(Config(symmetry, pstress), ltype, lines, |lines|, Scan(old(Attributes()), None, None))
    {
      para, vector, raised := None, None, false;
      ghost var start := Scan(Attributes(), None, None);
      var i := 0;
      while i < |lines| && !raised
        invariant 0 <= i <= |lines|
        invariant ScanUpTo(Config(symmetry, pstress), ltype, lines, i, start) == Outcome(Scan(Attributes(), para, vector), raised)
      {
        ScanNext(Config(symmetry, pstress), ltype, lines, i, start);
        para, vector, raised := ReadLine(ltype, lines, i, para, vector);
        i := i + 1;
      }
      if raised {
        ScanStops(Config(symmetry, pstress), ltype, lines, i, start);
      }
    }

    /** After the loop: the `except`, the choice of lattice, the pyxtal structure's
        new lattice and the check of the energy. */
    method Conclude(para: Option<Lattice>, vector: Option<Lattice>, raised: bool)
      modifies this
      ensures Snapshot() == Finish(Outcome(Scan(old(Attributes()), para, vector), raised), old(lattice), old(error))
    {
      if raised {
        error := true;
        energy := None;
      }
      if para.Some? {
        lattice := para.value;
      } else if vector.Some? {
        lattice := vector.value;
      } else {
        error := true;
        energy := None;
      }
      if pyxtal.Some? {
        pyxtal := Some(pyxtal.value.(lattice := lattice));
      }
      if energy.None? || IsNaN(energy.value) {
        error := true;
        energy := None;
      }
    }

    /** `GULP.read` on the lines of the log. */
    method Read(lines: seq<string>)
      modifies this
      ensures Snapshot() == ReadLog(Config(symmetry, pstress), old(Snapshot()), lines)
    {
      var ltype := if pyxtal.Some? then pyxtal.value.lattice.ltype else "triclinic";
      var para, vector, raised := ReadLines(ltype, lines);
      Conclude(para, vector, raised);
    }
  }
}

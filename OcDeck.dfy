/**
 * The input deck `GULP_OC.write` produces for a molecular crystal.
 *
 * As for the atomic deck, a deck is the sequence of `f.write` calls, one piece
 * per call, and `RenderPiece` is the text a piece writes. The writer raises
 * where Python does: an atom symbol missing from `at_types` (`KeyError`), a
 * label, charge or molecule type past the end of its list, or a crystal
 * without molecular sites (`IndexError`). An exception leaves the file with
 * the pieces written before it.
 */
module OcDeck {
  import opened Wrappers
  import opened Text
  import opened Numbers
  import opened Crystal
  import opened AtomTypes
  import opened GulpDeck

  /** One `f.write` call of the molecular deck. */
  datatype Piece =
    | Plain(text: string)
    | CellRow(para: CellPara)
    | AtomRow(code: string, coord: Vec3, charge: Float)
    | SpeciesRow(code: string, symbol: string)
    | OpRow(row: Vec3, shift: Float)
    | ConnectRow(first: int, second: int)

  /** The exception that ends a write. */
  datatype Failure = UnsupportedSymbol(symbol: string) | IndexError

  /** The pieces written and the exception, if one ended the write. */
  datatype OcWritten = OcWritten(pieces: seq<Piece>, failure: Option<Failure>)

  /** The constructor arguments of `GULP_OC` that shape its deck; `stepmx` is
      the text `str()` gives the step size. */
  datatype OcSettings = OcSettings(
    ff: string,
    bondType: bool,
    opt: string,
    steps: int,
    stepmx: string,
    dump: Option<string>,
    atomInfo: Option<AtomInfo>)

  /** `{:6.3f}`. */
  function F6(x: Float): string
  {
    FormatFixed(x, 6, 3)
  }

  /** The text one call writes. */
  function RenderPiece(p: Piece): string
  {
    match p
    case Plain(t) => t
    case CellRow(c) => CellLine(c)
    case AtomRow(code, v, q) =>
      PadRight(code, 4) + " " + F12(v.x) + " " + F12(v.y) + " " + F12(v.z) + " core " + F12(q) + "\n"
    case SpeciesRow(code, symbol) => PadRight(code, 4) + " core " + PadRight(symbol, 4) + "\n"
    case OpRow(r, t) => F6(r.x) + " " + F6(r.y) + " " + F6(r.z) + " " + F6(t) + "\n"
    case ConnectRow(a, b) => "connect " + PadLeft(IntText(a), 4) + " " + PadLeft(IntText(b), 4) + "\n"
  }

  /** The first line: the run keywords chosen from `opt`. */
  function OcHeader(opt: string): string
  {
    if opt == "conv" then "opti " + opt + " conj molecule nomod qok\n"
    else "opti stress " + opt + " conj molecule nomod qok\n"
  }

  /** Everything up to the `fractional` keyword. */
  function OcPreamble(opt: string, para: CellPara): seq<Piece>
  {
    [Plain(OcHeader(opt)), Plain("\ncell\n"), CellRow(para), Plain("\nfractional\n")]
  }

  // ---------------------------------------------------------------------------
  // Atom lines

  /** The labels and charges of a site's molecule: those stored on the molecule, or
      those `atom_info` gives its type; `None` where the type is past the end of a
      list of `atom_info`. */
  function SiteLabels(site: MolSite, info: Option<AtomInfo>): Option<(seq<string>, seq<Float>)>
  {
    match info
    case None => Some((site.gmxLabels, site.charges))
    case Some(ai) =>
      if site.siteType < |ai.labels| && site.siteType < |ai.charges| then
        Some((ai.labels[site.siteType], ai.charges[site.siteType]))
      else None
  }

  /** The symbol of atom `j`: the bare element for F, Cl and Br, which need no
      label, otherwise `element_label`; `None` where the label is missing. */
  function AtomSymbol(element: string, labels: seq<string>, j: nat): Option<string>
  {
    if IsBareHalogen(element) then Some(element)
    else if j < |labels| then Some(SymbolOf(element, labels[j]))
    else None
  }

  /** What writing atom `j` gives: its symbol and its line, or the exception. */
  datatype Entry = Wrote(symbol: string, piece: Piece) | Failed(failure: Failure)

  /** Atom `j`: the symbol, then `at_types[symbol]`, then `charges[j]`, in the
      order the source evaluates them. */
  function AtomEntry(types: map<string, string>, atom: MolAtom, labels: seq<string>, charges: seq<Float>, j: nat): Entry
  {
    match AtomSymbol(atom.element, labels, j)
    case None => Failed(IndexError)
    case Some(symbol) =>
      match TypeCode(types, symbol)
      case None => Failed(UnsupportedSymbol(symbol))
      case Some(code) => if j < |charges| then Wrote(symbol, AtomRow(code, atom.coord, charges[j])) else Failed(IndexError)
  }

  /** The lines written, the symbols collected and the exception, if any. */
  datatype AtomsOut = AtomsOut(pieces: seq<Piece>, symbols: seq<string>, failure: Option<Failure>)

  /**
   * The inner loop over the first `n` atoms of a molecule. It stops at the first
   * atom that raises; until then atom `j` gives line `j` and symbol `j`.
   */
  function MoleculeLines(types: map<string, string>, atoms: seq<MolAtom>, labels: seq<string>, charges: seq<Float>, n: nat): AtomsOut
    requires n <= |atoms|
  {
    if n == 0 then AtomsOut([], [], None)
    else
      var prev := MoleculeLines(types, atoms, labels, charges, n - 1);
      if prev.failure.Some? then prev
      else
        match AtomEntry(types, atoms[n - 1], labels, charges, n - 1)
        case Failed(x) => AtomsOut(prev.pieces, prev.symbols, Some(x))
        case Wrote(symbol, piece) => AtomsOut(prev.pieces + [piece], prev.symbols + [symbol], None)
  }

  /** The inner loop completes exactly when every atom is written. */
  lemma {:induction false} MoleculeLinesDone(types: map<string, string>, atoms: seq<MolAtom>, labels: seq<string>, charges: seq<Float>, n: nat)
    requires n <= |atoms|
    ensures MoleculeLines(types, atoms, labels, charges, n).failure.None?
      <==> forall j :: 0 <= j < n ==> AtomEntry(types, atoms[j], labels, charges, j).Wrote?
  {
    if n > 0 {
      MoleculeLinesDone(types, atoms, labels, charges, n - 1);
      var e := AtomEntry(types, atoms[n - 1], labels, charges, n - 1);
      assert MoleculeLines(types, atoms, labels, charges, n).failure.None?
        <==> MoleculeLines(types, atoms, labels, charges, n - 1).failure.None? && e.Wrote?;
    }
  }

  /** A completed inner loop gives, for atom `j`, line `j` and symbol `j`. */
  lemma {:induction false} MoleculeLinesContent(types: map<string, string>, atoms: seq<MolAtom>, labels: seq<string>, charges: seq<Float>, n: nat)
    requires n <= |atoms|
    requires MoleculeLines(types, atoms, labels, charges, n).failure.None?
    ensures var r := MoleculeLines(types, atoms, labels, charges, n);
      |r.pieces| == n && |r.symbols| == n
      && forall j :: 0 <= j < n ==> (AtomEntry(types, atoms[j], labels, charges, j).Wrote?
        && r.pieces[j] == AtomEntry(types, atoms[j], labels, charges, j).piece
        && r.symbols[j] == AtomEntry(types, atoms[j], labels, charges, j).symbol)
  {
    if n > 0 {
      MoleculeLinesContent(types, atoms, labels, charges, n - 1);
    }
  }

  /** A failed inner loop stops at the first atom that raises, with that atom's
      exception and the lines of the atoms before it. */
  lemma {:induction false} MoleculeLinesFailure(types: map<string, string>, atoms: seq<MolAtom>, labels: seq<string>, charges: seq<Float>, n: nat)
    requires n <= |atoms|
    requires MoleculeLines(types, atoms, labels, charges, n).failure.Some?
    ensures var r := MoleculeLines(types, atoms, labels, charges, n);
      exists j :: (0 <= j < n && AtomEntry(types, atoms[j], labels, charges, j).Failed?
        && r.failure == Some(AtomEntry(types, atoms[j], labels, charges, j).failure) && |r.pieces| == j
        && forall i :: 0 <= i < j ==> AtomEntry(types, atoms[i], labels, charges, i).Wrote?)
  {
    var r := MoleculeLines(types, atoms, labels, charges, n);
    var prev := MoleculeLines(types, atoms, labels, charges, n - 1);
    if prev.failure.Some? {
      MoleculeLinesFailure(types, atoms, labels, charges, n - 1);
      assert r == prev;
      var j :| 0 <= j < n - 1 && AtomEntry(types, atoms[j], labels, charges, j).Failed?
        && prev.failure == Some(AtomEntry(types, atoms[j], labels, charges, j).failure) && |prev.pieces| == j
        && forall i :: 0 <= i < j ==> AtomEntry(types, atoms[i], labels, charges, i).Wrote?;
    } else {
      MoleculeLinesDone(types, atoms, labels, charges, n - 1);
      MoleculeLinesContent(types, atoms, labels, charges, n - 1);
      var e := AtomEntry(types, atoms[n - 1], labels, charges, n - 1);
      assert e.Failed? && r == AtomsOut(prev.pieces, prev.symbols, Some(e.failure));
    }
  }

  /** Once an atom has raised, the inner loop is over. */
  lemma {:induction false} MoleculeStops(types: map<string, string>, atoms: seq<MolAtom>, labels: seq<string>, charges: seq<Float>, k: nat, n: nat)
    requires k <= n <= |atoms| && MoleculeLines(types, atoms, labels, charges, k).failure.Some?
    ensures MoleculeLines(types, atoms, labels, charges, n) == MoleculeLines(types, atoms, labels, charges, k)
    decreases n
  {
    if n > k {
      MoleculeStops(types, atoms, labels, charges, k, n - 1);
    }
  }

  /** The lines of one site: its labels and charges are looked up first, even for a
      molecule without atoms. */
  function SiteLines(types: map<string, string>, site: MolSite, info: Option<AtomInfo>): AtomsOut
  {
    match SiteLabels(site, info)
    case None => AtomsOut([], [], Some(IndexError))
    case Some(lc) => MoleculeLines(types, site.atoms, lc.0, lc.1, |site.atoms|)
  }

  /** The outer loop over the first `n` molecular sites, stopping at the first
      exception. */
  function AtomsPart(types: map<string, string>, sites: seq<MolSite>, info: Option<AtomInfo>, n: nat): AtomsOut
    requires n <= |sites|
  {
    if n == 0 then AtomsOut([], [], None)
    else
      var prev := AtomsPart(types, sites, info, n - 1);
      if prev.failure.Some? then prev
      else
        var here := SiteLines(types, sites[n - 1], info);
        AtomsOut(prev.pieces + here.pieces, prev.symbols + here.symbols, here.failure)
  }

  // ---------------------------------------------------------------------------
  // Species, symmetry operators and bonds

  /** The `Species` lines of the first `n` symbols of `order`; `at_types` is looked
      up again for each. */
  function SpeciesPart(types: map<string, string>, order: seq<string>, n: nat): OcWritten
    requires n <= |order|
  {
    if n == 0 then OcWritten([], None)
    else
      var prev := SpeciesPart(types, order, n - 1);
      if prev.failure.Some? then prev
      else
        match TypeCode(types, order[n - 1])
        case None => OcWritten(prev.pieces, Some(UnsupportedSymbol(order[n - 1])))
        case Some(code) => OcWritten(prev.pieces + [SpeciesRow(code, order[n - 1])], None)
  }

  /** Once a site has raised, the outer loop is over. */
  lemma {:induction false} AtomsPartStops(types: map<string, string>, sites: seq<MolSite>, info: Option<AtomInfo>, k: nat, n: nat)
    requires k <= n <= |sites| && AtomsPart(types, sites, info, k).failure.Some?
    ensures AtomsPart(types, sites, info, n) == AtomsPart(types, sites, info, k)
    decreases n
  {
    if n > k {
      AtomsPartStops(types, sites, info, k, n - 1);
    }
  }

  /** Once a symbol has raised, the `Species` loop is over. */
  lemma {:induction false} SpeciesStops(types: map<string, string>, order: seq<string>, k: nat, n: nat)
    requires k <= n <= |order| && SpeciesPart(types, order, k).failure.Some?
    ensures SpeciesPart(types, order, n) == SpeciesPart(types, order, k)
    decreases n
  {
    if n > k {
      SpeciesStops(types, order, k, n - 1);
    }
  }

  /** One `symmetry_operator` block: the rows of the transposed rotation, each with
      its component of the translation. */
  function OperatorBlock(op: SymOp): seq<Piece>
  {
    [Plain("symmetry_operator\n"),
     OpRow(Column(op.rotation, 0), Component(op.translation, 0)),
     OpRow(Column(op.rotation, 1), Component(op.translation, 1)),
     OpRow(Column(op.rotation, 2), Component(op.translation, 2))]
  }

  /** The blocks of the first `n` operations of `ops`. */
  function OperatorLines(ops: seq<SymOp>, n: nat): seq<Piece>
    requires n <= |ops|
  {
    if n == 0 then [] else OperatorLines(ops, n - 1) + OperatorBlock(ops[n - 1])
  }

  /** `ops[1:]`: every operation but the identity. */
  function Tail(ops: seq<SymOp>): seq<SymOp>
  {
    if ops == [] then [] else ops[1..]
  }

  /** The `connect` lines of one bond: one per copy `i < copies`, its atom ids
      shifted by `i * count`. */
  function BondLines(bond: Bond, copies: nat, count: nat, n: nat): seq<Piece>
    requires n <= copies
  {
    if n == 0 then []
    else BondLines(bond, copies, count, n - 1) + [ConnectRow(bond.first + (n - 1) * count, bond.second + (n - 1) * count)]
  }

  /** The `connect` lines of the first `n` bonds. */
  function ConnectLines(bonds: seq<Bond>, copies: nat, count: nat, n: nat): seq<Piece>
    requires n <= |bonds|
  {
    if n == 0 then [] else ConnectLines(bonds, copies, count, n - 1) + BondLines(bonds[n - 1], copies, count, copies)
  }

  /** The closing directives; `maxcycle` is always written. */
  function OcDirectives(st: OcSettings): seq<Piece>
  {
    [Plain("\nlibrary " + st.ff + ".lib\n"), Plain("ewald 10.0\n"), Plain(MaxcycleLine(st.steps)),
     Plain("stepmx " + st.stepmx + "\n"), Plain("ftol 0.0001\n"), Plain("gtol 0.002\n"), Plain("gmax 0.01\n")]
      + (if st.dump.Some? then [Plain(CifLine(st.dump.value))] else [])
  }

  /** What follows the `symmetry_cell` line: the operators of the first site, the
      bonds of its molecule repeated for every copy, and the directives. The loop
      over bonds uses `site` and `coords` as the site loop left them: the
      multiplicity and atom count of the LAST site. */
  function Closing(st: OcSettings, sites: seq<MolSite>): seq<Piece>
    requires sites != []
  {
    var first, last := sites[0], sites[|sites| - 1];
    OperatorLines(Tail(first.ops), |Tail(first.ops)|)
      + (if st.bondType then ConnectLines(first.bonds, |last.ops|, |last.atoms|, |first.bonds|) else [])
      + OcDirectives(st)
  }

  /**
   * The whole deck `GULP_OC.write` produces, given the lattice's cell parameters
   * in degrees, its lattice type, and the order in which the set of symbols is
   * iterated.
   */
  function OcDeckOf(types: map<string, string>, st: OcSettings, sites: seq<MolSite>, para: CellPara, ltype: string, order: seq<string>): (w: OcWritten)
    // a crystal without molecular sites never gets a complete deck
    ensures sites == [] ==> w.failure.Some?
    // a complete deck ends with the directives
    ensures w.failure.None? ==> (|w.pieces| >= |OcDirectives(st)|
      && w.pieces[|w.pieces| - |OcDirectives(st)|..] == OcDirectives(st))
  {
    var pre := OcPreamble(st.opt, para);
    var atoms := AtomsPart(types, sites, st.atomInfo, |sites|);
    if atoms.failure.Some? then OcWritten(pre + atoms.pieces, atoms.failure)
    else
      var species := SpeciesPart(types, order, |order|);
      var upTo := pre + atoms.pieces + [Plain("\nSpecies\n")] + species.pieces;
      if species.failure.Some? then OcWritten(upTo, species.failure)
      else
        var cell := upTo + [Plain("\nsymmetry_cell " + ltype + "\n")];
        if sites == [] then OcWritten(cell, Some(IndexError))
        else OcWritten(cell + Closing(st, sites), None)
  }

  // ---------------------------------------------------------------------------
  // Properties of the deck

  /** A site is written in full: its labels and charges are found and every atom's
      symbol has a type code and a charge. */
  predicate SiteOk(types: map<string, string>, site: MolSite, info: Option<AtomInfo>)
  {
    SiteLabels(site, info).Some?
    && var lc := SiteLabels(site, info).value;
      forall j :: 0 <= j < |site.atoms| ==> AtomEntry(types, site.atoms[j], lc.0, lc.1, j).Wrote?
  }

  lemma SiteLinesOk(types: map<string, string>, site: MolSite, info: Option<AtomInfo>)
    ensures SiteLines(types, site, info).failure.None? <==> SiteOk(types, site, info)
    ensures SiteOk(types, site, info) ==> |SiteLines(types, site, info).pieces| == |site.atoms|
  {
    if SiteLabels(site, info).Some? {
      var lc := SiteLabels(site, info).value;
      MoleculeLinesDone(types, site.atoms, lc.0, lc.1, |site.atoms|);
      if SiteOk(types, site, info) {
        MoleculeLinesContent(types, site.atoms, lc.0, lc.1, |site.atoms|);
      }
    }
  }

  /** The atom lines are complete exactly when every site is; a failed write
      reports the first site that is not. */
  lemma {:induction false} AtomsPartOk(types: map<string, string>, sites: seq<MolSite>, info: Option<AtomInfo>, n: nat)
    requires n <= |sites|
    ensures AtomsPart(types, sites, info, n).failure.None? <==> forall k :: 0 <= k < n ==> SiteOk(types, sites[k], info)
    ensures AtomsPart(types, sites, info, n).failure.Some? ==> exists k :: (0 <= k < n && !SiteOk(types, sites[k], info)
      && AtomsPart(types, sites, info, n).failure == SiteLines(types, sites[k], info).failure
      && forall i :: 0 <= i < k ==> SiteOk(types, sites[i], info))
  {
    if n > 0 {
      AtomsPartOk(types, sites, info, n - 1);
      SiteLinesOk(types, sites[n - 1], info);
      var prev := AtomsPart(types, sites, info, n - 1);
      if prev.failure.None? && !SiteOk(types, sites[n - 1], info) {
        assert forall i :: 0 <= i < n - 1 ==> SiteOk(types, sites[i], info);
      }
    }
  }

  /**
   * Atom typing: every atom line of a molecule carries `at_types[symbol]`, where
   * the symbol is the bare element for F, Cl and Br and `element_label`
   * otherwise, with the atom's coordinate and charge. An atom whose symbol is not
   * in the table stops the write with `KeyError` for that symbol, one without a
   * label or a charge with `IndexError`; no line is written with a default type.
   */
  lemma AtomTyping(types: map<string, string>, atoms: seq<MolAtom>, labels: seq<string>, charges: seq<Float>)
    ensures var r := MoleculeLines(types, atoms, labels, charges, |atoms|);
      (r.failure.None? ==> |r.pieces| == |atoms| && forall j :: 0 <= j < |atoms| ==>
        (IsBareHalogen(atoms[j].element) || j < |labels|) && j < |charges|
        && var symbol := SymbolOf(atoms[j].element, if IsBareHalogen(atoms[j].element) then "" else labels[j]);
          TypeCode(types, symbol).Some?
          && r.pieces[j] == AtomRow(TypeCode(types, symbol).value, atoms[j].coord, charges[j]))
      && (r.failure.Some? && r.failure.value.UnsupportedSymbol? ==> exists j :: (0 <= j < |atoms|
        && AtomSymbol(atoms[j].element, labels, j) == Some(r.failure.value.symbol)
        && TypeCode(types, r.failure.value.symbol).None? && |r.pieces| == j))
      && (r.failure == Some(IndexError) ==> exists j :: (0 <= j < |atoms| && |r.pieces| == j
        && ((!IsBareHalogen(atoms[j].element) && j >= |labels|) || j >= |charges|)))
  {
    var r := MoleculeLines(types, atoms, labels, charges, |atoms|);
    if r.failure.None? {
      MoleculeLinesContent(types, atoms, labels, charges, |atoms|);
    } else {
      MoleculeLinesFailure(types, atoms, labels, charges, |atoms|);
    }
  }

  /** Every symbol the inner loop collects has a type code. */
  lemma {:induction false} MoleculeSymbolsTyped(types: map<string, string>, atoms: seq<MolAtom>, labels: seq<string>, charges: seq<Float>, n: nat)
    requires n <= |atoms|
    ensures forall s :: s in MoleculeLines(types, atoms, labels, charges, n).symbols ==> TypeCode(types, s).Some?
  {
    if n > 0 {
      MoleculeSymbolsTyped(types, atoms, labels, charges, n - 1);
    }
  }

  /** Every symbol the atom lines collect has a type code. */
  lemma {:induction false} AtomsPartSymbolsTyped(types: map<string, string>, sites: seq<MolSite>, info: Option<AtomInfo>, n: nat)
    requires n <= |sites|
    ensures forall s :: s in AtomsPart(types, sites, info, n).symbols ==> TypeCode(types, s).Some?
  {
    if n > 0 {
      AtomsPartSymbolsTyped(types, sites, info, n - 1);
      var site := sites[n - 1];
      if SiteLabels(site, info).Some? {
        var lc := SiteLabels(site, info).value;
        MoleculeSymbolsTyped(types, site.atoms, lc.0, lc.1, |site.atoms|);
      }
    }
  }

  /** Looking up `at_types` for the `Species` section never fails after the atom
      lines: every symbol of the set was looked up already. Each symbol gets one
      line with its type code. */
  lemma {:induction false} SpeciesNeverRaise(types: map<string, string>, order: seq<string>, symbols: seq<string>, n: nat)
    requires n <= |order|
    requires forall s :: s in symbols ==> TypeCode(types, s).Some?
    requires SetOrder(order, symbols)
    ensures SpeciesPart(types, order, n).failure.None?
    ensures |SpeciesPart(types, order, n).pieces| == n
    ensures forall k :: 0 <= k < n ==>
      TypeCode(types, order[k]).Some? && SpeciesPart(types, order, n).pieces[k] == SpeciesRow(TypeCode(types, order[k]).value, order[k])
  {
    if n > 0 {
      SpeciesNeverRaise(types, order, symbols, n - 1);
      assert order[n - 1] in symbols;
    }
  }

  /** Operator block `m` holds the keyword and then, for row `r`, column `r` of the
      rotation with component `r` of the translation. */
  lemma {:induction false} OperatorLayout(ops: seq<SymOp>, n: nat)
    requires n <= |ops|
    ensures |OperatorLines(ops, n)| == 4 * n
    ensures forall m :: 0 <= m < n ==> OperatorLines(ops, n)[4 * m] == Plain("symmetry_operator\n")
    ensures forall m, r :: 0 <= m < n && 0 <= r < 3 ==>
      OperatorLines(ops, n)[4 * m + 1 + r] == OpRow(Column(ops[m].rotation, r), Component(ops[m].translation, r))
  {
    if n > 0 {
      OperatorLayout(ops, n - 1);
      var prev := OperatorLines(ops, n - 1);
      var b := OperatorBlock(ops[n - 1]);
      forall m, r | 0 <= m < n && 0 <= r < 3
        ensures OperatorLines(ops, n)[4 * m + 1 + r] == OpRow(Column(ops[m].rotation, r), Component(ops[m].translation, r))
      {
        if m == n - 1 {
          assert OperatorLines(ops, n)[4 * m + 1 + r] == b[1 + r];
        } else {
          assert OperatorLines(ops, n)[4 * m + 1 + r] == prev[4 * m + 1 + r];
        }
      }
    }
  }

  /** One line per copy. */
  lemma {:induction false} BondLength(bond: Bond, copies: nat, count: nat, n: nat)
    requires n <= copies
    ensures |BondLines(bond, copies, count, n)| == n
  {
    if n > 0 {
      BondLength(bond, copies, count, n - 1);
    }
  }

  /** The lines of one bond, copy by copy. */
  lemma {:induction false} BondLayout(bond: Bond, copies: nat, count: nat, n: nat)
    requires n <= copies
    ensures |BondLines(bond, copies, count, n)| == n
    ensures forall i :: 0 <= i < n ==>
      BondLines(bond, copies, count, n)[i] == ConnectRow(bond.first + i * count, bond.second + i * count)
  {
    if n > 0 {
      BondLayout(bond, copies, count, n - 1);
    }
  }

  /** `b * c`, written as repeated addition so that the layout lemmas below stay
      linear. */
  function Times(b: nat, c: nat): nat
  {
    if b == 0 then 0 else Times(b - 1, c) + c
  }

  lemma {:induction false} TimesIsProduct(b: nat, c: nat)
    ensures Times(b, c) == b * c
  {
    if b > 0 {
      TimesIsProduct(b - 1, c);
    }
  }

  /** A slice inside the left operand of a concatenation. */
  lemma SliceLeft<T>(p: seq<T>, q: seq<T>, lo: nat, hi: nat)
    requires lo <= hi <= |p|
    ensures (p + q)[lo..hi] == p[lo..hi]
  {
  }

  /** The `connect` section has `copies` lines per bond. */
  lemma {:induction false} ConnectLength(bonds: seq<Bond>, copies: nat, count: nat, n: nat)
    requires n <= |bonds|
    ensures |ConnectLines(bonds, copies, count, n)| == Times(n, copies)
  {
    if n > 0 {
      ConnectLength(bonds, copies, count, n - 1);
      BondLength(bonds[n - 1], copies, count, copies);
    }
  }

  /** The lines of bond `b` are the `copies` lines from `b * copies` on: one per
      copy, in order. */
  lemma {:induction false} ConnectLayout(bonds: seq<Bond>, copies: nat, count: nat, n: nat, b: nat)
    requires b < n <= |bonds|
    ensures Times(b, copies) + copies <= |ConnectLines(bonds, copies, count, n)|
    ensures ConnectLines(bonds, copies, count, n)[Times(b, copies)..Times(b, copies) + copies]
      == BondLines(bonds[b], copies, count, copies)
  {
    var prev := ConnectLines(bonds, copies, count, n - 1);
    var here := BondLines(bonds[n - 1], copies, count, copies);
    ConnectLength(bonds, copies, count, n - 1);
    BondLength(bonds[n - 1], copies, count, copies);
    var lo := Times(b, copies);
    if b < n - 1 {
      ConnectLayout(bonds, copies, count, n - 1, b);
      SliceLeft(prev, here, lo, lo + copies);
    } else {
      assert (prev + here)[lo..lo + copies] == here;
    }
  }

  /** The deck always starts with the preamble, whatever happens later. */
  lemma DeckStartsWithPreamble(types: map<string, string>, st: OcSettings, sites: seq<MolSite>, para: CellPara, ltype: string, order: seq<string>)
    ensures var d := OcDeckOf(types, st, sites, para, ltype, order).pieces;
      |d| >= 4 && d[..4] == OcPreamble(st.opt, para)
      && d[0] == Plain((if st.opt == "conv" then "opti " else "opti stress ") + st.opt + " conj molecule nomod qok\n")
  {
    var d := OcDeckOf(types, st, sites, para, ltype, order).pieces;
    var pre := OcPreamble(st.opt, para);
    assert d[..4] == pre;
  }

  /**
   * The write completes exactly when every site is written in full and there is
   * at least one site; the `Species` lookups never raise after the atom lines.
   * Without sites the write raises `IndexError` right after the `symmetry_cell`
   * line.
   */
  lemma DeckCompletes(types: map<string, string>, st: OcSettings, sites: seq<MolSite>, para: CellPara, ltype: string, order: seq<string>)
    requires SetOrder(order, AtomsPart(types, sites, st.atomInfo, |sites|).symbols)
    ensures var w := OcDeckOf(types, st, sites, para, ltype, order);
      (w.failure.None? <==> sites != [] && forall k :: 0 <= k < |sites| ==> SiteOk(types, sites[k], st.atomInfo))
      && (sites == [] ==>
        w.failure == Some(IndexError) && w.pieces[|w.pieces| - 1] == Plain("\nsymmetry_cell " + ltype + "\n"))
  {
    var atoms := AtomsPart(types, sites, st.atomInfo, |sites|);
    AtomsPartOk(types, sites, st.atomInfo, |sites|);
    if atoms.failure.None? {
      AtomsPartSymbolsTyped(types, sites, st.atomInfo, |sites|);
      SpeciesNeverRaise(types, order, atoms.symbols, |order|);
    }
  }

  /** A completed deck is the preamble, the atom lines, the `Species` keyword and
      lines, the `symmetry_cell` line and the closing part. */
  lemma DeckPieces(types: map<string, string>, st: OcSettings, sites: seq<MolSite>, para: CellPara, ltype: string, order: seq<string>)
    requires OcDeckOf(types, st, sites, para, ltype, order).failure.None?
    ensures sites != []
    ensures OcDeckOf(types, st, sites, para, ltype, order).pieces
      == (OcPreamble(st.opt, para) + AtomsPart(types, sites, st.atomInfo, |sites|).pieces + [Plain("\nSpecies\n")])
        + SpeciesPart(types, order, |order|).pieces
        + ([Plain("\nsymmetry_cell " + ltype + "\n")] + Closing(st, sites))
  {
  }

  /** With no failure the deck holds one line per atom, then the `Species` keyword,
      then one `Species` line per distinct symbol, each with its type code from the
      table. */
  lemma DeckSpecies(types: map<string, string>, st: OcSettings, sites: seq<MolSite>, para: CellPara, ltype: string, order: seq<string>)
    requires SetOrder(order, AtomsPart(types, sites, st.atomInfo, |sites|).symbols)
    requires OcDeckOf(types, st, sites, para, ltype, order).failure.None?
    ensures var d := OcDeckOf(types, st, sites, para, ltype, order).pieces;
      var a := |AtomsPart(types, sites, st.atomInfo, |sites|).pieces|;
      var sp := SpeciesPart(types, order, |order|).pieces;
      |sp| == |order| && |d| > 5 + a + |order|
      && d[4 + a] == Plain("\nSpecies\n") && d[5 + a..5 + a + |order|] == sp
      && forall k :: 0 <= k < |order| ==>
        TypeCode(types, order[k]).Some? && sp[k] == SpeciesRow(TypeCode(types, order[k]).value, order[k])
  {
    var sp := SpeciesPart(types, order, |order|).pieces;
    assert |sp| == |order| && forall k :: 0 <= k < |order| ==>
      TypeCode(types, order[k]).Some? && sp[k] == SpeciesRow(TypeCode(types, order[k]).value, order[k])
    by {
      AtomsPartSymbolsTyped(types, sites, st.atomInfo, |sites|);
      SpeciesNeverRaise(types, order, AtomsPart(types, sites, st.atomInfo, |sites|).symbols, |order|);
    }
    DeckRows(types, st, sites, para, ltype, order);
  }

  /** Where the `Species` lines sit in a completed deck. */
  lemma DeckRows(types: map<string, string>, st: OcSettings, sites: seq<MolSite>, para: CellPara, ltype: string, order: seq<string>)
    requires OcDeckOf(types, st, sites, para, ltype, order).failure.None?
    ensures var d := OcDeckOf(types, st, sites, para, ltype, order).pieces;
      var a := |AtomsPart(types, sites, st.atomInfo, |sites|).pieces|;
      var sp := SpeciesPart(types, order, |order|).pieces;
      |d| > 5 + a + |sp| && d[4 + a] == Plain("\nSpecies\n")
      && d[5 + a..5 + a + |sp|] == sp
  {
    var atoms := AtomsPart(types, sites, st.atomInfo, |sites|).pieces;
    var sp := SpeciesPart(types, order, |order|).pieces;
    DeckPieces(types, st, sites, para, ltype, order);
    var head := OcPreamble(st.opt, para) + atoms + [Plain("\nSpecies\n")];
    assert |head| == 5 + |atoms| && head[4 + |atoms|] == Plain("\nSpecies\n");
    Middle(head, sp, [Plain("\nsymmetry_cell " + ltype + "\n")] + Closing(st, sites));
  }

  /** The middle part of a three-part concatenation. */
  lemma Middle<T>(head: seq<T>, mid: seq<T>, rest: seq<T>)
    ensures (head + mid + rest)[|head|..|head| + |mid|] == mid
  {
  }

  /** The closing part: operator blocks for every operation of the first site but
      the identity, then, with `bond_type`, the bonds of the first site's molecule
      for each of the last site's copies, then the directives. */
  lemma ClosingLayout(st: OcSettings, sites: seq<MolSite>)
    requires sites != []
    ensures var c := Closing(st, sites);
      var ops := Tail(sites[0].ops);
      var last := sites[|sites| - 1];
      var nb := if st.bondType then Times(|sites[0].bonds|, |last.ops|) else 0;
      |ops| == (if sites[0].ops == [] then 0 else |sites[0].ops| - 1)
      && |c| == 4 * |ops| + nb + |OcDirectives(st)|
      && c[..4 * |ops|] == OperatorLines(ops, |ops|)
      && (st.bondType ==> c[4 * |ops|..4 * |ops| + nb] == ConnectLines(sites[0].bonds, |last.ops|, |last.atoms|, |sites[0].bonds|))
      && c[4 * |ops| + nb..] == OcDirectives(st)
  {
    var ops := Tail(sites[0].ops);
    var last := sites[|sites| - 1];
    OperatorLayout(ops, |ops|);
    ConnectLength(sites[0].bonds, |last.ops|, |last.atoms|, |sites[0].bonds|);
  }

  /** `library` names the force field's `.lib` file; the Ewald sum, `maxcycle`,
      `stepmx` and the three tolerances are always written, in that order, and an
      `output cif` line follows exactly when a dump file is named. */
  lemma OcDirectivesContent(st: OcSettings)
    ensures var t := OcDirectives(st);
      |t| >= 7
      && t[0] == Plain("\nlibrary " + st.ff + ".lib\n") && t[1] == Plain("ewald 10.0\n")
      && t[2] == Plain(MaxcycleLine(st.steps)) && t[3] == Plain("stepmx " + st.stepmx + "\n")
      && t[4..7] == [Plain("ftol 0.0001\n"), Plain("gtol 0.002\n"), Plain("gmax 0.01\n")]
      && (|t| == 8 <==> st.dump.Some?)
      && (st.dump.Some? ==> t[7] == Plain(CifLine(st.dump.value)))
  {
  }
}

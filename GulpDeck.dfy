/**
 * The input deck `GULP.write` produces for an atomic crystal.
 *
 * A deck is the sequence of `f.write` calls, one chunk per call: either fixed
 * text, or a number format with the values it is given. `Render` is the text a
 * chunk writes, and the file holds the rendered chunks one after the other. A
 * format that raises part way leaves the file with the chunks written before it.
 */
module GulpDeck {
  import opened Wrappers
  import opened Text
  import opened Numbers
  import opened Crystal

  /** One `f.write` call: text, the six cell parameters, an atom line, or the pressure. */
  datatype Chunk =
    | Text(text: string)
    | Cell(para: CellPara)
    | Site(symbol: string, coord: Vec3, kind: string)
    | Pressure(value: Float)

  /** The chunks written so far and whether the writer raised. */
  datatype Written = Written(chunks: seq<Chunk>, raised: bool)

  /** The constructor arguments of `GULP` that shape its deck. */
  datatype Settings = Settings(
    symmetry: bool,
    ff: string,
    opt: string,
    steps: int,
    pstress: Option<Float>,
    dump: Option<string>,
    labels: Option<map<string, string>>)

  /** `{:12.6f}`. */
  function F12(x: Float): string
  {
    FormatFixed(x, 12, 6)
  }

  /** The first chunk: the run keywords chosen from `opt`. */
  function Header(opt: string): string
  {
    if opt == "conv" then "opti stress " + opt + " conjugate "
    else if opt == "single" then "grad conp stress "
    else "opti stress " + opt + " conjugate "
  }

  /** The cell parameters, six `{:12.6f}` fields on one line. */
  function CellLine(p: CellPara): string
  {
    F12(p.a) + F12(p.b) + F12(p.c) + F12(p.alpha) + F12(p.beta) + F12(p.gamma) + "\n"
  }

  /** `"{:4s} {:12.6f} {:12.6f} {:12.6f} <kind> \n".format(symbol, *coord)`. */
  function SiteLine(symbol: string, v: Vec3, kind: string): string
  {
    PadRight(symbol, 4) + (" " + F12(v.x) + (" " + F12(v.y) + (" " + F12(v.z) + (" " + kind + " \n"))))
  }

  /** `"pressure {:6.3f}\n"`. */
  function PressureLine(p: Float): string
  {
    "pressure " + FormatFixed(p, 6, 3) + "\n"
  }

  /** The text one call writes. */
  function Render(c: Chunk): string
  {
    match c
    case Text(t) => t
    case Cell(p) => CellLine(p)
    case Site(symbol, v, kind) => SiteLine(symbol, v, kind)
    case Pressure(p) => PressureLine(p)
  }

  /** `*coord` for a row of `frac_coords`: the first three entries; a shorter row
      leaves a placeholder without argument and `format` raises `IndexError`. */
  function RowVec(row: seq<Float>): (r: Option<Vec3>)
    ensures r.Some? <==> |row| >= 3
    ensures r.Some? ==> r.value == Vec3(row[0], row[1], row[2])
  {
    if |row| >= 3 then Some(Vec3(row[0], row[1], row[2])) else None
  }

  /**
   * `for coord, site in zip(frac_coords, sites)`, over the first `n` pairs: one
   * `core` line per pair, stopping at the first row too short to format.
   */
  function ZipLines(rows: seq<seq<Float>>, sites: seq<string>, n: nat): (w: Written)
    requires n <= |rows| && n <= |sites|
    ensures !w.raised <==> forall k :: 0 <= k < n ==> |rows[k]| >= 3
    ensures !w.raised ==> (|w.chunks| == n
      && forall k :: 0 <= k < n ==> w.chunks[k] == Site(sites[k], RowVec(rows[k]).value, "core"))
    ensures w.raised ==> exists k :: (0 <= k < n && |rows[k]| < 3 && |w.chunks| == k
      && forall j :: 0 <= j < k ==> |rows[j]| >= 3 && w.chunks[j] == Site(sites[j], RowVec(rows[j]).value, "core"))
  {
    if n == 0 then Written([], false)
    else
      var prev := ZipLines(rows, sites, n - 1);
      if prev.raised then prev
      else
        match RowVec(rows[n - 1])
        case None => Written(prev.chunks, true)
        case Some(v) => Written(prev.chunks + [Site(sites[n - 1], v, "core")], false)
  }

  /** Whether the `catlow` force field adds a shell for this species. */
  predicate HasShell(ff: string, symbol: string)
  {
    ff == "catlow" && symbol == "O"
  }

  /** The lines of one asymmetric-unit site: its core, and a shell for oxygen under `catlow`. */
  function AtomSiteLines(site: AtomSite, ff: string): seq<Chunk>
  {
    [Site(site.specie, site.position, "core")]
      + (if HasShell(ff, site.specie) then [Site(site.specie, site.position, "shell")] else [])
  }

  /** The lines of the first `n` atom sites of a pyxtal structure. */
  function SymSiteLines(sites: seq<AtomSite>, ff: string, n: nat): seq<Chunk>
    requires n <= |sites|
  {
    if n == 0 then [] else SymSiteLines(sites, ff, n - 1) + AtomSiteLines(sites[n - 1], ff)
  }

  /** How many of the first `n` sites carry a shell. */
  function ShellCount(sites: seq<AtomSite>, ff: string, n: nat): nat
    requires n <= |sites|
  {
    if n == 0 then 0 else ShellCount(sites, ff, n - 1) + (if HasShell(ff, sites[n - 1].specie) then 1 else 0)
  }

  /** The space group and origin directives of the symmetry path. */
  function SpaceLines(groupNumber: int): seq<Chunk>
  {
    [Text("\nspace\n" + IntText(groupNumber) + "\n"), Text("\norigin\n0 0 0\n")]
  }

  /** The `Species` entry for one symbol. */
  function SpeciesEntry(specie: string, labels: Option<map<string, string>>, ff: string): seq<Chunk>
  {
    match labels
    case Some(lab) =>
      if specie in lab then [Text(PadRight(specie, 4) + " core " + lab[specie] + "\n")]
      else [Text(PadRight(specie, 4) + " core " + PadRight(specie, 4) + "\n")]
    case None =>
      if HasShell(ff, specie) then [Text("O    core O_O2- core\n"), Text("O    shell O_O2- shell\n")]
      else [Text(PadRight(specie, 4) + " core " + PadRight(specie, 4) + "\n")]
  }

  /** The entries of the first `n` symbols of `order`. */
  function SpeciesLines(order: seq<string>, labels: Option<map<string, string>>, ff: string, n: nat): seq<Chunk>
    requires n <= |order|
  {
    if n == 0 then [] else SpeciesLines(order, labels, ff, n - 1) + SpeciesEntry(order[n - 1], labels, ff)
  }

  /** `list(set(sites))`: every symbol of `sites` exactly once, in the order the set yields. */
  ghost predicate SetOrder(order: seq<string>, sites: seq<string>)
  {
    (forall s :: s in order <==> s in sites)
    && forall a, b :: 0 <= a < b < |order| ==> order[a] != order[b]
  }

  function MaxcycleLine(steps: int): string
  {
    "maxcycle " + IntText(steps) + "\n"
  }

  function CifLine(dump: string): string
  {
    "output cif " + dump + "\n"
  }

  /** The closing directives: library, Ewald sum, then the optional ones. */
  function Directives(st: Settings): seq<Chunk>
  {
    [Text("\nlibrary " + st.ff + "\n"), Text("ewald 10.0\n")]
      + (if st.opt != "single" then [Text(MaxcycleLine(st.steps))] else [])
      + (if st.pstress.Some? then [Pressure(st.pstress.value)] else [])
      + (if st.dump.Some? then [Text(CifLine(st.dump.value))] else [])
  }

  /** Everything up to the `fractional` keyword. */
  function Preamble(st: Settings, para: CellPara): seq<Chunk>
  {
    [Text(Header(st.opt))] + (if !st.symmetry then [Text("nosymmetry\n")] else [])
      + [Text("\ncell\n"), Cell(para), Text("\nfractional\n")]
  }

  /** The atom lines: from the pyxtal structure on the symmetry path, otherwise from
      the coordinate rows paired with the site symbols. */
  function SitesPart(st: Settings, pyxtal: Option<Pyxtal>, rows: seq<seq<Float>>, sites: seq<string>): Written
  {
    if st.symmetry && pyxtal.Some? then
      var x := pyxtal.value;
      Written(SymSiteLines(x.atomSites, st.ff, |x.atomSites|) + SpaceLines(x.groupNumber), false)
    else
      ZipLines(rows, sites, if |rows| < |sites| then |rows| else |sites|)
  }

  /** The whole deck `GULP.write` produces, given the cell parameters of the current
      lattice and the order in which `set(sites)` is iterated. */
  function Deck(st: Settings, pyxtal: Option<Pyxtal>, rows: seq<seq<Float>>, sites: seq<string>,
                para: CellPara, order: seq<string>): (w: Written)
    // `write` raises exactly when, off the symmetry path, a coordinate row paired
    // with a site symbol has fewer than three entries
    ensures w.raised <==> (!(st.symmetry && pyxtal.Some?)
      && exists k :: 0 <= k < |rows| && k < |sites| && |rows[k]| < 3)
  {
    var body := SitesPart(st, pyxtal, rows, sites);
    if body.raised then Written(Preamble(st, para) + body.chunks, true)
    else Written(Preamble(st, para) + body.chunks + [Text("\nSpecies\n")]
      + SpeciesLines(order, st.labels, st.ff, |order|) + Directives(st), false)
  }

  // ---------------------------------------------------------------------------
  // Properties of the deck

  /** The deck, raised or not, starts with the preamble. */
  lemma DeckStartsWithPreamble(st: Settings, pyxtal: Option<Pyxtal>, rows: seq<seq<Float>>, sites: seq<string>,
                               para: CellPara, order: seq<string>)
    ensures var d := Deck(st, pyxtal, rows, sites, para, order).chunks;
      |d| >= |Preamble(st, para)| && d[..|Preamble(st, para)|] == Preamble(st, para)
  {
  }

  lemma PreambleHeader(st: Settings, para: CellPara)
    ensures var p := Preamble(st, para);
      |p| >= 4
      && p[0] == Text(if st.opt == "single" then "grad conp stress " else "opti stress " + st.opt + " conjugate ")
      && (p[1] == Text("nosymmetry\n") <==> !st.symmetry)
  {
    var p := Preamble(st, para);
    if st.symmetry {
      assert p[1] == Text("\ncell\n");
      assert "\ncell\n"[0] != "nosymmetry\n"[0];
    }
  }

  /** The header is `grad conp stress ` for a single point and `opti stress <opt> conjugate `
      otherwise, and `nosymmetry` follows it exactly when symmetry is off. */
  lemma DeckHeader(st: Settings, pyxtal: Option<Pyxtal>, rows: seq<seq<Float>>, sites: seq<string>,
                   para: CellPara, order: seq<string>)
    ensures var d := Deck(st, pyxtal, rows, sites, para, order).chunks;
      |d| >= 4
      && d[0] == Text(if st.opt == "single" then "grad conp stress " else "opti stress " + st.opt + " conjugate ")
      && (d[1] == Text("nosymmetry\n") <==> !st.symmetry)
  {
    var d := Deck(st, pyxtal, rows, sites, para, order).chunks;
    var p := Preamble(st, para);
    DeckStartsWithPreamble(st, pyxtal, rows, sites, para, order);
    PreambleHeader(st, para);
    assert d[0] == p[0] && d[1] == p[1];
  }

  /** A complete deck ends with the directives. */
  lemma DeckEndsWithDirectives(st: Settings, pyxtal: Option<Pyxtal>, rows: seq<seq<Float>>, sites: seq<string>,
                               para: CellPara, order: seq<string>)
    requires !Deck(st, pyxtal, rows, sites, para, order).raised
    ensures var d := Deck(st, pyxtal, rows, sites, para, order).chunks;
      |d| >= |Directives(st)| && d[|d| - |Directives(st)|..] == Directives(st)
  {
  }

  /** Whether the text of some chunk of `t` starts with `word`. */
  predicate HasDirective(t: seq<Chunk>, word: string)
  {
    exists k :: 0 <= k < |t| && Begins(Render(t[k]), word)
  }

  predicate Begins(s: string, p: string)
  {
    |p| <= |s| && s[..|p|] == p
  }

  lemma HasDirectiveAppend(a: seq<Chunk>, b: seq<Chunk>, word: string)
    ensures HasDirective(a + b, word) <==> HasDirective(a, word) || HasDirective(b, word)
  {
    if HasDirective(a + b, word) {
      var k :| 0 <= k < |a + b| && Begins(Render((a + b)[k]), word);
      if k >= |a| { assert (a + b)[k] == b[k - |a|]; }
    }
    if HasDirective(b, word) {
      var k :| 0 <= k < |b| && Begins(Render(b[k]), word);
      assert (a + b)[|a| + k] == b[k];
    }
    if HasDirective(a, word) {
      var k :| 0 <= k < |a| && Begins(Render(a[k]), word);
      assert (a + b)[k] == a[k];
    }
  }

  /** A line made of `word` and more begins with `word`. */
  lemma StartsWith(line: string, word: string, more: string)
    requires line == word + more && word != []
    ensures Begins(line, word) && line[0] == word[0]
  {
    assert line[..|word|] == word;
  }

  /** A line whose first character differs from the word's does not begin with it. */
  lemma FirstDiffers(line: string, word: string)
    requires line != [] && word != [] && line[0] != word[0]
    ensures !Begins(line, word)
  {
    if |word| <= |line| {
      assert line[..|word|][0] != word[0];
    }
  }

  lemma MaxcycleStarts(steps: int)
    ensures Begins(MaxcycleLine(steps), "maxcycle ") && MaxcycleLine(steps)[0] == 'm'
  {
    StartsWith(MaxcycleLine(steps), "maxcycle ", IntText(steps) + "\n");
  }

  lemma PressureStarts(p: Float)
    ensures Begins(PressureLine(p), "pressure ") && PressureLine(p)[0] == 'p'
  {
    StartsWith(PressureLine(p), "pressure ", FormatFixed(p, 6, 3) + "\n");
  }

  lemma CifStarts(dump: string)
    ensures Begins(CifLine(dump), "output cif ") && CifLine(dump)[0] == 'o'
  {
    StartsWith(CifLine(dump), "output cif ", dump + "\n");
  }

  /** Neither `library` nor `ewald` begins with a word that starts otherwise. */
  lemma FixedDirectivesWithout(ff: string, word: string)
    requires word != [] && word[0] != '\n' && word[0] != 'e'
    ensures !HasDirective([Text("\nlibrary " + ff + "\n"), Text("ewald 10.0\n")], word)
  {
    var base := [Text("\nlibrary " + ff + "\n"), Text("ewald 10.0\n")];
    StartsWith(Render(base[0]), "\n", "library " + ff + "\n");
    StartsWith(Render(base[1]), "e", "wald 10.0\n");
    FirstDiffers(Render(base[0]), word);
    FirstDiffers(Render(base[1]), word);
  }

  /** Which optional directives start with `word`. */
  lemma DirectivesWithWord(st: Settings, word: string)
    requires word != [] && word[0] != '\n' && word[0] != 'e'
    ensures HasDirective(Directives(st), word) <==> (
      (st.opt != "single" && Begins(MaxcycleLine(st.steps), word))
      || (st.pstress.Some? && Begins(PressureLine(st.pstress.value), word))
      || (st.dump.Some? && Begins(CifLine(st.dump.value), word)))
  {
    var base := [Text("\nlibrary " + st.ff + "\n"), Text("ewald 10.0\n")];
    var m := if st.opt != "single" then [Text(MaxcycleLine(st.steps))] else [];
    var p := if st.pstress.Some? then [Pressure(st.pstress.value)] else [];
    var o := if st.dump.Some? then [Text(CifLine(st.dump.value))] else [];
    assert Directives(st) == base + m + p + o;
    HasDirectiveAppend(base + m + p, o, word);
    HasDirectiveAppend(base + m, p, word);
    HasDirectiveAppend(base, m, word);
    FixedDirectivesWithout(st.ff, word);
    OptionalDirective(m, word);
    OptionalDirective(p, word);
    OptionalDirective(o, word);
  }

  /** A list of at most one directive has one that begins with `word` exactly when
      its directive does. */
  lemma OptionalDirective(t: seq<Chunk>, word: string)
    requires |t| <= 1
    ensures HasDirective(t, word) <==> t != [] && Begins(Render(t[0]), word)
  {
  }

  /** `library` and `ewald` come first; a `maxcycle` line is present exactly when
      `opt` is not `single`, a `pressure` line exactly when a pressure is set and an
      `output cif` line exactly when a dump file is named, each with its value. */
  lemma DirectivesContent(st: Settings)
    ensures var t := Directives(st);
      t[0] == Text("\nlibrary " + st.ff + "\n") && t[1] == Text("ewald 10.0\n")
      && (HasDirective(t, "maxcycle ") <==> st.opt != "single")
      && (HasDirective(t, "pressure ") <==> st.pstress.Some?)
      && (HasDirective(t, "output cif ") <==> st.dump.Some?)
      && (st.opt != "single" ==> Text(MaxcycleLine(st.steps)) in t)
      && (st.pstress.Some? ==> Pressure(st.pstress.value) in t)
      && (st.dump.Some? ==> Text(CifLine(st.dump.value)) in t)
  {
    DirectivesMaxcycle(st);
    DirectivesPressure(st);
    DirectivesCif(st);
  }

  lemma DirectivesMaxcycle(st: Settings)
    ensures HasDirective(Directives(st), "maxcycle ") <==> st.opt != "single"
  {
    DirectivesWithWord(st, "maxcycle ");
    MaxcycleStarts(st.steps);
    if st.pstress.Some? {
      PressureStarts(st.pstress.value);
      FirstDiffers(PressureLine(st.pstress.value), "maxcycle ");
    }
    if st.dump.Some? {
      CifStarts(st.dump.value);
      FirstDiffers(CifLine(st.dump.value), "maxcycle ");
    }
  }

  lemma DirectivesPressure(st: Settings)
    ensures HasDirective(Directives(st), "pressure ") <==> st.pstress.Some?
  {
    DirectivesWithWord(st, "pressure ");
    MaxcycleStarts(st.steps);
    FirstDiffers(MaxcycleLine(st.steps), "pressure ");
    if st.pstress.Some? {
      PressureStarts(st.pstress.value);
    }
    if st.dump.Some? {
      CifStarts(st.dump.value);
      FirstDiffers(CifLine(st.dump.value), "pressure ");
    }
  }

  lemma DirectivesCif(st: Settings)
    ensures HasDirective(Directives(st), "output cif ") <==> st.dump.Some?
  {
    DirectivesWithWord(st, "output cif ");
    MaxcycleStarts(st.steps);
    FirstDiffers(MaxcycleLine(st.steps), "output cif ");
    if st.pstress.Some? {
      PressureStarts(st.pstress.value);
      FirstDiffers(PressureLine(st.pstress.value), "output cif ");
    }
    if st.dump.Some? {
      CifStarts(st.dump.value);
    }
  }

  // ---------------------------------------------------------------------------
  // Atom lines

  lemma AllSpaceAppend(a: string, b: string)
    requires AllSpace(a) && AllSpace(b)
    ensures AllSpace(a + b)
  {
    forall k | 0 <= k < |a + b| ensures IsSpace((a + b)[k]) {
      if k < |a| { assert (a + b)[k] == a[k]; } else { assert (a + b)[k] == b[k - |a|]; }
    }
  }

  /** A word followed by a blank is the first field. */
  lemma WordThenBlank(t: string, more: string)
    requires t != [] && NoSpace(t) && more != [] && IsSpace(more[0])
    ensures Split(t + more) == [t] + Split(more)
  {
    TokenLengthOfWord(t, more);
    assert (t + more)[0] == t[0];
    assert (t + more)[..|t|] == t;
    assert (t + more)[|t|..] == more;
  }

  /** `a + (b + c) + d`, grouped as `(a + b) + (c + d)`. */
  lemma Regroup(a: string, b: string, c: string, d: string)
    ensures a + (b + c) + d == (a + b) + (c + d)
  {
  }

  /** A blank, then a word padded on the left, then text that starts with a blank. */
  lemma PaddedThenBlank(t: string, width: nat, more: string)
    requires t != [] && NoSpace(t) && more != [] && IsSpace(more[0])
    ensures Split(" " + PadLeft(t, width) + more) == [t] + Split(more)
  {
    var pad := Spaces(|PadLeft(t, width)| - |t|);
    var w := " " + pad;
    AllSpaceAppend(" ", pad);
    Regroup(" ", pad, t, more);
    SplitSkipsSpace(w, t + more);
    WordThenBlank(t, more);
  }

  lemma SplitKindTail(kind: string)
    requires kind != [] && NoSpace(kind)
    ensures Split(" " + kind + " \n") == [kind]
  {
    SplitSkipsSpace(" ", kind + " \n");
    assert " " + kind + " \n" == " " + (kind + " \n");
    WordThenBlank(kind, " \n");
    SplitSkipsSpace(" \n", []);
    assert " \n" + [] == " \n";
  }

  lemma SplitPaddedSymbol(symbol: string, more: string)
    requires symbol != [] && NoSpace(symbol) && more != [] && IsSpace(more[0])
    ensures Split(PadRight(symbol, 4) + more) == [symbol] + Split(more)
  {
    var ss := Spaces(|PadRight(symbol, 4)| - |symbol|);
    assert PadRight(symbol, 4) + more == symbol + (ss + more);
    SplitSkipsSpace(ss, more);
    if ss == [] {
      assert ss + more == more;
    } else {
      assert (ss + more)[0] == ss[0];
    }
    WordThenBlank(symbol, ss + more);
  }

  lemma FiveFields(a: string, b: string, c: string, d: string, e: string)
    ensures [a] + ([b] + ([c] + ([d] + [e]))) == [a, b, c, d, e]
  {
  }

  /** The fields of `{:4s} {:12.6f} {:12.6f} {:12.6f} <kind> \n` for blank-free texts. */
  lemma SplitSiteText(symbol: string, tx: string, ty: string, tz: string, kind: string)
    requires symbol != [] && NoSpace(symbol) && kind != [] && NoSpace(kind)
    requires tx != [] && NoSpace(tx) && ty != [] && NoSpace(ty) && tz != [] && NoSpace(tz)
    ensures Split(PadRight(symbol, 4) + (" " + PadLeft(tx, 12) + (" " + PadLeft(ty, 12) + (" " + PadLeft(tz, 12)
      + (" " + kind + " \n"))))) == [symbol, tx, ty, tz, kind]
  {
    var m4 := " " + kind + " \n";
    var m3 := " " + PadLeft(tz, 12) + m4;
    var m2 := " " + PadLeft(ty, 12) + m3;
    var m1 := " " + PadLeft(tx, 12) + m2;
    SplitKindTail(kind);
    PaddedThenBlank(tz, 12, m4);
    PaddedThenBlank(ty, 12, m3);
    PaddedThenBlank(tx, 12, m2);
    SplitPaddedSymbol(symbol, m1);
    FiveFields(symbol, tx, ty, tz, kind);
  }

  /** A `{:12.6f}` field is the blank-free fixed-point text, padded, and that text
      reads back as the value rounded to six decimals. */
  lemma F12Field(x: Float)
    ensures F12(x) == PadLeft(FixedBody(x, 6), 12)
    ensures FixedBody(x, 6) != [] && NoSpace(FixedBody(x, 6))
    ensures ParseFloat(FixedBody(x, 6)) == Some(Rounded(x, 6))
  {
    FormatFixedIsPadded(x, 12, 6);
    FixedBodyToken(x, 6);
    FixedBodyRoundTrip(x, 6);
  }

  /** An atom line splits into the symbol, the three printed coordinates and the
      kind; by `F12Field` each coordinate reads back as the value rounded to six decimals. */
  lemma SiteLineFields(symbol: string, v: Vec3, kind: string)
    requires symbol != [] && NoSpace(symbol) && kind != [] && NoSpace(kind)
    ensures Split(SiteLine(symbol, v, kind)) == [symbol, FixedBody(v.x, 6), FixedBody(v.y, 6), FixedBody(v.z, 6), kind]
  {
    var tx, ty, tz := FixedBody(v.x, 6), FixedBody(v.y, 6), FixedBody(v.z, 6);
    F12Field(v.x);
    F12Field(v.y);
    F12Field(v.z);
    assert SiteLine(symbol, v, kind) == PadRight(symbol, 4) + (" " + PadLeft(tx, 12) + (" " + PadLeft(ty, 12)
      + (" " + PadLeft(tz, 12) + (" " + kind + " \n"))));
    SplitSiteText(symbol, tx, ty, tz, kind);
  }

  lemma {:induction false} SymSiteCount(sites: seq<AtomSite>, ff: string, n: nat)
    requires n <= |sites|
    ensures |SymSiteLines(sites, ff, n)| == n + ShellCount(sites, ff, n)
  {
    if n > 0 {
      SymSiteCount(sites, ff, n - 1);
    }
  }

  // ---------------------------------------------------------------------------
  // The Species section

  predicate Distinct(order: seq<string>)
  {
    forall a, b :: 0 <= a < b < |order| ==> order[a] != order[b]
  }

  lemma Position(order: seq<string>, s: string) returns (j: nat)
    requires s in order
    ensures j < |order| && order[j] == s
  {
    j :| 0 <= j < |order| && order[j] == s;
  }

  lemma InPrefix(order: seq<string>, n: nat, x: string)
    requires 0 < n <= |order| && Distinct(order)
    ensures x in order[..n] <==> x in order[..n - 1] || order[n - 1] == x
    ensures order[n - 1] == x ==> x !in order[..n - 1]
  {
    assert order[..n] == order[..n - 1] + [order[n - 1]];
  }

  lemma EntryLength(specie: string, labels: Option<map<string, string>>, ff: string)
    ensures |SpeciesEntry(specie, labels, ff)| == if labels.None? && HasShell(ff, specie) then 2 else 1
  {
  }

  /** Each symbol gets one entry line, and oxygen a second under `catlow` without labels. */
  lemma {:induction false} SpeciesCount(order: seq<string>, labels: Option<map<string, string>>, ff: string, n: nat)
    requires n <= |order| && Distinct(order)
    ensures labels.Some? ==> |SpeciesLines(order, labels, ff, n)| == n
    ensures labels.None? ==> |SpeciesLines(order, labels, ff, n)| == n + (if ff == "catlow" && "O" in order[..n] then 1 else 0)
  {
    if n > 0 {
      SpeciesCount(order, labels, ff, n - 1);
      EntryLength(order[n - 1], labels, ff);
      InPrefix(order, n, "O");
    }
  }

  /** Every line of a listed symbol's entry is in the section: with labels, the
      label when the symbol has one and the symbol itself otherwise. */
  lemma {:induction false} SpeciesEntryListed(order: seq<string>, labels: Option<map<string, string>>, ff: string,
                                              n: nat, j: nat, line: Chunk)
    requires j < n <= |order| && line in SpeciesEntry(order[j], labels, ff)
    ensures line in SpeciesLines(order, labels, ff, n)
  {
    if j < n - 1 {
      SpeciesEntryListed(order, labels, ff, n - 1, j, line);
    }
  }

  /** With a label table, each symbol of the structure is written once as
      `<symbol> core <label>`, or `<symbol> core <symbol>` when it has no label. */
  lemma SpeciesWithLabels(order: seq<string>, sites: seq<string>, lab: map<string, string>, ff: string, s: string)
    requires SetOrder(order, sites) && s in sites
    ensures |SpeciesLines(order, Some(lab), ff, |order|)| == |order|
    ensures Text(if s in lab then PadRight(s, 4) + " core " + lab[s] + "\n"
      else PadRight(s, 4) + " core " + PadRight(s, 4) + "\n") in SpeciesLines(order, Some(lab), ff, |order|)
  {
    SpeciesCount(order, Some(lab), ff, |order|);
    var j := Position(order, s);
    var e := SpeciesEntry(s, Some(lab), ff);
    SpeciesEntryListed(order, Some(lab), ff, |order|, j, e[0]);
  }

  /** Without labels, the section holds one line per distinct symbol, plus the
      oxygen shell line under `catlow`. */
  lemma SpeciesCountWithoutLabels(order: seq<string>, sites: seq<string>, ff: string)
    requires SetOrder(order, sites)
    ensures |SpeciesLines(order, None, ff, |order|)| == |order| + (if ff == "catlow" && "O" in sites then 1 else 0)
  {
    SpeciesCount(order, None, ff, |order|);
    assert order[..|order|] == order;
  }

  /** Without labels, each symbol is written as `<symbol> core <symbol>`, except
      oxygen under `catlow`, which gets a core and a shell line. */
  lemma SpeciesWithoutLabels(order: seq<string>, sites: seq<string>, ff: string, s: string)
    requires SetOrder(order, sites) && s in sites
    ensures HasShell(ff, s) ==> (Text("O    core O_O2- core\n") in SpeciesLines(order, None, ff, |order|)
      && Text("O    shell O_O2- shell\n") in SpeciesLines(order, None, ff, |order|))
    ensures !HasShell(ff, s) ==> Text(PadRight(s, 4) + " core " + PadRight(s, 4) + "\n") in SpeciesLines(order, None, ff, |order|)
  {
    var j := Position(order, s);
    var e := SpeciesEntry(s, None, ff);
    if HasShell(ff, s) {
      SpeciesEntryListed(order, None, ff, |order|, j, e[0]);
      SpeciesEntryListed(order, None, ff, |order|, j, e[1]);
      assert e[0] == Text("O    core O_O2- core\n") && e[1] == Text("O    shell O_O2- shell\n");
    } else {
      SpeciesEntryListed(order, None, ff, |order|, j, e[0]);
      assert e[0] == Text(PadRight(s, 4) + " core " + PadRight(s, 4) + "\n");
    }
  }
}

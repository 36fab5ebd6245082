/**
 * The GAFF atom-type table used by the molecular deck, and the symbol under
 * which an atom is looked up in it.
 */
module AtomTypes {
  import opened Wrappers

  /** `at_types`: the GULP type code of each GAFF symbol. A key is
      `element_label`; the table also has bare keys F, Cl, Br and I, but only
      F, Cl and Br are looked up bare (`SymbolOf`), so the `I` entry is never read.
      The entries are grouped by element in the order the source lists them, and
      the union keeps that order, so it is the source's dictionary. */
  const AtTypes: map<string, string> :=
    CarbonTypes + HydrogenTypes + HalogenTypes + NitrogenTypes + OxygenTypes + PhosphorusTypes + SulfurTypes

  /** The entries for carbon. */
  const CarbonTypes: map<string, string> := map[
    "C_c" := "C1",
    "C_cs" := "C2",
    "C_c1" := "C3",
    "C_c2" := "C4",
    "C_c3" := "C5",
    "C_ca" := "C6",
    "C_cp" := "C7",
    "C_cq" := "C8",
    "C_cc" := "C9",
    "C_cd" := "C10",
    "C_ce" := "C11",
    "C_cf" := "C12",
    "C_cg" := "C13",
    "C_ch" := "C14",
    "C_cx" := "C15",
    "C_cy" := "C14",
    "C_cu" := "C16",
    "C_cv" := "C17",
    "C_cz" := "C18"
  ]

  /** The entries for hydrogen. */
  const HydrogenTypes: map<string, string> := map[
    "H_h1" := "H1",
    "H_h2" := "H2",
    "H_h3" := "H3",
    "H_h4" := "H4",
    "H_h5" := "H5",
    "H_ha" := "H6",
    "H_hc" := "H7",
    "H_hn" := "H8",
    "H_ho" := "H9",
    "H_hp" := "H10",
    "H_hs" := "H11",
    "H_hw" := "H12",
    "H_hx" := "H13"
  ]

  /** The entries for the halogens, under their bare names. */
  const HalogenTypes: map<string, string> := map[
    "F" := "F",
    "Cl" := "Cl",
    "Br" := "Br",
    "I" := "I"
  ]

  /** The entries for nitrogen. */
  const NitrogenTypes: map<string, string> := map[
    "N_n" := "N1",
    "N_n1" := "N2",
    "N_n2" := "N3",
    "N_n3" := "N4",
    "N_n4" := "N5",
    "N_na" := "N6",
    "N_nb" := "N7",
    "N_nc" := "N8",
    "N_nd" := "N9",
    "N_ne" := "N10",
    "N_nf" := "N11",
    "N_nh" := "N12",
    "N_no" := "N13",
    "N_ns" := "N14",
    "N_nt" := "N15",
    "N_nx" := "N16",
    "N_ny" := "N17",
    "N_nz" := "N18",
    "N_n+" := "N19",
    "N_nu" := "N20",
    "N_nv" := "N21",
    "N_n7" := "N22",
    "N_n8" := "N23",
    "N_n9" := "N24"
  ]

  /** The entries for oxygen. */
  const OxygenTypes: map<string, string> := map[
    "O_o" := "O1",
    "O_oh" := "O2",
    "O_os" := "O3",
    "O_ow" := "O4"
  ]

  /** The entries for phosphorus. */
  const PhosphorusTypes: map<string, string> := map[
    "P_p2" := "P1",
    "P_p3" := "P2",
    "P_p4" := "P3",
    "P_p5" := "P4",
    "P_pb" := "P5",
    "P_pc" := "P6",
    "P_pd" := "P7",
    "P_pe" := "P8",
    "P_pf" := "P9",
    "P_px" := "P10",
    "P_py" := "P11"
  ]

  /** The entries for sulfur. */
  const SulfurTypes: map<string, string> := map[
    "S_s" := "S1",
    "S_s2" := "S2",
    "S_s4" := "S3",
    "S_s6" := "S4",
    "S_sh" := "S5",
    "S_ss" := "S6",
    "S_sx" := "S7",
    "S_sy" := "S8"
  ]

  /** The halogens that `GULP_OC.write` looks up by their bare element name. */
  predicate IsBareHalogen(element: string)
  {
    element == "F" || element == "Cl" || element == "Br"
  }

  /** The symbol of an atom with the given element and GAFF label. */
  function SymbolOf(element: string, atomLabel: string): (symbol: string)
    // the symbol starts with the element, and is the bare element exactly for F, Cl and Br
    ensures |symbol| >= |element| && symbol[..|element|] == element
    ensures symbol == element <==> IsBareHalogen(element)
    ensures !IsBareHalogen(element) ==> symbol[|element|] == '_' && symbol[|element| + 1..] == atomLabel
  {
    if IsBareHalogen(element) then element else element + "_" + atomLabel
  }

  /** `types[symbol]`, as `at_types[symbol]` is looked up with `types == AtTypes`;
      `None` where Python raises `KeyError`. */
  function TypeCode(types: map<string, string>, symbol: string): (code: Option<string>)
    // the lookup raises exactly for a symbol the table lacks, and gives a code of the table
    ensures code.None? <==> symbol !in types
    ensures code.Some? ==> code.value in types.Values && (symbol, code.value) in types.Items
  {
    if symbol in types then Some(types[symbol]) else None
  }

  /** Every entry's symbol is non-empty and does not start with `_`, and its code
      starts with the symbol's first letter. */
  ghost predicate CodesNameElements(types: map<string, string>)
  {
    forall entry :: entry in types.Items ==>
      entry.0 != [] && entry.0[0] != '_' && entry.1 != [] && entry.1[0] == entry.0[0]
  }

  lemma UnionNamesElements(a: map<string, string>, b: map<string, string>)
    requires CodesNameElements(a) && CodesNameElements(b)
    ensures CodesNameElements(a + b)
  {
    forall entry | entry in (a + b).Items
      ensures entry in a.Items || entry in b.Items
    {
      if entry.0 in b {
        assert (entry.0, b[entry.0]) in b.Items;
      } else {
        assert (entry.0, a[entry.0]) in a.Items;
      }
    }
  }

  lemma CarbonNameElements()
    ensures CodesNameElements(CarbonTypes)
  {
  }

  lemma HydrogenNameElements()
    ensures CodesNameElements(HydrogenTypes)
  {
  }

  lemma HalogenNameElements()
    ensures CodesNameElements(HalogenTypes)
  {
  }

  lemma NitrogenNameElements()
    ensures CodesNameElements(NitrogenTypes)
  {
  }

  lemma OxygenNameElements()
    ensures CodesNameElements(OxygenTypes)
  {
  }

  lemma PhosphorusNameElements()
    ensures CodesNameElements(PhosphorusTypes)
  {
  }

  lemma SulfurNameElements()
    ensures CodesNameElements(SulfurTypes)
  {
  }

  /** Every code of the table starts with the first letter of its symbol. */
  lemma TableNamesElements()
    ensures CodesNameElements(AtTypes)
  {
    CarbonNameElements();
    HydrogenNameElements();
    HalogenNameElements();
    NitrogenNameElements();
    OxygenNameElements();
    PhosphorusNameElements();
    SulfurNameElements();
    UnionNamesElements(CarbonTypes, HydrogenTypes);
    UnionNamesElements(CarbonTypes + HydrogenTypes, HalogenTypes);
    UnionNamesElements(CarbonTypes + HydrogenTypes + HalogenTypes, NitrogenTypes);
    UnionNamesElements(CarbonTypes + HydrogenTypes + HalogenTypes + NitrogenTypes, OxygenTypes);
    UnionNamesElements(CarbonTypes + HydrogenTypes + HalogenTypes + NitrogenTypes + OxygenTypes, PhosphorusTypes);
    UnionNamesElements(CarbonTypes + HydrogenTypes + HalogenTypes + NitrogenTypes + OxygenTypes + PhosphorusTypes, SulfurTypes);
  }

  /** An atom that has a type code has an element, and the code starts with the
      element's first letter: the table never types an atom as another element. */
  lemma AtTypesElement(element: string, atomLabel: string)
    requires TypeCode(AtTypes, SymbolOf(element, atomLabel)).Some?
    ensures var code := TypeCode(AtTypes, SymbolOf(element, atomLabel)).value;
      element != [] && code != [] && code[0] == element[0]
  {
    var symbol := SymbolOf(element, atomLabel);
    TableNamesElements();
    assert (symbol, AtTypes[symbol]) in AtTypes.Items;
  }

  /** The table's `"I"` entry is never looked up: iodine gets the `I_<label>` form. */
  lemma IodineEntryUnused(element: string, atomLabel: string)
    ensures SymbolOf(element, atomLabel) != "I"
  {
    if !IsBareHalogen(element) {
      var s := element + "_" + atomLabel;
      assert s[|element|] == '_';
      assert |s| >= 1 && (|s| == 1 ==> s[0] == '_');
    }
  }
}

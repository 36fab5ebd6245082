/**
 * The repair of one row of GULP's internal-derivatives table.
 *
 * GULP prints the three Cartesian derivatives in fixed-width columns, so a
 * negative value can run into the field on its left (`1.234-5.678`). The
 * reader pads the three fields it takes to three entries and splits the first
 * two at embedded minus signs before converting them to forces.
 */
module ForceRepair {
  import opened Wrappers
  import opened Numbers
  import opened Crystal
  import opened LogFields

  /** `ase.units.eV` and `ase.units.Ang`: ASE's units are eV and Angstrom. */
  const EV: real := 1.0
  const ANG: real := 1.0

  /** The positions `q >= p` at which `t` holds a minus sign, in increasing order. */
  function MinusFrom(t: string, p: nat): (r: seq<nat>)
    ensures forall k :: 0 <= k < |r| ==> p <= r[k] < |t| && t[r[k]] == '-'
    ensures forall k, j :: 0 <= k < j < |r| ==> r[k] < r[j]
    ensures forall q :: p <= q < |t| && t[q] == '-' ==> q in r
    decreases |t| - p
  {
    if p >= |t| then []
    else if t[p] == '-' then [p] + MinusFrom(t, p + 1)
    else MinusFrom(t, p + 1)
  }

  /** `[i + 1 for i, e in enumerate(t[1:]) if e == "-"]`: the minus signs after the first character. */
  function MinusPositions(t: string): seq<nat>
  {
    MinusFrom(t, 1)
  }

  /** `for _t in range(3 - len(g)): g.append(" ")`. */
  function Padded(g: seq<string>): (r: seq<string>)
    requires |g| <= 3
    ensures |r| == 3 && r[..|g|] == g
    ensures forall k :: |g| <= k < 3 ==> r[k] == " "
  {
    g + seq(3 - |g|, _ => " ")
  }

  /** Round `j = 0` with at most one embedded minus sign: with one, the first
      field is split in two and the old second field moves to third place. */
  function FirstSplit(g: seq<string>): (r: seq<string>)
    requires |g| == 3
    ensures |r| == 3
  {
    var m := MinusPositions(g[0]);
    if |m| == 1 then [g[0][..m[0]], g[0][m[0]..], g[1]] else g
  }

  /** Round `j = 1`: a minus sign inside the second field splits it in two,
      replacing the third field. */
  function SecondSplit(h: seq<string>): (r: seq<string>)
    requires |h| == 3
    ensures |r| == 3
  {
    var m1 := MinusPositions(h[1]);
    if |m1| == 0 then h else [h[0], h[1][..m1[0]], h[1][m1[0]..]]
  }

  /**
   * The three fields after the `for j in range(2)` loop. With two or more minus
   * signs inside the first field, that field alone supplies all three values
   * and the loop stops; otherwise both rounds apply, one after the other.
   */
  function Repaired(g: seq<string>): (r: seq<string>)
    requires |g| == 3
    ensures |r| == 3
  {
    var m := MinusPositions(g[0]);
    if |m| >= 2 then [g[0][..m[0]], g[0][m[0]..m[1]], g[0][m[1]..]]
    else SecondSplit(FirstSplit(g))
  }

  /** The source's padding loop, appending blank fields up to three. */
  method PadFields(fields: seq<string>) returns (g: seq<string>)
    requires |fields| <= 3
    ensures g == Padded(fields)
  {
    g := fields;
    while |g| < 3
      invariant |g| <= 3
      invariant Padded(g) == Padded(fields)
    {
      g := g + [" "];
    }
    assert g == Padded(g);
  }

  /** Round `j = 0` of the source's loop: with two or more embedded minus signs
      the first field is cut into all three values and the loop stops. */
  method SplitFirstField(g: seq<string>) returns (h: seq<string>, stop: bool)
    requires |g| == 3
    ensures stop <==> |MinusPositions(g[0])| >= 2
    ensures stop ==> h == Repaired(g)
    ensures !stop ==> h == FirstSplit(g)
  {
    h := g;
    stop := false;
    var minIndex := MinusPositions(h[0]);
    if |minIndex| != 0 {
      if |minIndex| == 1 {
        h := h[2 := h[1]];
        h := h[1 := h[0][minIndex[0]..]];
        h := h[0 := h[0][..minIndex[0]]];
      } else {
        h := h[2 := h[0][minIndex[1]..]];
        h := h[1 := h[0][minIndex[0]..minIndex[1]]];
        h := h[0 := h[0][..minIndex[0]]];
        stop := true;
      }
    }
  }

  /** Round `j = 1` of the source's loop. */
  method SplitSecondField(g: seq<string>) returns (h: seq<string>)
    requires |g| == 3
    ensures h == SecondSplit(g)
  {
    h := g;
    var minIndex := MinusPositions(h[1]);
    if |minIndex| != 0 {
      h := h[2 := h[1][minIndex[0]..]];
      h := h[1 := h[1][..minIndex[0]]];
    }
  }

  /** The source's loops, mutating the list of fields in place. */
  method RepairFields(fields: seq<string>) returns (g: seq<string>)
    requires |fields| <= 3
    ensures g == Repaired(Padded(fields))
  {
    g := PadFields(fields);
    ghost var g0 := g;
    var j := 0;
    while j < 2
      invariant 0 <= j <= 2 && |g| == 3
      invariant j == 0 ==> g == g0
      invariant j >= 1 ==> |MinusPositions(g0[0])| < 2
      invariant j == 1 ==> g == FirstSplit(g0)
      invariant j == 2 ==> g == Repaired(g0)
    {
      if j == 0 {
        var stop;
        g, stop := SplitFirstField(g);
        if stop {
          break;
        }
      } else {
        g := SplitSecondField(g);
      }
      j := j + 1;
    }
  }

  /** A row whose first two fields hold no minus sign after their first character is left as read. */
  lemma RepairNoMinus(g: seq<string>)
    requires |g| == 3
    requires forall q :: 1 <= q < |g[0]| ==> g[0][q] != '-'
    requires forall q :: 1 <= q < |g[1]| ==> g[1][q] != '-'
    ensures Repaired(g) == g
  {
  }

  /** With two or more embedded minus signs, the first field alone is cut into the
      three values: the pieces rejoin it, and the second and third carry the signs. */
  lemma RepairTwoMinus(g: seq<string>)
    requires |g| == 3 && |MinusPositions(g[0])| >= 2
    ensures var r := Repaired(g);
      r[0] + r[1] + r[2] == g[0] && r[1] != [] && r[1][0] == '-' && r[2] != [] && r[2][0] == '-'
      && forall q :: 1 <= q < |r[0]| ==> r[0][q] != '-'
  {
    var m := MinusPositions(g[0]);
    var r := Repaired(g);
    assert m[0] < m[1];
    assert r[0] + r[1] + r[2] == g[0];
    forall q | 1 <= q < |r[0]| ensures r[0][q] != '-' {
      assert r[0][q] == g[0][q];
    }
  }

  /** With exactly one embedded minus sign, the first field is split there and the
      old second field becomes the third value; the old third field is dropped. */
  lemma RepairOneMinus(g: seq<string>)
    requires |g| == 3 && |MinusPositions(g[0])| == 1
    ensures var p := MinusPositions(g[0])[0];
      Repaired(g) == [g[0][..p], g[0][p..], g[1]] && g[0][p..][0] == '-'
  {
    var m := MinusPositions(g[0]);
    var p := m[0];
    var b := g[0][p..];
    forall q | 1 <= q < |b| ensures b[q] != '-' {
      assert b[q] == g[0][p + q];
    }
  }

  /** Whatever the case, the values the repair produces spell out a prefix of the
      fields as read: no character is invented or reordered. */
  lemma RepairKeepsText(g: seq<string>)
    requires |g| == 3
    ensures var r := Repaired(g); (r[0] + r[1] + r[2]) <= (g[0] + g[1] + g[2])
  {
    var m := MinusPositions(g[0]);
    if |m| >= 2 {
      KeepsTextTwoMinus(g);
    } else if |m| == 1 {
      KeepsTextOneMinus(g);
    } else {
      KeepsTextNoMinus(g);
    }
  }

  lemma KeepsTextTwoMinus(g: seq<string>)
    requires |g| == 3 && |MinusPositions(g[0])| >= 2
    ensures var r := Repaired(g); (r[0] + r[1] + r[2]) <= (g[0] + g[1] + g[2])
  {
    var r := Repaired(g);
    var all := g[0] + g[1] + g[2];
    assert r[0] + r[1] + r[2] == g[0];
    assert all[..|g[0]|] == g[0];
  }

  lemma KeepsTextOneMinus(g: seq<string>)
    requires |g| == 3 && |MinusPositions(g[0])| == 1
    ensures var r := Repaired(g); (r[0] + r[1] + r[2]) <= (g[0] + g[1] + g[2])
  {
    var r := Repaired(g);
    var all := g[0] + g[1] + g[2];
    RepairOneMinus(g);
    assert r[0] + r[1] + r[2] == g[0] + g[1];
    assert all[..|g[0] + g[1]|] == g[0] + g[1];
  }

  lemma KeepsTextNoMinus(g: seq<string>)
    requires |g| == 3 && |MinusPositions(g[0])| == 0
    ensures var r := Repaired(g); (r[0] + r[1] + r[2]) <= (g[0] + g[1] + g[2])
  {
    var r := Repaired(g);
    var all := g[0] + g[1] + g[2];
    if MinusPositions(g[1]) != [] {
      assert r[0] + r[1] + r[2] == g[0] + g[1];
      assert all[..|g[0] + g[1]|] == g[0] + g[1];
    }
  }

  /** `-float(x) * eV / Ang`. */
  function Force(x: Float): Float
  {
    ScaleBy(Negate(x), EV / ANG)
  }

  /** A force is the negated derivative GULP prints. */
  lemma ForceIsNegatedDerivative(x: Float)
    ensures Force(x).Finite? <==> x.Finite?
    ensures x.Finite? ==> Force(x).value == -x.value
    ensures IsNaN(Force(x)) <==> IsNaN(x)
  {
  }

  /** One row of the derivatives table as a force; `None` where a `float()` raises. */
  function ForceRow(line: string): Option<Vec3>
  {
    var g := Repaired(Padded(FieldSlice(line, 3, 6)));
    match ParseAll(g)
    case None => None
    case Some(vs) => Some(Vec3(Force(vs[0]), Force(vs[1]), Force(vs[2])))
  }
}

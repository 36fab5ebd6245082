/**
 * The tables both GULP readers take out of a log, found by a header line at
 * index `i`: fixed-offset blocks (stress, Cartesian lattice vectors,
 * non-primitive cell parameters) and blocks that run to the dashed sentinel
 * line (internal derivatives, fractional coordinates).
 *
 * Every reader returns `None` exactly where the source raises (a line index
 * past the end of the log, a missing field, a token `float()` rejects); the
 * callers decide what an exception does to their state.
 */
module LogBlocks {
  import opened Wrappers
  import opened Text
  import opened Numbers
  import opened Crystal
  import opened LogFields
  import opened ForceRepair

  /** `float(line.split()[k])`. */
  function FloatField(line: string, k: nat): (r: Option<Float>)
    ensures r.Some? <==> FieldAt(line, k).Some? && ParseFloat(FieldAt(line, k).value).Some?
    ensures r.Some? ==> ParseFloat(Split(line)[k]) == r
  {
    match FieldAt(line, k)
    case None => None
    case Some(t) => ParseFloat(t)
  }

  /** `float(line.split()[-1])`: the CPU time of a `Total CPU time` line. */
  function CpuField(line: string): (r: Option<Float>)
    ensures r.Some? <==> LastField(line).Some? && ParseFloat(LastField(line).value).Some?
    ensures r.Some? ==> r == ParseFloat(Split(line)[|Split(line)| - 1])
  {
    match LastField(line)
    case None => None
    case Some(t) => ParseFloat(t)
  }

  /** `int(line.split()[1])`: the cycle number of a ` Cycle: ` line. */
  function CycleField(line: string): (r: Option<int>)
    ensures r.Some? <==> FieldAt(line, 1).Some? && ParseInt(FieldAt(line, 1).value).Some?
    ensures r.Some? ==> r == ParseInt(Split(line)[1])
  {
    match FieldAt(line, 1)
    case None => None
    case Some(t) => ParseInt(t)
  }

  // ---------------------------------------------------------------------------
  // Final stress tensor components

  /** Fields 1 and 3 of one stress line: a diagonal and an off-diagonal component. */
  function StressPair(line: string): Option<(Float, Float)>
  {
    var d := FloatField(line, 1);
    var o := FloatField(line, 3);
    if d.Some? && o.Some? then Some((d.value, o.value)) else None
  }

  /**
   * The six stress components below the header at `i`: line `i + j + 3`
   * (j = 0, 1, 2) gives component `j` from its field 1 and component `j + 3`
   * from its field 3.
   */
  function StressBlock(lines: seq<string>, i: nat): (r: Option<seq<Float>>)
    ensures r.Some? <==> (i + 5 < |lines|
      && forall k :: i + 3 <= k < i + 6 ==> FloatField(lines[k], 1).Some? && FloatField(lines[k], 3).Some?)
    ensures r.Some? ==> (|r.value| == 6
      && forall k :: i + 3 <= k < i + 6 ==>
        FloatField(lines[k], 1) == Some(r.value[k - i - 3]) && FloatField(lines[k], 3) == Some(r.value[k - i]))
  {
    if i + 5 < |lines| then
      var p0, p1, p2 := StressPair(lines[i + 3]), StressPair(lines[i + 4]), StressPair(lines[i + 5]);
      if p0.Some? && p1.Some? && p2.Some? then
        Some([p0.value.0, p1.value.0, p2.value.0, p0.value.1, p1.value.1, p2.value.1])
      else None
    else None
  }

  /** A stress line that is missing or lacks a float leaves no block. */
  lemma StressRowMissing(lines: seq<string>, i: nat, j: nat)
    requires j < 3
    requires i + j + 3 >= |lines| || FloatField(lines[i + j + 3], 1).None? || FloatField(lines[i + j + 3], 3).None?
    ensures StressBlock(lines, i).None?
  {
  }

  /** The source's loop filling `np.zeros([6])`. */
  method ReadStress(lines: seq<string>, i: nat) returns (r: Option<seq<Float>>)
    ensures r == StressBlock(lines, i)
  {
    var stress := new Float[6];
    for j := 0 to 3
      invariant j > 0 ==> i + 3 < |lines| && StressPair(lines[i + 3]) == Some((stress[0], stress[3]))
      invariant j > 1 ==> i + 4 < |lines| && StressPair(lines[i + 4]) == Some((stress[1], stress[4]))
      invariant j > 2 ==> i + 5 < |lines| && StressPair(lines[i + 5]) == Some((stress[2], stress[5]))
    {
      if i + j + 3 >= |lines| {
        StressRowMissing(lines, i, j);
        return None;
      }
      var line := lines[i + j + 3];
      var v := FloatField(line, 1);
      if v.None? {
        StressRowMissing(lines, i, j);
        return None;
      }
      stress[j] := v.value;
      v := FloatField(line, 3);
      if v.None? {
        StressRowMissing(lines, i, j);
        return None;
      }
      stress[j + 3] := v.value;
    }
    r := Some([stress[0], stress[1], stress[2], stress[3], stress[4], stress[5]]);
  }

  // ---------------------------------------------------------------------------
  // Tables that run to the sentinel line

  /** `Some(xs + rest)`, or `None` when reading the rest failed. */
  function Extend<T>(xs: seq<T>, rest: Option<seq<T>>): Option<seq<T>>
  {
    if rest.None? then None else Some(xs + rest.value)
  }

  /** Every row converted by `parse`, all or nothing. */
  function AllRows<T>(rows: seq<string>, parse: string -> Option<T>): (r: Option<seq<T>>)
    ensures r.Some? <==> forall k :: 0 <= k < |rows| ==> parse(rows[k]).Some?
    ensures r.Some? ==> (|r.value| == |rows|
      && forall k :: 0 <= k < |rows| ==> parse(rows[k]) == Some(r.value[k]))
  {
    if forall k :: 0 <= k < |rows| ==> parse(rows[k]).Some? then
      Some(seq(|rows|, k requires 0 <= k < |rows| => parse(rows[k]).value))
    else None
  }

  /**
   * The source's `while True` scan from line `s`: a line holding the sentinel
   * ends the table, any other line is converted by `parse` and kept. `None`
   * where a row does not convert or the scan runs past the end of the log.
   */
  function TableFrom<T>(lines: seq<string>, s: nat, parse: string -> Option<T>): Option<seq<T>>
    decreases |lines| - s
  {
    if s >= |lines| then None
    else if Contains(lines[s], Sentinel) then Some([])
    else
      match parse(lines[s])
      case None => None
      case Some(row) => Extend([row], TableFrom(lines, s + 1, parse))
  }

  /** `rows` are what `parse` makes of the lines from `s` on, one row per line. */
  ghost predicate RowsRead<T>(lines: seq<string>, s: nat, parse: string -> Option<T>, rows: seq<T>)
  {
    forall k :: 0 <= k < |rows| ==> s + k < |lines| && parse(lines[s + k]) == Some(rows[k])
  }

  lemma AllRowsCons<T>(rows: seq<string>, parse: string -> Option<T>)
    requires rows != []
    ensures AllRows(rows, parse)
      == (if parse(rows[0]).None? then None else Extend([parse(rows[0]).value], AllRows(rows[1..], parse)))
  {
    var tail := rows[1..];
    assert forall k :: 0 <= k < |tail| ==> tail[k] == rows[k + 1];
    if parse(rows[0]).Some? && AllRows(tail, parse).Some? {
      forall k | 0 <= k < |rows| ensures parse(rows[k]).Some? {
        if k > 0 { assert rows[k] == tail[k - 1]; }
      }
      var r := [parse(rows[0]).value] + AllRows(tail, parse).value;
      forall k | 0 <= k < |rows| ensures parse(rows[k]) == Some(r[k]) {
        if k > 0 { assert rows[k] == tail[k - 1]; }
      }
      assert AllRows(rows, parse).value == r;
    } else if parse(rows[0]).Some? {
      var k :| 0 <= k < |tail| && parse(tail[k]).None?;
      assert rows[k + 1] == tail[k];
    }
  }

  /** The scan reads exactly the rows between line `s` and the first sentinel line
      at or after it, and fails when there is no such line. */
  lemma {:induction false} TableFromRows<T>(lines: seq<string>, s: nat, parse: string -> Option<T>)
    ensures TableFrom(lines, s, parse)
      == (if SentinelFrom(lines, s).None? then None else AllRows(lines[s..SentinelFrom(lines, s).value], parse))
    decreases |lines| - s
  {
    if s < |lines| && !Contains(lines[s], Sentinel) {
      TableFromRows(lines, s + 1, parse);
      var e := SentinelFrom(lines, s);
      if e.Some? {
        var rows := lines[s..e.value];
        assert rows[1..] == lines[s + 1..e.value];
        AllRowsCons(rows, parse);
      }
    } else if s < |lines| {
      assert lines[s..s] == [];
    }
  }

  /** A line before the sentinel that converts to `row` moves the scan on by one
      line and `row` onto the rows already read. */
  lemma TableStep<T>(lines: seq<string>, s: nat, parse: string -> Option<T>, rows: seq<T>, row: T)
    requires s < |lines| && !Contains(lines[s], Sentinel) && parse(lines[s]) == Some(row)
    ensures Extend(rows, TableFrom(lines, s, parse)) == Extend(rows + [row], TableFrom(lines, s + 1, parse))
  {
    var rest := TableFrom(lines, s + 1, parse);
    if rest.Some? {
      assert rows + [row] + rest.value == rows + ([row] + rest.value);
    }
  }

  /** Line by line: a table that was read runs up to the first sentinel line, and
      its `k`-th row is line `s + k` converted. */
  lemma TableSpan<T>(lines: seq<string>, s: nat, parse: string -> Option<T>)
    ensures var t := TableFrom(lines, s, parse);
      var e := SentinelFrom(lines, s);
      (e.None? ==> t.None?)
      && (t.Some? ==> (e.Some? && |t.value| == e.value - s
        && RowsRead(lines, s, parse, t.value)))
  {
    TableFromRows(lines, s, parse);
    var e := SentinelFrom(lines, s);
    if e.Some? {
      var rows := lines[s..e.value];
      assert forall k :: 0 <= k < |rows| ==> lines[s + k] == rows[k];
    }
  }

  // ---------------------------------------------------------------------------
  // Final internal derivatives

  /** The forces read from line `i + 6` up to the first sentinel line. */
  function DerivativesBlock(lines: seq<string>, i: nat): Option<seq<Vec3>>
  {
    TableFrom(lines, i + 6, ForceRow)
  }

  /** A derivatives table runs from line `i + 6` to the first sentinel line; force
      `k` of it is the row `ForceRow` reads from line `i + 6 + k`. */
  lemma DerivativeRows(lines: seq<string>, i: nat)
    ensures var t := DerivativesBlock(lines, i);
      var e := SentinelFrom(lines, i + 6);
      (e.None? ==> t.None?)
      && (t.Some? ==> (e.Some? && |t.value| == e.value - (i + 6)
        && RowsRead(lines, i + 6, ForceRow, t.value)))
  {
    assert DerivativesBlock(lines, i) == TableFrom(lines, i + 6, ForceRow);
    TableSpan(lines, i + 6, ForceRow);
  }

  /** One row of the table: its fields 3 to 5 padded, repaired and converted. */
  method ReadForceRow(line: string) returns (f: Option<Vec3>)
    ensures f == ForceRow(line)
  {
    var g := RepairFields(FieldSlice(line, 3, 6));
    var vs := ParseAll(g);
    if vs.None? {
      return None;
    }
    f := Some(Vec3(Force(vs.value[0]), Force(vs.value[1]), Force(vs.value[2])));
  }

  /** The source's `while True` loop over the derivatives table. */
  method ReadDerivatives(lines: seq<string>, i: nat) returns (r: Option<seq<Vec3>>)
    ensures r == DerivativesBlock(lines, i)
  {
    var s := i + 5;
    var forces: seq<Vec3> := [];
    ghost var whole := TableFrom(lines, i + 6, ForceRow);
    if whole.Some? {
      assert forces + whole.value == whole.value;
    }
    while true
      invariant i + 5 <= s
      invariant DerivativesBlock(lines, i) == Extend(forces, TableFrom(lines, s + 1, ForceRow))
      decreases if s < |lines| then |lines| - s else 0
    {
      s := s + 1;
      if s >= |lines| {
        return None;
      }
      if Contains(lines[s], Sentinel) {
        break;
      }
      var f := ReadForceRow(lines[s]);
      if f.None? {
        return None;
      }
      TableStep(lines, s, ForceRow, forces, f.value);
      forces := forces + [f.value];
    }
    assert forces + [] == forces;
    r := Some(forces);
  }

  // ---------------------------------------------------------------------------
  // Final fractional (or asymmetric unit) coordinates

  /** The positions (fields 3 to 5, as many as there are) and species (field 1) of a table. */
  datatype Coordinates = Coordinates(positions: seq<seq<Float>>, species: seq<string>)

  /** One row: `[float(x) for x in split()[3:6]]`, then `split()[1]`. */
  function CoordRow(line: string): Option<(seq<Float>, string)>
  {
    match ParseAll(FieldSlice(line, 3, 6))
    case None => None
    case Some(xyz) =>
      match FieldAt(line, 1)
      case None => None
      case Some(sp) => Some((xyz, sp))
  }

  /** The table's rows split into the two lists the source builds. */
  function Unzip(rows: seq<(seq<Float>, string)>): (c: Coordinates)
    ensures |c.positions| == |rows| && |c.species| == |rows|
    ensures forall k :: 0 <= k < |rows| ==> rows[k] == (c.positions[k], c.species[k])
  {
    if rows == [] then Coordinates([], [])
    else
      var c := Unzip(rows[1..]);
      Coordinates([rows[0].0] + c.positions, [rows[0].1] + c.species)
  }

  /** The coordinates `c` read so far, followed by those of the rest of the table;
      `None` when the rest fails. */
  function Prefixed(c: Coordinates, rest: Option<seq<(seq<Float>, string)>>): Option<Coordinates>
  {
    if rest.None? then None
    else Some(Coordinates(c.positions + Unzip(rest.value).positions, c.species + Unzip(rest.value).species))
  }

  /** Reading one more row moves its position and species from the rest of the
      table onto the end of the two lists. */
  lemma PrefixedStep(c: Coordinates, row: (seq<Float>, string), rest: Option<seq<(seq<Float>, string)>>)
    ensures Prefixed(c, Extend([row], rest)) == Prefixed(Coordinates(c.positions + [row.0], c.species + [row.1]), rest)
  {
    if rest.Some? {
      var u := Unzip(rest.value);
      assert ([row] + rest.value)[1..] == rest.value;
      assert c.positions + ([row.0] + u.positions) == c.positions + [row.0] + u.positions;
      assert c.species + ([row.1] + u.species) == c.species + [row.1] + u.species;
    }
  }

  /** The coordinates read from line `i + 6` up to the first sentinel line. */
  function CoordinateBlock(lines: seq<string>, i: nat): Option<Coordinates>
  {
    match TableFrom(lines, i + 6, CoordRow)
    case None => None
    case Some(rows) => Some(Unzip(rows))
  }

  /** A coordinate table runs from line `i + 6` to the first sentinel line; row `k`
      of it is the position and species `CoordRow` reads from line `i + 6 + k`. */
  lemma CoordinateRows(lines: seq<string>, i: nat)
    ensures var c := CoordinateBlock(lines, i);
      var t := TableFrom(lines, i + 6, CoordRow);
      var e := SentinelFrom(lines, i + 6);
      (e.None? ==> c.None?)
      && (c.Some? ==> (e.Some? && t.Some? && |t.value| == e.value - (i + 6)
        && RowsRead(lines, i + 6, CoordRow, t.value) && c.value == Unzip(t.value)))
  {
    TableSpan(lines, i + 6, CoordRow);
  }

  /** One row of a coordinate table: the three numbers first, then the species. */
  method ReadCoordRow(line: string) returns (row: Option<(seq<Float>, string)>)
    ensures row == CoordRow(line)
  {
    var xyz := ParseAll(FieldSlice(line, 3, 6));
    if xyz.None? {
      return None;
    }
    var sp := FieldAt(line, 1);
    if sp.None? {
      return None;
    }
    row := Some((xyz.value, sp.value));
  }

  /** The source's `while True` loop over a coordinate table. */
  method ReadCoordinates(lines: seq<string>, i: nat) returns (r: Option<Coordinates>)
    ensures r == CoordinateBlock(lines, i)
  {
    var s := i + 5;
    var positions: seq<seq<Float>> := [];
    var species: seq<string> := [];
    ghost var whole := TableFrom(lines, i + 6, CoordRow);
    if whole.Some? {
      var u := Unzip(whole.value);
      assert [] + u.positions == u.positions && [] + u.species == u.species;
    }
    while true
      invariant i + 5 <= s
      invariant CoordinateBlock(lines, i) == Prefixed(Coordinates(positions, species), TableFrom(lines, s + 1, CoordRow))
      decreases if s < |lines| then |lines| - s else 0
    {
      s := s + 1;
      if s >= |lines| {
        return None;
      }
      if Contains(lines[s], Sentinel) {
        break;
      }
      var row := ReadCoordRow(lines[s]);
      if row.None? {
        return None;
      }
      PrefixedStep(Coordinates(positions, species), row.value, TableFrom(lines, s + 1, CoordRow));
      positions := positions + [row.value.0];
      species := species + [row.value.1];
    }
    assert positions + [] == positions && species + [] == species;
    r := Some(Coordinates(positions, species));
  }

  /** Whether `np.array(rows)` builds a two-dimensional array: every row has the same length. */
  predicate Rectangular(rows: seq<seq<Float>>)
  {
    forall a, b :: 0 <= a < |rows| && 0 <= b < |rows| ==> |rows[a]| == |rows[b]|
  }

  /** `np.array(rows)`: a ragged list raises `ValueError` (NumPy 1.24 and later). */
  function AsArray(rows: seq<seq<Float>>): (r: Option<seq<seq<Float>>>)
    ensures r.Some? <==> Rectangular(rows)
    ensures r.Some? ==> r.value == rows
  {
    if Rectangular(rows) then Some(rows) else None
  }

  // ---------------------------------------------------------------------------
  // Final Cartesian lattice vectors

  /** `float(temp[k])` for k = 0, 1, 2 of one line. */
  function VectorRow(line: string): Option<Vec3>
  {
    var x, y, z := FloatField(line, 0), FloatField(line, 1), FloatField(line, 2);
    if x.Some? && y.Some? && z.Some? then Some(Vec3(x.value, y.value, z.value)) else None
  }

  /** The three lattice vectors on lines `i + 2` to `i + 4`, one per row. */
  function VectorBlock(lines: seq<string>, i: nat): (r: Option<Mat3>)
    ensures r.Some? <==> (i + 4 < |lines| && VectorRow(lines[i + 2]).Some?
      && VectorRow(lines[i + 3]).Some? && VectorRow(lines[i + 4]).Some?)
    ensures r.Some? ==> (VectorRow(lines[i + 2]) == Some(r.value.r0)
      && VectorRow(lines[i + 3]) == Some(r.value.r1) && VectorRow(lines[i + 4]) == Some(r.value.r2))
  {
    if i + 4 < |lines| then
      var v0, v1, v2 := VectorRow(lines[i + 2]), VectorRow(lines[i + 3]), VectorRow(lines[i + 4]);
      if v0.Some? && v1.Some? && v2.Some? then Some(Mat3(v0.value, v1.value, v2.value)) else None
    else None
  }

  /** Row `k` of a 3x3 array. */
  function RowOf(m: array2<Float>, k: nat): Vec3
    requires m.Length0 == 3 && m.Length1 == 3 && k < 3
    reads m
  {
    Vec3(m[k, 0], m[k, 1], m[k, 2])
  }

  /** The source's nested loops filling `np.zeros((3, 3))`. */
  method ReadVectors(lines: seq<string>, i: nat) returns (r: Option<Mat3>)
    ensures r == VectorBlock(lines, i)
  {
    var m := new Float[3, 3];
    var s := i + 2;
    for j := s to s + 3
      invariant j > s ==> s < |lines| && VectorRow(lines[s]) == Some(RowOf(m, 0))
      invariant j > s + 1 ==> s + 1 < |lines| && VectorRow(lines[s + 1]) == Some(RowOf(m, 1))
      invariant j > s + 2 ==> s + 2 < |lines| && VectorRow(lines[s + 2]) == Some(RowOf(m, 2))
    {
      if j >= |lines| {
        VectorRowMissing(lines, i, j);
        return None;
      }
      var ok := ReadVectorRow(m, j - s, lines[j]);
      if !ok {
        VectorRowMissing(lines, i, j);
        return None;
      }
    }
    r := Some(Mat3(RowOf(m, 0), RowOf(m, 1), RowOf(m, 2)));
  }

  /** A vector line that is missing or does not read leaves no block. */
  lemma VectorRowMissing(lines: seq<string>, i: nat, j: nat)
    requires i + 2 <= j <= i + 4 && (j >= |lines| || VectorRow(lines[j]).None?)
    ensures VectorBlock(lines, i).None?
  {
  }

  /** The inner loop: the three fields of `line` into row `row` of `m`, stopping at
      the first that is not a float; the other rows are left as they were. */
  method ReadVectorRow(m: array2<Float>, row: nat, line: string) returns (ok: bool)
    requires m.Length0 == 3 && m.Length1 == 3 && row < 3
    modifies m
    ensures ok <==> VectorRow(line).Some?
    ensures ok ==> VectorRow(line) == Some(RowOf(m, row))
    ensures forall a :: 0 <= a < 3 && a != row ==> RowOf(m, a) == old(RowOf(m, a))
  {
    for k := 0 to 3
      invariant forall kk :: 0 <= kk < k ==> FloatField(line, kk) == Some(m[row, kk])
      invariant forall a :: 0 <= a < 3 && a != row ==> RowOf(m, a) == old(RowOf(m, a))
    {
      var v := FloatField(line, k);
      if v.None? {
        return false;
      }
      m[row, k] := v.value;
    }
    return true;
  }

  // ---------------------------------------------------------------------------
  // Non-primitive lattice parameters

  /** `a, b, c` from fields 2, 5 and 8 of line `i + 2`; the angles from fields 1, 3
      and 5 of line `i + 3`. */
  function ParaBlock(lines: seq<string>, i: nat): (r: Option<CellPara>)
    ensures r.Some? <==> (i + 3 < |lines|
      && FloatField(lines[i + 2], 2).Some? && FloatField(lines[i + 2], 5).Some? && FloatField(lines[i + 2], 8).Some?
      && FloatField(lines[i + 3], 1).Some? && FloatField(lines[i + 3], 3).Some? && FloatField(lines[i + 3], 5).Some?)
    ensures r.Some? ==> (FloatField(lines[i + 2], 2) == Some(r.value.a)
      && FloatField(lines[i + 2], 5) == Some(r.value.b) && FloatField(lines[i + 2], 8) == Some(r.value.c)
      && FloatField(lines[i + 3], 1) == Some(r.value.alpha) && FloatField(lines[i + 3], 3) == Some(r.value.beta)
      && FloatField(lines[i + 3], 5) == Some(r.value.gamma))
  {
    if i + 3 < |lines| then
      var l1, l2 := lines[i + 2], lines[i + 3];
      var a, b, c := FloatField(l1, 2), FloatField(l1, 5), FloatField(l1, 8);
      var al, be, ga := FloatField(l2, 1), FloatField(l2, 3), FloatField(l2, 5);
      if a.Some? && b.Some? && c.Some? && al.Some? && be.Some? && ga.Some? then
        Some(CellPara(a.value, b.value, c.value, al.value, be.value, ga.value))
      else None
    else None
  }
}

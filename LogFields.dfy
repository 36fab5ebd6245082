/**
 * Recognisers for single lines of a GULP log: whitespace-separated fields,
 * the dashed line that closes a table, and the energy line pattern
 * `\s*<phrase>\s*=\s*(\S+)\s*eV` as Python's `re.match` applies it.
 */
module LogFields {
  import opened Wrappers
  import opened Text
  import opened Numbers

  /** The text that closes every table of the log. */
  const Sentinel := "------------"

  /** `line.split()[k]`; `None` where Python raises `IndexError`. */
  function FieldAt(line: string, k: nat): (r: Option<string>)
    ensures r.Some? <==> k < |Split(line)|
    ensures r.Some? ==> r.value == Split(line)[k] && r.value != [] && NoSpace(r.value)
  {
    var f := Split(line);
    if k < |f| then Some(f[k]) else None
  }

  /** `line.split()[-1]`; `None` for a blank line. */
  function LastField(line: string): (r: Option<string>)
    ensures r.Some? <==> Split(line) != []
    ensures r.Some? ==> r.value == Split(line)[|Split(line)| - 1]
  {
    var f := Split(line);
    if f == [] then None else Some(f[|f| - 1])
  }

  /** `line.split()[lo:hi]`, with Python's clamping of slice bounds. */
  function FieldSlice(line: string, lo: nat, hi: nat): (r: seq<string>)
    requires lo <= hi
    ensures |r| == if |Split(line)| <= lo then 0 else if |Split(line)| < hi then |Split(line)| - lo else hi - lo
    ensures forall k :: 0 <= k < |r| ==> r[k] == Split(line)[lo + k]
  {
    var f := Split(line);
    if |f| <= lo then [] else if |f| < hi then f[lo..] else f[lo..hi]
  }

  /** `[float(x) for x in tokens]`; `None` as soon as one token is not a number. */
  function ParseAll(tokens: seq<string>): (r: Option<seq<Float>>)
    ensures r.Some? <==> forall k :: 0 <= k < |tokens| ==> ParseFloat(tokens[k]).Some?
    ensures r.Some? ==> (|r.value| == |tokens|
      && forall k :: 0 <= k < |tokens| ==> ParseFloat(tokens[k]) == Some(r.value[k]))
    decreases |tokens|
  {
    if tokens == [] then Some([])
    else
      var rest := ParseAll(tokens[1..]);
      assert forall k :: 1 <= k < |tokens| ==> tokens[k] == tokens[1..][k - 1];
      match ParseFloat(tokens[0])
      case None => None
      case Some(x) => if rest.None? then None else Some([x] + rest.value)
  }

  /** The first line at or after `s` that holds the sentinel; `None` where the
      source's `while True` runs past the end of the log and raises `IndexError`. */
  function SentinelFrom(lines: seq<string>, s: nat): (r: Option<nat>)
    ensures r.Some? ==> (s <= r.value < |lines| && Contains(lines[r.value], Sentinel)
      && forall k :: s <= k < r.value ==> !Contains(lines[k], Sentinel))
    ensures r.None? ==> forall k :: s <= k < |lines| ==> !Contains(lines[k], Sentinel)
    decreases |lines| - s
  {
    if s >= |lines| then None
    else if Contains(lines[s], Sentinel) then Some(s)
    else SentinelFrom(lines, s + 1)
  }

  // ---------------------------------------------------------------------------
  // The energy pattern

  predicate StartsWith(s: string, p: string)
  {
    |p| <= |s| && s[..|p|] == p
  }

  /** Length of the leading whitespace of `s`: what a greedy `\s*` consumes. */
  function SpaceRun(s: string): (n: nat)
    ensures n <= |s| && AllSpace(s[..n])
    ensures n < |s| ==> !IsSpace(s[n])
  {
    if s != [] && IsSpace(s[0]) then 1 + SpaceRun(s[1..]) else 0
  }

  /** Whether `\s*eV` matches right after the first `k` characters of the token run
      `r[..n]` (`n` is the run's length, so a shorter group leaves no room for blanks). */
  predicate EvAfter(r: string, n: nat, k: nat)
    requires k <= n <= |r|
  {
    if k == n then StartsWith(r[n + SpaceRun(r[n..])..], "eV") else StartsWith(r[k..], "eV")
  }

  /** The group length the backtracking of `(\S+)\s*eV` settles on: the longest
      `k <= limit` after which `\s*eV` matches, or 0 when there is none. */
  function GroupLength(r: string, n: nat, limit: nat): (k: nat)
    requires limit <= n <= |r|
    ensures k <= limit
    ensures k > 0 ==> EvAfter(r, n, k)
    ensures forall j :: k < j <= limit ==> !EvAfter(r, n, j)
    decreases limit
  {
    if limit == 0 then 0 else if EvAfter(r, n, limit) then limit else GroupLength(r, n, limit - 1)
  }

  /** What is left of `s` once a greedy `\s*` has consumed its leading blanks. */
  function AfterSpaces(s: string): (r: string)
    ensures r == s[SpaceRun(s)..]
  {
    s[SpaceRun(s)..]
  }

  lemma NoSpacePrefix(s: string, k: nat, n: nat)
    requires k <= n <= |s| && NoSpace(s[..n])
    ensures NoSpace(s[..k])
  {
    assert forall j :: 0 <= j < k ==> s[..k][j] == s[..n][j];
  }

  /** `(\S+)\s*eV` applied at the start of `r`: the captured group. */
  function Group(r: string): (g: Option<string>)
    ensures g.Some? ==> g.value != [] && NoSpace(g.value)
  {
    var n := TokenLength(r);
    var k := GroupLength(r, n, n);
    NoSpacePrefix(r, k, n);
    if k == 0 then None else Some(r[..k])
  }

  /**
   * `re.match(r"\s*<phrase>\s*=\s*(\S+)\s*eV", line)`: the captured group, or
   * `None` when the pattern does not match. `phrase` starts with a
   * non-blank character, so neither `\s*` in front of a literal can backtrack.
   */
  function MatchEnergy(line: string, phrase: string): (g: Option<string>)
    ensures g.Some? ==> g.value != [] && NoSpace(g.value)
  {
    match AfterEquals(line, phrase)
    case None => None
    case Some(r) => Group(r)
  }

  /** What `\s*<phrase>\s*=\s*` leaves of `line`, or `None` where it does not match. */
  function AfterEquals(line: string, phrase: string): Option<string>
  {
    var r0 := AfterSpaces(line);
    if !StartsWith(r0, phrase) then None
    else
      var r2 := AfterSpaces(r0[|phrase|..]);
      if r2 == [] || r2[0] != '=' then None
      else Some(AfterSpaces(r2[1..]))
  }

  lemma {:induction false} SpaceRunOf(w: string, s: string)
    requires AllSpace(w)
    requires s == [] || !IsSpace(s[0])
    ensures SpaceRun(w + s) == |w|
    decreases |w|
  {
    if w == [] {
      assert w + s == s;
    } else {
      assert (w + s)[0] == w[0];
      assert (w + s)[1..] == w[1..] + s;
      SpaceRunOf(w[1..], s);
    }
  }

  lemma AfterSpacesOf(w: string, s: string)
    requires AllSpace(w)
    requires s == [] || !IsSpace(s[0])
    ensures AfterSpaces(w + s) == s
  {
    SpaceRunOf(w, s);
    assert (w + s)[|w|..] == s;
  }

  lemma GroupOfToken(tok: string, w: string, tail: string)
    requires tok != [] && NoSpace(tok)
    requires w != [] && AllSpace(w)
    ensures Group(tok + w + "eV" + tail) == Some(tok)
  {
    var u := "eV" + tail;
    var r := tok + (w + u);
    assert r == tok + w + "eV" + tail;
    TokenLengthOfWord(tok, w + u);
    var n := |tok|;
    assert EvAfter(r, n, n) by {
      assert r[n..] == w + u;
      assert u[0] == 'e';
      AfterSpacesOf(w, u);
      assert r[n..][SpaceRun(r[n..])..] == u;
      assert r[n + SpaceRun(r[n..])..] == u;
    }
    assert r[..n] == tok;
  }

  /** A line GULP prints as `<phrase> = <number> eV` yields exactly the number's text. */
  lemma MatchEnergyOfLine(w1: string, phrase: string, w2: string, w3: string, tok: string, w4: string, tail: string)
    requires AllSpace(w1) && AllSpace(w2) && AllSpace(w3) && AllSpace(w4)
    requires phrase != [] && !IsSpace(phrase[0])
    requires tok != [] && NoSpace(tok) && w4 != []
    ensures MatchEnergy(w1 + phrase + w2 + "=" + w3 + tok + w4 + "eV" + tail, phrase) == Some(tok)
  {
    var rest := tok + w4 + "eV" + tail;
    assert rest[0] == tok[0];
    assert w1 + phrase + w2 + "=" + w3 + tok + w4 + "eV" + tail
      == w1 + (phrase + (w2 + ("=" + (w3 + rest))));
    AfterEqualsOf(w1, phrase, w2, w3, rest);
    GroupOfToken(tok, w4, tail);
  }

  /** `\s*<phrase>\s*=\s*` consumes blanks, the phrase, blanks, `=` and blanks. */
  lemma AfterEqualsOf(w1: string, phrase: string, w2: string, w3: string, rest: string)
    requires AllSpace(w1) && AllSpace(w2) && AllSpace(w3)
    requires phrase != [] && !IsSpace(phrase[0])
    requires rest == [] || !IsSpace(rest[0])
    ensures AfterEquals(w1 + (phrase + (w2 + ("=" + (w3 + rest)))), phrase) == Some(rest)
  {
    var r3 := w3 + rest;
    var r2 := "=" + r3;
    var r0 := phrase + (w2 + r2);
    AfterSpacesOf(w1, r0);
    assert r0[..|phrase|] == phrase;
    assert r0[|phrase|..] == w2 + r2;
    AfterSpacesOf(w2, r2);
    assert r2[1..] == r3;
    AfterSpacesOf(w3, rest);
  }

  /** What `(\S+)\s*eV` captures is followed by blanks, `eV` and the rest of `r`. */
  lemma GroupSource(r: string) returns (w: string, tail: string)
    requires Group(r).Some?
    ensures AllSpace(w) && r == Group(r).value + w + "eV" + tail
  {
    var n := TokenLength(r);
    var k := GroupLength(r, n, n);
    var g := r[..k];
    if k == n {
      var m := SpaceRun(r[n..]);
      assert r[n..][..m] == r[n..n + m];
      w := r[n..n + m];
      tail := r[n + m + 2..];
      assert r[n + m..][..2] == "eV";
      assert r == r[..n] + r[n..n + m] + r[n + m..][..2] + r[n + m + 2..];
    } else {
      w := [];
      tail := r[k + 2..];
      assert r[k..][..2] == "eV";
      assert r == r[..k] + r[k..][..2] + r[k + 2..];
    }
  }

  /**
   * The converse of `MatchEnergyOfLine`: a line the pattern matches is blanks,
   * the phrase, blanks, `=`, blanks, the captured text, blanks, `eV` and a rest.
   */
  lemma MatchEnergySource(line: string, phrase: string)
      returns (w1: string, w2: string, w3: string, w4: string, tail: string)
    requires MatchEnergy(line, phrase).Some?
    ensures AllSpace(w1) && AllSpace(w2) && AllSpace(w3) && AllSpace(w4)
    ensures line == w1 + phrase + w2 + "=" + w3 + MatchEnergy(line, phrase).value + w4 + "eV" + tail
  {
    w1 := SpacesOf(line);
    var r0 := AfterSpaces(line);
    var r1 := Peel(r0, phrase);
    w2 := SpacesOf(r1);
    var r2 := AfterSpaces(r1);
    var r3 := Peel(r2, "=");
    w3 := SpacesOf(r3);
    var r4 := AfterSpaces(r3);
    assert AfterEquals(line, phrase) == Some(r4);
    w4, tail := GroupSource(r4);
    Regroup(line, w1, r0, phrase, r1, w2, r2, r3, w3, r4, Group(r4).value, w4, tail);
  }

  /** What follows the prefix `p` of `r`. */
  lemma Peel(r: string, p: string) returns (rest: string)
    requires StartsWith(r, p)
    ensures rest == r[|p|..] && r == p + rest
  {
    rest := r[|p|..];
    assert r == r[..|p|] + rest;
  }

  /** The blanks a greedy `\s*` consumes, followed by what it leaves. */
  lemma SpacesOf(s: string) returns (w: string)
    ensures AllSpace(w) && s == w + AfterSpaces(s)
  {
    w := s[..SpaceRun(s)];
  }

  /** Reassociates the pieces `MatchEnergySource` peels off one at a time. */
  lemma Regroup(line: string, w1: string, r0: string, phrase: string, r1: string, w2: string,
                r2: string, r3: string, w3: string, r4: string, g: string, w4: string, tail: string)
    requires line == w1 + r0 && r0 == phrase + r1 && r1 == w2 + r2
    requires r2 == "=" + r3 && r3 == w3 + r4 && r4 == g + w4 + "eV" + tail
    ensures line == w1 + phrase + w2 + "=" + w3 + g + w4 + "eV" + tail
  {
  }

  /** A line the pattern matches contains the phrase, so the `find` test that
      guards the molecular reader's pattern never rejects a matching line. */
  lemma MatchEnergyContains(line: string, phrase: string)
    requires MatchEnergy(line, phrase).Some?
    ensures Contains(line, phrase)
  {
    var w := SpacesOf(line);
    assert StartsWith(AfterSpaces(line), phrase);
    OccursAfter(line, w, AfterSpaces(line), phrase);
    ContainsAt(line, phrase, |w|);
  }

  lemma OccursAfter(s: string, w: string, r: string, p: string)
    requires s == w + r && StartsWith(r, p)
    ensures OccursAt(s, p, |w|)
  {
    assert s[|w|..|w| + |p|] == r[..|p|];
  }
}

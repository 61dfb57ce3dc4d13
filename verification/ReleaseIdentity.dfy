/** Release identity scoring of app/release_family.py, in exact arithmetic. */
module ReleaseIdentity {
  import opened Wrappers
  import Decision

  /** What the files say; an empty string stands for no identifier. */
  datatype Observed = Observed(fileCount: int, titles: set<string>, artist: string, group: string)

  datatype Expected = Expected(releaseId: Option<string>, trackCount: int, titles: set<string>, artist: string, group: string)

  datatype Result = Result(decision: Decision.Identity, confidence: real, best: Option<string>, delta: Option<nat>, similarity: Option<real>)

  const SAME_RELEASE_THRESHOLD := 95.0
  const SAME_FAMILY_THRESHOLD := 80.0

  function Delta(o: Observed, e: Expected): nat {
    if e.trackCount >= o.fileCount then e.trackCount - o.fileCount else o.fileCount - e.trackCount
  }

  /** Both sides have titles to compare. */
  predicate Comparable(o: Observed, e: Expected) { o.titles != {} && e.titles != {} }

  function Matches(o: Observed, e: Expected): (m: nat)
    ensures m <= |o.titles|
  {
    var both := o.titles * e.titles;
    assert |o.titles| == |both| + |o.titles - both| by { assert o.titles == both + (o.titles - both); }
    |both|
  }

  function CountScore(delta: nat): (r: nat)
    ensures r <= 100
  {
    if delta >= 10 then 0 else 100 - 10 * delta
  }

  function Similarity(o: Observed, e: Expected): (r: real)
    requires o.titles != {}
    ensures 0.0 <= r <= 1.0 && r * (|o.titles| as real) == Matches(o, e) as real
  {
    Ratio(Matches(o, e), |o.titles|)
  }

  function Ratio(m: nat, n: nat): (r: real)
    requires m <= n && n > 0
    ensures 0.0 <= r <= 1.0 && r * (n as real) == m as real
  {
    var r := (m as real) / (n as real);
    assert r * (n as real) == m as real;
    RatioBounds(r, m, n);
    r
  }

  lemma RatioBounds(r: real, m: nat, n: nat)
    requires m <= n && n > 0 && r * (n as real) == m as real
    ensures 0.0 <= r <= 1.0
  {
    if r > 1.0 { assert r * (n as real) > n as real; }
  }

  /** `score_release_match`. */
  function Score(o: Observed, e: Expected): (r: real)
    ensures 0.0 <= r <= 100.0
  {
    var name := if Comparable(o, e) then Similarity(o, e) * 100.0 else 50.0;
    (CountScore(Delta(o, e)) as real) * 0.4 + name * 0.6
  }

  // ----- what the thresholds mean -----

  /** For every pair of releases, the default thresholds come to these conditions on
      whole numbers: titles on both sides, and a share of matched titles that grows
      with the difference in track count. Nothing reaches 80 with a difference over 5,
      or 95 with a difference over 1. */
  lemma Thresholds(o: Observed, e: Expected)
    ensures Score(o, e) >= SAME_FAMILY_THRESHOLD <==>
            Comparable(o, e) && Delta(o, e) <= 5 && 15 * Matches(o, e) >= (10 + Delta(o, e)) * |o.titles|
    ensures Score(o, e) >= SAME_RELEASE_THRESHOLD <==>
            Comparable(o, e) && Delta(o, e) <= 1 && 60 * Matches(o, e) >= (55 + 4 * Delta(o, e)) * |o.titles|
  {
    if Comparable(o, e) {
      var r, d, m, n := Similarity(o, e), Delta(o, e), Matches(o, e), |o.titles|;
      if d < 10 {
        assert Score(o, e) == 40.0 - 4.0 * (d as real) + 60.0 * r;
        Scaled(r, m, n, 10 + d, 15);
        Scaled(r, m, n, 55 + 4 * d, 60);
      } else {
        assert Score(o, e) <= 60.0;
      }
    }
  }

  /** Comparing a ratio with a fraction. */
  lemma Scaled(r: real, m: nat, n: nat, a: nat, b: nat)
    requires n > 0 && b > 0 && r * (n as real) == m as real
    ensures (b as real) * r >= a as real <==> b * m >= a * n
  {
    var x, y := (b as real) * r, a as real;
    assert x * (n as real) == (b * m) as real;
    assert y * (n as real) == (a * n) as real;
    if x >= y { assert x * (n as real) >= y * (n as real); } else { assert x * (n as real) < y * (n as real); }
  }

  // ----- the evaluation -----

  predicate Contradicts(o: Observed, e: Expected) {
    || (o.artist != "" && e.artist != "" && o.artist != e.artist)
    || (o.group != "" && e.group != "" && o.group != e.group)
  }

  predicate Insufficient(o: Observed, expected: seq<Expected>) {
    expected == [] || (o.fileCount <= 0 && o.titles == {})
  }

  /** The first release with the greatest score. */
  predicate FirstBest(o: Observed, expected: seq<Expected>, i: nat) {
    && i < |expected|
    && (forall k | 0 <= k < |expected| :: Score(o, expected[k]) <= Score(o, expected[i]))
    && (forall k | 0 <= k < i :: Score(o, expected[k]) < Score(o, expected[i]))
  }

  /** A stable descending sort, as the list of positions it takes. */
  predicate SortedStably(o: Observed, expected: seq<Expected>, order: seq<nat>) {
    && |order| == |expected| && (forall k | 0 <= k < |order| :: order[k] < |expected|)
    && (forall k | 0 <= k < |expected| :: k in order)
    && forall a, b | 0 <= a < b < |order| ::
         Score(o, expected[order[a]]) > Score(o, expected[order[b]])
         || (Score(o, expected[order[a]]) == Score(o, expected[order[b]]) && order[a] < order[b])
  }

  /** Its head is the first best. */
  lemma SortHead(o: Observed, expected: seq<Expected>, order: seq<nat>)
    requires expected != [] && SortedStably(o, expected, order)
    ensures FirstBest(o, expected, order[0])
  {
    hide Score;
    forall k | 0 <= k < |expected|
      ensures Score(o, expected[k]) <= Score(o, expected[order[0]])
      ensures k < order[0] ==> Score(o, expected[k]) < Score(o, expected[order[0]])
    {
      assert k in order;
      var b :| 0 <= b < |order| && order[b] == k;
    }
  }

  /** `evaluate_release_identity`. */
  method EvaluateReleaseIdentity(o: Observed, expected: seq<Expected>, current: Option<string>)
    returns (r: Result, best: nat)
    ensures r.decision.WrongAlbum? <==>
            exists e | e in expected ::
              || (o.artist != "" && e.artist != "" && o.artist != e.artist)
              || (o.group != "" && e.group != "" && o.group != e.group)
    ensures r.decision.WrongAlbum? ==> r.confidence == 100.0
    ensures r.decision.InsufficientEvidence? <==>
            !r.decision.WrongAlbum? && (expected == [] || (o.fileCount <= 0 && o.titles == {}))
    ensures r.decision.InsufficientEvidence? ==> r.confidence == 0.0
    ensures !r.decision.WrongAlbum? && !r.decision.InsufficientEvidence? ==>
              && FirstBest(o, expected, best)
              && r.confidence == Score(o, expected[best]) && r.best == expected[best].releaseId
              && r.delta == Some(Delta(o, expected[best]))
              && (r.decision.SameRelease? <==> expected[best].releaseId == current && r.confidence >= 95.0)
              && (r.decision.AmbiguousEdition? <==> r.confidence < 80.0)
    ensures 0.0 <= r.confidence <= 100.0
  {
    hide Score, Similarity;
    best := 0;
    var i := 0;
    while i < |expected|
      invariant 0 <= i <= |expected|
      invariant forall k | 0 <= k < i :: !Contradicts(o, expected[k])
    {
      if Contradicts(o, expected[i]) {
        assert expected[i] in expected;
        return Result(Decision.WrongAlbum, 100.0, expected[i].releaseId, None, None), i;
      }
      i := i + 1;
    }
    if Insufficient(o, expected) {
      return Result(Decision.InsufficientEvidence, 0.0, None, None, None), 0;
    }
    var top := Score(o, expected[0]);
    i := 1;
    while i < |expected|
      invariant 1 <= i <= |expected| && best < i && top == Score(o, expected[best])
      invariant forall k | 0 <= k < i :: Score(o, expected[k]) <= top
      invariant forall k | 0 <= k < best :: Score(o, expected[k]) < top
    {
      var score := Score(o, expected[i]);
      if score > top { top, best := score, i; }
      i := i + 1;
    }
    var e := expected[best];
    var decision :=
      if e.releaseId == current && top >= SAME_RELEASE_THRESHOLD then Decision.SameRelease
      else if top >= SAME_FAMILY_THRESHOLD then Decision.SameFamily
      else Decision.AmbiguousEdition;
    r := Result(decision, top, e.releaseId, Some(Delta(o, e)), if Comparable(o, e) then Some(Similarity(o, e)) else None);
  }

  /** What a positive identity guarantees about the best release: titles on both sides,
      at least two thirds of the observed ones in it and at most five tracks of
      difference; for the same release eleven twelfths and at most one track. */
  lemma PositiveIdentity(o: Observed, e: Expected, confidence: real)
    requires confidence == Score(o, e) && confidence >= 80.0
    ensures o.titles != {} && e.titles != {} && 3 * |o.titles * e.titles| >= 2 * |o.titles|
    ensures o.fileCount - 5 <= e.trackCount <= o.fileCount + 5
    ensures confidence >= 95.0 ==>
              12 * |o.titles * e.titles| >= 11 * |o.titles| && o.fileCount - 1 <= e.trackCount <= o.fileCount + 1
  {
    Thresholds(o, e);
    var d, m, n := Delta(o, e), Matches(o, e), |o.titles|;
    assert m == |o.titles * e.titles| && (d == e.trackCount - o.fileCount || d == o.fileCount - e.trackCount);
    hide Score, Matches, Delta;
    Shares(m, n, d);
  }

  lemma Shares(m: nat, n: nat, d: nat)
    ensures 15 * m >= (10 + d) * n ==> 3 * m >= 2 * n
    ensures 60 * m >= (55 + 4 * d) * n ==> 12 * m >= 11 * n
  {
    assert (10 + d) * n == 10 * n + d * n && (55 + 4 * d) * n == 55 * n + 4 * (d * n) && d * n >= 0;
  }
}

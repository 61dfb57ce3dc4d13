/** Album rollup and quality comparison of app/library_comparison.py, and the
    freshness view that app/server.py puts in front of it. */
module Comparison {
  import opened Wrappers

  datatype Issue = NoIssue | NonstandardTags | OtherIssue

  /** One `library_evidence` row. `integrityOk` and `authentic` are three-valued;
      `integrityKnown` says that the integrity tier has a verdict, which may be that
      the test does not apply. */
  datatype Row = Row(
    measured: bool,
    lossless: Option<bool>, depth: Option<int>, rate: Option<int>,
    integrityOk: Option<bool>, integrityKnown: bool, issue: Issue,
    spectral: bool, authentic: Option<bool>)

  datatype Quality = Quality(
    measuredCount: nat, trackCount: nat,
    allValid: bool, anyInvalid: bool, minTier: nat, allLossless: bool,
    anyFake: bool, authenticityKnown: bool, integrityKnown: bool)

  datatype Candidate = Candidate(valid: bool, authentic: bool, tier: nat, complete: bool, tierKnown: bool)

  datatype Verdict = Upgrade | Equivalent | Downgrade | Review

  /** What the caller adds: is the existing release incomplete, and which unverified
      axes may move the verdict. */
  datatype Policy = Policy(incomplete: bool, authenticity: bool, integrity: bool)

  function OrElse(x: Option<int>, default: int): int {
    if x.None? || x.value == 0 then default else x.value
  }

  function TierRank(lossless: Option<bool>, depth: Option<int>, rate: Option<int>): (t: nat)
    ensures t <= 3
    ensures t == 0 <==> lossless != Some(true)
  {
    if lossless != Some(true) then 0
    else if OrElse(depth, 16) >= 24 && OrElse(rate, 44100) > 48000 then 3
    else if OrElse(depth, 16) >= 24 then 2
    else 1
  }

  function Tier(r: Row): nat { TierRank(r.lossless, r.depth, r.rate) }

  predicate Bad(r: Row) { r.integrityOk == Some(false) }
  predicate Fake(r: Row) { r.spectral && r.authentic == Some(false) }

  // ----- rollup -----

  function Measured(rows: seq<Row>): (m: seq<Row>)
    ensures forall r :: r in m <==> r in rows && r.measured
  {
    if rows == [] then []
    else
      var front, last := rows[..|rows| - 1], rows[|rows| - 1];
      assert rows == front + [last];
      if last.measured then Measured(front) + [last] else Measured(front)
  }

  function MinTier(m: seq<Row>): (t: nat)
    requires m != []
    ensures exists r :: r in m && Tier(r) == t
    ensures forall r | r in m :: t <= Tier(r)
  {
    if |m| == 1 then assert m[0] in m; Tier(m[0])
    else
      var rest := MinTier(m[1..]);
      assert m == [m[0]] + m[1..];
      if Tier(m[0]) < rest then assert m[0] in m; Tier(m[0]) else rest
  }

  predicate AnyBad(m: seq<Row>) { exists r | r in m :: Bad(r) }
  predicate AnyFake(m: seq<Row>) { exists r | r in m :: Fake(r) }
  predicate AllSpectral(m: seq<Row>) { forall r | r in m :: r.spectral }
  predicate AllKnown(m: seq<Row>) { forall r | r in m :: r.integrityKnown }

  /** No measured row has an integrity question that is still open. */
  predicate IntegrityClosed(m: seq<Row>) { forall r | r in m :: r.integrityKnown || r.integrityOk.Some? }

  /** `album_quality`. */
  function AlbumQuality(rows: seq<Row>): Option<Quality> {
    var m := Measured(rows);
    if m == [] then None
    else Some(Quality(
      |m|, |rows|,
      forall r | r in m :: !Bad(r),
      AnyBad(m),
      MinTier(m),
      forall r | r in m :: r.lossless == Some(true),
      AnyFake(m),
      AllSpectral(m),
      AllKnown(m)))
  }

  /** `compare`. */
  function Compare(c: Candidate, existing: Option<Quality>, p: Policy): Verdict {
    if existing.None? then Review
    else
      var e := existing.value;
      if !c.valid then Downgrade
      else if !c.authentic then Review
      else if e.anyInvalid then Upgrade
      else if p.authenticity && e.anyFake then Upgrade
      else if !c.tierKnown then Review
      else if c.tier > e.minTier then Upgrade
      else if c.tier == e.minTier && c.complete && p.incomplete then Upgrade
      else if p.integrity && !e.integrityKnown then Review
      else if p.authenticity && !e.authenticityKnown then Review
      else if c.tier < e.minTier then Downgrade
      else Equivalent
  }

  function Judge(c: Candidate, rows: seq<Row>, p: Policy): Verdict {
    Compare(c, AlbumQuality(rows), p)
  }

  /** What the rollup says: nothing exactly when no row is measured; otherwise how many
      rows there are and are measured, whether one failed its integrity test or is known to
      be fake, whether every measured row is lossless, tested and listened to, and the worst
      tier. */
  lemma QualityMeans(rows: seq<Row>)
    ensures AlbumQuality(rows).None? <==> forall i | 0 <= i < |rows| :: !rows[i].measured
    ensures AlbumQuality(rows).Some? ==>
              var q := AlbumQuality(rows).value;
              && q.trackCount == |rows| && q.measuredCount == |MeasuredAt(rows)|
              && (q.anyInvalid <==> exists i | 0 <= i < |rows| :: rows[i].measured && rows[i].integrityOk == Some(false))
              && q.allValid == !q.anyInvalid
              && (q.allLossless <==> forall i | 0 <= i < |rows| && rows[i].measured :: rows[i].lossless == Some(true))
              && (q.anyFake <==> exists i | 0 <= i < |rows| :: rows[i].measured && rows[i].spectral && rows[i].authentic == Some(false))
              && (q.authenticityKnown <==> forall i | 0 <= i < |rows| && rows[i].measured :: rows[i].spectral)
              && (q.integrityKnown <==> forall i | 0 <= i < |rows| && rows[i].measured :: rows[i].integrityKnown)
              && (forall i | 0 <= i < |rows| && rows[i].measured :: q.minTier <= Tier(rows[i]))
              && (exists i | 0 <= i < |rows| :: rows[i].measured && q.minTier == Tier(rows[i]))
  {
    var m := Measured(rows);
    MeasuredSize(rows);
    assert forall i | 0 <= i < |rows| && rows[i].measured :: rows[i] in m;
    if m != [] {
      assert m[0] in m;
      var low :| low in m && Tier(low) == MinTier(m);
    }
    hide Measured, MinTier, Tier, MeasuredAt;
  }

  /** The positions of the measured rows. */
  function MeasuredAt(rows: seq<Row>): set<int> { set i | 0 <= i < |rows| && rows[i].measured }

  lemma MeasuredAtLast(rows: seq<Row>)
    requires rows != []
    ensures var n := |rows| - 1;
            && n !in MeasuredAt(rows[..n])
            && MeasuredAt(rows) == if rows[n].measured then MeasuredAt(rows[..n]) + {n} else MeasuredAt(rows[..n])
  {
  }

  lemma {:induction false} MeasuredSize(rows: seq<Row>)
    ensures |Measured(rows)| == |MeasuredAt(rows)|
  {
    if rows != [] {
      MeasuredSize(rows[..|rows| - 1]);
      MeasuredAtLast(rows);
      hide MeasuredAt;
    }
  }

  // ----- growth of evidence -----

  /** What a measured row may become: settled facts stay, open ones go either way. */
  predicate RowGrows(a: Row, b: Row) {
    a.measured ==>
      && b.measured && b.lossless == a.lossless && b.depth == a.depth && b.rate == a.rate
      && (a.integrityKnown ==> b.integrityKnown)
      && (a.integrityKnown || a.integrityOk.Some? ==> b.integrityOk == a.integrityOk)
      && (a.spectral ==> b.spectral && b.authentic == a.authentic)
  }

  /** Growth: measured rows grow, unmeasured ones may become anything, rows may be added. */
  predicate Grows(a: seq<Row>, b: seq<Row>) {
    |a| <= |b| && forall i | 0 <= i < |a| :: RowGrows(a[i], b[i])
  }

  /** Resolution: only the open questions of measured rows are answered. */
  predicate Resolves(a: seq<Row>, b: seq<Row>) {
    && |a| == |b|
    && forall i | 0 <= i < |a| :: RowGrows(a[i], b[i]) && (!a[i].measured ==> !b[i].measured)
  }

  predicate Settled(rows: seq<Row>) {
    forall i | 0 <= i < |rows| :: rows[i].measured ==> rows[i].integrityKnown && rows[i].spectral
  }

  /** An integrity verdict is only present where the integrity tier vouches for it. */
  predicate Coherent(rows: seq<Row>) {
    forall i | 0 <= i < |rows| :: rows[i].integrityOk.Some? ==> rows[i].integrityKnown
  }

  lemma GrowsKeepsDefects(a: seq<Row>, b: seq<Row>)
    requires Grows(a, b) && Measured(a) != []
    ensures Measured(b) != []
    ensures AnyBad(Measured(a)) ==> AnyBad(Measured(b))
    ensures AnyFake(Measured(a)) ==> AnyFake(Measured(b))
    ensures MinTier(Measured(b)) <= MinTier(Measured(a))
  {
    forall r | r in Measured(a) ensures exists q | q in Measured(b) :: RowGrows(r, q) {
      var i :| 0 <= i < |a| && a[i] == r;
      assert b[i] in b && RowGrows(a[i], b[i]);
    }
    assert Measured(a)[0] in Measured(a);
    var low :| low in Measured(a) && Tier(low) == MinTier(Measured(a));
    var q :| q in Measured(b) && RowGrows(low, q);
    assert Tier(q) == Tier(low);
  }

  /** An upgrade is safe: whatever the open questions turn out to be, whatever is
      measured later and whatever rows are added, it stays an upgrade. */
  lemma UpgradeSurvives(c: Candidate, a: seq<Row>, b: seq<Row>, p: Policy)
    requires Grows(a, b) && Judge(c, a, p) == Upgrade
    ensures Judge(c, b, p) == Upgrade
  {
    GrowsKeepsDefects(a, b);
    hide AnyBad, AnyFake, Grows;
  }

  lemma ResolvesGrows(a: seq<Row>, b: seq<Row>)
    requires Resolves(a, b)
    ensures Grows(a, b) && (Measured(a) == [] <==> Measured(b) == [])
    ensures Measured(a) != [] ==> MinTier(Measured(b)) == MinTier(Measured(a))
  {
    if Measured(b) != [] {
      assert Measured(b)[0] in b;
      var i :| 0 <= i < |b| && b[i].measured;
      assert a[i].measured && a[i] in Measured(a);
      GrowsKeepsDefects(a, b);
      var low :| low in Measured(b) && Tier(low) == MinTier(Measured(b));
      var k :| 0 <= k < |b| && b[k] == low;
      assert a[k] in Measured(a) && RowGrows(a[k], b[k]);
    } else if Measured(a) != [] {
      GrowsKeepsDefects(a, b);
    }
  }

  /** Every row of `b` grew from one of `a`. */
  predicate Traced(a: seq<Row>, b: seq<Row>) {
    forall q | q in b :: exists r | r in a :: RowGrows(r, q)
  }

  lemma ResolvesTraced(a: seq<Row>, b: seq<Row>)
    requires Resolves(a, b)
    ensures Traced(Measured(a), Measured(b))
  {
    forall q | q in Measured(b) ensures exists r | r in Measured(a) :: RowGrows(r, q) {
      var i :| 0 <= i < |b| && b[i] == q;
      assert a[i] in Measured(a) && RowGrows(a[i], b[i]);
    }
  }

  /** Questions that are closed everywhere stay closed, with the same answer. */
  lemma IntegrityStays(a: seq<Row>, b: seq<Row>)
    requires Traced(a, b) && forall r | r in a :: r.measured
    ensures IntegrityClosed(a) && AnyBad(b) ==> AnyBad(a)
    ensures AllKnown(a) ==> AllKnown(b)
  {
  }

  lemma AuthenticityStays(a: seq<Row>, b: seq<Row>)
    requires Traced(a, b) && forall r | r in a :: r.measured
    ensures AllSpectral(a) && AnyFake(b) ==> AnyFake(a)
    ensures AllSpectral(a) ==> AllSpectral(b)
  {
  }

  // ----- when a verdict other than review is stable -----

  lemma ClosedIsStable(c: Candidate, a: seq<Row>, b: seq<Row>, p: Policy)
    requires Resolves(a, b) && Judge(c, a, p) != Review
    requires !c.valid || IntegrityClosed(Measured(a))
    ensures Judge(c, b, p) == Judge(c, a, p)
  {
    if Judge(c, a, p) == Upgrade {
      ResolvesGrows(a, b);
      UpgradeSurvives(c, a, b, p);
    } else {
      ResolvesGrows(a, b);
      ResolvesTraced(a, b);
      IntegrityStays(Measured(a), Measured(b));
      AuthenticityStays(Measured(a), Measured(b));
      hide Measured, MinTier, AnyBad, AnyFake, AllSpectral, AllKnown, IntegrityClosed, Traced, Resolves, Grows;
    }
  }

  /** The row with every open question answered as given. */
  function Answer(r: Row, intact: bool, genuine: bool): Row {
    r.(integrityKnown := true,
       integrityOk := if r.integrityKnown || r.integrityOk.Some? then r.integrityOk else Some(intact),
       spectral := true,
       authentic := if r.spectral then r.authentic else Some(genuine))
  }

  function AnswerAll(rows: seq<Row>, intact: bool, genuine: bool): (r: seq<Row>)
    ensures |r| == |rows| && forall i | 0 <= i < |rows| :: r[i] == Answer(rows[i], intact, genuine)
  {
    seq(|rows|, i requires 0 <= i < |rows| => Answer(rows[i], intact, genuine))
  }

  /** The best and the worst answers: with the best, nothing new is wrong; with the
      worst, every open question is a defect. */
  lemma Answered(rows: seq<Row>, good: bool)
    ensures var t := AnswerAll(rows, good, good);
            && Resolves(rows, t) && Settled(t)
            && AllKnown(Measured(t)) && AllSpectral(Measured(t))
            && (good && !AnyBad(Measured(rows)) ==> !AnyBad(Measured(t)))
            && (good && !AnyFake(Measured(rows)) ==> !AnyFake(Measured(t)))
            && (!good && !IntegrityClosed(Measured(rows)) ==> AnyBad(Measured(t)))
            && (!good && !AllSpectral(Measured(rows)) ==> AnyFake(Measured(t)))
  {
    var t := AnswerAll(rows, good, good);
    forall q | q in Measured(t) ensures exists r | r in Measured(rows) :: q == Answer(r, good, good) {
      var i :| 0 <= i < |t| && t[i] == q;
      assert rows[i] in Measured(rows);
    }
    forall r | r in Measured(rows) ensures Answer(r, good, good) in Measured(t) {
      var i :| 0 <= i < |rows| && rows[i] == r;
      assert t[i] in t;
    }
  }

  /** For any policy, a verdict other than review holds under every way of answering
      the open questions if and only if it is an upgrade, or the candidate is invalid,
      or no measured row has an open integrity question. */
  lemma StableIff(c: Candidate, a: seq<Row>, p: Policy)
    requires Judge(c, a, p) != Review
    ensures (forall b | Resolves(a, b) :: Judge(c, b, p) == Judge(c, a, p)) <==>
            (Judge(c, a, p) == Upgrade || !c.valid || IntegrityClosed(Measured(a)))
  {
    if Judge(c, a, p) == Upgrade {
      forall b | Resolves(a, b) ensures Judge(c, b, p) == Upgrade {
        ResolvesGrows(a, b);
        UpgradeSurvives(c, a, b, p);
      }
    } else if !c.valid || IntegrityClosed(Measured(a)) {
      forall b | Resolves(a, b) ensures Judge(c, b, p) == Judge(c, a, p) {
        ClosedIsStable(c, a, b, p);
      }
    } else {
      var b := AnswerAll(a, false, false);
      Answered(a, false);
      ResolvesGrows(a, b);
      assert Resolves(a, b) && Judge(c, b, p) == Upgrade;
    }
  }

  /** With both axes considered the comparison abstains exactly when it must: a verdict
      other than review is given if and only if every complete set of answers to the
      open questions leads to that verdict. */
  lemma AbstainsExactly(c: Candidate, a: seq<Row>, p: Policy, v: Verdict)
    requires p.authenticity && p.integrity && Coherent(a) && v != Review
    ensures Judge(c, a, p) == v <==> forall b | Resolves(a, b) && Settled(b) :: Judge(c, b, p) == v
  {
    Answered(a, true);
    Answered(a, false);
    if Judge(c, a, p) == v {
      StableIff(c, a, p);
      CoherentClosed(a);
      hide Measured, MinTier, AnyBad, AnyFake, AllSpectral, AllKnown, IntegrityClosed, Resolves, Settled;
    } else if Judge(c, a, p) != Review {
      StableIff(c, a, p);
      CoherentClosed(a);
      var b := AnswerAll(a, true, true);
      assert Resolves(a, b) && Settled(b) && Judge(c, b, p) != v by {
        hide Measured, MinTier, AnyBad, AnyFake, AllSpectral, AllKnown, IntegrityClosed, Resolves, Settled;
      }
    } else {
      ReviewIsOpen(c, a, p);
    }
  }

  lemma CoherentClosed(a: seq<Row>)
    requires Coherent(a)
    ensures IntegrityClosed(Measured(a)) <==> AllKnown(Measured(a))
  {
  }

  lemma ReviewIsOpen(c: Candidate, a: seq<Row>, p: Policy)
    requires p.authenticity && p.integrity && Coherent(a) && Judge(c, a, p) == Review
    ensures var good, bad := AnswerAll(a, true, true), AnswerAll(a, false, false);
            && Resolves(a, good) && Settled(good) && Resolves(a, bad) && Settled(bad)
            && Judge(c, good, p) != Upgrade
            && (Judge(c, good, p) == Review || Judge(c, bad, p) == Upgrade)
  {
    var good, bad := AnswerAll(a, true, true), AnswerAll(a, false, false);
    Answered(a, true);
    Answered(a, false);
    ResolvesGrows(a, good);
    ResolvesGrows(a, bad);
    CoherentClosed(a);
    hide Measured, MinTier, AnyBad, AnyFake, AllSpectral, AllKnown, IntegrityClosed, Resolves, Settled, AnswerAll, Grows;
  }

  // ----- what the verdicts mean on settled evidence -----

  datatype Order = Less | Equal | Greater

  function Lexicographic(a: seq<nat>, b: seq<nat>): Order
    requires |a| == |b|
  {
    if a == [] then Equal
    else if a[0] < b[0] then Less
    else if a[0] > b[0] then Greater
    else Lexicographic(a[1..], b[1..])
  }

  function Bit(b: bool): nat { if b then 1 else 0 }

  /** The axes by precedence: validity, authenticity, tier, completeness. A candidate is
      never held to be less complete than the release it is to replace. */
  function CandidateVector(c: Candidate, p: Policy): seq<nat> {
    [1, 1, c.tier, Bit(c.complete || !p.incomplete)]
  }

  function ExistingVector(m: seq<Row>, p: Policy): seq<nat>
    requires m != []
  {
    [Bit(!AnyBad(m)), Bit(!AnyFake(m)), MinTier(m), Bit(!p.incomplete)]
  }

  /** On settled evidence with both axes considered, a valid and authentic candidate of
      known tier is judged by the lexicographic order of the two vectors. Together with
      `AbstainsExactly` this determines every verdict on such a candidate. */
  lemma SettledIsLexicographic(c: Candidate, rows: seq<Row>, p: Policy)
    requires Measured(rows) != [] && Settled(rows) && p.authenticity && p.integrity
    requires c.valid && c.authentic && c.tierKnown
    ensures Judge(c, rows, p) ==
            match Lexicographic(CandidateVector(c, p), ExistingVector(Measured(rows), p))
            case Greater => Upgrade
            case Equal => Equivalent
            case Less => Downgrade
  {
    var m := Measured(rows);
    assert AllKnown(m) && AllSpectral(m);
    var a, b := CandidateVector(c, p), ExistingVector(m, p);
    LexicographicOfFour(a, b);
    hide Measured, MinTier, AnyBad, AnyFake, AllKnown, AllSpectral, Settled, Lexicographic;
  }

  lemma LexicographicOfFour(a: seq<nat>, b: seq<nat>)
    requires |a| == 4 && |b| == 4
    ensures Lexicographic(a, b) ==
            if a[0] != b[0] then if a[0] < b[0] then Less else Greater
            else if a[1] != b[1] then if a[1] < b[1] then Less else Greater
            else if a[2] != b[2] then if a[2] < b[2] then Less else Greater
            else if a[3] != b[3] then if a[3] < b[3] then Less else Greater
            else Equal
  {
    assert a[1..][1..] == a[2..] && b[1..][1..] == b[2..];
    assert a[2..][1..] == a[3..] && b[2..][1..] == b[3..];
    assert a[3..][1..] == [] && b[3..][1..] == [];
    assert Lexicographic(a[3..], b[3..]) == if a[3] < b[3] then Less else if a[3] > b[3] then Greater else Equal;
    assert Lexicographic(a[2..], b[2..]) ==
           if a[2] < b[2] then Less else if a[2] > b[2] then Greater else Lexicographic(a[3..], b[3..]);
  }

  /** The measured properties of a file. */
  datatype Format = Format(lossless: Option<bool>, depth: Option<int>, rate: Option<int>)

  /** Lossless, at least 24 bits, and of those more than 48 kHz; a depth or rate that is
      missing or zero counts as 16 bits and 44100 Hz. */
  function FormatVector(f: Format): seq<nat> {
    var lossless := f.lossless == Some(true);
    var deep := f.depth.Some? && f.depth.value >= 24;
    var fast := f.rate.Some? && f.rate.value > 48000;
    [Bit(lossless), Bit(lossless && deep), Bit(lossless && deep && fast)]
  }

  function RankOf(f: Format): nat { TierRank(f.lossless, f.depth, f.rate) }

  /** One file ranks above another exactly when its vector is greater. */
  lemma TierOrder(f: Format, g: Format)
    ensures (RankOf(f) > RankOf(g) <==> Lexicographic(FormatVector(f), FormatVector(g)).Greater?)
    ensures (RankOf(f) == RankOf(g) <==> Lexicographic(FormatVector(f), FormatVector(g)).Equal?)
  {
    var a, b := FormatVector(f), FormatVector(g);
    assert a[1..][1..] == a[2..] && b[1..][1..] == b[2..] && a[2..][1..] == [] && b[2..][1..] == [];
    assert Lexicographic(a[2..], b[2..]) == if a[2] < b[2] then Less else if a[2] > b[2] then Greater else Equal;
    assert Lexicographic(a[1..], b[1..]) ==
           if a[1] < b[1] then Less else if a[1] > b[1] then Greater else Lexicographic(a[2..], b[2..]);
  }

  /** Against an existing release whose tracks are all of one format, intact and genuine,
      a usable candidate is judged by the formats, and by completeness between equals. */
  lemma JudgedByFormat(c: Candidate, f: Format, g: Format, rows: seq<Row>, p: Policy)
    requires Measured(rows) != [] && Settled(rows) && p.authenticity && p.integrity
    requires c.valid && c.authentic && c.tierKnown && c.tier == RankOf(f)
    requires forall r | r in Measured(rows) ::
               Format(r.lossless, r.depth, r.rate) == g && r.integrityOk != Some(false) && r.authentic != Some(false)
    ensures Judge(c, rows, p) ==
            match Lexicographic(FormatVector(f), FormatVector(g))
            case Greater => Upgrade
            case Less => Downgrade
            case Equal => if c.complete && p.incomplete then Upgrade else Equivalent
  {
    var m := Measured(rows);
    TierOrder(f, g);
    TierOrder(g, f);
    Antisymmetric(FormatVector(f), FormatVector(g));
    assert MinTier(m) == RankOf(g) && !AnyBad(m) && !AnyFake(m) && AllKnown(m) && AllSpectral(m);
    hide Measured, MinTier, AnyBad, AnyFake, AllKnown, AllSpectral, Lexicographic, FormatVector, RankOf;
  }

  lemma {:induction false} Antisymmetric(a: seq<nat>, b: seq<nat>)
    requires |a| == |b|
    ensures Lexicographic(a, b).Less? <==> Lexicographic(b, a).Greater?
    ensures Lexicographic(a, b).Greater? <==> Lexicographic(b, a).Less?
  {
    if a != [] { Antisymmetric(a[1..], b[1..]); }
  }

  /** Hi-res beats CD, and CD does not beat hi-res. */
  lemma HiResAndCd(c: Candidate, rows: seq<Row>, p: Policy, upgrade: bool)
    requires Measured(rows) != [] && Settled(rows) && p.authenticity && p.integrity && c.valid && c.authentic && c.tierKnown
    requires var hi, cd := Format(Some(true), Some(24), Some(96000)), Format(Some(true), Some(16), Some(44100));
             && c.tier == RankOf(if upgrade then hi else cd)
             && forall r | r in Measured(rows) ::
                  && Format(r.lossless, r.depth, r.rate) == (if upgrade then cd else hi)
                  && r.integrityOk != Some(false) && r.authentic != Some(false)
    ensures Judge(c, rows, p) == if upgrade then Upgrade else Downgrade
  {
    var hi, cd := Format(Some(true), Some(24), Some(96000)), Format(Some(true), Some(16), Some(44100));
    JudgedByFormat(c, if upgrade then hi else cd, if upgrade then cd else hi, rows, p);
    assert FormatVector(hi) == [1, 1, 1] && FormatVector(cd) == [1, 0, 0];
    assert [1, 1, 1][1..] == [1, 1] && [1, 0, 0][1..] == [0, 0];
  }

  /** The other candidates, on any evidence: one that is invalid or not authentic never
      wins, and one whose tier is unknown wins only by repairing a defect. */
  lemma UnusableCandidate(c: Candidate, rows: seq<Row>, p: Policy)
    requires Measured(rows) != [] && !(c.valid && c.authentic && c.tierKnown)
    ensures Judge(c, rows, p) == Downgrade <==> !c.valid
    ensures Judge(c, rows, p) == Upgrade <==>
            c.valid && c.authentic && (AnyBad(Measured(rows)) || (p.authenticity && AnyFake(Measured(rows))))
    ensures Judge(c, rows, p) != Equivalent
  {
    hide Measured, MinTier, AnyBad, AnyFake;
  }

  // ----- the freshness view -----

  /** `_decision_evidence_view`: stale verdicts become open questions. */
  function View(r: Row, spectralFresh: bool, integrityFresh: bool): Row {
    var t := if spectralFresh then r else r.(spectral := false, authentic := None);
    if integrityFresh then t.(integrityKnown := r.issue != NonstandardTags)
    else t.(integrityKnown := false, integrityOk := None, issue := NoIssue)
  }

  /** What the integrity sensor writes: files with non-standard tags get no verdict. */
  predicate Sensed(r: Row) { r.issue == NonstandardTags ==> r.integrityOk.None? }

  datatype Fresh = Fresh(spectral: bool, integrity: bool)

  function ViewAll(rows: seq<Row>, age: seq<Fresh>): (r: seq<Row>)
    requires |rows| == |age|
    ensures |r| == |rows|
    ensures forall i | 0 <= i < |rows| :: r[i] == View(rows[i], age[i].spectral, age[i].integrity)
  {
    seq(|rows|, i requires 0 <= i < |rows| => View(rows[i], age[i].spectral, age[i].integrity))
  }

  /** What the view keeps of a row and what it opens again: each heavy tier by its own
      freshness, and everything else as it is. */
  lemma ViewIs(r: Row, spectralFresh: bool, integrityFresh: bool)
    ensures var v := View(r, spectralFresh, integrityFresh);
            && v.measured == r.measured && Format(v.lossless, v.depth, v.rate) == Format(r.lossless, r.depth, r.rate)
            && (v.spectral <==> spectralFresh && r.spectral) && (v.authentic == if spectralFresh then r.authentic else None)
            && (v.integrityOk == if integrityFresh then r.integrityOk else None)
            && (v.integrityKnown <==> integrityFresh && r.issue != NonstandardTags)
            && (Fake(v) <==> spectralFresh && Fake(r)) && (Bad(v) <==> integrityFresh && Bad(r))
  {
  }

  /** Every row of a view is coherent, and an upgrade decided on the view is one on the
      evidence as stored, were all of it still valid. */
  lemma ViewIsSafe(c: Candidate, rows: seq<Row>, age: seq<Fresh>, p: Policy)
    requires |rows| == |age| && forall i | 0 <= i < |rows| :: Sensed(rows[i])
    requires forall i | 0 <= i < |rows| :: rows[i].integrityKnown == (rows[i].issue != NonstandardTags)
    ensures Coherent(ViewAll(rows, age))
    ensures Judge(c, ViewAll(rows, age), p) == Upgrade ==> Judge(c, rows, p) == Upgrade
  {
    assert Grows(ViewAll(rows, age), rows);
    if Judge(c, ViewAll(rows, age), p) == Upgrade {
      UpgradeSurvives(c, ViewAll(rows, age), rows, p);
    }
  }
}

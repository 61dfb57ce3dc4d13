/** The rules of app/restore.py for a restore zip, member by member, and what an accepted
    zip leaves on a disk. */
module ZipRules {
  import opened Wrappers
  import opened MemberNames
  import opened RestorePlan
  import opened Backup

  lemma {:induction false} TotalAddsUp(a: seq<Member>, b: seq<Member>)
    ensures Total([]) == 0 && Total(a + b) == Total(a) + Total(b)
    ensures forall m: Member :: Total([m]) == m.size
  {
    forall m: Member ensures Total([m]) == m.size { assert [m][..0] == []; }
    if b == [] {
      assert a + b == a;
    } else {
      TotalAddsUp(a, b[..|b| - 1]);
      assert (a + b)[..|a + b| - 1] == a + b[..|b| - 1];
    }
  }

  /** A member that nothing is wrong with by itself. */
  predicate Fine(m: Member, fmt: Formats, lim: Limits) {
    && 0 <= m.size <= lim.maxEntry && !m.special && m.payload.Data? && Classify(m.name).Some?
    && match Classify(m.name).value
       case StateDb => fmt.sqliteOk(m.payload.bytes)
       case Sidecar(_) => fmt.jsonOk(m.payload.bytes)
       case Archive(_, _) => fmt.jsonOk(m.payload.bytes)
       case Log(_) => fmt.jsonlOk(m.payload.bytes)
  }

  predicate NamesDiffer(ms: seq<Member>) {
    forall i, j | 0 <= i < j < |ms| :: ms[i].name != ms[j].name
  }

  lemma {:induction false} ReadOwn(ms: seq<Member>, i: nat)
    requires i < |ms| && NamesDiffer(ms)
    ensures Seen(ms, ms[i].name) && Read(ms, ms[i].name) == ms[i].payload
  {
    assert ms[i].name == ms[i].name;
    if i < |ms| - 1 {
      var front := ms[..|ms| - 1];
      assert front[i] == ms[i];
      ReadOwn(front, i);
    }
  }

  lemma SeenBefore(ms: seq<Member>, i: nat)
    requires i < |ms|
    ensures Seen(ms[..i], ms[i].name) <==> exists j | 0 <= j < i :: ms[j].name == ms[i].name
  {
    if j :| 0 <= j < i && ms[j].name == ms[i].name { assert ms[..i][j].name == ms[i].name; }
  }

  lemma SoundIsFine(m: Member, total: int, fmt: Formats, lim: Limits)
    ensures Judge(m, false, total, m.payload, fmt, lim) == Sound <==> Fine(m, fmt, lim) && total <= lim.maxTotal
  {
    hide Classify;
  }

  lemma SoundIsFirst(m: Member, duplicate: bool, total: int, payload: Payload, fmt: Formats, lim: Limits)
    requires Judge(m, duplicate, total, payload, fmt, lim) == Sound
    ensures !duplicate && m.size >= 0
  {
    hide Classify;
  }

  lemma SoundNamesDiffer(ms: seq<Member>, fmt: Formats, lim: Limits)
    requires SoundUpTo(ms, fmt, lim, |ms|)
    ensures NamesDiffer(ms) && forall m | m in ms :: m.size >= 0
  {
    hide Judge, Classify, Read, Total;
    forall i | 0 <= i < |ms|
      ensures ms[i].size >= 0 && forall j | 0 <= j < i :: ms[j].name != ms[i].name
    {
      assert FaultAt(ms, fmt, lim, i) == Sound;
      SeenBefore(ms, i);
      SoundIsFirst(ms[i], Seen(ms[..i], ms[i].name), Total(ms[..i + 1]), Read(ms, ms[i].name), fmt, lim);
    }
  }

  lemma FaultIsFine(ms: seq<Member>, fmt: Formats, lim: Limits, i: nat)
    requires i < |ms| && NamesDiffer(ms)
    ensures FaultAt(ms, fmt, lim, i) == Sound <==> Fine(ms[i], fmt, lim) && Total(ms[..i + 1]) <= lim.maxTotal
  {
    ReadOwn(ms, i);
    SeenBefore(ms, i);
    SoundIsFine(ms[i], Total(ms[..i + 1]), fmt, lim);
    hide Judge, Fine, Classify, Read, Total;
  }

  /** A zip is accepted if and only if it is a zip of no more entries, and no more bytes in
      all, than the limits allow, no two members have the same name, and every member is a
      regular file of an allowed size, with a known name and readable content of that
      kind. The plan then lists the members in order. */
  lemma AcceptedByRules(zip: ZipFile, fmt: Formats, lim: Limits)
    ensures var v := Validate(zip, fmt, lim);
            v.Accepted? <==>
            && zip.Zip? && |zip.members| <= lim.maxEntries && NamesDiffer(zip.members)
            && (zip.members == [] || Total(zip.members) <= lim.maxTotal)
            && forall i | 0 <= i < |zip.members| :: Fine(zip.members[i], fmt, lim)
    ensures var v := Validate(zip, fmt, lim);
            v.Accepted? ==>
            && v.plan.total == Total(zip.members) && |v.plan.entries| == |zip.members|
            && (forall i | 0 <= i < |zip.members| ::
                  var m, e := zip.members[i], v.plan.entries[i];
                  e.name == m.name && e.size == m.size && Classify(m.name) == Some(e.target))
            && (v.plan.hasStateDb <==> exists i | 0 <= i < |zip.members| :: v.plan.entries[i].target == StateDb)
  {
    AcceptedIffAcceptable(zip, fmt, lim);
    if zip.Zip? {
      var ms := zip.members;
      if SoundUpTo(ms, fmt, lim, |ms|) { SoundNamesDiffer(ms, fmt, lim); }
      if NamesDiffer(ms) { SoundByRules(ms, fmt, lim); }
    }
    hide Validate, Classify, FaultAt, NamesDiffer, Total, Fine;
  }

  lemma SoundByRules(ms: seq<Member>, fmt: Formats, lim: Limits)
    requires NamesDiffer(ms)
    ensures SoundUpTo(ms, fmt, lim, |ms|) <==>
            && (ms == [] || Total(ms) <= lim.maxTotal)
            && forall i | 0 <= i < |ms| :: Fine(ms[i], fmt, lim)
  {
    forall i | 0 <= i < |ms|
      ensures FaultAt(ms, fmt, lim, i) == Sound <==> Fine(ms[i], fmt, lim) && Total(ms[..i + 1]) <= lim.maxTotal
    {
      FaultIsFine(ms, fmt, lim, i);
    }
    assert ms[..|ms|] == ms;
    if forall i | 0 <= i < |ms| :: Fine(ms[i], fmt, lim) {
      forall m | m in ms ensures m.size >= 0 { assert exists i | 0 <= i < |ms| :: ms[i] == m; }
      forall k | 0 <= k <= |ms| ensures Total(ms[..k]) <= Total(ms) { TotalMonotone(ms, k); }
    }
    hide FaultAt, Total;
    if ms != [] && SoundUpTo(ms, fmt, lim, |ms|) { assert FaultAt(ms, fmt, lim, |ms| - 1) == Sound; }
  }

  /** The last member for a target. */
  predicate LastFor(ms: seq<Member>, i: nat, t: Target) {
    && i < |ms| && Classify(ms[i].name) == Some(t)
    && forall j | i < j < |ms| :: Classify(ms[j].name) != Some(t)
  }

  lemma {:induction false} LastEntryIs(ms: seq<Member>, es: seq<Entry>, t: Target, n: nat, i: nat)
    requires n <= |es| <= |ms| && i < n && es[i].target == t
    requires forall k | 0 <= k < |es| :: es[k].name == ms[k].name
    requires forall j | i < j < n :: es[j].target != t
    ensures LastEntry(ms, es[..n], t) == Some(Delivered(ms, ms[i].name))
  {
    assert es[..n][..n - 1] == es[..n - 1];
    if i < n - 1 { LastEntryIs(ms, es, t, n - 1, i); }
  }

  /** Applying an accepted zip to any disk gives a target the bytes of its last member. */
  lemma AcceptedApplied(zip: ZipFile, fmt: Formats, lim: Limits, d: Disk, t: Target, i: nat)
    requires Validate(zip, fmt, lim).Accepted? && LastFor(zip.members, i, t)
    ensures zip.members[i].payload.Data?
    ensures Lookup(Apply(d, Writes(zip.members, Validate(zip, fmt, lim).plan)), At(t)) == Some(zip.members[i].payload.bytes)
  {
    var ms, plan := zip.members, Validate(zip, fmt, lim).plan;
    AcceptedByRules(zip, fmt, lim);
    assert Fine(ms[i], fmt, lim);
    ReadOwn(ms, i);
    hide Validate, Classify, Read, Apply, Writes, NamesDiffer, Total;
    assert plan.entries[..|ms|] == plan.entries;
    LastEntryIs(ms, plan.entries, t, |ms|, i);
    AppliedContent(d, ms, plan, At(t));
  }
}

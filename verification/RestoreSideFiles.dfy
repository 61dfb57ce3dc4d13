/** What becomes of the database's write-ahead log and shared-memory file in a restore.
    Their removal is best effort in `_apply_entries` of app/restore.py. */
module RestoreSideFiles {
  import opened Wrappers
  import opened MemberNames
  import opened RestorePlan
  import opened Backup
  import opened RestoreProtocol
  import opened RestoreBoot

  lemma {:induction false} DbEntry(ms: seq<Member>, es: seq<Entry>)
    ensures LastEntry(ms, es, StateDb).Some? <==> exists e | e in es :: e.target == StateDb
  {
    if es != [] {
      DbEntry(ms, es[..|es| - 1]);
      assert es == es[..|es| - 1] + [es[|es| - 1]];
    }
  }

  /** Over every run that ends with the workers started on a restored disk: a side file
      that was there at boot is there still if and only if the plan has no database, or
      every removal of that file failed. */
  lemma SideFileSurvivesIff(fmt: Formats, s: State, acts: seq<Action>, p: Path)
    requires Initial(s) && SideFile(p)
    requires var t := Run(fmt, s, acts); t.phase.Up? && t.phase.workers && t.phase.outcome.Applied?
    ensures var t := Run(fmt, s, acts);
            var plan, ws := t.phase.outcome.plan, Writes(t.phase.outcome.ms, t.phase.outcome.plan);
            && |t.oks| == |ws|
            && (p in t.upDisk <==>
                p in t.bootDisk && (!plan.hasStateDb || forall i | 0 <= i < |ws| && ws[i] == Remove(p) :: !t.oks[i]))
            && (p in t.upDisk ==> t.upDisk[p] == t.bootDisk[p])
  {
    WorkersSeeNoHalfRestore(fmt, s, acts);
    var t := Run(fmt, s, acts);
    hide Run, Writes, LastEntry;
    DbEntry(t.phase.outcome.ms, t.phase.outcome.plan.entries);
    assert Lookup(t.upDisk, p) == Left(t.bootDisk, t.oks, t.phase.outcome.ms, t.phase.outcome.plan, p);
  }

  // ----- a run that leaves the log behind -----

  function DbMember(bytes: Bytes): Member {
    Member(MemberName(StateDb), |bytes|, false, Data(bytes))
  }

  lemma SingleMember(m: Member)
    ensures Total([m]) == m.size && Seen([m], m.name) && !Seen([], m.name) && Read([m], m.name) == m.payload
  {
    assert [m][..0] == [] && [m][0].name == m.name;
    assert Total([]) == 0;
  }

  lemma DbMemberRead(bytes: Bytes)
    ensures var m := DbMember(bytes);
            && Total([m]) == |bytes| && Seen([m], m.name) && !Seen([], m.name)
            && Read([m], m.name) == Data(bytes) && Delivered([m], m.name) == bytes
            && Classify(m.name) == Some(StateDb)
  {
    WrittenNameReadBack(StateDb);
    hide Classify, MemberName, Total, Seen, Read;
    SingleMember(DbMember(bytes));
  }

  lemma DbMemberSound(fmt: Formats, bytes: Bytes, lim: Limits)
    requires fmt.sqliteOk(bytes) && |bytes| <= lim.maxEntry && |bytes| <= lim.maxTotal
    ensures FaultAt([DbMember(bytes)], fmt, lim, 0) == Sound
  {
    var ms := [DbMember(bytes)];
    DbMemberRead(bytes);
    hide Classify, MemberName, Read, Seen, Total;
    assert ms[..0] == [] && ms[..1] == ms;
  }

  lemma DbWritesOnly(ms: seq<Member>, plan: Plan, name: string, size: int)
    requires plan.entries == [Entry(name, size, StateDb)]
    ensures Writes(ms, plan) == [Put(At(StateDb), Delivered(ms, name)), Remove(Wal), Remove(Shm)]
  {
    hide Delivered;
    assert plan.entries[..0] == [];
    assert DbWrites(ms, []) == [] && EvidenceWrites(ms, []) == [];
  }

  lemma DbZipAccepted(fmt: Formats, bytes: Bytes, lim: Limits)
    requires fmt.sqliteOk(bytes) && 1 <= lim.maxEntries && |bytes| <= lim.maxEntry && |bytes| <= lim.maxTotal
    ensures var v := Validate(Zip([DbMember(bytes)]), fmt, lim);
            && v.Accepted?
            && Writes([DbMember(bytes)], v.plan) == [Put(At(StateDb), bytes), Remove(Wal), Remove(Shm)]
  {
    var m := DbMember(bytes);
    DbMemberRead(bytes);
    DbMemberSound(fmt, bytes, lim);
    AcceptedIffAcceptable(Zip([m]), fmt, lim);
    hide Classify, MemberName, Read, Seen, Total, FaultAt, Writes, Delivered, Validate;
    var plan := Validate(Zip([m]), fmt, lim).plan;
    assert plan.entries == [EntryOf(m)];
    DbWritesOnly([m], plan, m.name, m.size);
  }

  /** The boot of a host whose staged zip holds one database, with every write
      succeeding and the removals as `w` says. */
  predicate DatabaseBoot(fmt: Formats, s: State, w: World, bytes: Bytes) {
    && Initial(s) && IsStaged(s.marker) && s.marker.zip in s.zips && s.zips[s.marker.zip] == Zip([DbMember(bytes)])
    && fmt.sqliteOk(bytes) && 1 <= w.limits.maxEntries && |bytes| <= w.limits.maxEntry && |bytes| <= w.limits.maxTotal
    && w.enabled && w.readable && w.safetyOk && w.markOk && w.writeOk(0)
  }


  lemma StopAfterThree(ws: seq<Write>, ok: nat -> bool, bytes: Bytes)
    requires ws == [Put(At(StateDb), bytes), Remove(Wal), Remove(Shm)] && ok(0)
    ensures Stop(ws, ok) == 3
  {
    assert Stop(ws, ok, 3) == 3 && Stop(ws, ok, 2) == 3 && Stop(ws, ok, 1) == 3;
  }

  /** One operation that does not stop the apply. */
  lemma OneReplacement(s: State, ok: bool)
    requires s.phase.Replacing? && s.phase.next < |Writes(s.phase.ms, s.phase.plan)|
    requires ok || Writes(s.phase.ms, s.phase.plan)[s.phase.next].Remove?
    ensures var t := DoReplace(s, ok);
            && t.phase == s.phase.(next := s.phase.next + 1) && t.marker == s.marker
            && t.disk == if ok then Do(s.disk, Writes(s.phase.ms, s.phase.plan)[s.phase.next]) else s.disk
  {
    hide Writes, Do;
  }

  /** The three operations. */
  lemma ThreeReplacements(s: State, ok: nat -> bool, bytes: Bytes)
    requires s.phase.Replacing? && s.phase.next == 0 && ok(0)
    requires Writes(s.phase.ms, s.phase.plan) == [Put(At(StateDb), bytes), Remove(Wal), Remove(Shm)]
    ensures var t := DoReplace(DoReplace(DoReplace(s, ok(0)), ok(1)), ok(2));
            && t.phase == s.phase.(next := 3) && t.marker == s.marker
            && Lookup(t.disk, At(StateDb)) == Some(bytes) && (Wal in t.disk <==> Wal in s.disk && !ok(1))
  {
    hide Writes, DoReplace;
    OneReplacement(s, ok(0));
    var s1 := DoReplace(s, ok(0));
    OneReplacement(s1, ok(1));
    OneReplacement(DoReplace(s1, ok(1)), ok(2));
  }

  /** Three operations and the finish. */
  lemma ReplaceThree(fmt: Formats, s: State, w: World, bytes: Bytes)
    requires s.phase.Replacing? && s.phase.next == 0 && s.marker.Marker? && w.writeOk(0)
    requires Writes(s.phase.ms, s.phase.plan) == [Put(At(StateDb), bytes), Remove(Wal), Remove(Shm)]
    ensures var t := Run(fmt, s, ReplaceActs(Writes(s.phase.ms, s.phase.plan), w));
            && t.phase.Up? && t.phase.workers
            && Lookup(t.upDisk, At(StateDb)) == Some(bytes)
            && (Wal in t.upDisk <==> Wal in s.disk && !w.writeOk(1))
  {
    var ws, ok := Writes(s.phase.ms, s.phase.plan), w.writeOk;
    var s1 := DoReplace(s, ok(0));
    var s2 := DoReplace(s1, ok(1));
    var s3 := DoReplace(s2, ok(2));
    hide Run, Step, Turns, Stop, Writes, DoReplace, DoFinish;
    StopAfterThree(ws, ok, bytes);
    NoTurns(fmt, s, ok);
    OneTurn(fmt, s, ok, 0);
    OneTurn(fmt, s, ok, 1);
    OneTurn(fmt, s, ok, 2);
    ReplaceOneStep(fmt, s, ok(0));
    ReplaceOneStep(fmt, s1, ok(1));
    ReplaceOneStep(fmt, s2, ok(2));
    assert Run(fmt, s, Turns(ok, 3)) == s3;
    RunOne(fmt, s, Turns(ok, 3), Finish(w.unlinks));
    FinishOneStep(fmt, s3, w.unlinks);
    ThreeReplacements(s, ok, bytes);
    FinishUp(s3, w.unlinks);
    FinishKeeps(s3, w.unlinks);
  }

  lemma FinishKeeps(s: State, u: Unlinks)
    requires s.phase.Replacing? && s.phase.next == |Writes(s.phase.ms, s.phase.plan)|
    ensures DoFinish(s, u).upDisk == s.disk
  {
    hide Writes;
  }

  lemma ReplaceOneStep(fmt: Formats, s: State, ok: bool)
    ensures Step(fmt, s, ReplaceNext(ok)) == DoReplace(s, ok)
  {
    hide DoReplace;
  }

  lemma FinishOneStep(fmt: Formats, s: State, u: Unlinks)
    ensures Step(fmt, s, Finish(u)) == DoFinish(s, u)
  {
    hide DoFinish;
  }

  /** From any initial host with a staged database, the boot ends with the workers
      started on the new database, and the old write-ahead log lies beside it if and
      only if there was one and its removal failed. */
  lemma StaleLogSurvives(fmt: Formats, s: State, w: World, bytes: Bytes)
    requires DatabaseBoot(fmt, s, w, bytes) && IsOrder(s.disk, w.order)
    ensures var t := Run(fmt, s, BootActs(fmt, s, w));
            && t.phase.Up? && t.phase.workers && Lookup(t.upDisk, At(StateDb)) == Some(bytes)
            && (Wal in t.upDisk <==> Wal in s.disk && !w.writeOk(1))
  {
    var a := PowerOn(w.enabled, w.readable, w.unlinks);
    DbZipAccepted(fmt, bytes, w.limits);
    BootBegins(s, w.enabled, w.readable, w.unlinks);
    OrderListed(s.disk, w.order);
    var s1 := Step(fmt, s, a);
    FirstStep(fmt, s, a);
    RunConcat(fmt, s, [a], PreflightActs(fmt, s1, w));
    PowerOnIs(fmt, s, w);
    hide Run, Step, Writes, Validate, BootBegin, PreflightActs, CommitActs, MarkActs, ReplaceActs, Members, IsOrder, Come, Drop;
    PreflightGoes(fmt, s1, w);
    Revalidates(fmt, s1, w);
    var s2 := Step(fmt, s1, Revalidate(w.limits, w.unlinks));
    Saves(fmt, s2, w);
    var s3 := Step(fmt, s2, WriteSafety(w.order, w.safetyOk, w.unlinks));
    Marks(fmt, s3, w);
    ReplaceThree(fmt, Step(fmt, s3, SetApplying(w.markOk, w.unlinks)), w, bytes);
  }

  lemma PowerOnIs(fmt: Formats, s: State, w: World)
    requires s.phase.Down?
    ensures Step(fmt, s, PowerOn(w.enabled, w.readable, w.unlinks)) == BootBegin(s, w.enabled, w.readable, w.unlinks)
  {
    hide BootBegin;
  }
}

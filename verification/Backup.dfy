/** `build_backup_zip` of app/backup.py and its round trip through validation and
    apply in app/restore.py. */
module Backup {
  import opened Wrappers
  import opened MemberNames
  import opened RestorePlan

  /** The files a backup takes: archive directories only give their "*.json". */
  predicate Kept(t: Target) {
    t.Archive? ==> EndsWith(t.file, JSON)
  }

  predicate Backed(d: Disk, t: Target) {
    At(t) in d && Kept(t)
  }

  /** File and directory names on a disk are single path components. */
  predicate PlainDisk(d: Disk) {
    forall p | p in d :: p.At? ==> PlainTarget(p.target)
  }

  /** The bytes a backup holds for a file: the database goes through the online
      backup, which folds the write-ahead log in. */
  function Image(fmt: Formats, d: Disk, t: Target): Bytes
    requires At(t) in d
  {
    if t == StateDb && Wal in d then fmt.merge(d[At(t)], d[Wal]) else d[At(t)]
  }

  predicate Distinct<T(==)>(s: seq<T>) {
    forall i, j | 0 <= i < j < |s| :: s[i] != s[j]
  }

  /** An order in which the backup may visit the files it takes. */
  ghost predicate IsOrder(d: Disk, order: seq<Target>) {
    && Distinct(order)
    && forall t :: t in order <==> Backed(d, t)
  }

  function MemberFor(fmt: Formats, d: Disk, t: Target): Member
    requires At(t) in d
  {
    Member(MemberName(t), |Image(fmt, d, t)|, false, Data(Image(fmt, d, t)))
  }

  function Members(fmt: Formats, d: Disk, order: seq<Target>): (ms: seq<Member>)
    requires forall t | t in order :: At(t) in d
    ensures |ms| == |order|
    ensures forall i | 0 <= i < |order| :: ms[i] == MemberFor(fmt, d, order[i])
  {
    if order == [] then []
    else Members(fmt, d, order[..|order| - 1]) + [MemberFor(fmt, d, order[|order| - 1])]
  }

  // ----- building the zip -----

  ghost predicate ListsSidecars(d: Disk, dirs: seq<string>) {
    Distinct(dirs) && forall s :: s in dirs <==> At(Sidecar(s)) in d
  }

  ghost predicate ListsShelf(d: Disk, shelf: Shelf, files: seq<string>) {
    Distinct(files) && forall s :: s in files <==> At(Archive(shelf, s)) in d && EndsWith(s, JSON)
  }

  const SHELVES: seq<Shelf> := [Blocked, Discarded, Expired]
  const LOGS: seq<LogFile> := [Decisions, SwitchAudit]

  /** `build_backup_zip`. The directory listings are the globs of the source. Every file of
      a kind that is backed up is one member, under its own name and with its own bytes,
      the database with its write-ahead log folded in. */
  method BuildBackupZip(fmt: Formats, d: Disk, dirs: seq<string>, files: map<Shelf, seq<string>>)
    returns (ms: seq<Member>, order: seq<Target>)
    requires ListsSidecars(d, dirs)
    requires forall shelf :: shelf in files && ListsShelf(d, shelf, files[shelf])
    ensures IsOrder(d, order) && ms == Members(fmt, d, order)
    ensures forall t :: t in order <==> At(t) in d && (t.Archive? ==> |t.file| >= 5 && t.file[|t.file| - 5..] == ".json")
    ensures |ms| == |order| && forall i, j | 0 <= i < j < |order| :: order[i] != order[j]
    ensures forall i | 0 <= i < |ms| ::
              && At(order[i]) in d && ms[i].name == MemberName(order[i]) && !ms[i].special
              && ms[i].payload == Data(if order[i] == StateDb && Wal in d then fmt.merge(d[At(StateDb)], d[Wal]) else d[At(order[i])])
              && ms[i].size == |ms[i].payload.bytes|
  {
    hide ListsShelf, ListsSidecars, MemberName;
    order := BackupOrder(d, dirs, files);
    ms := Members(fmt, d, order);
  }

  /** The files in the order in which they are written. */
  method BackupOrder(d: Disk, dirs: seq<string>, files: map<Shelf, seq<string>>) returns (order: seq<Target>)
    requires ListsSidecars(d, dirs)
    requires forall shelf :: shelf in files && ListsShelf(d, shelf, files[shelf])
    ensures IsOrder(d, order)
  {
    order := [];
    if At(StateDb) in d {
      order := [StateDb];
    }
    var i := 0;
    while i < |dirs|
      invariant 0 <= i <= |dirs|
      invariant Distinct(order)
      invariant forall t :: t in order <==>
        Backed(d, t) && (t == StateDb || (t.Sidecar? && t.jid in dirs[..i]))
    {
      assert dirs[i] !in dirs[..i] && dirs[..i + 1] == dirs[..i] + [dirs[i]];
      order := order + [Sidecar(dirs[i])];
      i := i + 1;
    }
    assert dirs[..i] == dirs;
    var k := 0;
    while k < |SHELVES|
      invariant 0 <= k <= |SHELVES|
      invariant Distinct(order)
      invariant forall t :: t in order <==>
        Backed(d, t) && (t == StateDb || t.Sidecar? || (t.Archive? && t.shelf in SHELVES[..k]))
    {
      order := AddShelf(d, order, SHELVES[k], files[SHELVES[k]]);
      assert SHELVES[..k + 1] == SHELVES[..k] + [SHELVES[k]];
      k := k + 1;
    }
    assert k == 3 && Blocked == SHELVES[0] && Discarded == SHELVES[1] && Expired == SHELVES[2];
    assert SHELVES[..k] == SHELVES && forall shelf: Shelf :: shelf in SHELVES by {
      forall shelf: Shelf ensures shelf in SHELVES {
        match shelf { case Blocked => case Discarded => case Expired => }
      }
    }
    k := 0;
    while k < |LOGS|
      invariant 0 <= k <= |LOGS|
      invariant Distinct(order)
      invariant forall t :: t in order <==> Backed(d, t) && (t.Log? ==> t.log in LOGS[..k])
    {
      assert LOGS[..k + 1] == LOGS[..k] + [LOGS[k]];
      if At(Log(LOGS[k])) in d {
        order := order + [Log(LOGS[k])];
      }
      k := k + 1;
    }
    assert Decisions == LOGS[0] && SwitchAudit == LOGS[1];
    assert LOGS[..k] == LOGS && forall log: LogFile :: log in LOGS by {
      forall log: LogFile ensures log in LOGS {
        match log { case Decisions => case SwitchAudit => }
      }
    }
  }

  method AddShelf(d: Disk, order: seq<Target>, shelf: Shelf, files: seq<string>) returns (r: seq<Target>)
    requires Distinct(order) && ListsShelf(d, shelf, files)
    requires forall t | t in order :: !(t.Archive? && t.shelf == shelf)
    ensures Distinct(r)
    ensures forall t :: t in r <==> t in order || (Backed(d, t) && t.Archive? && t.shelf == shelf)
  {
    r := order;
    var i := 0;
    while i < |files|
      invariant 0 <= i <= |files|
      invariant Distinct(r)
      invariant forall t :: t in r <==> t in order || (t.Archive? && t.shelf == shelf && t.file in files[..i])
    {
      assert files[i] !in files[..i] && files[..i + 1] == files[..i] + [files[i]];
      r := r + [Archive(shelf, files[i])];
      i := i + 1;
    }
    assert files[..i] == files;
  }

  // ----- the round trip -----

  /** When a backup of the disk passes validation: something the operator can
      check on the files before relying on the backup. */
  predicate Restorable(fmt: Formats, d: Disk, order: seq<Target>, lim: Limits)
    requires forall t | t in order :: At(t) in d
  {
    && |order| <= lim.maxEntries
    && (order == [] || Total(Members(fmt, d, order)) <= lim.maxTotal)
    && forall t | t in order ::
         Contained(t) && |Image(fmt, d, t)| <= lim.maxEntry && FormatOk(fmt, t, Image(fmt, d, t))
  }

  lemma {:induction false} TotalMonotone(ms: seq<Member>, i: nat)
    requires i <= |ms|
    requires forall m | m in ms :: m.size >= 0
    ensures Total(ms[..i]) <= Total(ms)
    decreases |ms|
  {
    if i == |ms| {
      assert ms[..i] == ms;
    } else {
      var front := ms[..|ms| - 1];
      assert ms[|ms| - 1] in ms;
      assert forall m | m in front :: m in ms;
      TotalMonotone(front, i);
      assert front[..i] == ms[..i];
    }
  }

  lemma {:induction false} ReadUnique(ms: seq<Member>, i: nat)
    requires i < |ms|
    requires forall j | 0 <= j < |ms| && j != i :: ms[j].name != ms[i].name
    ensures Seen(ms, ms[i].name) && Read(ms, ms[i].name) == ms[i].payload
    ensures !Seen(ms[..i], ms[i].name)
    decreases |ms|
  {
    if i < |ms| - 1 {
      ReadUnique(ms[..|ms| - 1], i);
      assert ms[..|ms| - 1][..i] == ms[..i];
    }
  }

  lemma BackupNamesDistinct(fmt: Formats, d: Disk, order: seq<Target>, i: nat, j: nat)
    requires PlainDisk(d) && IsOrder(d, order)
    requires i < |order| && j < |order| && i != j
    ensures Members(fmt, d, order)[i].name != Members(fmt, d, order)[j].name
  {
    assert Backed(d, order[i]) && Backed(d, order[j]);
    assert order[i] != order[j] by {
      if i < j { assert order[i] != order[j]; } else { assert order[j] != order[i]; }
    }
    if MemberName(order[i]) == MemberName(order[j]) {
      MemberNameInjective(order[i], order[j]);
    }
  }

  lemma BackupMemberRead(fmt: Formats, d: Disk, order: seq<Target>, i: nat)
    requires PlainDisk(d) && IsOrder(d, order) && i < |order|
    ensures var ms := Members(fmt, d, order);
            && Seen(ms, ms[i].name) && Read(ms, ms[i].name) == Data(Image(fmt, d, order[i]))
            && !Seen(ms[..i], ms[i].name)
  {
    var ms := Members(fmt, d, order);
    forall j | 0 <= j < |ms| && j != i ensures ms[j].name != ms[i].name {
      BackupNamesDistinct(fmt, d, order, i, j);
    }
    ReadUnique(ms, i);
  }

  lemma BackupFault(fmt: Formats, d: Disk, order: seq<Target>, lim: Limits, i: nat)
    requires PlainDisk(d) && IsOrder(d, order) && i < |order|
    ensures var t, ms := order[i], Members(fmt, d, order);
            FaultAt(ms, fmt, lim, i) == Sound <==>
            Contained(t) && |Image(fmt, d, t)| <= lim.maxEntry
            && Total(ms[..i + 1]) <= lim.maxTotal && FormatOk(fmt, t, Image(fmt, d, t))
  {
    hide Classify, MemberName;
    assert Backed(d, order[i]);
    BackupMemberRead(fmt, d, order, i);
    WrittenNameReadBack(order[i]);
  }

  lemma SoundMemberIsRestorable(fmt: Formats, d: Disk, order: seq<Target>, lim: Limits, i: nat)
    requires PlainDisk(d) && IsOrder(d, order) && i < |order|
    requires Acceptable(Zip(Members(fmt, d, order)), fmt, lim)
    ensures var t := order[i];
            && Contained(t) && |Image(fmt, d, t)| <= lim.maxEntry && FormatOk(fmt, t, Image(fmt, d, t))
            && Total(Members(fmt, d, order)[..i + 1]) <= lim.maxTotal
  {
    hide Classify, MemberName, Judge, Contained, FormatOk;
    assert FaultAt(Members(fmt, d, order), fmt, lim, i) == Sound;
    BackupFault(fmt, d, order, lim, i);
  }

  lemma SoundBackupIsRestorable(fmt: Formats, d: Disk, order: seq<Target>, lim: Limits)
    requires PlainDisk(d) && IsOrder(d, order)
    requires Acceptable(Zip(Members(fmt, d, order)), fmt, lim)
    ensures Restorable(fmt, d, order, lim)
  {
    hide Classify, MemberName, Judge, Contained, FormatOk, FaultAt, Image;
    var ms := Members(fmt, d, order);
    forall t | t in order
      ensures Contained(t) && |Image(fmt, d, t)| <= lim.maxEntry && FormatOk(fmt, t, Image(fmt, d, t))
    {
      var i :| 0 <= i < |order| && order[i] == t;
      SoundMemberIsRestorable(fmt, d, order, lim, i);
    }
    if order != [] {
      SoundMemberIsRestorable(fmt, d, order, lim, |order| - 1);
      assert ms[..|order|] == ms;
    }
  }

  lemma RestorableBackupIsSound(fmt: Formats, d: Disk, order: seq<Target>, lim: Limits)
    requires PlainDisk(d) && IsOrder(d, order) && Restorable(fmt, d, order, lim)
    ensures Acceptable(Zip(Members(fmt, d, order)), fmt, lim)
  {
    var ms := Members(fmt, d, order);
    forall i | 0 <= i < |ms| ensures FaultAt(ms, fmt, lim, i) == Sound {
      RestorableMemberIsSound(fmt, d, order, lim, i);
    }
  }

  lemma RestorableMemberIsSound(fmt: Formats, d: Disk, order: seq<Target>, lim: Limits, i: nat)
    requires PlainDisk(d) && IsOrder(d, order) && Restorable(fmt, d, order, lim) && i < |order|
    ensures FaultAt(Members(fmt, d, order), fmt, lim, i) == Sound
  {
    hide Classify, MemberName, Judge, Contained, FormatOk;
    assert order[i] in order;
    TotalMonotone(Members(fmt, d, order), i + 1);
    BackupFault(fmt, d, order, lim, i);
  }

  /** A backup is accepted by validation exactly when the disk is `Restorable`. */
  lemma BackupAcceptedIff(fmt: Formats, d: Disk, order: seq<Target>, lim: Limits)
    requires PlainDisk(d) && IsOrder(d, order)
    ensures Validate(Zip(Members(fmt, d, order)), fmt, lim).Accepted? <==> Restorable(fmt, d, order, lim)
  {
    hide Classify, MemberName, Judge, Contained, FormatOk;
    AcceptedIffAcceptable(Zip(Members(fmt, d, order)), fmt, lim);
    if Restorable(fmt, d, order, lim) {
      RestorableBackupIsSound(fmt, d, order, lim);
    } else if Acceptable(Zip(Members(fmt, d, order)), fmt, lim) {
      SoundBackupIsRestorable(fmt, d, order, lim);
    }
  }

  /** The entries of a backup's plan are its files, each with its image. */
  predicate PlanLists(fmt: Formats, d: Disk, order: seq<Target>, ms: seq<Member>, es: seq<Entry>)
    requires forall t | t in order :: At(t) in d
  {
    && |es| == |order|
    && forall i | 0 <= i < |order| ::
         es[i].target == order[i] && Delivered(ms, es[i].name) == Image(fmt, d, order[i])
  }

  lemma BackupPlan(fmt: Formats, d: Disk, order: seq<Target>, plan: Plan)
    requires PlainDisk(d) && IsOrder(d, order) && PlanOf(plan, Members(fmt, d, order))
    ensures PlanLists(fmt, d, order, Members(fmt, d, order), plan.entries)
  {
    hide Classify, MemberName;
    var ms := Members(fmt, d, order);
    forall i | 0 <= i < |order|
      ensures plan.entries[i].target == order[i] && Delivered(ms, plan.entries[i].name) == Image(fmt, d, order[i])
    {
      assert Backed(d, order[i]) && plan.entries[i] == EntryOf(ms[i]);
      WrittenNameReadBack(order[i]);
      BackupMemberRead(fmt, d, order, i);
    }
  }

  lemma {:induction false} BackupLastEntry(fmt: Formats, d: Disk, order: seq<Target>,
                                           ms: seq<Member>, es: seq<Entry>, t: Target, n: nat)
    requires forall u | u in order :: At(u) in d
    requires PlanLists(fmt, d, order, ms, es) && n <= |es|
    ensures LastEntry(ms, es[..n], t) == if t in order[..n] then Some(Image(fmt, d, t)) else None
  {
    if n > 0 {
      BackupLastEntry(fmt, d, order, ms, es, t, n - 1);
      assert es[..n][..n - 1] == es[..n - 1];
      assert order[..n] == order[..n - 1] + [order[n - 1]];
    }
  }

  /** Applying an accepted backup to any disk whatever gives every backed-up file
      the bytes it had, the database with its log folded in, removes the database side files exactly when a
      database was backed up, and changes nothing else. */
  lemma RoundTrip(fmt: Formats, d: Disk, order: seq<Target>, lim: Limits, e: Disk, p: Path)
    requires PlainDisk(d) && IsOrder(d, order) && Restorable(fmt, d, order, lim)
    ensures var ms := Members(fmt, d, order);
            var v := Validate(Zip(ms), fmt, lim);
            && v.Accepted?
            && Lookup(Apply(e, Writes(ms, v.plan)), p) ==
               if p in d && p.At? && (p.target.Archive? ==> |p.target.file| >= 5 && p.target.file[|p.target.file| - 5..] == ".json")
               then Some(if p.target == StateDb && Wal in d then fmt.merge(d[p], d[Wal]) else d[p])
               else if (p == Wal || p == Shm) && At(StateDb) in d then None
               else Lookup(e, p)
  {
    hide Classify, MemberName, Judge, Contained, FormatOk;
    var ms := Members(fmt, d, order);
    BackupAcceptedIff(fmt, d, order, lim);
    AcceptedIffAcceptable(Zip(ms), fmt, lim);
    var plan := Validate(Zip(ms), fmt, lim).plan;
    BackupPlan(fmt, d, order, plan);
    BackupApplied(fmt, d, order, ms, plan, e, p);
  }

  lemma BackupApplied(fmt: Formats, d: Disk, order: seq<Target>, ms: seq<Member>, plan: Plan, e: Disk, p: Path)
    requires IsOrder(d, order) && PlanLists(fmt, d, order, ms, plan.entries)
    ensures Lookup(Apply(e, Writes(ms, plan)), p) ==
            if p.At? && Backed(d, p.target) then Some(Image(fmt, d, p.target))
            else if SideFile(p) && At(StateDb) in d then None
            else Lookup(e, p)
  {
    assert order[..|order|] == order && plan.entries[..|order|] == plan.entries;
    BackupLastEntry(fmt, d, order, ms, plan.entries, StateDb, |order|);
    if p.At? {
      BackupLastEntry(fmt, d, order, ms, plan.entries, p.target, |order|);
    }
    AppliedContent(e, ms, plan, p);
  }

  /** One sidecar directory that is not a job id makes the whole backup unusable. */
  lemma StrayDirectorySpoilsBackup(fmt: Formats, d: Disk, order: seq<Target>, lim: Limits, dir: string)
    requires PlainDisk(d) && IsOrder(d, order)
    requires At(Sidecar(dir)) in d && !IsJid(dir)
    ensures !Validate(Zip(Members(fmt, d, order)), fmt, lim).Accepted?
  {
    BackupAcceptedIff(fmt, d, order, lim);
    assert Backed(d, Sidecar(dir));
  }
}

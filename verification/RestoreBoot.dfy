/** `apply_pending_restore` and `_apply_entries` of app/restore.py as they are
    written: fields changed one durable operation at a time. What the outside decides
    fixes the machine steps of a boot (`BootActs`), one for each durable operation;
    a crash inside this code is a crash after one of them. */
module RestoreBoot {
  import opened MemberNames
  import opened RestorePlan
  import opened Backup
  import opened RestoreProtocol

  /** What the outside world decides during one boot. */
  datatype World = World(
    enabled: bool,
    readable: bool,
    limits: Limits,
    order: seq<Target>,
    safetyOk: bool,
    markOk: bool,
    writeOk: nat -> bool,
    unlinks: Unlinks)

  // ----- the steps of a boot -----

  /** The first write that fails, or the end. A failed removal stops nothing. */
  function Stop(ws: seq<Write>, ok: nat -> bool, n: nat := 0): (k: nat)
    requires n <= |ws|
    ensures n <= k <= |ws| && (k < |ws| ==> ws[k].Put? && !ok(k))
    ensures forall i | n <= i < k :: ws[i].Put? ==> ok(i)
    decreases |ws| - n
  {
    if n == |ws| || (ws[n].Put? && !ok(n)) then n else Stop(ws, ok, n + 1)
  }

  function Turns(ok: nat -> bool, n: nat): (acts: seq<Action>)
    ensures |acts| == n && forall k | 0 <= k < n :: acts[k] == ReplaceNext(ok(k))
  {
    seq(n, k requires 0 <= k < n => ReplaceNext(ok(k)))
  }

  /** Every file operation in order, up to the first write that fails. */
  function EntryActs(ws: seq<Write>, ok: nat -> bool): seq<Action> {
    var k := Stop(ws, ok);
    Turns(ok, if k < |ws| then k + 1 else k)
  }

  function ReplaceActs(ws: seq<Write>, w: World): seq<Action> {
    EntryActs(ws, w.writeOk) + if Stop(ws, w.writeOk) < |ws| then [] else [Finish(w.unlinks)]
  }

  ghost function MarkActs(fmt: Formats, s: State, w: World): seq<Action> {
    var a := SetApplying(w.markOk, w.unlinks);
    var t := Step(fmt, s, a);
    if t.phase.Replacing? then [a] + ReplaceActs(Writes(t.phase.ms, t.phase.plan), w) else [a]
  }

  ghost function CommitActs(fmt: Formats, s: State, w: World): seq<Action> {
    var a := WriteSafety(w.order, w.safetyOk, w.unlinks);
    var t := Step(fmt, s, a);
    if t.phase.Saved? then [a] + MarkActs(fmt, t, w) else [a]
  }

  ghost function PreflightActs(fmt: Formats, s: State, w: World): seq<Action> {
    var a := Revalidate(w.limits, w.unlinks);
    var s1 := Step(fmt, s, a);
    if s1.phase.Planned? then [a] + CommitActs(fmt, s1, w) else [a]
  }

  /** The steps of the boot that `w` describes, from a machine that is down. */
  ghost function BootActs(fmt: Formats, s: State, w: World): seq<Action> {
    var a := PowerOn(w.enabled, w.readable, w.unlinks);
    var s1 := Step(fmt, s, a);
    if s1.phase.Checking? then [a] + PreflightActs(fmt, s1, w) else [a]
  }

  /** A boot reads the marker as `w` says and as often as it boots: once. */
  lemma BootIsFaithful(fmt: Formats, s: State, w: World)
    ensures Faithful(BootActs(fmt, s, w)) <==> w.readable
  {
    hide Step, Writes;
    var acts := BootActs(fmt, s, w);
    assert acts[0] == PowerOn(w.enabled, w.readable, w.unlinks) && acts[0] in acts;
  }

  /** The plan a boot would apply to these files. */
  predicate Applicable(fmt: Formats, zips: map<string, ZipFile>, zip: string, w: World) {
    zip in zips && zips[zip].Zip? && Validate(zips[zip], fmt, w.limits).Accepted? && w.safetyOk && w.markOk
  }

  /** Some file of the staged zip cannot be written. */
  predicate Breaks(fmt: Formats, zips: map<string, ZipFile>, zip: string, w: World)
    requires Applicable(fmt, zips, zip, w)
  {
    var ws := Writes(zips[zip].members, Validate(zips[zip], fmt, w.limits).plan);
    Stop(ws, w.writeOk) < |ws|
  }

  lemma RunOne(fmt: Formats, s: State, acts: seq<Action>, a: Action)
    ensures Run(fmt, s, acts + [a]) == Step(fmt, Run(fmt, s, acts), a)
  {
    assert (acts + [a])[..|acts|] == acts;
  }

  lemma {:induction false} RunConcat(fmt: Formats, s: State, xs: seq<Action>, ys: seq<Action>)
    ensures Run(fmt, s, xs + ys) == Run(fmt, Run(fmt, s, xs), ys)
  {
    if ys == [] {
      assert xs + ys == xs;
    } else {
      var front := ys[..|ys| - 1];
      assert (xs + ys)[..|xs + ys| - 1] == xs + front;
      RunConcat(fmt, s, xs, front);
    }
  }

  lemma {:induction false} DbWritesPrefix(ms: seq<Member>, es: seq<Entry>, i: nat)
    requires i <= |es|
    ensures DbWrites(ms, es[..i]) <= DbWrites(ms, es)
    decreases |es|
  {
    if i < |es| {
      DbWritesPrefix(ms, es[..|es| - 1], i);
      assert es[..|es| - 1][..i] == es[..i];
    } else {
      assert es[..i] == es;
    }
  }

  lemma {:induction false} EvidenceWritesPrefix(ms: seq<Member>, es: seq<Entry>, i: nat)
    requires i <= |es|
    ensures EvidenceWrites(ms, es[..i]) <= EvidenceWrites(ms, es)
    decreases |es|
  {
    if i < |es| {
      EvidenceWritesPrefix(ms, es[..|es| - 1], i);
      assert es[..|es| - 1][..i] == es[..i];
    } else {
      assert es[..i] == es;
    }
  }

  /** The writes of one database entry, in place in the whole list. */
  lemma DbTurn(ms: seq<Member>, plan: Plan, i: nat)
    requires i < |plan.entries|
    ensures var es, ws := plan.entries, Writes(ms, plan);
            var at := |DbWrites(ms, es[..i])|;
            if es[i].target == StateDb then
              && at + 3 == |DbWrites(ms, es[..i + 1])| <= |ws|
              && ws[at] == Put(At(StateDb), Delivered(ms, es[i].name))
              && ws[at + 1] == Remove(Wal) && ws[at + 2] == Remove(Shm)
            else at == |DbWrites(ms, es[..i + 1])| <= |ws|
  {
    var es := plan.entries;
    assert es[..i + 1][..i] == es[..i];
    DbWritesPrefix(ms, es, i + 1);
  }

  lemma EvidenceTurn(ms: seq<Member>, plan: Plan, i: nat)
    requires i < |plan.entries|
    ensures var es, ws := plan.entries, Writes(ms, plan);
            var at := |DbWrites(ms, es)| + |EvidenceWrites(ms, es[..i])|;
            var on := |DbWrites(ms, es)| + |EvidenceWrites(ms, es[..i + 1])|;
            && on <= |ws|
            && if es[i].target == StateDb then on == at
               else on == at + 1 && ws[at] == Put(At(es[i].target), Delivered(ms, es[i].name))
  {
    var es := plan.entries;
    assert es[..i + 1][..i] == es[..i];
    EvidenceWritesPrefix(ms, es, i + 1);
  }

  /** The first `n` operations had no failing write; `failed` says that the next is one. */
  predicate Halted(ws: seq<Write>, ok: nat -> bool, n: nat, failed: bool) {
    && n <= |ws| && (forall k | 0 <= k < n :: ws[k].Put? ==> ok(k))
    && (failed ==> n < |ws| && ws[n].Put? && !ok(n))
  }

  lemma HaltedNext(ws: seq<Write>, ok: nat -> bool, n: nat)
    requires Halted(ws, ok, n, false) && n < |ws|
    ensures if ws[n].Put? && !ok(n) then Halted(ws, ok, n, true) else Halted(ws, ok, n + 1, false)
  {
  }

  lemma StopIs(ws: seq<Write>, ok: nat -> bool, n: nat)
    ensures Halted(ws, ok, n, true) ==> Stop(ws, ok) == n
    ensures Halted(ws, ok, n, false) && n == |ws| ==> Stop(ws, ok) == n
  {
  }

  lemma NoTurns(fmt: Formats, s: State, ok: nat -> bool)
    ensures s == Run(fmt, s, Turns(ok, 0))
  {
  }

  lemma OneTurn(fmt: Formats, s: State, ok: nat -> bool, n: nat)
    ensures Run(fmt, s, Turns(ok, n + 1)) == Step(fmt, Run(fmt, s, Turns(ok, n)), ReplaceNext(ok(n)))
  {
    hide Step;
    RunOne(fmt, s, Turns(ok, n), ReplaceNext(ok(n)));
    assert Turns(ok, n + 1) == Turns(ok, n) + [ReplaceNext(ok(n))];
  }

  class Host {
    var marker: Marker
    var zips: map<string, ZipFile>
    var disk: Disk
    var safety: map<string, seq<Member>>
    ghost var model: State

    ghost predicate Valid()
      reads this
    {
      marker == model.marker && zips == model.zips && disk == model.disk && safety == model.safety
    }

    ghost predicate Ready(ms: seq<Member>, plan: Plan, n: nat)
      reads this
    {
      Valid() && model.phase == Replacing(ms, plan, n)
    }

    method Unlink(u: Unlinks)
      requires marker.Marker?
      modifies this`marker, this`zips
      ensures marker == (if u.marker then NoMarker else old(marker))
      ensures zips == (if u.zip then old(zips) - {old(marker.zip)} else old(zips))
    {
      if u.zip { zips := zips - {marker.zip}; }
      if u.marker { marker := NoMarker; }
    }

    /** `_atomic_write` or the unlink of a side file. */
    method WriteOne(fmt: Formats, ghost ms: seq<Member>, ghost plan: Plan, ghost n: nat, w: Write, ok: bool)
      returns (failed: bool)
      requires Ready(ms, plan, n) && n < |Writes(ms, plan)| && Writes(ms, plan)[n] == w
      modifies this`disk, this`model
      ensures model == Step(fmt, old(model), ReplaceNext(ok)) && Valid()
      ensures failed <==> !ok && w.Put?
      ensures failed ==> model.phase == Up(false, FailedPartial)
      ensures !failed ==> Ready(ms, plan, n + 1)
    {
      hide Writes, DoRevalidate, DoSafety, DoSetApplying, DoFinish, DoStageCommit, DoCancel, BootBegin, Do;
      failed := false;
      if ok {
        disk := Do(disk, w);
      } else if w.Put? {
        failed := true;
      }
      model := Step(fmt, model, ReplaceNext(ok));
    }

    /** The first `n` operations are done, as the machine does them from `s`. */
    ghost predicate Progress(fmt: Formats, s: State, ms: seq<Member>, plan: Plan, ok: nat -> bool, n: nat)
      reads this
    {
      Ready(ms, plan, n) && Halted(Writes(ms, plan), ok, n, false) && model == Run(fmt, s, Turns(ok, n))
    }

    /** The operation after the first `n` was a write that failed. */
    ghost predicate Broken(fmt: Formats, s: State, ms: seq<Member>, plan: Plan, ok: nat -> bool, n: nat)
      reads this
    {
      && Valid() && Halted(Writes(ms, plan), ok, n, true) && model == Run(fmt, s, Turns(ok, n + 1))
      && model.phase == Up(false, FailedPartial)
    }

    method OneOperation(fmt: Formats, ghost s: State, ghost ms: seq<Member>, ghost plan: Plan, ok: nat -> bool, n: nat, w: Write)
      returns (failed: bool)
      requires Progress(fmt, s, ms, plan, ok, n) && n < |Writes(ms, plan)| && Writes(ms, plan)[n] == w
      modifies this`disk, this`model
      ensures failed <==> w.Put? && !ok(n)
      ensures if failed then Broken(fmt, s, ms, plan, ok, n) else Progress(fmt, s, ms, plan, ok, n + 1)
    {
      hide Step, Run, Writes, Turns, Halted;
      HaltedNext(Writes(ms, plan), ok, n);
      OneTurn(fmt, s, ok, n);
      failed := WriteOne(fmt, ms, plan, n, w, ok(n));
    }

    /** A database entry: its copy, then the removal of both side files. */
    method DatabaseEntry(fmt: Formats, ghost s: State, ms: seq<Member>, plan: Plan, ok: nat -> bool, i: nat, n: nat)
      returns (failed: bool, m: nat)
      requires i < |plan.entries| && n == |DbWrites(ms, plan.entries[..i])| && Progress(fmt, s, ms, plan, ok, n)
      modifies this`disk, this`model
      ensures if failed then Broken(fmt, s, ms, plan, ok, m)
              else m == |DbWrites(ms, plan.entries[..i + 1])| && Progress(fmt, s, ms, plan, ok, m)
    {
      hide Writes, DbWrites, Delivered, Progress, Broken;
      DbTurn(ms, plan, i);
      failed, m := false, n;
      if plan.entries[i].target == StateDb {
        failed := OneOperation(fmt, s, ms, plan, ok, n, Put(At(StateDb), Delivered(ms, plan.entries[i].name)));
        if failed { return; }
        var f := OneOperation(fmt, s, ms, plan, ok, n + 1, Remove(Wal));
        f := OneOperation(fmt, s, ms, plan, ok, n + 2, Remove(Shm));
        m := n + 3;
      }
    }

    method EvidenceEntry(fmt: Formats, ghost s: State, ms: seq<Member>, plan: Plan, ok: nat -> bool, i: nat, n: nat)
      returns (failed: bool, m: nat)
      requires i < |plan.entries|
      requires n == |DbWrites(ms, plan.entries)| + |EvidenceWrites(ms, plan.entries[..i])| && Progress(fmt, s, ms, plan, ok, n)
      modifies this`disk, this`model
      ensures if failed then Broken(fmt, s, ms, plan, ok, m)
              else m == |DbWrites(ms, plan.entries)| + |EvidenceWrites(ms, plan.entries[..i + 1])| && Progress(fmt, s, ms, plan, ok, m)
    {
      hide Writes, DbWrites, EvidenceWrites, Delivered, Progress, Broken;
      EvidenceTurn(ms, plan, i);
      failed, m := false, n;
      var e := plan.entries[i];
      if e.target != StateDb {
        failed := OneOperation(fmt, s, ms, plan, ok, n, Put(At(e.target), Delivered(ms, e.name)));
        if !failed { m := n + 1; }
      }
    }

    /** `_apply_entries`: the database entries first, then the others. It fails if and
        only if some write does, after the operations up to the first such write. */
    method ApplyEntries(fmt: Formats, ms: seq<Member>, plan: Plan, ok: nat -> bool)
      returns (failed: bool)
      requires Ready(ms, plan, 0)
      modifies this`disk, this`model
      ensures Valid() && model == Run(fmt, old(model), EntryActs(Writes(ms, plan), ok))
      ensures failed <==> exists k | 0 <= k < |Writes(ms, plan)| :: Writes(ms, plan)[k].Put? && !ok(k)
      ensures failed ==> model.phase == Up(false, FailedPartial)
      ensures !failed ==> Ready(ms, plan, |Writes(ms, plan)|)
    {
      ghost var s := model;
      NoTurns(fmt, s, ok);
      assert plan.entries[..0] == [];
      WritesLength(ms, plan);
      hide Step, Run, Writes, DbWrites, EvidenceWrites, Turns;
      assert Progress(fmt, s, ms, plan, ok, 0);
      var n: nat;
      failed, n := ApplyAll(fmt, s, ms, plan, ok);
      StopIs(Writes(ms, plan), ok, n);
      StopFails(Writes(ms, plan), ok);
    }

    /** The two loops. */
    method ApplyAll(fmt: Formats, ghost s: State, ms: seq<Member>, plan: Plan, ok: nat -> bool) returns (failed: bool, n: nat)
      requires Progress(fmt, s, ms, plan, ok, 0)
      modifies this`disk, this`model
      ensures if failed then Broken(fmt, s, ms, plan, ok, n)
              else n == |Writes(ms, plan)| && Progress(fmt, s, ms, plan, ok, n)
    {
      WritesLength(ms, plan);
      hide Writes, DbWrites, EvidenceWrites, Progress, Broken;
      failed, n := ApplyDatabase(fmt, s, ms, plan, ok);
      if !failed { failed, n := ApplyEvidence(fmt, s, ms, plan, ok, n); }
    }

    method ApplyDatabase(fmt: Formats, ghost s: State, ms: seq<Member>, plan: Plan, ok: nat -> bool)
      returns (failed: bool, n: nat)
      requires Progress(fmt, s, ms, plan, ok, 0)
      modifies this`disk, this`model
      ensures if failed then Broken(fmt, s, ms, plan, ok, n)
              else n == |DbWrites(ms, plan.entries)| && Progress(fmt, s, ms, plan, ok, n)
    {
      failed, n := false, 0;
      assert plan.entries[..0] == [] && DbWrites(ms, []) == [];
      hide Writes, DbWrites, Progress, Broken;
      var i := 0;
      while i < |plan.entries|
        invariant 0 <= i <= |plan.entries| && n == |DbWrites(ms, plan.entries[..i])| && Progress(fmt, s, ms, plan, ok, n)
      {
        failed, n := DatabaseEntry(fmt, s, ms, plan, ok, i, n);
        if failed { return; }
        i := i + 1;
      }
      assert plan.entries[..i] == plan.entries;
    }

    method ApplyEvidence(fmt: Formats, ghost s: State, ms: seq<Member>, plan: Plan, ok: nat -> bool, n0: nat)
      returns (failed: bool, n: nat)
      requires n0 == |DbWrites(ms, plan.entries)| && Progress(fmt, s, ms, plan, ok, n0)
      modifies this`disk, this`model
      ensures if failed then Broken(fmt, s, ms, plan, ok, n)
              else n == n0 + |EvidenceWrites(ms, plan.entries)| && Progress(fmt, s, ms, plan, ok, n)
    {
      failed, n := false, n0;
      assert plan.entries[..0] == [] && EvidenceWrites(ms, []) == [];
      hide Writes, DbWrites, EvidenceWrites, Progress, Broken;
      var i := 0;
      while i < |plan.entries|
        invariant 0 <= i <= |plan.entries| && Progress(fmt, s, ms, plan, ok, n)
        invariant n == n0 + |EvidenceWrites(ms, plan.entries[..i])|
      {
        failed, n := EvidenceEntry(fmt, s, ms, plan, ok, i, n);
        if failed { return; }
        i := i + 1;
      }
      assert plan.entries[..i] == plan.entries;
    }

    /** `apply_pending_restore`, from a marker on disk to the workers' start signal: the
        steps are those of `BootActs`, and the workers stay off if and only if an apply
        was found interrupted, or this boot's own apply fails at some write. */
    method ApplyPendingRestore(fmt: Formats, w: World) returns (startWorkers: bool)
      requires Valid() && model.phase.Down? && IsOrder(disk, w.order)
      modifies this
      ensures Valid() && model == Run(fmt, old(model), BootActs(fmt, old(model), w))
      ensures model.phase.Up? && model.phase.workers == startWorkers
      ensures w.readable && IsApplying(old(marker)) ==>
                !startWorkers && marker == old(marker) && zips == old(zips) && disk == old(disk) && safety == old(safety)
      ensures !startWorkers <==>
              || (w.readable && IsApplying(old(marker)))
              || (w.enabled && w.readable && IsStaged(old(marker))
                  && Applicable(fmt, old(zips), old(marker).zip, w) && Breaks(fmt, old(zips), old(marker).zip, w))
    {
      hide Drop, Come, Validate, Writes, Members, IsOrder, DoReplace, DoStageCommit, DoCancel, Run,
           BootBegin, DoRevalidate, DoSafety, DoSetApplying, DoFinish, PreflightActs, Applicable, Breaks;
      ghost var s := model;
      ghost var a := PowerOn(w.enabled, w.readable, w.unlinks);
      FirstStep(fmt, s, a);
      BootBegins(s, w.enabled, w.readable, w.unlinks);
      model := Step(fmt, model, a);
      if marker.NoMarker? {
        return true;
      }
      var progress := if w.readable then marker.progress else Unknown;
      if progress == Applying {
        return false;
      }
      if !w.enabled {
        return true;
      }
      if progress != Staged {
        Unlink(w.unlinks.(zip := false));
        return true;
      }
      RunConcat(fmt, s, [a], PreflightActs(fmt, model, w));
      startWorkers := Preflight(fmt, w);
    }

    method Preflight(fmt: Formats, w: World) returns (startWorkers: bool)
      requires Valid() && model.phase.Checking? && marker.Marker? && IsOrder(disk, w.order)
      modifies this
      ensures Valid() && model == Run(fmt, old(model), PreflightActs(fmt, old(model), w))
      ensures model.phase.Up? && model.phase.workers == startWorkers
      ensures !startWorkers <==> Applicable(fmt, old(zips), old(marker).zip, w) && Breaks(fmt, old(zips), old(marker).zip, w)
    {
      hide Drop, Come, Validate, Writes, Members, IsOrder, Run, Step, CommitActs, PreflightActs, Stop, Applicable, Breaks;
      if marker.zip in zips {
        startWorkers := Revalidated(fmt, w);
        return;
      }
      ghost var s := model;
      FirstStep(fmt, s, Revalidate(w.limits, w.unlinks));
      Revalidates(fmt, s, w);
      PreflightGoes(fmt, s, w);
      GateIs(fmt, zips, marker.zip, w);
      model := Step(fmt, model, Revalidate(w.limits, w.unlinks));
      Abort(w.unlinks, s);
      return true;
    }

    /** The staged zip is there: validate it again. */
    method Revalidated(fmt: Formats, w: World) returns (startWorkers: bool)
      requires Valid() && model.phase.Checking? && marker.Marker? && marker.zip in zips && IsOrder(disk, w.order)
      modifies this
      ensures Valid() && model == Run(fmt, old(model), PreflightActs(fmt, old(model), w))
      ensures model.phase.Up? && model.phase.workers == startWorkers
      ensures !startWorkers <==> Applicable(fmt, old(zips), old(marker).zip, w) && Breaks(fmt, old(zips), old(marker).zip, w)
    {
      hide Drop, Come, Validate, Writes, Members, IsOrder, Run, Step, CommitActs, PreflightActs, Stop, Applicable, Breaks;
      ghost var s := model;
      FirstStep(fmt, s, Revalidate(w.limits, w.unlinks));
      Revalidates(fmt, s, w);
      PreflightGoes(fmt, s, w);
      GateIs(fmt, zips, marker.zip, w);
      var zip := zips[marker.zip];
      var v := ValidateRestoreZip(zip, fmt, w.limits);
      model := Step(fmt, model, Revalidate(w.limits, w.unlinks));
      match v {
        case Rejected =>
          Abort(w.unlinks, s);
          return true;
        case Escaped =>
          ComeUp(s, true, Unexpected);
          return true;
        case Accepted(plan) =>
          startWorkers := Commit(fmt, w, zip.members, plan);
      }
    }

    /** Leave the files alone and withdraw the request. */
    method Abort(u: Unlinks, ghost s: State)
      requires s.marker.Marker? && marker == s.marker && zips == s.zips && disk == s.disk && safety == s.safety
      requires model == Come(Drop(s, u), true, FailedPreflight)
      modifies this`marker, this`zips
      ensures Valid() && model.phase == Up(true, FailedPreflight)
    {
      ExitUp(s, u, true, FailedPreflight);
      hide Come, Drop;
      Unlink(u);
    }

    method Commit(fmt: Formats, w: World, ms: seq<Member>, plan: Plan) returns (startWorkers: bool)
      requires Valid() && model.phase == Planned(ms, plan) && marker.Marker? && IsOrder(disk, w.order)
      modifies this
      ensures Valid() && model == Run(fmt, old(model), CommitActs(fmt, old(model), w))
      ensures model.phase.Up? && model.phase.workers == startWorkers
      ensures !startWorkers <==> w.safetyOk && w.markOk && Stop(Writes(ms, plan), w.writeOk) < |Writes(ms, plan)|
    {
      hide Drop, Come, Writes, Members, Run, Step, MarkActs, CommitActs, Stop;
      ghost var s := model;
      OrderListed(disk, w.order);
      Saves(fmt, s, w);
      hide IsOrder;
      model := Step(fmt, model, WriteSafety(w.order, w.safetyOk, w.unlinks));
      if !w.safetyOk {
        Abort(w.unlinks, s);
        return true;
      }
      safety := safety[marker.id := Members(fmt, disk, w.order)];
      startWorkers := SetAndReplace(fmt, w, ms, plan);
    }

    method SetAndReplace(fmt: Formats, w: World, ms: seq<Member>, plan: Plan) returns (startWorkers: bool)
      requires Valid() && model.phase == Saved(ms, plan) && marker.Marker?
      modifies this
      ensures Valid() && model == Run(fmt, old(model), MarkActs(fmt, old(model), w))
      ensures model.phase.Up? && model.phase.workers == startWorkers
      ensures !startWorkers <==> w.markOk && Stop(Writes(ms, plan), w.writeOk) < |Writes(ms, plan)|
    {
      hide Drop, Come, Writes, Run, Step, MarkActs, ReplaceActs, Stop;
      ghost var s := model;
      Marks(fmt, s, w);
      model := Step(fmt, model, SetApplying(w.markOk, w.unlinks));
      if w.markOk {
        marker := marker.(progress := Applying);
        startWorkers := Replace(fmt, w, ms, plan);
      } else {
        Abort(w.unlinks, s);
        startWorkers := true;
      }
    }

    method Replace(fmt: Formats, w: World, ms: seq<Member>, plan: Plan) returns (startWorkers: bool)
      requires Ready(ms, plan, 0) && marker.Marker?
      modifies this
      ensures Valid() && model == Run(fmt, old(model), ReplaceActs(Writes(ms, plan), w))
      ensures model.phase.Up? && model.phase.workers == startWorkers
      ensures !startWorkers <==> Stop(Writes(ms, plan), w.writeOk) < |Writes(ms, plan)|
    {
      hide Drop, Come, Validate, Writes, DoReplace, DoStageCommit, DoCancel, Run, BootBegin, DoRevalidate,
           DoSafety, DoSetApplying, DoFinish, EntryActs, Stop;
      ghost var s := model;
      ghost var ws := Writes(ms, plan);
      var failed := ApplyEntries(fmt, ms, plan, w.writeOk);
      StopFails(ws, w.writeOk);
      assert EntryActs(ws, w.writeOk) + [] == EntryActs(ws, w.writeOk);
      if failed {
        return false;
      }
      ghost var t := model;
      RunOne(fmt, s, EntryActs(ws, w.writeOk), Finish(w.unlinks));
      model := Step(fmt, model, Finish(w.unlinks));
      FinishUp(t, w.unlinks);
      Unlink(w.unlinks);
      return true;
    }
  }

  lemma StopFails(ws: seq<Write>, ok: nat -> bool)
    ensures Stop(ws, ok) < |ws| <==> exists k | 0 <= k < |ws| :: ws[k].Put? && !ok(k)
  {
  }

  lemma WritesLength(ms: seq<Member>, plan: Plan)
    ensures |Writes(ms, plan)| == |DbWrites(ms, plan.entries)| + |EvidenceWrites(ms, plan.entries)|
  {
  }

  lemma FirstStep(fmt: Formats, s: State, a: Action)
    ensures Run(fmt, s, [a]) == Step(fmt, s, a)
  {
    assert [a][..0] == [];
  }

  lemma ComeUp(s: State, workers: bool, outcome: Outcome)
    ensures var t := Come(s, workers, outcome);
            && t.phase == Up(workers, outcome) && t.marker == s.marker && t.zips == s.zips
            && t.disk == s.disk && t.safety == s.safety
  {
  }

  lemma ExitUp(s: State, u: Unlinks, workers: bool, outcome: Outcome)
    requires s.marker.Marker?
    ensures var t := Come(Drop(s, u), workers, outcome);
            && t.phase == Up(workers, outcome) && t.disk == s.disk && t.safety == s.safety
            && t.marker == (if u.marker then NoMarker else s.marker)
            && t.zips == (if u.zip then s.zips - {s.marker.zip} else s.zips)
  {
  }

  lemma PreflightGoes(fmt: Formats, s: State, w: World)
    ensures var a := Revalidate(w.limits, w.unlinks);
            var t := Step(fmt, s, a);
            && (!t.phase.Planned? ==> PreflightActs(fmt, s, w) == [a])
            && (t.phase.Planned? ==> Run(fmt, s, PreflightActs(fmt, s, w)) == Run(fmt, t, CommitActs(fmt, t, w)))
  {
    var a := Revalidate(w.limits, w.unlinks);
    var t := Step(fmt, s, a);
    FirstStep(fmt, s, a);
    RunConcat(fmt, s, [a], CommitActs(fmt, t, w));
    hide Step, Run, CommitActs;
  }

  /** The step that writes the safety backup. */
  lemma Saves(fmt: Formats, s: State, w: World)
    requires s.phase.Planned? && s.marker.Marker? && IsOrder(s.disk, w.order)
    requires forall t | t in w.order :: At(t) in s.disk
    ensures var t := Step(fmt, s, WriteSafety(w.order, w.safetyOk, w.unlinks));
            if w.safetyOk then
              && t == s.(safety := s.safety[s.marker.id := Members(fmt, s.disk, w.order)], order := w.order,
                         phase := Saved(s.phase.ms, s.phase.plan))
              && Run(fmt, s, CommitActs(fmt, s, w)) == Run(fmt, t, MarkActs(fmt, t, w))
            else t == Come(Drop(s, w.unlinks), true, FailedPreflight) && Run(fmt, s, CommitActs(fmt, s, w)) == t
  {
    var a := WriteSafety(w.order, w.safetyOk, w.unlinks);
    FirstStep(fmt, s, a);
    RunConcat(fmt, s, [a], MarkActs(fmt, Step(fmt, s, a), w));
    hide Drop, Members, IsOrder, MarkActs, Run;
  }

  /** The step that moves the marker. */
  lemma Marks(fmt: Formats, s: State, w: World)
    requires s.phase.Saved? && s.marker.Marker?
    ensures var t := Step(fmt, s, SetApplying(w.markOk, w.unlinks));
            if w.markOk then
              && t == s.(marker := s.marker.(progress := Applying), base := s.disk, unfinished := true, oks := [],
                         phase := Replacing(s.phase.ms, s.phase.plan, 0))
              && Run(fmt, s, MarkActs(fmt, s, w)) == Run(fmt, t, ReplaceActs(Writes(s.phase.ms, s.phase.plan), w))
            else t == Come(Drop(s, w.unlinks), true, FailedPreflight) && Run(fmt, s, MarkActs(fmt, s, w)) == t
  {
    var a := SetApplying(w.markOk, w.unlinks);
    FirstStep(fmt, s, a);
    Sets(fmt, s, w);
    RunConcat(fmt, s, [a], ReplaceActs(Writes(s.phase.ms, s.phase.plan), w));
    hide Drop, ReplaceActs, Run, Step, Writes;
  }

  lemma Sets(fmt: Formats, s: State, w: World)
    requires s.phase.Saved? && s.marker.Marker?
    ensures Step(fmt, s, SetApplying(w.markOk, w.unlinks)) ==
            if w.markOk then
              s.(marker := s.marker.(progress := Applying), base := s.disk, unfinished := true, oks := [],
                 phase := Replacing(s.phase.ms, s.phase.plan, 0))
            else Come(Drop(s, w.unlinks), true, FailedPreflight)
  {
    hide Drop, Come;
  }

  lemma GateIs(fmt: Formats, zips: map<string, ZipFile>, zip: string, w: World)
    ensures Applicable(fmt, zips, zip, w) && Breaks(fmt, zips, zip, w) <==>
            && zip in zips && Validate(zips[zip], fmt, w.limits).Accepted? && zips[zip].Zip? && w.safetyOk && w.markOk
            && var ws := Writes(zips[zip].members, Validate(zips[zip], fmt, w.limits).plan);
               Stop(ws, w.writeOk) < |ws|
  {
    hide Validate, Writes, Stop;
  }

  lemma Revalidates(fmt: Formats, s: State, w: World)
    requires s.phase.Checking? && s.marker.Marker?
    ensures var t := Step(fmt, s, Revalidate(w.limits, w.unlinks));
            if s.marker.zip !in s.zips then t == Come(Drop(s, w.unlinks), true, FailedPreflight)
            else
              var v := Validate(s.zips[s.marker.zip], fmt, w.limits);
              && (v.Rejected? ==> t == Come(Drop(s, w.unlinks), true, FailedPreflight))
              && (v.Escaped? ==> t == Come(s, true, Unexpected))
              && (v.Accepted? ==> s.zips[s.marker.zip].Zip? && t == s.(phase := Planned(s.zips[s.marker.zip].members, v.plan)))
  {
    hide Drop, Come, Validate, DoSafety, DoSetApplying, DoReplace, DoFinish, DoStageCommit, DoCancel, BootBegin;
    if s.marker.zip in s.zips { AcceptedIsZip(s.zips[s.marker.zip], fmt, w.limits); }
  }

  lemma FinishUp(s: State, u: Unlinks)
    requires s.phase.Replacing? && s.phase.next == |Writes(s.phase.ms, s.phase.plan)|
    requires s.marker.Marker?
    ensures var t := DoFinish(s, u);
            && t.phase.Up? && t.phase.workers && t.disk == s.disk && t.safety == s.safety
            && t.marker == (if u.marker then NoMarker else s.marker)
            && t.zips == (if u.zip then s.zips - {s.marker.zip} else s.zips)
  {
    hide Writes;
  }

  lemma BootBegins(s: State, enabled: bool, readable: bool, u: Unlinks)
    ensures var t := BootBegin(s, enabled, readable, u);
            && t.disk == s.disk && t.safety == s.safety
            && if s.marker.NoMarker? then t.marker == s.marker && t.zips == s.zips && t.phase == Up(true, NoPending)
               else
                 var progress := if readable then s.marker.progress else Unknown;
                 && (progress == Applying ==> t.marker == s.marker && t.zips == s.zips && t.phase == Up(false, FailedPartial))
                 && (progress != Applying && !enabled ==>
                     t.marker == s.marker && t.zips == s.zips && t.phase == Up(true, DisabledSkip))
                 && (progress == Unknown && enabled ==>
                     && t.marker == (if u.marker then NoMarker else s.marker) && t.zips == s.zips
                     && t.phase == Up(true, FailedPreflight))
                 && (progress == Staged && enabled ==> t.marker == s.marker && t.zips == s.zips && t.phase == Checking)
  {
    hide Drop, Come;
    var b, v := s.(bootDisk := s.disk), u.(zip := false);
    ComeUp(b, true, NoPending);
    ComeUp(b, false, FailedPartial);
    ComeUp(b, true, DisabledSkip);
    if s.marker.Marker? {
      ExitUp(b, v, true, FailedPreflight);
    }
  }

  lemma AcceptedIsZip(zip: ZipFile, fmt: Formats, limits: Limits)
    ensures Validate(zip, fmt, limits).Accepted? ==> zip.Zip?
  {
    AcceptedIffAcceptable(zip, fmt, limits);
  }

  lemma OrderListed(d: Disk, order: seq<Target>)
    requires IsOrder(d, order)
    ensures forall t | t in order :: At(t) in d
  {
  }
}

/** The restore protocol of app/restore.py and its boot gate in app/server.py, as a
    machine whose steps are single durable operations. Any step may be followed by
    a crash, any write may fail, and staging, cancelling, the running application
    and changes to the staging directory interleave between boots. */
module RestoreProtocol {
  import opened Wrappers
  import opened MemberNames
  import opened RestorePlan
  import opened Backup

  datatype Progress = Staged | Applying | Unknown

  datatype Marker = NoMarker | Marker(id: string, progress: Progress, zip: string)

  datatype Outcome =
    | NoPending
    | DisabledSkip
    | FailedPreflight
    | Unexpected
    | FailedPartial
    | Applied(ms: seq<Member>, plan: Plan)

  /** Where the process is. A boot runs from `Checking` to `Up`. */
  datatype Phase =
    | Down
    | Checking
    | Planned(ms: seq<Member>, plan: Plan)
    | Saved(ms: seq<Member>, plan: Plan)
    | Replacing(ms: seq<Member>, plan: Plan, next: nat)
    | Up(workers: bool, outcome: Outcome)

  /** `marker`, `zips`, `disk` and `safety` survive a crash; `phase` and `inflight`
      (staging requests under way) do not. The rest is history: the disk when the
      boot began, when it ended and when the marker was last set to `Applying`, the
      order of the safety backup taken then, whether that apply has yet to finish,
      and which of its file operations took effect. */
  datatype State = State(
    marker: Marker,
    zips: map<string, ZipFile>,
    disk: Disk,
    safety: map<string, seq<Member>>,
    phase: Phase,
    inflight: set<string>,
    bootDisk: Disk,
    upDisk: Disk,
    base: Disk,
    order: seq<Target>,
    unfinished: bool,
    oks: seq<bool>)

  /** Which of the two best-effort unlinks of a step succeed. */
  datatype Unlinks = Unlinks(marker: bool, zip: bool)

  datatype Action =
    | PowerOn(enabled: bool, readable: bool, unlinks: Unlinks)
    | Revalidate(limits: Limits, unlinks: Unlinks)
    | WriteSafety(order: seq<Target>, ok: bool, unlinks: Unlinks)
    | SetApplying(ok: bool, unlinks: Unlinks)
    | ReplaceNext(ok: bool)
    | Finish(unlinks: Unlinks)
    | Crash
    | StageBegin(id: string)
    | StageCommit(id: string, zip: ZipFile, limits: Limits, ok: bool)
    | Cancel(unlinks: Unlinks)
    | AppWrite(disk: Disk)
    | Tamper(zips: map<string, ZipFile>)

  function Come(s: State, workers: bool, outcome: Outcome): State {
    s.(phase := Up(workers, outcome), upDisk := s.disk)
  }

  function Drop(s: State, u: Unlinks): State {
    if s.marker.NoMarker? then s
    else s.(marker := if u.marker then NoMarker else s.marker,
            zips := if u.zip then s.zips - {s.marker.zip} else s.zips)
  }

  /** The start of `apply_pending_restore`. A marker that cannot be read counts as
      one in an unknown state. */
  function BootBegin(s: State, enabled: bool, readable: bool, u: Unlinks): State {
    var b := s.(bootDisk := s.disk);
    if s.marker.NoMarker? then Come(b, true, NoPending)
    else
      var progress := if readable then s.marker.progress else Unknown;
      if progress == Applying then Come(b, false, FailedPartial)
      else if !enabled then Come(b, true, DisabledSkip)
      else if progress != Staged then Come(Drop(b, u.(zip := false)), true, FailedPreflight)
      else b.(phase := Checking)
  }

  /** Preflight: the staged zip is validated again. */
  function DoRevalidate(fmt: Formats, s: State, limits: Limits, u: Unlinks): State {
    if !s.phase.Checking? || s.marker.NoMarker? then s
    else if s.marker.zip !in s.zips then Come(Drop(s, u), true, FailedPreflight)
    else
      var zip := s.zips[s.marker.zip];
      match Validate(zip, fmt, limits)
      case Accepted(plan) => s.(phase := Planned(zip.members, plan))
      case Rejected => Come(Drop(s, u), true, FailedPreflight)
      case Escaped => Come(s, true, Unexpected)
  }

  /** Preflight: a backup of the current files is written. */
  ghost function DoSafety(fmt: Formats, s: State, order: seq<Target>, ok: bool, u: Unlinks): State {
    if !s.phase.Planned? || s.marker.NoMarker? then s
    else if !ok then Come(Drop(s, u), true, FailedPreflight)
    else if !IsOrder(s.disk, order) then s
    else s.(safety := s.safety[s.marker.id := Members(fmt, s.disk, order)], order := order,
            phase := Saved(s.phase.ms, s.phase.plan))
  }

  /** The commit point: the marker moves to `Applying`. */
  function DoSetApplying(s: State, ok: bool, u: Unlinks): State {
    if !s.phase.Saved? || s.marker.NoMarker? then s
    else if !ok then Come(Drop(s, u), true, FailedPreflight)
    else s.(marker := s.marker.(progress := Applying), base := s.disk, unfinished := true, oks := [],
            phase := Replacing(s.phase.ms, s.phase.plan, 0))
  }

  /** One file operation. A failed removal goes unnoticed, a failed write does not. */
  function DoReplace(s: State, ok: bool): State {
    if !s.phase.Replacing? || s.phase.next >= |Writes(s.phase.ms, s.phase.plan)| then s
    else
      var w, on := Writes(s.phase.ms, s.phase.plan)[s.phase.next], s.phase.(next := s.phase.next + 1);
      if ok then s.(disk := Do(s.disk, w), phase := on, oks := s.oks + [true])
      else if w.Remove? then s.(phase := on, oks := s.oks + [false])
      else Come(s, false, FailedPartial)
  }

  function DoFinish(s: State, u: Unlinks): State {
    if !s.phase.Replacing? || s.phase.next != |Writes(s.phase.ms, s.phase.plan)| then s
    else Come(Drop(s, u).(unfinished := false), true, Applied(s.phase.ms, s.phase.plan))
  }

  /** The end of a staging request. The check for a pending marker was made when the
      request began; nothing repeats it here. */
  function DoStageCommit(fmt: Formats, s: State, id: string, zip: ZipFile, limits: Limits, ok: bool): State {
    if !s.phase.Up? || id !in s.inflight then s
    else if ok && Validate(zip, fmt, limits).Accepted? then
      s.(zips := s.zips[id := zip], marker := Marker(id, Staged, id), inflight := s.inflight - {id})
    else s.(inflight := s.inflight - {id})
  }

  function DoCancel(s: State, u: Unlinks): State {
    if s.phase.Up? && s.marker.Marker? && s.marker.progress == Staged
    then Drop(s, u.(marker := true)) else s
  }

  ghost function Step(fmt: Formats, s: State, a: Action): State {
    match a
    case PowerOn(enabled, readable, u) =>
      if s.phase.Down? then BootBegin(s, enabled, readable, u) else s
    case Revalidate(limits, u) => DoRevalidate(fmt, s, limits, u)
    case WriteSafety(order, ok, u) => DoSafety(fmt, s, order, ok, u)
    case SetApplying(ok, u) => DoSetApplying(s, ok, u)
    case ReplaceNext(ok) => DoReplace(s, ok)
    case Finish(u) => DoFinish(s, u)
    case Crash => s.(phase := Down, inflight := {})
    case StageBegin(id) =>
      if s.phase.Up? && s.marker.NoMarker? then s.(inflight := s.inflight + {id}) else s
    case StageCommit(id, zip, limits, ok) => DoStageCommit(fmt, s, id, zip, limits, ok)
    case Cancel(u) => DoCancel(s, u)
    case AppWrite(disk) => if s.phase.Up? then s.(disk := disk) else s
    case Tamper(zips) => if s.phase.Up? || s.phase.Down? then s.(zips := zips) else s
  }

  ghost function Run(fmt: Formats, s: State, acts: seq<Action>): State {
    if acts == [] then s else Step(fmt, Run(fmt, s, acts[..|acts| - 1]), acts[|acts| - 1])
  }

  predicate Initial(s: State) {
    && s.phase.Down? && s.inflight == {} && !s.unfinished
    && (s.marker.Marker? ==> s.marker.progress != Applying)
  }

  // ----- the invariant -----

  /** Everything but the database's side files. */
  function MainFiles(d: Disk): Disk { d - {Wal, Shm} }

  predicate IsStaged(m: Marker) { m.Marker? && m.progress == Staged }

  predicate IsApplying(m: Marker) { m.Marker? && m.progress == Applying }

  /** The safety backup kept under an id is a backup of the given disk. */
  ghost predicate SafetyHolds(fmt: Formats, safety: map<string, seq<Member>>, id: string, order: seq<Target>, d: Disk) {
    id in safety && IsOrder(d, order) && safety[id] == Members(fmt, d, order)
  }

  /** A disk after some operations, of which only the marked ones took effect. */
  function Performed(d: Disk, ws: seq<Write>, oks: seq<bool>): Disk
    requires |ws| == |oks|
  {
    if ws == [] then d
    else
      var n := |ws| - 1;
      var e := Performed(d, ws[..n], oks[..n]);
      if oks[n] then Do(e, ws[n]) else e
  }

  /** The disk after the first `n` operations: every write took effect, a removal may
      have failed. */
  predicate Reached(before: Disk, after: Disk, oks: seq<bool>, writes: seq<Write>, n: nat)
    requires n <= |writes|
  {
    && |oks| == n && after == Performed(before, writes[..n], oks)
    && forall i | 0 <= i < n :: writes[i].Put? ==> oks[i]
  }

  predicate Plain(w: Write) {
    match w
    case Put(p, _) => p.At?
    case Remove(p) => SideFile(p)
  }

  ghost predicate PhaseInv(fmt: Formats, s: State) {
    match s.phase
    case Down => true
    case Checking => IsStaged(s.marker) && s.disk == s.bootDisk
    case Planned(ms, plan) => IsStaged(s.marker) && s.disk == s.bootDisk && PlanOf(plan, ms)
    case Saved(ms, plan) =>
      && IsStaged(s.marker) && s.disk == s.bootDisk && PlanOf(plan, ms)
      && SafetyHolds(fmt, s.safety, s.marker.id, s.order, s.disk)
    case Replacing(ms, plan, next) =>
      && IsApplying(s.marker) && s.unfinished && s.base == s.bootDisk && PlanOf(plan, ms)
      && next <= |Writes(ms, plan)| && Reached(s.base, s.disk, s.oks, Writes(ms, plan), next)
    case Up(workers, outcome) =>
      workers ==> if outcome.Applied? then Whole(s.bootDisk, s.upDisk, s.oks, outcome.ms, outcome.plan)
                  else s.upDisk == s.bootDisk
  }

  /** The boot replaced every file of an accepted plan. */
  predicate Whole(before: Disk, after: Disk, oks: seq<bool>, ms: seq<Member>, plan: Plan) {
    PlanOf(plan, ms) && Reached(before, after, oks, Writes(ms, plan), |Writes(ms, plan)|)
  }

  ghost predicate Inv(fmt: Formats, s: State) {
    && PhaseInv(fmt, s)
    && (IsApplying(s.marker) ==> SafetyHolds(fmt, s.safety, s.marker.id, s.order, s.base) && s.inflight == {})
    && (!s.phase.Up? ==> s.inflight == {})
  }

  lemma MainDo(d: Disk, e: Disk, w: Write)
    requires Plain(w) && MainFiles(d) == MainFiles(e)
    ensures MainFiles(Do(d, w)) == MainFiles(Do(e, w))
    ensures w.Remove? ==> MainFiles(d) == MainFiles(Do(e, w))
  {
    forall p ensures p in MainFiles(Do(d, w)) <==> p in MainFiles(Do(e, w)) {
      assert p in MainFiles(d) <==> p in MainFiles(e);
    }
    forall p | p in MainFiles(Do(d, w)) ensures MainFiles(Do(d, w))[p] == MainFiles(Do(e, w))[p] {
      assert p in MainFiles(d) ==> MainFiles(d)[p] == MainFiles(e)[p];
    }
  }

  lemma {:induction false} DbWritesPlain(ms: seq<Member>, es: seq<Entry>)
    ensures forall w | w in DbWrites(ms, es) :: Plain(w)
  {
    if es != [] { DbWritesPlain(ms, es[..|es| - 1]); }
  }

  lemma {:induction false} EvidenceWritesPlain(ms: seq<Member>, es: seq<Entry>)
    ensures forall w | w in EvidenceWrites(ms, es) :: Plain(w)
  {
    if es != [] { EvidenceWritesPlain(ms, es[..|es| - 1]); }
  }

  lemma WritesPlain(ms: seq<Member>, plan: Plan)
    ensures forall w | w in Writes(ms, plan) :: Plain(w)
  {
    DbWritesPlain(ms, plan.entries);
    EvidenceWritesPlain(ms, plan.entries);
  }

  lemma DropKeeps(s: State, u: Unlinks)
    ensures Drop(s, u) == s.(marker := Drop(s, u).marker, zips := Drop(s, u).zips)
    ensures Drop(s, u).marker == s.marker || Drop(s, u).marker == NoMarker
  {
  }

  /** A boot that comes up without having touched the disk. */
  lemma UntouchedInv(fmt: Formats, s: State, u: Unlinks, workers: bool, outcome: Outcome)
    requires s.disk == s.bootDisk && s.inflight == {} && !outcome.Applied?
    requires IsApplying(s.marker) ==> SafetyHolds(fmt, s.safety, s.marker.id, s.order, s.base)
    ensures Inv(fmt, Come(Drop(s, u), workers, outcome))
    ensures Inv(fmt, Come(s, workers, outcome))
  {
    hide SafetyHolds, Whole, Drop;
    DropKeeps(s, u);
  }

  lemma BootBeginInv(fmt: Formats, s: State, enabled: bool, readable: bool, u: Unlinks)
    requires Inv(fmt, s) && s.phase.Down?
    ensures Inv(fmt, BootBegin(s, enabled, readable, u))
  {
    hide SafetyHolds, Whole, Drop, Come;
    var b := s.(bootDisk := s.disk);
    UntouchedInv(fmt, b, u.(zip := false), true, NoPending);
    UntouchedInv(fmt, b, u.(zip := false), true, DisabledSkip);
    UntouchedInv(fmt, b, u.(zip := false), true, FailedPreflight);
    UntouchedInv(fmt, b, u.(zip := false), false, FailedPartial);
  }

  lemma RevalidateInv(fmt: Formats, s: State, limits: Limits, u: Unlinks)
    requires Inv(fmt, s)
    ensures Inv(fmt, DoRevalidate(fmt, s, limits, u))
  {
    hide SafetyHolds, Validate, Drop, Come, PlanOf, Acceptable;
    if s.phase.Checking? {
      UntouchedInv(fmt, s, u, true, FailedPreflight);
      UntouchedInv(fmt, s, u, true, Unexpected);
      if s.marker.zip in s.zips {
        AcceptedIffAcceptable(s.zips[s.marker.zip], fmt, limits);
      }
    }
  }

  lemma SafetyInv(fmt: Formats, s: State, order: seq<Target>, ok: bool, u: Unlinks)
    requires Inv(fmt, s)
    ensures Inv(fmt, DoSafety(fmt, s, order, ok, u))
  {
    hide SafetyHolds, Members, IsOrder, Drop, Come, PlanOf;
    if s.phase.Planned? {
      UntouchedInv(fmt, s, u, true, FailedPreflight);
    }
    if s.phase.Planned? && s.marker.Marker? && ok && IsOrder(s.disk, order) {
      SafetyWritten(fmt, s.safety, s.marker.id, order, s.disk);
    }
  }

  lemma SafetyWritten(fmt: Formats, safety: map<string, seq<Member>>, id: string, order: seq<Target>, d: Disk)
    requires IsOrder(d, order)
    ensures SafetyHolds(fmt, safety[id := Members(fmt, d, order)], id, order, d)
  {
  }

  lemma SetApplyingInv(fmt: Formats, s: State, ok: bool, u: Unlinks)
    requires Inv(fmt, s)
    ensures Inv(fmt, DoSetApplying(s, ok, u))
  {
    hide SafetyHolds, Writes, Drop, Come, PlanOf;
    if s.phase.Saved? {
      UntouchedInv(fmt, s, u, true, FailedPreflight);
      assert Writes(s.phase.ms, s.phase.plan)[..0] == [];
    }
  }

  lemma PerformedStep(d: Disk, ws: seq<Write>, oks: seq<bool>, n: nat, ok: bool)
    requires n < |ws| && |oks| == n
    ensures var e := Performed(d, ws[..n], oks);
            Performed(d, ws[..n + 1], oks + [ok]) == if ok then Do(e, ws[n]) else e
  {
    assert ws[..n + 1][..n] == ws[..n] && (oks + [ok])[..n] == oks;
  }

  lemma ReplaceInv(fmt: Formats, s: State, ok: bool)
    requires Inv(fmt, s)
    ensures Inv(fmt, DoReplace(s, ok))
  {
    hide SafetyHolds, Performed, Do, PlanOf, Writes;
    if s.phase.Replacing? && s.phase.next < |Writes(s.phase.ms, s.phase.plan)| {
      PerformedStep(s.base, Writes(s.phase.ms, s.phase.plan), s.oks, s.phase.next, ok);
    }
  }

  lemma FinishInv(fmt: Formats, s: State, u: Unlinks)
    requires Inv(fmt, s)
    ensures Inv(fmt, DoFinish(s, u))
  {
    hide SafetyHolds, Performed, Writes, PlanOf, Drop;
    if s.phase.Replacing? {
      DropKeeps(s, u);
    }
  }

  lemma StagingInv(fmt: Formats, s: State, id: string, zip: ZipFile, limits: Limits, ok: bool, u: Unlinks)
    requires Inv(fmt, s)
    ensures Inv(fmt, DoStageCommit(fmt, s, id, zip, limits, ok))
    ensures Inv(fmt, DoCancel(s, u))
  {
    hide SafetyHolds, Validate, Whole, Drop;
    DropKeeps(s, u.(marker := true));
  }

  /** Every step keeps the invariant. */
  lemma StepInv(fmt: Formats, s: State, a: Action)
    requires Inv(fmt, s)
    ensures Inv(fmt, Step(fmt, s, a))
  {
    hide SafetyHolds, Whole, PlanOf, Reached, Writes, DoRevalidate, DoSafety, DoSetApplying, DoReplace, DoFinish,
         DoStageCommit, DoCancel, BootBegin;
    match a
    case PowerOn(enabled, readable, u) =>
      if s.phase.Down? { BootBeginInv(fmt, s, enabled, readable, u); }
    case Revalidate(limits, u) => RevalidateInv(fmt, s, limits, u);
    case WriteSafety(order, ok, u) => SafetyInv(fmt, s, order, ok, u);
    case SetApplying(ok, u) => SetApplyingInv(fmt, s, ok, u);
    case ReplaceNext(ok) => ReplaceInv(fmt, s, ok);
    case Finish(u) => FinishInv(fmt, s, u);
    case StageCommit(id, zip, limits, ok) => StagingInv(fmt, s, id, zip, limits, ok, Unlinks(true, true));
    case Cancel(u) => StagingInv(fmt, s, "", NotAZip, Limits(0, 0, 0), false, u);
    case _ =>
  }

  lemma {:induction false} RunInv(fmt: Formats, s: State, acts: seq<Action>)
    requires Initial(s)
    ensures Inv(fmt, Run(fmt, s, acts))
  {
    if acts != [] {
      RunInv(fmt, s, acts[..|acts| - 1]);
      StepInv(fmt, Run(fmt, s, acts[..|acts| - 1]), acts[|acts| - 1]);
    }
  }

  // ----- workers and partly replaced files -----

  lemma {:induction false} PerformedMain(d: Disk, ws: seq<Write>, oks: seq<bool>)
    requires |ws| == |oks|
    requires forall i | 0 <= i < |ws| :: Plain(ws[i]) && (ws[i].Put? ==> oks[i])
    ensures MainFiles(Performed(d, ws, oks)) == MainFiles(Apply(d, ws))
  {
    if ws != [] {
      var n := |ws| - 1;
      PerformedMain(d, ws[..n], oks[..n]);
      hide MainFiles, Do, Plain;
      MainDo(Performed(d, ws[..n], oks[..n]), Apply(d, ws[..n]), ws[n]);
    }
  }

  /** No removal of the path took effect. */
  predicate Missed(ws: seq<Write>, oks: seq<bool>, p: Path)
    requires |ws| == |oks|
  {
    forall i | 0 <= i < |ws| && ws[i] == Remove(p) :: !oks[i]
  }

  /** A side file stays exactly when every removal of it failed. */
  lemma {:induction false} PerformedSide(d: Disk, ws: seq<Write>, oks: seq<bool>, p: Path)
    requires |ws| == |oks| && SideFile(p) && forall i | 0 <= i < |ws| :: Plain(ws[i])
    ensures Lookup(Performed(d, ws, oks), p) == if Missed(ws, oks, p) then Lookup(d, p) else None
  {
    if ws != [] {
      var n := |ws| - 1;
      PerformedSide(d, ws[..n], oks[..n], p);
      var e := Performed(d, ws[..n], oks[..n]);
      hide Performed;
      assert Plain(ws[n]);
      assert forall i | 0 <= i < n :: ws[..n][i] == ws[i] && oks[..n][i] == oks[i];
      assert Missed(ws, oks, p) <==> Missed(ws[..n], oks[..n], p) && !(ws[n] == Remove(p) && oks[n]);
      assert Lookup(Do(e, ws[n]), p) == if ws[n] == Remove(p) then None else Lookup(e, p);
    }
  }

  lemma {:induction false} RemovesNeedDb(ms: seq<Member>, es: seq<Entry>, p: Path)
    requires SideFile(p)
    ensures Remove(p) in DbWrites(ms, es) <==> LastEntry(ms, es, StateDb).Some?
    ensures Remove(p) !in EvidenceWrites(ms, es)
  {
    if es != [] { RemovesNeedDb(ms, es[..|es| - 1], p); }
  }

  /** What applying a plan leaves at a path: its last entry at a target; a side file
      unless the plan has a database and one of the removals took effect; every other
      path as it was. */
  function Left(before: Disk, oks: seq<bool>, ms: seq<Member>, plan: Plan, p: Path): Option<Bytes>
    requires |oks| == |Writes(ms, plan)|
  {
    if SideFile(p) then
      if LastEntry(ms, plan.entries, StateDb).None? || Missed(Writes(ms, plan), oks, p) then Lookup(before, p) else None
    else if p.At? && LastEntry(ms, plan.entries, p.target).Some? then LastEntry(ms, plan.entries, p.target)
    else Lookup(before, p)
  }

  ghost predicate FullyRestored(before: Disk, after: Disk, oks: seq<bool>, ms: seq<Member>, plan: Plan) {
    && PlanOf(plan, ms) && |oks| == |Writes(ms, plan)|
    && forall p :: Lookup(after, p) == Left(before, oks, ms, plan, p)
  }

  lemma WholeMain(before: Disk, after: Disk, oks: seq<bool>, ms: seq<Member>, plan: Plan, p: Path)
    requires Whole(before, after, oks, ms, plan) && !SideFile(p)
    ensures Lookup(after, p) == Lookup(Apply(before, Writes(ms, plan)), p)
  {
    hide PlanOf, Writes, Apply, Performed, Plain;
    var ws := Writes(ms, plan);
    assert ws[..|ws|] == ws;
    WritesPlain(ms, plan);
    assert forall i | 0 <= i < |ws| :: ws[i] in ws;
    PerformedMain(before, ws, oks);
    assert Lookup(MainFiles(after), p) == Lookup(MainFiles(Apply(before, ws)), p);
  }

  lemma WholeSide(before: Disk, after: Disk, oks: seq<bool>, ms: seq<Member>, plan: Plan, p: Path)
    requires Whole(before, after, oks, ms, plan) && SideFile(p)
    ensures |oks| == |Writes(ms, plan)|
    ensures Lookup(after, p) == if LastEntry(ms, plan.entries, StateDb).None? || Missed(Writes(ms, plan), oks, p)
                                then Lookup(before, p) else None
  {
    var ws := Writes(ms, plan);
    RemovesNeedDb(ms, plan.entries, p);
    assert Remove(p) in ws <==> LastEntry(ms, plan.entries, StateDb).Some?;
    hide PlanOf, Writes, Performed, Plain, LastEntry;
    assert ws[..|ws|] == ws;
    WritesPlain(ms, plan);
    assert forall i | 0 <= i < |ws| :: ws[i] in ws;
    PerformedSide(before, ws, oks, p);
  }

  lemma WholeIsRestored(before: Disk, after: Disk, oks: seq<bool>, ms: seq<Member>, plan: Plan)
    requires Whole(before, after, oks, ms, plan)
    ensures FullyRestored(before, after, oks, ms, plan)
  {
    hide PlanOf, Writes, Performed, LastEntry, Missed;
    forall p ensures Lookup(after, p) == Left(before, oks, ms, plan, p) {
      if SideFile(p) {
        WholeSide(before, after, oks, ms, plan, p);
      } else {
        WholeMain(before, after, oks, ms, plan, p);
        AppliedContent(before, ms, plan, p);
      }
    }
  }

  /** In every run, whatever crashes and write failures it holds: workers are only
      ever started by a boot that left every file as it found it, or by one that fully
      restored an accepted plan. */
  lemma WorkersSeeNoHalfRestore(fmt: Formats, s: State, acts: seq<Action>)
    requires Initial(s)
    ensures var t := Run(fmt, s, acts);
            t.phase.Up? && t.phase.workers ==>
              if t.phase.outcome.Applied?
              then FullyRestored(t.bootDisk, t.upDisk, t.oks, t.phase.outcome.ms, t.phase.outcome.plan)
              else t.upDisk == t.bootDisk
  {
    hide Whole, FullyRestored, Run, SafetyHolds;
    RunInv(fmt, s, acts);
    var t := Run(fmt, s, acts);
    if t.phase.Up? && t.phase.workers && t.phase.outcome.Applied? {
      WholeIsRestored(t.bootDisk, t.upDisk, t.oks, t.phase.outcome.ms, t.phase.outcome.plan);
    }
  }

  // ----- staging and cancelling -----

  /** A staging request on a host that is up with nothing pending leaves a staged marker and
      the zip if and only if the zip is accepted and the write succeeds, and touches nothing
      else; a cancel takes the marker away again. */
  lemma StagingIsPending(fmt: Formats, s: State, id: string, zip: ZipFile, lim: Limits, ok: bool, u: Unlinks)
    requires s.phase.Up? && s.marker.NoMarker?
    ensures var t := Step(fmt, Step(fmt, s, StageBegin(id)), StageCommit(id, zip, lim, ok));
            && t.disk == s.disk && t.safety == s.safety && t.phase == s.phase
            && (if ok && Validate(zip, fmt, lim).Accepted?
                then t.marker == Marker(id, Staged, id) && t.zips == s.zips[id := zip] && Step(fmt, t, Cancel(u)).marker == NoMarker
                else t.marker == NoMarker && t.zips == s.zips)
  {
    var t1 := s.(inflight := s.inflight + {id});
    StagingSteps(fmt, s, id, zip, lim, ok, u);
    StagingSteps(fmt, t1, id, zip, lim, ok, u);
    var t := DoStageCommit(fmt, t1, id, zip, lim, ok);
    StagingSteps(fmt, t, id, zip, lim, ok, u);
    hide Step, Validate, DoCancel;
    if ok && Validate(zip, fmt, lim).Accepted? { CancelDrops(t, u); }
  }

  lemma CancelDrops(s: State, u: Unlinks)
    requires s.phase.Up? && IsStaged(s.marker)
    ensures DoCancel(s, u).marker == NoMarker
  {
  }

  /** While a marker is there, no new request is staged, and an interrupted apply cannot be
      cancelled. */
  lemma PendingIsKept(fmt: Formats, s: State, id: string, zip: ZipFile, lim: Limits, ok: bool, u: Unlinks)
    requires s.marker.Marker? && id !in s.inflight
    ensures Step(fmt, Step(fmt, s, StageBegin(id)), StageCommit(id, zip, lim, ok)) == s
    ensures IsApplying(s.marker) ==> Step(fmt, s, Cancel(u)) == s
  {
    StagingSteps(fmt, s, id, zip, lim, ok, u);
    hide Step, Validate, Drop;
  }

  lemma StagingSteps(fmt: Formats, s: State, id: string, zip: ZipFile, lim: Limits, ok: bool, u: Unlinks)
    ensures Step(fmt, s, StageBegin(id)) ==
            if s.phase.Up? && s.marker.NoMarker? then s.(inflight := s.inflight + {id}) else s
    ensures Step(fmt, s, StageCommit(id, zip, lim, ok)) == DoStageCommit(fmt, s, id, zip, lim, ok)
    ensures Step(fmt, s, Cancel(u)) == DoCancel(s, u)
  {
    hide DoStageCommit, DoCancel;
  }

  // ----- failing closed -----

  predicate Faithful(acts: seq<Action>) {
    forall a | a in acts :: a.PowerOn? ==> a.readable
  }

  /** Down or up after an apply that was cut short. */
  predicate CutShort(s: State) {
    s.unfinished && IsApplying(s.marker) && (s.phase.Down? || (s.phase.Up? && !s.phase.workers)) && s.inflight == {}
  }

  /** An apply that has not finished is either under way or cut short. */
  predicate Closed(s: State) {
    s.unfinished ==> CutShort(s) || (s.phase.Replacing? && IsApplying(s.marker))
  }

  lemma StepCutShort(fmt: Formats, s: State, a: Action)
    requires CutShort(s) && (a.PowerOn? ==> a.readable)
    ensures var t := Step(fmt, s, a);
            CutShort(t) && t.marker == s.marker && t.safety == s.safety && t.base == s.base && t.order == s.order
  {
  }

  /** Once an apply is cut short, no run of boots with restore enabled or disabled,
      staging requests, cancels, application writes and staging-directory changes
      ever starts the workers again or touches the marker or the safety backup. */
  lemma {:induction false} CutShortForever(fmt: Formats, s: State, acts: seq<Action>)
    requires CutShort(s) && Faithful(acts)
    ensures var t := Run(fmt, s, acts);
            && CutShort(t) && (t.phase.Up? ==> !t.phase.workers)
            && t.marker == s.marker && t.safety == s.safety && t.base == s.base && t.order == s.order
  {
    if acts != [] {
      CutShortForever(fmt, s, acts[..|acts| - 1]);
      StepCutShort(fmt, Run(fmt, s, acts[..|acts| - 1]), acts[|acts| - 1]);
    }
  }

  /** While files are replaced only the next write, the finish and a crash matter. */
  lemma ReplacingIgnores(fmt: Formats, s: State, a: Action)
    requires s.phase.Replacing? && !a.ReplaceNext? && !a.Finish? && !a.Crash?
    ensures Step(fmt, s, a) == s
  {
    hide Drop, Come, Validate, Writes, IsOrder, Members, Do, DoReplace, DoFinish;
  }

  lemma FinishEffect(s: State, u: Unlinks)
    ensures DoFinish(s, u) == s || !DoFinish(s, u).unfinished
  {
    hide Writes, Drop;
  }

  lemma ReplaceEffect(s: State, ok: bool)
    requires s.phase.Replacing?
    ensures var t := DoReplace(s, ok);
            || (t.phase.Replacing? && t.marker == s.marker)
            || t == Come(s, false, FailedPartial)
  {
    hide Writes, Do, Come;
  }

  lemma StepReplacing(fmt: Formats, s: State, a: Action)
    requires s.phase.Replacing? && IsApplying(s.marker) && s.inflight == {}
    ensures Closed(Step(fmt, s, a))
  {
    hide DoReplace, DoFinish, DoRevalidate, DoSafety, DoSetApplying, DoStageCommit, DoCancel, BootBegin;
    match a
    case Crash =>
    case Finish(u) => FinishEffect(s, u);
    case ReplaceNext(ok) => ReplaceEffect(s, ok);
    case _ => ReplacingIgnores(fmt, s, a);
  }

  lemma ExitKeeps(s: State, u: Unlinks, workers: bool, outcome: Outcome)
    ensures Come(s, workers, outcome).unfinished == s.unfinished
    ensures Come(Drop(s, u), workers, outcome).unfinished == s.unfinished
    ensures Drop(s, u).unfinished == s.unfinished
  {
    hide Drop;
    DropKeeps(s, u);
  }

  lemma StepFinished(fmt: Formats, s: State, a: Action)
    requires !s.unfinished && !s.phase.Replacing?
    ensures Closed(Step(fmt, s, a))
  {
    hide Drop, Come, Validate, Writes, IsOrder, Members;
    match a
    case PowerOn(_, _, u) =>
      var b, v := s.(bootDisk := s.disk), u.(zip := false);
      ExitKeeps(b, v, true, NoPending);
      ExitKeeps(b, v, true, DisabledSkip);
      ExitKeeps(b, v, true, FailedPreflight);
      ExitKeeps(b, v, false, FailedPartial);
    case Revalidate(_, u) =>
      ExitKeeps(s, u, true, FailedPreflight);
      ExitKeeps(s, u, true, Unexpected);
    case WriteSafety(_, _, u) => ExitKeeps(s, u, true, FailedPreflight);
    case SetApplying(_, u) => ExitKeeps(s, u, true, FailedPreflight);
    case Cancel(u) => ExitKeeps(s, u.(marker := true), true, NoPending);
    case _ =>
  }

  /** In every run with faithful marker reads, an apply that has not finished keeps
      its marker, and a process that is up meanwhile has its workers off. */
  lemma {:induction false} RunClosed(fmt: Formats, s: State, acts: seq<Action>)
    requires Initial(s) && Faithful(acts)
    ensures Closed(Run(fmt, s, acts))
  {
    if acts != [] {
      var front, a := acts[..|acts| - 1], acts[|acts| - 1];
      var t := Run(fmt, s, front);
      RunClosed(fmt, s, front);
      RunInv(fmt, s, front);
      hide Step, SafetyHolds, PlanOf, Reached;
      if t.phase.Replacing? {
        StepReplacing(fmt, t, a);
      } else if t.unfinished {
        StepCutShort(fmt, t, a);
      } else {
        StepFinished(fmt, t, a);
      }
    }
  }

  /** Every way an apply can stop early: a crash at any file operation, or a write
      that fails, leaves the protocol cut short. */
  lemma StoppingCutsShort(fmt: Formats, s: State)
    requires Inv(fmt, s) && s.phase.Replacing?
    ensures CutShort(Step(fmt, s, Crash))
    ensures var ws := Writes(s.phase.ms, s.phase.plan);
            (s.phase.next < |ws| && ws[s.phase.next].Put?) ==> CutShort(Step(fmt, s, ReplaceNext(false)))
  {
    hide SafetyHolds, PlanOf, Reached, Writes;
  }

  /** The one hole: a boot over an unfinished apply starts the workers exactly when
      the marker cannot be read, and then an enabled restore discards it as well. */
  lemma BootOverUnfinished(fmt: Formats, s: State, enabled: bool, readable: bool)
    requires s.phase.Down? && IsApplying(s.marker)
    ensures var t := Step(fmt, s, PowerOn(enabled, readable, Unlinks(true, true)));
            && t.phase.Up? && (t.phase.workers <==> !readable)
            && (t.marker == NoMarker <==> enabled && !readable)
  {
  }

  // ----- the safety backup -----

  lemma {:induction false} UnnamedUntouched(base: Disk, ms: seq<Member>, es: seq<Entry>, p: Path)
    requires !SideFile(p) && (p.At? ==> LastEntry(ms, es, p.target).None?)
    ensures forall w | w in DbWrites(ms, es) + EvidenceWrites(ms, es) :: w.path != p
  {
    if es != [] {
      UnnamedUntouched(base, ms, es[..|es| - 1], p);
    }
  }

  lemma {:induction false} PartialKeeps(base: Disk, ws: seq<Write>, oks: seq<bool>, n: nat, p: Path)
    requires n == |oks| <= |ws| && forall w | w in ws :: w.path != p
    ensures Lookup(Performed(base, ws[..n], oks), p) == Lookup(base, p)
  {
    if n > 0 {
      PartialKeeps(base, ws, oks[..n - 1], n - 1, p);
      assert ws[..n][..n - 1] == ws[..n - 1] && ws[n - 1] in ws;
    }
  }

  /** While files are being replaced, a path the plan does not name is as it was. */
  lemma PartlyReplaced(fmt: Formats, s: State, p: Path)
    requires Inv(fmt, s) && s.phase.Replacing?
    requires !SideFile(p) && (p.At? ==> LastEntry(s.phase.ms, s.phase.plan.entries, p.target).None?)
    ensures Lookup(s.disk, p) == Lookup(s.base, p)
  {
    hide SafetyHolds, PlanOf, Writes, Performed, LastEntry;
    var ws, n := Writes(s.phase.ms, s.phase.plan), s.phase.next;
    UnnamedWrites(s.base, s.phase.ms, s.phase.plan, p);
    PartialKeeps(s.base, ws, s.oks, n, p);
  }

  lemma UnnamedWrites(base: Disk, ms: seq<Member>, plan: Plan, p: Path)
    requires !SideFile(p) && (p.At? ==> LastEntry(ms, plan.entries, p.target).None?)
    ensures forall w | w in Writes(ms, plan) :: w.path != p
  {
    UnnamedUntouched(base, ms, plan.entries, p);
  }

  /** In every reachable state whose marker says `Applying`, the safety backup is a
      backup of the files as they were when the marker was set. If those files were
      restorable, applying it to whatever is on the disk now brings every one of them
      back, takes the side files of a half-replaced database away, and leaves the
      paths it does not hold as they are. */
  lemma SafetyBackupRecovers(fmt: Formats, s: State, acts: seq<Action>, lim: Limits, p: Path)
    requires Initial(s)
    ensures var t := Run(fmt, s, acts);
            IsApplying(t.marker) ==>
              && t.marker.id in t.safety && IsOrder(t.base, t.order)
              && t.safety[t.marker.id] == Members(fmt, t.base, t.order)
              && (PlainDisk(t.base) && Restorable(fmt, t.base, t.order, lim) ==>
                  var v := Validate(Zip(t.safety[t.marker.id]), fmt, lim);
                  && v.Accepted?
                  && Lookup(Apply(t.disk, Writes(t.safety[t.marker.id], v.plan)), p) ==
                     if p in t.base && p.At? && (p.target.Archive? ==> |p.target.file| >= 5 && p.target.file[|p.target.file| - 5..] == ".json")
                     then Some(if p.target == StateDb && Wal in t.base then fmt.merge(t.base[p], t.base[Wal]) else t.base[p])
                     else if (p == Wal || p == Shm) && At(StateDb) in t.base then None
                     else Lookup(t.disk, p))
  {
    hide Run, PhaseInv, Validate, Writes, Apply, Restorable;
    RunInv(fmt, s, acts);
    var t := Run(fmt, s, acts);
    if IsApplying(t.marker) && PlainDisk(t.base) && Restorable(fmt, t.base, t.order, lim) {
      RoundTrip(fmt, t.base, t.order, lim, t.disk, p);
    }
  }

  /** A restorable disk is needed: nothing in the protocol checks the safety backup,
      so one stray sidecar directory leaves a recovery point that is never accepted. */
  lemma StraySidecarSpoilsRecovery(fmt: Formats, s: State, acts: seq<Action>, lim: Limits, dir: string)
    requires Initial(s)
    requires var t := Run(fmt, s, acts);
             IsApplying(t.marker) && PlainDisk(t.base) && At(Sidecar(dir)) in t.base && !IsJid(dir)
    ensures var t := Run(fmt, s, acts);
            t.marker.id in t.safety && !Validate(Zip(t.safety[t.marker.id]), fmt, lim).Accepted?
  {
    hide Run, PhaseInv, Validate;
    RunInv(fmt, s, acts);
    var t := Run(fmt, s, acts);
    StrayDirectorySpoilsBackup(fmt, t.base, t.order, lim, dir);
  }
}

/** Library scan runs and the queue jobs behind them: `library_scan_runs` of
    app/state_db.py and the scan worker of app/library_scan_worker.py. A run and its
    job are inserted by one transaction and are kept here as one pair. */
module ScanRuns {
  import opened Wrappers
  import opened JobQueue
  import QueueRuns

  datatype Scan = Scan(run: JobState, job: Job)

  /** What the only scan worker is doing. */
  datatype Exec =
    | Idle
    | Holding(id: nat)                     // claimed, cancel flag not yet read
    | Scanning(id: nat)
    | Ending(id: nat, verdict: JobState)   // about to close the run
    | Marking(id: nat, verdict: JobState)  // run closed, about to mark the job

  datatype State = State(scans: seq<Scan>, exec: Exec)

  datatype Action =
    | RequestScan(now: Time)
    | CancelRun(id: nat)
    | CancelJob(id: nat)
    | Claim(id: nat, worker: string, now: Time, lease: int)
    | CheckFlag(readOk: bool)
    | Progress(writeOk: bool)
    | Notice(writeOk: bool)
    | Finish(ok: bool)
    | CloseRun(writeOk: bool)
    | CloseJob(writeOk: bool)
    | Beat(now: Time, lease: int)
    | Recover(now: Time, force: bool)
    | Reconcile
    | Crash

  const EMPTY := State([], Idle)

  function NewScan(now: Time): Scan { Scan(Queued, QueueRuns.ScanJob("library-scan", now)) }

  /** The newest active run. */
  function ActiveRun(scans: seq<Scan>): (r: Option<nat>)
    ensures r.Some? ==> r.value < |scans| && Active(scans[r.value].run)
    ensures r.Some? ==> forall k | r.value < k < |scans| :: !Active(scans[k].run)
    ensures r.None? ==> forall k | 0 <= k < |scans| :: !Active(scans[k].run)
  {
    if scans == [] then None
    else
      var last := |scans| - 1;
      if Active(scans[last].run) then Some(last) else ActiveRun(scans[..last])
  }

  function Requested(scans: seq<Scan>, now: Time): seq<Scan> {
    if ActiveRun(scans).Some? then scans else scans + [NewScan(now)]
  }

  function RunCancelled(c: Scan): Scan {
    if c.run == Running then c.(run := Cancelling) else c
  }

  predicate Orphaned(c: Scan) { Active(c.run) && !Active(c.job.state) }

  function Reconciled(c: Scan): Scan {
    if Orphaned(c) then c.(run := Failed) else c
  }

  function AllReconciled(scans: seq<Scan>): (r: seq<Scan>)
    ensures |r| == |scans| && forall i | 0 <= i < |scans| :: r[i] == Reconciled(scans[i])
  {
    seq(|scans|, i requires 0 <= i < |scans| => Reconciled(scans[i]))
  }

  function JobRecovered(c: Scan, now: Time, force: bool): Scan {
    c.(job := Recovered(c.job, now, force))
  }

  function JobsRecovered(scans: seq<Scan>, now: Time, force: bool): (r: seq<Scan>)
    ensures |r| == |scans| && forall i | 0 <= i < |scans| :: r[i] == JobRecovered(scans[i], now, force)
  {
    seq(|scans|, i requires 0 <= i < |scans| => JobRecovered(scans[i], now, force))
  }

  function SetRun(s: State, id: nat, run: JobState, writeOk: bool): State {
    if writeOk && id < |s.scans| then s.(scans := s.scans[id := s.scans[id].(run := run)]) else s
  }

  function SetJob(s: State, id: nat, job: Job): State {
    if id < |s.scans| then s.(scans := s.scans[id := s.scans[id].(job := job)]) else s
  }

  /** The worker loop of the scan thread, one database call at a time. */
  function Work(s: State, a: Action): State {
    match (a, s.exec)
    case (Claim(id, w, now, lease), Idle) =>
      if id < |s.scans| && Eligible(s.scans[id].job, now, Kinds([QueueRuns.SCAN_KIND], [])) then
        SetJob(s, id, Claimed(s.scans[id].job, now, lease, w)).(exec := Holding(id))
      else s
    case (CheckFlag(readOk), Holding(id)) =>
      if readOk && id < |s.scans| && s.scans[id].job.cancelRequested then s.(exec := Ending(id, Cancelled))
      else s.(exec := Scanning(id))
    case (Progress(writeOk), Scanning(id)) => SetRun(s, id, Running, writeOk)
    case (Notice(writeOk), Scanning(id)) => SetRun(s, id, Cancelling, writeOk).(exec := Ending(id, Cancelled))
    case (Finish(ok), Scanning(id)) => s.(exec := Ending(id, if ok then Completed else Failed))
    case (CloseRun(writeOk), Ending(id, v)) => SetRun(s, id, v, writeOk).(exec := Marking(id, v))
    case (CloseJob(writeOk), Marking(id, v)) =>
      if id < |s.scans| && writeOk then SetJob(s, id, Marked(s.scans[id].job, v)).(exec := Idle) else s.(exec := Idle)
    case _ => s
  }

  function Step(s: State, a: Action): State {
    match a
    case RequestScan(now) => s.(scans := Requested(s.scans, now))
    case CancelRun(id) => if id < |s.scans| then s.(scans := s.scans[id := RunCancelled(s.scans[id])]) else s
    case CancelJob(id) => if id < |s.scans| then SetJob(s, id, CancelAsked(s.scans[id].job)) else s
    case Beat(now, lease) =>
      if !s.exec.Idle? && s.exec.id < |s.scans| then SetJob(s, s.exec.id, Beaten(s.scans[s.exec.id].job, now, lease)) else s
    case Recover(now, force) => s.(scans := JobsRecovered(s.scans, now, force))
    case Reconcile => if s.exec.Idle? then s.(scans := AllReconciled(s.scans)) else s
    case Crash => s.(exec := Idle)
    case _ => Work(s, a)
  }

  function Run(s: State, acts: seq<Action>): State {
    if acts == [] then s else Step(Run(s, acts[..|acts| - 1]), acts[|acts| - 1])
  }

  // ----- at most one active run -----

  predicate OneActive(scans: seq<Scan>) {
    forall i, k | 0 <= i < k < |scans| :: !(Active(scans[i].run) && Active(scans[k].run))
  }

  /** A scan job is claimed once at most, and its run stays queued until then. */
  predicate Paired(c: Scan) {
    && c.job.maxAttempts == 1 && c.job.kind == QueueRuns.SCAN_KIND && QueueRuns.RowInv(c.job)
    && (c.job.state.Queued? ==> c.run.Queued? && c.job.nextAttempt.None?)
  }

  predicate AllPaired(scans: seq<Scan>) {
    forall i | 0 <= i < |scans| :: Paired(scans[i])
  }

  /** The worker's run is active until the worker itself closes it. */
  predicate Working(scans: seq<Scan>, exec: Exec) {
    !exec.Idle? ==>
      && exec.id < |scans| && scans[exec.id].job.attempts >= 1
      && (!exec.Marking? ==> Active(scans[exec.id].run))
      && (exec.Ending? || exec.Marking? ==> !Active(exec.verdict))
  }

  predicate Inv(s: State) {
    OneActive(s.scans) && AllPaired(s.scans) && Working(s.scans, s.exec)
  }

  /** One run changes without waking up, or the worker changes its own active run. */
  lemma RowKeeps(s: State, id: nat, c: Scan)
    requires Inv(s) && id < |s.scans| && Paired(c)
    requires Active(c.run) ==> Active(s.scans[id].run)
    ensures OneActive(s.scans[id := c]) && AllPaired(s.scans[id := c])
  {
    hide Paired;
  }

  lemma RowsKeep(s: State, t: seq<Scan>)
    requires Inv(s) && |t| == |s.scans|
    requires forall i | 0 <= i < |t| ::
      Paired(t[i]) && (Active(t[i].run) ==> Active(s.scans[i].run))
    ensures OneActive(t) && AllPaired(t)
  {
    hide Paired;
  }

  /** What each call does to one pair. */
  lemma AnyRun(c: Scan, run: JobState)
    requires Paired(c) && c.job.attempts >= 1
    ensures Paired(c.(run := run))
  {
  }

  lemma MarkKeepsPair(c: Scan, state: JobState)
    requires Paired(c) && !Active(state)
    ensures Paired(c.(job := Marked(c.job, state))) && Marked(c.job, state).attempts == c.job.attempts
  {
  }

  /** A scan job has one attempt, so recovery fails it and never requeues it. */
  lemma RecoverKeepsPair(c: Scan, now: Time, force: bool)
    requires Paired(c)
    ensures Paired(JobRecovered(c, now, force))
    ensures var job := JobRecovered(c, now, force).job;
            && JobRecovered(c, now, force).run == c.run && job.attempts == c.job.attempts
            && job == if Stale(c.job, now, force) then c.job.(state := Failed) else c.job
  {
  }

  lemma ReconcileKeepsPair(c: Scan)
    requires Paired(c)
    ensures Paired(Reconciled(c)) && (Active(Reconciled(c).run) ==> Active(c.run)) && Reconciled(c).job == c.job
  {
  }

  lemma ClaimKeepsPair(c: Scan, now: Time, lease: int, w: string)
    requires Paired(c) && c.job.state.Queued?
    ensures Paired(c.(job := Claimed(c.job, now, lease, w))) && c.run.Queued?
  {
  }

  lemma RequestKeeps(s: State, now: Time)
    requires Inv(s)
    ensures Inv(s.(scans := Requested(s.scans, now)))
  {
    assert Paired(NewScan(now));
    hide Paired;
  }

  lemma WorkKeeps(s: State, a: Action)
    requires Inv(s)
    ensures Inv(Work(s, a))
  {
    hide Claimed, Paired, QueueRuns.RowInv;
    match (a, s.exec)
    case (Claim(id, w, now, lease), Idle) =>
      if id < |s.scans| && s.scans[id].job.state.Queued? {
        ClaimKeepsPair(s.scans[id], now, lease, w);
        assert Claimed(s.scans[id].job, now, lease, w).attempts >= 1 by { ClaimCounts(s.scans[id].job, now, lease, w); }
        RowKeeps(s, id, s.scans[id].(job := Claimed(s.scans[id].job, now, lease, w)));
      }
    case (CloseJob(_), Marking(id, v)) =>
      MarkKeepsPair(s.scans[id], v);
      RowKeeps(s, id, s.scans[id].(job := Marked(s.scans[id].job, v)));
    case (Progress(_), Scanning(id)) =>
      AnyRun(s.scans[id], Running);
      RowKeeps(s, id, s.scans[id].(run := Running));
    case (Notice(_), Scanning(id)) =>
      AnyRun(s.scans[id], Cancelling);
      RowKeeps(s, id, s.scans[id].(run := Cancelling));
    case (CloseRun(_), Ending(id, v)) =>
      AnyRun(s.scans[id], v);
      RowKeeps(s, id, s.scans[id].(run := v));
    case _ =>
  }

  lemma ClaimCounts(j: Job, now: Time, lease: int, w: string)
    ensures Claimed(j, now, lease, w).attempts == j.attempts + 1
  {
  }

  lemma StepKeeps(s: State, a: Action)
    requires Inv(s)
    ensures Inv(Step(s, a))
  {
    hide Work, JobRecovered, Reconciled, Requested, Paired, Beaten, CancelAsked;
    match a
    case RequestScan(now) => RequestKeeps(s, now);
    case CancelRun(id) => if id < |s.scans| { CancelKeeps(s, id); }
    case CancelJob(id) =>
      if id < |s.scans| {
        CancelAskedKeeps(s.scans[id]);
        RowKeeps(s, id, s.scans[id].(job := CancelAsked(s.scans[id].job)));
      }
    case Beat(now, lease) =>
      if !s.exec.Idle? {
        BeatKeepsPair(s.scans[s.exec.id], now, lease);
        RowKeeps(s, s.exec.id, s.scans[s.exec.id].(job := Beaten(s.scans[s.exec.id].job, now, lease)));
      }
    case Recover(now, force) =>
      forall i | 0 <= i < |s.scans|
        ensures Paired(JobRecovered(s.scans[i], now, force))
        ensures JobRecovered(s.scans[i], now, force).run == s.scans[i].run
        ensures JobRecovered(s.scans[i], now, force).job.attempts == s.scans[i].job.attempts
      {
        RecoverKeepsPair(s.scans[i], now, force);
      }
      RowsKeep(s, JobsRecovered(s.scans, now, force));
    case Reconcile =>
      forall i | 0 <= i < |s.scans|
        ensures Paired(Reconciled(s.scans[i])) && (Active(Reconciled(s.scans[i]).run) ==> Active(s.scans[i].run))
      {
        ReconcileKeepsPair(s.scans[i]);
      }
      RowsKeep(s, AllReconciled(s.scans));
    case Crash =>
    case _ => WorkKeeps(s, a);
  }

  lemma CancelAskedKeeps(c: Scan)
    requires Paired(c)
    ensures Paired(c.(job := CancelAsked(c.job))) && CancelAsked(c.job).attempts == c.job.attempts
  {
  }

  lemma BeatKeepsPair(c: Scan, now: Time, lease: int)
    requires Paired(c)
    ensures Paired(c.(job := Beaten(c.job, now, lease))) && Beaten(c.job, now, lease).attempts == c.job.attempts
  {
  }

  lemma CancelKeeps(s: State, id: nat)
    requires Inv(s) && id < |s.scans|
    ensures Inv(s.(scans := s.scans[id := RunCancelled(s.scans[id])]))
  {
    assert Paired(RunCancelled(s.scans[id]));
    RowKeeps(s, id, RunCancelled(s.scans[id]));
  }

  lemma {:induction false} RunInv(acts: seq<Action>)
    ensures Inv(Run(EMPTY, acts))
  {
    if acts != [] {
      RunInv(acts[..|acts| - 1]);
      StepKeeps(Run(EMPTY, acts[..|acts| - 1]), acts[|acts| - 1]);
    }
  }

  /** Over every run of requests, cancels, scans, crashes and recoveries, at most one
      scan run is queued, running or cancelling, whatever writes are lost. */
  lemma OneActiveRun(acts: seq<Action>, i: nat, k: nat)
    requires i < |Run(EMPTY, acts).scans| && k < |Run(EMPTY, acts).scans|
    requires Active(Run(EMPTY, acts).scans[i].run) && Active(Run(EMPTY, acts).scans[k].run)
    ensures i == k
  {
    RunInv(acts);
  }

  // ----- restart -----

  /** What a restart does: the worker is gone, boot recovery fails the running jobs,
      then the scan worker reconciles the runs. */
  function Reboot(s: State, now: Time): State {
    Step(Step(Step(s, Crash), Recover(now, true)), Reconcile)
  }

  /** Any reachable state and restart: an active run whose job was running or had
      ended is failed and every other run is as it was; an active run's job is not
      terminal. */
  lemma RestartReconciles(acts: seq<Action>, now: Time, i: nat)
    requires i < |Run(EMPTY, acts).scans|
    ensures var s, t := Run(EMPTY, acts), Reboot(Run(EMPTY, acts), now);
            && |t.scans| == |s.scans| && t.exec.Idle?
            && (var was, after := s.scans[i], t.scans[i];
                && after.run == (if Active(was.run) && !was.job.state.Queued? && !was.job.state.Cancelling? then Failed else was.run)
                && after.job == (if was.job.state.Running? then was.job.(state := Failed) else was.job)
                && (Active(after.run) ==> after.job.state.Queued? || after.job.state.Cancelling?))
  {
    RunInv(acts);
    var s := Run(EMPTY, acts);
    hide Run;
    RebootRow(s, now, i);
  }

  lemma RebootRow(s: State, now: Time, i: nat)
    requires Inv(s) && i < |s.scans|
    ensures var t := Reboot(s, now);
            && Inv(t) && |t.scans| == |s.scans| && t.exec.Idle?
            && t.scans[i] == Rebooted(s.scans[i])
  {
    StepKeeps(s, Crash);
    StepKeeps(Step(s, Crash), Recover(now, true));
    StepKeeps(Step(Step(s, Crash), Recover(now, true)), Reconcile);
    RecoverKeepsPair(s.scans[i], now, true);
    hide Inv, Paired;
  }

  function Rebooted(c: Scan): Scan {
    Scan(if Active(c.run) && !c.job.state.Queued? && !c.job.state.Cancelling? then Failed else c.run,
         if c.job.state.Running? then c.job.(state := Failed) else c.job)
  }

  // ----- the wedge -----

  /** An active run whose job is cancelling and which no worker holds. */
  predicate Stuck(s: State, id: nat) {
    && id < |s.scans| && Active(s.scans[id].run) && s.scans[id].job.state.Cancelling?
    && (s.exec.Idle? || s.exec.id != id)
  }

  lemma StepStuck(s: State, a: Action, id: nat)
    requires Inv(s) && Stuck(s, id)
    ensures Stuck(Step(s, a), id) && |Step(s, a).scans| == |s.scans|
  {
    hide Paired, Beaten, Claimed;
    if a.Recover? {
      RecoverKeepsPair(s.scans[id], a.now, a.force);
    }
  }

  lemma {:induction false} StuckForever(s: State, acts: seq<Action>, id: nat)
    requires Inv(s) && Stuck(s, id)
    ensures Inv(Run(s, acts)) && Stuck(Run(s, acts), id) && |Run(s, acts).scans| == |s.scans|
  {
    if acts != [] {
      StuckForever(s, acts[..|acts| - 1], id);
      StepKeeps(Run(s, acts[..|acts| - 1]), acts[|acts| - 1]);
      StepStuck(Run(s, acts[..|acts| - 1]), acts[|acts| - 1], id);
    }
  }

  /** A queued scan job is due at once: it is never put off. */
  lemma ClaimDue(s: State, id: nat, now: Time)
    requires Inv(s) && id < |s.scans| && s.scans[id].job.state.Queued?
    ensures Eligible(s.scans[id].job, now, Kinds([QueueRuns.SCAN_KIND], []))
  {
    assert Paired(s.scans[id]);
  }

  /** A scan that the worker takes to its end, completed or cancelled, with every read and
      write succeeding, after which a new one is accepted. */
  function ScanThrough(id: nat, now: Time): seq<Action> {
    [Claim(id, "w", now, 60), CheckFlag(true), Finish(true), CloseRun(true), CloseJob(true), RequestScan(now)]
  }

  lemma RunPrefix(s: State, acts: seq<Action>, a: Action)
    ensures Run(s, acts + [a]) == Step(Run(s, acts), a)
  {
    assert (acts + [a])[..|acts|] == acts;
  }

  lemma ScanThroughFrees(s: State, id: nat, now: Time)
    requires Inv(s) && s.exec.Idle? && id < |s.scans| && s.scans[id].job.state.Queued?
    ensures |Run(s, ScanThrough(id, now)).scans| > |s.scans|
  {
    ScannedState(s, id, now);
    CloseAndRequest(Scanned(s, id, now), id, now);
    Runs6(s, ScanThrough(id, now));
    hide Run, Inv, Step;
  }

  lemma CloseAndRequest(t: State, id: nat, now: Time)
    requires t.exec.Marking? && t.exec.id == id && id < |t.scans| && !Active(t.scans[id].run)
    requires forall k | 0 <= k < |t.scans| && k != id :: !Active(t.scans[k].run)
    ensures |Step(Step(t, CloseJob(true)), RequestScan(now)).scans| == |t.scans| + 1
  {
    hide Requested, Marked;
    RequestedGrows(Step(t, CloseJob(true)).scans, now);
  }

  lemma RequestedGrows(scans: seq<Scan>, now: Time)
    requires forall k | 0 <= k < |scans| :: !Active(scans[k].run)
    ensures |Requested(scans, now)| == |scans| + 1
  {
  }

  function Scanned(s: State, id: nat, now: Time): State {
    Step(Step(Step(Step(s, Claim(id, "w", now, 60)), CheckFlag(true)), Finish(true)), CloseRun(true))
  }

  lemma ScannedState(s: State, id: nat, now: Time)
    requires Inv(s) && s.exec.Idle? && id < |s.scans| && s.scans[id].job.state.Queued?
    ensures var t := Scanned(s, id, now);
            && t.exec.Marking? && t.exec.id == id && !Active(t.exec.verdict) && |t.scans| == |s.scans|
            && !Active(t.scans[id].run)
            && forall k | 0 <= k < |s.scans| && k != id :: !Active(t.scans[k].run)
  {
    ClaimDue(s, id, now);
    assert Paired(s.scans[id]);
    hide Eligible, Claimed;
    var s1 := Step(s, Claim(id, "w", now, 60));
    assert s1 == State(s.scans[id := s.scans[id].(job := Claimed(s.scans[id].job, now, 60, "w"))], Holding(id));
    var s2 := Step(s1, CheckFlag(true));
    assert s2 == s1.(exec := Scanning(id)) || s2 == s1.(exec := Ending(id, Cancelled));
    var s3 := Step(s2, Finish(true));
    assert s3 == s1.(exec := Ending(id, Completed)) || s3 == s1.(exec := Ending(id, Cancelled));
  }

  lemma Runs6(s: State, acts: seq<Action>)
    requires |acts| == 6
    ensures Run(s, acts) == Step(Step(Step(Step(Step(Step(s, acts[0]), acts[1]), acts[2]), acts[3]), acts[4]), acts[5])
  {
    hide Step;
    assert forall n | 0 <= n < 6 :: acts[..n + 1] == acts[..n] + [acts[n]];
    assert acts[..6] == acts;
    RunPrefix(s, acts[..0], acts[0]);
    RunPrefix(s, acts[..1], acts[1]);
    RunPrefix(s, acts[..2], acts[2]);
    RunPrefix(s, acts[..3], acts[3]);
    RunPrefix(s, acts[..4], acts[4]);
    RunPrefix(s, acts[..5], acts[5]);
  }

  /** After any restart, some continuation gets a new scan accepted if and only if the
      restart did not find an active run whose job was cancelling. Such a run blocks
      every later scan for good, whatever is cancelled, restarted or reconciled. */
  lemma NewScanIffNotStuck(acts: seq<Action>, now: Time)
    ensures var s, t := Run(EMPTY, acts), Reboot(Run(EMPTY, acts), now);
            (exists more :: |Run(t, more).scans| > |t.scans|) <==>
            !(exists i :: 0 <= i < |s.scans| && Active(s.scans[i].run) && s.scans[i].job.state.Cancelling?)
  {
    RunInv(acts);
    var s := Run(EMPTY, acts);
    var t := Reboot(s, now);
    RebootFacts(s, now);
    if i :| 0 <= i < |s.scans| && Active(s.scans[i].run) && s.scans[i].job.state.Cancelling? {
      RebootRow(s, now, i);
      forall more ensures |Run(t, more).scans| == |t.scans| {
        StuckForever(t, more, i);
      }
    } else {
      var r := ActiveRun(t.scans);
      if r.None? {
        RunPrefix(t, [], RequestScan(now));
        assert |Run(t, [] + [RequestScan(now)]).scans| > |t.scans|;
      } else {
        RebootRow(s, now, r.value);
        ClaimDue(t, r.value, now);
        ScanThroughFrees(t, r.value, now);
      }
    }
  }

  lemma RebootFacts(s: State, now: Time)
    requires Inv(s)
    ensures Inv(Reboot(s, now)) && |Reboot(s, now).scans| == |s.scans| && Reboot(s, now).exec.Idle?
  {
    StepKeeps(s, Crash);
    StepKeeps(Step(s, Crash), Recover(now, true));
    StepKeeps(Step(Step(s, Crash), Recover(now, true)), Reconcile);
  }

  // ----- the course of a scan -----

  /** How a scan that the worker holds comes to its end. */
  datatype Course = AskedBefore | Through(ok: bool) | Noticed

  function CourseActs(c: Course): seq<Action> {
    match c
    case AskedBefore => [CheckFlag(true), CloseRun(true), CloseJob(true)]
    case Through(ok) => [CheckFlag(true), Progress(true), Finish(ok), CloseRun(true), CloseJob(true)]
    case Noticed => [CheckFlag(true), Progress(true), Notice(true), CloseRun(true), CloseJob(true)]
  }

  /** A scan that is held, with every call succeeding: the run and its job end in the same
      state, cancelled if a cancel was seen before the start or noticed on the way, failed if
      the scan failed, and completed otherwise. No other scan is touched. */
  lemma ScanEnds(s: State, id: nat, c: Course)
    requires s.exec == Holding(id) && id < |s.scans| && (c.AskedBefore? <==> s.scans[id].job.cancelRequested)
    ensures var t := Run(s, CourseActs(c));
            var end := match c case AskedBefore => Cancelled case Through(ok) => if ok then Completed else Failed case Noticed => Cancelled;
            t.exec.Idle? && t.scans == s.scans[id := Scan(end, s.scans[id].job.(state := end))]
  {
    hide Run, Step;
    match c
    case AskedBefore =>
      Runs3(s, CourseActs(c));
      AskedEnds(s, id);
    case Through(ok) =>
      Runs5(s, CourseActs(c));
      ScanningEnds(s, id, if ok then Completed else Failed, Finish(ok));
    case Noticed =>
      Runs5(s, CourseActs(c));
      ScanningEnds(s, id, Cancelled, Notice(true));
  }

  lemma AskedEnds(s: State, id: nat)
    requires s.exec == Holding(id) && id < |s.scans| && s.scans[id].job.cancelRequested
    ensures var t := Step(Step(Step(s, CheckFlag(true)), CloseRun(true)), CloseJob(true));
            t.exec.Idle? && t.scans == s.scans[id := Scan(Cancelled, s.scans[id].job.(state := Cancelled))]
  {
    assert Step(s, CheckFlag(true)) == s.(exec := Ending(id, Cancelled));
    var s2 := Step(s.(exec := Ending(id, Cancelled)), CloseRun(true));
    assert s2.exec == Marking(id, Cancelled) && s2.scans == s.scans[id := s.scans[id].(run := Cancelled)];
  }

  lemma ScanningEnds(s: State, id: nat, end: JobState, a: Action)
    requires s.exec == Holding(id) && id < |s.scans| && !s.scans[id].job.cancelRequested
    requires (a == Notice(true) && end == Cancelled) || (a.Finish? && end == if a.ok then Completed else Failed)
    ensures var t := Step(Step(Step(Step(Step(s, CheckFlag(true)), Progress(true)), a), CloseRun(true)), CloseJob(true));
            t.exec.Idle? && t.scans == s.scans[id := Scan(end, s.scans[id].job.(state := end))]
  {
    var s1 := s.(exec := Scanning(id));
    assert Step(s, CheckFlag(true)) == s1;
    var s2 := s1.(scans := s.scans[id := s.scans[id].(run := Running)]);
    assert Step(s1, Progress(true)) == s2;
    var s3 := Step(s2, a);
    assert s3.exec == Ending(id, end) && s3.scans == s.scans[id := s.scans[id].(run := if a.Notice? then Cancelling else Running)];
    var s4 := Step(s3, CloseRun(true));
    assert s4.exec == Marking(id, end) && s4.scans == s.scans[id := s.scans[id].(run := end)];
  }

  lemma Runs3(s: State, acts: seq<Action>)
    requires |acts| == 3
    ensures Run(s, acts) == Step(Step(Step(s, acts[0]), acts[1]), acts[2])
  {
    hide Step;
    assert forall n | 0 <= n < 3 :: acts[..n + 1] == acts[..n] + [acts[n]];
    assert acts[..3] == acts;
    RunPrefix(s, acts[..0], acts[0]);
    RunPrefix(s, acts[..1], acts[1]);
    RunPrefix(s, acts[..2], acts[2]);
  }

  lemma Runs5(s: State, acts: seq<Action>)
    requires |acts| == 5
    ensures Run(s, acts) == Step(Step(Step(Step(Step(s, acts[0]), acts[1]), acts[2]), acts[3]), acts[4])
  {
    hide Step;
    Runs3(s, acts[..3]);
    assert acts[..4] == acts[..3] + [acts[3]] && acts == acts[..4] + [acts[4]];
    RunPrefix(s, acts[..3], acts[3]);
    RunPrefix(s, acts[..4], acts[4]);
  }

  predicate ReadsOk(acts: seq<Action>) { forall a | a in acts :: a.CheckFlag? ==> a.readOk }

  /** The job's flag is set and the scan is not under way. */
  predicate Barred(s: State, id: nat) {
    id < |s.scans| && s.scans[id].job.cancelRequested && s.exec != Scanning(id)
  }

  lemma StepBarred(s: State, a: Action, id: nat)
    requires Barred(s, id) && (a.CheckFlag? ==> a.readOk)
    ensures Barred(Step(s, a), id)
  {
    hide Requested;
    if a.RequestScan? { RequestedKeeps(s.scans, a.now, id); }
  }

  lemma RequestedKeeps(scans: seq<Scan>, now: Time, id: nat)
    requires id < |scans|
    ensures id < |Requested(scans, now)| && Requested(scans, now)[id] == scans[id]
  {
  }

  lemma {:induction false} RunBarred(s: State, acts: seq<Action>, id: nat)
    requires Barred(s, id) && ReadsOk(acts)
    ensures Barred(Run(s, acts), id)
  {
    if acts != [] {
      assert acts[|acts| - 1] in acts && forall a | a in acts[..|acts| - 1] :: a in acts;
      RunBarred(s, acts[..|acts| - 1], id);
      StepBarred(Run(s, acts[..|acts| - 1]), acts[|acts| - 1], id);
    }
  }

  /** A cancel of a scan that is not under way, with its job still active: the run is
      cancelling if it was running, and the scan never starts in any continuation in which
      flag reads succeed. */
  lemma ScanCancelIsFinal(s: State, id: nat, acts: seq<Action>)
    requires id < |s.scans| && s.scans[id].job.state in {Queued, Running, Cancelling} && s.exec != Scanning(id) && ReadsOk(acts)
    ensures var t := Step(Step(s, CancelRun(id)), CancelJob(id));
            && t.exec == s.exec && |t.scans| == |s.scans|
            && t.scans[id].run == (if s.scans[id].run == Running then Cancelling else s.scans[id].run)
            && Run(t, acts).exec != Scanning(id)
  {
    var t := Step(Step(s, CancelRun(id)), CancelJob(id));
    assert Barred(t, id);
    RunBarred(t, acts, id);
  }

  /** A heartbeat keeps the job of the scan from recovery for as long as it asks. */
  lemma BeatHoldsOff(s: State, now: Time, lease: int, later: Time)
    requires !s.exec.Idle? && s.exec.id < |s.scans| && s.scans[s.exec.id].job.state == Running && later <= now + lease
    ensures var t := Step(Step(s, Beat(now, lease)), Recover(later, false));
            |t.scans| == |s.scans| && t.scans[s.exec.id].job == s.scans[s.exec.id].job.(lease := Some(now + lease))
  {
    hide Work, Requested;
    var j := s.scans[s.exec.id].job.(lease := Some(now + lease));
    assert Step(s, Beat(now, lease)).scans[s.exec.id].job == j;
    assert Recovered(j, later, false) == j;
  }

  /** The queue's own step for a scan adds the same row. */
  lemma ScanRow(q: QueueRuns.Sys, jid: string, now: Time)
    requires jid != ""
    ensures QueueRuns.Step(q, QueueRuns.InsertScan(jid, now)).jobs ==
            q.jobs + [Job(jid, "library_scan", Queued, 50, now, 0, 1, "library_scan", false, None, None, None, None)]
    ensures NewScan(now).job.(jid := jid) ==
            Job(jid, "library_scan", Queued, 50, now, 0, 1, "library_scan", false, None, None, None, None)
  {
  }

  // ----- the table -----

  class ScanTable {
    var scans: seq<Scan>

    constructor ()
      ensures scans == []
    {
      scans := [];
    }

    method ActiveLibraryScanRun() returns (r: Option<nat>)
      ensures r == ActiveRun(scans)
    {
      var i := |scans|;
      assert scans[..i] == scans;
      while i > 0
        invariant 0 <= i <= |scans|
        invariant ActiveRun(scans) == ActiveRun(scans[..i])
      {
        i := i - 1;
        assert scans[..i + 1][..i] == scans[..i];
        if Active(scans[i].run) { return Some(i); }
      }
      r := None;
    }

    /** `enqueue_library_scan`: the active run, which is new only if there was none. */
    method EnqueueLibraryScan(now: Time) returns (r: nat)
      modifies this
      ensures scans == Requested(old(scans), now)
      ensures if forall k | 0 <= k < |old(scans)| :: old(scans)[k].run in {Completed, Failed, Cancelled}
              then && |scans| == |old(scans)| + 1 && r == |old(scans)| && scans[..r] == old(scans) && scans[r].run == Queued
                   && scans[r].job.(jid := "") ==
                      Job("", "library_scan", Queued, 50, now, 0, 1, "library_scan", false, None, None, None, None)
              else scans == old(scans)
      ensures r < |scans| && Active(scans[r].run)
      ensures OneActive(old(scans)) ==> forall k | 0 <= k < |scans| && k != r :: !Active(scans[k].run)
    {
      var existing := ActiveLibraryScanRun();
      if existing.Some? { return existing.value; }
      r := |scans|;
      scans := scans + [NewScan(now)];
    }

    /** `reconcile_orphaned_library_scan_runs`: collect the orphans, then fail each. */
    method ReconcileOrphaned() returns (n: nat)
      modifies this
      ensures scans == AllReconciled(old(scans))
      ensures forall i | 0 <= i < |scans| :: Active(scans[i].run) ==> Active(scans[i].job.state)
      ensures n == 0 ==> scans == old(scans)
    {
      var orphaned: seq<nat> := [];
      var i := 0;
      while i < |scans|
        invariant 0 <= i <= |scans|
        invariant forall k | 0 <= k < i && Orphaned(scans[k]) :: k in orphaned
        invariant forall k | k in orphaned :: k < i && Orphaned(scans[k])
        invariant scans == old(scans)
      {
        if Orphaned(scans[i]) { orphaned := orphaned + [i]; }
        i := i + 1;
      }
      n := 0;
      while n < |orphaned|
        invariant 0 <= n <= |orphaned| && |scans| == |old(scans)|
        invariant forall k | 0 <= k < |scans| ::
          scans[k] == if k in orphaned[..n] then old(scans)[k].(run := Failed) else old(scans)[k]
      {
        assert orphaned[n] in orphaned && orphaned[..n + 1] == orphaned[..n] + [orphaned[n]];
        scans := scans[orphaned[n] := scans[orphaned[n]].(run := Failed)];
        n := n + 1;
      }
      assert orphaned[..n] == orphaned;
      assert forall k | 0 <= k < |scans| :: scans[k] == Reconciled(old(scans)[k]);
    }
  }
}

/** The worker queue as a whole: workers (app/worker.py and
    app/library_scan_worker.py), API requests, periodic and boot recovery, and
    crashes, interleaved in any order over the rows of JobQueue. Any database call of
    a worker may fail without effect, as state_db swallows its exceptions. */
module QueueRuns {
  import opened Wrappers
  import opened JobQueue

  /** What a worker thread is doing, with the job row it was handed by its claim. */
  datatype Local =
    | Idle
    | Holding(id: nat, job: Job)     // claimed, cancel flag not yet read
    | Stopping(id: nat, job: Job)    // saw the flag before starting
    | Executing(id: nat, job: Job)   // the executor runs
    | Retrying(id: nat, job: Job)    // transient failure, about to requeue
    | Failing(id: nat, job: Job)     // about to mark failed

  datatype Ending = Success | Stopped | Error(transient: bool)

  datatype Action =
    | Enqueue(request: Request, now: Time)
    | InsertScan(jid: string, now: Time)
    | AskCancel(id: nat)
    | Claim(worker: string, id: nat, now: Time, lease: int, kinds: Kinds)
    | CheckFlag(worker: string, readOk: bool)
    | Refuse(worker: string, writeOk: bool)
    | ConfirmStop(worker: string, writeOk: bool)
    | Beat(worker: string, now: Time, lease: int)
    | End(worker: string, ending: Ending, readOk: bool, writeOk: bool)
    | Requeue(worker: string, at: Time, writeOk: bool)
    | Fail(worker: string, writeOk: bool)
    | Recover(now: Time, force: bool)
    | Crash

  /** `starts` records each start of an executor as the row and the number of the
      claim that led to it; `claims` counts the claims. */
  datatype Sys = Sys(jobs: seq<Job>, locals: map<string, Local>, starts: seq<(nat, nat)>, claims: nat)

  const SCAN_KIND := "library_scan"
  const SCAN_KEY := "library_scan"
  const SCAN_PRIORITY := 50

  function Of(s: Sys, w: string): Local {
    if w in s.locals then s.locals[w] else Idle
  }

  function Held(l: Local): Option<nat> {
    if l.Idle? then None else Some(l.id)
  }

  function Set(s: Sys, w: string, l: Local): Sys { s.(locals := s.locals[w := l]) }

  function Update(s: Sys, id: nat, j: Job, really: bool): Sys {
    if really && id < |s.jobs| then s.(jobs := s.jobs[id := j]) else s
  }

  function MarkRow(s: Sys, id: nat, state: JobState, really: bool): Sys {
    if id < |s.jobs| then Update(s, id, Marked(s.jobs[id], state), really) else s
  }

  const RETRY_KINDS := ["tidal_grab", "sab_usenet_grab", "qbittorrent_torrent_grab", "promote_import", "retry_import"]

  /** `_is_transient_failure`, on the row as it was handed to the worker. */
  predicate WorthRetrying(j: Job, transient: bool) {
    j.kind in RETRY_KINDS && j.attempts < (if j.maxAttempts == 0 then 1 else j.maxAttempts) && transient
  }

  function ScanJob(jid: string, now: Time): Job {
    NewJob(Request(jid, SCAN_KIND, SCAN_KEY, SCAN_PRIORITY, 1), now)
  }

  function DoClaim(s: Sys, w: string, id: nat, now: Time, lease: int, kinds: Kinds): Sys {
    if !Of(s, w).Idle? || !IsNext(s.jobs, id, now, kinds) then s
    else
      var j := Claimed(s.jobs[id], now, lease, w);
      Set(s.(jobs := s.jobs[id := j], claims := s.claims + 1), w, Holding(id, j))
  }

  /** The early cancel check of `_execute_job`. A read that fails says "not asked". */
  function DoCheckFlag(s: Sys, w: string, readOk: bool): Sys {
    match Of(s, w)
    case Holding(id, j) =>
      if readOk && id < |s.jobs| && s.jobs[id].cancelRequested then Set(s, w, Stopping(id, j))
      else Set(s.(starts := s.starts + [(id, j.attempts)]), w, Executing(id, j))
    case _ => s
  }

  function DoEnd(s: Sys, w: string, ending: Ending, readOk: bool, writeOk: bool): Sys {
    match Of(s, w)
    case Executing(id, j) => (
      match ending
      case Success => Set(MarkRow(s, id, Completed, writeOk), w, Idle)
      case Stopped => Set(MarkRow(s, id, Cancelled, writeOk), w, Idle)
      case Error(transient) =>
        var asked := readOk && id < |s.jobs| && s.jobs[id].cancelRequested;
        Set(s, w, if !asked && WorthRetrying(j, transient) then Retrying(id, j) else Failing(id, j)))
    case _ => s
  }

  function DoRequeue(s: Sys, w: string, at: Time, writeOk: bool): Sys {
    match Of(s, w)
    case Retrying(id, j) =>
      if writeOk && id < |s.jobs| && Retryable(s.jobs[id])
      then Set(Update(s, id, Requeued(s.jobs[id], at), true), w, Idle)
      else Set(s, w, Failing(id, j))
    case _ => s
  }

  function DoMarkAndRest(s: Sys, w: string, state: JobState, writeOk: bool): Sys {
    match Of(s, w)
    case Idle => s
    case l => Set(MarkRow(s, l.id, state, writeOk), w, Idle)
  }

  function Step(s: Sys, a: Action): Sys {
    match a
    case Enqueue(r, now) => s.(jobs := Enqueued(s.jobs, r, now).0)
    case InsertScan(jid, now) => if jid == "" then s else s.(jobs := s.jobs + [ScanJob(jid, now)])
    case AskCancel(id) => if id < |s.jobs| then Update(s, id, CancelAsked(s.jobs[id]), true) else s
    case Claim(w, id, now, lease, kinds) => DoClaim(s, w, id, now, lease, kinds)
    case CheckFlag(w, readOk) => DoCheckFlag(s, w, readOk)
    case Refuse(w, writeOk) => if Of(s, w).Holding? then DoMarkAndRest(s, w, Failed, writeOk) else s
    case ConfirmStop(w, writeOk) => if Of(s, w).Stopping? then DoMarkAndRest(s, w, Cancelled, writeOk) else s
    case Beat(w, now, lease) =>
      var l := Of(s, w);
      if l.Idle? || l.id >= |s.jobs| then s else Update(s, l.id, Beaten(s.jobs[l.id], now, lease), true)
    case End(w, ending, readOk, writeOk) => DoEnd(s, w, ending, readOk, writeOk)
    case Requeue(w, at, writeOk) => DoRequeue(s, w, at, writeOk)
    case Fail(w, writeOk) => if Of(s, w).Failing? then DoMarkAndRest(s, w, Failed, writeOk) else s
    case Recover(now, force) => s.(jobs := AllRecovered(s.jobs, now, force))
    case Crash => s.(locals := map[])
  }

  function Run(s: Sys, acts: seq<Action>): Sys {
    if acts == [] then s else Step(Run(s, acts[..|acts| - 1]), acts[|acts| - 1])
  }

  const EMPTY := Sys([], map[], [], 0)

  // ----- what no step ever does to a row -----

  predicate SameIdentity(a: Job, b: Job) {
    && a.jid == b.jid && a.kind == b.kind && a.dedupe == b.dedupe && a.maxAttempts == b.maxAttempts
    && a.priority == b.priority && a.createdAt == b.createdAt
  }

  /** How one row may change in one step. */
  predicate RowStep(a: Job, b: Job) {
    && SameIdentity(a, b)
    && a.attempts <= b.attempts
    && (a.cancelRequested ==> b.cancelRequested)
    && (!Active(a.state) ==> !Active(b.state))
  }

  // ----- attempts, leases and owners -----

  /** How often a row may be claimed. For a limit of one or more this is the limit;
      recovery reads a limit of zero as three, and the first claim checks nothing. */
  function Bound(j: Job): nat {
    if j.maxAttempts == 0 then 3 else if j.maxAttempts < 1 then 1 else j.maxAttempts
  }

  predicate RowInv(j: Job) {
    && j.attempts <= Bound(j)
    && (j.state.Queued? ==> j.attempts < Bound(j) && j.lease.None? && j.owner.None?)
    && (j.state.Running? || j.state.Cancelling? ==> j.attempts >= 1 && j.lease.Some? && j.owner.Some?)
  }

  predicate Change(a: Job, b: Job) {
    RowStep(a, b) && (RowInv(a) ==> RowInv(b))
  }

  /** A change that is not a claim. */
  predicate Steady(a: Job, b: Job) {
    Change(a, b) && a.attempts == b.attempts
  }

  predicate Fresh(j: Job) {
    j.jid != "" && j.state.Queued? && j.attempts == 0 && RowInv(j)
  }

  predicate RowsChange(a: seq<Job>, b: seq<Job>) {
    && |a| <= |b|
    && (forall i | 0 <= i < |a| :: Change(a[i], b[i]))
    && (forall i | |a| <= i < |b| :: Fresh(b[i]))
  }

  predicate RowsSteady(a: seq<Job>, b: seq<Job>) {
    && |a| <= |b|
    && (forall i | 0 <= i < |a| :: Steady(a[i], b[i]))
    && (forall i | |a| <= i < |b| :: Fresh(b[i]))
  }

  /** The changes the queue makes to a row. */
  lemma RowChanges(j: Job, r: Request, now: Time, lease: int, w: string, state: JobState, force: bool)
    ensures r.jid != "" ==> Fresh(NewJob(r, now))
    ensures Steady(j, j)
    ensures j.state.Queued? ==> Change(j, Claimed(j, now, lease, w))
    ensures Steady(j, Beaten(j, now, lease))
    ensures !Active(state) ==> Steady(j, Marked(j, state))
    ensures Retryable(j) ==> Steady(j, Requeued(j, now))
    ensures Steady(j, CancelAsked(j))
    ensures Steady(j, Recovered(j, now, force))
  {
    RequeueChange(j, now);
    RecoverChange(j, now, force);
    hide Requeued, Recovered, Retryable;
  }

  lemma RequeueChange(j: Job, at: Time)
    ensures Retryable(j) ==> Steady(j, Requeued(j, at))
  {
  }

  lemma RecoverChange(j: Job, now: Time, force: bool)
    ensures Steady(j, Recovered(j, now, force))
  {
  }

  lemma OneRow(j: Job, now: Time, lease: int)
    ensures Steady(j, j) && Steady(j, Beaten(j, now, lease)) && Steady(j, CancelAsked(j))
    ensures Retryable(j) ==> Steady(j, Requeued(j, now))
    ensures Steady(j, Marked(j, Completed)) && Steady(j, Marked(j, Failed)) && Steady(j, Marked(j, Cancelled))
  {
    hide Steady, Fresh, NewJob, Claimed, Beaten, Marked, Requeued, CancelAsked, Recovered, Retryable;
    var r := Request("", "", "", 0, 0);
    RowChanges(j, r, now, lease, "", Completed, false);
    RowChanges(j, r, now, lease, "", Failed, false);
    RowChanges(j, r, now, lease, "", Cancelled, false);
  }

  lemma EnqueuedShape(jobs: seq<Job>, r: Request, now: Time)
    ensures Enqueued(jobs, r, now).0 == jobs || (r.jid != "" && Enqueued(jobs, r, now).0 == jobs + [NewJob(r, now)])
  {
  }

  lemma NextIsQueued(jobs: seq<Job>, id: nat, now: Time, kinds: Kinds)
    requires IsNext(jobs, id, now, kinds)
    ensures id < |jobs| && jobs[id].state.Queued?
  {
  }

  /** Every step other than a claim keeps the attempts of every row, changes rows in
      the allowed ways only, and adds only fresh ones. */
  lemma StepSteady(s: Sys, a: Action)
    requires !a.Claim?
    ensures RowsSteady(s.jobs, Step(s, a).jobs)
  {
    hide Steady, Fresh, IsNext, Enqueued, NewJob, Claimed, Beaten, Marked, Requeued, CancelAsked, Recovered,
         WorthRetrying, Retryable;
    var now0, lease0 := if a.Beat? then a.now else if a.Requeue? then a.at else 0, if a.Beat? then a.lease else 0;
    forall i | 0 <= i < |s.jobs|
      ensures Steady(s.jobs[i], s.jobs[i])
      ensures Steady(s.jobs[i], Beaten(s.jobs[i], now0, lease0)) && Steady(s.jobs[i], CancelAsked(s.jobs[i]))
      ensures Retryable(s.jobs[i]) ==> Steady(s.jobs[i], Requeued(s.jobs[i], now0))
      ensures Steady(s.jobs[i], Marked(s.jobs[i], Completed)) && Steady(s.jobs[i], Marked(s.jobs[i], Failed))
      ensures Steady(s.jobs[i], Marked(s.jobs[i], Cancelled))
    {
      OneRow(s.jobs[i], now0, lease0);
    }
    match a
    case Enqueue(r, now) =>
      EnqueuedShape(s.jobs, r, now);
      RowChanges(NewJob(r, now), r, now, 0, "", Failed, false);
    case InsertScan(jid, now) =>
      var r := Request(jid, SCAN_KIND, SCAN_KEY, SCAN_PRIORITY, 1);
      RowChanges(NewJob(r, now), r, now, 0, "", Failed, false);
    case Recover(now, force) =>
      forall i | 0 <= i < |s.jobs| ensures Steady(s.jobs[i], Recovered(s.jobs[i], now, force)) {
        RowChanges(s.jobs[i], Request("", "", "", 0, 0), now, 0, "", Failed, force);
      }
    case _ =>
  }

  lemma StepChange(s: Sys, a: Action)
    ensures RowsChange(s.jobs, Step(s, a).jobs)
  {
    hide Change, Fresh, IsNext, Claimed, NewJob, Enqueued;
    if a.Claim? {
      var r := Request("", "", "", 0, 0);
      forall i | 0 <= i < |s.jobs| ensures Change(s.jobs[i], s.jobs[i]) {
        RowChanges(s.jobs[i], r, a.now, a.lease, a.worker, Failed, false);
      }
      if IsNext(s.jobs, a.id, a.now, a.kinds) {
        NextIsQueued(s.jobs, a.id, a.now, a.kinds);
        RowChanges(s.jobs[a.id], r, a.now, a.lease, a.worker, Failed, false);
      }
    } else {
      StepSteady(s, a);
      hide Step;
      assert forall i | 0 <= i < |s.jobs| :: Steady(s.jobs[i], Step(s, a).jobs[i]);
    }
  }

  predicate RowsInv(jobs: seq<Job>) {
    forall i | 0 <= i < |jobs| :: RowInv(jobs[i])
  }

  predicate RowsStep(a: seq<Job>, b: seq<Job>) {
    |a| <= |b| && forall i | 0 <= i < |a| :: RowStep(a[i], b[i])
  }

  /** Over any run: rows keep their identity, attempts never fall, the cancel flag is
      never cleared and a terminal row never becomes active again; and from the empty
      queue on, a queued row has no lease, no owner and an attempt left, a running or
      cancelling row has both, and no row is claimed more often than its bound. */
  lemma {:induction false} RunRows(s: Sys, acts: seq<Action>)
    requires RowsInv(s.jobs)
    ensures RowsStep(s.jobs, Run(s, acts).jobs) && RowsInv(Run(s, acts).jobs)
  {
    if acts != [] {
      var t := Run(s, acts[..|acts| - 1]);
      RunRows(s, acts[..|acts| - 1]);
      StepChange(t, acts[|acts| - 1]);
      ChangesAdd(s.jobs, t.jobs, Run(s, acts).jobs);
    }
  }

  lemma ChangesAdd(a: seq<Job>, b: seq<Job>, c: seq<Job>)
    requires RowsStep(a, b) && RowsInv(b) && RowsChange(b, c)
    ensures RowsStep(a, c) && RowsInv(c)
  {
    forall i | 0 <= i < |a| ensures RowStep(a[i], c[i]) {
      assert RowStep(a[i], b[i]) && Change(b[i], c[i]);
    }
    forall i | 0 <= i < |c| ensures RowInv(c[i]) {
      if i < |b| {
        assert RowInv(b[i]) && Change(b[i], c[i]);
      } else {
        assert Fresh(c[i]);
      }
    }
  }
}

/** The `addurl` branch of the SAB endpoint in app/server.py: concurrent requests for
    one release, each publishing a projection before it is enqueued, interleaved
    with every step of the worker queue. */
module AddUrl {
  import opened Wrappers
  import opened JobQueue
  import QueueRuns

  datatype Phase =
    | Begun
    | Published
    | Given(row: nat)
    | Refused                                  // no row, projection withdrawn
    | Answered(answer: string, from: Option<nat>)

  datatype Req = Req(key: string, kind: string, fallback: bool, phase: Phase)

  /** `projections` are the keys of `_jobs`; a request is known by the jid it minted. */
  datatype State = State(queue: QueueRuns.Sys, projections: set<string>, reqs: map<string, Req>)

  datatype Action =
    | Begin(jid: string, key: string, kind: string, fallback: bool)
    | Look(jid: string, readOk: bool)
    | Put(jid: string, writeOk: bool, now: Time)
    | Confirm(jid: string, readOk: bool)
    | Queue(action: QueueRuns.Action)

  const PRIORITY := 5
  const MAX_ATTEMPTS := 3

  function To(s: State, jid: string, phase: Phase): State
    requires jid in s.reqs
  {
    s.(reqs := s.reqs[jid := s.reqs[jid].(phase := phase)])
  }

  predicate In(s: State, jid: string, phase: Phase) {
    jid in s.reqs && s.reqs[jid].phase == phase
  }

  /** The first dedupe check; a miss publishes the projection. */
  function DoLook(s: State, jid: string, readOk: bool): State {
    if !In(s, jid, Begun) then s
    else
      var key := s.reqs[jid].key;
      var found := if readOk && key != "" then FindActive(s.queue.jobs, key) else None;
      if found.Some? && s.queue.jobs[found.value].jid != "" then
        To(s, jid, Answered(s.queue.jobs[found.value].jid, found))
      else To(s.(projections := s.projections + {jid}), jid, Published)
  }

  function RequestOf(jid: string, r: Req): Request {
    Request(jid, r.kind, r.key, PRIORITY, MAX_ATTEMPTS)
  }

  function DoPut(s: State, jid: string, writeOk: bool, now: Time): State {
    if !In(s, jid, Published) then s
    else
      var (jobs, id) := if writeOk then Enqueued(s.queue.jobs, RequestOf(jid, s.reqs[jid]), now) else (s.queue.jobs, None);
      if id.Some? then To(s.(queue := s.queue.(jobs := jobs)), jid, Given(id.value))
      else if s.reqs[jid].fallback then To(s, jid, Answered(jid, None))
      else To(s.(projections := s.projections - {jid}), jid, Refused)
  }

  /** The second dedupe check: is the row that was given this request's own? */
  function DoConfirm(s: State, jid: string, readOk: bool): State {
    if jid !in s.reqs || !s.reqs[jid].phase.Given? then s
    else
      var row := s.reqs[jid].phase.row;
      if readOk && row < |s.queue.jobs| && s.queue.jobs[row].jid != "" && s.queue.jobs[row].jid != jid then
        To(s.(projections := s.projections - {jid}), jid, Answered(s.queue.jobs[row].jid, Some(row)))
      else To(s, jid, Answered(jid, Some(row)))
  }

  function Step(s: State, a: Action): State {
    match a
    case Begin(jid, key, kind, fallback) =>
      if jid in s.reqs || jid in s.projections || jid == "" then s
      else s.(reqs := s.reqs[jid := Req(key, kind, fallback, Begun)])
    case Look(jid, readOk) => DoLook(s, jid, readOk)
    case Put(jid, writeOk, now) => DoPut(s, jid, writeOk, now)
    case Confirm(jid, readOk) => DoConfirm(s, jid, readOk)
    case Queue(action) => s.(queue := QueueRuns.Step(s.queue, action))
  }

  function Run(s: State, acts: seq<Action>): State {
    if acts == [] then s else Step(Run(s, acts[..|acts| - 1]), acts[|acts| - 1])
  }

  const EMPTY := State(QueueRuns.EMPTY, {}, map[])

  predicate ReadsOk(acts: seq<Action>) {
    forall a | a in acts :: a.Confirm? ==> a.readOk
  }

  // ----- the invariant -----

  predicate Named(jobs: seq<Job>) {
    forall i | 0 <= i < |jobs| :: jobs[i].jid != ""
  }

  /** What holds of one request. */
  predicate ReqInv(jobs: seq<Job>, projections: set<string>, jid: string, r: Req) {
    match r.phase
    case Begun => jid !in projections
    case Published => true
    case Refused => jid !in projections
    case Given(row) => row < |jobs| && jobs[row].dedupe == r.key && jobs[row].jid != ""
    case Answered(answer, Some(row)) =>
      && row < |jobs| && jobs[row].dedupe == r.key
      && answer == jobs[row].jid && (answer != jid ==> jid !in projections)
    case Answered(answer, None) => answer == jid
  }

  predicate Inv(s: State) {
    && Named(s.queue.jobs)
    && forall jid | jid in s.reqs :: jid != "" && ReqInv(s.queue.jobs, s.projections, jid, s.reqs[jid])
  }

  lemma RowsKeepReq(a: seq<Job>, b: seq<Job>, p: set<string>, jid: string, r: Req)
    requires QueueRuns.RowsStep(a, b) && ReqInv(a, p, jid, r)
    ensures ReqInv(b, p, jid, r)
  {
    if r.phase.Given? {
      assert QueueRuns.RowStep(a[r.phase.row], b[r.phase.row]);
    } else if r.phase.Answered? && r.phase.from.Some? {
      assert QueueRuns.RowStep(a[r.phase.from.value], b[r.phase.from.value]);
    }
  }

  lemma QueueKeeps(s: State, a: QueueRuns.Action)
    requires Inv(s)
    ensures Inv(s.(queue := QueueRuns.Step(s.queue, a)))
  {
    var b := QueueRuns.Step(s.queue, a).jobs;
    QueueRuns.StepChange(s.queue, a);
    RowsKeep(s, b);
  }

  lemma RowsKeep(s: State, b: seq<Job>)
    requires Inv(s) && QueueRuns.RowsChange(s.queue.jobs, b)
    ensures Named(b) && forall jid | jid in s.reqs :: ReqInv(b, s.projections, jid, s.reqs[jid])
  {
    forall i | 0 <= i < |s.queue.jobs| ensures QueueRuns.RowStep(s.queue.jobs[i], b[i]) {
      assert QueueRuns.Change(s.queue.jobs[i], b[i]);
    }
    forall i | 0 <= i < |b| ensures b[i].jid != "" {
      if i >= |s.queue.jobs| { assert QueueRuns.Fresh(b[i]); }
    }
    forall jid | jid in s.reqs ensures ReqInv(b, s.projections, jid, s.reqs[jid]) {
      RowsKeepReq(s.queue.jobs, b, s.projections, jid, s.reqs[jid]);
    }
  }

  lemma EnqueueChange(jobs: seq<Job>, r: Request, now: Time)
    ensures QueueRuns.RowsChange(jobs, Enqueued(jobs, r, now).0)
  {
    var q := QueueRuns.Sys(jobs, map[], [], 0);
    QueueRuns.StepChange(q, QueueRuns.Enqueue(r, now));
  }

  lemma PutKeeps(s: State, jid: string, writeOk: bool, now: Time)
    requires Inv(s)
    ensures Inv(DoPut(s, jid, writeOk, now))
  {
    if In(s, jid, Published) && writeOk {
      var r := RequestOf(jid, s.reqs[jid]);
      EnqueueChange(s.queue.jobs, r, now);
      RowsKeep(s, Enqueued(s.queue.jobs, r, now).0);
    }
  }

  lemma {:induction false} RunInv(acts: seq<Action>)
    requires ReadsOk(acts)
    ensures Inv(Run(EMPTY, acts))
  {
    if acts != [] {
      var s := Run(EMPTY, acts[..|acts| - 1]);
      RunInv(acts[..|acts| - 1]);
      match acts[|acts| - 1]
      case Put(jid, writeOk, now) => PutKeeps(s, jid, writeOk, now);
      case Queue(action) => QueueKeeps(s, action);
      case Look(jid, readOk) => LookKeeps(s, jid, readOk);
      case Confirm(jid, readOk) => ConfirmKeeps(s, jid);
      case Begin(_, _, _, _) =>
    }
  }

  lemma LookKeeps(s: State, jid: string, readOk: bool)
    requires Inv(s)
    ensures Inv(DoLook(s, jid, readOk))
  {
  }

  lemma ConfirmKeeps(s: State, jid: string)
    requires Inv(s)
    ensures Inv(DoConfirm(s, jid, true))
  {
  }

  /** Over every interleaving of requests, worker steps, recoveries and crashes whose
      confirming reads succeed: a request that was given a row answers with that row's
      jid, for as long as the row exists, the row carries the request's own key, and a
      request that lost its row to another leaves no projection behind. */
  lemma AnswersNameTheRow(acts: seq<Action>, jid: string)
    requires ReadsOk(acts)
    requires jid in Run(EMPTY, acts).reqs && Run(EMPTY, acts).reqs[jid].phase.Answered?
    ensures var s := Run(EMPTY, acts);
            var r := s.reqs[jid];
            var rows := s.queue.jobs;
            if r.phase.from.None? then r.phase.answer == jid
            else
              && r.phase.from.value < |rows|
              && rows[r.phase.from.value].jid == r.phase.answer && rows[r.phase.from.value].dedupe == r.key
              && (r.phase.answer != jid ==> jid !in s.projections)
  {
    RunInv(acts);
  }

  /** The confirming read matters: a request that lost its row answers with the row's
      jid exactly when that read succeeds. When it fails, the request answers with a
      jid that no row was made for and leaves its projection in the queue. */
  lemma ConfirmingReadDecides(s: State, jid: string, readOk: bool)
    requires Inv(s) && jid in s.reqs && s.reqs[jid].phase.Given?
    requires s.queue.jobs[s.reqs[jid].phase.row].jid != jid && jid in s.projections
    ensures var t := Step(s, Confirm(jid, readOk));
            var phase := t.reqs[jid].phase;
            && phase.Answered?
            && (phase.answer == s.queue.jobs[s.reqs[jid].phase.row].jid <==> readOk)
            && (jid !in t.projections <==> readOk)
  {
  }

  lemma RunFour(s: State, a: Action, b: Action, c: Action, d: Action)
    ensures Run(s, [a, b, c, d]) == Step(Step(Step(Step(s, a), b), c), d)
  {
    hide Step;
    assert [a, b, c, d][..3] == [a, b, c] && [a, b, c][..2] == [a, b] && [a, b][..1] == [a] && [a][..0] == [];
    assert Run(s, [a]) == Step(s, a);
    assert Run(s, [a, b]) == Step(Run(s, [a]), b);
    assert Run(s, [a, b, c]) == Step(Run(s, [a, b]), c);
  }

  /** A request for a key with no active row, left alone: it is given a queued row of its
      own with the lane's priority and attempts, answers with its own jid, and keeps its
      projection. */
  lemma LoneRequest(s: State, jid: string, key: string, kind: string, now: Time)
    requires jid != "" && kind != "" && jid !in s.reqs && jid !in s.projections
    requires key == "" || forall k | 0 <= k < |s.queue.jobs| && s.queue.jobs[k].dedupe == key ::
               s.queue.jobs[k].state in {Completed, Failed, Cancelled}
    ensures var t := Run(s, [Begin(jid, key, kind, false), Look(jid, true), Put(jid, true, now), Confirm(jid, true)]);
            && t.queue.jobs == s.queue.jobs + [Job(jid, kind, Queued, 5, now, 0, 3, key, false, None, None, None, None)]
            && jid in t.reqs && t.reqs[jid].phase == Answered(jid, Some(|s.queue.jobs|))
            && t.projections == s.projections + {jid}
  {
    RunFour(s, Begin(jid, key, kind, false), Look(jid, true), Put(jid, true, now), Confirm(jid, true));
    var s1 := Step(Step(s, Begin(jid, key, kind, false)), Look(jid, true));
    var r := Req(key, kind, false, Published);
    assert s1.queue == s.queue && s1.projections == s.projections + {jid} && jid in s1.reqs && s1.reqs[jid] == r;
    hide Run;
    LonePut(s1, jid, now);
  }

  lemma LonePut(s: State, jid: string, now: Time)
    requires jid != "" && jid in s.reqs && s.reqs[jid].phase == Published && s.reqs[jid].kind != ""
    requires s.reqs[jid].key == "" || forall k | 0 <= k < |s.queue.jobs| && s.queue.jobs[k].dedupe == s.reqs[jid].key ::
               s.queue.jobs[k].state in {Completed, Failed, Cancelled}
    ensures var t := Step(Step(s, Put(jid, true, now)), Confirm(jid, true));
            && t.queue.jobs ==
               s.queue.jobs + [Job(jid, s.reqs[jid].kind, Queued, 5, now, 0, 3, s.reqs[jid].key, false, None, None, None, None)]
            && jid in t.reqs && t.reqs[jid].phase == Answered(jid, Some(|s.queue.jobs|)) && t.projections == s.projections
  {
  }

  /** A request that cannot be enqueued: with the direct path to fall back on it answers with
      its own jid and keeps its projection, otherwise it is refused and withdraws it. */
  lemma FailedPut(s: State, jid: string, now: Time)
    requires jid in s.reqs && s.reqs[jid].phase == Published && jid in s.projections
    ensures var t := Step(s, Put(jid, false, now));
            && t.queue == s.queue && jid in t.reqs
            && t.reqs[jid].phase == (if s.reqs[jid].fallback then Answered(jid, None) else Refused)
            && t.projections == if s.reqs[jid].fallback then s.projections else s.projections - {jid}
  {
  }

  /** A request whose key has an active row answers with that row's jid at once, and adds
      neither a row nor a projection. */
  lemma RepeatedRequest(s: State, jid: string, key: string, kind: string, fallback: bool)
    requires jid != "" && key != "" && jid !in s.reqs && jid !in s.projections && Named(s.queue.jobs)
    requires exists k | 0 <= k < |s.queue.jobs| ::
               s.queue.jobs[k].dedupe == key && s.queue.jobs[k].state in {Queued, Running, Cancelling}
    ensures var t := Step(Step(s, Begin(jid, key, kind, fallback)), Look(jid, true));
            && t.queue == s.queue && t.projections == s.projections && jid in t.reqs
            && t.reqs[jid].phase.Answered? && t.reqs[jid].phase.from.Some?
            && t.reqs[jid].phase.from.value < |s.queue.jobs|
            && (var row := s.queue.jobs[t.reqs[jid].phase.from.value];
                && row.dedupe == key && row.jid == t.reqs[jid].phase.answer
                && row.state in {Queued, Running, Cancelling})
  {
    var f := FindActive(s.queue.jobs, key);
    assert f.Some?;
  }
}

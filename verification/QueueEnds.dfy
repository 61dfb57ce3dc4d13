/** When the end of a job is final. The marks of a worker have no guard on the row. */
module QueueEnds {
  import opened Wrappers
  import opened JobQueue
  import opened QueueRuns
  import opened QueueTheorems

  /** A worker whose own steps can still give an ended row another state. */
  predicate Loose(l: Local, id: nat, j: Job) {
    && Held(l) == Some(id)
    && match l
       case Holding(_, _) => true
       case Executing(_, _) => true
       case Stopping(_, _) => j.state != Cancelled
       case _ => j.state != Failed
  }

  /** An ended row that no worker can change any more. */
  ghost predicate Fixed(s: Sys, id: nat) {
    id < |s.jobs| && !Active(s.jobs[id].state) && forall w :: !Loose(Of(s, w), id, s.jobs[id])
  }

  lemma FixedRow(s: Sys, a: Action, id: nat)
    requires Fixed(s, id)
    ensures |s.jobs| <= |Step(s, a).jobs| && Step(s, a).jobs[id] == s.jobs[id]
  {
    hide IsNext, WorthRetrying, Enqueued;
    match a
    case Claim(w, i, now, lease, kinds) =>
      if IsNext(s.jobs, i, now, kinds) { NextIsQueued(s.jobs, i, now, kinds); }
    case Enqueue(r, now) => EnqueuedShape(s.jobs, r, now);
    case Refuse(w, _) => assert !Loose(Of(s, w), id, s.jobs[id]);
    case ConfirmStop(w, _) => assert !Loose(Of(s, w), id, s.jobs[id]);
    case Beat(w, _, _) => assert !Loose(Of(s, w), id, s.jobs[id]);
    case End(w, _, _, _) => assert !Loose(Of(s, w), id, s.jobs[id]);
    case Requeue(w, _, _) => assert !Loose(Of(s, w), id, s.jobs[id]);
    case Fail(w, _) => assert !Loose(Of(s, w), id, s.jobs[id]);
    case _ =>
  }

  lemma FixedLocal(s: Sys, a: Action, id: nat, w: string)
    requires Fixed(s, id)
    ensures !Loose(Of(Step(s, a), w), id, s.jobs[id])
  {
    hide IsNext, WorthRetrying, Enqueued, Retryable, AllRecovered;
    assert !Loose(Of(s, w), id, s.jobs[id]);
    if a.Claim? && IsNext(s.jobs, a.id, a.now, a.kinds) { NextIsQueued(s.jobs, a.id, a.now, a.kinds); }
  }

  lemma StepFixed(s: Sys, a: Action, id: nat)
    requires Fixed(s, id)
    ensures Fixed(Step(s, a), id) && Step(s, a).jobs[id] == s.jobs[id]
  {
    FixedRow(s, a, id);
    forall w ensures !Loose(Of(Step(s, a), w), id, s.jobs[id]) { FixedLocal(s, a, id, w); }
    hide Step, Loose;
  }

  lemma {:induction false} FixedForever(s: Sys, acts: seq<Action>, id: nat)
    requires Fixed(s, id)
    ensures Fixed(Run(s, acts), id) && Run(s, acts).jobs[id] == s.jobs[id]
  {
    if acts != [] {
      FixedForever(s, acts[..|acts| - 1], id);
      StepFixed(Run(s, acts[..|acts| - 1]), acts[|acts| - 1], id);
      hide Step;
    }
  }

  /** The row is as it was. */
  predicate Same(s: Sys, t: Sys, id: nat)
    requires id < |s.jobs|
  {
    id < |t.jobs| && t.jobs[id] == s.jobs[id]
  }

  /** The step with which a worker that is done changes the row. */
  function LastMark(l: Local, w: string, j: Job): Action {
    if l.Stopping? then ConfirmStop(w, true)
    else if l.Failing? then Fail(w, true)
    else End(w, if j.state == Completed then Stopped else Success, true, true)
  }

  lemma LastMarkChanges(s: Sys, w: string, id: nat)
    requires id < |s.jobs| && !Active(s.jobs[id].state) && Loose(Of(s, w), id, s.jobs[id])
    requires Of(s, w).Stopping? || Of(s, w).Failing? || Of(s, w).Executing?
    ensures !Same(s, Step(s, LastMark(Of(s, w), w, s.jobs[id])), id)
  {
    hide IsNext, WorthRetrying, Enqueued, Retryable, AllRecovered;
  }

  /** A worker that has yet to start, or to give up a retry, comes to such a step. */
  function FirstMove(l: Local, w: string): Action {
    if l.Holding? then CheckFlag(w, false) else Requeue(w, 0, false)
  }

  lemma FirstMoveLoosens(s: Sys, w: string, id: nat)
    requires id < |s.jobs| && Loose(Of(s, w), id, s.jobs[id]) && (Of(s, w).Holding? || Of(s, w).Retrying?)
    ensures var t := Step(s, FirstMove(Of(s, w), w));
            && t.jobs == s.jobs && Loose(Of(t, w), id, s.jobs[id])
            && (Of(t, w).Failing? || Of(t, w).Executing?)
  {
    hide IsNext, WorthRetrying, Enqueued, Retryable, AllRecovered;
  }

  lemma LooseChanges(s: Sys, w: string, id: nat)
    requires id < |s.jobs| && !Active(s.jobs[id].state) && Loose(Of(s, w), id, s.jobs[id])
    ensures exists acts :: !Same(s, Run(s, acts), id)
  {
    if Of(s, w).Holding? || Of(s, w).Retrying? {
      var a := FirstMove(Of(s, w), w);
      var t := Step(s, a);
      FirstMoveLoosens(s, w, id);
      LastMarkChanges(t, w, id);
      RunNext(s, [], a);
      RunNext(s, [] + [a], LastMark(Of(t, w), w, t.jobs[id]));
      hide Step;
      assert !Same(s, Run(s, [] + [a] + [LastMark(Of(t, w), w, t.jobs[id])]), id);
    } else {
      var b := LastMark(Of(s, w), w, s.jobs[id]);
      LastMarkChanges(s, w, id);
      RunNext(s, [], b);
      hide Step;
      assert !Same(s, Run(s, [] + [b]), id);
    }
  }

  /** In any state, an ended row is left as it is by every continuation if and only if no
      worker is loose on it: none that holds it has yet to start or to return, and none
      is about to record another end than the row has. */
  lemma EndIsFinalIff(s: Sys, id: nat)
    requires id < |s.jobs| && !Active(s.jobs[id].state)
    ensures (forall acts :: Same(s, Run(s, acts), id)) <==> (forall w :: !Loose(Of(s, w), id, s.jobs[id]))
  {
    if w :| Loose(Of(s, w), id, s.jobs[id]) {
      LooseChanges(s, w, id);
    } else {
      forall acts ensures Same(s, Run(s, acts), id) {
        FixedForever(s, acts, id);
      }
    }
  }

  /** A run from the empty queue to such a row: a job whose lease ran out is failed by
      recovery, and completed when the executor that still runs it returns, with
      everything else in the row as it was. */
  lemma OverwrittenEnd()
    ensures var s := Run(EMPTY, START + [Recover(11, false)]);
            var t := Run(EMPTY, START + [Recover(11, false)] + [End("w", Success, true, true)]);
            && |s.jobs| == 1 && |t.jobs| == 1 && s.jobs[0].state == Failed && t.jobs[0] == s.jobs[0].(state := Completed)
  {
    StartedOnce();
    RunNext(EMPTY, START, Recover(11, false));
    RunNext(EMPTY, START + [Recover(11, false)], End("w", Success, true, true));
    hide Run;
    var s := Run(EMPTY, START + [Recover(11, false)]);
    assert s.jobs == [ROW.(state := Failed)] && Of(s, "w") == Executing(0, ROW);
  }

  const REQUEST := Request("j", "k", "", 0, 1)
  const ROW := Claimed(NewJob(REQUEST, 0), 0, 10, "w")
  const START := [Enqueue(REQUEST, 0)] + [Claim("w", 0, 0, 10, Kinds([], []))] + [CheckFlag("w", true)]

  lemma StartedOnce()
    ensures Run(EMPTY, START).jobs == [ROW] && Of(Run(EMPTY, START), "w") == Executing(0, ROW)
  {
    var a0, a1, a2 := Enqueue(REQUEST, 0), Claim("w", 0, 0, 10, Kinds([], [])), CheckFlag("w", true);
    RunNext(EMPTY, [], a0);
    RunNext(EMPTY, [a0], a1);
    RunNext(EMPTY, [a0] + [a1], a2);
    assert [] + [a0] == [a0];
    hide Run;
    var s0 := Run(EMPTY, [a0]);
    assert s0.jobs == [NewJob(REQUEST, 0)] && s0.locals == map[];
    assert IsNext(s0.jobs, 0, 0, Kinds([], []));
  }

  lemma RunNext(s: Sys, acts: seq<Action>, a: Action)
    ensures Run(s, acts + [a]) == Step(Run(s, acts), a)
  {
    assert (acts + [a])[..|acts|] == acts;
  }
}

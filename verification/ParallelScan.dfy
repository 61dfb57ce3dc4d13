/** `_execute_parallel_scan_items` of app/library_scan_worker.py: a bounded pool over
    the trackfiles, with the counters of the scan run. */
module ParallelScan {

  /** A trackfile row: no id, an id, or ids that do not convert to integers. */
  datatype Item = NoId | WithId(id: int) | Garbled

  datatype Outcome = Measured | Fresh | Unmeasured | Error

  datatype Counters = Counters(processed: nat, measured: nat, current: nat, unmeasured: nat, error: nat)

  /** How the call ends: all items done, cancellation noticed, an exception on an
      item's ids, or the process stopped while it waited. */
  datatype Ended = Finished | Cancelled | Raised | Stopped

  /** What the outside decides: the answer to each cancel check, the futures that each
      wait reports done (none for a timeout), and each measurement's outcome. */
  datatype World = World(cancelled: nat -> bool, waits: seq<set<nat>>, result: nat -> Outcome)

  predicate HasId(items: seq<Item>, i: nat) { i < |items| && items[i].WithId? }

  function OutcomeAt(items: seq<Item>, w: World, i: nat): Outcome {
    if HasId(items, i) then w.result(i) else Unmeasured
  }

  lemma Identified(items: seq<Item>, w: World, i: nat)
    ensures HasId(items, i) ==> OutcomeAt(items, w, i) == w.result(i)
  {
  }

  lemma Unidentified(items: seq<Item>, w: World, i: nat)
    ensures !HasId(items, i) ==> OutcomeAt(items, w, i) == Unmeasured
  {
  }

  /** The processed items that ended in a given way. */
  function Those(items: seq<Item>, w: World, done: set<nat>, o: Outcome): set<nat> {
    set i | i in done && OutcomeAt(items, w, i) == o
  }

  predicate Counted(items: seq<Item>, w: World, done: set<nat>, c: Counters) {
    && c.processed == |done| == c.measured + c.current + c.unmeasured + c.error
    && c.measured == |Those(items, w, done, Measured)|
    && c.current == |Those(items, w, done, Fresh)|
    && c.unmeasured == |Those(items, w, done, Unmeasured)|
    && c.error == |Those(items, w, done, Error)|
  }

  function Count(c: Counters, o: Outcome): Counters {
    match o
    case Measured => c.(processed := c.processed + 1, measured := c.measured + 1)
    case Fresh => c.(processed := c.processed + 1, current := c.current + 1)
    case Unmeasured => c.(processed := c.processed + 1, unmeasured := c.unmeasured + 1)
    case Error => c.(processed := c.processed + 1, error := c.error + 1)
  }

  lemma ThoseOne(items: seq<Item>, w: World, done: set<nat>, i: nat, o: Outcome)
    requires i !in done
    ensures |Those(items, w, done + {i}, o)| ==
            |Those(items, w, done, o)| + if OutcomeAt(items, w, i) == o then 1 else 0
  {
    var t := Those(items, w, done, o);
    assert Those(items, w, done + {i}, o) == if OutcomeAt(items, w, i) == o then t + {i} else t;
  }

  lemma CountOne(items: seq<Item>, w: World, done: set<nat>, c: Counters, i: nat)
    requires Counted(items, w, done, c) && i !in done
    ensures Counted(items, w, done + {i}, Count(c, OutcomeAt(items, w, i)))
  {
    ThoseOne(items, w, done, i, Measured);
    ThoseOne(items, w, done, i, Fresh);
    ThoseOne(items, w, done, i, Unmeasured);
    ThoseOne(items, w, done, i, Error);
    hide Those, OutcomeAt;
    assert |done + {i}| == |done| + 1;
  }

  /** The indices below `n` that have an id, in order. */
  function IdsBelow(items: seq<Item>, n: nat): seq<nat>
    requires n <= |items|
  {
    if n == 0 then []
    else if items[n - 1].WithId? then IdsBelow(items, n - 1) + [n - 1]
    else IdsBelow(items, n - 1)
  }

  /** The items with an id among the first `n`, each once and in order. */
  predicate InOrder(items: seq<Item>, n: nat, submitted: seq<nat>) {
    && (forall i | i in submitted :: i < n && i < |items| && items[i].WithId?)
    && (forall i | 0 <= i < n && i < |items| && items[i].WithId? :: i in submitted)
    && (forall a, b | 0 <= a < b < |submitted| :: submitted[a] < submitted[b])
  }

  lemma {:induction false} IdsInOrder(items: seq<Item>, n: nat)
    requires n <= |items|
    ensures InOrder(items, n, IdsBelow(items, n))
  {
    if n > 0 {
      IdsInOrder(items, n - 1);
      var before := IdsBelow(items, n - 1);
      assert forall k | 0 <= k < |before| :: before[k] in before;
    }
  }

  lemma IdsNext(items: seq<Item>, n: nat)
    requires n < |items|
    ensures items[n].WithId? ==> IdsBelow(items, n + 1) == IdsBelow(items, n) + [n]
    ensures !items[n].WithId? ==> IdsBelow(items, n + 1) == IdsBelow(items, n)
  {
  }

  function Below(n: nat): (r: set<nat>)
    ensures forall i: nat :: i in r <==> i < n
    ensures |r| == n
  {
    if n == 0 then {} else Below(n - 1) + {n - 1}
  }

  /** Every item up to `next` is either done or pending. */
  predicate Split(items: seq<Item>, done: set<nat>, pending: set<nat>, next: nat) {
    && next <= |items| && done !! pending
    && done + pending == Below(next)
    && forall i | i in pending :: HasId(items, i)
  }

  lemma SplitSize(items: seq<Item>, done: set<nat>, pending: set<nat>, next: nat)
    requires Split(items, done, pending, next)
    ensures next == |done| + |pending| && next !in pending && next !in done && next <= |items|
  {
    assert |done + pending| == |done| + |pending|;
    assert next !in done + pending;
  }

  lemma SplitSkip(items: seq<Item>, done: set<nat>, pending: set<nat>, next: nat)
    requires Split(items, done, pending, next) && next < |items|
    ensures Split(items, done + {next}, pending, next + 1)
  {
    assert next !in done + pending;
  }

  lemma SplitSubmit(items: seq<Item>, done: set<nat>, pending: set<nat>, next: nat)
    requires Split(items, done, pending, next) && HasId(items, next)
    ensures Split(items, done, pending + {next}, next + 1)
  {
    assert next !in done + pending;
  }

  lemma SplitMove(items: seq<Item>, done: set<nat>, pending: set<nat>, next: nat, i: nat)
    requires Split(items, done, pending, next) && i in pending
    ensures Split(items, done + {i}, pending - {i}, next) && HasId(items, i) && i !in done
  {
    assert done + {i} + (pending - {i}) == done + pending;
  }

  lemma NothingYet(items: seq<Item>, w: World)
    ensures Split(items, {}, {}, 0) && Counted(items, w, {}, Counters(0, 0, 0, 0, 0))
  {
    forall o: Outcome ensures Those(items, w, {}, o) == {} {
    }
  }

  lemma AllDone(items: seq<Item>, done: set<nat>)
    requires Split(items, done, {}, |items|)
    ensures done == Below(|items|)
  {
    assert done == done + {};
  }

  lemma CountedSize(items: seq<Item>, w: World, done: set<nat>, c: Counters)
    requires Counted(items, w, done, c)
    ensures c.processed == |done| == c.measured + c.current + c.unmeasured + c.error
  {
  }

  lemma Fewer(a: set<nat>, b: set<nat>)
    requires a <= b
    ensures |a| <= |b|
  {
    assert b == a + (b - a);
  }

  lemma CountGrows(c: Counters, o: Outcome)
    ensures Count(c, o).processed == c.processed + 1
  {
  }

  /** The first checks were all answered "not cancelled". */
  predicate Uncancelled(w: World, check: nat) {
    forall k | 0 <= k < check :: !w.cancelled(k)
  }

  /** The inner loop: submit while there is room. */
  method Fill(items: seq<Item>, w: World, workers: nat, ghost done0: set<nat>, pending0: set<nat>, next0: nat,
              c0: Counters, submitted0: seq<nat>, check0: nat)
    returns (ended: Ended, ghost done: set<nat>, pending: set<nat>, next: nat, c: Counters, submitted: seq<nat>, check: nat,
             ghost seen: nat)
    requires workers >= 1 && Uncancelled(w, check0) && next0 <= check0
    requires Going(items, w, workers, done0, pending0, next0, c0, submitted0)
    ensures ended.Finished? || ended.Cancelled? || ended.Raised?
    ensures Uncancelled(w, check) && next <= check && (ended.Cancelled? ==> w.cancelled(check)) && c.processed >= c0.processed
    ensures Going(items, w, workers, done, pending, seen, c, submitted) && seen >= next0 && pending0 <= pending
    ensures if ended.Raised? then next == seen + 1 <= |items| && items[seen].Garbled? else next == seen
    ensures ended.Finished? && pending == {} ==> next == |items|
  {
    hide Split, Counted, Count, OutcomeAt, IdsBelow;
    SplitSize(items, done0, pending0, next0);
    ended, done, pending, next, c, submitted, check := Finished, done0, pending0, next0, c0, submitted0, check0;
    while |pending| < workers && next < |items|
      invariant Split(items, done, pending, next) && Counted(items, w, done, c) && |pending| <= workers
      invariant next0 <= next <= |items| && pending0 <= pending && submitted == IdsBelow(items, next)
      invariant Uncancelled(w, check) && next <= check && c.processed >= c0.processed
    {
      seen := next;
      if w.cancelled(check) {
        ended := Cancelled;
        return;
      }
      check := check + 1;
      SplitSize(items, done, pending, next);
      IdsNext(items, next);
      match items[next] {
        case Garbled =>
          seen, next := next, next + 1;
          ended := Raised;
          return;
        case NoId =>
          CountOne(items, w, done, c, next);
          Unidentified(items, w, next);
          CountGrows(c, Unmeasured);
          SplitSkip(items, done, pending, next);
          c := Count(c, Unmeasured);
          done := done + {next};
        case WithId(_) =>
          SplitSubmit(items, done, pending, next);
          submitted := submitted + [next];
          pending := pending + {next};
      }
      next := next + 1;
    }
    seen := next;
  }

  /** One round of `for future in done`. */
  method Collect(items: seq<Item>, w: World, ghost done0: set<nat>, pending0: set<nat>, next: nat, c0: Counters, ready: set<nat>)
    returns (ghost done: set<nat>, pending: set<nat>, c: Counters)
    requires Split(items, done0, pending0, next) && Counted(items, w, done0, c0) && ready <= pending0
    ensures Split(items, done, pending, next) && Counted(items, w, done, c)
    ensures done == done0 + ready && pending == pending0 - ready
  {
    hide Split, Counted, Count, OutcomeAt;
    done, pending, c := done0, pending0, c0;
    var todo := ready;
    while todo != {}
      invariant todo <= ready && todo <= pending
      invariant done == done0 + (ready - todo) && pending == pending0 - (ready - todo)
      invariant Split(items, done, pending, next) && Counted(items, w, done, c)
      decreases todo
    {
      var i :| i in todo;
      SplitMove(items, done, pending, next, i);
      CountOne(items, w, done, c, i);
      Identified(items, w, i);
      c := Count(c, w.result(i));
      pending, done, todo := pending - {i}, done + {i}, todo - {i};
    }
  }

  /** Everything before `next` is counted or pending, and the pool is not exceeded. */
  ghost predicate Going(items: seq<Item>, w: World, workers: nat, done: set<nat>, pending: set<nat>, next: nat,
                        c: Counters, submitted: seq<nat>) {
    && next <= |items| && Split(items, done, pending, next) && Counted(items, w, done, c) && |pending| <= workers
    && submitted == IdsBelow(items, next)
  }

  lemma GoingAddsUp(items: seq<Item>, w: World, workers: nat, done: set<nat>, pending: set<nat>, next: nat,
                    c: Counters, submitted: seq<nat>)
    requires Going(items, w, workers, done, pending, next, c, submitted)
    ensures c.processed == c.measured + c.current + c.unmeasured + c.error
    ensures next == c.processed + |pending| && |pending| <= workers && next <= |items| && submitted == IdsBelow(items, next)
    ensures pending == {} && next == |items| ==> Counted(items, w, Below(|items|), c)
    ensures pending != {} ==> c.processed < next
  {
    hide Split, Counted, IdsBelow;
    SplitSize(items, done, pending, next);
    CountedSize(items, w, done, c);
    if pending == {} && next == |items| { AllDone(items, done); }
  }

  /** One wait on the pool, and what it reports. */
  method Await(items: seq<Item>, w: World, workers: nat, ghost done0: set<nat>, pending0: set<nat>, next: nat,
               c0: Counters, ghost submitted: seq<nat>, report: set<nat>, check0: nat)
    returns (cancelled: bool, ghost done: set<nat>, pending: set<nat>, c: Counters, check: nat)
    requires Going(items, w, workers, done0, pending0, next, c0, submitted) && Uncancelled(w, check0)
    ensures Going(items, w, workers, done, pending, next, c, submitted)
    ensures pending == pending0 - report
    ensures cancelled <==> report !! pending0 && w.cancelled(check0)
    ensures check >= check0 && Uncancelled(w, check) && (cancelled ==> check == check0)
  {
    hide Split, Counted, IdsBelow;
    cancelled, done, pending, c, check := false, done0, pending0, c0, check0;
    var ready := report * pending;
    assert forall i | i in pending && i in report :: i in ready;
    if ready == {} {
      cancelled := w.cancelled(check);
      if !cancelled { check := check + 1; }
      return;
    }
    Fewer(pending - ready, pending);
    done, pending, c := Collect(items, w, done, pending, next, c, ready);
  }

  lemma PendingBelow(items: seq<Item>, w: World, workers: nat, done: set<nat>, pending: set<nat>, next: nat,
                     c: Counters, submitted: seq<nat>)
    requires Going(items, w, workers, done, pending, next, c, submitted)
    ensures pending <= Below(|items|)
  {
    forall i | i in pending ensures i in Below(|items|) { assert i in done + pending; }
  }

  lemma StrictlyFewer(a: set<nat>, b: set<nat>)
    requires !(a !! b)
    ensures |b - a| < |b|
  {
    assert b == (b - a) + (b * a) && b * a != {};
    assert |b| == |b - a| + |b * a|;
  }

  /** The counters of a whole list, by its items and their outcomes. */
  predicate Tally(items: seq<Item>, w: World, c: Counters) {
    && c.measured == |set i: nat | i < |items| && items[i].WithId? && w.result(i).Measured?|
    && c.current == |set i: nat | i < |items| && items[i].WithId? && w.result(i).Fresh?|
    && c.unmeasured == |set i: nat | i < |items| && (!items[i].WithId? || w.result(i).Unmeasured?)|
    && c.error == |set i: nat | i < |items| && items[i].WithId? && w.result(i).Error?|
  }

  lemma CountedIsTally(items: seq<Item>, w: World, c: Counters)
    requires Counted(items, w, Below(|items|), c)
    ensures Tally(items, w, c)
  {
    var all := Below(|items|);
    assert (set i: nat | i < |items| && items[i].WithId? && w.result(i).Measured?) == Those(items, w, all, Measured);
    assert (set i: nat | i < |items| && items[i].WithId? && w.result(i).Fresh?) == Those(items, w, all, Fresh);
    assert (set i: nat | i < |items| && (!items[i].WithId? || w.result(i).Unmeasured?)) == Those(items, w, all, Unmeasured);
    assert (set i: nat | i < |items| && items[i].WithId? && w.result(i).Error?) == Those(items, w, all, Error);
  }

  /** For every list of trackfiles, pool size, completion order and outcome: the
      counters add up, everything taken from the list is counted or pending (all but
      the last item, if the call ends because its ids do not convert), the pool
      is never exceeded, and items are submitted in order, each at most once, each after a
      cancel check of its own. A normal end has processed every item, submitted exactly
      those with an id, and counted each under its own outcome, whatever order they
      completed in. The call ends otherwise only for cause: at the first check that is
      answered "cancelled", at an item whose ids do not convert, or with something still
      pending when there are no more waits. `idle` are the waits that reported nothing
      pending; with no cancel, no such item and as many other waits as items, the end is
      normal. */
  method ExecuteParallelScanItems(items: seq<Item>, workers: nat, w: World)
    returns (ended: Ended, c: Counters, next: nat, pending: set<nat>, submitted: seq<nat>, check: nat, idle: nat)
    requires workers >= 1
    ensures c.processed == c.measured + c.current + c.unmeasured + c.error
    ensures |pending| <= workers && next <= |items| && InOrder(items, next, submitted)
    ensures !ended.Raised? ==> next == c.processed + |pending|
    ensures ended.Raised? ==> next == c.processed + |pending| + 1 && items[next - 1].Garbled?
    ensures ended.Finished? ==> c.processed == next == |items| && pending == {} && Tally(items, w, c)
    ensures next <= check && Uncancelled(w, check) && (ended.Cancelled? ==> w.cancelled(check))
    ensures ended.Stopped? ==> pending != {} && c.processed + idle >= |w.waits|
    ensures idle <= |w.waits| && (Prompt(items, w) ==> idle == 0)
    ensures NeverCancelled(w) && NoneGarbled(items) && |w.waits| >= |items| + idle ==> ended.Finished?
  {
    ghost var done, seen;
    ended, done, pending, next, c, submitted, check, idle, seen := Loop(items, workers, w);
    hide Split, Counted, IdsBelow, Below, Going, Tally, Prompt, Uncancelled, NeverCancelled, NoneGarbled;
    GoingAddsUp(items, w, workers, done, pending, seen, c, submitted);
    IdsInOrder(items, next);
    hide InOrder;
    match ended {
      case Raised =>
        IdsNext(items, seen);
        GarbledAt(items, seen);
      case Finished => CountedIsTally(items, w, c);
      case Cancelled => CancelledAt(w, check);
      case Stopped =>
    }
  }

  ghost predicate NeverCancelled(w: World) { forall k :: !w.cancelled(k) }

  predicate NoneGarbled(items: seq<Item>) { forall i | 0 <= i < |items| :: !items[i].Garbled? }

  lemma GarbledAt(items: seq<Item>, i: nat)
    requires i < |items| && items[i].Garbled?
    ensures !NoneGarbled(items)
  {
  }

  lemma CancelledAt(w: World, k: nat)
    requires w.cancelled(k)
    ensures !NeverCancelled(w)
  {
  }

  /** Every wait reports everything. */
  predicate Prompt(items: seq<Item>, w: World) {
    forall k | 0 <= k < |w.waits| :: Below(|items|) <= w.waits[k]
  }

  method Loop(items: seq<Item>, workers: nat, w: World)
    returns (ended: Ended, ghost done: set<nat>, pending: set<nat>, next: nat, c: Counters, submitted: seq<nat>, check: nat,
             idle: nat, ghost seen: nat)
    requires workers >= 1
    ensures Going(items, w, workers, done, pending, seen, c, submitted)
    ensures if ended.Raised? then next == seen + 1 <= |items| && items[seen].Garbled? else next == seen
    ensures Uncancelled(w, check) && next <= check && (ended.Cancelled? ==> w.cancelled(check))
    ensures ended.Finished? ==> pending == {} && next == |items|
    ensures ended.Stopped? ==> pending != {} && c.processed + idle >= |w.waits|
    ensures idle <= |w.waits| && (Prompt(items, w) ==> idle == 0)
  {
    done, pending, submitted, next, c := {}, {}, [], 0, Counters(0, 0, 0, 0, 0);
    var round := 0;
    check, idle, seen := 0, 0, 0;
    ended := Stopped;
    NothingYet(items, w);
    assert IdsBelow(items, 0) == [];
    assert Going(items, w, workers, done, pending, next, c, submitted);
    hide Split, Counted, IdsBelow, Going, Prompt, Uncancelled;
    NoChecks(w);
    while pending != {} || next < |items|
      invariant ended.Stopped? && round <= |w.waits| && next <= |items| && idle <= round <= c.processed + idle
      invariant Going(items, w, workers, done, pending, next, c, submitted)
      invariant Uncancelled(w, check) && next <= check && (Prompt(items, w) ==> idle == 0)
      decreases |w.waits| - round, |items| - next
    {
      ended, done, pending, next, c, submitted, check, seen :=
        Fill(items, w, workers, done, pending, next, c, submitted, check);
      if !ended.Finished? { return; }
      ended := Stopped;
      if pending == {} { continue; }
      if round == |w.waits| { return; }
      PendingBelow(items, w, workers, done, pending, next, c, submitted);
      PromptWait(items, w, round);
      var cancelled;
      cancelled, done, pending, c, check, idle := Turn(items, w, workers, done, pending, next, c, submitted, w.waits[round], check, idle);
      round := round + 1;
      if cancelled {
        ended := Cancelled;
        return;
      }
    }
    seen := next;
    ended := Finished;
  }

  lemma NoChecks(w: World)
    ensures Uncancelled(w, 0)
  {
  }

  lemma PromptWait(items: seq<Item>, w: World, k: nat)
    requires k < |w.waits|
    ensures Prompt(items, w) ==> Below(|items|) <= w.waits[k]
  {
  }

  /** A wait, with the count of those that reported nothing pending. */
  method Turn(items: seq<Item>, w: World, workers: nat, ghost done0: set<nat>, pending0: set<nat>, next: nat,
              c0: Counters, ghost submitted: seq<nat>, report: set<nat>, check0: nat, idle0: nat)
    returns (cancelled: bool, ghost done: set<nat>, pending: set<nat>, c: Counters, check: nat, idle: nat)
    requires Going(items, w, workers, done0, pending0, next, c0, submitted) && Uncancelled(w, check0)
    requires pending0 != {} && pending0 <= Below(|items|)
    ensures Going(items, w, workers, done, pending, next, c, submitted)
    ensures check >= check0 && Uncancelled(w, check) && (cancelled ==> w.cancelled(check))
    ensures c.processed + idle >= c0.processed + idle0 + 1 && idle0 <= idle <= idle0 + 1
    ensures Below(|items|) <= report ==> idle == idle0
  {
    hide Split, Counted, IdsBelow, Going;
    GoingAddsUp(items, w, workers, done0, pending0, next, c0, submitted);
    cancelled, done, pending, c, check := Await(items, w, workers, done0, pending0, next, c0, submitted, report, check0);
    GoingAddsUp(items, w, workers, done, pending, next, c, submitted);
    idle := idle0;
    if report !! pending0 {
      assert pending == pending0;
      idle := idle0 + 1;
    } else {
      StrictlyFewer(report, pending0);
    }
  }
}

/** The verification record (sidecar) of one download in app/server.py, its index row in
    app/state_db.py and its backend job, through verify, promote, retry, reconcile,
    finalize, discard and expire, with V2 verification enabled. A handler reads a
    record, works on its copy and writes the copy back whole, so it is modelled as
    acting on any version ever written: this covers every interleaving of handlers,
    crashes between their writes included. */
module Records {
  import opened Wrappers
  import opened Decision
  import Lane = BackendLane

  datatype Outcome = ManualImported | RescueImported | ImportFailed | Skipped | Pending

  datatype Stage = Created | PendingReview | Promoted | Discarded | Expired

  datatype Record = Record(decision: Decision, outcome: Outcome, stage: Stage, promoted: bool)

  predicate Imported(o: Outcome) { o.ManualImported? || o.RescueImported? }

  predicate Violation(r: Record) { r.decision.Block? && Imported(r.outcome) }

  // ----- verification -----

  predicate FailClosed(x: Context) { x.detectiveError || x.detective.Unknown? || x.detective.Errored? }

  /** The outcome that `_trigger_lidarr_import` records; `attempt` is what an import,
      should it get that far, comes to. */
  function OutcomeOf(x: Context, attempt: Outcome): Outcome {
    if FailClosed(x) then Skipped
    else if Final(x).NeedsReview? then Pending
    else if Final(x).Block? then Skipped
    else if (x.detective.Suspicious? || x.detective.FakeCertain? || x.detective.Fake?)
            && !KbpsUpgrade(x.existingKbps, x.newKbps) then Skipped
    else attempt
  }

  /** `_verification_record`: an earlier record's lifecycle is kept. */
  function Verified(x: Context, attempt: Outcome, earlier: Option<Record>): Record {
    Record(Final(x), OutcomeOf(x, attempt),
           if earlier.Some? then earlier.value.stage else if Final(x).NeedsReview? then PendingReview else Created,
           false)
  }

  // ----- the handlers that change a record -----

  predicate Open(o: Outcome) { o.ImportFailed? || o.Pending? }

  predicate IsPromotable(r: Record) {
    || (r.decision.NeedsReview? && r.stage.PendingReview?)
    || (r.decision.Provisional? && Open(r.outcome) && r.promoted)
  }

  predicate IsRetryable(r: Record) {
    (r.decision.Accept? || r.decision.Provisional?) && Open(r.outcome) && !r.stage.Discarded? && !r.stage.Expired?
  }

  predicate IsDiscardable(r: Record) {
    r.decision.NeedsReview? || (r.decision.Provisional? && Open(r.outcome) && r.promoted)
  }

  datatype Op =
    | PromoteBegin
    | PromoteEnd(attempt: Outcome, marked: bool)
    | Retry(attempt: Outcome, marked: bool)
    | Reconcile(history: bool, trackfiles: bool, pending: bool)
    | Finalize
    | Discard
    | Expire

  function Reconciled(r: Record, history: bool, trackfiles: bool, pending: bool): Record {
    var accepted := r.decision.Accept? || r.decision.Provisional?;
    if !r.outcome.Pending? then r
    else if history then r.(outcome := ManualImported)
    else if accepted && trackfiles then r.(outcome := ManualImported)
    else if pending then r
    else if accepted then r.(outcome := ImportFailed)
    else r
  }

  /** Does the handler act on the record at all? */
  predicate Applies(r: Record, op: Op) {
    match op
    case PromoteBegin => !Imported(r.outcome) && IsPromotable(r)
    case PromoteEnd(_, _) => r.decision.Provisional? && r.promoted && r.stage.Promoted? && !Imported(r.outcome)
    case Retry(_, _) => !Imported(r.outcome) && IsRetryable(r)
    case Reconcile(history, trackfiles, pending) => Reconciled(r, history, trackfiles, pending) != r
    case Finalize => r.outcome.Pending? || r.outcome.ManualImported?
    case Discard => IsDiscardable(r)
    case Expire => true
  }

  function Apply(r: Record, op: Op): Record {
    if !Applies(r, op) then r
    else
      match op
      case PromoteBegin => r.(decision := Provisional, promoted := true, stage := Promoted)
      case PromoteEnd(attempt, _) => r.(outcome := attempt)
      case Retry(attempt, _) => r.(outcome := attempt)
      case Reconcile(history, trackfiles, pending) => Reconciled(r, history, trackfiles, pending)
      case Finalize => r.(outcome := ManualImported)
      case Discard => r.(stage := Discarded)
      case Expire => r.(stage := Expired)
  }

  /** What an import does to the queue entry; one that fails before it began leaves it. */
  function Listed(p: Lane.Projection, o: Outcome, marked: bool): Lane.Projection {
    match o
    case ManualImported => Lane.Projection(Lane.Done, false, true)
    case RescueImported => Lane.Projection(Lane.Done, false, true)
    case ImportFailed => if marked then Lane.Projection(Lane.Broken, false, true) else p
    case _ => p
  }

  /** What a handler that acts on the record does to the queue entry. */
  function Entered(p: Lane.Projection, r: Record, op: Op): Lane.Projection {
    match op
    case PromoteBegin => p
    case PromoteEnd(attempt, marked) => Listed(p, attempt, marked)
    case Retry(attempt, marked) => Listed(p, attempt, marked)
    case Reconcile(_, _, _) => Listed(p, Apply(r, op).outcome, true)
    case Finalize => Lane.Projection(Lane.Done, false, true)
    case Discard => Lane.Projection(Lane.Broken, false, true)
    case Expire => p.(status := Lane.Broken, hold := false)
  }

  // ----- runs -----

  /** The download. */
  const JID := "j"

  /** Every version written, with the one it was made from; the version that the sidecar
      holds, if it is there and can be read; the index row; and the backend lane. */
  datatype State = State(
    versions: seq<Record>, parents: seq<Option<nat>>, sidecar: Option<nat>, index: Option<Record>, lane: Lane.State)

  datatype Action =
    | Begin                                            // an execution of the ingest job starts
    | Verify(context: Context, attempt: Outcome, indexOk: bool)
    | Update(version: nat, op: Op)
    | RetryStart(version: nat)                         // a retry announces itself in the queue
    | Sync(version: nat)                               // the index takes over a version
    | LoseSidecar
    | OnLane(action: Lane.Action)
    | Mirror(raised: bool, readOk: bool, writeOk: bool, indexOk: bool)
    | Audit(indexOk: bool)

  const EMPTY := State([], [], None, None, Lane.State(map[], map[], {}))

  function Write(s: State, r: Record, parent: Option<nat>): State {
    s.(versions := s.versions + [r], parents := s.parents + [parent], sidecar := Some(|s.versions|))
  }

  function Index(s: State, r: Record, ok: bool): State {
    if ok then s.(index := Some(r)) else s
  }

  function ProjectionOf(s: State): Lane.Projection {
    if JID in s.lane.projections then s.lane.projections[JID] else Lane.Projection(Lane.Processing, false, false)
  }

  function Show(s: State, p: Lane.Projection): State {
    s.(lane := s.lane.(projections := s.lane.projections[JID := p]))
  }

  /** What the end of a verification does to the queue entry. */
  function Shown(p: Lane.Projection, r: Record): Lane.Projection {
    match r.outcome
    case Skipped => p.(status := Lane.Broken, hidden := true)
    case ImportFailed => Lane.Projection(Lane.Broken, false, true)
    case Pending => if r.decision.NeedsReview? then Lane.Projection(Lane.Held, true, false) else p
    case _ => Lane.Projection(Lane.Done, false, true)
  }

  function DoVerify(s: State, x: Context, attempt: Outcome, indexOk: bool): State {
    var earlier := if s.sidecar.Some? && s.sidecar.value < |s.versions| then Some(s.versions[s.sidecar.value]) else None;
    var r := Verified(x, attempt, earlier);
    Show(Index(Write(s, r, None), r, indexOk), Shown(ProjectionOf(s), r))
  }

  function DoUpdate(s: State, i: nat, op: Op): State {
    if i < |s.versions| && Applies(s.versions[i], op) then
      Show(Write(s, Apply(s.versions[i], op), Some(i)), Entered(ProjectionOf(s), s.versions[i], op))
    else s
  }

  function DoRetryStart(s: State, i: nat): State {
    if i < |s.versions| && Applies(s.versions[i], Retry(Pending, false)) then
      Show(s, ProjectionOf(s).(status := Lane.Processing, hidden := false))
    else s
  }

  /** `_finalize_imported_backend_record`. Without a sidecar it patches the index row,
      whatever decision that row holds. */
  function Finalized(s: State, indexOk: bool): State {
    if s.sidecar.Some? then
      var i := s.sidecar.value;
      if i < |s.versions| && Applies(s.versions[i], Finalize) then
        Index(DoUpdate(s, i, Finalize), Apply(s.versions[i], Finalize), indexOk)
      else s
    else if s.index.Some? then Index(s, s.index.value.(outcome := ManualImported), indexOk)
    else s
  }

  /** The row is mirrored, and finalized if that made it imported. */
  function DoMirror(s: State, raised: bool, readOk: bool, writeOk: bool, indexOk: bool): State {
    var t := s.(lane := Lane.Step(s.lane, Lane.Mirror(JID, raised, readOk, writeOk)));
    if !Lane.IsImported(s.lane, JID) && Lane.IsImported(t.lane, JID) then Finalized(t, indexOk) else t
  }

  /** Backend steps of others: a jid is submitted once, and this download's pipeline and
      mirror are actions of their own. */
  predicate Foreign(s: State, a: Lane.Action) {
    !a.Pipeline? && !a.Mirror? && (a.Submit? ==> a.jid !in s.lane.rows)
  }

  function Step(s: State, a: Action): State {
    match a
    case Begin => Show(s, ProjectionOf(s).(status := Lane.Processing))
    case Verify(x, attempt, indexOk) => DoVerify(s, x, attempt, indexOk)
    case Update(i, op) => if op.Finalize? then s else DoUpdate(s, i, op)
    case RetryStart(i) => DoRetryStart(s, i)
    case Sync(i) => if i < |s.versions| then s.(index := Some(s.versions[i])) else s
    case LoseSidecar => s.(sidecar := None)
    case OnLane(b) => if Foreign(s, b) then s.(lane := Lane.Step(s.lane, b)) else s
    case Mirror(raised, readOk, writeOk, indexOk) => DoMirror(s, raised, readOk, writeOk, indexOk)
    case Audit(indexOk) =>
      if Lane.IsImported(s.lane, JID) && s.index.Some? && s.index.value.outcome.Pending? then Finalized(s, indexOk) else s
  }

  function Run(s: State, acts: seq<Action>): State {
    if acts == [] then s else Step(Run(s, acts[..|acts| - 1]), acts[|acts| - 1])
  }

  /** A blocked record was skipped and stays so. */
  predicate Sound(r: Record) { r.decision.Block? ==> r.outcome.Skipped? }

  /** What a handler may make of a record: only the promotion of a pending review changes a
      decision, and then to a provisional accept; an import is never lost. */
  predicate Succeeds(r: Record, q: Record) {
    && (q.decision != r.decision ==> r.decision.NeedsReview? && r.stage.PendingReview? && q.decision.Provisional?)
    && (Imported(r.outcome) ==> q.outcome == r.outcome)
  }

  predicate Descends(s: State) {
    && |s.parents| == |s.versions|
    && forall i | 0 <= i < |s.versions| && s.parents[i].Some? ::
         s.parents[i].value < i && Succeeds(s.versions[s.parents[i].value], s.versions[i])
  }

  lemma VerifiedSound(x: Context, attempt: Outcome, earlier: Option<Record>)
    ensures Sound(Verified(x, attempt, earlier))
  {
  }

  lemma ApplySound(r: Record, op: Op)
    requires Sound(r)
    ensures Sound(Apply(r, op)) && Succeeds(r, Apply(r, op))
  {
  }

  predicate AllSound(s: State) {
    Descends(s) && forall i | 0 <= i < |s.versions| :: Sound(s.versions[i])
  }

  lemma WriteSound(s: State, r: Record, parent: Option<nat>)
    requires AllSound(s) && Sound(r)
    requires parent.Some? ==> parent.value < |s.versions| && Succeeds(s.versions[parent.value], r)
    ensures AllSound(Write(s, r, parent))
  {
  }

  /** The index and the lane are not part of it. */
  lemma SameVersions(s: State, t: State)
    requires AllSound(s) && t.versions == s.versions && t.parents == s.parents
    ensures AllSound(t)
  {
  }

  lemma UpdateSound(s: State, i: nat, op: Op)
    requires AllSound(s)
    ensures AllSound(DoUpdate(s, i, op))
  {
    if i < |s.versions| && Applies(s.versions[i], op) {
      ApplySound(s.versions[i], op);
      var t := Write(s, Apply(s.versions[i], op), Some(i));
      hide Apply, Applies, Entered, Succeeds;
      WriteSound(s, Apply(s.versions[i], op), Some(i));
      SameVersions(t, DoUpdate(s, i, op));
    }
  }

  lemma FinalizedSound(s: State, indexOk: bool)
    requires AllSound(s)
    ensures AllSound(Finalized(s, indexOk))
  {
    if s.sidecar.Some? {
      var t := DoUpdate(s, s.sidecar.value, Finalize);
      UpdateSound(s, s.sidecar.value, Finalize);
      hide DoUpdate, Apply, AllSound;
      if Finalized(s, indexOk) != s { SameVersions(t, Finalized(s, indexOk)); }
    } else {
      hide AllSound;
      SameVersions(s, Finalized(s, indexOk));
    }
  }

  lemma StepSound(s: State, a: Action)
    requires AllSound(s)
    ensures AllSound(Step(s, a))
  {
    hide Lane.Step, AllSound, Finalized, DoUpdate, Verified;
    match a
    case Verify(x, attempt, indexOk) =>
      var earlier := if s.sidecar.Some? && s.sidecar.value < |s.versions| then Some(s.versions[s.sidecar.value]) else None;
      VerifiedSound(x, attempt, earlier);
      WriteSound(s, Verified(x, attempt, earlier), None);
      SameVersions(Write(s, Verified(x, attempt, earlier), None), Step(s, a));
    case Update(i, op) => UpdateSound(s, i, op);
    case Mirror(raised, readOk, writeOk, indexOk) =>
      var t := s.(lane := Lane.Step(s.lane, Lane.Mirror(JID, raised, readOk, writeOk)));
      SameVersions(s, t);
      FinalizedSound(t, indexOk);
    case Audit(indexOk) => FinalizedSound(s, indexOk);
    case _ => SameVersions(s, Step(s, a));
  }

  lemma {:induction false} RunSound(acts: seq<Action>)
    ensures AllSound(Run(EMPTY, acts))
  {
    if acts != [] {
      RunSound(acts[..|acts| - 1]);
      StepSound(Run(EMPTY, acts[..|acts| - 1]), acts[|acts| - 1]);
    }
  }

  /** Over every run, whatever the handlers, their order and the versions they work on:
      no record says both `BLOCK` and imported. A record that a handler made from another
      keeps its decision, but for a pending review that was promoted, and keeps its
      import; so a block stays a block until the download is verified again. */
  lemma NoBlockedImport(acts: seq<Action>, i: nat)
    requires i < |Run(EMPTY, acts).versions|
    ensures !Violation(Run(EMPTY, acts).versions[i])
    ensures var s := Run(EMPTY, acts);
            && |s.parents| == |s.versions|
            && (s.parents[i].Some? ==> s.parents[i].value < i && Succeeds(s.versions[s.parents[i].value], s.versions[i]))
  {
    RunSound(acts);
  }

  /** A verification that ends imported passed every gate: no block, the right album, a
      decision to import, an answering validator, and for a suspected fake a gain in
      quality over what is there. */
  lemma VerifiedImport(x: Context, attempt: Outcome, earlier: Option<Record>)
    requires Imported(Verified(x, attempt, earlier).outcome)
    ensures Automatic(Final(x)) && !Audio(x).Block? && !x.identity.WrongAlbum?
    ensures !x.detectiveError && !x.detective.Unknown? && !x.detective.Errored?
    ensures SignsOfFake(x) ==> Rescued(x)
    ensures x.detective.Suspicious? || x.detective.Fake? || x.detective.FakeCertain? ==>
            KbpsUpgrade(x.existingKbps, x.newKbps)
  {
    BlockIff(x);
    if SignsOfFake(x) { FakesNeedARip(x); }
    hide Final, Audio, Rescued;
  }

  // ----- the handlers by their rules -----

  /** The record is the new sidecar, made from version `i`, and nothing was indexed. */
  predicate Wrote(s: State, t: State, i: nat, q: Record) {
    && t.versions == s.versions + [q] && t.parents == s.parents + [Some(i)] && t.sidecar == Some(|s.versions|)
    && t.index == s.index && t.lane.rows == s.lane.rows && JID in t.lane.projections
  }

  /** The queue entry after an import came to an end. */
  predicate EntryAfter(p: Lane.Projection, q: Lane.Projection, o: Outcome, marked: bool) {
    if o.ManualImported? || o.RescueImported? then q.status.Done? && !q.hold && q.hidden
    else if o.ImportFailed? && marked then q.status.Broken? && !q.hold && q.hidden
    else q == p
  }

  /** Promotion: which records it acts on, what it makes of them, and what it puts in the
      queue. Everything else is refused without a trace. */
  lemma PromoteHandler(s: State, i: nat, attempt: Outcome, marked: bool)
    requires i < |s.versions|
    ensures var r, t := s.versions[i], Step(s, Update(i, PromoteBegin));
            if !(r.outcome in {ManualImported, RescueImported})
               && (|| (r.decision.NeedsReview? && r.stage.PendingReview?)
                   || (r.decision.Provisional? && r.outcome in {ImportFailed, Pending} && r.promoted))
            then Wrote(s, t, i, Record(Provisional, r.outcome, Promoted, true)) && t.lane.projections[JID] == ProjectionOf(s)
            else t == s
    ensures var r, t := s.versions[i], Step(s, Update(i, PromoteEnd(attempt, marked)));
            if !(r.outcome in {ManualImported, RescueImported}) && r.decision.Provisional? && r.promoted && r.stage.Promoted?
            then Wrote(s, t, i, Record(Provisional, attempt, Promoted, true)) && EntryAfter(ProjectionOf(s), t.lane.projections[JID], attempt, marked)
            else t == s
  {
    UpdateIs(s, i, PromoteBegin);
    UpdateIs(s, i, PromoteEnd(attempt, marked));
    hide Step, ProjectionOf;
  }

  /** Retry, and the announcement of a retry in the queue. */
  lemma RetryHandler(s: State, i: nat, attempt: Outcome, marked: bool)
    requires i < |s.versions|
    ensures var r, t := s.versions[i], Step(s, Update(i, Retry(attempt, marked)));
            if r.decision in {Accept, Provisional} && r.outcome in {ImportFailed, Pending} && !(r.stage in {Discarded, Expired})
            then Wrote(s, t, i, Record(r.decision, attempt, r.stage, r.promoted)) && EntryAfter(ProjectionOf(s), t.lane.projections[JID], attempt, marked)
            else t == s
    ensures var r, t := s.versions[i], Step(s, RetryStart(i));
            if r.decision in {Accept, Provisional} && r.outcome in {ImportFailed, Pending} && !(r.stage in {Discarded, Expired})
            then t == s.(lane := t.lane) && t.lane.rows == s.lane.rows && JID in t.lane.projections
                 && t.lane.projections[JID] == ProjectionOf(s).(status := Lane.Processing, hidden := false)
            else t == s
  {
    UpdateIs(s, i, Retry(attempt, marked));
    hide ProjectionOf;
  }

  lemma UpdateIs(s: State, i: nat, op: Op)
    requires i < |s.versions| && !op.Finalize?
    ensures var r, t := s.versions[i], Step(s, Update(i, op));
            if Applies(r, op) then Wrote(s, t, i, Apply(r, op)) && t.lane.projections[JID] == Entered(ProjectionOf(s), r, op)
            else t == s
  {
    hide Applies, Apply, Entered, ProjectionOf;
  }

  /** Reconciling a pending import: imported by Lidarr's history whatever the decision, by
      its track files for an accepted one; failed if nothing is pending for an accepted one;
      otherwise untouched. */
  lemma ReconcileHandler(s: State, i: nat, history: bool, trackfiles: bool, pending: bool)
    requires i < |s.versions|
    ensures var r, t := s.versions[i], Step(s, Update(i, Reconcile(history, trackfiles, pending)));
            var accepted := r.decision in {Accept, Provisional};
            if r.outcome.Pending? && (history || (accepted && trackfiles))
            then Wrote(s, t, i, r.(outcome := ManualImported)) && EntryAfter(ProjectionOf(s), t.lane.projections[JID], ManualImported, true)
            else if r.outcome.Pending? && !pending && accepted
            then Wrote(s, t, i, r.(outcome := ImportFailed)) && EntryAfter(ProjectionOf(s), t.lane.projections[JID], ImportFailed, true)
            else t == s
  {
  }

  /** Discard and expiry close a record and take the hold off the queue entry. */
  lemma ClosingHandlers(s: State, i: nat)
    requires i < |s.versions|
    ensures var r, t := s.versions[i], Step(s, Update(i, Discard));
            if r.decision.NeedsReview? || (r.decision.Provisional? && r.outcome in {ImportFailed, Pending} && r.promoted)
            then Wrote(s, t, i, r.(stage := Discarded)) && EntryAfter(ProjectionOf(s), t.lane.projections[JID], ImportFailed, true)
            else t == s
    ensures var r, t := s.versions[i], Step(s, Update(i, Expire));
            && Wrote(s, t, i, r.(stage := Expired)) && t.lane.projections[JID].status.Broken? && !t.lane.projections[JID].hold
  {
  }

  /** Finalizing, as the audit of an imported row with a pending index row does it: a sidecar
      that is pending or imported is imported and indexed; without a sidecar the index row
      alone is patched; any other sidecar is left alone. */
  lemma FinalizeHandler(s: State, indexOk: bool)
    requires s.sidecar.Some? ==> s.sidecar.value < |s.versions|
    ensures var t := Step(s, Audit(indexOk));
            if !(Lane.IsImported(s.lane, JID) && s.index.Some? && s.index.value.outcome.Pending?) then t == s
            else if s.sidecar.None? then
              t == s.(index := if indexOk then Some(s.index.value.(outcome := ManualImported)) else s.index)
            else
              var r := s.versions[s.sidecar.value];
              if r.outcome in {Pending, ManualImported} then
                && t.versions == s.versions + [r.(outcome := ManualImported)] && t.sidecar == Some(|s.versions|)
                && t.index == (if indexOk then Some(r.(outcome := ManualImported)) else s.index)
                && JID in t.lane.projections && t.lane.projections[JID].status.Done?
              else t == s
  {
  }

  /** A verification: the record it writes and indexes, and the queue entry it leaves. */
  lemma VerifyHandler(s: State, x: Context, attempt: Outcome, indexOk: bool)
    requires s.sidecar.Some? ==> s.sidecar.value < |s.versions|
    ensures var t := Step(s, Verify(x, attempt, indexOk));
            && |t.versions| == |s.versions| + 1 && t.versions[..|s.versions|] == s.versions && t.sidecar == Some(|s.versions|)
            && var r := t.versions[|s.versions|];
               && r.decision == Final(x) && !r.promoted
               && r.stage == (if s.sidecar.Some? then s.versions[s.sidecar.value].stage
                              else if Final(x).NeedsReview? then PendingReview else Created)
               && r.outcome == (if x.detectiveError || x.detective.Unknown? || x.detective.Errored? then Skipped
                                else if Final(x).NeedsReview? then Pending
                                else if Final(x).Block? then Skipped
                                else if x.detective in {Suspicious, FakeCertain, Fake} && !KbpsUpgrade(x.existingKbps, x.newKbps) then Skipped
                                else attempt)
               && t.index == (if indexOk then Some(r) else s.index)
               && JID in t.lane.projections
               && var p := t.lane.projections[JID];
                  && (r.outcome.Skipped? || r.outcome.ImportFailed? ==> p.status.Broken? && p.hidden)
                  && (r.outcome in {ManualImported, RescueImported} ==> p.status.Done? && p.hidden && !p.hold)
                  && (r.outcome.Pending? && Final(x).NeedsReview? ==> p.status.Held? && p.hold && !p.hidden)
                  && (r.outcome.Pending? && !Final(x).NeedsReview? ==> p == ProjectionOf(s))
  {
    hide Final, KbpsUpgrade;
  }

  // ----- the index -----

  /** The step that spoils the index: the mirror of an ingest as imported persists while
      there is no sidecar and the index row says `BLOCK`. */
  predicate Spoils(s: State, a: Action) {
    && a.Mirror? && !a.raised && a.readOk && a.writeOk && a.indexOk
    && JID in s.lane.rows && s.lane.rows[JID].state.Importing? && Lane.Outcome(s.lane, JID).Imported?
    && s.sidecar.None? && s.index.Some? && s.index.value.decision.Block?
  }

  predicate Spared(acts: seq<Action>) {
    forall n | 0 <= n < |acts| :: !Spoils(Run(EMPTY, acts[..n]), acts[n])
  }

  predicate IndexSound(s: State) { s.index.Some? ==> Sound(s.index.value) }

  lemma FinalizedIndex(s: State, indexOk: bool)
    requires AllSound(s) && IndexSound(s)
    ensures IndexSound(Finalized(s, indexOk)) <==>
            !(s.sidecar.None? && s.index.Some? && s.index.value.decision.Block? && indexOk)
  {
    if s.sidecar.Some? && s.sidecar.value < |s.versions| {
      ApplySound(s.versions[s.sidecar.value], Finalize);
    }
  }

  lemma MirrorPersists(s: State, raised: bool, readOk: bool, writeOk: bool)
    ensures var t := Lane.Step(s.lane, Lane.Mirror(JID, raised, readOk, writeOk));
            !Lane.IsImported(s.lane, JID) && Lane.IsImported(t, JID) <==>
            && !raised && readOk && writeOk && JID in s.lane.rows && s.lane.rows[JID].state.Importing?
            && Lane.Outcome(s.lane, JID).Imported?
  {
  }

  lemma StepIndex(s: State, a: Action)
    requires AllSound(s) && IndexSound(s)
    ensures IndexSound(Step(s, a)) <==> !Spoils(s, a)
  {
    match a
    case Verify(x, attempt, indexOk) =>
      var earlier := if s.sidecar.Some? && s.sidecar.value < |s.versions| then Some(s.versions[s.sidecar.value]) else None;
      VerifiedSound(x, attempt, earlier);
      hide Verified, AllSound, Shown;
    case Update(_, _) => hide Apply, Applies, Entered;
    case Mirror(raised, readOk, writeOk, indexOk) =>
      var t := s.(lane := Lane.Step(s.lane, Lane.Mirror(JID, raised, readOk, writeOk)));
      SameVersions(s, t);
      MirrorPersists(s, raised, readOk, writeOk);
      hide Finalized, AllSound, Lane.Step, Lane.Outcome;
      FinalizedIndex(t, indexOk);
    case Audit(indexOk) =>
      hide Finalized;
      FinalizedIndex(s, indexOk);
    case _ => hide Lane.Step;
  }

  lemma SparedPrefix(acts: seq<Action>)
    requires acts != [] && Spared(acts)
    ensures Spared(acts[..|acts| - 1])
  {
    var front := acts[..|acts| - 1];
    forall n | 0 <= n < |front| ensures !Spoils(Run(EMPTY, front[..n]), front[n]) {
      assert front[..n] == acts[..n];
    }
  }

  lemma {:induction false} RunIndex(acts: seq<Action>)
    requires Spared(acts)
    ensures IndexSound(Run(EMPTY, acts))
  {
    if acts != [] {
      var n := |acts| - 1;
      SparedPrefix(acts);
      RunIndex(acts[..n]);
      RunSound(acts[..n]);
      StepIndex(Run(EMPTY, acts[..n]), acts[n]);
      assert !Spoils(Run(EMPTY, acts[..n]), acts[n]);
      hide Step, Spoils;
    }
  }

  /** The index keeps the same promise up to one path: after a clean history a step makes
      it say `BLOCK` and imported if and only if it mirrors an ingest as imported while
      the sidecar is missing and the index row says `BLOCK`. */
  lemma IndexViolatedIff(acts: seq<Action>, a: Action)
    requires Spared(acts)
    ensures var s, t := Run(EMPTY, acts), Step(Run(EMPTY, acts), a);
            (t.index.Some? && Violation(t.index.value)) <==> Spoils(s, a)
  {
    RunIndex(acts);
    RunSound(acts);
    StepIndex(Run(EMPTY, acts), a);
    var s := Run(EMPTY, acts);
    hide Run, AllSound;
    if Spoils(s, a) { SpoilsOutcome(s, a); }
    hide Step, Spoils;
  }

  lemma SpoilsOutcome(s: State, a: Action)
    requires Spoils(s, a)
    ensures Step(s, a).index.Some? && Violation(Step(s, a).index.value)
  {
    MirrorPersists(s, a.raised, a.readOk, a.writeOk);
    hide Lane.Step, Lane.Outcome;
  }

  // ----- can the code come to that step? -----

  /** A record that some handler, or two in turn, can still take to an imported queue
      entry. */
  predicate Revivable(r: Record) {
    || r.outcome.Pending? || (!Imported(r.outcome) && IsRetryable(r))
    || (!Imported(r.outcome) && (IsPromotable(r) || (r.decision.Provisional? && r.promoted && r.stage.Promoted?)))
  }

  predicate NoneRevivable(versions: seq<Record>) {
    forall i | 0 <= i < |versions| :: !Revivable(versions[i])
  }

  /** Within the execution that blocked the download: its queue entry says failed, and no
      record is left that a handler could revive. */
  predicate Stuck(s: State) {
    && JID in s.lane.rows && !Lane.IsImported(s.lane, JID) && NoneRevivable(s.versions)
    && (Lane.Terminal(s.lane.rows[JID].state) || s.lane.rows[JID].state.Review?
        || (s.lane.rows[JID].state.Importing? && JID in s.lane.projections && s.lane.projections[JID].status.Broken?))
  }

  lemma HandlersKeepDead(r: Record, op: Op, p: Lane.Projection)
    requires !Revivable(r) && Applies(r, op) && !op.Finalize?
    ensures !Revivable(Apply(r, op)) && Entered(p, r, op).status == Lane.Broken
  {
  }

  lemma UpdateKeepsStuck(s: State, i: nat, op: Op)
    requires Stuck(s) && !op.Finalize?
    ensures Stuck(DoUpdate(s, i, op))
  {
    if i < |s.versions| && Applies(s.versions[i], op) {
      HandlersKeepDead(s.versions[i], op, ProjectionOf(s));
      hide Apply, Applies, Entered, Revivable;
    }
  }

  lemma VisitKeepsStuck(s: Lane.State, p: Lane.Poll)
    requires JID in s.rows && (Lane.Terminal(s.rows[JID].state) || s.rows[JID].state.Review? || s.rows[JID].state.Importing?)
    ensures Lane.Visited(s, JID, p).rows == s.rows
    ensures s.rows[JID].state.Importing? ==> Lane.Visited(s, JID, p) == s
  {
  }

  lemma LaneKeepsStuck(s: State, b: Lane.Action)
    requires Stuck(s) && Foreign(s, b)
    ensures Stuck(s.(lane := Lane.Step(s.lane, b)))
  {
    hide NoneRevivable;
    if b.Reconcile? && Lane.Listing(s.lane.rows, b.order) {
      Lane.PassAt(s.lane, b.order, b.world, JID);
      VisitKeepsStuck(s.lane, b.world(JID));
      hide Lane.Visited, Lane.Pass;
    }
  }

  lemma MirrorKeepsStuck(s: State, a: Action)
    requires Stuck(s) && a.Mirror?
    ensures Stuck(Step(s, a))
  {
    MirrorPersists(s, a.raised, a.readOk, a.writeOk);
    hide Finalized, NoneRevivable;
  }

  lemma StepStuck(s: State, a: Action)
    requires Stuck(s) && !a.Begin? && !a.Verify?
    ensures Stuck(Step(s, a))
  {
    match a
    case OnLane(b) =>
      if Foreign(s, b) { LaneKeepsStuck(s, b); }
      hide Lane.Step;
    case Mirror(_, _, _, _) => MirrorKeepsStuck(s, a);
    case Update(i, op) =>
      if !op.Finalize? { UpdateKeepsStuck(s, i, op); }
    case _ =>
  }

  /** No other execution of the ingest comes in between. */
  predicate SameExecution(acts: seq<Action>) {
    forall n | 0 <= n < |acts| :: !acts[n].Begin? && !acts[n].Verify?
  }

  lemma {:induction false} RunStuck(s: State, acts: seq<Action>)
    requires Stuck(s) && SameExecution(acts)
    ensures Stuck(Run(s, acts))
  {
    if acts != [] {
      RunStuck(s, acts[..|acts| - 1]);
      StepStuck(Run(s, acts[..|acts| - 1]), acts[|acts| - 1]);
      hide Step;
    }
  }

  /** The handler that brings an importing row's queue entry to "done". */
  function Reviver(r: Record): Op {
    if r.outcome.Pending? then Reconcile(true, false, false)
    else if IsRetryable(r) then Retry(ManualImported, true)
    else PromoteEnd(ManualImported, true)
  }

  predicate Ingesting(s: State) { JID in s.lane.rows && s.lane.rows[JID].state.Importing? }

  lemma ReviverMirrors(s: State, i: nat)
    requires Ingesting(s) && i < |s.versions| && Applies(s.versions[i], Reviver(s.versions[i]))
    ensures Lane.IsImported(Step(Step(s, Update(i, Reviver(s.versions[i]))), MIRROR).lane, JID)
  {
    var t := Step(s, Update(i, Reviver(s.versions[i])));
    assert t.lane.projections[JID] == Lane.Projection(Lane.Done, false, true) && t.lane.rows == s.lane.rows;
    MirrorPersists(t, false, true, true);
    hide Finalized, Apply, Applies, Entered;
  }

  lemma PromotionRevives(s: State, i: nat)
    requires Ingesting(s) && i < |s.versions| && Applies(s.versions[i], PromoteBegin)
    ensures var t := Step(s, Update(i, PromoteBegin));
            && Ingesting(t) && |t.versions| == |s.versions| + 1
            && Applies(t.versions[|s.versions|], Reviver(t.versions[|s.versions|]))
  {
  }

  lemma RevivableIsMirrored(s: State, i: nat) returns (acts: seq<Action>)
    requires Ingesting(s) && i < |s.versions| && Revivable(s.versions[i])
    ensures SameExecution(acts) && Lane.IsImported(Run(s, acts).lane, JID)
  {
    var a := Update(i, Reviver(s.versions[i]));
    if Applies(s.versions[i], a.op) {
      ReviverMirrors(s, i);
      RunNext(s, [], a);
      RunNext(s, [] + [a], MIRROR);
      acts := [] + [a] + [MIRROR];
    } else {
      var b := Update(i, PromoteBegin);
      PromotionRevives(s, i);
      var t := Step(s, b);
      var c := Update(|s.versions|, Reviver(t.versions[|s.versions|]));
      ReviverMirrors(t, |s.versions|);
      RunNext(s, [], b);
      RunNext(s, [] + [b], c);
      RunNext(s, [] + [b] + [c], MIRROR);
      acts := [] + [b] + [c] + [MIRROR];
    }
    hide Step, Run, Applies;
  }

  lemma VerifiedBlock(s: State, x: Context, attempt: Outcome, indexOk: bool)
    requires Ingesting(s) && Final(x).Block?
    ensures var t := Step(s, Verify(x, attempt, indexOk));
            && Ingesting(t) && JID in t.lane.projections && t.lane.projections[JID].status.Broken?
            && |t.versions| == |s.versions| + 1 && t.versions[..|s.versions|] == s.versions
            && !Revivable(t.versions[|s.versions|])
  {
    hide Final;
  }

  /** An execution that verified the download as blocked can be mirrored as imported before
      the ingest is executed again if and only if there is an earlier version of the
      record that a retry, promotion or reconciliation, begun on that version, can still
      bring to an import. The blocked version, and whatever handlers make of it, is never
      such a version. */
  lemma BlockedIsMirroredIff(s: State, x: Context, attempt: Outcome, indexOk: bool)
    requires Ingesting(s) && Final(x).Block?
    ensures var t := Step(s, Verify(x, attempt, indexOk));
            (exists acts :: SameExecution(acts) && Lane.IsImported(Run(t, acts).lane, JID)) <==> !NoneRevivable(s.versions)
  {
    var t := Step(s, Verify(x, attempt, indexOk));
    VerifiedBlock(s, x, attempt, indexOk);
    hide Step, Run, Revivable, Final;
    if i :| 0 <= i < |s.versions| && Revivable(s.versions[i]) {
      assert t.versions[i] == t.versions[..|s.versions|][i];
      var acts := RevivableIsMirrored(t, i);
    } else {
      forall i | 0 <= i < |t.versions| ensures !Revivable(t.versions[i]) {
        if i < |s.versions| { assert t.versions[i] == t.versions[..|s.versions|][i]; }
      }
      forall acts | SameExecution(acts) ensures !Lane.IsImported(Run(t, acts).lane, JID) {
        RunStuck(t, acts);
      }
    }
  }

  const POLL := Lane.Poll(true, true, Lane.IsCompleted, "p", false, None, true, true, true, true, true)

  function Answers(j: Lane.Jid): Lane.Poll { POLL }

  const SUBMIT := OnLane(Lane.Submit(JID, "b", true))
  const HAND_OFF := OnLane(Lane.Reconcile([JID], Answers))
  const MIRROR := Mirror(false, true, true, true)

  function SpoilingRun(x: Context): seq<Action> {
    [SUBMIT] + [HAND_OFF] + [Begin] + [Verify(x, Skipped, true)] + [LoseSidecar] + [Begin] + [MIRROR]
  }

  lemma HandedOver()
    ensures var s := Step(Step(EMPTY, SUBMIT), HAND_OFF);
            && Ingesting(s)
            && JID in s.lane.projections && s.lane.projections[JID] == Lane.Projection(Lane.Processing, false, false)
  {
    var l := Lane.State(map[JID := ROW], map[JID := Lane.Projection(Lane.Fetching, false, false)], {});
    assert Step(EMPTY, SUBMIT).lane == l;
    VisitHandsOver(l);
    Lane.PassAt(l, [JID], Answers, JID);
    assert Lane.Listing(l.rows, [JID]);
    hide Lane.Visited, Lane.Pass;
  }

  const ROW := Lane.Row(Lane.Downloading, "b", "")

  lemma VisitHandsOver(l: Lane.State)
    requires JID in l.rows && l.rows[JID] == ROW
    requires JID in l.projections && l.projections[JID] == Lane.Projection(Lane.Fetching, false, false)
    ensures var t := Lane.Visited(l, JID, POLL);
            && JID in t.rows && t.rows[JID].state.Importing?
            && JID in t.projections && t.projections[JID] == Lane.Projection(Lane.Processing, false, false)
  {
  }

  lemma RunNext(s: State, acts: seq<Action>, a: Action)
    ensures Run(s, acts + [a]) == Step(Run(s, acts), a)
  {
    assert (acts + [a])[..|acts|] == acts;
  }

  /** A block recorded while the ingest runs, the sidecar then lost, and the ingest begun
      once more: the mirror of that one is the step that spoils. */
  lemma SecondExecution(s: State, x: Context)
    requires Ingesting(s) && Final(x).Block?
    requires JID in s.lane.projections && !s.lane.projections[JID].hold
    ensures Spoils(Step(Step(Step(Step(s, Begin), Verify(x, Skipped, true)), LoseSidecar), Begin), MIRROR)
  {
    hide Final;
  }

  /** But the code can come to that step: the process dies after a block was recorded and
      before the mirror; the sidecar is lost; boot recovery runs the ingest again, and
      this second execution ends before it verifies anything, as it does without a Lidarr
      key, with the queue entry at `processing`. The mirror takes that for an import. */
  lemma IndexCanBeSpoiled(x: Context)
    requires Final(x).Block?
    ensures var t := Run(EMPTY, SpoilingRun(x)); t.index.Some? && Violation(t.index.value)
  {
    var v := Verify(x, Skipped, true);
    RunNext(EMPTY, [], SUBMIT);
    RunNext(EMPTY, [SUBMIT], HAND_OFF);
    RunNext(EMPTY, [SUBMIT] + [HAND_OFF], Begin);
    RunNext(EMPTY, [SUBMIT] + [HAND_OFF] + [Begin], v);
    RunNext(EMPTY, [SUBMIT] + [HAND_OFF] + [Begin] + [v], LoseSidecar);
    RunNext(EMPTY, [SUBMIT] + [HAND_OFF] + [Begin] + [v] + [LoseSidecar], Begin);
    RunNext(EMPTY, [SUBMIT] + [HAND_OFF] + [Begin] + [v] + [LoseSidecar] + [Begin], MIRROR);
    assert [] + [SUBMIT] == [SUBMIT];
    HandedOver();
    hide Run, Step, Spoils, Final;
    var s := Step(Step(EMPTY, SUBMIT), HAND_OFF);
    SecondExecution(s, x);
    SpoilsOutcome(Step(Step(Step(Step(s, Begin), v), LoseSidecar), Begin), MIRROR);
  }
}

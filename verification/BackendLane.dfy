/** The download-backend lane of app/server.py over `backend_jobs` of app/state_db.py:
    a durable row and a Lidarr-facing projection per job. Each handler is one atomic
    step; any durable read or write in it may fail. */
module BackendLane {
  import opened Wrappers

  datatype Life = Queued | Downloading | Completed | Importing | Review | Imported | Failed | Cancelled

  /** What the download backend reports. */
  datatype Report = IsQueued | IsDownloading | IsCompleted | IsFailed | Unknown

  datatype Status = Waiting | Fetching | Processing | Broken | Held | Done

  type Jid = string

  /** A durable row; an empty string stands for an absent column. */
  datatype Row = Row(state: Life, backendId: string, path: string)

  datatype Projection = Projection(status: Status, hold: bool, hidden: bool)

  /** `workers` are the jids for which the queue holds an ingest job. */
  datatype State = State(rows: map<Jid, Row>, projections: map<Jid, Projection>, workers: set<Jid>)

  predicate Terminal(s: Life) { s.Imported? || s.Failed? || s.Cancelled? }

  /** `next_lifecycle_state`. */
  function Next(current: Life, report: Report): Life {
    if Terminal(current) || current.Importing? || current.Review? then current
    else
      match report
      case IsFailed => Failed
      case IsCompleted => Completed
      case IsDownloading => Downloading
      case IsQueued => Queued
      case Unknown => current
  }

  /** `_backend_state_to_jobs_status`. */
  function Image(s: Life): Status {
    match s
    case Failed => Broken
    case Completed => Processing
    case Importing => Processing
    case Review => Processing
    case _ => Fetching
  }

  /** What happens while one row is visited: the backend's answer, if there is one, the
      record of a review, and which of the durable writes persist. */
  datatype Poll = Poll(
    client: bool, answered: bool, report: Report, path: string, titleNew: bool,
    record: Option<string>, contained: bool,
    writeOk: bool, importOk: bool, enqueueOk: bool, revertOk: bool)

  const CLOSED := {"blocked", "discarded", "expired", "failed", "imported", "policy_violation", "promoted"}

  /** `_backend_review_row_visible`; no record, or none that can be read, is visible. */
  predicate Actionable(record: Option<string>) { record.None? || record.value !in CLOSED }

  function At(s: State, jid: Jid): Option<Status> {
    if jid in s.projections then Some(s.projections[jid].status) else None
  }

  function Put(s: State, jid: Jid, row: Row): State { s.(rows := s.rows[jid := row]) }

  /** Set the projected status; a lost projection is created again. */
  function Show(s: State, jid: Jid, status: Status): State {
    var p := if jid in s.projections then s.projections[jid] else Projection(status, false, false);
    s.(projections := s.projections[jid := p.(status := status)])
  }

  function Hold(s: State, jid: Jid): State {
    var t := Show(s, jid, Held);
    t.(projections := t.projections[jid := t.projections[jid].(hold := true)])
  }

  function Hide(s: State, jid: Jid): State {
    if jid in s.projections then s.(projections := s.projections[jid := s.projections[jid].(hidden := true)]) else s
  }

  /** `_start_backend_ingest`. */
  function Ingested(s: State, jid: Jid, p: Poll): State
    requires jid in s.rows
  {
    if !p.contained || !p.importOk then s
    else
      var t := Put(s, jid, s.rows[jid].(state := Importing));
      if p.enqueueOk then t.(workers := t.workers + {jid})
      else if p.revertOk then Put(t, jid, s.rows[jid].(state := Completed))
      else t
  }

  predicate Pollable(row: Row, p: Poll) {
    && row.backendId != "" && (row.state.Queued? || row.state.Downloading? || row.state.Completed?)
    && p.client && p.answered
  }

  predicate NeedsWrite(row: Row, p: Poll) {
    Next(row.state, p.report) != row.state || (p.path != "" && p.path != row.path) || p.titleNew
  }

  /** One turn of the loop in `_reconcile_backend_jobs`. */
  function Visited(s: State, jid: Jid, p: Poll): State
    requires jid in s.rows
  {
    var row := s.rows[jid];
    if jid == "" || row.backendId == "" || row.state.Importing? then s
    else if row.state.Review? then if Actionable(p.record) then Hold(s, jid) else s
    else if !Pollable(row, p) then s
    else
      var next := Next(row.state, p.report);
      if NeedsWrite(row, p) && !p.writeOk then s
      else
        var t := Show(Put(s, jid, Row(next, row.backendId, if p.path != "" then p.path else row.path)), jid, Image(next));
        if next == Completed && p.path != "" then Ingested(t, jid, p) else t
  }

  const LIMIT := 10_000

  predicate Distinct(order: seq<Jid>) {
    forall i, k | 0 <= i < k < |order| :: order[i] != order[k]
  }

  /** What `list_active_backend_jobs` may return: active rows, in some order, cut off at
      the limit; nothing when the read fails. */
  predicate Listing(rows: map<Jid, Row>, order: seq<Jid>) {
    Distinct(order) && |order| <= LIMIT && forall i | 0 <= i < |order| :: order[i] in rows && !Terminal(rows[order[i]].state)
  }

  /** The list was read and not cut off. */
  predicate Complete(rows: map<Jid, Row>, order: seq<Jid>) {
    forall jid | jid in rows && !Terminal(rows[jid].state) :: jid in order
  }

  function Pass(s: State, order: seq<Jid>, world: Jid -> Poll): State
    decreases |order|
  {
    if order == [] then s
    else Pass(if order[0] in s.rows then Visited(s, order[0], world(order[0])) else s, order[1..], world)
  }

  // ----- the other handlers -----

  /** `_backend_ingest_outcome`. */
  function Outcome(s: State, jid: Jid): Life {
    if jid !in s.projections then Imported
    else
      var p := s.projections[jid];
      if p.hold || p.status == Held then Review else if p.status == Broken then Failed else Imported
  }

  datatype Action =
    | Submit(jid: Jid, backendId: string, writeOk: bool)
    | Reconcile(order: seq<Jid>, world: Jid -> Poll)
    | Pipeline(jid: Jid, projection: Option<Projection>)
    | Mirror(jid: Jid, raised: bool, readOk: bool, writeOk: bool)
    | EndJob(jid: Jid)
    | Cancel(jid: Jid, readOk: bool, writeOk: bool)
    | Discard(jid: Jid, readOk: bool, writeOk: bool)

  function Submitted(s: State, jid: Jid, backendId: string, writeOk: bool): State {
    if !writeOk || jid == "" then s
    else
      var t := if jid in s.rows && Terminal(s.rows[jid].state) then s
               else Put(s, jid, Row(Downloading, backendId, if jid in s.rows then s.rows[jid].path else ""));
      t.(projections := t.projections[jid := Projection(Fetching, false, false)])
  }

  /** `_mirror_backend_ingest_outcome`, only while the row is importing. */
  function Mirrored(s: State, jid: Jid, raised: bool, readOk: bool, writeOk: bool): State {
    if readOk && writeOk && jid in s.rows && s.rows[jid].state.Importing?
    then Put(s, jid, s.rows[jid].(state := if raised then Failed else Outcome(s, jid)))
    else s
  }

  /** `_cancel_backend_job_if_any` and the hiding that follows it. */
  function Stopped(s: State, jid: Jid, readOk: bool, writeOk: bool): State {
    if !readOk || jid !in s.rows || Terminal(s.rows[jid].state) then Hide(s, jid)
    else if !writeOk then s
    else Hide(Put(s, jid, s.rows[jid].(state := Cancelled)), jid)
  }

  function Discarded(s: State, jid: Jid, readOk: bool, writeOk: bool): State {
    if readOk && writeOk && jid in s.rows && !Terminal(s.rows[jid].state)
    then Put(s, jid, s.rows[jid].(state := Cancelled))
    else s
  }

  function Step(s: State, a: Action): State {
    match a
    case Submit(jid, backendId, writeOk) => Submitted(s, jid, backendId, writeOk)
    case Reconcile(order, world) => if Listing(s.rows, order) then Pass(s, order, world) else s
    case Pipeline(jid, None) => s.(projections := s.projections - {jid})
    case Pipeline(jid, Some(p)) => s.(projections := s.projections[jid := p])
    case Mirror(jid, raised, readOk, writeOk) => Mirrored(s, jid, raised, readOk, writeOk)
    case EndJob(jid) => s.(workers := s.workers - {jid})
    case Cancel(jid, readOk, writeOk) => Stopped(s, jid, readOk, writeOk)
    case Discard(jid, readOk, writeOk) => Discarded(s, jid, readOk, writeOk)
  }

  function Run(s: State, acts: seq<Action>): State {
    if acts == [] then s else Step(Run(s, acts[..|acts| - 1]), acts[|acts| - 1])
  }

  // ----- a pass keeps row and projection in step -----

  /** A turn concerns its own row only. */
  ghost predicate OnlyAt(s: State, t: State, jid: Jid) {
    && t.rows.Keys == s.rows.Keys
    && forall k | k != jid ::
         && (k in s.rows ==> t.rows[k] == s.rows[k])
         && (k in t.projections <==> k in s.projections)
         && (k in s.projections ==> t.projections[k] == s.projections[k])
         && (k in t.workers <==> k in s.workers)
  }

  lemma IngestedOnlyAt(s: State, jid: Jid, p: Poll)
    requires jid in s.rows
    ensures OnlyAt(s, Ingested(s, jid, p), jid)
  {
  }

  lemma ShowOnlyAt(s: State, jid: Jid, row: Row, status: Status)
    requires jid in s.rows
    ensures OnlyAt(s, Show(Put(s, jid, row), jid, status), jid) && OnlyAt(s, Hold(s, jid), jid)
  {
  }

  lemma OnlyAtTwice(s: State, t: State, u: State, jid: Jid)
    requires OnlyAt(s, t, jid) && OnlyAt(t, u, jid)
    ensures OnlyAt(s, u, jid)
  {
  }

  lemma VisitedOnlyAt(s: State, jid: Jid, p: Poll)
    requires jid in s.rows
    ensures OnlyAt(s, Visited(s, jid, p), jid)
  {
    var row := s.rows[jid];
    var next := Next(row.state, p.report);
    var after := Row(next, row.backendId, if p.path != "" then p.path else row.path);
    ShowOnlyAt(s, jid, after, Image(next));
    var t := Show(Put(s, jid, after), jid, Image(next));
    IngestedOnlyAt(t, jid, p);
    OnlyAtTwice(s, t, Ingested(t, jid, p), jid);
    assert OnlyAt(s, s, jid);
    hide Next, Image, NeedsWrite, Actionable, Pollable, OnlyAt, Ingested, Show, Hold, Put;
  }

  predicate SameAt(s: State, t: State, jid: Jid) {
    && (jid in s.rows <==> jid in t.rows) && (jid in s.rows ==> t.rows[jid] == s.rows[jid])
    && (jid in s.projections <==> jid in t.projections)
    && (jid in s.projections ==> t.projections[jid] == s.projections[jid])
    && (jid in s.workers <==> jid in t.workers)
  }

  lemma IngestedLocal(s: State, t: State, jid: Jid, p: Poll)
    requires jid in s.rows && SameAt(s, t, jid)
    ensures SameAt(Ingested(s, jid, p), Ingested(t, jid, p), jid)
  {
  }

  lemma ShowLocal(s: State, t: State, jid: Jid, row: Row, status: Status)
    requires jid in s.rows && SameAt(s, t, jid)
    ensures SameAt(Show(Put(s, jid, row), jid, status), Show(Put(t, jid, row), jid, status), jid)
    ensures jid in Show(Put(s, jid, row), jid, status).rows
    ensures SameAt(Hold(s, jid), Hold(t, jid), jid)
  {
  }

  /** What a turn does to its row depends on nothing else. */
  lemma VisitedLocal(s: State, t: State, jid: Jid, p: Poll)
    requires jid in s.rows && SameAt(s, t, jid)
    ensures SameAt(Visited(s, jid, p), Visited(t, jid, p), jid)
  {
    var row := s.rows[jid];
    var next := Next(row.state, p.report);
    var after := Row(next, row.backendId, if p.path != "" then p.path else row.path);
    ShowLocal(s, t, jid, after, Image(next));
    IngestedLocal(Show(Put(s, jid, after), jid, Image(next)), Show(Put(t, jid, after), jid, Image(next)), jid, p);
    assert t.rows[jid] == row;
    hide Next, Image, NeedsWrite, Actionable, Pollable, SameAt, Ingested, Show, Hold, Put;
  }

  /** Over a whole pass each listed row is treated as by its own turn, and no other row
      changes. */
  lemma {:induction false} PassAt(s: State, order: seq<Jid>, world: Jid -> Poll, jid: Jid)
    requires Distinct(order)
    ensures Pass(s, order, world).rows.Keys == s.rows.Keys
    ensures jid in order && jid in s.rows ==> SameAt(Visited(s, jid, world(jid)), Pass(s, order, world), jid)
    ensures jid !in order || jid !in s.rows ==> SameAt(s, Pass(s, order, world), jid)
    decreases |order|
  {
    hide Visited;
    if order != [] {
      var t := if order[0] in s.rows then Visited(s, order[0], world(order[0])) else s;
      if order[0] in s.rows { VisitedOnlyAt(s, order[0], world(order[0])); }
      PassAt(t, order[1..], world, jid);
      if jid != order[0] && jid in s.rows { VisitedLocal(s, t, jid, world(jid)); }
    }
  }

  /** What the backend's report makes of a row that it may still move. */
  function Reported(current: Life, report: Report): Life {
    if report.IsFailed? then Failed
    else if report.IsCompleted? then Completed
    else if report.IsDownloading? then Downloading
    else if report.IsQueued? then Queued
    else current
  }

  /** A row that is not polled, or whose write is needed and lost. */
  predicate LeftAlone(row: Row, p: Poll) {
    || row.backendId == "" || !p.client || !p.answered
    || (!p.writeOk && (Reported(row.state, p.report) != row.state || p.titleNew || (p.path != "" && p.path != row.path)))
  }

  /** A download that is complete, lies under the root, and whose hand-off is recorded and
      not undone. */
  predicate HandedOver(row: Row, p: Poll) {
    && !LeftAlone(row, p) && (p.report.IsCompleted? || (p.report.Unknown? && row.state.Completed?))
    && p.path != "" && p.contained && p.importOk && (p.enqueueOk || !p.revertOk)
  }

  lemma VisitedByReport(s: State, jid: Jid, p: Poll)
    requires jid in s.rows && jid != ""
    requires s.rows[jid].state.Queued? || s.rows[jid].state.Downloading? || s.rows[jid].state.Completed?
    ensures var row, t := s.rows[jid], Visited(s, jid, p);
            && jid in t.rows && t.rows[jid].backendId == row.backendId
            && (LeftAlone(row, p) ==> SameAt(s, t, jid))
            && (!LeftAlone(row, p) ==>
                && t.rows[jid].state == (if HandedOver(row, p) then Importing else Reported(row.state, p.report))
                && t.rows[jid].path == (if p.path != "" then p.path else row.path)
                && (jid in t.workers <==> jid in s.workers || (HandedOver(row, p) && p.enqueueOk))
                && jid in t.projections && t.projections[jid].status ==
                   (if p.report.IsFailed? then Broken
                    else if p.report.IsCompleted? || (p.report.Unknown? && row.state.Completed?) then Processing
                    else Fetching)
                && (jid in s.projections ==>
                    t.projections[jid].hold == s.projections[jid].hold && t.projections[jid].hidden == s.projections[jid].hidden)
                && (jid !in s.projections ==> !t.projections[jid].hold && !t.projections[jid].hidden))
  {
    var row := s.rows[jid];
    VisitedIs(s, jid, p);
    if !LeftAlone(row, p) {
      var next := Reported(row.state, p.report);
      var after := Row(next, row.backendId, if p.path != "" then p.path else row.path);
      var t := Show(Put(s, jid, after), jid, Image(next));
      IngestedIs(t, jid, p);
      HandedIs(row, p);
      ImageIs(row.state, p.report);
      hide Visited, Ingested, HandedOver, LeftAlone, Reported, Image;
    } else {
      hide Visited, LeftAlone;
    }
  }

  lemma VisitedIs(s: State, jid: Jid, p: Poll)
    requires jid in s.rows && jid != ""
    requires s.rows[jid].state.Queued? || s.rows[jid].state.Downloading? || s.rows[jid].state.Completed?
    ensures var row := s.rows[jid];
            var next := Reported(row.state, p.report);
            var t := Show(Put(s, jid, Row(next, row.backendId, if p.path != "" then p.path else row.path)), jid, Image(next));
            Visited(s, jid, p) ==
            if LeftAlone(row, p) then s else if next.Completed? && p.path != "" then Ingested(t, jid, p) else t
  {
    TurnIs(s.rows[jid], p);
    hide LeftAlone, NeedsWrite, Next, Reported, Show, Put, Ingested, Image;
  }

  lemma TurnIs(row: Row, p: Poll)
    requires row.state.Queued? || row.state.Downloading? || row.state.Completed?
    ensures Next(row.state, p.report) == Reported(row.state, p.report)
    ensures !Pollable(row, p) || (NeedsWrite(row, p) && !p.writeOk) <==> LeftAlone(row, p)
  {
  }

  lemma IngestedIs(s: State, jid: Jid, p: Poll)
    requires jid in s.rows
    ensures var t := Ingested(s, jid, p);
            && jid in t.rows && t.rows[jid].backendId == s.rows[jid].backendId && t.rows[jid].path == s.rows[jid].path
            && t.projections == s.projections
            && (s.rows[jid].state.Completed? ==>
                t.rows[jid].state == if p.contained && p.importOk && (p.enqueueOk || !p.revertOk) then Importing else Completed)
            && (jid in t.workers <==> jid in s.workers || (p.contained && p.importOk && p.enqueueOk))
  {
  }

  lemma HandedIs(row: Row, p: Poll)
    requires !LeftAlone(row, p)
    ensures HandedOver(row, p) <==>
            Reported(row.state, p.report).Completed? && p.path != "" && p.contained && p.importOk && (p.enqueueOk || !p.revertOk)
    ensures HandedOver(row, p) && p.enqueueOk <==>
            Reported(row.state, p.report).Completed? && p.path != "" && p.contained && p.importOk && p.enqueueOk
  {
    hide LeftAlone;
  }

  lemma ImageIs(current: Life, report: Report)
    requires current.Queued? || current.Downloading? || current.Completed?
    ensures Image(Reported(current, report)) ==
            if report.IsFailed? then Broken
            else if report.IsCompleted? || (report.Unknown? && current.Completed?) then Processing
            else Fetching
  {
  }

  /** For any number of rows and any pattern of failing writes, what a pass does to each
      queued, downloading or completed row, by what the backend reports: either neither
      row nor projection changes, exactly when the row is not polled or a needed write is
      lost; or the row has the reported state, or is handed over, and its projection shows
      just that. A failure is shown exactly when it is reported, and a download is shown as
      processing exactly when it is complete. */
  lemma ReconcileInStep(s: State, order: seq<Jid>, world: Jid -> Poll, jid: Jid)
    requires Listing(s.rows, order) && jid in order && jid != ""
    requires s.rows[jid].state.Queued? || s.rows[jid].state.Downloading? || s.rows[jid].state.Completed?
    ensures var row, p, t := s.rows[jid], world(jid), Step(s, Reconcile(order, world));
            && jid in t.rows
            && (LeftAlone(row, p) ==>
                && t.rows[jid] == row && (jid in t.projections <==> jid in s.projections)
                && (jid in s.projections ==> t.projections[jid] == s.projections[jid]))
            && (!LeftAlone(row, p) ==>
                && t.rows[jid].state == (if HandedOver(row, p) then Importing else Reported(row.state, p.report))
                && At(t, jid) == Some(Image(t.rows[jid].state))
                && jid in t.projections && t.projections[jid].status ==
                   (if p.report.IsFailed? then Broken
                    else if p.report.IsCompleted? || (p.report.Unknown? && row.state.Completed?) then Processing
                    else Fetching))
  {
    PassAt(s, order, world, jid);
    VisitedByReport(s, jid, world(jid));
    hide Visited, Pass, LeftAlone, HandedOver;
    assert HandedOver(s.rows[jid], world(jid)) ==>
             world(jid).report.IsCompleted? || (world(jid).report.Unknown? && s.rows[jid].state.Completed?) by {
      HandedIsComplete(s.rows[jid], world(jid));
    }
  }

  lemma HandedIsComplete(row: Row, p: Poll)
    ensures HandedOver(row, p) ==> p.report.IsCompleted? || (p.report.Unknown? && row.state.Completed?)
  {
  }

  /** A pass over a review: the row stays, and while its record is open, or cannot be read,
      the queue entry is put on hold again. */
  lemma ReviewIsHeld(s: State, order: seq<Jid>, world: Jid -> Poll, jid: Jid)
    requires Listing(s.rows, order) && jid in order && jid != "" && s.rows[jid].state.Review? && s.rows[jid].backendId != ""
    ensures var t := Step(s, Reconcile(order, world));
            var open := world(jid).record.None? || world(jid).record.value !in
                        {"blocked", "discarded", "expired", "failed", "imported", "policy_violation", "promoted"};
            && jid in t.rows && t.rows[jid] == s.rows[jid]
            && (open ==> jid in t.projections && t.projections[jid].status == Held && t.projections[jid].hold)
            && (!open ==> (jid in t.projections <==> jid in s.projections) && (jid in s.projections ==> t.projections[jid] == s.projections[jid]))
  {
    PassAt(s, order, world, jid);
    VisitedReview(s, jid, world(jid));
    hide Visited, Pass;
  }

  lemma VisitedReview(s: State, jid: Jid, p: Poll)
    requires jid in s.rows && jid != "" && s.rows[jid].state.Review? && s.rows[jid].backendId != ""
    ensures var t := Visited(s, jid, p);
            && t.rows == s.rows
            && (Actionable(p.record) ==> jid in t.projections && t.projections[jid].status == Held && t.projections[jid].hold)
            && (!Actionable(p.record) ==> t == s)
  {
    hide Actionable;
  }

  /** Over a whole pass, a row is handed to the import pipeline if and only if it was
      polled, is complete by the report or was and nothing else is known, has a contained
      path and its writes took, with the worker job enqueued or both the enqueue and the
      write that undoes it failing. In the last case, and in no other, it comes out
      importing without a worker job. */
  lemma HandOffOverPass(s: State, order: seq<Jid>, world: Jid -> Poll, jid: Jid)
    requires Listing(s.rows, order) && jid in order && jid != ""
    requires s.rows[jid].state.Queued? || s.rows[jid].state.Downloading? || s.rows[jid].state.Completed?
    ensures var row, p, t := s.rows[jid], world(jid), Step(s, Reconcile(order, world));
            && jid in t.rows
            && (t.rows[jid].state.Importing? <==>
                && !LeftAlone(row, p) && (p.report.IsCompleted? || (p.report.Unknown? && row.state.Completed?))
                && p.path != "" && p.contained && p.importOk && (p.enqueueOk || !p.revertOk))
            && (t.rows[jid].state.Importing? && jid !in t.workers <==>
                && !LeftAlone(row, p) && (p.report.IsCompleted? || (p.report.Unknown? && row.state.Completed?))
                && p.path != "" && p.contained && p.importOk && jid !in s.workers && !p.enqueueOk && !p.revertOk)
  {
    PassAt(s, order, world, jid);
    VisitedByReport(s, jid, world(jid));
    hide Visited, Pass, LeftAlone;
  }

  // ----- terminal rows -----

  lemma VisitedTerminal(s: State, jid: Jid, p: Poll)
    requires jid in s.rows && Terminal(s.rows[jid].state)
    ensures Visited(s, jid, p).rows[jid] == s.rows[jid]
  {
  }

  lemma StepTerminal(s: State, a: Action, jid: Jid)
    requires jid in s.rows && Terminal(s.rows[jid].state)
    ensures jid in Step(s, a).rows && Step(s, a).rows[jid] == s.rows[jid]
  {
    if a.Reconcile? && Listing(s.rows, a.order) {
      PassAt(s, a.order, a.world, jid);
      VisitedTerminal(s, jid, a.world(jid));
      hide Visited, Pass;
    }
  }

  /** Over every run a terminal row keeps its state: never reopened, and never changed
      into another terminal state. */
  lemma {:induction false} TerminalForever(s: State, acts: seq<Action>, jid: Jid)
    requires jid in s.rows && Terminal(s.rows[jid].state)
    ensures jid in Run(s, acts).rows && Run(s, acts).rows[jid] == s.rows[jid]
  {
    if acts != [] {
      TerminalForever(s, acts[..|acts| - 1], jid);
      StepTerminal(Run(s, acts[..|acts| - 1]), acts[|acts| - 1], jid);
      hide Step;
    }
  }

  /** A cancel ends the row if and only if it was read and the write persisted, or the
      row had ended before; an ended row is final in every continuation. The job is
      hidden from Lidarr unless the cancel sees the row and its write is lost, so it is
      hidden while the row lives on exactly when a live row could not be read. */
  lemma CancelIsFinal(s: State, jid: Jid, readOk: bool, writeOk: bool, acts: seq<Action>)
    requires jid in s.rows
    ensures var t := Step(s, Cancel(jid, readOk, writeOk));
            var u := Run(t, acts);
            && (Terminal(t.rows[jid].state) <==> (readOk && writeOk) || Terminal(s.rows[jid].state))
            && (Terminal(t.rows[jid].state) ==>
                jid in u.rows && u.rows[jid].state == (if Terminal(s.rows[jid].state) then s.rows[jid].state else Cancelled))
            && (jid in s.projections && !s.projections[jid].hidden ==>
                && (t.projections[jid].hidden <==> !readOk || writeOk || Terminal(s.rows[jid].state))
                && (t.projections[jid].hidden && !Terminal(t.rows[jid].state) <==> !readOk && !Terminal(s.rows[jid].state)))
  {
    var t := Step(s, Cancel(jid, readOk, writeOk));
    if Terminal(t.rows[jid].state) {
      TerminalForever(t, acts, jid);
    }
  }

  /** A discard ends a live row if and only if its read and its write succeed, and then for
      good; it touches nothing else. */
  lemma DiscardIsFinal(s: State, jid: Jid, readOk: bool, writeOk: bool, acts: seq<Action>)
    requires jid in s.rows
    ensures var t := Step(s, Discard(jid, readOk, writeOk));
            && t.projections == s.projections && t.workers == s.workers && t.rows.Keys == s.rows.Keys
            && (forall k | k in s.rows && k != jid :: t.rows[k] == s.rows[k])
            && t.rows[jid].state == (if readOk && writeOk && !Terminal(s.rows[jid].state) then Cancelled else s.rows[jid].state)
            && (Terminal(t.rows[jid].state) ==> jid in Run(t, acts).rows && Run(t, acts).rows[jid].state == t.rows[jid].state)
  {
    var t := Step(s, Discard(jid, readOk, writeOk));
    if Terminal(t.rows[jid].state) { TerminalForever(t, acts, jid); }
    hide Run;
  }

  predicate IsImported(s: State, jid: Jid) { jid in s.rows && s.rows[jid].state == Imported }

  /** A cancel during an import keeps the row from ever being mirrored as imported if and
      only if its read succeeds and its write persists. */
  lemma CancelStopsImportIff(s: State, jid: Jid, readOk: bool, writeOk: bool)
    requires jid in s.rows && s.rows[jid].state.Importing?
    ensures var t := Step(s, Cancel(jid, readOk, writeOk));
            (forall acts :: !IsImported(Run(t, acts), jid))
            <==> readOk && writeOk
  {
    var t := Step(s, Cancel(jid, readOk, writeOk));
    if readOk && writeOk {
      forall acts ensures !IsImported(Run(t, acts), jid) {
        TerminalForever(t, acts, jid);
      }
    } else {
      var a, b := Pipeline(jid, None), Mirror(jid, false, true, true);
      RunTwo(t, a, b);
      assert IsImported(Run(t, [a, b]), jid);
    }
  }

  lemma RunTwo(s: State, a: Action, b: Action)
    ensures Run(s, [a, b]) == Step(Step(s, a), b)
  {
    hide Step;
    assert [a, b][..1] == [a] && [a][..0] == [];
    assert Run(s, [a]) == Step(s, a);
  }

  /** The failing input: the read of an importing row fails, so the cancel takes it for no
      backend job and hides it. The request also asks the worker job to stop; the ingest
      is mirrored as imported if and only if the pipeline ends without heeding that. */
  lemma HiddenYetImported(s: State, jid: Jid, writeOk: bool, raised: bool)
    requires jid in s.rows && s.rows[jid].state.Importing?
    requires jid in s.projections && s.projections[jid] == Projection(Processing, false, false)
    ensures var t := Run(s, [Cancel(jid, false, writeOk), Mirror(jid, raised, true, true)]);
            && jid in t.rows && jid in t.projections && t.projections[jid].hidden
            && t.rows[jid].state == if raised then Failed else Imported
  {
    RunTwo(s, Cancel(jid, false, writeOk), Mirror(jid, raised, true, true));
  }

  /** The only way to `imported` is a mirrored ingest of a row that was importing. */
  lemma ImportedFromImporting(s: State, a: Action, jid: Jid)
    requires jid in Step(s, a).rows && Step(s, a).rows[jid].state == Imported
    ensures jid in s.rows
    ensures s.rows[jid].state == Imported || (s.rows[jid].state == Importing && a.Mirror? && a.jid == jid)
  {
    if a.Reconcile? && Listing(s.rows, a.order) {
      PassAt(s, a.order, a.world, jid);
      if jid in s.rows { VisitedNotImported(s, jid, a.world(jid)); }
      hide Visited, Pass;
    }
  }

  /** A mirrored outcome is that of the pipeline: a hold is a review, a failure or a
      raised exception a failure, and anything else an import. */
  lemma MirroredOutcome(s: State, jid: Jid, raised: bool)
    requires jid in s.rows && s.rows[jid].state.Importing?
    ensures var t := Step(s, Mirror(jid, raised, true, true));
            && jid in t.rows
            && (t.rows[jid].state == Review <==> !raised && IsHeld(s, jid))
            && (t.rows[jid].state == Failed <==> raised || (IsBroken(s, jid) && !IsHeld(s, jid)))
            && (t.rows[jid].state == Imported <==> !raised && !IsHeld(s, jid) && !IsBroken(s, jid))
  {
  }

  predicate IsHeld(s: State, jid: Jid) {
    jid in s.projections && (s.projections[jid].hold || s.projections[jid].status == Held)
  }

  predicate IsBroken(s: State, jid: Jid) { jid in s.projections && s.projections[jid].status == Broken }

  /** Over every run, a row that has become imported was importing when its own ingest was
      mirrored, with both calls succeeding, and the pipeline had neither held nor failed
      it. */
  lemma {:induction false} ImportedByMirror(s: State, acts: seq<Action>, jid: Jid) returns (n: nat)
    requires !IsImported(s, jid) && IsImported(Run(s, acts), jid)
    ensures n < |acts| && acts[n] == Mirror(jid, false, true, true)
    ensures var t := Run(s, acts[..n]);
            jid in t.rows && t.rows[jid].state.Importing? && !IsHeld(t, jid) && !IsBroken(t, jid)
  {
    var m := |acts| - 1;
    if IsImported(Run(s, acts[..m]), jid) {
      n := ImportedByMirror(s, acts[..m], jid);
      assert acts[..m][..n] == acts[..n];
    } else {
      var t := Run(s, acts[..m]);
      ImportedFromImporting(t, acts[m], jid);
      MirroredOutcome(t, jid, acts[m].raised);
      n := m;
    }
  }

  lemma VisitedNotImported(s: State, jid: Jid, p: Poll)
    requires jid in s.rows
    ensures Visited(s, jid, p).rows[jid].state == Imported ==> s.rows[jid].state == Imported
  {
  }

  // ----- the queue shown to Lidarr -----

  /** `_visible_in_sab_queue`; a row that cannot be read counts as absent. */
  predicate Visible(s: State, jid: Jid, readOk: bool) {
    && jid in s.projections && !s.projections[jid].hidden
    && !(readOk && jid in s.rows && Terminal(s.rows[jid].state))
    && (var p := s.projections[jid]; p.status.Waiting? || p.status.Fetching? || p.status.Processing? || p.hold)
  }

  predicate Fallback(s: State, jid: Jid, record: Option<string>) {
    jid != "" && jid in s.rows && s.rows[jid].state.Review? && Actionable(record)
  }

  class Lane {
    var rows: map<Jid, Row>
    var projections: map<Jid, Projection>
    var workers: set<Jid>

    constructor ()
      ensures Abs() == State(map[], map[], {})
    {
      rows, projections, workers := map[], map[], {};
    }

    ghost function Abs(): State
      reads this
    {
      State(rows, projections, workers)
    }

    method UpdateBackendJob(jid: Jid, row: Row, ok: bool) returns (updated: bool)
      modifies this`rows
      ensures updated == (ok && jid in old(rows))
      ensures Abs() == if updated then Put(old(Abs()), jid, row) else old(Abs())
    {
      updated := ok && jid in rows;
      if updated { rows := rows[jid := row]; }
    }

    method StartBackendIngest(jid: Jid, p: Poll)
      requires jid in rows
      modifies this
      ensures Abs() == Ingested(old(Abs()), jid, p)
    {
      if !p.contained { return; }
      var row := rows[jid];
      var ok := UpdateBackendJob(jid, row.(state := Importing), p.importOk);
      if !ok { return; }
      if p.enqueueOk {
        workers := workers + {jid};
      } else {
        ok := UpdateBackendJob(jid, row.(state := Completed), p.revertOk);
      }
    }

    method ShowProjection(jid: Jid, status: Status)
      modifies this`projections
      ensures Abs() == Show(old(Abs()), jid, status)
    {
      if jid !in projections {
        projections := projections[jid := Projection(status, false, false)];
      }
      projections := projections[jid := projections[jid].(status := status)];
    }

    method VisitOne(jid: Jid, p: Poll)
      requires jid in rows
      modifies this
      ensures Abs() == Visited(old(Abs()), jid, p)
    {
      var row := rows[jid];
      if jid == "" || row.backendId == "" || row.state.Importing? { return; }
      if row.state.Review? {
        if Actionable(p.record) {
          ShowProjection(jid, Held);
          projections := projections[jid := projections[jid].(hold := true)];
        }
        return;
      }
      if Terminal(row.state) || !p.client || !p.answered { return; }
      var next := Next(row.state, p.report);
      var path := if p.path != "" then p.path else row.path;
      if next != row.state || path != row.path || p.titleNew {
        var updated := UpdateBackendJob(jid, Row(next, row.backendId, path), p.writeOk);
        if !updated { return; }
      } else {
        assert Row(next, row.backendId, path) == row && Put(Abs(), jid, row) == Abs();
      }
      ShowProjection(jid, Image(next));
      if next == Completed && p.path != "" { StartBackendIngest(jid, p); }
    }

    /** `_reconcile_backend_jobs`. */
    method ReconcileBackendJobs(order: seq<Jid>, world: Jid -> Poll)
      requires Listing(rows, order)
      modifies this
      ensures Abs() == Step(old(Abs()), Reconcile(order, world))
      ensures forall jid | jid in order && jid != "" && Pollable(old(rows)[jid], world(jid)) && world(jid).writeOk ::
                jid in rows && jid in projections && projections[jid].status == Image(rows[jid].state)
    {
      hide Visited;
      ghost var before := Abs();
      var i := 0;
      while i < |order|
        invariant 0 <= i <= |order| && rows.Keys == before.rows.Keys
        invariant Pass(Abs(), order[i..], world) == Pass(before, order, world)
      {
        ghost var now := Abs();
        VisitedOnlyAt(now, order[i], world(order[i]));
        VisitOne(order[i], world(order[i]));
        assert order[i..][1..] == order[i + 1..];
        i := i + 1;
      }
      forall jid | jid in order && jid != "" && Pollable(before.rows[jid], world(jid)) && world(jid).writeOk
        ensures jid in rows && At(Abs(), jid) == Some(Image(rows[jid].state))
      {
        ReconcileInStep(before, order, world, jid);
      }
    }

    method MirrorOutcome(jid: Jid, raised: bool, readOk: bool, writeOk: bool)
      modifies this
      ensures Abs() == Step(old(Abs()), Mirror(jid, raised, readOk, writeOk))
    {
      if !readOk || jid !in rows || rows[jid].state != Importing { return; }
      var outcome := Imported;
      if raised {
        outcome := Failed;
      } else if jid in projections {
        var p := projections[jid];
        if p.hold || p.status == Held { outcome := Review; } else if p.status == Broken { outcome := Failed; }
      }
      var updated := UpdateBackendJob(jid, rows[jid].(state := outcome), writeOk);
    }

    method CancelBackendJob(jid: Jid, readOk: bool, writeOk: bool) returns (mayHide: bool)
      modifies this
      ensures Abs() == Step(old(Abs()), Cancel(jid, readOk, writeOk))
      ensures readOk && jid in old(rows) ==> (mayHide <==> Terminal(rows[jid].state))
    {
      mayHide := true;
      if readOk && jid in rows && !Terminal(rows[jid].state) {
        mayHide := UpdateBackendJob(jid, rows[jid].(state := Cancelled), writeOk);
      }
      if mayHide && jid in projections {
        projections := projections[jid := projections[jid].(hidden := true)];
      }
    }

    method MarkDiscarded(jid: Jid, readOk: bool, writeOk: bool)
      modifies this
      ensures Abs() == Step(old(Abs()), Discard(jid, readOk, writeOk))
    {
      if !readOk || jid !in rows || Terminal(rows[jid].state) { return; }
      var updated := UpdateBackendJob(jid, rows[jid].(state := Cancelled), writeOk);
    }

    /** `mode=queue`: the visible projections, in the order `keys` of the dictionary,
        then the review rows that none of them shows. A jid appears once at most. A
        terminal row appears exactly when it could not be read and its projection
        still looks active. A review row with an open record appears exactly when its
        projection is visible or the list of active rows has it. */
    method QueueListing(keys: seq<Jid>, order: seq<Jid>, readOk: Jid -> bool, record: Jid -> Option<string>)
      returns (slots: seq<Jid>)
      requires Distinct(keys) && Listing(rows, order) && forall k :: k in keys <==> k in projections
      ensures Distinct(slots)
      ensures forall jid | jid in rows && Terminal(rows[jid].state) && readOk(jid) :: jid !in slots
      ensures forall jid | jid in rows && Terminal(rows[jid].state) && !readOk(jid) ::
                jid in slots <==> Visible(Abs(), jid, false)
      ensures forall jid | jid != "" && jid in rows && rows[jid].state.Review? && Actionable(record(jid)) ::
                jid in slots <==> Visible(Abs(), jid, true) || jid in order
      ensures Complete(rows, order) ==>
                forall jid | jid != "" && jid in rows && rows[jid].state.Review? && Actionable(record(jid)) :: jid in slots
      ensures forall jid | jid !in rows :: jid in slots <==> Visible(Abs(), jid, true)
      ensures forall jid :: jid in slots <==>
                || (&& jid in projections && !projections[jid].hidden
                    && (projections[jid].hold || projections[jid].status in {Waiting, Fetching, Processing})
                    && !(readOk(jid) && jid in rows && rows[jid].state in {Imported, Failed, Cancelled}))
                || (&& jid != "" && jid in order && jid in rows && rows[jid].state == Review
                    && (record(jid).None? || record(jid).value !in
                        {"blocked", "discarded", "expired", "failed", "imported", "policy_violation", "promoted"}))
    {
      slots := ListSlots(keys, order, readOk, record);
    }

    /** The two loops. */
    method ListSlots(keys: seq<Jid>, order: seq<Jid>, readOk: Jid -> bool, record: Jid -> Option<string>)
      returns (slots: seq<Jid>)
      requires Distinct(keys) && Listing(rows, order) && forall k :: k in keys <==> k in projections
      ensures Distinct(slots)
      ensures forall jid :: jid in slots <==>
                || (&& jid in projections && !projections[jid].hidden
                    && (projections[jid].hold || projections[jid].status in {Waiting, Fetching, Processing})
                    && !(readOk(jid) && jid in rows && rows[jid].state in {Imported, Failed, Cancelled}))
                || (&& jid != "" && jid in order && jid in rows && rows[jid].state == Review
                    && (record(jid).None? || record(jid).value !in
                        {"blocked", "discarded", "expired", "failed", "imported", "policy_violation", "promoted"}))
    {
      slots := [];
      var i := 0;
      while i < |keys|
        invariant 0 <= i <= |keys| && Distinct(slots)
        invariant forall k | k in slots :: k in keys[..i] && Visible(Abs(), k, readOk(k))
        invariant forall k | k in keys[..i] && Visible(Abs(), k, readOk(k)) :: k in slots
      {
        assert keys[..i + 1] == keys[..i] + [keys[i]];
        if Visible(State(rows, projections, workers), keys[i], readOk(keys[i])) {
          assert keys[i] !in keys[..i];
          slots := slots + [keys[i]];
        }
        i := i + 1;
      }
      assert keys[..i] == keys;
      var visible := slots;
      assert forall k :: k in visible <==> Visible(Abs(), k, readOk(k));
      i := 0;
      while i < |order|
        invariant 0 <= i <= |order| && Distinct(slots)
        invariant forall k :: k in slots <==> k in visible || (k in order[..i] && Fallback(Abs(), k, record(k)))
      {
        var jid := order[i];
        assert order[..i + 1] == order[..i] + [jid] && jid !in order[..i];
        if jid !in visible && jid != "" && rows[jid].state.Review? && Actionable(record(jid)) {
          slots := slots + [jid];
        }
        i := i + 1;
      }
      assert order[..i] == order;
    }
  }
}

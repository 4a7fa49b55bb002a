/** The signal delivery pipeline as a state machine: the `SIGNALS` stream, the `signals` table,
    the one `SignalWorker` and the one retry job, cut at every await.

    An `Answer` carries everything one step leaves to the outside world. A crash drops what the
    two tasks hold in memory and nothing else. */
module SignalPipeline {
  import opened Wrappers
  import opened SignalRows

  datatype Settlement = Open | Acked | Termed

  /** One message of the stream. `payload` is None when the envelope is malformed; `keyed` is
      false when the message carries no metadata; `handled` once a delivery reached the worker. */
  datatype Slot = Slot(payload: Option<Payload>, keyed: bool, handled: bool, settled: Settlement)

  /** One publish that reached, or may have reached, the workers. */
  datatype Sent = Sent(deliveryKey: Option<MessageId>, id: SignalId)

  /** What a fan-out works on: the table and the history of publishes. `confirmed` holds the ids
      of publishes that returned without an error. */
  datatype World = World(rows: SignalTable, sent: seq<Sent>, confirmed: set<SignalId>)

  /** The awaits of `_fanout`. */
  datatype Fanout = Publishing | MarkingInvalid | RecordingFailure | MarkingPublished

  datatype Progress = Continue(at: Fanout) | Returned | Raised

  datatype Found = Found(id: SignalId, row: Signal)

  /** The awaits of `SignalWorker._handle_one` and of `handle_enqueued` inside it. */
  datatype Stage =
    | LookingUp
    | AtGate(existing: Option<Found>)
    | ClosingBlocked(id: SignalId)
    | Persisting
    | FanningOut(id: SignalId, at: Fanout)
    | Escaped
    | Acking
    | Terming

  datatype Worker = Idle | Handling(m: MessageId, redelivered: bool, delaysLeft: nat, stage: Stage)

  datatype RetryStage = Fetching | Discarding(row: SignalId) | Firing(id: SignalId, at: Fanout)

  /** The retry job: the rows its tick still has to visit, and where it is with the first one. */
  datatype Retry = Resting | Ticking(ids: seq<SignalId>, stage: RetryStage)

  datatype State = State(
    world: World,
    stream: map<MessageId, Slot>,
    dropped: set<MessageId>,
    worker: Worker,
    retry: Retry)

  datatype Params = Params(maxAttempts: int, inlineRetries: nat, interval: nat)

  datatype Answer = Answer(db: Db, now: nat, blocked: bool, rebuilds: bool)

  datatype Event =
    | Store(m: MessageId, payload: Option<Payload>, keyed: bool)
    | Deliver(m: MessageId, redelivered: bool)
    | WorkerStep(answer: Answer)
    | Tick(answer: Answer)
    | RetryStep(answer: Answer)
    | Crash

  // ── Steps ──────────────────────────────────────────────────────────

  /** The row carrying delivery key `m`, if any (`get_by_delivery_key`). */
  function FindByKey(rows: SignalTable, m: MessageId, from: nat := 0): (r: Option<Found>)
    requires from <= |rows|
    ensures r.Some? ==> from <= r.value.id < |rows| && r.value.row == rows[r.value.id] && r.value.row.deliveryKey == Some(m)
    ensures r.None? ==> forall i | from <= i < |rows| :: rows[i].deliveryKey != Some(m)
    decreases |rows| - from
  {
    if from == |rows| then None
    else if rows[from].deliveryKey == Some(m) then Some(Found(from, rows[from]))
    else FindByKey(rows, m, from + 1)
  }

  /** One await of `_fanout` on row `id`. */
  function FanoutStep(w: World, id: SignalId, at: Fanout, a: Answer): (World, Progress)
    requires id < |w.rows|
  {
    var row := w.rows[id];
    match at
    case Publishing =>
      if row.payload.Unparseable? then (w, Continue(MarkingInvalid))
      else if a.db.Aborts? then (w, Continue(RecordingFailure))
      else
        var w' := w.(sent := w.sent + [Sent(row.deliveryKey, id)]);
        if a.db.ReplyLost? then (w', Continue(RecordingFailure))
        else (w'.(confirmed := w.confirmed + {id}), Continue(MarkingPublished))
    case MarkingInvalid =>
      (w.(rows := Stored(w.rows, id, MarkedFailed(row, a.now), a.db)),
       if a.db.Commits? then Returned else Raised)
    case RecordingFailure =>
      (w.(rows := Stored(w.rows, id, AttemptSpent(row, a.now), a.db)),
       if a.db.Commits? then Returned else Raised)
    case MarkingPublished =>
      (w.(rows := Stored(w.rows, id, MarkedPublished(row), a.db)), Returned)
  }

  function KeyOf(s: State, m: MessageId): Option<MessageId>
    requires m in s.stream
  {
    if s.stream[m].keyed then Some(m) else None
  }

  function At(s: State, stage: Stage): State
    requires s.worker.Handling?
  {
    s.(worker := s.worker.(stage := stage))
  }

  function Settled(s: State, m: MessageId, how: Settlement, db: Db): State
    requires m in s.stream
  {
    var slot := s.stream[m];
    if db.Aborts? || !slot.settled.Open? then s
    else s.(stream := s.stream[m := slot.(settled := how)])
  }

  predicate WorkerEnabled(s: State) {
    && s.worker.Handling?
    && s.worker.m in s.stream
    && (s.worker.stage.ClosingBlocked? ==> s.worker.stage.id < |s.world.rows|)
    && (s.worker.stage.FanningOut? ==> s.worker.stage.id < |s.world.rows|)
    && (s.worker.stage.Persisting? ==> s.stream[s.worker.m].payload.Some?)
  }

  function WorkerNext(p: Params, s: State, a: Answer): State
    requires WorkerEnabled(s)
  {
    var m := s.worker.m;
    var w := s.world;
    match s.worker.stage
    case LookingUp =>
      if !s.stream[m].keyed || !s.worker.redelivered then At(s, AtGate(None))
      else if a.db.Commits? then At(s, AtGate(FindByKey(w.rows, m)))
      else At(s, Escaped)
    case AtGate(existing) =>
      if !a.db.Commits? then At(s, Escaped)
      else if a.blocked then
        if existing.None? then At(s.(dropped := s.dropped + {m}), Acking)
        else if FirstFanoutUnconfirmed(existing.value.row) then At(s, ClosingBlocked(existing.value.id))
        else At(s, Acking)
      else if existing.None? then At(s, Persisting)
      else if FirstFanoutUnconfirmed(existing.value.row) then At(s, FanningOut(existing.value.id, Publishing))
      else At(s, Acking)
    case ClosingBlocked(id) =>
      var s' := s.(world := w.(rows := Stored(w.rows, id, MarkedFailed(w.rows[id], a.now), a.db)));
      At(s', if a.db.Commits? then Acking else Escaped)
    case Persisting =>
      var row := NewSignal(KeyOf(s, m), s.stream[m].payload.value, p.maxAttempts);
      var s' := s.(world := w.(rows := Inserted(w.rows, row, a.db)));
      At(s', if a.db.Commits? && KeyFree(w.rows, row.deliveryKey) then FanningOut(|w.rows|, Publishing) else Escaped)
    case FanningOut(id, at) =>
      var (w', progress) := FanoutStep(w, id, at, a);
      At(s.(world := w'),
         match progress
         case Continue(next) => FanningOut(id, next)
         case Returned => Acking
         case Raised => Escaped)
    case Escaped =>
      if s.worker.delaysLeft == 0 then s.(worker := Idle)
      else s.(worker := Handling(m, true, s.worker.delaysLeft - 1, LookingUp))
    case Acking => Settled(s, m, Acked, a.db).(worker := Idle)
    case Terming => Settled(s, m, Termed, a.db).(worker := Idle)
  }

  predicate RetryEnabled(s: State) {
    && s.retry.Ticking?
    && s.retry.ids != []
    && (s.retry.stage.Discarding? ==> s.retry.stage.row < |s.world.rows|)
    && (s.retry.stage.Firing? ==> s.retry.stage.id < |s.world.rows|)
  }

  /** The tick moves on to its next row, or ends. */
  function NextRow(s: State): State
    requires s.retry.Ticking? && s.retry.ids != []
  {
    if |s.retry.ids| == 1 then s.(retry := Resting) else s.(retry := Ticking(s.retry.ids[1..], Fetching))
  }

  function RetryNext(s: State, a: Answer): State
    requires RetryEnabled(s)
  {
    var w := s.world;
    match s.retry.stage
    case Fetching =>
      var id := s.retry.ids[0];
      if !a.db.Commits? || id >= |w.rows| then NextRow(s)
      else if !w.rows[id].status.QUEUED? || w.rows[id].attempts <= 0 then NextRow(s)
      else if !a.rebuilds then s.(retry := s.retry.(stage := Discarding(id)))
      else s.(retry := s.retry.(stage := Firing(id, Publishing)))
    case Discarding(id) =>
      NextRow(s.(world := w.(rows := Stored(w.rows, id, AttemptSpent(w.rows[id], a.now), a.db))))
    case Firing(id, at) =>
      var (w', progress) := FanoutStep(w, id, at, a);
      if progress.Continue? then s.(world := w', retry := s.retry.(stage := Firing(id, progress.at)))
      else NextRow(s.(world := w'))
  }

  predicate Enabled(p: Params, s: State, e: Event) {
    match e
    case Store(m, _, _) => m !in s.stream
    case Deliver(m, redelivered) =>
      // The delivery count of a message is above one from its second delivery on; a message
      // without metadata always reads as a first delivery.
      && s.worker.Idle?
      && m in s.stream
      && (s.stream[m].keyed && s.stream[m].handled ==> redelivered)
      && (!s.stream[m].keyed ==> !redelivered)
    case WorkerStep(_) => WorkerEnabled(s)
    case Tick(_) => s.retry.Resting?
    case RetryStep(_) => RetryEnabled(s)
    case Crash => true
  }

  function Apply(p: Params, s: State, e: Event): State
    requires Enabled(p, s, e)
  {
    match e
    case Store(m, payload, keyed) => s.(stream := s.stream[m := Slot(payload, keyed, false, Open)])
    case Deliver(m, redelivered) =>
      var s' := s.(stream := s.stream[m := s.stream[m].(handled := true)]);
      s'.(worker := Handling(m, redelivered, p.inlineRetries,
                             if s.stream[m].payload.None? then Terming else LookingUp))
    case WorkerStep(a) => WorkerNext(p, s, a)
    case Tick(a) =>
      var ids := if a.db.Commits? then RetryableFrom(s.world.rows, 0, a.now, p.interval) else [];
      if ids == [] then s else s.(retry := Ticking(ids, Fetching))
    case RetryStep(a) => RetryNext(s, a)
    case Crash => s.(worker := Idle, retry := Resting)
  }

  function Initial(): State {
    State(World([], [], {}), map[], {}, Idle, Resting)
  }

  ghost predicate IsRun(p: Params, s: State, events: seq<Event>, s': State)
    decreases |events|
  {
    if events == [] then s == s'
    else Enabled(p, s, events[0]) && IsRun(p, Apply(p, s, events[0]), events[1..], s')
  }

  ghost predicate Reachable(p: Params, s: State) {
    exists events :: IsRun(p, Initial(), events, s)
  }

  // ── The invariant ──────────────────────────────────────────────────

  /** Row `id` is in the hands of somebody who finishes with it, or is finished with. */
  predicate Cared(w: World, id: SignalId)
    requires id < |w.rows|
  {
    || id in w.confirmed
    || w.rows[id].status.FAILED?
    || (w.rows[id].status.QUEUED? && w.rows[id].lastAttempt.Some? && w.rows[id].attempts > 0)
  }

  ghost predicate Accounted(s: State, m: MessageId) {
    || m in s.dropped
    || exists id :: 0 <= id < |s.world.rows| && s.world.rows[id].deliveryKey == Some(m) && Cared(s.world, id)
  }

  ghost predicate KeysUnique(rows: SignalTable) {
    forall i, j | 0 <= i < |rows| && 0 <= j < |rows| && rows[i].deliveryKey.Some? && rows[i].deliveryKey == rows[j].deliveryKey :: i == j
  }

  /** A publish under this signal id is in the history. */
  ghost predicate WasSent(w: World, id: SignalId) {
    exists i :: 0 <= i < |w.sent| && w.sent[i].id == id
  }

  ghost predicate RowsSound(w: World) {
    && (forall id | 0 <= id < |w.rows| :: w.rows[id].status.QUEUED? && w.rows[id].lastAttempt.Some? ==> w.rows[id].attempts > 0)
    && (forall id | 0 <= id < |w.rows| :: w.rows[id].status.PUBLISHED? ==> id in w.confirmed)
    && (forall id <- w.confirmed :: id < |w.rows| && WasSent(w, id))
    && (forall i | 0 <= i < |w.sent| :: w.sent[i].id < |w.rows| && w.sent[i].deliveryKey == w.rows[w.sent[i].id].deliveryKey)
    && KeysUnique(w.rows)
  }

  ghost predicate StreamSound(s: State) {
    && (forall id | 0 <= id < |s.world.rows| && s.world.rows[id].deliveryKey.Some? ::
          var m := s.world.rows[id].deliveryKey.value;
          && m in s.stream && s.stream[m].keyed && s.stream[m].handled
          && s.stream[m].payload == Some(s.world.rows[id].payload))
    && (forall m | m in s.stream && s.stream[m].settled.Termed? :: s.stream[m].payload.None?)
  }

  ghost predicate AcksAccounted(s: State) {
    forall m | m in s.stream && s.stream[m].keyed && s.stream[m].settled.Acked? :: Accounted(s, m)
  }

  /** The row a first fan-out works on: still unconfirmed, and carrying the message's key. */
  ghost predicate OwnedByWorker(s: State, m: MessageId, id: SignalId) {
    && m in s.stream
    && id < |s.world.rows|
    && s.world.rows[id].deliveryKey == KeyOf(s, m)
    && FirstFanoutUnconfirmed(s.world.rows[id])
  }

  ghost predicate WorkerSound(s: State) {
    s.worker.Handling? ==>
      var m := s.worker.m;
      && m in s.stream
      && s.stream[m].handled
      && (s.worker.stage.Terming? <==> s.stream[m].payload.None?)
      && (s.stream[m].keyed && !s.worker.redelivered && s.worker.stage.LookingUp? ==> KeyFree(s.world.rows, Some(m)))
      && match s.worker.stage
         case AtGate(existing) =>
           if existing.None? then KeyFree(s.world.rows, KeyOf(s, m))
           else
             && existing.value.id < |s.world.rows|
             && s.stream[m].keyed
             && s.world.rows[existing.value.id].deliveryKey == Some(m)
             && (FirstFanoutUnconfirmed(existing.value.row) <==> FirstFanoutUnconfirmed(s.world.rows[existing.value.id]))
         case ClosingBlocked(id) => OwnedByWorker(s, m, id)
         case Persisting => KeyFree(s.world.rows, KeyOf(s, m))
         case FanningOut(id, at) =>
           OwnedByWorker(s, m, id) && (at.MarkingPublished? ==> id in s.world.confirmed)
         case Acking => s.stream[m].keyed ==> Accounted(s, m)
         case _ => true
  }

  ghost predicate Stamped(rows: SignalTable, id: SignalId) {
    id < |rows| && rows[id].lastAttempt.Some?
  }

  ghost predicate RetrySound(s: State) {
    s.retry.Ticking? ==>
      && s.retry.ids != []
      && (forall id <- s.retry.ids :: Stamped(s.world.rows, id))
      && match s.retry.stage
         case Fetching => true
         case Discarding(id) => Stamped(s.world.rows, id) && s.world.rows[id].status.QUEUED?
         case Firing(id, at) =>
           && Stamped(s.world.rows, id)
           && s.world.rows[id].status.QUEUED?
           && (at.MarkingPublished? ==> id in s.world.confirmed)
  }

  ghost predicate Inv(s: State) {
    RowsSound(s.world) && StreamSound(s) && AcksAccounted(s) && WorkerSound(s) && RetrySound(s)
  }

  // ── How a step may change the table ────────────────────────────────

  /** Every change any step makes to a row: the key and payload stay, the stamp is never cleared,
      PUBLISHED and FAILED are never left, a stamped row never becomes unstamped. */
  predicate RowEvolves(before: Signal, after: Signal) {
    && after.deliveryKey == before.deliveryKey
    && after.payload == before.payload
    && (before.lastAttempt.Some? ==> after.lastAttempt.Some?)
    && (!before.status.QUEUED? ==> after.status == before.status)
    && (after.attempts <= before.attempts || after.status.FAILED?)
  }

  ghost predicate WorldEvolves(w: World, w': World) {
    && |w.rows| <= |w'.rows|
    && w.confirmed <= w'.confirmed
    && w.sent <= w'.sent
    && (forall id | 0 <= id < |w.rows| :: RowEvolves(w.rows[id], w'.rows[id]))
  }

  /** `w'` differs from `w` in row `id` at most. */
  ghost predicate OnlyRow(w: World, w': World, id: SignalId) {
    && |w.rows| == |w'.rows|
    && forall j | 0 <= j < |w.rows| && j != id :: w'.rows[j] == w.rows[j]
  }

  lemma RowReplaced(w: World, id: SignalId, row: Signal)
    requires RowsSound(w) && id < |w.rows|
    requires RowEvolves(w.rows[id], row)
    requires row.status.QUEUED? && row.lastAttempt.Some? ==> row.attempts > 0
    requires row.status.PUBLISHED? ==> id in w.confirmed
    ensures
      var w' := w.(rows := w.rows[id := row]);
      RowsSound(w') && WorldEvolves(w, w') && OnlyRow(w, w', id)
  {
    var rows := w.rows[id := row];
    assert forall j | 0 <= j < |rows| :: rows[j].deliveryKey == w.rows[j].deliveryKey;
    assert KeysUnique(rows);
  }

  /** A publish that got through joins the history; one that was answered is confirmed as well. */
  lemma SentKeeps(w: World, id: SignalId, confirms: bool)
    requires RowsSound(w) && id < |w.rows|
    ensures
      var w' := World(w.rows, w.sent + [Sent(w.rows[id].deliveryKey, id)], if confirms then w.confirmed + {id} else w.confirmed);
      RowsSound(w') && WorldEvolves(w, w')
  {
    var sent := w.sent + [Sent(w.rows[id].deliveryKey, id)];
    var w' := World(w.rows, sent, if confirms then w.confirmed + {id} else w.confirmed);
    forall c <- w'.confirmed ensures c < |w'.rows| && WasSent(w', c) {
      if c in w.confirmed {
        var i :| 0 <= i < |w.sent| && w.sent[i].id == c;
        assert sent[i].id == c;
      } else {
        assert sent[|w.sent|].id == id;
      }
    }
  }

  lemma PublishingSound(w: World, id: SignalId, a: Answer)
    requires RowsSound(w) && id < |w.rows|
    ensures
      var (w', progress) := FanoutStep(w, id, Publishing, a);
      && RowsSound(w') && WorldEvolves(w, w') && w'.rows == w.rows
      && progress.Continue? && (progress.at.MarkingPublished? ==> id in w'.confirmed)
  {
    SentKeeps(w, id, a.db.Commits?);
  }

  lemma FanoutStepSound(w: World, id: SignalId, at: Fanout, a: Answer)
    requires RowsSound(w) && id < |w.rows| && w.rows[id].status.QUEUED?
    requires at.MarkingPublished? ==> id in w.confirmed
    ensures
      var (w', progress) := FanoutStep(w, id, at, a);
      && RowsSound(w') && WorldEvolves(w, w') && OnlyRow(w, w', id)
      && (progress.Continue? ==> w'.rows == w.rows && (progress.at.MarkingPublished? ==> id in w'.confirmed))
      && (progress.Returned? ==> Cared(w', id))
  {
    var row := w.rows[id];
    match at
    case Publishing => PublishingSound(w, id, a);
    case MarkingInvalid => RowReplaced(w, id, MarkedFailed(row, a.now));
    case RecordingFailure => RowReplaced(w, id, AttemptSpent(row, a.now));
    case MarkingPublished => RowReplaced(w, id, MarkedPublished(row));
  }

  /** What each await of a fan-out does, on the columns: a sound payload is published under its row's
      key and id unless the network takes nothing; a write that gets through leaves the row FAILED,
      with one attempt spent, or PUBLISHED; one that does not leaves the table alone. */
  lemma FanoutStepDoes(w: World, id: SignalId, at: Fanout, a: Answer)
    requires id < |w.rows|
    ensures
      var (w', progress) := FanoutStep(w, id, at, a);
      var row := w.rows[id];
      && w'.sent == w.sent + (if at.Publishing? && row.payload.Sound? && !a.db.Aborts? then [Sent(row.deliveryKey, id)] else [])
      && w'.confirmed == w.confirmed + (if at.Publishing? && row.payload.Sound? && a.db.Commits? then {id} else {})
      && |w'.rows| == |w.rows|
      && (at.Publishing? || a.db.Aborts? ==> w'.rows == w.rows)
      && (!a.db.Aborts? ==>
            var row' := w'.rows[id];
            && (at.MarkingPublished? ==> row'.status.PUBLISHED? && row' == row.(status := row'.status))
            && (at.MarkingInvalid? ==> row'.status.FAILED? && row'.attempts == 0 && row'.lastAttempt == Some(a.now))
            && (at.RecordingFailure? ==> SpentOne(row, row', a.now)))
      && (at.Publishing? ==> progress == Continue(if row.payload.Unparseable? then MarkingInvalid else if a.db.Commits? then MarkingPublished else RecordingFailure))
      && (!at.Publishing? ==> progress == if a.db.Commits? || at.MarkingPublished? then Returned else Raised)
  {
    var (w', _) := FanoutStep(w, id, at, a);
    assert w.sent + [] == w.sent && w.confirmed + {} == w.confirmed;
  }

  lemma AccountedStable(s: State, s': State, m: MessageId)
    requires Accounted(s, m) && RowsSound(s'.world)
    requires WorldEvolves(s.world, s'.world) && s.dropped <= s'.dropped
    ensures Accounted(s', m)
  {
    if m !in s.dropped {
      var id :| 0 <= id < |s.world.rows| && s.world.rows[id].deliveryKey == Some(m) && Cared(s.world, id);
      assert RowEvolves(s.world.rows[id], s'.world.rows[id]);
    }
  }

  lemma AcksStable(s: State, s': State)
    requires AcksAccounted(s) && RowsSound(s'.world)
    requires WorldEvolves(s.world, s'.world) && s.dropped <= s'.dropped
    requires forall m | m in s'.stream && s'.stream[m].settled.Acked? && s'.stream[m].keyed ::
      (m in s.stream && s.stream[m].settled.Acked? && s.stream[m].keyed) || Accounted(s', m)
    ensures AcksAccounted(s')
  {
    forall m | m in s'.stream && s'.stream[m].keyed && s'.stream[m].settled.Acked? ensures Accounted(s', m) {
      if !(m in s.stream && s.stream[m].settled.Acked? && s.stream[m].keyed) {
      } else {
        AccountedStable(s, s', m);
      }
    }
  }

  /** A worker step that leaves table, stream and retry job alone keeps everything but its own part. */
  lemma WorkerMoves(s: State, s': State)
    requires Inv(s) && WorkerSound(s')
    requires s'.world == s.world && s'.stream == s.stream && s'.retry == s.retry && s.dropped <= s'.dropped
    ensures Inv(s') && WorldEvolves(s.world, s'.world)
  {
    AcksStable(s, s');
  }

  /** A change of one row that the retry job does not hold leaves its part of the invariant intact. */
  lemma RetryStable(s: State, s': State, id: SignalId)
    requires RetrySound(s) && s'.retry == s.retry
    requires WorldEvolves(s.world, s'.world)
    requires forall j | 0 <= j < |s.world.rows| && j != id :: s'.world.rows[j] == s.world.rows[j]
    requires id < |s.world.rows| ==> s.world.rows[id].lastAttempt.None?
    ensures RetrySound(s')
  {
    if s.retry.Ticking? {
      forall j <- s.retry.ids ensures Stamped(s'.world.rows, j) {
        assert Stamped(s.world.rows, j);
      }
    }
  }

  lemma StreamStable(s: State, s': State)
    requires StreamSound(s) && |s'.world.rows| == |s.world.rows| && WorldEvolves(s.world, s'.world)
    requires s'.stream == s.stream
    ensures StreamSound(s')
  {
    forall id | 0 <= id < |s'.world.rows| ensures s'.world.rows[id].deliveryKey == s.world.rows[id].deliveryKey {
      assert RowEvolves(s.world.rows[id], s'.world.rows[id]);
    }
  }

  lemma GateKeeps(p: Params, s: State, a: Answer)
    requires Inv(s) && WorkerEnabled(s)
    requires s.worker.stage.LookingUp? || s.worker.stage.AtGate? || s.worker.stage.Escaped?
    ensures Inv(WorkerNext(p, s, a)) && WorldEvolves(s.world, WorkerNext(p, s, a).world)
  {
    var s' := WorkerNext(p, s, a);
    var m := s.worker.m;
    if s.worker.stage.AtGate? && s.worker.stage.existing.Some? {
      var id := s.worker.stage.existing.value.id;
      assert FirstFanoutUnconfirmed(s.world.rows[id]) || Cared(s.world, id);
    }
    assert WorkerSound(s');
    WorkerMoves(s, s');
  }

  lemma ClosingKeeps(p: Params, s: State, a: Answer)
    requires Inv(s) && WorkerEnabled(s) && s.worker.stage.ClosingBlocked?
    ensures Inv(WorkerNext(p, s, a)) && WorldEvolves(s.world, WorkerNext(p, s, a).world)
  {
    var s' := WorkerNext(p, s, a);
    var id := s.worker.stage.id;
    FanoutStepSound(s.world, id, MarkingInvalid, a);
    AcksStable(s, s');
    StreamStable(s, s');
    RetryStable(s, s', id);
  }

  lemma PersistKeeps(p: Params, s: State, a: Answer)
    requires Inv(s) && WorkerEnabled(s) && s.worker.stage.Persisting?
    ensures Inv(WorkerNext(p, s, a)) && WorldEvolves(s.world, WorkerNext(p, s, a).world)
  {
    var s' := WorkerNext(p, s, a);
    assert s'.world.rows[..|s.world.rows|] == s.world.rows;
    assert KeysUnique(s'.world.rows);
    AcksStable(s, s');
    RetryStable(s, s', |s.world.rows|);
  }

  lemma FanningKeeps(p: Params, s: State, a: Answer)
    requires Inv(s) && WorkerEnabled(s) && s.worker.stage.FanningOut?
    ensures Inv(WorkerNext(p, s, a)) && WorldEvolves(s.world, WorkerNext(p, s, a).world)
  {
    var s' := WorkerNext(p, s, a);
    var id := s.worker.stage.id;
    FanoutStepSound(s.world, id, s.worker.stage.at, a);
    assert RowEvolves(s.world.rows[id], s'.world.rows[id]);
    AcksStable(s, s');
    StreamStable(s, s');
    RetryStable(s, s', id);
    assert WorkerSound(s');
  }

  lemma SettlingKeeps(p: Params, s: State, a: Answer)
    requires Inv(s) && WorkerEnabled(s) && (s.worker.stage.Acking? || s.worker.stage.Terming?)
    ensures Inv(WorkerNext(p, s, a)) && WorldEvolves(s.world, WorkerNext(p, s, a).world)
  {
    var s' := WorkerNext(p, s, a);
    var m := s.worker.m;
    if s.worker.stage.Acking? && s.stream[m].keyed {
      AccountedStable(s, s', m);
    }
    AcksStable(s, s');
  }

  lemma WorkerKeeps(p: Params, s: State, a: Answer)
    requires Inv(s) && WorkerEnabled(s)
    ensures Inv(WorkerNext(p, s, a)) && WorldEvolves(s.world, WorkerNext(p, s, a).world)
  {
    match s.worker.stage
    case ClosingBlocked(_) => ClosingKeeps(p, s, a);
    case Persisting => PersistKeeps(p, s, a);
    case FanningOut(_, _) => FanningKeeps(p, s, a);
    case Acking => SettlingKeeps(p, s, a);
    case Terming => SettlingKeeps(p, s, a);
    case _ => GateKeeps(p, s, a);
  }

  /** The retry job works on stamped rows only, so the worker's row is never the one it changes. */
  lemma WorkerStable(s: State, s': State, id: SignalId)
    requires WorkerSound(s) && RowsSound(s'.world)
    requires s'.worker == s.worker && s'.stream == s.stream && s'.dropped == s.dropped
    requires WorldEvolves(s.world, s'.world) && OnlyRow(s.world, s'.world, id)
    requires Stamped(s.world.rows, id)
    ensures WorkerSound(s')
  {
    if s.worker.Handling? {
      var m := s.worker.m;
      forall j | 0 <= j < |s.world.rows|
        ensures s'.world.rows[j].deliveryKey == s.world.rows[j].deliveryKey
        ensures FirstFanoutUnconfirmed(s'.world.rows[j]) <==> FirstFanoutUnconfirmed(s.world.rows[j])
      {
        assert RowEvolves(s.world.rows[j], s'.world.rows[j]);
      }
      if s.worker.stage.Acking? && s.stream[m].keyed {
        AccountedStable(s, s', m);
      }
    }
  }

  lemma StampsStable(s: State, s': State)
    requires WorldEvolves(s.world, s'.world)
    requires s.retry.Ticking? && forall id <- s.retry.ids :: Stamped(s.world.rows, id)
    ensures forall id <- s.retry.ids :: Stamped(s'.world.rows, id)
  {
    forall id <- s.retry.ids ensures Stamped(s'.world.rows, id) {
      assert Stamped(s.world.rows, id);
      assert RowEvolves(s.world.rows[id], s'.world.rows[id]);
    }
  }

  /** The retry job changed row `id` and either goes on with it or moves to its next row. */
  lemma RetryMoves(s: State, w: World, s': State, id: SignalId)
    requires Inv(s) && s.retry.Ticking? && Stamped(s.world.rows, id)
    requires RowsSound(w) && WorldEvolves(s.world, w) && OnlyRow(s.world, w, id)
    requires s' == NextRow(s.(world := w)) ||
             (exists stage :: s' == s.(world := w, retry := s.retry.(stage := stage)) && RetrySound(s'))
    ensures Inv(s')
  {
    var mid := s.(world := w);
    AcksStable(s, mid);
    StreamStable(s, mid);
    WorkerStable(s, mid, id);
    StampsStable(s, mid);
  }

  lemma FiringKeeps(p: Params, s: State, a: Answer)
    requires Inv(s) && RetryEnabled(s) && s.retry.stage.Firing?
    ensures Inv(RetryNext(s, a)) && WorldEvolves(s.world, RetryNext(s, a).world)
  {
    var s', id, at := RetryNext(s, a), s.retry.stage.id, s.retry.stage.at;
    assert Stamped(s.world.rows, s.retry.ids[0]);
    FanoutStepSound(s.world, id, at, a);
    var (w', progress) := FanoutStep(s.world, id, at, a);
    if progress.Continue? {
      StampsStable(s, s');
      assert s' == s.(world := w', retry := s.retry.(stage := Firing(id, progress.at)));
      assert RetrySound(s');
    }
    RetryMoves(s, w', s', id);
  }

  lemma RetryKeeps(p: Params, s: State, a: Answer)
    requires Inv(s) && RetryEnabled(s)
    ensures Inv(RetryNext(s, a)) && WorldEvolves(s.world, RetryNext(s, a).world)
  {
    var s' := RetryNext(s, a);
    assert Stamped(s.world.rows, s.retry.ids[0]);
    match s.retry.stage
    case Fetching =>
      RetryMoves(s, s.world, s', s.retry.ids[0]);
    case Discarding(id) =>
      FanoutStepSound(s.world, id, RecordingFailure, a);
      RetryMoves(s, s'.world, s', id);
    case Firing(_, _) =>
      FiringKeeps(p, s, a);
  }

  lemma ApplyKeeps(p: Params, s: State, e: Event)
    requires Inv(s) && Enabled(p, s, e)
    ensures Inv(Apply(p, s, e)) && WorldEvolves(s.world, Apply(p, s, e).world)
  {
    var s' := Apply(p, s, e);
    match e
    case WorkerStep(a) => WorkerKeeps(p, s, a);
    case RetryStep(a) => RetryKeeps(p, s, a);
    case _ => AcksStable(s, s');
  }

  lemma EvolvesTransitive(w: World, w': World, w'': World)
    requires WorldEvolves(w, w') && WorldEvolves(w', w'')
    ensures WorldEvolves(w, w'')
  {
    forall id | 0 <= id < |w.rows| ensures RowEvolves(w.rows[id], w''.rows[id]) {
      assert RowEvolves(w.rows[id], w'.rows[id]) && RowEvolves(w'.rows[id], w''.rows[id]);
    }
  }

  lemma {:induction false} RunKeeps(p: Params, s: State, events: seq<Event>, s': State)
    requires Inv(s) && IsRun(p, s, events, s')
    ensures Inv(s') && WorldEvolves(s.world, s'.world)
    decreases |events|
  {
    if events != [] {
      var next := Apply(p, s, events[0]);
      ApplyKeeps(p, s, events[0]);
      RunKeeps(p, next, events[1..], s');
      EvolvesTransitive(s.world, next.world, s'.world);
    }
  }

  // ── The guarantees ─────────────────────────────────────────────────

  lemma ReachableSound(p: Params, s: State)
    requires Reachable(p, s)
    ensures Inv(s)
  {
    var events :| IsRun(p, Initial(), events, s);
    RunKeeps(p, Initial(), events, s);
  }

  /** Conservation: whatever crashed or failed on the way, an acked message was dropped by the
      block gate, or its row was published at least once, is FAILED, or is owned by the retry job;
      and a publish that returned without an error is in the history under that row's id.
      A row nobody has confirmed or stamped still has its message in the stream, unless the gate
      had already dropped that message. */
  lemma NothingIsLost(p: Params, s: State)
    requires Reachable(p, s)
    ensures forall m | m in s.stream && s.stream[m].keyed && s.stream[m].settled.Acked? :: Accounted(s, m)
    ensures forall id <- s.world.confirmed :: WasSent(s.world, id)
    ensures forall m | m in s.stream && s.stream[m].settled.Termed? :: s.stream[m].payload.None?
    ensures forall id | 0 <= id < |s.world.rows| && FirstFanoutUnconfirmed(s.world.rows[id])
                        && id !in s.world.confirmed && s.world.rows[id].deliveryKey.Some? ::
              var m := s.world.rows[id].deliveryKey.value;
              m in s.stream && (s.stream[m].settled.Open? || m in s.dropped)
  {
    ReachableSound(p, s);
    forall id | 0 <= id < |s.world.rows| && FirstFanoutUnconfirmed(s.world.rows[id])
                && id !in s.world.confirmed && s.world.rows[id].deliveryKey.Some?
      ensures
        var m := s.world.rows[id].deliveryKey.value;
        m in s.stream && (s.stream[m].settled.Open? || m in s.dropped)
    {
      var m := s.world.rows[id].deliveryKey.value;
      if s.stream[m].settled.Acked? {
        assert Accounted(s, m);
      }
    }
  }

  /** A message is dropped at one step only: the gate was read, it is closed, and no row was found. */
  lemma DroppedOnlyAtAClosedGate(p: Params, s: State, e: Event, m: MessageId)
    requires Enabled(p, s, e)
    ensures m in Apply(p, s, e).dropped <==>
              || m in s.dropped
              || (e.WorkerStep? && s.worker.stage == AtGate(None) && s.worker.m == m && e.answer.db.Commits? && e.answer.blocked)
  {
  }

  /** The gate, if this step reads it, is open. */
  predicate GateOpen(e: Event) {
    e.WorkerStep? ==> !e.answer.blocked
  }

  lemma {:induction false} OpenGateDropsNothing(p: Params, s: State, events: seq<Event>, s': State)
    requires IsRun(p, s, events, s') && forall e <- events :: GateOpen(e)
    ensures s'.dropped == s.dropped
    decreases |events|
  {
    if events != [] {
      assert GateOpen(events[0]);
      OpenGateDropsNothing(p, Apply(p, s, events[0]), events[1..], s');
    }
  }

  /** Nothing is dropped while the gate stays open: every acked message has a row that was published,
      is FAILED or is owned by the retry job, and every unconfirmed row has its open message. */
  lemma NothingIsLostBehindAnOpenGate(p: Params, events: seq<Event>, s: State)
    requires IsRun(p, Initial(), events, s) && forall e <- events :: GateOpen(e)
    ensures s.dropped == {}
    ensures forall m | m in s.stream && s.stream[m].keyed && s.stream[m].settled.Acked? ::
              exists id :: 0 <= id < |s.world.rows| && s.world.rows[id].deliveryKey == Some(m) && Cared(s.world, id)
    ensures forall id | 0 <= id < |s.world.rows| && FirstFanoutUnconfirmed(s.world.rows[id])
                        && id !in s.world.confirmed && s.world.rows[id].deliveryKey.Some? ::
              s.world.rows[id].deliveryKey.value in s.stream && s.stream[s.world.rows[id].deliveryKey.value].settled.Open?
  {
    OpenGateDropsNothing(p, Initial(), events, s);
    NothingIsLost(p, s);
  }

  /** Once a row is PUBLISHED or FAILED, no step of any run publishes it again. */
  lemma ClosedRowsAreNotPublished(p: Params, s: State, events: seq<Event>, s': State, id: SignalId)
    requires Reachable(p, s) && IsRun(p, s, events, s')
    requires id < |s.world.rows| && !s.world.rows[id].status.QUEUED?
    ensures |s.world.sent| <= |s'.world.sent| && forall i | |s.world.sent| <= i < |s'.world.sent| :: s'.world.sent[i].id != id
  {
    ReachableSound(p, s);
    NotSentAgain(p, s, events, s', id);
  }

  /** The later history has more publishes, none of them of this row. */
  ghost predicate MoreWithout(sent: seq<Sent>, sent': seq<Sent>, id: SignalId) {
    sent <= sent' && forall i | |sent| <= i < |sent'| :: sent'[i].id != id
  }

  lemma NotSentByWorker(p: Params, s: State, a: Answer, id: SignalId)
    requires Inv(s) && WorkerEnabled(s) && id < |s.world.rows| && !s.world.rows[id].status.QUEUED?
    ensures MoreWithout(s.world.sent, WorkerNext(p, s, a).world.sent, id)
  {
    if s.worker.stage.FanningOut? {
      FanoutStepDoes(s.world, s.worker.stage.id, s.worker.stage.at, a);
    }
  }

  lemma NotSentByRetry(s: State, a: Answer, id: SignalId)
    requires Inv(s) && RetryEnabled(s) && id < |s.world.rows| && !s.world.rows[id].status.QUEUED?
    ensures MoreWithout(s.world.sent, RetryNext(s, a).world.sent, id)
  {
    if s.retry.stage.Firing? {
      FanoutStepDoes(s.world, s.retry.stage.id, s.retry.stage.at, a);
    }
  }

  lemma ClosedNotSent(p: Params, s: State, e: Event, id: SignalId)
    requires Inv(s) && Enabled(p, s, e) && id < |s.world.rows| && !s.world.rows[id].status.QUEUED?
    ensures
      var s' := Apply(p, s, e);
      && Inv(s') && MoreWithout(s.world.sent, s'.world.sent, id)
      && id < |s'.world.rows| && !s'.world.rows[id].status.QUEUED?
  {
    ApplyKeeps(p, s, e);
    assert RowEvolves(s.world.rows[id], Apply(p, s, e).world.rows[id]);
    match e
    case WorkerStep(a) => NotSentByWorker(p, s, a, id);
    case RetryStep(a) => NotSentByRetry(s, a, id);
    case _ =>
  }

  lemma {:induction false} NotSentAgain(p: Params, s: State, events: seq<Event>, s': State, id: SignalId)
    requires Inv(s) && IsRun(p, s, events, s') && id < |s.world.rows| && !s.world.rows[id].status.QUEUED?
    ensures MoreWithout(s.world.sent, s'.world.sent, id)
    decreases |events|
  {
    if events != [] {
      ClosedNotSent(p, s, events[0], id);
      NotSentAgain(p, Apply(p, s, events[0]), events[1..], s', id);
    }
  }

  /** Every publish one stored message ever causes carries the same `signal_id`. */
  lemma OneSignalIdPerMessage(p: Params, s: State, i: nat, j: nat)
    requires Reachable(p, s)
    requires i < |s.world.sent| && j < |s.world.sent|
    requires s.world.sent[i].deliveryKey.Some? && s.world.sent[i].deliveryKey == s.world.sent[j].deliveryKey
    ensures s.world.sent[i].id == s.world.sent[j].id
  {
    ReachableSound(p, s);
  }

  /** The worker fans out unconfirmed rows, the retry job stamped ones: never both the same row. */
  lemma FanoutsNeverShareARow(p: Params, s: State, id: SignalId)
    requires Reachable(p, s)
    requires s.worker.Handling? && s.worker.stage.FanningOut? && s.worker.stage.id == id
    ensures id < |s.world.rows| && FirstFanoutUnconfirmed(s.world.rows[id])
    ensures s.retry.Ticking? ==> id !in s.retry.ids && s.retry.stage != Discarding(id)
    ensures s.retry.Ticking? && s.retry.stage.Firing? ==> s.retry.stage.id != id
  {
    ReachableSound(p, s);
    if s.retry.Ticking? {
      forall j <- s.retry.ids ensures j != id {
        assert Stamped(s.world.rows, j);
      }
    }
  }

  /** Whatever happens after `s`, no row disappears, changes its key or loses its stamp, and
      PUBLISHED and FAILED rows keep their status; a PUBLISHED row really was published. */
  lemma RowsOnlyMoveForward(p: Params, s: State, events: seq<Event>, s': State, id: SignalId)
    requires Reachable(p, s) && IsRun(p, s, events, s') && id < |s.world.rows|
    ensures id < |s'.world.rows| && RowEvolves(s.world.rows[id], s'.world.rows[id])
    ensures s'.world.rows[id].status.PUBLISHED? ==> id in s'.world.confirmed
  {
    ReachableSound(p, s);
    RunKeeps(p, s, events, s');
  }

  // ── Nothing gets stuck ─────────────────────────────────────────────

  /** The outside world at its best: everything commits, and the gate is open. */
  function Healthy(now: nat): Answer {
    Answer(Commits, now, false, true)
  }

  function StepsLeft(stage: Stage): nat {
    match stage
    case LookingUp => 6
    case AtGate(_) => 5
    case Persisting => 4
    case FanningOut(_, at) => if at.Publishing? then 3 else 2
    case Acking => 0
    case _ => 1
  }

  /** The message has a row that was published and is marked so. */
  ghost predicate Delivered(s: State, m: MessageId) {
    exists id :: 0 <= id < |s.world.rows| && s.world.rows[id].deliveryKey == Some(m)
                 && id in s.world.confirmed && s.world.rows[id].status.PUBLISHED?
  }

  ghost predicate Closed(s: State, m: MessageId) {
    exists id :: 0 <= id < |s.world.rows| && s.world.rows[id].deliveryKey == Some(m) && s.world.rows[id].status.FAILED?
  }

  /** Published, or given up because nobody can parse it. */
  ghost predicate Concluded(s: State, m: MessageId)
    requires m in s.stream
  {
    if s.stream[m].payload == Some(Sound) then Delivered(s, m) else Closed(s, m)
  }

  /** No fan-out for this message was ever confirmed, nor failed. */
  ghost predicate Unresolved(rows: SignalTable, m: MessageId) {
    forall row <- rows :: row.deliveryKey == Some(m) ==> row.status.QUEUED? && row.lastAttempt.None?
  }

  /** The delivery in hand comes to its end if the world lets it. */
  ghost predicate OnTheWay(s: State) {
    && s.worker.Handling? && s.worker.m in s.stream
    && s.stream[s.worker.m].payload.Some? && s.stream[s.worker.m].keyed
    && match s.worker.stage
       case LookingUp => Unresolved(s.world.rows, s.worker.m)
       case AtGate(existing) => existing.Some? ==> existing.value.row.status.QUEUED? && existing.value.row.lastAttempt.None?
       case Persisting => true
       case FanningOut(_, at) =>
         at.Publishing? || (if s.stream[s.worker.m].payload.value.Sound? then at.MarkingPublished? else at.MarkingInvalid?)
       case Acking => Concluded(s, s.worker.m)
       case _ => false
  }

  lemma StaysOnTheWay(p: Params, s: State)
    requires Inv(s) && WorkerEnabled(s) && OnTheWay(s) && !s.worker.stage.Acking?
    ensures OnTheWay(WorkerNext(p, s, Healthy(0)))
  {
    var s' := WorkerNext(p, s, Healthy(0));
    if s.worker.stage.FanningOut? {
      var id := s.worker.stage.id;
      FanoutStepDoes(s.world, id, s.worker.stage.at, Healthy(0));
      if !s.worker.stage.at.Publishing? {
        assert s'.world.rows[id].deliveryKey == Some(s.worker.m);
      }
    }
  }

  lemma CaredStays(w: World, w': World, id: SignalId)
    requires id < |w.rows| && Cared(w, id) && RowsSound(w') && WorldEvolves(w, w')
    ensures Cared(w', id)
  {
    assert RowEvolves(w.rows[id], w'.rows[id]);
  }

  /** A row that is no longer at its first fan-out is cared for. */
  lemma ResolvedIsCared(w: World, m: MessageId)
    requires RowsSound(w) && !Unresolved(w.rows, m)
    ensures exists id :: 0 <= id < |w.rows| && w.rows[id].deliveryKey == Some(m) && Cared(w, id)
  {
    var row :| row in w.rows && row.deliveryKey == Some(m) && !(row.status.QUEUED? && row.lastAttempt.None?);
    var id :| 0 <= id < |w.rows| && w.rows[id] == row;
    assert Cared(w, id);
  }

  /** With the world at its best a delivery only moves forward. */
  lemma WorkerAdvances(p: Params, s: State)
    requires Inv(s) && WorkerEnabled(s) && !s.worker.stage.Escaped? && !s.worker.stage.Acking? && !s.worker.stage.Terming?
    ensures
      var next := WorkerNext(p, s, Healthy(0));
      && next.worker == s.worker.(stage := next.worker.stage) && next.stream == s.stream
      && !next.worker.stage.Escaped? && !next.worker.stage.Terming? && StepsLeft(next.worker.stage) < StepsLeft(s.worker.stage)
  {
  }

  lemma WorkerFinishes(p: Params, s: State) returns (events: seq<Event>, s': State)
    requires Inv(s) && s.worker.Handling? && !s.worker.stage.Escaped?
    requires s.worker.m in s.stream && s.stream[s.worker.m].settled.Open? && s.stream[s.worker.m].payload.Some?
    ensures IsRun(p, s, events, s')
    ensures s.worker.m in s'.stream && s'.stream[s.worker.m] == s.stream[s.worker.m].(settled := Acked)
    ensures forall e <- events :: GateOpen(e)
    ensures OnTheWay(s) ==> Concluded(s', s.worker.m)
    decreases StepsLeft(s.worker.stage)
  {
    var e := WorkerStep(Healthy(0));
    var next := Apply(p, s, e);
    ApplyKeeps(p, s, e);
    if s.worker.stage.Acking? {
      events, s' := [e], next;
      assert IsRun(p, next, [], next);
    } else {
      WorkerAdvances(p, s);
      if OnTheWay(s) {
        StaysOnTheWay(p, s);
      }
      var rest;
      rest, s' := WorkerFinishes(p, next);
      events := [e] + rest;
    }
  }

  lemma UnreadableIsTermed(p: Params, s: State) returns (events: seq<Event>, s': State)
    requires Inv(s) && s.worker.Handling? && s.worker.stage.Terming? && s.worker.m in s.stream && s.stream[s.worker.m].settled.Open?
    ensures IsRun(p, s, events, s')
    ensures s.worker.m in s'.stream && s'.stream[s.worker.m] == s.stream[s.worker.m].(settled := Termed)
    ensures forall e <- events :: GateOpen(e)
  {
    events, s' := [WorkerStep(Healthy(0))], Apply(p, s, WorkerStep(Healthy(0)));
    assert IsRun(p, s', [], s') && events[1..] == [];
  }

  /** From every reachable state there is a way, with the gate open, to settle any message still in the
      stream: no sequence of crashes, lost replies and failed writes leaves one that cannot be
      handled. It is not dropped, its row is cared for, and one whose fan-out never came to an end is
      published, and marked so, or FAILED if its payload cannot be parsed. */
  lemma OpenMessageCanFinish(p: Params, s: State, m: MessageId) returns (events: seq<Event>, s': State)
    requires Reachable(p, s) && m in s.stream && s.stream[m].settled.Open?
    ensures IsRun(p, s, events, s') && m in s'.stream
    ensures s'.stream[m].settled == if s.stream[m].payload.Some? then Acked else Termed
    ensures (forall e <- events :: GateOpen(e)) && s'.dropped == s.dropped
    ensures s.stream[m].payload.Some? && s.stream[m].keyed ==>
              exists id :: 0 <= id < |s'.world.rows| && s'.world.rows[id].deliveryKey == Some(m) && Cared(s'.world, id)
    ensures s.stream[m].payload.Some? && s.stream[m].keyed && Unresolved(s.world.rows, m) ==> Concluded(s', m)
  {
    ReachableSound(p, s);
    var crashed, again := Apply(p, s, Crash), Deliver(m, s.stream[m].keyed);
    ApplyKeeps(p, s, Crash);
    var taken := Apply(p, crashed, again);
    ApplyKeeps(p, crashed, again);
    var rest;
    if s.stream[m].payload.Some? {
      rest, s' := WorkerFinishes(p, taken);
    } else {
      rest, s' := UnreadableIsTermed(p, taken);
    }
    events := [Crash, again] + rest;
    assert events[1..] == [again] + rest;
    assert IsRun(p, crashed, events[1..], s');
    assert IsRun(p, s, events, s');
    RunKeeps(p, s, events, s');
    OpenGateDropsNothing(p, s, events, s');
    if !Unresolved(s.world.rows, m) {
      ResolvedIsCared(s.world, m);
      var id :| 0 <= id < |s.world.rows| && s.world.rows[id].deliveryKey == Some(m) && Cared(s.world, id);
      CaredStays(s.world, s'.world, id);
      assert RowEvolves(s.world.rows[id], s'.world.rows[id]);
    }
  }

  lemma {:induction false} RetryReaches(p: Params, s: State, id: SignalId) returns (events: seq<Event>, s': State)
    requires Inv(s) && s.retry.Ticking? && s.retry.stage.Fetching? && id in s.retry.ids
    requires id < |s.world.rows| && s.world.rows[id].status.QUEUED? && s.world.rows[id].attempts > 0
    ensures IsRun(p, s, events, s') && id < |s'.world.rows|
    ensures if s.world.rows[id].payload.Sound? then id in s'.world.confirmed && s'.world.rows[id].status.PUBLISHED?
            else s'.world.rows[id].status.FAILED?
    decreases |s.retry.ids|
  {
    if s.retry.ids[0] == id {
      var e := RetryStep(Healthy(0));
      var s1 := Apply(p, s, e);
      var s2 := Apply(p, s1, e);
      s' := Apply(p, s2, e);
      FanoutStepDoes(s.world, id, Publishing, Healthy(0));
      events := [e, e, e];
      assert IsRun(p, s', [], s') && events[1..] == [e, e] && events[1..][1..] == [e] && [e][1..] == [];
      assert IsRun(p, s2, [e], s');
      assert IsRun(p, s1, [e, e], s');
    } else {
      var e := RetryStep(Healthy(0).(db := Aborts));
      var next := Apply(p, s, e);
      ApplyKeeps(p, s, e);
      var rest;
      rest, s' := RetryReaches(p, next, id);
      events := [e] + rest;
    }
  }

  /** Likewise a row the retry job owns can always still be published, and marked so, or given up as
      FAILED if its payload cannot be parsed. */
  lemma RetryableRowCanFinish(p: Params, s: State, id: SignalId) returns (events: seq<Event>, s': State)
    requires Reachable(p, s) && id < |s.world.rows|
    requires s.world.rows[id].status.QUEUED? && s.world.rows[id].lastAttempt.Some?
    ensures IsRun(p, s, events, s') && id < |s'.world.rows|
    ensures if s.world.rows[id].payload.Sound? then id in s'.world.confirmed && s'.world.rows[id].status.PUBLISHED?
            else s'.world.rows[id].status.FAILED?
  {
    ReachableSound(p, s);
    var crashed := Apply(p, s, Crash);
    ApplyKeeps(p, s, Crash);
    var tick := Tick(Healthy(s.world.rows[id].lastAttempt.value + p.interval + 1));
    var ticking := Apply(p, crashed, tick);
    ApplyKeeps(p, crashed, tick);
    assert Retryable(s.world.rows[id], tick.answer.now, p.interval);
    var rest;
    rest, s' := RetryReaches(p, ticking, id);
    events := [Crash, tick] + rest;
    assert events[1..] == [tick] + rest;
    assert IsRun(p, crashed, events[1..], s');
  }

  // ── What the delivery key is for ───────────────────────────────────

  lemma {:induction false} RunExtends(p: Params, s: State, events: seq<Event>, mid: State, more: seq<Event>, s': State)
    requires IsRun(p, s, events, mid) && IsRun(p, mid, more, s')
    ensures IsRun(p, s, events + more, s')
    decreases |events|
  {
    if events == [] {
      assert events + more == more;
    } else {
      RunExtends(p, Apply(p, s, events[0]), events[1..], mid, more, s');
      assert (events + more)[1..] == events[1..] + more;
    }
  }

  lemma OneStep(p: Params, s: State, events: seq<Event>, mid: State, e: Event) returns (longer: seq<Event>, s': State)
    requires IsRun(p, s, events, mid) && Enabled(p, mid, e)
    ensures IsRun(p, s, longer, s') && s' == Apply(p, mid, e)
  {
    longer, s' := events + [e], Apply(p, mid, e);
    assert IsRun(p, s', [], s') && [e][1..] == [];
    RunExtends(p, s, events, mid, [e], s');
  }

  /** A delivery of keyless message 0 that gets as far as the publish. */
  lemma KeylessPublish(p: Params, s: State, events: seq<Event>, mid: State) returns (longer: seq<Event>, s': State)
    requires IsRun(p, s, events, mid)
    requires mid.worker.Idle? && mid.stream.Keys == {0} && !mid.stream[0].keyed && mid.stream[0].payload == Some(Sound)
    ensures IsRun(p, s, longer, s')
    ensures s'.world.sent == mid.world.sent + [Sent(None, |mid.world.rows|)]
    ensures |s'.world.rows| == |mid.world.rows| + 1
    ensures s'.stream.Keys == {0} && !s'.stream[0].keyed && s'.stream[0].payload == Some(Sound)
  {
    var h := WorkerStep(Healthy(0));
    longer, s' := OneStep(p, s, events, mid, Deliver(0, false));
    longer, s' := OneStep(p, s, longer, s', h);
    longer, s' := OneStep(p, s, longer, s', h);
    longer, s' := OneStep(p, s, longer, s', h);
    assert s'.world.rows == mid.world.rows + [NewSignal(None, Sound, p.maxAttempts)];
    longer, s' := OneStep(p, s, longer, s', h);
  }

  /** Without a delivery key the guarantee is gone: one crash after the publish, and the same
      stored message is published under two signal ids. */
  lemma KeylessMessageGetsTwoIds(p: Params) returns (s: State)
    ensures Reachable(p, s)
    ensures s.stream.Keys == {0} && s.world.sent == [Sent(None, 0), Sent(None, 1)]
  {
    var events;
    events, s := OneStep(p, Initial(), [], Initial(), Store(0, Some(Sound), false));
    events, s := KeylessPublish(p, Initial(), events, s);
    events, s := OneStep(p, Initial(), events, s, Crash);
    events, s := KeylessPublish(p, Initial(), events, s);
  }
}

/** The tables behind one broadcast cycle and the transactions of
    `SqlAlchemyBroadcastMessageRepository`: the cycle, its workers, its chats, its write log.

    A cycle is found by its key and every write to it is serialised by its row lock, so the tables
    of one cycle are modelled on their own. A log entry's id is its position in the log. */
module BroadcastLog {
  import opened Wrappers
  import opened BroadcastStatus
  import TradeStatus

  type ChatId = string
  type WorkerId = string

  /** One signal of the cycle. `detail` stands for prices, levels, flags and the attempt number. */
  datatype Event = Event(action: Action, timestamp: nat, detail: nat)

  datatype WorkerRow = WorkerRow(status: TradeStatus.TradeStatus, action: Option<TradeStatus.PositionStatus>)

  datatype Change = SignalChange(event: Event) | ExecutionChange(worker: WorkerId, row: WorkerRow)

  datatype LogStatus = PENDING | SENDING | DELIVERED | FAILED

  datatype LogEntry = LogEntry(seqNo: nat, change: Change, status: LogStatus, attempts: nat)

  datatype Cycle = Cycle(events: seq<Event>, actions: string, latestAction: Action, status: Status, lastSeq: nat)

  datatype Audience = Private | Public

  /** What a chat shows: the cycle as rendered for its audience. Only the private body carries the
      worker table. */
  datatype Body = Body(audience: Audience, events: seq<Event>, status: Status, workers: map<WorkerId, WorkerRow>)

  datatype ChatRow = ChatRow(
    audience: Audience,
    messageId: Option<nat>,
    body: Option<Body>,
    deliveredSeq: nat,
    notified: Option<nat>)

  datatype Tables = Tables(
    cycle: Option<Cycle>,
    log: seq<LogEntry>,
    workers: map<WorkerId, WorkerRow>,
    chats: map<ChatId, ChatRow>)

  const NO_CYCLE := Tables(None, [], map[], map[])

  // ── The comma-separated action trail ───────────────────────────────

  function Name(action: Action): (name: string)
    ensures name != "" && ',' !in name
  {
    match action
    case LONG => "LONG"
    case SHORT => "SHORT"
    case TP1 => "TP1"
    case TP2 => "TP2"
    case R_SL => "R_SL"
    case SL => "SL"
    case FLAT => "FLAT"
  }

  /** The action a text names, if this revision knows it. */
  function ActionNamed(name: string): Option<Action> {
    if name == "LONG" then Some(LONG)
    else if name == "SHORT" then Some(SHORT)
    else if name == "TP1" then Some(Action.TP1)
    else if name == "TP2" then Some(Action.TP2)
    else if name == "R_SL" then Some(R_SL)
    else if name == "SL" then Some(SL)
    else if name == "FLAT" then Some(FLAT)
    else None
  }

  /** An action's name names it, and nothing else does. */
  lemma NamesNameActions(name: string, action: Action)
    ensures ActionNamed(name) == Some(action) <==> name == Name(action)
  {
  }

  function Names(actions: seq<Action>): (names: seq<string>)
    ensures |names| == |actions|
    ensures forall i | 0 <= i < |names| :: names[i] == Name(actions[i])
  {
    seq(|actions|, i requires 0 <= i < |actions| => Name(actions[i]))
  }

  function Join(parts: seq<string>): string {
    if parts == [] then ""
    else if |parts| == 1 then parts[0]
    else parts[0] + "," + Join(parts[1..])
  }

  function FirstComma(text: string): (i: nat)
    ensures i <= |text| && ',' !in text[..i]
    ensures i < |text| ==> text[i] == ','
  {
    if text == "" || text[0] == ',' then 0
    else
      var i := 1 + FirstComma(text[1..]);
      assert text[..i] == [text[0]] + text[1..][..i - 1];
      i
  }

  /** Text split on commas; never empty, as the empty text is one empty part. */
  function Split(text: string): (parts: seq<string>)
    ensures parts != []
    decreases |text|
  {
    var i := FirstComma(text);
    if i == |text| then [text] else [text[..i]] + Split(text[i + 1..])
  }

  function NonEmpty(parts: seq<string>): seq<string> {
    if parts == [] then []
    else
      var rest := NonEmpty(parts[..|parts| - 1]);
      if parts[|parts| - 1] == "" then rest else rest + [parts[|parts| - 1]]
  }

  function Extended(trail: string, action: Action): string {
    Join(NonEmpty(Split(trail)) + [Name(action)])
  }

  lemma {:induction false} FirstCommaIs(text: string, k: nat)
    requires k <= |text| && ',' !in text[..k]
    requires k < |text| ==> text[k] == ','
    ensures FirstComma(text) == k
    decreases |text|
  {
    if k > 0 {
      assert text[..k][0] == text[0];
      assert text[1..][..k - 1] == text[..k][1..];
      FirstCommaIs(text[1..], k - 1);
    }
  }

  lemma {:induction false} SplitJoin(parts: seq<string>)
    requires parts != [] && forall part <- parts :: ',' !in part
    ensures Split(Join(parts)) == parts
    decreases |parts|
  {
    var text := Join(parts);
    assert ',' !in parts[0];
    if |parts| == 1 {
      FirstCommaIs(text, |text|);
    } else {
      assert text[..|parts[0]|] == parts[0];
      FirstCommaIs(text, |parts[0]|);
      assert text[|parts[0]| + 1..] == Join(parts[1..]);
      SplitJoin(parts[1..]);
    }
  }

  lemma {:induction false} NonEmptyKeepsAll(parts: seq<string>)
    requires forall i | 0 <= i < |parts| :: parts[i] != ""
    ensures NonEmpty(parts) == parts
    decreases |parts|
  {
    if parts != [] {
      NonEmptyKeepsAll(parts[..|parts| - 1]);
    }
  }

  /** Splitting the trail on commas gives the actions back, and extending it appends one. */
  lemma TrailRoundTrip(actions: seq<Action>, next: Action)
    requires actions != []
    ensures Split(Join(Names(actions))) == Names(actions)
    ensures Extended(Join(Names(actions)), next) == Join(Names(actions + [next]))
  {
    NamesAreParts(actions, next);
    SplitJoin(Names(actions));
    NonEmptyKeepsAll(Names(actions));
  }

  /** No two histories have one trail. */
  lemma TrailTellsActions(xs: seq<Action>, ys: seq<Action>)
    requires xs != [] && ys != [] && Join(Names(xs)) == Join(Names(ys))
    ensures xs == ys
  {
    TrailRoundTrip(xs, LONG);
    TrailRoundTrip(ys, LONG);
    forall i | 0 <= i < |xs| ensures xs[i] == ys[i] {
      assert Names(xs)[i] == Names(ys)[i];
    }
  }

  lemma NamesAreParts(actions: seq<Action>, next: Action)
    ensures forall name <- Names(actions) :: name != "" && ',' !in name
    ensures Names(actions) + [Name(next)] == Names(actions + [next])
  {
  }

  // ── Writers ────────────────────────────────────────────────────────

  function ActionsOf(events: seq<Event>): (actions: seq<Action>)
    ensures |actions| == |events|
  {
    seq(|events|, i requires 0 <= i < |events| => events[i].action)
  }

  predicate SameSignal(a: Event, b: Event) {
    a.action == b.action && a.timestamp == b.timestamp
  }

  predicate IsDuplicateEvent(events: seq<Event>, event: Event) {
    events != [] && SameSignal(events[|events| - 1], event)
  }

  function NewEntry(seqNo: nat, change: Change): LogEntry {
    LogEntry(seqNo, change, PENDING, 0)
  }

  /** The cycle with one more event. */
  function CycleAfter(c: Cycle, event: Event): Cycle {
    Cycle(c.events + [event], Extended(c.actions, event.action), event.action,
          MergeStatus(c.status, StatusForAction(event.action)), c.lastSeq + 1)
  }

  function EventRecorded(t: Tables, event: Event): Tables {
    if t.cycle.None? then
      t.(cycle := Some(Cycle([event], Name(event.action), event.action, StatusForAction(event.action), 1)),
         log := [NewEntry(1, SignalChange(event))])
    else
      var c := t.cycle.value;
      if IsDuplicateEvent(c.events, event) then t
      else
        var c' := CycleAfter(c, event);
        t.(cycle := Some(c'), log := t.log + [NewEntry(c'.lastSeq, SignalChange(event))])
  }

  function ExecutionRecorded(t: Tables, worker: WorkerId, row: WorkerRow): Tables {
    if t.cycle.None? || (worker in t.workers && t.workers[worker] == row) then t
    else
      var c' := t.cycle.value.(lastSeq := t.cycle.value.lastSeq + 1);
      t.(cycle := Some(c'), workers := t.workers[worker := row],
         log := t.log + [NewEntry(c'.lastSeq, ExecutionChange(worker, row))])
  }

  // ── What the writers do, on the columns ────────────────────────────

  /** One more signal: the cycle begins with it, or takes it over and logs it under the next number,
      unless its latest event has the same action and time. Nothing else changes. */
  ghost predicate TookEvent(before: Tables, after: Tables, event: Event) {
    && after.workers == before.workers && after.chats == before.chats && after.cycle.Some?
    && var c := after.cycle.value;
       if before.cycle.None? then
         && c.events == [event] && c.lastSeq == 1 && c.latestAction == event.action
         && after.log == [LogEntry(1, SignalChange(event), PENDING, 0)]
       else
         var b := before.cycle.value;
         if b.events != [] && b.events[|b.events| - 1].action == event.action && b.events[|b.events| - 1].timestamp == event.timestamp
         then after == before
         else
           && c.events == b.events + [event] && c.lastSeq == b.lastSeq + 1 && c.latestAction == event.action
           && after.log == before.log + [LogEntry(c.lastSeq, SignalChange(event), PENDING, 0)]
  }

  /** One more report on a cycle: afterwards the worker's row is this one and no other row changed;
      the number goes up and the report is logged exactly if the worker had no row or another one. */
  ghost predicate TookReport(before: Tables, after: Tables, worker: WorkerId, row: WorkerRow) {
    && after.chats == before.chats
    && if before.cycle.None? then after == before
       else
         && worker in after.workers && after.workers[worker] == row
         && (forall w | w != worker :: (w in after.workers <==> w in before.workers) && (w in before.workers ==> after.workers[w] == before.workers[w]))
         && (if worker in before.workers && before.workers[worker] == row then after.cycle == before.cycle && after.log == before.log
             else
               && after.cycle == Some(before.cycle.value.(lastSeq := before.cycle.value.lastSeq + 1))
               && after.log == before.log + [LogEntry(before.cycle.value.lastSeq + 1, ExecutionChange(worker, row), PENDING, 0)])
  }

  lemma RecordingTakes(t: Tables, event: Event, worker: WorkerId, row: WorkerRow)
    ensures TookEvent(t, EventRecorded(t, event), event)
    ensures TookReport(t, ExecutionRecorded(t, worker, row), worker, row)
  {
  }

  // ── The log determines the cycle ───────────────────────────────────

  function Changes(log: seq<LogEntry>): (changes: seq<Change>)
    ensures |changes| == |log|
  {
    seq(|log|, i requires 0 <= i < |log| => log[i].change)
  }

  function EventsOf(changes: seq<Change>): seq<Event> {
    if changes == [] then []
    else
      var rest := EventsOf(changes[..|changes| - 1]);
      var last := changes[|changes| - 1];
      if last.SignalChange? then rest + [last.event] else rest
  }

  function WorkersOf(changes: seq<Change>): map<WorkerId, WorkerRow> {
    if changes == [] then map[]
    else
      var rest := WorkersOf(changes[..|changes| - 1]);
      var last := changes[|changes| - 1];
      if last.ExecutionChange? then rest[last.worker := last.row] else rest
  }

  ghost predicate NoAdjacentRepeat(events: seq<Event>) {
    forall i | 0 < i < |events| :: !SameSignal(events[i - 1], events[i])
  }

  ghost predicate CycleFollows(c: Cycle, changes: seq<Change>) {
    && c.lastSeq == |changes|
    && c.events == EventsOf(changes) && c.events != []
    && c.status == Folded(ActionsOf(c.events))
    && c.actions == Join(Names(ActionsOf(c.events)))
    && c.latestAction == c.events[|c.events| - 1].action
    && NoAdjacentRepeat(c.events)
  }

  /** Sequence numbers are 1..last_seq in order; events, trail, status and workers are what the
      log says they are. */
  ghost predicate LogSound(t: Tables) {
    && (forall i | 0 <= i < |t.log| :: t.log[i].seqNo == i + 1)
    && (t.cycle.None? ==> t.log == [] && t.workers == map[])
    && (t.cycle.Some? ==> CycleFollows(t.cycle.value, Changes(t.log)) && t.workers == WorkersOf(Changes(t.log)))
  }

  lemma ChangesSnoc(log: seq<LogEntry>, entry: LogEntry)
    ensures Changes(log + [entry]) == Changes(log) + [entry.change]
    ensures (Changes(log) + [entry.change])[..|log|] == Changes(log)
  {
  }

  lemma FirstEventFollows(event: Event)
    ensures CycleFollows(Cycle([event], Name(event.action), event.action, StatusForAction(event.action), 1), [SignalChange(event)])
    ensures WorkersOf([SignalChange(event)]) == map[]
  {
    var changes := [SignalChange(event)];
    assert changes[..0] == [];
    assert EventsOf(changes) == [event];
    assert ActionsOf([event]) == [event.action] && [event.action][..0] == [];
    assert Names([event.action]) == [Name(event.action)];
  }

  lemma FirstEventSound(t: Tables, event: Event)
    requires LogSound(t) && t.cycle.None?
    ensures LogSound(EventRecorded(t, event))
  {
    FirstEventFollows(event);
    assert Changes([NewEntry(1, SignalChange(event))]) == [SignalChange(event)];
  }

  lemma NextEventFollows(c: Cycle, changes: seq<Change>, event: Event)
    requires CycleFollows(c, changes) && !IsDuplicateEvent(c.events, event)
    ensures CycleFollows(CycleAfter(c, event), changes + [SignalChange(event)])
  {
    var events := c.events + [event];
    assert (changes + [SignalChange(event)])[..|changes|] == changes;
    assert ActionsOf(events) == ActionsOf(c.events) + [event.action];
    FoldedSnoc(ActionsOf(c.events), event.action);
    TrailRoundTrip(ActionsOf(c.events), event.action);
    forall i | 0 < i < |events| ensures !SameSignal(events[i - 1], events[i]) {
      if i < |c.events| {
        assert !SameSignal(c.events[i - 1], c.events[i]);
      }
    }
  }

  /** A log and a cycle that follow each other one entry further. */
  lemma OneMoreEntrySound(t: Tables, c': Cycle, entry: LogEntry)
    requires LogSound(t) && t.cycle.Some? && entry.seqNo == |t.log| + 1 && entry.change.SignalChange?
    requires CycleFollows(c', Changes(t.log) + [entry.change])
    ensures LogSound(t.(cycle := Some(c'), log := t.log + [entry]))
  {
    ChangesSnoc(t.log, entry);
    assert WorkersOf(Changes(t.log) + [entry.change]) == WorkersOf(Changes(t.log));
  }

  lemma AppendedSound(t: Tables, event: Event)
    requires LogSound(t) && t.cycle.Some? && !IsDuplicateEvent(t.cycle.value.events, event)
    ensures LogSound(EventRecorded(t, event))
  {
    var c := t.cycle.value;
    NextEventFollows(c, Changes(t.log), event);
    OneMoreEntrySound(t, CycleAfter(c, event), NewEntry(c.lastSeq + 1, SignalChange(event)));
  }

  /** The two writers keep the log and the cycle in step. */
  lemma EventRecordedSound(t: Tables, event: Event)
    requires LogSound(t)
    ensures LogSound(EventRecorded(t, event))
  {
    if t.cycle.None? {
      FirstEventSound(t, event);
    } else if !IsDuplicateEvent(t.cycle.value.events, event) {
      AppendedSound(t, event);
    }
  }

  lemma ExecutionRecordedSound(t: Tables, worker: WorkerId, row: WorkerRow)
    requires LogSound(t)
    ensures LogSound(ExecutionRecorded(t, worker, row))
  {
    if t.cycle.Some? {
      ChangesSnoc(t.log, NewEntry(t.cycle.value.lastSeq + 1, ExecutionChange(worker, row)));
    }
  }

  /** Replaying a signal or a report just recorded changes nothing. */
  lemma RecordingIsIdempotent(t: Tables, event: Event, worker: WorkerId, row: WorkerRow)
    ensures EventRecorded(EventRecorded(t, event), event) == EventRecorded(t, event)
    ensures ExecutionRecorded(ExecutionRecorded(t, worker, row), worker, row) == ExecutionRecorded(t, worker, row)
  {
  }

  // ── Dispatcher side ────────────────────────────────────────────────

  predicate Claimable(entry: LogEntry, maxAttempts: nat) {
    entry.status.PENDING? && entry.attempts < maxAttempts
  }

  function ClaimableIds(log: seq<LogEntry>, maxAttempts: nat): set<nat> {
    set i | 0 <= i < |log| && Claimable(log[i], maxAttempts)
  }

  function ClaimedEntry(entry: LogEntry): LogEntry {
    entry.(status := SENDING, attempts := entry.attempts + 1)
  }

  function FinishedEntry(entry: LogEntry, delivered: bool, maxAttempts: nat): LogEntry {
    entry.(status := if delivered then DELIVERED else if entry.attempts >= maxAttempts then FAILED else PENDING)
  }

  function DeferredEntry(entry: LogEntry): LogEntry {
    entry.(status := PENDING, attempts := if entry.attempts == 0 then 0 else entry.attempts - 1)
  }

  /** What a reclaim writes to an entry it found, whatever has become of the entry since. */
  function ReclaimedEntry(entry: LogEntry): LogEntry {
    entry.(status := PENDING)
  }

  /** What a reclaim finds of the entries past the threshold. */
  function FoundStale(log: seq<LogEntry>, stale: set<nat>): set<nat> {
    set i | i in stale && 0 <= i < |log| && log[i].status.SENDING?
  }

  function LogClaimed(log: seq<LogEntry>, ids: set<nat>): (r: seq<LogEntry>)
    ensures |r| == |log|
  {
    seq(|log|, i requires 0 <= i < |log| => if i in ids then ClaimedEntry(log[i]) else log[i])
  }

  function LogFinished(log: seq<LogEntry>, ids: set<nat>, delivered: bool, maxAttempts: nat): (r: seq<LogEntry>)
    ensures |r| == |log|
  {
    seq(|log|, i requires 0 <= i < |log| => if i in ids then FinishedEntry(log[i], delivered, maxAttempts) else log[i])
  }

  function LogDeferred(log: seq<LogEntry>, ids: set<nat>): (r: seq<LogEntry>)
    ensures |r| == |log|
  {
    seq(|log|, i requires 0 <= i < |log| => if i in ids then DeferredEntry(log[i]) else log[i])
  }

  function LogReclaimed(log: seq<LogEntry>, found: set<nat>): (r: seq<LogEntry>)
    ensures |r| == |log|
  {
    seq(|log|, i requires 0 <= i < |log| => if i in found then ReclaimedEntry(log[i]) else log[i])
  }

  /** What `upsert_chat` is asked to write; None leaves the column alone. */
  datatype ChatWrite = ChatWrite(messageId: Option<nat>, body: Option<Body>, deliveredSeq: Option<nat>, notified: Option<nat>)

  function ChatMerged(row: ChatRow, audience: Audience, write: ChatWrite): ChatRow {
    ChatRow(
      audience,
      if write.messageId.Some? then write.messageId else row.messageId,
      if write.body.Some? then write.body else row.body,
      if write.deliveredSeq.Some? && write.deliveredSeq.value > row.deliveredSeq then write.deliveredSeq.value else row.deliveredSeq,
      if write.notified.Some? && write.notified.value > (if row.notified.Some? then row.notified.value else 0) then write.notified else row.notified)
  }

  function ChatInserted(audience: Audience, write: ChatWrite): ChatRow {
    ChatRow(audience, write.messageId, write.body,
            if write.deliveredSeq.Some? then write.deliveredSeq.value else 0, write.notified)
  }

  function Upserted(chats: map<ChatId, ChatRow>, chat: ChatId, audience: Audience, write: ChatWrite): map<ChatId, ChatRow> {
    chats[chat := if chat in chats then ChatMerged(chats[chat], audience, write) else ChatInserted(audience, write)]
  }

  class BroadcastRepository {
    var cycle: Option<Cycle>
    var log: seq<LogEntry>
    var workers: map<WorkerId, WorkerRow>
    var chats: map<ChatId, ChatRow>

    ghost function Contents(): Tables
      reads this
    {
      Tables(cycle, log, workers, chats)
    }

    constructor ()
      ensures Contents() == NO_CYCLE
    {
      cycle, log, workers, chats := None, [], map[], map[];
    }

    /** Another writer's insert of the same cycle, committed by somebody else. */
    method InsertByRival(event: Event)
      requires cycle.None?
      modifies this
      ensures Contents() == EventRecorded(old(Contents()), event)
    {
      cycle := Some(Cycle([event], Name(event.action), event.action, StatusForAction(event.action), 1));
      log := [NewEntry(1, SignalChange(event))];
    }

    /** Find or create the cycle and append the event. `rival` is the first event of another
        writer that inserts the cycle between this writer's read and its own insert; the loser
        retries once and lands on the winner's row, as if it had simply come second. */
    method RecordEvent(event: Event, rival: Option<Event>, db: Db) returns (recorded: bool)
      modifies this
      ensures recorded == db.Commits?
      ensures
        var start := if old(cycle).None? && rival.Some? then EventRecorded(old(Contents()), rival.value) else old(Contents());
        && Contents() == (if db.Aborts? then start else EventRecorded(start, event))
        && (!db.Aborts? ==> TookEvent(start, Contents(), event))
    {
      var attempt := 1;
      while attempt <= 2
        invariant attempt == 1 ==> Contents() == old(Contents())
        invariant attempt == 2 ==> old(cycle).None? && rival.Some? && cycle.Some? && Contents() == EventRecorded(old(Contents()), rival.value)
        invariant 1 <= attempt <= 2
        decreases 2 - attempt
      {
        var row := cycle;
        if row.None? {
          if rival.Some? {
            InsertByRival(rival.value);
            attempt := 2;
            continue;
          }
          if !db.Aborts? {
            cycle := Some(Cycle([event], Name(event.action), event.action, StatusForAction(event.action), 1));
            log := [NewEntry(1, SignalChange(event))];
          }
          return db.Commits?;
        }
        if !db.Aborts? && !IsDuplicateEvent(row.value.events, event) {
          var c := row.value;
          c := c.(events := c.events + [event]);
          c := c.(actions := Extended(c.actions, event.action));
          c := c.(latestAction := event.action);
          c := c.(status := MergeStatus(c.status, StatusForAction(event.action)));
          c := c.(lastSeq := c.lastSeq + 1);
          cycle := Some(c);
          log := log + [NewEntry(c.lastSeq, SignalChange(event))];
        }
        return db.Commits?;
      }
      assert false;
    }

    method RecordWorkerExecution(worker: WorkerId, row: WorkerRow, db: Db) returns (recorded: bool)
      modifies this
      ensures recorded == (old(cycle).Some? && db.Commits?)
      ensures Contents() == if db.Aborts? then old(Contents()) else ExecutionRecorded(old(Contents()), worker, row)
      ensures !db.Aborts? ==> TookReport(old(Contents()), Contents(), worker, row)
    {
      if cycle.None? || db.Aborts? {
        return false;
      }
      if worker in workers {
        if workers[worker].status == row.status && workers[worker].action == row.action {
          return db.Commits?;
        }
      }
      workers := workers[worker := row];
      var c := cycle.value;
      c := c.(lastSeq := c.lastSeq + 1);
      cycle := Some(c);
      log := log + [NewEntry(c.lastSeq, ExecutionChange(worker, row))];
      recorded := db.Commits?;
    }

    /** Takes ownership of the undelivered entries: PENDING to SENDING, one attempt each. */
    method ClaimPendingLogs(maxAttempts: nat, db: Db) returns (claimed: set<nat>)
      modifies this`log
      ensures db.Aborts? ==> log == old(log)
      ensures !db.Aborts? ==> log == LogClaimed(old(log), ClaimableIds(old(log), maxAttempts))
      ensures claimed == if db.Commits? then ClaimableIds(old(log), maxAttempts) else {}
      ensures forall i | 0 <= i < |log| ::
                var row := old(log)[i];
                if row.status.PENDING? && row.attempts < maxAttempts && !db.Aborts?
                then log[i] == LogEntry(row.seqNo, row.change, SENDING, row.attempts + 1) && (db.Commits? ==> i in claimed)
                else log[i] == row && i !in claimed
    {
      claimed := {};
      if db.Aborts? {
        return;
      }
      var i := 0;
      while i < |log|
        invariant 0 <= i <= |log| == |old(log)|
        invariant claimed == set j | 0 <= j < i && Claimable(old(log)[j], maxAttempts)
        invariant forall j | 0 <= j < |log| :: log[j] == if j < i && Claimable(old(log)[j], maxAttempts) then ClaimedEntry(old(log)[j]) else old(log)[j]
      {
        if Claimable(log[i], maxAttempts) {
          var row := log[i].(status := SENDING);
          row := row.(attempts := row.attempts + 1);
          log := log[i := row];
          claimed := claimed + {i};
        }
        i := i + 1;
      }
      if db.ReplyLost? {
        claimed := {};
      }
    }

    method FinishLogs(ids: set<nat>, delivered: bool, maxAttempts: nat, db: Db) returns (ok: bool)
      modifies this`log
      ensures log == if db.Aborts? then old(log) else LogFinished(old(log), ids, delivered, maxAttempts)
      ensures ids != {} ==> ok == db.Commits?
      ensures |log| == |old(log)| && forall i | 0 <= i < |log| ::
                var row := old(log)[i];
                if i in ids && !db.Aborts?
                then log[i] == row.(status := if delivered then DELIVERED else if row.attempts < maxAttempts then PENDING else FAILED)
                else log[i] == row
    {
      if ids == {} {
        assert LogFinished(log, ids, delivered, maxAttempts) == log;
        return true;
      }
      if db.Aborts? {
        return false;
      }
      var i := 0;
      while i < |log|
        invariant 0 <= i <= |log| == |old(log)|
        invariant forall j | 0 <= j < |log| :: log[j] == if j < i && j in ids then FinishedEntry(old(log)[j], delivered, maxAttempts) else old(log)[j]
      {
        if i in ids {
          if delivered {
            log := log[i := log[i].(status := DELIVERED)];
          } else {
            var exhausted := log[i].attempts >= maxAttempts;
            log := log[i := log[i].(status := if exhausted then FAILED else PENDING)];
          }
        }
        i := i + 1;
      }
      ok := db.Commits?;
    }

    method DeferLogs(ids: set<nat>, db: Db) returns (ok: bool)
      modifies this`log
      ensures log == if db.Aborts? then old(log) else LogDeferred(old(log), ids)
      ensures ids != {} ==> ok == db.Commits?
      ensures |log| == |old(log)| && forall i | 0 <= i < |log| ::
                var row := old(log)[i];
                if i in ids && !db.Aborts?
                then log[i] == LogEntry(row.seqNo, row.change, PENDING, if row.attempts > 0 then row.attempts - 1 else 0)
                else log[i] == row
    {
      if ids == {} {
        assert LogDeferred(log, ids) == log;
        return true;
      }
      if db.Aborts? {
        return false;
      }
      var i := 0;
      while i < |log|
        invariant 0 <= i <= |log| == |old(log)|
        invariant forall j | 0 <= j < |log| :: log[j] == if j < i && j in ids then DeferredEntry(old(log)[j]) else old(log)[j]
      {
        if i in ids {
          var row := log[i].(status := PENDING);
          row := row.(attempts := if row.attempts - 1 > 0 then row.attempts - 1 else 0);
          log := log[i := row];
        }
        i := i + 1;
      }
      ok := db.Commits?;
    }

    /** Returns entries stranded in SENDING to PENDING. `stale` are those past the threshold. The
        rows are read first and not locked; `closes` is whether a pass closes the entries `ids`,
        and how, before they are written. */
    method ReclaimStaleLogs(stale: set<nat>, closes: Option<bool>, ids: set<nat>, maxAttempts: nat, db: Db) returns (count: nat)
      modifies this`log
      ensures
        var found := FoundStale(old(log), stale);
        var start := if closes.Some? then LogFinished(old(log), ids, closes.value, maxAttempts) else old(log);
        && log == (if db.Aborts? then start else LogReclaimed(start, found))
        && count == (if db.Commits? then |found| else 0)
        && (closes.None? ==> |log| == |old(log)| && forall i | 0 <= i < |log| ::
              var row := old(log)[i];
              log[i] == if i in stale && row.status.SENDING? && !db.Aborts? then row.(status := PENDING) else row)
    {
      var found := ListStale(stale);
      if closes.Some? {
        log := LogFinished(log, ids, closes.value, maxAttempts);
      }
      if db.Aborts? {
        return 0;
      }
      WriteBack(found);
      count := if db.Commits? then |found| else 0;
    }

    /** The read of a reclaim. */
    method ListStale(stale: set<nat>) returns (found: set<nat>)
      ensures forall i: nat :: i in found <==> i in stale && i < |log| && log[i].status.SENDING?
      ensures found == FoundStale(log, stale)
    {
      found := {};
      var i := 0;
      while i < |log|
        invariant 0 <= i <= |log|
        invariant found == set j | j in stale && 0 <= j < i && log[j].status.SENDING?
      {
        if i in stale && log[i].status.SENDING? {
          found := found + {i};
        }
        i := i + 1;
      }
    }

    /** The write of a reclaim, whatever has become of the rows since. */
    method WriteBack(found: set<nat>)
      modifies this`log
      ensures log == LogReclaimed(old(log), found)
    {
      ghost var start := log;
      var i := 0;
      while i < |log|
        invariant 0 <= i <= |log| == |start|
        invariant forall j | 0 <= j < |log| :: log[j] == if j < i && j in found then ReclaimedEntry(start[j]) else start[j]
      {
        if i in found {
          log := log[i := log[i].(status := PENDING)];
        }
        i := i + 1;
      }
    }

    method UpsertChat(chat: ChatId, audience: Audience, write: ChatWrite, db: Db) returns (ok: bool)
      modifies this`chats
      ensures chats == if db.Aborts? then old(chats) else Upserted(old(chats), chat, audience, write)
      ensures ok == db.Commits?
      ensures forall c | c != chat :: (c in chats <==> c in old(chats)) && (c in chats ==> chats[c] == old(chats)[c])
      ensures !db.Aborts? ==>
                && chat in chats && chats[chat].audience == audience
                && var row, before := chats[chat], if chat in old(chats) then old(chats)[chat] else ChatRow(audience, None, None, 0, None);
                   && row.messageId == (if write.messageId.Some? then write.messageId else before.messageId)
                   && row.body == (if write.body.Some? then write.body else before.body)
                   && row.deliveredSeq == (if write.deliveredSeq.Some? && write.deliveredSeq.value > before.deliveredSeq
                                           then write.deliveredSeq.value else before.deliveredSeq)
                   && (write.notified.None? ==> row.notified == before.notified)
                   && (write.notified.Some? && (before.notified.Some? || chat !in old(chats)) ==>
                         row.notified == Some(if before.notified.Some? && before.notified.value > write.notified.value
                                              then before.notified.value else write.notified.value))
                   && (write.notified.Some? && before.notified.None? && chat in old(chats) ==>
                         row.notified == if write.notified.value > 0 then write.notified else None)
    {
      if db.Aborts? {
        return false;
      }
      if chat !in chats {
        var delivered := if write.deliveredSeq.Some? then write.deliveredSeq.value else 0;
        chats := chats[chat := ChatRow(audience, write.messageId, write.body, delivered, write.notified)];
        return db.Commits?;
      }
      var row := chats[chat].(audience := audience);
      if write.messageId.Some? {
        row := row.(messageId := write.messageId);
      }
      if write.body.Some? {
        row := row.(body := write.body);
      }
      if write.deliveredSeq.Some? && write.deliveredSeq.value > row.deliveredSeq {
        row := row.(deliveredSeq := write.deliveredSeq.value);
      }
      var announced := if row.notified.Some? then row.notified.value else 0;
      if write.notified.Some? && write.notified.value > announced {
        row := row.(notified := write.notified);
      }
      chats := chats[chat := row];
      ok := db.Commits?;
    }
  }
}

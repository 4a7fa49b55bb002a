/** Delivery of one broadcast cycle as a state machine: writers, the dispatcher's pass over the
    chats cut at every await, the sweeper's reclaim, and crashes, against a Telegram that may
    answer anything.

    There is one pass at a time: `CycleLocks` proves that of the per-cycle lock. Each pass reads its
    settings anew, so its targets and whether notices are on may differ from the last one's. Besides the
    tables the state keeps what really happened: what each chat was shown and told, and how often
    each entry was claimed and deferred. */
module BroadcastDelivery {
  import opened Wrappers
  import opened BroadcastLog

  /** One destination of a pass; `chat` is the id its chat row is stored under. */
  datatype Target = Target(audience: Audience, chat: ChatId)

  datatype Params = Params(maxAttempts: nat)

  /** Whether each audience gets reply notices. */
  datatype Replies = Replies(privateOn: bool, publicOn: bool)

  /** An edit Telegram never answered reads as failed to the code, but is in the chat. */
  datatype EditOutcome = EditOk | EditMissing | EditFailed | EditUnanswered

  /** A send that failed may have posted the message all the same: an error page after the post, or an
      exception the code does not count among those that leave the outcome open. */
  datatype SendOutcome = SendOk(messageId: nat) | SendFailed(posted: bool) | SendUnknown

  /** What Telegram answers while one chat is served; `refused` are the notices it would refuse, and
      `unanswered` those it would take without answering. The code cannot tell the two apart. */
  datatype Answers = Answers(edit: EditOutcome, send: SendOutcome, refused: set<nat>, unanswered: set<nat>)

  /** What serving one chat came to: the verdict, the row to write, whether the body was put in
      the chat (and as a new message), which notices went out, and below which event index
      nothing is owed any more because the chat sees it anyway or was deliberately caught up. */
  datatype Delivery = Delivery(
    ok: bool,
    write: Option<ChatWrite>,
    shown: bool,
    posted: bool,
    announced: seq<nat>,
    excused: nat)

  /** History of one chat: sequence numbers of the bodies it was shown, those posted as a new
      message, the event indices announced, and how far it was excused from announcements. */
  datatype Told = Told(shown: seq<nat>, posts: seq<nat>, announced: seq<nat>, excused: nat)

  /** History of one log entry. `stranded` once a reclaim wrote it back on its last attempt. */
  datatype Marks = Marks(claims: nat, deferrals: nat, stranded: bool)

  datatype View = View(cycle: Cycle, workers: map<WorkerId, WorkerRow>, chats: map<ChatId, ChatRow>)

  /** A load reads the cycle and its chats first and the workers last; a report recorded in between
      is seen in the workers only. `Load(true)` is a load with nothing in between. */
  datatype Pass =
    | Idle
    | Claimed(ids: set<nat>)
    | Reading(ids: set<nat>, view: View)
    | Loaded(ids: set<nat>, view: View)
    | Delivering(ids: set<nat>, view: View, targets: seq<Target>, replies: Replies, next: nat, ok: bool)
    | Parking(ids: set<nat>, view: View, left: set<ChatId>)
    | Closing(ids: set<nat>)

  /** `stale` are the entries the reclaim under way has found in SENDING and not yet written back. It
      locks nothing, so they may be finished, and claimed again, before it does. */
  datatype State = State(tables: Tables, marks: seq<Marks>, told: map<ChatId, Told>, pass: Pass, stale: set<nat>)

  /** What happens around the write of a chat row: it commits; it fails and nobody looks; the
      process dies before it. */
  datatype Fate = Committed | NotStored | Died

  datatype Step =
    | Record(event: Event)
    | Execute(worker: WorkerId, row: WorkerRow)
    | Claim(db: Db)
    | Load(found: bool)
    | Read
    | ReadWorkers
    | Broadcast(targets: seq<Target>, replies: Replies)
    | Park
    | DeliverNext(answers: Answers, fate: Fate)
    | ParkChat(chat: ChatId, fate: Fate)
    | Close(db: Db)
    | FindStale(ids: set<nat>)
    | Reclaim(db: Db)
    | Crash

  // ── Serving one chat ───────────────────────────────────────────────

  function Render(audience: Audience, view: View): Body {
    Body(audience, view.cycle.events, view.cycle.status, if audience.Private? then view.workers else map[])
  }

  function Enabled(replies: Replies, audience: Audience): bool {
    if audience.Private? then replies.privateOn else replies.publicOn
  }

  /** Where a run of notices from index `from` stops: at the first refusal, or at the end. */
  function FirstRefused(from: nat, notices: nat, refused: set<nat>): (k: nat)
    ensures from <= k && (k <= notices || k == from)
    ensures forall i | from <= i < k :: i !in refused
    ensures k < notices ==> k in refused
    decreases if from < notices then notices - from else 0
  {
    if from >= notices || from in refused then from else FirstRefused(from + 1, notices, refused)
  }

  /** The new `notified_event_count` (`_notify_updates`): it stops at the first notice without a
      positive answer. */
  function NotifiedAfter(already: Option<nat>, notices: nat, enabled: bool, a: Answers): nat {
    if already.None? || !enabled then notices else FirstRefused(already.value, notices, a.refused + a.unanswered)
  }

  /** How far the notices from index `from` got in the chat: one the run stopped at may be there. */
  function Reached(from: nat, notices: nat, a: Answers): (k: nat)
    ensures from <= k
    ensures FirstRefused(from, notices, a.refused + a.unanswered) <= k <= FirstRefused(from, notices, a.refused + a.unanswered) + 1
    ensures k <= notices || k == from
  {
    var stop := FirstRefused(from, notices, a.refused + a.unanswered);
    if stop < notices && stop in a.unanswered then stop + 1 else stop
  }

  function Range(from: nat, to: nat): (r: seq<nat>)
    requires from <= to
    ensures |r| == to - from
  {
    seq(to - from, i requires 0 <= i < to - from => from + i)
  }

  /** The notices that got into the chat. */
  function AnnouncedNow(already: Option<nat>, notices: nat, enabled: bool, a: Answers): seq<nat> {
    if already.None? || !enabled then [] else Range(already.value, Reached(already.value, notices, a))
  }

  const UNTOUCHED := ChatWrite(None, None, None, None)

  function FreshSend(body: Body, seqNo: nat, notices: nat, send: SendOutcome): Delivery {
    match send
    case SendUnknown => Delivery(false, Some(ChatWrite(None, Some(body), Some(seqNo), Some(notices))), true, true, [], notices)
    case SendFailed(posted) => Delivery(false, Some(UNTOUCHED), posted, posted, [], 0)
    case SendOk(id) => Delivery(true, Some(ChatWrite(Some(id), Some(body), Some(seqNo), Some(notices))), true, true, [], notices)
  }

  function Deliver(existing: Option<ChatRow>, body: Body, seqNo: nat, notices: nat, enabled: bool, a: Answers): Delivery {
    if existing.Some? && existing.value.deliveredSeq >= seqNo then Delivery(true, None, false, false, [], 0)
    else if existing.Some? && existing.value.messageId.Some? then
      var row := existing.value;
      match a.edit
      case EditOk =>
        var notified := NotifiedAfter(row.notified, notices, enabled, a);
        Delivery(true, Some(ChatWrite(row.messageId, Some(body), Some(seqNo), Some(notified))), true, false,
                 AnnouncedNow(row.notified, notices, enabled, a),
                 if row.notified.None? || !enabled then notices else 0)
      case EditFailed => Delivery(false, Some(UNTOUCHED), false, false, [], 0)
      case EditUnanswered => Delivery(false, Some(UNTOUCHED), true, false, [], 0)
      case EditMissing => FreshSend(body, seqNo, notices, a.send)
    else FreshSend(body, seqNo, notices, a.send)
  }

  function Existing(chats: map<ChatId, ChatRow>, chat: ChatId): Option<ChatRow> {
    if chat in chats then Some(chats[chat]) else None
  }

  function ToldOf(told: map<ChatId, Told>, chat: ChatId): Told {
    if chat in told then told[chat] else Told([], [], [], 0)
  }

  function Max(a: nat, b: nat): nat {
    if a < b then b else a
  }

  function ToldAfter(told: Told, d: Delivery, seqNo: nat): Told {
    Told(if d.shown then told.shown + [seqNo] else told.shown,
         if d.posted then told.posts + [seqNo] else told.posts,
         told.announced + d.announced,
         Max(told.excused, d.excused))
  }

  /** Chat rows holding a posted message older than the cycle's latest change. */
  function Behind(view: View): set<ChatId> {
    set c | c in view.chats && view.chats[c].messageId.Some? && view.chats[c].deliveredSeq < view.cycle.lastSeq
  }

  function Written(chats: map<ChatId, ChatRow>, chat: ChatId, audience: Audience, write: Option<ChatWrite>, fate: Fate): map<ChatId, ChatRow> {
    if fate.Committed? && write.Some? then Upserted(chats, chat, audience, write.value) else chats
  }

  // ── Steps ──────────────────────────────────────────────────────────

  function FreshMarks(marks: seq<Marks>, log: seq<LogEntry>): (r: seq<Marks>)
    ensures |r| == |log|
  {
    if |marks| <= |log| then marks + seq(|log| - |marks|, i => Marks(0, 0, false)) else marks[..|log|]
  }

  function MarksClaimed(marks: seq<Marks>, ids: set<nat>): (r: seq<Marks>)
    ensures |r| == |marks|
  {
    seq(|marks|, i requires 0 <= i < |marks| => if i in ids then marks[i].(claims := marks[i].claims + 1) else marks[i])
  }

  function MarksDeferred(marks: seq<Marks>, ids: set<nat>): (r: seq<Marks>)
    ensures |r| == |marks|
  {
    seq(|marks|, i requires 0 <= i < |marks| => if i in ids then marks[i].(deferrals := marks[i].deferrals + 1) else marks[i])
  }

  function MarksReclaimed(marks: seq<Marks>, log: seq<LogEntry>, found: set<nat>, maxAttempts: nat): (r: seq<Marks>)
    requires |marks| == |log|
    ensures |r| == |marks|
  {
    seq(|marks|, i requires 0 <= i < |marks| =>
      if i in found && log[i].attempts >= maxAttempts then marks[i].(stranded := true) else marks[i])
  }

  predicate CanStep(p: Params, s: State, e: Step) {
    match e
    case Claim(_) => s.pass.Idle?
    case Load(found) => (s.pass.Claimed? && (found ==> s.tables.cycle.Some?)) || (s.pass.Reading? && !found)
    case Read => s.pass.Claimed? && s.tables.cycle.Some?
    case ReadWorkers => s.pass.Reading?
    case Broadcast(targets, _) => s.pass.Loaded? && targets != []
    case Park => s.pass.Loaded?
    case DeliverNext(_, _) => s.pass.Delivering? && s.pass.next < |s.pass.targets|
    case ParkChat(chat, _) => s.pass.Parking? && chat in s.pass.left && chat in s.pass.view.chats
    case Close(_) =>
      || s.pass.Closing?
      || (s.pass.Delivering? && s.pass.next == |s.pass.targets|)
      || (s.pass.Parking? && s.pass.left == {})
    case FindStale(_) => s.stale == {}
    case _ => true
  }

  function WithTables(s: State, t: Tables): State {
    s.(tables := t, marks := FreshMarks(s.marks, t.log))
  }

  function ClaimNext(p: Params, s: State, db: Db): State {
    var ids := ClaimableIds(s.tables.log, p.maxAttempts);
    if db.Aborts? then s
    else
      s.(tables := s.tables.(log := LogClaimed(s.tables.log, ids)),
         marks := MarksClaimed(s.marks, ids),
         pass := if ids == {} || db.ReplyLost? then Idle else Claimed(ids))
  }

  /** The outcome of serving target `next` of the pass. */
  function DeliveryAt(s: State, a: Answers): Delivery
    requires s.pass.Delivering? && s.pass.next < |s.pass.targets|
  {
    var v, target := s.pass.view, s.pass.targets[s.pass.next];
    Deliver(Existing(v.chats, target.chat), Render(target.audience, v), v.cycle.lastSeq, |v.cycle.events|,
            Enabled(s.pass.replies, target.audience), a)
  }

  function DeliverStep(s: State, a: Answers, fate: Fate): State
    requires s.pass.Delivering? && s.pass.next < |s.pass.targets|
  {
    var target := s.pass.targets[s.pass.next];
    var d := DeliveryAt(s, a);
    s.(tables := s.tables.(chats := Written(s.tables.chats, target.chat, target.audience, d.write, fate)),
       told := s.told[target.chat := ToldAfter(ToldOf(s.told, target.chat), d, s.pass.view.cycle.lastSeq)],
       pass := if fate.Died? then Idle else s.pass.(next := s.pass.next + 1, ok := s.pass.ok && d.ok),
       stale := if fate.Died? then {} else s.stale)
  }

  function ParkStep(s: State, chat: ChatId, fate: Fate): State
    requires s.pass.Parking? && chat in s.pass.view.chats
  {
    var notices := |s.pass.view.cycle.events|;
    var told := ToldOf(s.told, chat);
    s.(tables := s.tables.(chats := Written(s.tables.chats, chat, s.pass.view.chats[chat].audience,
                                            Some(ChatWrite(None, None, None, Some(notices))), fate)),
       told := s.told[chat := told.(excused := Max(told.excused, notices))],
       pass := if fate.Died? then Idle else s.pass.(left := s.pass.left - {chat}),
       stale := if fate.Died? then {} else s.stale)
  }

  function CloseStep(p: Params, s: State, db: Db): State
    requires s.pass.Closing? || s.pass.Delivering? || s.pass.Parking?
  {
    var log, ids := s.tables.log, s.pass.ids;
    var s' := s.(pass := Idle);
    if db.Aborts? then s'
    else if s.pass.Parking? then
      s'.(tables := s.tables.(log := LogDeferred(log, ids)), marks := MarksDeferred(s.marks, ids))
    else
      s'.(tables := s.tables.(log := LogFinished(log, ids, s.pass.Closing? || s.pass.ok, p.maxAttempts)))
  }

  function Next(p: Params, s: State, e: Step): State
    requires CanStep(p, s, e)
    requires |s.marks| == |s.tables.log|
  {
    match e
    case Record(event) => WithTables(s, EventRecorded(s.tables, event))
    case Execute(worker, row) => WithTables(s, ExecutionRecorded(s.tables, worker, row))
    case Claim(db) => ClaimNext(p, s, db)
    case Load(found) =>
      if found then s.(pass := Loaded(s.pass.ids, View(s.tables.cycle.value, s.tables.workers, s.tables.chats)))
      else s.(pass := Closing(s.pass.ids))
    case Read => s.(pass := Reading(s.pass.ids, View(s.tables.cycle.value, map[], s.tables.chats)))
    case ReadWorkers => s.(pass := Loaded(s.pass.ids, s.pass.view.(workers := s.tables.workers)))
    case Broadcast(targets, replies) => s.(pass := Delivering(s.pass.ids, s.pass.view, targets, replies, 0, true))
    case Park =>
      if Behind(s.pass.view) == {} then s.(pass := Closing(s.pass.ids))
      else s.(pass := Parking(s.pass.ids, s.pass.view, Behind(s.pass.view)))
    case DeliverNext(a, fate) => DeliverStep(s, a, fate)
    case ParkChat(chat, fate) => ParkStep(s, chat, fate)
    case Close(db) => CloseStep(p, s, db)
    case FindStale(ids) => s.(stale := FoundStale(s.tables.log, ids))
    case Reclaim(db) =>
      if db.Aborts? then s.(stale := {})
      else
        s.(tables := s.tables.(log := LogReclaimed(s.tables.log, s.stale)),
           marks := MarksReclaimed(s.marks, s.tables.log, s.stale, p.maxAttempts),
           stale := {})
    case Crash => s.(pass := Idle, stale := {})
  }

  function Initial(): State {
    State(NO_CYCLE, [], map[], Idle, {})
  }

  ghost predicate IsRun(p: Params, s: State, steps: seq<Step>, s': State)
    decreases |steps|
  {
    if steps == [] then s == s'
    else
      && |s.marks| == |s.tables.log|
      && CanStep(p, s, steps[0])
      && IsRun(p, Next(p, s, steps[0]), steps[1..], s')
  }

  ghost predicate Reachable(p: Params, s: State) {
    exists steps :: IsRun(p, Initial(), steps, s)
  }

  lemma {:induction false} RunExtends(p: Params, s: State, steps: seq<Step>, mid: State, more: seq<Step>, s': State)
    requires IsRun(p, s, steps, mid) && IsRun(p, mid, more, s')
    ensures IsRun(p, s, steps + more, s')
    decreases |steps|
  {
    if steps == [] {
      assert steps + more == more;
    } else {
      RunExtends(p, Next(p, s, steps[0]), steps[1..], mid, more, s');
      assert (steps + more)[1..] == steps[1..] + more;
    }
  }

  lemma OneStep(p: Params, s: State, steps: seq<Step>, mid: State, e: Step) returns (longer: seq<Step>, s': State)
    requires IsRun(p, s, steps, mid) && |mid.marks| == |mid.tables.log| && CanStep(p, mid, e)
    ensures IsRun(p, s, longer, s') && s' == Next(p, mid, e) && longer == steps + [e]
  {
    longer, s' := steps + [e], Next(p, mid, e);
    assert IsRun(p, s', [], s') && [e][1..] == [];
    RunExtends(p, s, steps, mid, [e], s');
  }
}

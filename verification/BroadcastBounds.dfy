/** What every run of the delivery machine keeps, whatever fails: no chat row and no snapshot is
    ahead of the cycle, and rows only move forward. */
module BroadcastBounds {
  import opened Wrappers
  import opened BroadcastLog
  import opened BroadcastDelivery
  import Life = BroadcastLifecycle

  function EventCount(t: Tables): nat {
    if t.cycle.Some? then |t.cycle.value.events| else 0
  }

  function LastSeq(t: Tables): nat {
    if t.cycle.Some? then t.cycle.value.lastSeq else 0
  }

  function NotifiedCount(row: ChatRow): nat {
    if row.notified.Some? then row.notified.value else 0
  }

  /** What the life-cycle invariant gives these proofs. */
  ghost predicate Basics(s: State) {
    && |s.marks| == |s.tables.log|
    && LastSeq(s.tables) == |s.tables.log|
    && (s.tables.cycle.Some? ==> s.tables.log != [])
    && (forall i <- Life.Held(s) :: i < |s.tables.log|)
  }

  lemma LifeGivesBasics(p: Params, s: State)
    requires Life.Inv(p, s)
    ensures Basics(s)
  {
    if s.tables.cycle.Some? {
      assert CycleFollows(s.tables.cycle.value, Changes(s.tables.log));
      if s.tables.log == [] {
        assert Changes(s.tables.log) == [];
      }
    }
  }

  ghost predicate RowBounded(row: ChatRow, lastSeq: nat, events: nat) {
    row.deliveredSeq <= lastSeq && (row.notified.Some? ==> row.notified.value <= events)
  }

  ghost predicate RowsBounded(chats: map<ChatId, ChatRow>, lastSeq: nat, events: nat) {
    forall c <- chats :: RowBounded(chats[c], lastSeq, events)
  }

  /** The snapshot is not ahead of the tables, and covers the claimed entries and all delivered. */
  ghost predicate ViewSound(t: Tables, ids: set<nat>, v: View) {
    && 0 < v.cycle.lastSeq <= |t.log|
    && |v.cycle.events| <= EventCount(t)
    && (forall i <- ids :: i < v.cycle.lastSeq)
    && (forall i | 0 <= i < |t.log| && t.log[i].status.DELIVERED? :: i < v.cycle.lastSeq)
    && RowsBounded(v.chats, v.cycle.lastSeq, |v.cycle.events|)
  }

  /** How one row may change. */
  predicate RowAhead(row: ChatRow, row': ChatRow) {
    && row.deliveredSeq <= row'.deliveredSeq
    && NotifiedCount(row) <= NotifiedCount(row')
    && (row.messageId.Some? ==> row'.messageId.Some?)
    && (row.notified.Some? ==> row'.notified.Some?)
  }

  ghost predicate ChatsAhead(chats: map<ChatId, ChatRow>, chats': map<ChatId, ChatRow>) {
    forall c <- chats :: c in chats' && RowAhead(chats[c], chats'[c])
  }

  ghost predicate PassBounded(s: State) {
    match s.pass
    case Idle => true
    case Claimed(_) => true
    case Closing(_) => true
    case Reading(ids, v) => ViewSound(s.tables, ids, v) && v.chats == s.tables.chats
    case Loaded(ids, v) => ViewSound(s.tables, ids, v) && v.chats == s.tables.chats
    case Delivering(ids, v, targets, _, next, _) =>
      ViewSound(s.tables, ids, v) && ChatsAhead(v.chats, s.tables.chats) && next <= |targets|
    case Parking(ids, v, left) =>
      ViewSound(s.tables, ids, v) && ChatsAhead(v.chats, s.tables.chats) && left <= v.chats.Keys
  }

  ghost predicate Inv(s: State) {
    && RowsBounded(s.tables.chats, |s.tables.log|, EventCount(s.tables))
    && PassBounded(s)
    && (s.pass.Idle? || s.pass.ids != {})
  }

  /** What one delivery writes is the snapshot's, and a message never comes with an older body. */
  lemma DeliverWrites(existing: Option<ChatRow>, body: Body, seqNo: nat, notices: nat, enabled: bool, a: Answers)
    requires existing.Some? ==> RowBounded(existing.value, seqNo, notices)
    ensures
      var d := Deliver(existing, body, seqNo, notices, enabled, a);
      && (d.write.Some? && d.write.value.notified.Some? ==> d.write.value.notified.value <= notices)
      && (d.write.Some? && d.write.value.deliveredSeq.Some? ==> d.write.value.deliveredSeq.value == seqNo)
      && (d.write.Some? && d.write.value.messageId.Some? ==> d.write.value.deliveredSeq == Some(seqNo))
      && (d.ok && d.write.Some? ==> d.write.value.deliveredSeq == Some(seqNo))
      && (d.write.None? ==> existing.Some? && existing.value.deliveredSeq >= seqNo)
  {
  }

  lemma UpsertKeeps(chats: map<ChatId, ChatRow>, chat: ChatId, audience: Audience, write: ChatWrite, lastSeq: nat, events: nat)
    requires RowsBounded(chats, lastSeq, events)
    requires write.deliveredSeq.Some? ==> write.deliveredSeq.value <= lastSeq
    requires write.notified.Some? ==> write.notified.value <= events
    ensures
      var chats' := Upserted(chats, chat, audience, write);
      && RowsBounded(chats', lastSeq, events)
      && ChatsAhead(chats, chats')
  {
  }

  lemma AheadTransitive(a: map<ChatId, ChatRow>, b: map<ChatId, ChatRow>, c: map<ChatId, ChatRow>)
    requires ChatsAhead(a, b) && ChatsAhead(b, c)
    ensures ChatsAhead(a, c)
  {
    forall k <- a ensures k in c && RowAhead(a[k], c[k]) {
      assert RowAhead(a[k], b[k]) && RowAhead(b[k], c[k]);
    }
  }

  /** The facts about one delivery of the pass. */
  lemma DeliveryWrites(s: State, a: Answers)
    requires Inv(s) && s.pass.Delivering? && s.pass.next < |s.pass.targets|
    ensures
      var d, v := DeliveryAt(s, a), s.pass.view;
      var existing := Existing(v.chats, s.pass.targets[s.pass.next].chat);
      && (d.write.Some? && d.write.value.notified.Some? ==> d.write.value.notified.value <= |v.cycle.events|)
      && (d.write.Some? && d.write.value.deliveredSeq.Some? ==> d.write.value.deliveredSeq.value == v.cycle.lastSeq)
      && (d.write.Some? && d.write.value.messageId.Some? ==> d.write.value.deliveredSeq == Some(v.cycle.lastSeq))
      && (d.ok && d.write.Some? ==> d.write.value.deliveredSeq == Some(v.cycle.lastSeq))
      && (d.write.None? ==> existing.Some? && existing.value.deliveredSeq >= v.cycle.lastSeq)
  {
    var v, target := s.pass.view, s.pass.targets[s.pass.next];
    if target.chat in v.chats {
      assert RowBounded(v.chats[target.chat], v.cycle.lastSeq, |v.cycle.events|);
    }
    DeliverWrites(Existing(v.chats, target.chat), Render(target.audience, v), v.cycle.lastSeq, |v.cycle.events|,
                  Enabled(s.pass.replies, target.audience), a);
  }

  lemma DeliverKeeps(s: State, a: Answers, fate: Fate)
    requires Inv(s) && s.pass.Delivering? && s.pass.next < |s.pass.targets|
    ensures Inv(DeliverStep(s, a, fate)) && ChatsAhead(s.tables.chats, DeliverStep(s, a, fate).tables.chats)
  {
    var s', target, d := DeliverStep(s, a, fate), s.pass.targets[s.pass.next], DeliveryAt(s, a);
    DeliveryWrites(s, a);
    if fate.Committed? && d.write.Some? {
      UpsertKeeps(s.tables.chats, target.chat, target.audience, d.write.value, |s.tables.log|, EventCount(s.tables));
      AheadTransitive(s.pass.view.chats, s.tables.chats, s'.tables.chats);
    }
  }

  lemma ParkKeeps(s: State, chat: ChatId, fate: Fate)
    requires Inv(s) && s.pass.Parking? && chat in s.pass.left && chat in s.pass.view.chats
    ensures Inv(ParkStep(s, chat, fate)) && ChatsAhead(s.tables.chats, ParkStep(s, chat, fate).tables.chats)
  {
    var s', v := ParkStep(s, chat, fate), s.pass.view;
    if fate.Committed? {
      UpsertKeeps(s.tables.chats, chat, v.chats[chat].audience, ChatWrite(None, None, None, Some(|v.cycle.events|)),
                  |s.tables.log|, EventCount(s.tables));
      AheadTransitive(v.chats, s.tables.chats, s'.tables.chats);
    }
  }

  lemma LoadKeeps(p: Params, s: State)
    requires Inv(s) && Basics(s) && CanStep(p, s, Load(true))
    ensures Inv(Next(p, s, Load(true)))
  {
    assert Life.Held(s) == s.pass.ids;
  }

  lemma ReadKeeps(p: Params, s: State)
    requires Inv(s) && Basics(s) && CanStep(p, s, Read)
    ensures Inv(Next(p, s, Read))
  {
    assert Life.Held(s) == s.pass.ids;
  }

  lemma WriterKeeps(p: Params, s: State, e: Step)
    requires Inv(s) && Basics(s) && (e.Record? || e.Execute?)
    ensures Inv(Next(p, s, e)) && Next(p, s, e).tables.chats == s.tables.chats && Next(p, s, e).pass == s.pass
  {
  }

  /** The sweeper, and a crash. */
  lemma SweepKeeps(p: Params, s: State, e: Step)
    requires Inv(s) && Basics(s) && CanStep(p, s, e) && (e.FindStale? || e.Reclaim? || e.Crash?)
    ensures Inv(Next(p, s, e)) && Next(p, s, e).tables.chats == s.tables.chats
  {
  }

  lemma OtherKeeps(p: Params, s: State, e: Step)
    requires Inv(s) && Basics(s) && CanStep(p, s, e)
    requires e.Claim? || e.ReadWorkers? || e.Broadcast? || e.Park? || e.Close? || e == Load(false)
    ensures Inv(Next(p, s, e)) && Next(p, s, e).tables.chats == s.tables.chats
  {
  }

  lemma NextKeeps(p: Params, s: State, e: Step)
    requires Inv(s) && Basics(s) && CanStep(p, s, e)
    ensures Inv(Next(p, s, e)) && ChatsAhead(s.tables.chats, Next(p, s, e).tables.chats)
  {
    match e
    case DeliverNext(a, fate) => DeliverKeeps(s, a, fate);
    case ParkChat(chat, fate) => ParkKeeps(s, chat, fate);
    case Load(found) =>
      if found {
        LoadKeeps(p, s);
      } else {
        OtherKeeps(p, s, e);
      }
    case Read => ReadKeeps(p, s);
    case Record(_) => WriterKeeps(p, s, e);
    case Execute(_, _) => WriterKeeps(p, s, e);
    case FindStale(_) => SweepKeeps(p, s, e);
    case Reclaim(_) => SweepKeeps(p, s, e);
    case Crash => SweepKeeps(p, s, e);
    case _ => OtherKeeps(p, s, e);
  }

  lemma {:induction false} RunKeeps(p: Params, s: State, steps: seq<Step>, s': State)
    requires Life.Inv(p, s) && Inv(s) && IsRun(p, s, steps, s')
    ensures Life.Inv(p, s') && Inv(s') && ChatsAhead(s.tables.chats, s'.tables.chats)
    decreases |steps|
  {
    if steps != [] {
      var mid := Next(p, s, steps[0]);
      LifeGivesBasics(p, s);
      NextKeeps(p, s, steps[0]);
      Life.NextKeeps(p, s, steps[0]);
      RunKeeps(p, mid, steps[1..], s');
      AheadTransitive(s.tables.chats, mid.tables.chats, s'.tables.chats);
    }
  }

  lemma ReachableSound(p: Params, s: State)
    requires Reachable(p, s)
    ensures Life.Inv(p, s) && Inv(s) && Basics(s)
  {
    var steps :| IsRun(p, BroadcastDelivery.Initial(), steps, s);
    RunKeeps(p, BroadcastDelivery.Initial(), steps, s);
    LifeGivesBasics(p, s);
  }

  // ── The guarantees ─────────────────────────────────────────────────

  /** In every reachable state no chat row is ahead of the cycle, in sequence or in notices. */
  lemma NoChatIsAhead(p: Params, s: State, chat: ChatId)
    requires Reachable(p, s) && chat in s.tables.chats
    ensures s.tables.chats[chat].deliveredSeq <= LastSeq(s.tables)
    ensures s.tables.chats[chat].notified.Some? ==> s.tables.chats[chat].notified.value <= EventCount(s.tables)
  {
    ReachableSound(p, s);
    assert RowBounded(s.tables.chats[chat], |s.tables.log|, EventCount(s.tables));
  }

  /** Whatever happens next, a chat keeps its row and the id of its message, and neither its
      sequence nor its notice count goes back. */
  lemma RowsOnlyMoveForward(p: Params, s: State, steps: seq<Step>, s': State, chat: ChatId)
    requires Reachable(p, s) && IsRun(p, s, steps, s') && chat in s.tables.chats
    ensures chat in s'.tables.chats && RowAhead(s.tables.chats[chat], s'.tables.chats[chat])
  {
    ReachableSound(p, s);
    RunKeeps(p, s, steps, s');
  }
}

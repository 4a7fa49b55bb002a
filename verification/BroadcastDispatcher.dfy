/** `BroadcastDispatcher` as the code writes it. Its methods are proved to walk a run of the state
    machine in `BroadcastDelivery`; what Telegram and the database answer are parameters. */
module BroadcastDispatcher {
  import opened Wrappers
  import opened BroadcastLog
  import opened BroadcastDelivery
  import opened BroadcastTargets
  import BroadcastBounds

  /** Telegram, as far as the chats can see it. A refused or failed call leaves nothing behind; a
      call that is never answered, or answered with an error afterwards, has its effect all the same.
      The code learns of the former for a send only: an edit then reads as failed, and a reply as
      refused. */
  class Telegram {
    var told: map<ChatId, Told>

    constructor ()
      ensures told == map[]
    {
      told := map[];
    }

    method EditMessage(chat: ChatId, seqNo: nat, answer: EditOutcome) returns (outcome: EditOutcome)
      modifies this
      ensures outcome == if answer.EditUnanswered? then EditFailed else answer
      ensures
        var t := ToldOf(old(told), chat);
        told == if answer.EditOk? || answer.EditUnanswered? then old(told)[chat := t.(shown := t.shown + [seqNo])] else old(told)
    {
      if answer.EditOk? || answer.EditUnanswered? {
        var t := ToldOf(told, chat);
        told := told[chat := t.(shown := t.shown + [seqNo])];
      }
      outcome := if answer.EditUnanswered? then EditFailed else answer;
    }

    method SendMessage(chat: ChatId, seqNo: nat, answer: SendOutcome) returns (outcome: SendOutcome)
      modifies this
      ensures outcome == if answer == SendFailed(true) then SendFailed(false) else answer
      ensures
        var t := ToldOf(old(told), chat);
        told == if answer == SendFailed(false) then old(told) else old(told)[chat := t.(shown := t.shown + [seqNo], posts := t.posts + [seqNo])]
    {
      if answer != SendFailed(false) {
        var t := ToldOf(told, chat);
        told := told[chat := t.(shown := t.shown + [seqNo], posts := t.posts + [seqNo])];
      }
      outcome := if answer.SendFailed? then SendFailed(false) else answer;
    }

    method ReplyMessage(chat: ChatId, index: nat, refuses: bool, inSilence: bool) returns (ok: bool)
      modifies this
      ensures ok == (!refuses && !inSilence)
      ensures
        var t := ToldOf(old(told), chat);
        told == if refuses && !inSilence then old(told) else old(told)[chat := t.(announced := t.announced + [index])]
    {
      if !refuses || inSilence {
        var t := ToldOf(told, chat);
        told := told[chat := t.(announced := t.announced + [index])];
      }
      ok := !refuses && !inSilence;
    }
  }

  /** What the outside world does to one pass: the claim, the two reads of the load and a report recorded
      between them, Telegram's answers to each target and the write of its row, the write that
      settles each parked chat, and the write that ends the pass. */
  datatype Outside = Outside(
    claim: Db,
    found: bool,
    foundAgain: bool,
    report: Option<(WorkerId, WorkerRow)>,
    answers: nat -> Answers,
    written: nat -> Db,
    settled: ChatId -> Db,
    close: Db)

  /** What a pass came to. */
  datatype Verdict = NothingToDo | CycleGone | Parked | Served(ok: bool)

  /** What a chat saw, without the broker's own bookkeeping of what it is excused from. */
  predicate SameSeen(a: Told, b: Told) {
    a.shown == b.shown && a.posts == b.posts && a.announced == b.announced
  }

  ghost predicate SameHistory(a: map<ChatId, Told>, b: map<ChatId, Told>) {
    forall c: ChatId :: SameSeen(ToldOf(a, c), ToldOf(b, c))
  }

  class BroadcastDispatcher {
    const params: Params
    const privateChats: seq<Entry>
    const repository: BroadcastRepository
    const telegram: Telegram

    ghost var state: State
    ghost var trace: seq<Step>

    ghost predicate Valid()
      reads this, repository, telegram
    {
      && IsRun(params, Initial(), trace, state)
      && |state.marks| == |state.tables.log|
      && repository.Contents() == state.tables
      && SameHistory(telegram.told, state.told)
    }

    constructor (params: Params, privateChats: seq<Entry>)
      ensures Valid() && this.params == params && this.privateChats == privateChats && fresh(repository) && fresh(telegram) && state == Initial()
    {
      this.params := params;
      this.privateChats := privateChats;
      this.repository := new BroadcastRepository();
      this.telegram := new Telegram();
      this.state := Initial();
      this.trace := [];
    }

    ghost method Advance(e: Step)
      requires IsRun(params, Initial(), trace, state) && |state.marks| == |state.tables.log| && CanStep(params, state, e)
      modifies this
      ensures IsRun(params, Initial(), trace, state) && |state.marks| == |state.tables.log|
      ensures state == Next(params, old(state), e) && trace == old(trace) + [e]
    {
      trace, state := OneStep(params, Initial(), trace, state, e);
    }

    /** Replies once per event the chat has not seen announced; stops at the first reply that was not
        answered well, and counts up to there. */
    method NotifyUpdates(chat: ChatId, notices: nat, alreadyNotified: Option<nat>, enabled: bool, a: Answers)
        returns (sent: nat)
      modifies telegram
      ensures sent == NotifiedAfter(alreadyNotified, notices, enabled, a)
      ensures
        var t := ToldOf(old(telegram.told), chat);
        SameHistory(telegram.told,
                    old(telegram.told)[chat := t.(announced := t.announced + AnnouncedNow(alreadyNotified, notices, enabled, a))])
    {
      if alreadyNotified.None? {
        return notices;
      }
      if !enabled {
        return notices;
      }
      sent := alreadyNotified.value;
      var index := alreadyNotified.value;
      ghost var t, stops := ToldOf(telegram.told, chat), a.refused + a.unanswered;
      while index < notices
        invariant alreadyNotified.value <= index == sent
        invariant alreadyNotified.value <= notices ==> index <= notices
        invariant FirstRefused(index, notices, stops) == FirstRefused(alreadyNotified.value, notices, stops)
        invariant ToldOf(telegram.told, chat) == t.(announced := t.announced + Range(alreadyNotified.value, index))
        invariant forall c | c != chat :: ToldOf(telegram.told, c) == ToldOf(old(telegram.told), c)
      {
        assert t.announced + Range(alreadyNotified.value, index) + [index] == t.announced + Range(alreadyNotified.value, index + 1);
        var ok := telegram.ReplyMessage(chat, index, index in a.refused, index in a.unanswered);
        if !ok {
          assert FirstRefused(index, notices, stops) == index;
          ghost var reached := Reached(alreadyNotified.value, notices, a);
          assert reached == if index in a.unanswered then index + 1 else index;
          assert ToldOf(telegram.told, chat) == t.(announced := t.announced + Range(alreadyNotified.value, reached));
          forall c: ChatId
            ensures SameSeen(ToldOf(telegram.told, c),
                             ToldOf(old(telegram.told)[chat := t.(announced := t.announced + Range(alreadyNotified.value, reached))], c))
          {
            assert c != chat ==> ToldOf(telegram.told, c) == ToldOf(old(telegram.told), c);
          }
          return;
        }
        sent := index + 1;
        index := index + 1;
      }
      assert Reached(alreadyNotified.value, notices, a) == index;
    }

    function FateOf(db: Db): Fate {
      if db.Aborts? then NotStored else Committed
    }

    ghost predicate ServingTarget(ids: set<nat>, view: View, targets: seq<Target>, replies: Replies, next: nat, ok: bool)
      reads this
    {
      state.pass == Delivering(ids, view, targets, replies, next, ok) && next <= |targets|
    }

    /** Posts a new message; one Telegram never answered is taken to have landed. */
    method SendFresh(target: Target, text: Body, seqNo: nat, notices: nat, answer: SendOutcome, db: Db) returns (ok: bool)
      modifies repository`chats, telegram
      ensures
        var d := FreshSend(text, seqNo, notices, answer);
        && ok == d.ok
        && repository.chats == Written(old(repository.chats), target.chat, target.audience, d.write, FateOf(db))
        && SameHistory(telegram.told,
                       old(telegram.told)[target.chat := ToldAfter(ToldOf(old(telegram.told), target.chat), d, seqNo)])
    {
      ghost var t := ToldOf(telegram.told, target.chat);
      assert t.announced + [] == t.announced;
      var outcome := telegram.SendMessage(target.chat, seqNo, answer);
      if outcome.SendUnknown? {
        var _ := repository.UpsertChat(target.chat, target.audience, ChatWrite(None, Some(text), Some(seqNo), Some(notices)), db);
        return false;
      }
      if outcome.SendFailed? {
        var _ := repository.UpsertChat(target.chat, target.audience, ChatWrite(None, None, None, None), db);
        return false;
      }
      var _ := repository.UpsertChat(target.chat, target.audience, ChatWrite(Some(outcome.messageId), Some(text), Some(seqNo), Some(notices)), db);
      return true;
    }

    /** Edits this chat's message, or posts a new one when there is none or it is gone. */
    method Deliver(target: Target, existing: Option<ChatRow>, text: Body, seqNo: nat, notices: nat, enabled: bool, a: Answers, db: Db)
        returns (ok: bool)
      modifies repository`chats, telegram
      ensures
        var d := BroadcastDelivery.Deliver(existing, text, seqNo, notices, enabled, a);
        && ok == d.ok
        && repository.chats == Written(old(repository.chats), target.chat, target.audience, d.write, FateOf(db))
        && SameHistory(telegram.told,
                       old(telegram.told)[target.chat := ToldAfter(ToldOf(old(telegram.told), target.chat), d, seqNo)])
    {
      ghost var t := ToldOf(telegram.told, target.chat);
      if existing.Some? && existing.value.deliveredSeq >= seqNo {
        assert t.announced + [] == t.announced;
        return true;
      }
      var messageId := if existing.Some? then existing.value.messageId else None;
      if messageId.Some? {
        var outcome := telegram.EditMessage(target.chat, seqNo, a.edit);
        if outcome.EditOk? {
          var notified := NotifyUpdates(target.chat, notices, existing.value.notified, enabled, a);
          var _ := repository.UpsertChat(target.chat, target.audience, ChatWrite(messageId, Some(text), Some(seqNo), Some(notified)), db);
          return true;
        }
        if outcome.EditFailed? {
          var _ := repository.UpsertChat(target.chat, target.audience, ChatWrite(None, None, None, None), db);
          assert t.announced + [] == t.announced;
          return false;
        }
      }
      ok := SendFresh(target, text, seqNo, notices, a.send, db);
    }

    /** Telegram and the broker's history agree again after both recorded the same delivery. */
    lemma HistoryAfter(seen: map<ChatId, Told>, told: map<ChatId, Told>, seen': map<ChatId, Told>, chat: ChatId, d: Delivery, seqNo: nat)
      requires SameHistory(seen, told)
      requires SameHistory(seen', seen[chat := ToldAfter(ToldOf(seen, chat), d, seqNo)])
      ensures SameHistory(seen', told[chat := ToldAfter(ToldOf(told, chat), d, seqNo)])
    {
      assert SameSeen(ToldOf(seen, chat), ToldOf(told, chat));
      forall c: ChatId ensures SameSeen(ToldOf(seen', c), ToldOf(told[chat := ToldAfter(ToldOf(told, chat), d, seqNo)], c)) {
        assert SameSeen(ToldOf(seen, c), ToldOf(told, c));
        assert SameSeen(ToldOf(seen', c), ToldOf(seen[chat := ToldAfter(ToldOf(seen, chat), d, seqNo)], c));
      }
    }

    /** The outcome of serving one target from the loaded view. */
    function DeliveryOf(target: Target, view: View, replies: Replies, a: Answers): Delivery {
      BroadcastDelivery.Deliver(Existing(view.chats, target.chat), Render(target.audience, view), view.cycle.lastSeq,
                                |view.cycle.events|, Enabled(replies, target.audience), a)
    }

    /** The machine serves its next target. */
    ghost method AdvanceServing(target: Target, view: View, d: Delivery, a: Answers, db: Db)
      requires IsRun(params, Initial(), trace, state) && |state.marks| == |state.tables.log|
      requires state.pass.Delivering? && state.pass.next < |state.pass.targets| && state.pass.targets[state.pass.next] == target
      requires view == state.pass.view && d == DeliveryAt(state, a)
      modifies this
      ensures IsRun(params, Initial(), trace, state) && |state.marks| == |state.tables.log| && old(trace) <= trace
      ensures state.tables == old(state.tables).(chats := Written(old(state.tables.chats), target.chat, target.audience, d.write, FateOf(db)))
      ensures state.told == old(state.told)[target.chat := ToldAfter(ToldOf(old(state.told), target.chat), d, view.cycle.lastSeq)]
      ensures state.pass == old(state.pass).(next := old(state.pass.next) + 1, ok := old(state.pass.ok) && d.ok)
      ensures state.stale == old(state.stale)
    {
      Advance(DeliverNext(a, FateOf(db)));
    }

    /** Serves the target at `next` of the pass. */
    method DeliverAt(next: nat, view: View, targets: seq<Target>, replies: Replies, a: Answers, db: Db, ghost ids: set<nat>, ghost okSoFar: bool)
        returns (ok: bool)
      requires Valid() && next < |targets| && ServingTarget(ids, view, targets, replies, next, okSoFar)
      modifies this, repository`chats, telegram
      ensures Valid() && old(trace) <= trace && state.stale == old(state.stale)
      ensures ServingTarget(ids, view, targets, replies, next + 1, okSoFar && ok)
      ensures
        var d := DeliveryOf(targets[next], view, replies, a);
        ok == d.ok && repository.chats == Written(old(repository.chats), targets[next].chat, targets[next].audience, d.write, FateOf(db))
    {
      var target := targets[next];
      var existing := if target.chat in view.chats then Some(view.chats[target.chat]) else None;
      ghost var seen, told := telegram.told, state.told;
      ghost var d := DeliveryAt(state, a);
      ok := Deliver(target, existing, Render(target.audience, view), view.cycle.lastSeq, |view.cycle.events|,
                    Enabled(replies, target.audience), a, db);
      HistoryAfter(seen, told, telegram.told, target.chat, d, view.cycle.lastSeq);
      AdvanceServing(target, view, d, a, db);
    }

    /** The rows after so many targets. */
    function ChatsAfter(chats: map<ChatId, ChatRow>, targets: seq<Target>, n: nat, view: View, replies: Replies, out: Outside): map<ChatId, ChatRow>
      requires n <= |targets|
    {
      if n == 0 then chats
      else
        var d := DeliveryOf(targets[n - 1], view, replies, out.answers(n - 1));
        Written(ChatsAfter(chats, targets, n - 1, view, replies, out), targets[n - 1].chat, targets[n - 1].audience, d.write, FateOf(out.written(n - 1)))
    }

    /** The chat's row is at the snapshot or ahead of it. */
    predicate AtSnapshot(chats: map<ChatId, ChatRow>, c: ChatId, view: View) {
      c in chats && chats[c].deliveredSeq >= view.cycle.lastSeq
    }

    /** Whether the first so many deliveries went well. */
    function AllWell(targets: seq<Target>, n: nat, view: View, replies: Replies, out: Outside): (well: bool)
      requires n <= |targets|
      ensures well <==> forall j | 0 <= j < n :: DeliveryOf(targets[j], view, replies, out.answers(j)).ok
    {
      n == 0 || (AllWell(targets, n - 1, view, replies, out) && DeliveryOf(targets[n - 1], view, replies, out.answers(n - 1)).ok)
    }

    /** When every delivery went well and every row was written, all chats are at the snapshot. */
    lemma {:induction false} AllAtSnapshot(targets: seq<Target>, n: nat, view: View, replies: Replies, out: Outside)
      requires n <= |targets|
      ensures
        var chats := ChatsAfter(view.chats, targets, n, view, replies, out);
        && (forall c <- view.chats :: c in chats && view.chats[c].deliveredSeq <= chats[c].deliveredSeq)
        && (AllWell(targets, n, view, replies, out) && (forall j | 0 <= j < n :: !out.written(j).Aborts?) ==>
              forall j | 0 <= j < n :: AtSnapshot(chats, targets[j].chat, view))
    {
      if n > 0 {
        AllAtSnapshot(targets, n - 1, view, replies, out);
        Forward(ChatsAfter(view.chats, targets, n - 1, view, replies, out), ChatsAfter(view.chats, targets, n, view, replies, out),
                targets[n - 1], view, replies, out.answers(n - 1), out.written(n - 1));
      }
    }

    /** Serves one target after the other. */
    method ServeEach(view: View, targets: seq<Target>, replies: Replies, out: Outside, ghost ids: set<nat>) returns (ok: bool)
      requires Valid() && ServingTarget(ids, view, targets, replies, 0, true) && view.chats == repository.chats
      modifies this, repository`chats, telegram
      ensures Valid() && old(trace) <= trace && state.stale == old(state.stale)
      ensures ServingTarget(ids, view, targets, replies, |targets|, ok)
      ensures repository.chats == ChatsAfter(view.chats, targets, |targets|, view, replies, out)
      ensures ok == AllWell(targets, |targets|, view, replies, out)
    {
      ok := true;
      var next := 0;
      while next < |targets|
        invariant next <= |targets|
        invariant Valid() && old(trace) <= trace && state.stale == old(state.stale) && ServingTarget(ids, view, targets, replies, next, ok)
        invariant repository.chats == ChatsAfter(view.chats, targets, next, view, replies, out)
        invariant ok == AllWell(targets, next, view, replies, out)
      {
        var served := DeliverAt(next, view, targets, replies, out.answers(next), out.written(next), ids, ok);
        ok := ok && served;
        next := next + 1;
      }
    }

    /** Pushes the cycle to every chat. True when every delivery went well; if every row was written
        down too, all of them are then at the snapshot. */
    method DeliverAll(view: View, targets: seq<Target>, replies: Replies, out: Outside, ghost ids: set<nat>) returns (ok: bool)
      requires Valid() && ServingTarget(ids, view, targets, replies, 0, true) && view.chats == repository.chats
      modifies this, repository`chats, telegram
      ensures Valid() && old(trace) <= trace && state.stale == old(state.stale)
      ensures ServingTarget(ids, view, targets, replies, |targets|, ok)
      ensures ok <==> forall j | 0 <= j < |targets| :: DeliveryOf(targets[j], view, replies, out.answers(j)).ok
      ensures ok && (forall j | 0 <= j < |targets| :: !out.written(j).Aborts?) ==>
                forall j | 0 <= j < |targets| :: AtSnapshot(repository.chats, targets[j].chat, view)
    {
      ok := ServeEach(view, targets, replies, out, ids);
      AllAtSnapshot(targets, |targets|, view, replies, out);
    }

    /** Rows only move forward, and the row just written is at the snapshot if all went well. */
    lemma Forward(before: map<ChatId, ChatRow>, after: map<ChatId, ChatRow>, target: Target, view: View, replies: Replies, a: Answers, db: Db)
      requires
        var d := DeliveryOf(target, view, replies, a);
        after == Written(before, target.chat, target.audience, d.write, FateOf(db))
      requires forall c <- view.chats :: c in before && view.chats[c].deliveredSeq <= before[c].deliveredSeq
      ensures forall c <- before :: c in after && before[c].deliveredSeq <= after[c].deliveredSeq
      ensures
        var d := DeliveryOf(target, view, replies, a);
        d.ok && !db.Aborts? ==> target.chat in after && after[target.chat].deliveredSeq >= view.cycle.lastSeq
    {
    }

    /** The entries `ids` were closed with this status, or FAILED instead of PENDING if they are out of
        attempts, unless the write failed; all others are as they were. */
    ghost predicate Ended(before: seq<LogEntry>, after: seq<LogEntry>, ids: set<nat>, db: Db, status: LogStatus) {
      && |after| == |before|
      && forall i | 0 <= i < |before| ::
           after[i] ==
             if i !in ids || db.Aborts? then before[i]
             else if status.PENDING? && before[i].attempts >= params.maxAttempts then before[i].(status := FAILED)
             else before[i].(status := status)
    }

    /** Writes the verdict of the pass to the entries it claimed. */
    method Finish(ids: set<nat>, delivered: bool, db: Db)
      requires Valid() && CanStep(params, state, Close(Commits)) && !state.pass.Parking?
      requires ids == state.pass.ids && delivered == (state.pass.Closing? || state.pass.ok)
      modifies this, repository`log
      ensures Valid() && old(trace) <= trace && state.stale == old(state.stale) && state.pass.Idle?
      ensures Ended(old(repository.log), repository.log, ids, db, if delivered then DELIVERED else PENDING)
      ensures state.told == old(state.told)
    {
      var _ := repository.FinishLogs(ids, delivered, params.maxAttempts, db);
      Advance(Close(db));
    }

    /** Settles one chat left behind on its notices; its message and body stay as they are. */
    method ParkOne(chat: ChatId, db: Db, ghost ids: set<nat>, view: View, ghost left: set<ChatId>)
      requires Valid() && state.pass == Parking(ids, view, left) && chat in left && chat in view.chats
      modifies this, repository`chats
      ensures Valid() && old(trace) <= trace && state.stale == old(state.stale) && state.pass == Parking(ids, view, left - {chat})
      ensures repository.chats == Written(old(repository.chats), chat, view.chats[chat].audience,
                                          Some(ChatWrite(None, None, None, Some(|view.cycle.events|))), FateOf(db))
    {
      var _ := repository.UpsertChat(chat, view.chats[chat].audience, ChatWrite(None, None, None, Some(|view.cycle.events|)), db);
      ghost var before := state.told;
      Advance(ParkChat(chat, FateOf(db)));
      forall c: ChatId ensures SameSeen(ToldOf(telegram.told, c), ToldOf(state.told, c)) {
        assert SameSeen(ToldOf(telegram.told, c), ToldOf(before, c));
      }
    }

    /** The chat holds a message older than the cycle as the pass loaded it. */
    predicate IsOwed(view: View, c: ChatId) {
      c in view.chats && view.chats[c].messageId.Some? && view.chats[c].deliveredSeq < view.cycle.lastSeq
    }

    /** A parked pass changes no row but the notice counts of the chats it settles. */
    ghost predicate Settled(view: View, left: set<ChatId>, out: Outside)
      reads repository
    {
      && repository.chats.Keys == view.chats.Keys
      && forall c <- view.chats ::
           var row, row' := view.chats[c], repository.chats[c];
           && row' == row.(notified := row'.notified)
           && (!IsOwed(view, c) || c in left || out.settled(c).Aborts? ==> row' == row)
           && (IsOwed(view, c) && c !in left && !out.settled(c).Aborts? ==>
                 BroadcastBounds.NotifiedCount(row') == Max(BroadcastBounds.NotifiedCount(row), |view.cycle.events|))
    }

    lemma SettledNext(view: View, left: set<ChatId>, out: Outside, chat: ChatId, before: map<ChatId, ChatRow>)
      requires before.Keys == view.chats.Keys && chat in left && IsOwed(view, chat) && before[chat] == view.chats[chat]
      ensures
        var after := Written(before, chat, view.chats[chat].audience, Some(ChatWrite(None, None, None, Some(|view.cycle.events|))), FateOf(out.settled(chat)));
        && after.Keys == before.Keys
        && (forall c <- before | c != chat :: after[c] == before[c])
        && after[chat] == before[chat].(notified := after[chat].notified)
        && (out.settled(chat).Aborts? ==> after[chat] == before[chat])
        && (!out.settled(chat).Aborts? ==>
              BroadcastBounds.NotifiedCount(after[chat]) == Max(BroadcastBounds.NotifiedCount(before[chat]), |view.cycle.events|))
    {
    }

    /** The entries `ids` wait again with their attempt given back, unless the write failed. */
    ghost predicate Deferred(before: seq<LogEntry>, after: seq<LogEntry>, ids: set<nat>, db: Db) {
      && |after| == |before|
      && forall i | 0 <= i < |before| ::
           after[i] ==
             if i in ids && !db.Aborts? then before[i].(status := PENDING, attempts := if before[i].attempts > 0 then before[i].attempts - 1 else 0)
             else before[i]
    }

    method Defer(ids: set<nat>, db: Db)
      requires Valid() && state.pass.Parking? && state.pass.left == {} && ids == state.pass.ids
      modifies this, repository`log
      ensures Valid() && old(trace) <= trace && state.stale == old(state.stale) && state.pass.Idle?
      ensures Deferred(old(repository.log), repository.log, ids, db)
    {
      var _ := repository.DeferLogs(ids, db);
      Advance(Close(db));
    }

    /** Settles the chats left behind, one by one. */
    method SettleAll(view: View, behind: set<ChatId>, out: Outside, ghost ids: set<nat>)
      requires Valid() && state.pass == Parking(ids, view, behind) && repository.chats == view.chats
      requires forall c :: c in behind <==> IsOwed(view, c)
      modifies this, repository`chats
      ensures Valid() && old(trace) <= trace && state.stale == old(state.stale)
      ensures state.pass == Parking(ids, view, {}) && Settled(view, {}, out)
    {
      var left := behind;
      while left != {}
        invariant Valid() && old(trace) <= trace && state.stale == old(state.stale)
        invariant state.pass == Parking(ids, view, left) && left <= behind
        invariant Settled(view, left, out)
        decreases left
      {
        var chat :| chat in left;
        SettledNext(view, left, out, chat, repository.chats);
        ParkOne(chat, out.settled(chat), ids, view, left);
        left := left - {chat};
      }
    }

    /** Closes out a pass that deliberately broadcast nothing: drops the entries when no posted
        message is owed an edit, otherwise settles the notices and defers the entries. */
    method ParkPass(view: View, ids: set<nat>, out: Outside)
      requires Valid() && state.pass == Loaded(ids, view) && repository.chats == view.chats
      modifies this, repository`log, repository`chats
      ensures Valid() && old(trace) <= trace && state.stale == old(state.stale) && state.pass.Idle?
      ensures SameHistory(telegram.told, old(telegram.told))
      ensures Settled(view, {}, out)
      ensures (forall c :: !IsOwed(view, c)) ==> Ended(old(repository.log), repository.log, ids, out.close, DELIVERED)
      ensures (exists c :: IsOwed(view, c)) ==> Deferred(old(repository.log), repository.log, ids, out.close)
    {
      var behind := Behind(view);
      assert forall c :: c in behind <==> IsOwed(view, c);
      Advance(Park);
      if behind == {} {
        Finish(ids, true, out.close);
        return;
      }
      SettleAll(view, behind, out, ids);
      Defer(ids, out.close);
    }

    lemma ClaimOutcome(s: State, db: Db)
      requires s.pass.Idle? && |s.marks| == |s.tables.log|
      ensures
        var ids := ClaimableIds(s.tables.log, params.maxAttempts);
        var s' := Next(params, s, Claim(db));
        && s'.pass == (if db.Commits? && ids != {} then Claimed(ids) else Idle)
        && s'.tables == s.tables.(log := if db.Aborts? then s.tables.log else LogClaimed(s.tables.log, ids))
        && s'.told == s.told && s'.stale == s.stale
    {
    }

    /** An entry a pass can claim: waiting, with an attempt left. */
    predicate Claims(entry: LogEntry) {
      entry.status.PENDING? && entry.attempts < params.maxAttempts
    }

    /** Exactly the entries that can be claimed are being sent, with one attempt spent. */
    ghost predicate Taken(before: seq<LogEntry>, after: seq<LogEntry>) {
      && |after| == |before|
      && forall i | 0 <= i < |before| ::
           after[i] ==
             if Claims(before[i]) then before[i].(status := SENDING, attempts := before[i].attempts + 1) else before[i]
    }

    method ClaimWork(db: Db) returns (claimed: set<nat>)
      requires Valid() && state.pass.Idle?
      modifies this, repository`log
      ensures Valid() && old(trace) <= trace && state.stale == old(state.stale)
      ensures state.pass == if claimed == {} then Idle else Claimed(claimed)
      ensures if db.Aborts? then repository.log == old(repository.log) else Taken(old(repository.log), repository.log)
      ensures forall i: nat :: i in claimed <==> db.Commits? && i < |old(repository.log)| && Claims(old(repository.log)[i])
      ensures state.told == old(state.told)
    {
      ClaimOutcome(state, db);
      assert repository.Contents().log == state.tables.log;
      claimed := repository.ClaimPendingLogs(params.maxAttempts, db);
      Advance(Claim(db));
    }

    /** What others may do between two reads of a load: a report is recorded, or nothing is. */
    method Meanwhile(report: Option<(WorkerId, WorkerRow)>)
      requires Valid() && state.pass.Reading?
      modifies this, repository
      ensures Valid() && old(trace) <= trace && state.stale == old(state.stale) && state.pass == old(state.pass) && repository.chats == old(repository.chats)
      ensures old(repository.log) <= repository.log && state.told == old(state.told)
    {
      if report.Some? {
        var _ := repository.RecordWorkerExecution(report.value.0, report.value.1, Commits);
        Advance(Execute(report.value.0, report.value.1));
      }
    }

    /** The cycle and its chats, then its workers. A load that fails at any point answers None, like a
        cycle that is gone. */
    method LoadCycle(out: Outside, ghost ids: set<nat>) returns (view: Option<View>)
      requires Valid() && state.pass == Claimed(ids)
      modifies this, repository
      ensures Valid() && old(trace) <= trace && state.stale == old(state.stale)
      ensures state.pass == if view.Some? then Loaded(ids, view.value) else Closing(ids)
      ensures view.Some? <==> out.found && out.foundAgain && old(repository.cycle).Some?
      ensures view.Some? ==>
                && view.value.cycle == old(repository.cycle).value && view.value.chats == old(repository.chats)
                && view.value.workers == repository.workers
      ensures repository.chats == old(repository.chats) && old(repository.log) <= repository.log && state.told == old(state.told)
    {
      if !out.found || repository.cycle.None? {
        Advance(Load(false));
        return None;
      }
      var cycle, chats := repository.cycle.value, repository.chats;
      Advance(Read);
      Meanwhile(out.report);
      if !out.foundAgain {
        Advance(Load(false));
        return None;
      }
      view := Some(View(cycle, repository.workers, chats));
      Advance(ReadWorkers);
    }

    /** `get_many`: a read that fails answers as if nothing were set. */
    method GetSettings(stored: Settings, fails: bool) returns (settings: Settings)
      ensures settings == if fails then UNSET else stored
      ensures fails ==> !settings.silent && settings.publicChats == [] && settings.replies.privateOn && settings.replies.publicOn
    {
      if fails {
        return UNSET;
      }
      return stored;
    }

    /** What a pass leaves of the entries: those it claimed as its verdict says, unless the last write
        failed; all others as they were. */
    ghost predicate LeftBy(before: seq<LogEntry>, after: seq<LogEntry>, verdict: Verdict, owed: bool, out: Outside) {
      && |before| <= |after|
      && forall i | 0 <= i < |before| ::
           var row, row' := before[i], after[i];
           var sent := row.(status := SENDING, attempts := row.attempts + 1);
           if !Claims(row) || out.claim.Aborts? then row' == row
           else if verdict.NothingToDo? || out.close.Aborts? then row' == sent
           else match verdict
                case Served(ok) =>
                  row' == sent.(status := if ok then DELIVERED else if sent.attempts < params.maxAttempts then PENDING else FAILED)
                case Parked => row' == if owed then row else sent.(status := DELIVERED)
                case _ => row' == sent.(status := DELIVERED)
    }

    /** What was claimed, and then closed. */
    lemma ClaimedThenEnded(before: seq<LogEntry>, taken: seq<LogEntry>, loaded: seq<LogEntry>, after: seq<LogEntry>,
                           ids: set<nat>, verdict: Verdict, owed: bool, out: Outside)
      requires Taken(before, taken) && taken <= loaded && out.claim.Commits?
      requires forall i: nat :: i in ids <==> i < |before| && Claims(before[i])
      requires verdict.CycleGone? || verdict.Served? || (verdict.Parked? && !owed)
      requires Ended(loaded, after, ids, out.close, if verdict.Served? && !verdict.ok then PENDING else DELIVERED)
      ensures LeftBy(before, after, verdict, owed, out)
    {
    }

    /** What was claimed, and then deferred. */
    lemma ClaimedThenDeferred(before: seq<LogEntry>, taken: seq<LogEntry>, loaded: seq<LogEntry>, after: seq<LogEntry>,
                              ids: set<nat>, out: Outside)
      requires Taken(before, taken) && taken <= loaded && out.claim.Commits?
      requires forall i: nat :: i in ids <==> i < |before| && Claims(before[i])
      requires Deferred(loaded, after, ids, out.close)
      ensures LeftBy(before, after, Parked, true, out)
    {
    }

    /** Parks the pass and says what that leaves of the log. */
    method ParkClaimed(view: View, ids: set<nat>, out: Outside, ghost before: seq<LogEntry>, ghost taken: seq<LogEntry>)
      requires Valid() && state.pass == Loaded(ids, view) && repository.chats == view.chats
      requires Taken(before, taken) && taken <= repository.log && out.claim.Commits?
      requires forall i: nat :: i in ids <==> i < |before| && Claims(before[i])
      modifies this, repository`log, repository`chats
      ensures Valid() && old(trace) <= trace && state.stale == old(state.stale) && state.pass.Idle?
      ensures SameHistory(telegram.told, old(telegram.told)) && Settled(view, {}, out)
      ensures LeftBy(before, repository.log, Parked, exists c :: IsOwed(view, c), out)
    {
      ghost var loaded := repository.log;
      ParkPass(view, ids, out);
      if exists c :: IsOwed(view, c) {
        ClaimedThenDeferred(before, taken, loaded, repository.log, ids, out);
      } else {
        ClaimedThenEnded(before, taken, loaded, repository.log, ids, Parked, false, out);
      }
    }

    /** Delivers to every target and closes the entries accordingly. */
    method ServeClaimed(view: View, targets: seq<Target>, replies: Replies, ids: set<nat>, out: Outside,
                        ghost before: seq<LogEntry>, ghost taken: seq<LogEntry>, ghost owed: bool) returns (ok: bool)
      requires Valid() && state.pass == Loaded(ids, view) && repository.chats == view.chats && targets != []
      requires Taken(before, taken) && taken <= repository.log && out.claim.Commits?
      requires forall i: nat :: i in ids <==> i < |before| && Claims(before[i])
      modifies this, repository, telegram
      ensures Valid() && old(trace) <= trace && state.stale == old(state.stale) && state.pass.Idle?
      ensures ok <==> forall j | 0 <= j < |targets| :: DeliveryOf(targets[j], view, replies, out.answers(j)).ok
      ensures ok && (forall j | 0 <= j < |targets| :: !out.written(j).Aborts?) ==>
                forall j | 0 <= j < |targets| :: AtSnapshot(repository.chats, targets[j].chat, view)
      ensures LeftBy(before, repository.log, Served(ok), owed, out)
    {
      ghost var loaded := repository.log;
      Advance(Broadcast(targets, replies));
      ok := DeliverAll(view, targets, replies, out, ids);
      Finish(ids, ok, out.close);
      ClaimedThenEnded(before, taken, loaded, repository.log, ids, Served(ok), owed, out);
    }

    /** Which way a pass that has claimed something goes: a failed load, or no cycle, drops it; silence and
        the want of a target park it; otherwise its targets are served, and all were served well or not. */
    ghost predicate GoesBy(verdict: Verdict, view: Option<View>, cycle: Option<Cycle>, chats: map<ChatId, ChatRow>,
                           stored: Settings, fails: bool, out: Outside)
      reads repository
    {
      && (verdict.CycleGone? <==> !(out.found && out.foundAgain && cycle.Some?))
      && (verdict.CycleGone? ==> repository.chats == chats)
      && (!verdict.CycleGone? ==>
            && view.Some? && view.value.cycle == cycle.value && view.value.chats == chats
            && (verdict.Parked? <==> (stored.silent && !fails) || (privateChats == [] && (fails || stored.publicChats == [])))
            && (verdict.Parked? ==> Settled(view.value, {}, out))
            && (!verdict.Parked? ==>
                  var targets, replies := PassTargets(stored, fails), if fails then Replies(true, true) else stored.replies;
                  && verdict.Served?
                  && (verdict.ok <==> forall j | 0 <= j < |targets| :: DeliveryOf(targets[j], view.value, replies, out.answers(j)).ok)
                  && (verdict.ok && (forall j | 0 <= j < |targets| :: !out.written(j).Aborts?) ==>
                        forall j | 0 <= j < |targets| :: AtSnapshot(repository.chats, targets[j].chat, view.value))))
    }

    /** The pass once it has claimed something. */
    method PassOver(claimed: set<nat>, stored: Settings, fails: bool, out: Outside, ghost before: seq<LogEntry>)
        returns (ghost verdict: Verdict, ghost view: Option<View>)
      requires Valid() && state.pass == Claimed(claimed) && Taken(before, repository.log) && out.claim.Commits?
      requires forall i: nat :: i in claimed <==> i < |before| && Claims(before[i])
      modifies this, repository, telegram
      ensures Valid() && old(trace) <= trace && state.stale == old(state.stale) && state.pass.Idle?
      ensures !verdict.NothingToDo? && GoesBy(verdict, view, old(repository.cycle), old(repository.chats), stored, fails, out)
      ensures LeftBy(before, repository.log, verdict, view.Some? && exists c :: IsOwed(view.value, c), out)
      ensures !verdict.Served? ==> SameHistory(telegram.told, old(telegram.told))
    {
      ghost var taken := repository.log;
      var loaded := LoadCycle(out, claimed);
      view := loaded;
      if loaded.None? {
        verdict := CycleGone;
        ghost var mid := repository.log;
        Finish(claimed, true, out.close);
        ClaimedThenEnded(before, taken, mid, repository.log, claimed, CycleGone, false, out);
        return;
      }
      var settings := GetSettings(stored, fails);
      verdict := Parked;
      if settings.silent {
        ParkClaimed(loaded.value, claimed, out, before, taken);
        return;
      }
      var targets := Targets(privateChats, settings.publicChats);
      NoTargets(privateChats, settings.publicChats);
      if targets == [] {
        ParkClaimed(loaded.value, claimed, out, before, taken);
        return;
      }
      var ok := ServeClaimed(loaded.value, targets, settings.replies, claimed, out, before, taken, exists c :: IsOwed(loaded.value, c));
      verdict := Served(ok);
    }

    /** One pass over the cycle, under the per-cycle lock. `stored` are the settings in the table,
        which may fail to be read: the pass then goes on unsilenced, with notices on, to the private
        chats only. */
    method DispatchLocked(stored: Settings, fails: bool, out: Outside) returns (ghost verdict: Verdict, ghost view: Option<View>)
      requires Valid() && state.pass.Idle?
      modifies this, repository, telegram
      ensures Valid() && old(trace) <= trace && state.stale == old(state.stale) && state.pass.Idle?
      ensures verdict.NothingToDo? <==> !out.claim.Commits? || forall entry <- old(repository.log) :: !Claims(entry)
      ensures if verdict.NothingToDo? then repository.chats == old(repository.chats)
              else GoesBy(verdict, view, old(repository.cycle), old(repository.chats), stored, fails, out)
      ensures LeftBy(old(repository.log), repository.log, verdict, view.Some? && exists c :: IsOwed(view.value, c), out)
      ensures !verdict.Served? ==> SameHistory(telegram.told, old(telegram.told))
    {
      verdict, view := NothingToDo, None;
      ghost var before := repository.log;
      var claimed := ClaimWork(out.claim);
      if claimed == {} {
        assert forall i: nat | i < |before| :: !(out.claim.Commits? && Claims(before[i]));
        return;
      }
      assert exists i: nat :: i < |before| && Claims(before[i]);
      verdict, view := PassOver(claimed, stored, fails, out, before);
    }

    /** The targets of a pass: the deployment's private chats, and the public ones if they can be read. */
    function PassTargets(stored: Settings, fails: bool): seq<Target> {
      Kept(Listed(Private, privateChats) + Listed(Public, if fails then [] else stored.publicChats))
    }

    /** Hands stranded entries back and reads whether work is listed. An entry still listed as SENDING
        after a reclaim that failed counts too. */
    method ReclaimAndList(stale: set<nat>, reclaim: Db, answered: bool) returns (listed: bool)
      requires Valid() && state.pass.Idle? && state.stale == {}
      modifies this, repository`log
      ensures Valid() && old(trace) <= trace && state.stale == {} && state.pass.Idle?
      ensures listed <==> answered && exists i: nat :: i < |old(repository.log)| && IsListed(old(repository.log)[i], i in stale)
      ensures |repository.log| == |old(repository.log)|
      ensures forall i | 0 <= i < |repository.log| ::
                var row := old(repository.log)[i];
                repository.log[i] == if i in stale && row.status.SENDING? && !reclaim.Aborts? then row.(status := PENDING) else row
      ensures listed && !reclaim.Aborts? ==> exists entry :: entry in repository.log && Claims(entry)
    {
      ghost var before := repository.log;
      var _ := repository.ReclaimStaleLogs(stale, None, {}, params.maxAttempts, reclaim);
      Advance(FindStale(stale));
      Advance(Reclaim(reclaim));
      listed := answered && (ClaimableIds(repository.log, params.maxAttempts) != {} || StaleSending(repository.log, stale, params.maxAttempts) != {});
      ListedBefore(before, repository.log, stale, reclaim);
    }

    /** One sweep as far as it concerns this cycle: hand stranded entries back, then dispatch if
        work is listed. */
    method Sweep(stale: set<nat>, reclaim: Db, answered: bool, stored: Settings, fails: bool, out: Outside)
        returns (listed: bool, ghost verdict: Verdict, ghost view: Option<View>)
      requires Valid() && state.pass.Idle? && state.stale == {}
      modifies this, repository, telegram
      ensures Valid() && old(trace) <= trace && state.stale == old(state.stale) && state.pass.Idle?
      ensures listed <==> answered && exists i: nat :: i < |old(repository.log)| && IsListed(old(repository.log)[i], i in stale)
      ensures !listed ==>
                && verdict.NothingToDo? && |repository.log| == |old(repository.log)|
                && forall i | 0 <= i < |repository.log| ::
                     var row := old(repository.log)[i];
                     repository.log[i] == if i in stale && row.status.SENDING? && !reclaim.Aborts? then row.(status := PENDING) else row
      ensures listed && !reclaim.Aborts? && out.claim.Commits? ==> !verdict.NothingToDo?
      ensures if verdict.NothingToDo? then repository.chats == old(repository.chats)
              else GoesBy(verdict, view, old(repository.cycle), old(repository.chats), stored, fails, out)
      ensures !verdict.Served? ==> SameHistory(telegram.told, old(telegram.told))
    {
      verdict, view := NothingToDo, None;
      listed := ReclaimAndList(stale, reclaim, answered);
      if listed {
        verdict, view := DispatchLocked(stored, fails, out);
      }
    }

    /** Whether the reclaim got through or not, the same work is listed. */
    lemma ListedBefore(before: seq<LogEntry>, after: seq<LogEntry>, stale: set<nat>, reclaim: Db)
      requires |after| == |before|
      requires forall i | 0 <= i < |after| ::
                 after[i] == if i in stale && before[i].status.SENDING? && !reclaim.Aborts? then before[i].(status := PENDING) else before[i]
      ensures ClaimableIds(after, params.maxAttempts) != {} || StaleSending(after, stale, params.maxAttempts) != {}
              <==> exists i: nat :: i < |before| && IsListed(before[i], i in stale)
      ensures !reclaim.Aborts? && (exists i: nat :: i < |before| && IsListed(before[i], i in stale)) ==>
                exists entry :: entry in after && Claims(entry)
    {
      forall i: nat | i < |before| ensures IsListed(before[i], i in stale) <==> i in ClaimableIds(after, params.maxAttempts) || i in StaleSending(after, stale, params.maxAttempts)
      {
      }
      if i: nat :| i < |before| && IsListed(before[i], i in stale) {
        assert i in ClaimableIds(after, params.maxAttempts) || i in StaleSending(after, stale, params.maxAttempts);
        assert after[i] in after;
      }
    }

    /** An entry the sweeper lists: waiting, or stranded while it was sent, with an attempt left. */
    predicate IsListed(entry: LogEntry, stale: bool) {
      entry.attempts < params.maxAttempts && (entry.status.PENDING? || (entry.status.SENDING? && stale))
    }

    function StaleSending(log: seq<LogEntry>, stale: set<nat>, maxAttempts: nat): set<nat> {
      set i | i in stale && 0 <= i < |log| && log[i].status.SENDING? && log[i].attempts < maxAttempts
    }
  }
}

/** What serving one chat does, said of its row and of Telegram's answers, and which message a chat row
    names. */
module BroadcastServing {
  import opened Wrappers
  import opened BroadcastLog
  import opened BroadcastDelivery
  import BroadcastBounds
  import Life = BroadcastLifecycle

  // ── One chat ───────────────────────────────────────────────────────

  /** The row of the target in the snapshot of the pass. */
  function RowInView(s: State): Option<ChatRow>
    requires s.pass.Delivering? && s.pass.next < |s.pass.targets|
  {
    var c := s.pass.targets[s.pass.next].chat;
    if c in s.pass.view.chats then Some(s.pass.view.chats[c]) else None
  }

  /** The row has fallen behind the cycle, or there is none. */
  predicate IsBehind(s: State)
    requires s.pass.Delivering? && s.pass.next < |s.pass.targets|
  {
    var row := RowInView(s);
    row.None? || row.value.deliveredSeq < s.pass.view.cycle.lastSeq
  }

  /** Its message is edited. */
  predicate Edits(s: State)
    requires s.pass.Delivering? && s.pass.next < |s.pass.targets|
  {
    IsBehind(s) && RowInView(s).Some? && RowInView(s).value.messageId.Some?
  }

  /** A new message is posted: there is none, or it turned out to be gone. */
  predicate Posts(s: State, a: Answers)
    requires s.pass.Delivering? && s.pass.next < |s.pass.targets|
  {
    IsBehind(s) && (!Edits(s) || a.edit.EditMissing?)
  }

  /** The verdict on the chat, and what it was shown: a failed edit or send is a failure, an unanswered
      send one too, and only a send refused outright leaves nothing in the chat. */
  lemma Verdict(s: State, a: Answers)
    requires s.pass.Delivering? && s.pass.next < |s.pass.targets|
    ensures
      var d := DeliveryAt(s, a);
      && (d.ok <==> !IsBehind(s) || (Edits(s) && a.edit.EditOk?) || (Posts(s, a) && a.send.SendOk?))
      && (d.shown <==> (Edits(s) && (a.edit.EditOk? || a.edit.EditUnanswered?)) || d.posted)
      && (d.posted <==> Posts(s, a) && a.send != SendFailed(false))
  {
  }

  /** What is written down: nothing for a chat that is not behind; the snapshot for one that was edited,
      or posted to without a refusal, under the id of its message as far as one is known; and for one
      that failed no more than that it was tried. */
  lemma RowWritten(s: State, a: Answers)
    requires s.pass.Delivering? && s.pass.next < |s.pass.targets|
    ensures
      var d, v := DeliveryAt(s, a), s.pass.view;
      var current := (Edits(s) && a.edit.EditOk?) || (Posts(s, a) && !a.send.SendFailed?);
      && (d.write.Some? <==> IsBehind(s))
      && (d.write.Some? ==>
            var w := d.write.value;
            && w.deliveredSeq == (if current then Some(v.cycle.lastSeq) else None)
            && (w.body.Some? <==> current) && (w.notified.Some? <==> current)
            && (w.body.Some? ==> w.body.value.events == v.cycle.events && w.body.value.status == v.cycle.status)
            && w.messageId == (if Posts(s, a) && a.send.SendOk? then Some(a.send.messageId)
                               else if Edits(s) && a.edit.EditOk? then RowInView(s).value.messageId else None)
            && (current && Posts(s, a) ==> w.notified == Some(|v.cycle.events|)))
  {
  }

  /** Whether the audience of the target gets notices. */
  predicate NoticesOn(s: State)
    requires s.pass.Delivering? && s.pass.next < |s.pass.targets|
  {
    match s.pass.targets[s.pass.next].audience
    case Private => s.pass.replies.privateOn
    case Public => s.pass.replies.publicOn
  }

  predicate Answered(a: Answers, index: nat) {
    index !in a.refused && index !in a.unanswered
  }

  /** Notices go out under an edit that was answered, to an audience that gets them, from the stored
      count on, up to the first that is not answered, which may be in the chat as well. The count
      written is the number of those answered; without notices, all of them. */
  lemma NoticesSent(s: State, a: Answers, k: nat)
    requires s.pass.Delivering? && s.pass.next < |s.pass.targets|
    ensures
      var d, total := DeliveryAt(s, a), |s.pass.view.cycle.events|;
      var counts := Edits(s) && a.edit.EditOk? && NoticesOn(s) && RowInView(s).value.notified.Some?;
      && (k in d.announced <==>
            && counts && RowInView(s).value.notified.value <= k < total
            && (forall j | RowInView(s).value.notified.value <= j < k :: Answered(a, j))
            && (k in a.unanswered || k !in a.refused))
      && (Edits(s) && a.edit.EditOk? && !counts ==> d.write.value.notified == Some(total))
      && (counts && RowInView(s).value.notified.value <= k < total ==>
            (k < d.write.value.notified.value <==> forall j | RowInView(s).value.notified.value <= j <= k :: Answered(a, j)))
  {
    if Edits(s) && a.edit.EditOk? && NoticesOn(s) && RowInView(s).value.notified.Some? {
      StopsAtTheFirst(RowInView(s).value.notified.value, |s.pass.view.cycle.events|, a, k);
    }
  }

  /** How far a run of notices gets, in the chat and in the count. */
  lemma StopsAtTheFirst(from: nat, total: nat, a: Answers, k: nat)
    ensures k in Range(from, Reached(from, total, a)) <==>
              from <= k < total && (forall j | from <= j < k :: Answered(a, j)) && (k in a.unanswered || k !in a.refused)
    ensures from <= k < total ==>
              (k < FirstRefused(from, total, a.refused + a.unanswered) <==> forall j | from <= j <= k :: Answered(a, j))
  {
    var stop, sent := FirstRefused(from, total, a.refused + a.unanswered), Range(from, Reached(from, total, a));
    assert forall j | from <= j < stop :: Answered(a, j);
    assert stop < total ==> !Answered(a, stop);
    assert from <= k < from + |sent| ==> sent[k - from] == k;
  }

  // ── Which message a chat row names ─────────────────────────────────

  /** The id of the new message this step posts to the chat and writes down. */
  function PostedBy(s: State, e: Step, c: ChatId): Option<nat> {
    if e.DeliverNext? && e.fate.Committed? && s.pass.Delivering? && s.pass.next < |s.pass.targets|
       && s.pass.targets[s.pass.next].chat == c && Posts(s, e.answers) && e.answers.send.SendOk?
    then Some(e.answers.send.messageId) else None
  }

  /** The newest of those ids over a run. */
  ghost function NewestId(p: Params, s: State, steps: seq<Step>, c: ChatId): Option<nat>
    decreases |steps|
  {
    if steps == [] || |s.marks| != |s.tables.log| || !CanStep(p, s, steps[0]) then None
    else
      var later := NewestId(p, Next(p, s, steps[0]), steps[1..], c);
      if later.Some? then later else PostedBy(s, steps[0], c)
  }

  function IdOf(s: State, c: ChatId): Option<nat> {
    if c in s.tables.chats then s.tables.chats[c].messageId else None
  }

  /** A chat's row goes on to name the message just posted, or the one it named, except at one step: an
      edit is answered well and written down although the row has come to name another message since
      the pass loaded it. */
  lemma IdGoesBackIff(p: Params, s: State, e: Step, c: ChatId)
    requires |s.marks| == |s.tables.log| && CanStep(p, s, e)
    ensures
      var posted := PostedBy(s, e, c);
      IdOf(Next(p, s, e), c) != (if posted.Some? then posted else IdOf(s, c)) <==>
        && e.DeliverNext? && e.fate.Committed? && s.pass.targets[s.pass.next].chat == c
        && Edits(s) && e.answers.edit.EditOk? && IdOf(s, c) != RowInView(s).value.messageId
  {
    if e.DeliverNext? {
      DeliveredId(s, e.answers, e.fate, c);
    } else {
      OthersKeepId(p, s, e, c);
    }
  }

  lemma DeliveredId(s: State, a: Answers, fate: Fate, c: ChatId)
    requires s.pass.Delivering? && s.pass.next < |s.pass.targets|
    ensures
      IdOf(DeliverStep(s, a, fate), c) ==
        if !fate.Committed? || s.pass.targets[s.pass.next].chat != c then IdOf(s, c)
        else if Posts(s, a) && a.send.SendOk? then Some(a.send.messageId)
        else if Edits(s) && a.edit.EditOk? then RowInView(s).value.messageId
        else IdOf(s, c)
  {
    RowWritten(s, a);
  }

  lemma OthersKeepId(p: Params, s: State, e: Step, c: ChatId)
    requires |s.marks| == |s.tables.log| && CanStep(p, s, e) && !e.DeliverNext?
    ensures IdOf(Next(p, s, e), c) == IdOf(s, c)
  {
    if !e.ParkChat? {
      assert Next(p, s, e).tables.chats == s.tables.chats;
    }
  }

  /** The pass names this chat at most once. */
  predicate NamedOnce(targets: seq<Target>, c: ChatId) {
    forall j, k | 0 <= j < k < |targets| :: targets[j].chat != c || targets[k].chat != c
  }

  ghost predicate NamesOnce(e: Step, c: ChatId) {
    e.Broadcast? ==> NamedOnce(e.targets, c)
  }

  /** A pass that has yet to serve the chat knows its message. */
  ghost predicate IdKnown(s: State, c: ChatId) {
    s.pass.Delivering? ==>
      && NamedOnce(s.pass.targets, c)
      && forall j | s.pass.next <= j < |s.pass.targets| && s.pass.targets[j].chat == c ::
           Existing(s.pass.view.chats, c) == Existing(s.tables.chats, c)
  }

  lemma DeliverKeepsId(s: State, a: Answers, fate: Fate, c: ChatId)
    requires IdKnown(s, c) && s.pass.Delivering? && s.pass.next < |s.pass.targets|
    ensures IdKnown(DeliverStep(s, a, fate), c)
    ensures
      var posted := PostedBy(s, DeliverNext(a, fate), c);
      IdOf(DeliverStep(s, a, fate), c) == if posted.Some? then posted else IdOf(s, c)
  {
    RowWritten(s, a);
  }

  lemma NextKeepsId(p: Params, s: State, e: Step, c: ChatId)
    requires BroadcastBounds.Inv(s) && |s.marks| == |s.tables.log| && CanStep(p, s, e) && IdKnown(s, c) && NamesOnce(e, c)
    ensures IdKnown(Next(p, s, e), c)
    ensures
      var posted := PostedBy(s, e, c);
      IdOf(Next(p, s, e), c) == if posted.Some? then posted else IdOf(s, c)
  {
    if e.DeliverNext? {
      DeliverKeepsId(s, e.answers, e.fate, c);
    } else {
      OthersKeepId(p, s, e, c);
      OthersKnowId(p, s, e, c);
    }
  }

  lemma OthersKnowId(p: Params, s: State, e: Step, c: ChatId)
    requires BroadcastBounds.Inv(s) && |s.marks| == |s.tables.log| && CanStep(p, s, e) && !e.DeliverNext?
    requires IdKnown(s, c) && NamesOnce(e, c)
    ensures IdKnown(Next(p, s, e), c)
  {
    if e.ParkChat? {
      assert !Next(p, s, e).pass.Delivering?;
    } else {
      assert Next(p, s, e).tables.chats == s.tables.chats;
    }
  }

  lemma {:induction false} IdOverRuns(p: Params, s: State, steps: seq<Step>, s': State, c: ChatId)
    requires Life.Inv(p, s) && BroadcastBounds.Inv(s) && IdKnown(s, c)
    requires IsRun(p, s, steps, s') && forall e <- steps :: NamesOnce(e, c)
    ensures IdOf(s', c) == if NewestId(p, s, steps, c).Some? then NewestId(p, s, steps, c) else IdOf(s, c)
    decreases |steps|
  {
    if steps != [] {
      assert NamesOnce(steps[0], c);
      BroadcastBounds.LifeGivesBasics(p, s);
      NextKeepsId(p, s, steps[0], c);
      BroadcastBounds.NextKeeps(p, s, steps[0]);
      Life.NextKeeps(p, s, steps[0]);
      IdOverRuns(p, Next(p, s, steps[0]), steps[1..], s', c);
    }
  }

  /** Over every run whose passes name the chat at most once each, its row names the newest message
      that was posted there, answered with an id, and written down. */
  lemma StoredIdIsTheNewest(p: Params, steps: seq<Step>, s: State, c: ChatId)
    requires IsRun(p, BroadcastDelivery.Initial(), steps, s) && forall e <- steps :: NamesOnce(e, c)
    ensures IdOf(s, c) == NewestId(p, BroadcastDelivery.Initial(), steps, c)
  {
    IdOverRuns(p, BroadcastDelivery.Initial(), steps, s, c);
  }
}

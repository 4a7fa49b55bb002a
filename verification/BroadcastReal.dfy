/** A DELIVERED entry is really delivered: every chat holding a message shows a body at least as
    new. `Harmful` is the exact list of steps after which that can break. Everything else may
    happen: crashes anywhere, lost replies, failed claims and closes, reclaims during a pass,
    failed row writes of chats that owe nothing to the pass, settings that change between passes. */
module BroadcastReal {
  import opened Wrappers
  import opened BroadcastLog
  import opened BroadcastDelivery
  import opened BroadcastBounds
  import Life = BroadcastLifecycle

  /** The chat holds a message older than one of the entries `ids`. */
  ghost predicate Owes(chats: map<ChatId, ChatRow>, ids: set<nat>, c: ChatId) {
    c in chats && chats[c].messageId.Some? && exists i <- ids :: chats[c].deliveredSeq <= i
  }

  /** One of the targets from position `from` on is this chat. */
  predicate AmongFrom(targets: seq<Target>, from: nat, c: ChatId) {
    exists k :: from <= k < |targets| && targets[k].chat == c
  }

  /** The steps that can end with an entry DELIVERED over a stale chat:
      a load that fails while a posted message is older than a claimed entry;
      a pass whose targets leave out such a message;
      a delivery that succeeds so far but is not written down, the last of the pass for its chat,
      when the chat's row holds such a message. */
  ghost predicate Harmful(s: State, e: Step) {
    match e
    case Load(found) => !found && (s.pass.Claimed? || s.pass.Reading?) && exists c :: Owes(s.tables.chats, s.pass.ids, c)
    case Broadcast(targets, _) =>
      s.pass.Loaded? && exists c :: Owes(s.tables.chats, s.pass.ids, c) && !AmongFrom(targets, 0, c)
    case DeliverNext(a, fate) =>
      && fate.NotStored? && s.pass.Delivering? && s.pass.next < |s.pass.targets|
      && s.pass.ok && DeliveryAt(s, a).ok
      && Owes(s.tables.chats, s.pass.ids, s.pass.targets[s.pass.next].chat)
      && !AmongFrom(s.pass.targets, s.pass.next + 1, s.pass.targets[s.pass.next].chat)
    case _ => false
  }

  ghost predicate HarmlessRun(p: Params, s: State, steps: seq<Step>, s': State)
    decreases |steps|
  {
    if steps == [] then s == s'
    else
      && |s.marks| == |s.tables.log| && CanStep(p, s, steps[0]) && !Harmful(s, steps[0])
      && HarmlessRun(p, Next(p, s, steps[0]), steps[1..], s')
  }

  ghost predicate ReallyDelivered(t: Tables) {
    forall i, c | 0 <= i < |t.log| && t.log[i].status.DELIVERED? && c in t.chats && t.chats[c].messageId.Some? ::
      i < t.chats[c].deliveredSeq
  }

  ghost predicate PassTruthful(s: State) {
    match s.pass
    case Closing(ids) => forall c :: !Owes(s.tables.chats, ids, c)
    case Delivering(ids, _, targets, _, next, ok) =>
      ok ==> forall c | Owes(s.tables.chats, ids, c) :: AmongFrom(targets, next, c)
    case _ => true
  }

  ghost predicate Inv(s: State) {
    ReallyDelivered(s.tables) && PassTruthful(s)
  }

  // ── Harmless steps keep it ─────────────────────────────────────────

  /** A committed delivery leaves its chat owing nothing, if it went well, and no other chat more. */
  lemma WriteSettles(s: State, a: Answers, c: ChatId)
    requires BroadcastBounds.Inv(s) && s.pass.Delivering? && s.pass.next < |s.pass.targets|
    requires Owes(DeliverStep(s, a, Committed).tables.chats, s.pass.ids, c) && DeliveryAt(s, a).ok
    ensures Owes(s.tables.chats, s.pass.ids, c) && c != s.pass.targets[s.pass.next].chat
  {
    DeliveryWrites(s, a);
  }

  lemma WriteKeepsDelivered(s: State, a: Answers, fate: Fate)
    requires BroadcastBounds.Inv(s) && ReallyDelivered(s.tables) && s.pass.Delivering? && s.pass.next < |s.pass.targets|
    ensures ReallyDelivered(DeliverStep(s, a, fate).tables)
  {
    DeliveryWrites(s, a);
    DeliverKeeps(s, a, fate);
  }

  lemma DeliverTruthful(s: State, a: Answers, fate: Fate)
    requires BroadcastBounds.Inv(s) && Inv(s) && s.pass.Delivering? && s.pass.next < |s.pass.targets|
    requires !Harmful(s, DeliverNext(a, fate))
    ensures Inv(DeliverStep(s, a, fate))
  {
    var s', next := DeliverStep(s, a, fate), s.pass.next;
    WriteKeepsDelivered(s, a, fate);
    if s'.pass.Delivering? && s'.pass.ok {
      forall c | Owes(s'.tables.chats, s.pass.ids, c) ensures AmongFrom(s.pass.targets, next + 1, c) {
        if fate.Committed? {
          WriteSettles(s, a, c);
        }
        assert AmongFrom(s.pass.targets, next, c);
      }
    }
  }

  lemma ParkTruthful(s: State, chat: ChatId, fate: Fate)
    requires BroadcastBounds.Inv(s) && Inv(s) && s.pass.Parking? && chat in s.pass.left && chat in s.pass.view.chats
    ensures Inv(ParkStep(s, chat, fate))
  {
  }

  lemma CloseTruthful(p: Params, s: State, db: Db)
    requires Inv(s) && Basics(s) && CanStep(p, s, Close(db))
    ensures Inv(CloseStep(p, s, db))
  {
    var s' := CloseStep(p, s, db);
    forall i, c | 0 <= i < |s'.tables.log| && s'.tables.log[i].status.DELIVERED? && c in s'.tables.chats && s'.tables.chats[c].messageId.Some?
      ensures i < s'.tables.chats[c].deliveredSeq
    {
      if !s.tables.log[i].status.DELIVERED? {
        assert i in s.pass.ids && !Owes(s.tables.chats, s.pass.ids, c);
      }
    }
  }

  lemma ParkedNobodyOwes(s: State, c: ChatId)
    requires BroadcastBounds.Inv(s) && s.pass.Loaded? && Behind(s.pass.view) == {}
    ensures !Owes(s.tables.chats, s.pass.ids, c)
  {
    assert c !in Behind(s.pass.view);
  }

  lemma MovesOn(p: Params, s: State, e: Step)
    requires BroadcastBounds.Inv(s) && Inv(s) && CanStep(p, s, e) && |s.marks| == |s.tables.log| && !Harmful(s, e)
    requires e.Load? || e.Read? || e.ReadWorkers? || e.Broadcast? || e.Park?
    ensures Inv(Next(p, s, e))
  {
    if e.Park? && Behind(s.pass.view) == {} {
      forall c ensures !Owes(s.tables.chats, s.pass.ids, c) {
        ParkedNobodyOwes(s, c);
      }
    }
  }

  /** The writers, the claim, the sweeper and a crash deliver nothing and touch no chat. */
  lemma OthersKeep(p: Params, s: State, e: Step)
    requires Inv(s) && Basics(s) && CanStep(p, s, e)
    requires e.Record? || e.Execute? || e.Claim? || e.FindStale? || e.Reclaim? || e.Crash?
    ensures Inv(Next(p, s, e))
  {
    var s' := Next(p, s, e);
    assert s'.tables.chats == s.tables.chats;
    assert forall i | 0 <= i < |s'.tables.log| && s'.tables.log[i].status.DELIVERED? ::
             i < |s.tables.log| && s.tables.log[i].status.DELIVERED?;
  }

  lemma NextKeeps(p: Params, s: State, e: Step)
    requires BroadcastBounds.Inv(s) && Inv(s) && Basics(s) && CanStep(p, s, e) && !Harmful(s, e)
    ensures Inv(Next(p, s, e))
  {
    match e
    case DeliverNext(a, fate) => DeliverTruthful(s, a, fate);
    case ParkChat(chat, fate) => ParkTruthful(s, chat, fate);
    case Close(db) => CloseTruthful(p, s, db);
    case Load(_) => MovesOn(p, s, e);
    case Read => MovesOn(p, s, e);
    case ReadWorkers => MovesOn(p, s, e);
    case Broadcast(_, _) => MovesOn(p, s, e);
    case Park => MovesOn(p, s, e);
    case _ => OthersKeep(p, s, e);
  }

  /** The invariants together, as the runs need them. */
  ghost predicate AllInv(p: Params, s: State) {
    Life.Inv(p, s) && BroadcastBounds.Inv(s) && Inv(s)
  }

  lemma {:induction false} RunKeeps(p: Params, s: State, steps: seq<Step>, s': State)
    requires AllInv(p, s) && HarmlessRun(p, s, steps, s')
    ensures AllInv(p, s')
    decreases |steps|
  {
    if steps != [] {
      LifeGivesBasics(p, s);
      NextKeeps(p, s, steps[0]);
      BroadcastBounds.NextKeeps(p, s, steps[0]);
      Life.NextKeeps(p, s, steps[0]);
      RunKeeps(p, Next(p, s, steps[0]), steps[1..], s');
    }
  }

  // ── Harmful steps break it ─────────────────────────────────────────

  const ALL_WELL := Answers(EditOk, SendOk(1), {}, {})

  /** The rest of a pass that goes well but never serves `c`: its entries end up DELIVERED, and the
      row of `c` stays as it is. */
  lemma {:induction false} FinishedWithout(p: Params, s: State, c: ChatId) returns (rest: seq<Step>, s': State)
    requires Life.Inv(p, s) && s.pass.Delivering? && s.pass.ok && s.pass.next <= |s.pass.targets|
    requires Owes(s.tables.chats, s.pass.ids, c) && !AmongFrom(s.pass.targets, s.pass.next, c)
    ensures HarmlessRun(p, s, rest, s') && !ReallyDelivered(s'.tables)
    decreases if s.pass.Delivering? then |s.pass.targets| - s.pass.next else 0
  {
    var e := if s.pass.next == |s.pass.targets| then Close(Commits) else DeliverNext(ALL_WELL, Committed);
    var mid := Next(p, s, e);
    if e.Close? {
      rest, s' := [e], mid;
      assert HarmlessRun(p, mid, [], mid) && rest[1..] == [];
      ClosedOver(p, s, c);
    } else {
      Life.NextKeeps(p, s, e);
      assert s.pass.targets[s.pass.next].chat != c;
      assert !AmongFrom(mid.pass.targets, mid.pass.next, c);
      assert mid.tables.chats[c] == s.tables.chats[c];
      rest, s' := FinishedWithout(p, mid, c);
      assert ([e] + rest)[1..] == rest;
      rest := [e] + rest;
    }
  }

  /** A close over a chat that owes. */
  lemma ClosedOver(p: Params, s: State, c: ChatId)
    requires Life.Inv(p, s) && Owes(s.tables.chats, Life.Held(s), c)
    requires s.pass.Closing? || (s.pass.Delivering? && s.pass.ok)
    ensures !ReallyDelivered(CloseStep(p, s, Commits).tables)
  {
    var i :| i in s.pass.ids && s.tables.chats[c].deliveredSeq <= i;
    assert i in Life.Held(s);
    var s' := CloseStep(p, s, Commits);
    assert s'.tables.log[i].status.DELIVERED? && c in s'.tables.chats && s'.tables.chats[c].messageId.Some?;
  }

  /** From any reachable state, a harmful step needs nothing but a healthy rest of the pass to leave
      an entry DELIVERED that some chat with a message was not shown. */
  lemma HarmfulStepBreaks(p: Params, s: State, e: Step) returns (rest: seq<Step>, s': State)
    requires Reachable(p, s) && |s.marks| == |s.tables.log| && CanStep(p, s, e) && Harmful(s, e)
    ensures HarmlessRun(p, Next(p, s, e), rest, s') && !ReallyDelivered(s'.tables)
  {
    ReachableSound(p, s);
    LifeGoesOn(p, s, e);
    rest, s' := BrokenBy(p, s, e);
  }

  lemma LifeGoesOn(p: Params, s: State, e: Step)
    requires Life.Inv(p, s) && CanStep(p, s, e)
    ensures Life.Inv(p, Next(p, s, e))
  {
    Life.NextKeeps(p, s, e);
  }

  lemma FailedLoadCloses(p: Params, s: State)
    requires |s.marks| == |s.tables.log| && CanStep(p, s, Load(false))
    ensures Next(p, s, Load(false)) == s.(pass := Closing(s.pass.ids))
  {
  }

  lemma HarmlessOne(p: Params, s: State, e: Step, s': State)
    requires |s.marks| == |s.tables.log| && CanStep(p, s, e) && !Harmful(s, e) && s' == Next(p, s, e)
    ensures HarmlessRun(p, s, [e], s')
  {
    assert HarmlessRun(p, s', [], s') && [e][1..] == [];
  }

  lemma ClosingBreaks(p: Params, s: State, c: ChatId) returns (rest: seq<Step>, s': State)
    requires Life.Inv(p, s) && |s.marks| == |s.tables.log| && s.pass.Closing? && Owes(s.tables.chats, Life.Held(s), c)
    ensures HarmlessRun(p, s, rest, s') && !ReallyDelivered(s'.tables)
  {
    ClosedOver(p, s, c);
    rest, s' := [Close(Commits)], CloseStep(p, s, Commits);
    HarmlessOne(p, s, Close(Commits), s');
  }

  lemma LoadBreaks(p: Params, s: State) returns (rest: seq<Step>, s': State)
    requires Life.Inv(p, s) && CanStep(p, s, Load(false)) && Harmful(s, Load(false))
    requires Life.Inv(p, Next(p, s, Load(false)))
    ensures HarmlessRun(p, Next(p, s, Load(false)), rest, s') && !ReallyDelivered(s'.tables)
  {
    var c :| Owes(s.tables.chats, s.pass.ids, c);
    FailedLoadCloses(p, s);
    rest, s' := ClosingBreaks(p, Next(p, s, Load(false)), c);
  }

  lemma BroadcastBreaks(p: Params, s: State, e: Step) returns (rest: seq<Step>, s': State)
    requires Life.Inv(p, s) && CanStep(p, s, e) && e.Broadcast? && Harmful(s, e) && Life.Inv(p, Next(p, s, e))
    ensures HarmlessRun(p, Next(p, s, e), rest, s') && !ReallyDelivered(s'.tables)
  {
    var c :| Owes(s.tables.chats, s.pass.ids, c) && !AmongFrom(e.targets, 0, c);
    rest, s' := FinishedWithout(p, Next(p, s, e), c);
  }

  lemma UnstoredBreaks(p: Params, s: State, e: Step) returns (rest: seq<Step>, s': State)
    requires Life.Inv(p, s) && CanStep(p, s, e) && e.DeliverNext? && Harmful(s, e) && Life.Inv(p, Next(p, s, e))
    ensures HarmlessRun(p, Next(p, s, e), rest, s') && !ReallyDelivered(s'.tables)
  {
    rest, s' := FinishedWithout(p, Next(p, s, e), s.pass.targets[s.pass.next].chat);
  }

  lemma BrokenBy(p: Params, s: State, e: Step) returns (rest: seq<Step>, s': State)
    requires Life.Inv(p, s) && CanStep(p, s, e) && Harmful(s, e) && Life.Inv(p, Next(p, s, e))
    ensures HarmlessRun(p, Next(p, s, e), rest, s') && !ReallyDelivered(s'.tables)
  {
    match e
    case Load(_) => rest, s' := LoadBreaks(p, s);
    case Broadcast(_, _) => rest, s' := BroadcastBreaks(p, s, e);
    case DeliverNext(_, _) => rest, s' := UnstoredBreaks(p, s, e);
  }

  // ── The guarantees ─────────────────────────────────────────────────

  /** Over every run without a harmful step, DELIVERED means what it says. */
  lemma DeliveredMeansDelivered(p: Params, steps: seq<Step>, s: State)
    requires HarmlessRun(p, BroadcastDelivery.Initial(), steps, s)
    ensures forall i, c | 0 <= i < |s.tables.log| && s.tables.log[i].status.DELIVERED?
                          && c in s.tables.chats && s.tables.chats[c].messageId.Some? ::
              s.tables.chats[c].deliveredSeq >= s.tables.log[i].seqNo
  {
    RunKeeps(p, BroadcastDelivery.Initial(), steps, s);
  }

  /** The condition is exact: a step can be followed by a harmless run into a state that calls a
      stale chat delivered if and only if the step is harmful. */
  lemma HarmfulIff(p: Params, steps: seq<Step>, s: State, e: Step)
    requires HarmlessRun(p, BroadcastDelivery.Initial(), steps, s)
    requires |s.marks| == |s.tables.log| && CanStep(p, s, e)
    ensures Harmful(s, e) <==> CanBreakAfter(p, Next(p, s, e))
  {
    RunKeeps(p, BroadcastDelivery.Initial(), steps, s);
    if Harmful(s, e) {
      LifeGoesOn(p, s, e);
      var rest, s' := BrokenBy(p, s, e);
    } else {
      LifeGivesBasics(p, s);
      NextKeeps(p, s, e);
      BroadcastBounds.NextKeeps(p, s, e);
      LifeGoesOn(p, s, e);
      NeverBreaks(p, Next(p, s, e));
    }
  }

  ghost predicate CanBreakAfter(p: Params, s: State) {
    exists rest, s' :: HarmlessRun(p, s, rest, s') && !ReallyDelivered(s'.tables)
  }

  lemma NeverBreaks(p: Params, s: State)
    requires AllInv(p, s)
    ensures !CanBreakAfter(p, s)
  {
    forall rest, s' | HarmlessRun(p, s, rest, s') ensures ReallyDelivered(s'.tables) {
      RunKeeps(p, s, rest, s');
    }
  }
}

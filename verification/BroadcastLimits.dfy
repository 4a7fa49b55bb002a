/** Where the delivery guarantees end: runs from the start that cross the line `BroadcastReal`,
    `BroadcastOnce` and `BroadcastNotices` draw, and two places where the code does not do what its
    documentation says, each with a run that gets there and the exact condition. */
module BroadcastLimits {
  import opened Wrappers
  import opened BroadcastStatus
  import opened BroadcastLog
  import opened BroadcastDelivery
  import opened BroadcastBounds
  import Life = BroadcastLifecycle
  import Passes = BroadcastPasses

  const FIVE := Params(5)
  const PUBLIC := Target(Public, "c")
  const BOTH_ON := Replies(true, true)
  const ALL_WELL := Answers(EditOk, SendOk(1), {}, {})

  function Signal(action: Action, timestamp: nat): Step {
    Record(Event(action, timestamp, 0))
  }

  // ── The first pass of a cycle ──────────────────────────────────────

  /** One signal recorded: the log holds its entry, and no chat holds anything. */
  lemma FirstSignal(p: Params) returns (steps: seq<Step>, s: State)
    ensures IsRun(p, Initial(), steps, s) && s.pass.Idle?
    ensures s.tables.log == [NewEntry(1, SignalChange(Event(LONG, 0, 0)))] && |s.marks| == 1
    ensures s.tables.cycle == Some(Cycle([Event(LONG, 0, 0)], Name(LONG), LONG, RUNNING, 1))
    ensures s.tables.chats == map[] && s.tables.workers == map[] && s.told == map[] && s.stale == {}
  {
    steps, s := OneStep(p, Initial(), [], Initial(), Signal(LONG, 0));
  }

  lemma Claimed(p: Params, steps: seq<Step>, s: State, ids: set<nat>) returns (longer: seq<Step>, s': State)
    requires IsRun(p, Initial(), steps, s) && s.pass.Idle? && |s.marks| == |s.tables.log|
    requires ClaimableIds(s.tables.log, p.maxAttempts) == ids != {}
    ensures IsRun(p, Initial(), longer, s') && longer == steps + [Claim(Commits)]
    ensures s' == ClaimNext(p, s, Commits) && s'.pass == BroadcastDelivery.Pass.Claimed(ids)
  {
    longer, s' := OneStep(p, Initial(), steps, s, Claim(Commits));
  }

  /** A claimed cycle loaded, and its pass over these targets under way. */
  lemma UnderWay(p: Params, steps: seq<Step>, s: State, targets: seq<Target>) returns (longer: seq<Step>, s': State)
    requires IsRun(p, Initial(), steps, s) && s.pass.Claimed? && |s.marks| == |s.tables.log| && s.tables.cycle.Some? && targets != []
    ensures IsRun(p, Initial(), longer, s') && |s'.marks| == |s'.tables.log|
    ensures s' == s.(pass := Delivering(s.pass.ids, View(s.tables.cycle.value, s.tables.workers, s.tables.chats), targets, BOTH_ON, 0, true))
  {
    longer, s' := OneStep(p, Initial(), steps, s, Load(true));
    longer, s' := OneStep(p, Initial(), longer, s', Broadcast(targets, BOTH_ON));
  }

  /** A pass about to serve its first target, with the first signal claimed. */
  lemma FirstPass(p: Params, targets: seq<Target>) returns (steps: seq<Step>, s: State)
    requires p.maxAttempts > 0 && targets != []
    ensures IsRun(p, Initial(), steps, s)
    ensures |s.tables.log| == |s.marks| == 1 && s.tables.log[0].status.SENDING? && s.tables.log[0].attempts == 1
    ensures s.tables.cycle == Some(Cycle([Event(LONG, 0, 0)], Name(LONG), LONG, RUNNING, 1))
    ensures s.tables.chats == map[] && s.told == map[] && s.stale == {}
    ensures s.pass == Delivering({0}, View(s.tables.cycle.value, s.tables.workers, map[]), targets, BOTH_ON, 0, true)
  {
    steps, s := FirstSignal(p);
    steps, s := Claimed(p, steps, s, {0});
    steps, s := UnderWay(p, steps, s, targets);
  }

  /** One signal recorded and posted to the one chat. */
  lemma FirstPost() returns (steps: seq<Step>, s: State)
    ensures IsRun(FIVE, Initial(), steps, s) && s.pass.Idle?
    ensures |s.tables.log| == |s.marks| == 1 && s.tables.log[0].status.DELIVERED?
    ensures s.tables.cycle.Some? && s.tables.cycle.value.lastSeq == 1 && s.tables.cycle.value.events == [Event(LONG, 0, 0)]
    ensures s.tables.chats.Keys == {"c"}
    ensures s.tables.chats["c"].messageId == Some(1) && s.tables.chats["c"].deliveredSeq == 1
    ensures s.tables.chats["c"].notified == Some(1) && ToldOf(s.told, "c").announced == []
  {
    steps, s := FirstPass(FIVE, [PUBLIC]);
    steps, s := OneStep(FIVE, Initial(), steps, s, DeliverNext(ALL_WELL, Committed));
    steps, s := OneStep(FIVE, Initial(), steps, s, Close(Commits));
  }

  /** A second signal recorded, not yet claimed, with the first one posted. */
  lemma SecondSignal() returns (steps: seq<Step>, s: State)
    ensures IsRun(FIVE, Initial(), steps, s) && s.pass.Idle?
    ensures |s.tables.log| == |s.marks| == 2 && s.tables.log[0].status.DELIVERED?
    ensures s.tables.log[1].status.PENDING? && s.tables.log[1].attempts == 0
    ensures s.tables.cycle.Some? && s.tables.cycle.value.lastSeq == 2
    ensures |s.tables.cycle.value.events| == 2 && s.tables.cycle.value.events[1] == Event(SL, 1, 0)
    ensures Passes.BehindIn(s.tables, "c") && s.tables.chats.Keys == {"c"}
    ensures s.tables.chats["c"].messageId == Some(1)
    ensures s.tables.chats["c"].deliveredSeq == 1 && s.tables.chats["c"].notified == Some(1) && ToldOf(s.told, "c").announced == []
  {
    steps, s := FirstPost();
    steps, s := OneStep(FIVE, Initial(), steps, s, Signal(SL, 1));
  }

  /** The second signal claimed. */
  lemma SecondSignalClaimed() returns (steps: seq<Step>, s: State)
    ensures IsRun(FIVE, Initial(), steps, s) && s.pass == BroadcastDelivery.Pass.Claimed({1})
    ensures |s.tables.log| == |s.marks| == 2 && s.tables.log[0].status.DELIVERED?
    ensures s.tables.log[1].status.SENDING? && s.tables.log[1].attempts == 1
    ensures s.tables.cycle.Some? && s.tables.cycle.value.lastSeq == 2
    ensures |s.tables.cycle.value.events| == 2 && s.tables.cycle.value.events[1] == Event(SL, 1, 0)
    ensures s.tables.chats.Keys == {"c"}
    ensures s.tables.chats["c"].messageId == Some(1) && s.tables.chats["c"].deliveredSeq == 1
    ensures s.tables.chats["c"].notified == Some(1) && ToldOf(s.told, "c").announced == []
  {
    steps, s := SecondSignal();
    steps, s := Claimed(FIVE, steps, s, {1});
  }

  // ── DELIVERED over a stale chat ────────────────────────────────────

  /** The second entry reads DELIVERED, and the chat has a message that never showed it. */
  ghost predicate CalledDelivered(s: State) {
    && |s.tables.log| == 2 && s.tables.log[1].status.DELIVERED?
    && "c" in s.tables.chats && s.tables.chats["c"].messageId.Some? && s.tables.chats["c"].deliveredSeq == 1
  }

  /** The load fails once. */
  lemma FailedLoadLosesAnEdit() returns (s: State)
    ensures Reachable(FIVE, s) && CalledDelivered(s)
  {
    var steps;
    steps, s := SecondSignalClaimed();
    steps, s := OneStep(FIVE, Initial(), steps, s, Load(false));
    steps, s := OneStep(FIVE, Initial(), steps, s, Close(Commits));
  }

  /** The edit goes through but the chat row cannot be written. */
  lemma UnstoredEditLeavesAStaleRow() returns (s: State)
    ensures Reachable(FIVE, s) && CalledDelivered(s)
  {
    var steps;
    steps, s := SecondSignalClaimed();
    steps, s := UnderWay(FIVE, steps, s, [PUBLIC]);
    steps, s := OneStep(FIVE, Initial(), steps, s, DeliverNext(ALL_WELL, NotStored));
    steps, s := OneStep(FIVE, Initial(), steps, s, Close(Commits));
  }

  /** The settings cannot be read: the pass serves the private chats of the deployment only, and the
      public one is left stale without a failure. */
  lemma FailedSettingsReadLosesAnEdit() returns (s: State)
    ensures Reachable(FIVE, s) && CalledDelivered(s)
  {
    var steps;
    steps, s := SecondSignalClaimed();
    steps, s := UnderWay(FIVE, steps, s, [Target(Private, "p")]);
    steps, s := OneStep(FIVE, Initial(), steps, s, DeliverNext(ALL_WELL, Committed));
    steps, s := OneStep(FIVE, Initial(), steps, s, Close(Commits));
  }

  // ── A body posted twice ────────────────────────────────────────────

  /** A sweep that finds these entries, with nothing in between. */
  lemma SweptUp(p: Params, steps: seq<Step>, s: State, ids: set<nat>) returns (longer: seq<Step>, s': State)
    requires IsRun(p, Initial(), steps, s) && |s.marks| == |s.tables.log| && s.stale == {}
    ensures IsRun(p, Initial(), longer, s') && |s'.marks| == |s'.tables.log| && s'.stale == {}
    ensures s'.tables == s.tables.(log := LogReclaimed(s.tables.log, FoundStale(s.tables.log, ids)))
    ensures s'.told == s.told && s'.pass == s.pass
  {
    longer, s' := OneStep(p, Initial(), steps, s, FindStale(ids));
    longer, s' := OneStep(p, Initial(), longer, s', Reclaim(Commits));
  }

  /** A send answered with an error although the message was posted: the same body is posted again.
      Nothing crashes and every transaction commits. */
  lemma FailedSendIsPostedTwice() returns (s: State)
    ensures Reachable(FIVE, s) && ToldOf(s.told, "c").posts == [1, 1]
  {
    var steps;
    steps, s := FirstPass(FIVE, [PUBLIC]);
    steps, s := OneStep(FIVE, Initial(), steps, s, DeliverNext(ALL_WELL.(send := SendFailed(true)), Committed));
    steps, s := OneStep(FIVE, Initial(), steps, s, Close(Commits));
    steps, s := Claimed(FIVE, steps, s, {0});
    steps, s := UnderWay(FIVE, steps, s, [PUBLIC]);
    steps, s := OneStep(FIVE, Initial(), steps, s, DeliverNext(ALL_WELL, Committed));
  }

  /** The process dies between the post and the write of its row: the same body is posted again. */
  lemma DeathBeforeTheWriteRepeatsAPost() returns (s: State)
    ensures Reachable(FIVE, s) && ToldOf(s.told, "c").posts == [1, 1]
  {
    var steps;
    steps, s := FirstPass(FIVE, [PUBLIC]);
    steps, s := OneStep(FIVE, Initial(), steps, s, DeliverNext(ALL_WELL, Died));
    steps, s := SweptUp(FIVE, steps, s, {0});
    steps, s := Claimed(FIVE, steps, s, {0});
    steps, s := UnderWay(FIVE, steps, s, [PUBLIC]);
    steps, s := OneStep(FIVE, Initial(), steps, s, DeliverNext(ALL_WELL, Committed));
  }

  /** A pass names the chat twice. Its message is gone and a new one posted, and then an edit of the old
      one is answered well: the row names the old message again. */
  lemma RepeatedTargetForgetsTheNewMessage() returns (s: State)
    ensures Reachable(FIVE, s) && "c" in s.tables.chats && s.tables.chats["c"].messageId == Some(1)
    ensures Suffix(ToldOf(s.told, "c").posts, [2])
  {
    var steps;
    steps, s := SecondSignalClaimed();
    steps, s := UnderWay(FIVE, steps, s, [PUBLIC, PUBLIC]);
    steps, s := OneStep(FIVE, Initial(), steps, s, DeliverNext(Answers(EditMissing, SendOk(2), {}, {}), Committed));
    assert s.tables.chats["c"].messageId == Some(2);
    steps, s := OneStep(FIVE, Initial(), steps, s, DeliverNext(ALL_WELL, Committed));
  }

  // ── The passes of BroadcastPasses do happen ────────────────────────

  lemma ParkedStart(s: State) returns (steps: seq<Step>, s': State)
    requires s.pass.Idle? && |s.tables.log| == |s.marks| == 2 && s.tables.log[0].status.DELIVERED?
    requires s.tables.log[1].status.PENDING? && s.tables.log[1].attempts == 0
    requires s.tables.cycle.Some? && s.tables.cycle.value.lastSeq == 2
    requires Passes.BehindIn(s.tables, "c") && s.tables.chats.Keys == {"c"}
    ensures IsRun(FIVE, s, steps, s') && forall e <- steps :: Passes.Quiet(e)
    ensures |s'.tables.log| == |s'.marks| == 2 && s'.tables.log[1] == ClaimedEntry(s.tables.log[1]) && s'.tables.cycle.Some?
    ensures s'.pass.Loaded? && s'.pass.ids == {1} && Behind(s'.pass.view) == {"c"}
  {
    assert ClaimableIds(s.tables.log, 5) == {1};
    steps, s' := OneStep(FIVE, s, [], s, Claim(Commits));
    steps, s' := OneStep(FIVE, s, steps, s', Load(true));
  }

  lemma ParkedSettled(s: State) returns (steps: seq<Step>, s': State)
    requires s.pass.Idle? && |s.tables.log| == |s.marks| == 2 && s.tables.log[0].status.DELIVERED?
    requires s.tables.log[1].status.PENDING? && s.tables.log[1].attempts == 0
    requires s.tables.cycle.Some? && s.tables.cycle.value.lastSeq == 2
    requires Passes.BehindIn(s.tables, "c") && s.tables.chats.Keys == {"c"}
    ensures IsRun(FIVE, s, steps, s') && forall e <- steps :: Passes.Quiet(e)
    ensures |s'.tables.log| == |s'.marks| == 2 && s'.tables.log[1] == ClaimedEntry(s.tables.log[1]) && s'.tables.cycle.Some?
    ensures s'.pass.Parking? && s'.pass.ids == {1} && s'.pass.left == {}
  {
    steps, s' := ParkedStart(s);
    steps, s' := OneStep(FIVE, s, steps, s', Park);
    steps, s' := OneStep(FIVE, s, steps, s', ParkChat("c", Committed));
  }

  /** One silenced pass over it, deferring the entry. */
  lemma ParkedPass(s: State) returns (steps: seq<Step>, s': State)
    requires s.pass.Idle? && |s.tables.log| == |s.marks| == 2 && s.tables.log[0].status.DELIVERED?
    requires s.tables.log[1].status.PENDING? && s.tables.log[1].attempts == 0
    requires s.tables.cycle.Some? && s.tables.cycle.value.lastSeq == 2
    requires Passes.BehindIn(s.tables, "c") && s.tables.chats.Keys == {"c"}
    ensures Passes.ParkedPasses(FIVE, s, steps, s') && Close(Commits) in steps
    ensures |s'.tables.log| == |s'.marks| == 2 && Claimable(s'.tables.log[1], 5) && s'.tables.cycle.Some?
  {
    var entry := s.tables.log[1];
    steps, s' := ParkedSettled(s);
    steps, s' := OneStep(FIVE, s, steps, s', Close(Commits));
    assert s'.tables.log[1] == DeferredEntry(ClaimedEntry(entry));
  }

  lemma HealthyStart(s: State) returns (steps: seq<Step>, s': State)
    requires s.pass.Idle? && |s.tables.log| == |s.marks| && ClaimableIds(s.tables.log, 5) != {} && s.tables.cycle.Some?
    ensures IsRun(FIVE, ClaimNext(FIVE, s, Commits), steps, s') && steps == [Load(true), Broadcast([PUBLIC], BOTH_ON)]
    ensures |s'.tables.log| == |s'.marks| && s'.pass.Delivering? && s'.pass.next == 0 && s'.pass.targets == [PUBLIC]
  {
    var start := ClaimNext(FIVE, s, Commits);
    steps, s' := OneStep(FIVE, start, [], start, Load(true));
    steps, s' := OneStep(FIVE, start, steps, s', Broadcast([PUBLIC], BOTH_ON));
  }

  /** A pass whose calls all answer well. */
  lemma HealthyPass(s: State) returns (steps: seq<Step>, s': State)
    requires s.pass.Idle? && |s.tables.log| == |s.marks| && ClaimableIds(s.tables.log, 5) != {} && s.tables.cycle.Some?
    ensures Passes.HealthyDispatch(FIVE, s, steps, s') && Broadcast([PUBLIC], BOTH_ON) in steps
    ensures |steps| >= 2 && steps[0] == Load(true) && steps[1] == Broadcast([PUBLIC], BOTH_ON)
  {
    var start := ClaimNext(FIVE, s, Commits);
    steps, s' := HealthyStart(s);
    steps, s' := OneStep(FIVE, start, steps, s', DeliverNext(ALL_WELL, Committed));
    steps, s' := OneStep(FIVE, start, steps, s', Close(Commits));
  }

  /** What it delivers is the cycle as it is. */
  lemma DeliversCurrent(s: State, steps: seq<Step>)
    requires s.pass.Idle? && |s.tables.log| == |s.marks| && ClaimableIds(s.tables.log, 5) != {} && s.tables.cycle.Some?
    requires |steps| >= 2 && steps[0] == Load(true) && steps[1] == Broadcast([PUBLIC], BOTH_ON)
    ensures Passes.Delivered(FIVE, ClaimNext(FIVE, s, Commits), steps)
            == Some(Passes.Snapshot(View(s.tables.cycle.value, s.tables.workers, s.tables.chats), [PUBLIC], BOTH_ON))
  {
    var loaded := Next(FIVE, ClaimNext(FIVE, s, Commits), Load(true));
    assert steps[1..][0] == steps[1];
    assert Passes.Delivered(FIVE, Next(FIVE, loaded, steps[1]), steps[1..][1..]).Some?;
  }

  /** A chat left behind, a silenced pass, and broadcasting switched on again: the situation the
      results about whole passes speak of arises. */
  lemma ParkedAndUnparked() returns (s0: State, quiet: seq<Step>, s1: State, steps: seq<Step>, s2: State)
    ensures Reachable(FIVE, s0) && Passes.BehindIn(s0.tables, PUBLIC.chat)
    ensures Passes.ParkedPasses(FIVE, s0, quiet, s1) && Close(Commits) in quiet
    ensures Passes.HealthyDispatch(FIVE, s1, steps, s2) && Broadcast([PUBLIC], BOTH_ON) in steps
  {
    var past;
    past, s0 := SecondSignal();
    quiet, s1 := ParkedPass(s0);
    assert 1 in ClaimableIds(s1.tables.log, 5);
    steps, s2 := HealthyPass(s1);
  }

  // ── A refused notice ───────────────────────────────────────────────

  /** The edit for the second signal goes through, its notice is refused: the entry is DELIVERED, the
      chat is at the last change, and event 1 is still to be announced there. */
  lemma NoticeRefused() returns (s: State)
    ensures Reachable(FIVE, s) && s.pass.Idle? && OwesOneNotice(s) && ToldOf(s.told, "c").announced == []
  {
    var steps;
    steps, s := SecondSignalServed(REFUSED);
    assert AnnouncedNow(Some(1), 2, true, REFUSED) == [];
  }

  /** Both entries are DELIVERED, the chat is at the last change, and event 1 is still to be announced. */
  ghost predicate OwesOneNotice(s: State) {
    && |s.tables.log| == |s.marks| == 2 && s.tables.log[0].status.DELIVERED? && s.tables.log[1].status.DELIVERED?
    && s.tables.cycle.Some? && s.tables.cycle.value.lastSeq == 2
    && |s.tables.cycle.value.events| == 2 && s.tables.cycle.value.events[1] == Event(SL, 1, 0)
    && Passes.OwesNotice(s, "c", 1) && s.tables.chats["c"].notified == Some(1) && s.tables.chats["c"].deliveredSeq == 2
  }

  /** From there, and from where it got to the chat unanswered, the next signal and a healthy pass
      bring the situation of `BroadcastPasses.RefusedNoticeIsMadeUpForIff` about, and the event is
      announced: once, or a second time. */
  lemma RefusedNoticeIsMadeUpFor(s: State) returns (s0: State, steps: seq<Step>, s': State)
    requires Reachable(FIVE, s) && s.pass.Idle? && OwesOneNotice(s)
    ensures s0 == Next(FIVE, s, Signal(FLAT, 2)) && Reachable(FIVE, s0) && Passes.HealthyDispatch(FIVE, s0, steps, s')
    ensures Passes.OwesNotice(s0, "c", 1) && s0.tables.chats["c"].deliveredSeq < LastSeq(s0.tables)
    ensures Passes.Times(ToldOf(s'.told, "c").announced, 1) == Passes.Times(ToldOf(s.told, "c").announced, 1) + 1
  {
    var past :| IsRun(FIVE, Initial(), past, s);
    var longer;
    longer, s0 := OneStep(FIVE, Initial(), past, s, Signal(FLAT, 2));
    assert 2 in ClaimableIds(s0.tables.log, 5);
    steps, s' := HealthyPass(s0);
    DeliversCurrent(s0, steps);
    var snap := Passes.Snapshot(View(s0.tables.cycle.value, s0.tables.workers, s0.tables.chats), [PUBLIC], BOTH_ON);
    Passes.RefusedNoticeIsMadeUpForIff(FIVE, s0, steps, s', snap, 0, 1);
  }

  const REFUSED := Answers(EditOk, SendOk(1), {1}, {})
  const IN_SILENCE := Answers(EditOk, SendOk(1), {}, {1})

  /** The edit for the second signal served with these answers, and the pass closed. */
  lemma SecondSignalServed(a: Answers) returns (steps: seq<Step>, s: State)
    requires a.edit.EditOk? || a.edit.EditUnanswered?
    ensures IsRun(FIVE, Initial(), steps, s) && s.pass.Idle?
    ensures |s.tables.log| == |s.marks| == 2 && s.tables.log[0].status.DELIVERED? && s.tables.log[1].attempts == 1
    ensures if a.edit.EditOk? then s.tables.log[1].status.DELIVERED? else s.tables.log[1].status.PENDING?
    ensures s.tables.cycle.Some? && s.tables.cycle.value.lastSeq == 2
    ensures |s.tables.cycle.value.events| == 2 && s.tables.cycle.value.events[1] == Event(SL, 1, 0)
    ensures "c" in s.tables.chats && s.tables.chats["c"].messageId.Some?
    ensures s.tables.chats["c"].deliveredSeq == if a.edit.EditOk? then 2 else 1
    ensures a.edit.EditOk? ==> s.tables.chats["c"].notified == Some(NotifiedAfter(Some(1), 2, true, a))
    ensures a.edit.EditOk? ==> ToldOf(s.told, "c").announced == AnnouncedNow(Some(1), 2, true, a)
    ensures Suffix(ToldOf(s.told, "c").shown, [2])
  {
    steps, s := SecondSignalDelivered(a);
    steps, s := OneStep(FIVE, Initial(), steps, s, Close(Commits));
  }

  lemma SecondSignalDelivered(a: Answers) returns (steps: seq<Step>, s: State)
    requires a.edit.EditOk? || a.edit.EditUnanswered?
    ensures IsRun(FIVE, Initial(), steps, s)
    ensures s.pass.Delivering? && s.pass.ids == {1} && s.pass.targets == [PUBLIC] && s.pass.next == 1 && s.pass.ok == a.edit.EditOk?
    ensures |s.tables.log| == |s.marks| == 2 && s.tables.log[0].status.DELIVERED? && s.tables.log[1].attempts == 1
    ensures s.tables.cycle.Some? && s.tables.cycle.value.lastSeq == 2
    ensures |s.tables.cycle.value.events| == 2 && s.tables.cycle.value.events[1] == Event(SL, 1, 0)
    ensures "c" in s.tables.chats && s.tables.chats["c"].messageId.Some?
    ensures s.tables.chats["c"].deliveredSeq == if a.edit.EditOk? then 2 else 1
    ensures a.edit.EditOk? ==> s.tables.chats["c"].notified == Some(NotifiedAfter(Some(1), 2, true, a))
    ensures a.edit.EditOk? ==> ToldOf(s.told, "c").announced == AnnouncedNow(Some(1), 2, true, a)
    ensures Suffix(ToldOf(s.told, "c").shown, [2])
  {
    steps, s := SecondSignalClaimed();
    steps, s := UnderWay(FIVE, steps, s, [PUBLIC]);
    steps, s := OneStep(FIVE, Initial(), steps, s, DeliverNext(a, Committed));
  }

  /** The same, but Telegram took the notice and never answered: the row is the same, and the chat has
      the event. */
  lemma NoticeUnanswered() returns (steps: seq<Step>, s: State)
    ensures IsRun(FIVE, Initial(), steps, s) && s.pass.Idle? && OwesOneNotice(s) && ToldOf(s.told, "c").announced == [1]
  {
    steps, s := SecondSignalServed(IN_SILENCE);
    assert AnnouncedNow(Some(1), 2, true, IN_SILENCE) == [1];
  }

  /** A third signal on its way to the chat. */
  lemma ThirdSignalUnderWay(before: seq<Step>, mid: State) returns (steps: seq<Step>, s: State)
    requires IsRun(FIVE, Initial(), before, mid) && mid.pass.Idle?
    requires |mid.tables.log| == |mid.marks| == 2 && mid.tables.log[0].status.DELIVERED? && mid.tables.log[1].status.DELIVERED?
    requires mid.tables.cycle.Some? && |mid.tables.cycle.value.events| == 2 && mid.tables.cycle.value.events[1] == Event(SL, 1, 0)
    ensures IsRun(FIVE, Initial(), steps, s) && |s.marks| == |s.tables.log|
    ensures s.pass.Delivering? && s.pass.targets == [PUBLIC] && s.pass.replies == BOTH_ON && s.pass.next == 0
    ensures s.pass.view.chats == mid.tables.chats && s.told == mid.told
    ensures s.pass.view.cycle.lastSeq == mid.tables.cycle.value.lastSeq + 1 && |s.pass.view.cycle.events| == 3
  {
    steps, s := OneStep(FIVE, Initial(), before, mid, Signal(FLAT, 2));
    steps, s := Claimed(FIVE, steps, s, {2});
    steps, s := UnderWay(FIVE, steps, s, [PUBLIC]);
  }

  /** With the next change that event is announced again. No crash, no failed transaction, and no chat
      is named twice. */
  lemma UnansweredNoticeIsAnnouncedTwice() returns (s: State)
    ensures Reachable(FIVE, s) && ToldOf(s.told, "c").announced == [1, 1, 2]
  {
    var steps;
    steps, s := NoticeUnanswered();
    steps, s := ThirdSignalUnderWay(steps, s);
    assert AnnouncedNow(Some(1), 3, true, ALL_WELL) == [1, 2];
    steps, s := OneStep(FIVE, Initial(), steps, s, DeliverNext(ALL_WELL, Committed));
  }

  /** An edit Telegram took without answering is made again, with the same body, by the next pass. */
  lemma UnansweredEditIsRepeated() returns (s: State)
    ensures Reachable(FIVE, s) && Suffix(ToldOf(s.told, "c").shown, [2, 2])
  {
    var steps;
    steps, s := SecondSignalServed(ALL_WELL.(edit := EditUnanswered));
    var shown := ToldOf(s.told, "c").shown;
    steps, s := Claimed(FIVE, steps, s, {1});
    steps, s := UnderWay(FIVE, steps, s, [PUBLIC]);
    steps, s := OneStep(FIVE, Initial(), steps, s, DeliverNext(ALL_WELL, Committed));
    assert ToldOf(s.told, "c").shown == shown + [2];
  }

  predicate Suffix(xs: seq<nat>, ys: seq<nat>) {
    |ys| <= |xs| && xs[|xs| - |ys|..] == ys
  }

  // ── A load interrupted by a report ─────────────────────────────────

  lemma InterruptedLoad(worker: WorkerId, row: WorkerRow) returns (steps: seq<Step>, s: State)
    ensures IsRun(FIVE, Initial(), steps, s) && |s.marks| == |s.tables.log| == 2
    ensures s.tables.log[0].change.SignalChange? && s.tables.log[1].change == ExecutionChange(worker, row)
    ensures s.pass.Loaded? && s.pass.view.cycle.lastSeq == 1 && s.pass.view.workers == map[worker := row]
    ensures s.pass.view.chats == map[] == s.tables.chats
  {
    steps, s := FirstSignal(FIVE);
    steps, s := Claimed(FIVE, steps, s, {0});
    steps, s := OneStep(FIVE, Initial(), steps, s, Read);
    steps, s := OneStep(FIVE, Initial(), steps, s, Execute(worker, row));
    steps, s := OneStep(FIVE, Initial(), steps, s, ReadWorkers);
  }

  /** A report is recorded between the two reads of a load: the private body shows a worker its
      sequence number does not cover yet. */
  lemma WorkersCanBeNewer(worker: WorkerId, row: WorkerRow) returns (s: State)
    ensures Reachable(FIVE, s) && "p" in s.tables.chats
    ensures s.tables.chats["p"].deliveredSeq == 1 && |s.tables.log| == 2
    ensures s.tables.log[0].change.SignalChange? && s.tables.log[1].change == ExecutionChange(worker, row)
    ensures s.tables.chats["p"].body.Some? && s.tables.chats["p"].body.value.workers == map[worker := row]
  {
    var steps;
    steps, s := InterruptedLoad(worker, row);
    steps, s := OneStep(FIVE, Initial(), steps, s, Broadcast([Target(Private, "p")], BOTH_ON));
    steps, s := OneStep(FIVE, Initial(), steps, s, DeliverNext(ALL_WELL, Committed));
  }

  /** The chat is at the cycle's last change, in the tables and in the eyes of the current pass. */
  ghost predicate UpToDate(s: State, chat: ChatId) {
    && s.tables.cycle.Some? && chat in s.tables.chats
    && s.tables.chats[chat].deliveredSeq >= s.tables.cycle.value.lastSeq
    && match s.pass
       case Reading(_, v) => chat in v.chats && v.chats[chat].deliveredSeq >= v.cycle.lastSeq
       case Loaded(_, v) => chat in v.chats && v.chats[chat].deliveredSeq >= v.cycle.lastSeq
       case Delivering(_, v, _, _, _, _) => chat in v.chats && v.chats[chat].deliveredSeq >= v.cycle.lastSeq
       case _ => true
  }

  lemma UpToDateKept(p: Params, s: State, e: Step, chat: ChatId)
    requires UpToDate(s, chat) && |s.marks| == |s.tables.log| && CanStep(p, s, e) && !e.Record? && !e.Execute?
    ensures UpToDate(Next(p, s, e), chat)
    ensures
      var t, t' := ToldOf(s.told, chat), ToldOf(Next(p, s, e).told, chat);
      t'.shown == t.shown && t'.announced == t.announced
  {
    if e.DeliverNext? && s.pass.targets[s.pass.next].chat == chat {
      assert DeliveryAt(s, e.answers) == Delivery(true, None, false, false, [], 0);
      assert ToldOf(s.told, chat).announced + [] == ToldOf(s.told, chat).announced;
    }
  }

  lemma {:induction false} NothingMore(p: Params, s: State, steps: seq<Step>, s': State, chat: ChatId)
    requires UpToDate(s, chat) && IsRun(p, s, steps, s')
    requires forall e <- steps :: !e.Record? && !e.Execute?
    ensures
      var t, t' := ToldOf(s.told, chat), ToldOf(s'.told, chat);
      t'.shown == t.shown && t'.announced == t.announced
    decreases |steps|
  {
    if steps != [] {
      assert steps[0] in steps;
      UpToDateKept(p, s, steps[0], chat);
      NothingMore(p, Next(p, s, steps[0]), steps[1..], s', chat);
    }
  }

  /** A refused notice is not retried on the next pass, nor on any other: until the cycle changes
      again, nothing more is shown or announced in that chat, whatever passes run and whatever
      fails. When it changes, `BroadcastPasses.RefusedNoticeIsMadeUpForIff` says what happens. */
  lemma RefusedNoticeWaitsForAChange(p: Params, s: State, steps: seq<Step>, s': State, chat: ChatId, index: nat)
    requires Reachable(p, s) && s.pass.Idle? && IsRun(p, s, steps, s')
    requires Passes.OwesNotice(s, chat, index) && s.tables.chats[chat].deliveredSeq == LastSeq(s.tables)
    requires forall e <- steps :: !e.Record? && !e.Execute?
    ensures
      var t, t' := ToldOf(s.told, chat), ToldOf(s'.told, chat);
      t'.shown == t.shown && t'.announced == t.announced
  {
    NothingMore(p, s, steps, s', chat);
  }

  // ── An entry reclaimed from its last attempt ───────────────────────

  /** An entry PENDING without attempts left, in nobody's hands. */
  ghost predicate Stuck(p: Params, s: State, i: nat) {
    && i < |s.tables.log| && i !in Life.Held(s)
    && s.tables.log[i].status.PENDING? && !Claimable(s.tables.log[i], p.maxAttempts)
  }

  /** A broker with one attempt per entry dies while it sends, and the sweeper hands the entry back. */
  lemma StrandedOnTheLastAttempt() returns (s: State)
    ensures Reachable(Params(1), s) && Stuck(Params(1), s, 0)
  {
    var steps;
    steps, s := FirstSignal(Params(1));
    steps, s := Claimed(Params(1), steps, s, {0});
    steps, s := OneStep(Params(1), Initial(), steps, s, Crash);
    steps, s := SweptUp(Params(1), steps, s, {0});
  }

  /** The threshold passes while the only attempt of an entry is under way: the sweeper finds it, the
      pass delivers it and closes it as DELIVERED, and then the reclaim is written. The entry reads
      PENDING for good. */
  lemma ReclaimOvertakesDelivery() returns (s: State)
    ensures Reachable(Params(1), s) && Stuck(Params(1), s, 0)
    ensures ToldOf(s.told, "c").posts == [1] && "c" in s.tables.chats && s.tables.chats["c"].deliveredSeq == 1
  {
    var steps;
    steps, s := FirstPass(Params(1), [PUBLIC]);
    steps, s := OneStep(Params(1), Initial(), steps, s, FindStale({0}));
    assert s.stale == {0};
    steps, s := OneStep(Params(1), Initial(), steps, s, DeliverNext(ALL_WELL, Committed));
    steps, s := OneStep(Params(1), Initial(), steps, s, Close(Commits));
    assert s.tables.log[0].status.DELIVERED?;
    steps, s := OneStep(Params(1), Initial(), steps, s, Reclaim(Commits));
  }

  lemma StuckKept(p: Params, s: State, e: Step, i: nat)
    requires Stuck(p, s, i) && Basics(s) && CanStep(p, s, e)
    ensures Stuck(p, Next(p, s, e), i) && Next(p, s, e).tables.log[i] == s.tables.log[i]
  {
  }

  lemma {:induction false} StuckStays(p: Params, s: State, steps: seq<Step>, s': State, i: nat)
    requires Life.Inv(p, s) && Stuck(p, s, i) && IsRun(p, s, steps, s')
    ensures Stuck(p, s', i) && s'.tables.log[i] == s.tables.log[i]
    decreases |steps|
  {
    if steps != [] {
      LifeGivesBasics(p, s);
      StuckKept(p, s, steps[0], i);
      Life.NextKeeps(p, s, steps[0]);
      StuckStays(p, Next(p, s, steps[0]), steps[1..], s', i);
    }
  }

  /** Such an entry stays PENDING for good: no claim takes it, and so no finish marks it FAILED. */
  lemma StrandedEntryIsNeverFailed(p: Params, s: State, steps: seq<Step>, s': State, i: nat)
    requires Reachable(p, s) && Stuck(p, s, i) && IsRun(p, s, steps, s')
    ensures Stuck(p, s', i) && s'.tables.log[i] == s.tables.log[i]
  {
    Life.ReachableSound(p, s);
    StuckStays(p, s, steps, s', i);
  }

  /** Some continuation closes the entry. */
  ghost predicate CanBeClosed(p: Params, s: State, i: nat) {
    exists steps, s' :: IsRun(p, s, steps, s') && i < |s'.tables.log| && !Passes.Open(s'.tables.log[i])
  }

  lemma ClosesFrom(p: Params, s: State, e: Step, i: nat)
    requires |s.marks| == |s.tables.log| && CanStep(p, s, e) && CanBeClosed(p, Next(p, s, e), i)
    ensures CanBeClosed(p, s, i)
  {
    var steps, s' :| IsRun(p, Next(p, s, e), steps, s') && i < |s'.tables.log| && !Passes.Open(s'.tables.log[i]);
    assert ([e] + steps)[1..] == steps;
    assert IsRun(p, s, [e] + steps, s');
  }

  lemma ClosedNow(p: Params, s: State, i: nat)
    requires i < |s.tables.log| && !Passes.Open(s.tables.log[i])
    ensures CanBeClosed(p, s, i)
  {
    assert IsRun(p, s, [], s);
  }

  /** A finishing close ends an entry without attempts left. */
  lemma CloseEnds(p: Params, s: State, i: nat)
    requires |s.marks| == |s.tables.log| && CanStep(p, s, Close(Commits)) && !s.pass.Parking? && i in s.pass.ids && i < |s.tables.log|
    requires s.tables.log[i].attempts >= p.maxAttempts || s.pass.Closing?
    ensures CanBeClosed(p, s, i)
  {
    ClosedNow(p, Next(p, s, Close(Commits)), i);
    ClosesFrom(p, s, Close(Commits), i);
  }

  /** A claimed entry is closed by a load that fails. */
  lemma ClaimedEnds(p: Params, s: State, i: nat)
    requires |s.marks| == |s.tables.log| && (s.pass.Claimed? || s.pass.Reading?) && i in s.pass.ids && i < |s.tables.log|
    ensures CanBeClosed(p, s, i)
  {
    CloseEnds(p, Next(p, s, Load(false)), i);
    ClosesFrom(p, s, Load(false), i);
  }

  lemma {:induction false} DeliveringEnds(p: Params, s: State, i: nat)
    requires |s.marks| == |s.tables.log| && s.pass.Delivering? && s.pass.next <= |s.pass.targets|
    requires i in s.pass.ids && i < |s.tables.log| && s.tables.log[i].attempts >= p.maxAttempts
    ensures CanBeClosed(p, s, i)
    decreases if s.pass.Delivering? then |s.pass.targets| - s.pass.next else 0
  {
    if s.pass.next == |s.pass.targets| {
      CloseEnds(p, s, i);
    } else {
      var e := DeliverNext(ALL_WELL, Committed);
      DeliveringEnds(p, Next(p, s, e), i);
      ClosesFrom(p, s, e, i);
    }
  }

  lemma LoadedEnds(p: Params, s: State, i: nat)
    requires |s.marks| == |s.tables.log| && s.pass.Loaded? && i in s.pass.ids && i < |s.tables.log|
    requires s.tables.log[i].attempts >= p.maxAttempts
    ensures CanBeClosed(p, s, i)
  {
    DeliveringEnds(p, Next(p, s, Broadcast([PUBLIC], BOTH_ON)), i);
    ClosesFrom(p, s, Broadcast([PUBLIC], BOTH_ON), i);
  }

  /** A parked pass hands the entry back with an attempt, which the next claim takes. */
  lemma DeferredEnds(p: Params, s: State, i: nat)
    requires |s.marks| == |s.tables.log| && s.pass.Parking? && s.pass.left == {}
    requires i in s.pass.ids && i < |s.tables.log| && 0 < s.tables.log[i].attempts <= p.maxAttempts
    ensures CanBeClosed(p, s, i)
  {
    var idle := Next(p, s, Close(Commits));
    assert Claimable(idle.tables.log[i], p.maxAttempts);
    assert i in ClaimableIds(idle.tables.log, p.maxAttempts);
    ClaimedEnds(p, Next(p, idle, Claim(Commits)), i);
    ClosesFrom(p, idle, Claim(Commits), i);
    ClosesFrom(p, s, Close(Commits), i);
  }

  lemma {:induction false} ParkingEnds(p: Params, s: State, i: nat)
    requires |s.marks| == |s.tables.log| && s.pass.Parking? && s.pass.left <= s.pass.view.chats.Keys
    requires i in s.pass.ids && i < |s.tables.log| && 0 < s.tables.log[i].attempts <= p.maxAttempts
    ensures CanBeClosed(p, s, i)
    decreases if s.pass.Parking? then s.pass.left else {}
  {
    if s.pass.left == {} {
      DeferredEnds(p, s, i);
    } else {
      var chat :| chat in s.pass.left;
      var e := ParkChat(chat, Committed);
      ParkingEnds(p, Next(p, s, e), i);
      ClosesFrom(p, s, e, i);
    }
  }

  lemma HeldEnds(p: Params, s: State, i: nat)
    requires Life.Inv(p, s) && BroadcastBounds.Inv(s) && i in Life.Held(s) && s.tables.log[i].attempts == p.maxAttempts
    ensures CanBeClosed(p, s, i)
  {
    match s.pass
    case Claimed(_) => ClaimedEnds(p, s, i);
    case Reading(_, _) => ClaimedEnds(p, s, i);
    case Loaded(_, _) => LoadedEnds(p, s, i);
    case Delivering(_, _, _, _, _, _) => DeliveringEnds(p, s, i);
    case Parking(_, _, _) => ParkingEnds(p, s, i);
    case Closing(_) => CloseEnds(p, s, i);
  }

  /** A reclaim written on the last attempt, whatever has become of the entry since it was found,
      leaves it unfinished for good if and only if no pass holds it any more. */
  lemma StrandedForeverIff(p: Params, s: State, i: nat)
    requires Reachable(p, s) && |s.marks| == |s.tables.log| && i < |s.tables.log| && i in s.stale
    requires s.tables.log[i].attempts == p.maxAttempts
    ensures !CanBeClosed(p, Next(p, s, Reclaim(Commits)), i) <==> i !in Life.Held(s)
  {
    ReachableSound(p, s);
    var s' := Next(p, s, Reclaim(Commits));
    Life.NextKeeps(p, s, Reclaim(Commits));
    BroadcastBounds.NextKeeps(p, s, Reclaim(Commits));
    assert Life.Held(s') == Life.Held(s);
    if i in Life.Held(s) {
      HeldEnds(p, s', i);
    } else {
      forall steps, s'' | IsRun(p, s', steps, s'') ensures i < |s''.tables.log| && Passes.Open(s''.tables.log[i]) {
        StuckStays(p, s', steps, s'', i);
      }
    }
  }
}

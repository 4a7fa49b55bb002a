/** The other half of `BroadcastOnce`: every step it lists can indeed be followed, without another
    such step, by a body reaching a chat twice. */
module BroadcastRepeats {
  import opened Wrappers
  import opened BroadcastLog
  import opened BroadcastDelivery
  import opened BroadcastBounds
  import opened BroadcastOnce
  import Life = BroadcastLifecycle

  lemma {:induction false} OnceExtends(p: Params, s: State, steps: seq<Step>, mid: State, e: Step, kind: Kind)
    requires OnceRun(p, s, steps, mid, kind)
    requires |mid.marks| == |mid.tables.log| && CanStep(p, mid, e) && !Repeats(p, mid, e, kind)
    ensures OnceRun(p, s, steps + [e], Next(p, mid, e), kind)
    decreases |steps|
  {
    if steps == [] {
      assert [e][1..] == [];
    } else {
      OnceExtends(p, Next(p, s, steps[0]), steps[1..], mid, e, kind);
      assert (steps + [e])[1..] == steps[1..] + [e];
    }
  }

  /** One more step of a run. */
  lemma Step1(p: Params, s: State, steps: seq<Step>, mid: State, e: Step, kind: Kind) returns (longer: seq<Step>, s': State)
    requires OnceRun(p, s, steps, mid, kind)
    requires |mid.marks| == |mid.tables.log| && CanStep(p, mid, e) && !Repeats(p, mid, e, kind)
    ensures OnceRun(p, s, longer, s', kind) && s' == Next(p, mid, e)
  {
    longer, s' := steps + [e], Next(p, mid, e);
    OnceExtends(p, s, steps, mid, e, kind);
  }

  /** The edited message turns out to be gone and a new one is posted. */
  const GONE := Answers(EditMissing, SendOk(1), {}, {})

  lemma GoneAdds(s: State, kind: Kind)
    requires !kind.Notices?
    requires s.pass.Delivering? && s.pass.next < |s.pass.targets|
    requires BehindView(s.pass.view, s.pass.targets[s.pass.next].chat)
    ensures Adds(DeliveryAt(s, GONE), kind)
  {
  }

  lemma TwiceIsNotIncreasing(xs: seq<nat>, x: nat)
    requires xs != [] && Last(xs) == x
    ensures !Increasing(xs + [x])
  {
    var ys := xs + [x];
    assert ys[|xs| - 1] == ys[|xs|];
  }

  // ── An unrecorded delivery ─────────────────────────────────────────

  function SendingIds(log: seq<LogEntry>): set<nat> {
    set i | 0 <= i < |log| && log[i].status.SENDING?
  }

  /** Once nothing is under way, a sweep hands everything open back. */
  lemma SweptClean(p: Params, s: State, before: seq<Step>, mid: State, i: nat, kind: Kind) returns (steps: seq<Step>, s': State)
    requires OnceRun(p, s, before, mid, kind) && |mid.marks| == |mid.tables.log| && mid.pass.Idle? && mid.stale == {}
    requires i < |mid.tables.log| && !Life.Closed(mid.tables.log[i]) && mid.tables.log[i].attempts < p.maxAttempts
    ensures OnceRun(p, s, steps, s', kind) && s'.pass.Idle? && |s'.marks| == |s'.tables.log|
    ensures ClaimableIds(s'.tables.log, p.maxAttempts) != {}
    ensures s'.tables == mid.tables.(log := s'.tables.log) && s'.told == mid.told
  {
    steps, s' := Step1(p, s, before, mid, FindStale(SendingIds(mid.tables.log)), kind);
    steps, s' := Step1(p, s, steps, s', Reclaim(Commits), kind);
    assert i in ClaimableIds(s'.tables.log, p.maxAttempts);
  }

  /** What a reclaim under way has found comes back, the pass dies, and a sweep hands the rest back. */
  lemma OpenAgain(p: Params, s: State, kind: Kind) returns (steps: seq<Step>, s': State)
    requires |s.marks| == |s.tables.log| && !NothingLeft(s, p.maxAttempts)
    ensures OnceRun(p, s, steps, s', kind) && s'.pass.Idle? && |s'.marks| == |s'.tables.log|
    ensures ClaimableIds(s'.tables.log, p.maxAttempts) != {}
    ensures s'.tables == s.tables.(log := s'.tables.log) && s'.told == s.told
  {
    var i :| 0 <= i < |s.tables.log| && !(Life.Final(s, i) || s.tables.log[i].attempts >= p.maxAttempts);
    steps, s' := Step1(p, s, [], s, Reclaim(Commits), kind);
    assert !Life.Closed(s'.tables.log[i]) && s'.tables.log[i].attempts < p.maxAttempts;
    steps, s' := Step1(p, s, steps, s', Crash, kind);
    steps, s' := SweptClean(p, s, steps, s', i, kind);
  }

  /** After the pass died, everything open comes back to be claimed. */
  lemma ClaimedAgain(p: Params, s: State, kind: Kind) returns (steps: seq<Step>, s': State)
    requires |s.marks| == |s.tables.log| && s.tables.cycle.Some? && !NothingLeft(s, p.maxAttempts)
    ensures OnceRun(p, s, steps, s', kind) && s'.pass.Loaded? && |s'.marks| == |s'.tables.log|
    ensures s'.pass.view.cycle == s.tables.cycle.value && s'.pass.view.chats == s.tables.chats
    ensures s'.tables.chats == s.tables.chats && s'.tables.cycle == s.tables.cycle && s'.told == s.told
  {
    steps, s' := OpenAgain(p, s, kind);
    steps, s' := Step1(p, s, steps, s', Claim(Commits), kind);
    steps, s' := Step1(p, s, steps, s', Load(true), kind);
  }

  /** The current target is behind and its message turns out to be gone. */
  lemma ServedBehind(p: Params, s: State, before: seq<Step>, mid: State, kind: Kind) returns (steps: seq<Step>, s': State)
    requires !kind.Notices?
    requires OnceRun(p, s, before, mid, kind) && |mid.marks| == |mid.tables.log|
    requires mid.pass.Delivering? && mid.pass.next < |mid.pass.targets|
    requires BehindView(mid.pass.view, mid.pass.targets[mid.pass.next].chat)
    ensures OnceRun(p, s, steps, s', kind) && |s'.marks| == |s'.tables.log|
    ensures s'.pass.Delivering? && s'.pass == mid.pass.(next := mid.pass.next + 1, ok := s'.pass.ok)
    ensures
      var c := mid.pass.targets[mid.pass.next].chat;
      HistoryOf(s', c, kind) == HistoryOf(mid, c, kind) + [mid.pass.view.cycle.lastSeq]
  {
    GoneAdds(mid, kind);
    DeliveredHistory(mid, GONE, Committed, kind);
    steps, s' := Step1(p, s, before, mid, DeliverNext(GONE, Committed), kind);
  }

  /** A delivery that put its body in the chat and left the stored row behind it: after a restart the
      same sequence is posted again. */
  lemma UnrecordedRepeats(p: Params, s: State, e: Step, kind: Kind) returns (rest: seq<Step>, s': State)
    requires !kind.Notices?
    requires |s.marks| == |s.tables.log| && s.tables.cycle.Some? && CanStep(p, s, e) && e.DeliverNext? && Repeats(p, s, e, kind)
    ensures OnceRun(p, Next(p, s, e), rest, s', kind)
    ensures !Increasing(HistoryOf(s', s.pass.targets[s.pass.next].chat, kind))
  {
    var start, target := Next(p, s, e), s.pass.targets[s.pass.next];
    DeliveredHistory(s, e.answers, e.fate, kind);
    assert Row(start, target.chat) == RowAfter(s, e.answers, e.fate);
    rest, s' := ClaimedAgain(p, start, kind);
    rest, s' := Step1(p, start, rest, s', Broadcast([target], Replies(true, true)), kind);
    rest, s' := ServedBehind(p, start, rest, s', kind);
    TwiceIsNotIncreasing(HistoryOf(start, target.chat, kind), s.pass.view.cycle.lastSeq);
  }

  // ── A chat named twice ─────────────────────────────────────────────

  /** The newest body of the chat is the one of this pass. */
  predicate NewestIs(s: State, c: ChatId, kind: Kind, seqNo: nat) {
    HistoryOf(s, c, kind) != [] && Last(HistoryOf(s, c, kind)) == seqNo
  }

  lemma NewestStays(s: State, c: ChatId, kind: Kind)
    requires !kind.Notices?
    requires s.pass.Delivering? && s.pass.next < |s.pass.targets|
    requires NewestIs(s, c, kind, s.pass.view.cycle.lastSeq)
    ensures NewestIs(DeliverStep(s, GONE, Committed), c, kind, s.pass.view.cycle.lastSeq)
  {
    if c == s.pass.targets[s.pass.next].chat {
      DeliveredHistory(s, GONE, Committed, kind);
    } else {
      DeliverLeavesOthers(s, GONE, Committed, c);
    }
  }

  /** Serves so many more targets, all of whose messages are gone. */
  lemma {:induction false} ServedTo(p: Params, s: State, before: seq<Step>, mid: State, many: nat, c: ChatId, kind: Kind)
      returns (steps: seq<Step>, s': State)
    requires !kind.Notices?
    requires OnceRun(p, s, before, mid, kind) && |mid.marks| == |mid.tables.log|
    requires mid.pass.Delivering? && mid.pass.next + many <= |mid.pass.targets|
    ensures OnceRun(p, s, steps, s', kind) && |s'.marks| == |s'.tables.log|
    ensures s'.pass.Delivering? && s'.pass == mid.pass.(next := mid.pass.next + many, ok := s'.pass.ok)
    ensures NewestIs(mid, c, kind, mid.pass.view.cycle.lastSeq) ==> NewestIs(s', c, kind, mid.pass.view.cycle.lastSeq)
    decreases many
  {
    steps, s' := before, mid;
    if many > 0 {
      steps, s' := Step1(p, s, before, mid, DeliverNext(GONE, Committed), kind);
      if NewestIs(mid, c, kind, mid.pass.view.cycle.lastSeq) {
        NewestStays(mid, c, kind);
      }
      steps, s' := ServedTo(p, s, steps, s', many - 1, c, kind);
    }
  }

  /** A pass that gets past target `j`, which is behind, with its body as the newest. */
  lemma ServedOnce(p: Params, start: State, j: nat, kind: Kind) returns (steps: seq<Step>, s': State)
    requires !kind.Notices? && |start.marks| == |start.tables.log|
    requires start.pass.Delivering? && start.pass.next == 0 && j < |start.pass.targets|
    requires BehindView(start.pass.view, start.pass.targets[j].chat)
    ensures OnceRun(p, start, steps, s', kind) && |s'.marks| == |s'.tables.log|
    ensures s'.pass.Delivering? && s'.pass == start.pass.(next := j + 1, ok := s'.pass.ok)
    ensures NewestIs(s', start.pass.targets[j].chat, kind, start.pass.view.cycle.lastSeq)
  {
    steps, s' := ServedTo(p, start, [], start, j, start.pass.targets[j].chat, kind);
    steps, s' := ServedBehind(p, start, steps, s', kind);
  }

  /** And so to the second target of the same chat. */
  lemma ServedTwice(p: Params, start: State, j: nat, k: nat, kind: Kind) returns (steps: seq<Step>, s': State)
    requires !kind.Notices? && |start.marks| == |start.tables.log|
    requires start.pass.Delivering? && start.pass.next == 0 && j < k < |start.pass.targets|
    requires start.pass.targets[j].chat == start.pass.targets[k].chat && BehindView(start.pass.view, start.pass.targets[j].chat)
    ensures OnceRun(p, start, steps, s', kind) && !Increasing(HistoryOf(s', start.pass.targets[j].chat, kind))
  {
    var c, L := start.pass.targets[j].chat, start.pass.view.cycle.lastSeq;
    steps, s' := ServedOnce(p, start, j, kind);
    steps, s' := ServedTo(p, start, steps, s', k - j - 1, c, kind);
    TwiceIsNotIncreasing(HistoryOf(s', c, kind), L);
    steps, s' := ServedBehind(p, start, steps, s', kind);
  }

  /** A pass over targets that name a chat twice while it is behind posts the same body twice. */
  lemma RepeatedTargetRepeats(p: Params, s: State, e: Step, kind: Kind) returns (rest: seq<Step>, s': State, c: ChatId)
    requires !kind.Notices?
    requires |s.marks| == |s.tables.log| && CanStep(p, s, e) && e.Broadcast? && Repeats(p, s, e, kind)
    ensures OnceRun(p, Next(p, s, e), rest, s', kind) && !Increasing(HistoryOf(s', c, kind))
  {
    var j, k :| 0 <= j < k < |e.targets| && e.targets[j].chat == e.targets[k].chat && BehindView(s.pass.view, e.targets[j].chat);
    c := e.targets[j].chat;
    rest, s' := ServedTwice(p, Next(p, s, e), j, k, kind);
  }

  // ── The guarantee is exact ─────────────────────────────────────────

  /** Some chat was shown, or sent, one body twice or an older one after a newer one. */
  ghost predicate OutOfOrder(s: State, kind: Kind) {
    exists c: ChatId :: !Increasing(HistoryOf(s, c, kind))
  }

  ghost predicate CanRepeatAfter(p: Params, s: State, kind: Kind) {
    exists rest, s' :: OnceRun(p, s, rest, s', kind) && OutOfOrder(s', kind)
  }

  lemma NeverRepeats(p: Params, s: State, kind: Kind)
    requires AllInv(p, s, kind)
    ensures !CanRepeatAfter(p, s, kind)
  {
    forall rest, s' | OnceRun(p, s, rest, s', kind) ensures !OutOfOrder(s', kind) {
      BroadcastOnce.RunKeeps(p, s, rest, s', kind);
      forall c: ChatId ensures Increasing(HistoryOf(s', c, kind)) {
        assert ChatSound(p, s', c, kind);
      }
    }
  }

  /** From any reachable state, a step on the list can be followed by a run without another one in
      which a body reaches a chat twice. */
  lemma RepeatingStepRepeats(p: Params, s: State, e: Step, kind: Kind)
    requires !kind.Notices?
    requires Reachable(p, s) && |s.marks| == |s.tables.log| && CanStep(p, s, e) && Repeats(p, s, e, kind)
    ensures CanRepeatAfter(p, Next(p, s, e), kind)
  {
    ReachableSound(p, s);
    if e.DeliverNext? {
      var rest, s' := UnrecordedRepeats(p, s, e, kind);
    } else {
      var rest, s', c := RepeatedTargetRepeats(p, s, e, kind);
    }
  }

  /** A step can be followed by a run without further repeating steps in which a body comes twice
      or too late if and only if it is on the list. */
  lemma RepeatsIff(p: Params, steps: seq<Step>, s: State, e: Step, kind: Kind)
    requires !kind.Notices?
    requires OnceRun(p, BroadcastDelivery.Initial(), steps, s, kind)
    requires |s.marks| == |s.tables.log| && CanStep(p, s, e)
    ensures Repeats(p, s, e, kind) <==> CanRepeatAfter(p, Next(p, s, e), kind)
  {
    StartsSound(p, kind);
    BroadcastOnce.RunKeeps(p, BroadcastDelivery.Initial(), steps, s, kind);
    if Repeats(p, s, e, kind) {
      RepeatsFromSound(p, s, e, kind);
    } else {
      AllKept(p, s, e, kind);
      NeverRepeats(p, Next(p, s, e), kind);
    }
  }

  lemma RepeatsFromSound(p: Params, s: State, e: Step, kind: Kind)
    requires AllInv(p, s, kind) && |s.marks| == |s.tables.log| && CanStep(p, s, e) && Repeats(p, s, e, kind)
    ensures CanRepeatAfter(p, Next(p, s, e), kind)
  {
    LifeGivesBasics(p, s);
    if e.DeliverNext? {
      var rest, s' := UnrecordedRepeats(p, s, e, kind);
    } else {
      var rest, s', c := RepeatedTargetRepeats(p, s, e, kind);
    }
  }
}

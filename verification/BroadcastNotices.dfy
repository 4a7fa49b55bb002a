/** Reply notices: each event is announced in a chat at most once and in order, and none is skipped
    for good without a reason. The counterpart of `BroadcastOnce` for announcements. */
module BroadcastNotices {
  import opened Wrappers
  import opened BroadcastStatus
  import opened BroadcastLog
  import opened BroadcastDelivery
  import opened BroadcastBounds
  import opened BroadcastOnce
  import opened BroadcastRepeats
  import Life = BroadcastLifecycle

  ghost predicate AllBelow(xs: seq<nat>, bound: nat) {
    forall i | 0 <= i < |xs| :: xs[i] < bound
  }

  /** Announcements and row of one chat agree: nothing at or above the stored count was announced,
      and below it everything was, or the chat was excused. */
  ghost predicate Settled(t: Told, row: Option<ChatRow>) {
    && Increasing(t.announced) && AllBelow(t.announced, Count(row))
    && forall i: nat | i < Count(row) :: i < t.excused || i in t.announced
  }

  ghost predicate ChatsSettled(s: State) {
    forall c: ChatId :: Settled(ToldOf(s.told, c), Row(s, c))
  }

  /** What was announced is below what the snapshot takes as announced. */
  ghost predicate FreshFor(s: State, target: Target) {
    s.pass.Delivering? && Announces(s.pass.view, target, s.pass.replies) ==>
      AllBelow(ToldOf(s.told, target.chat).announced, s.pass.view.chats[target.chat].notified.value)
  }

  ghost predicate PassSettled(s: State) {
    s.pass.Delivering? ==>
      && !AnnouncedTwice(s.pass.view, s.pass.targets, s.pass.replies, s.pass.next)
      && forall j | s.pass.next <= j < |s.pass.targets| :: FreshFor(s, s.pass.targets[j])
  }

  ghost predicate SettledInv(s: State) {
    ChatsSettled(s) && PassSettled(s)
  }

  lemma RangeAppended(announced: seq<nat>, from: nat, k: nat)
    requires Increasing(announced) && AllBelow(announced, from) && from <= k
    ensures Increasing(announced + Range(from, k)) && AllBelow(announced + Range(from, k), k)
    ensures forall i: nat | from <= i < k :: i in announced + Range(from, k)
  {
    var more := Range(from, k);
    forall i: nat | from <= i < k ensures i in announced + more {
      assert more[i - from] == i;
    }
  }

  /** What one delivery announces, and what it would store: one less if the last notice was never
      answered. */
  lemma AnnouncedBy(s: State, a: Answers)
    requires s.pass.Delivering? && s.pass.next < |s.pass.targets|
    ensures
      var d, v, target := DeliveryAt(s, a), s.pass.view, s.pass.targets[s.pass.next];
      && (d.announced != [] ==>
            && Announces(v, target, s.pass.replies) && d.write.Some? && d.write.value.notified.Some?
            && var from := v.chats[target.chat].notified.value;
               var to := from + |d.announced|;
            && d.announced == Range(from, to) && to <= |v.cycle.events|
            && from <= d.write.value.notified.value <= to <= d.write.value.notified.value + 1)
      && (d.announced == [] && d.write.Some? && d.write.value.notified.Some? ==>
            d.write.value.notified.value <= d.excused
            || (target.chat in v.chats && v.chats[target.chat].notified == d.write.value.notified)
            || (target.chat in v.chats && v.chats[target.chat].notified.Some?
                && d.write.value.notified.value <= v.chats[target.chat].notified.value))
  {
    var v, target := s.pass.view, s.pass.targets[s.pass.next];
    if target.chat in v.chats && v.chats[target.chat].notified.Some? {
      var n := v.chats[target.chat].notified.value;
      assert Reached(n, |v.cycle.events|, a) == n ==> Range(n, n) == [];
    }
  }

  lemma ToldNow(s: State, a: Answers, fate: Fate)
    requires s.pass.Delivering? && s.pass.next < |s.pass.targets|
    ensures
      var s', c, d := DeliverStep(s, a, fate), s.pass.targets[s.pass.next].chat, DeliveryAt(s, a);
      && ToldOf(s'.told, c).announced == ToldOf(s.told, c).announced + d.announced
      && ToldOf(s'.told, c).excused == Max(ToldOf(s.told, c).excused, d.excused)
      && Count(Row(s', c)) == (if fate.Committed? && d.write.Some? && d.write.value.notified.Some?
                               then Max(Count(Row(s, c)), d.write.value.notified.value) else Count(Row(s, c)))
  {
  }

  /** Announcing `from..to` settles everything below `to`. */
  lemma SettledGrows(announced: seq<nat>, excused: nat, count: nat, from: nat, to: nat, count': nat)
    requires Increasing(announced) && AllBelow(announced, from) && from <= count && from < to <= count'
    requires count <= count' <= Max(count, to)
    requires forall i: nat | i < count :: i < excused || i in announced
    ensures
      var announced' := announced + Range(from, to);
      && Increasing(announced') && AllBelow(announced', count')
      && forall i: nat | i < count' :: i < excused || i in announced'
  {
    RangeAppended(announced, from, to);
  }

  lemma ServedWithNotices(p: Params, s: State, a: Answers, fate: Fate)
    requires BroadcastBounds.Inv(s) && SettledInv(s) && s.pass.Delivering? && s.pass.next < |s.pass.targets|
    requires !Repeats(p, s, DeliverNext(a, fate), Notices) && DeliveryAt(s, a).announced != []
    ensures
      var s', c := DeliverStep(s, a, fate), s.pass.targets[s.pass.next].chat;
      Settled(ToldOf(s'.told, c), Row(s', c))
  {
    var s', target, d, v := DeliverStep(s, a, fate), s.pass.targets[s.pass.next], DeliveryAt(s, a), s.pass.view;
    var c := target.chat;
    AnnouncedBy(s, a);
    ToldNow(s, a, fate);
    assert Settled(ToldOf(s.told, c), Row(s, c)) && FreshFor(s, target);
    assert RowAhead(v.chats[c], s.tables.chats[c]);
    var from := v.chats[c].notified.value;
    var to := from + |d.announced|;
    assert d.announced[to - from - 1] == to - 1 && d.announced[to - from - 1] in d.announced;
    SettledGrows(ToldOf(s.told, c).announced, ToldOf(s'.told, c).excused, Count(Row(s, c)), from, to, Count(Row(s', c)));
  }

  lemma ServedSilently(s: State, a: Answers, fate: Fate)
    requires BroadcastBounds.Inv(s) && SettledInv(s) && s.pass.Delivering? && s.pass.next < |s.pass.targets|
    requires DeliveryAt(s, a).announced == []
    ensures
      var s', c := DeliverStep(s, a, fate), s.pass.targets[s.pass.next].chat;
      Settled(ToldOf(s'.told, c), Row(s', c))
  {
    var target, d, v := s.pass.targets[s.pass.next], DeliveryAt(s, a), s.pass.view;
    AnnouncedBy(s, a);
    ToldNow(s, a, fate);
    assert Settled(ToldOf(s.told, target.chat), Row(s, target.chat));
    assert ToldOf(s.told, target.chat).announced + [] == ToldOf(s.told, target.chat).announced;
    assert target.chat in v.chats ==> RowAhead(v.chats[target.chat], s.tables.chats[target.chat]);
  }

  lemma ServedSettled(s: State, a: Answers, fate: Fate, p: Params)
    requires BroadcastBounds.Inv(s) && SettledInv(s) && s.pass.Delivering? && s.pass.next < |s.pass.targets|
    requires !Repeats(p, s, DeliverNext(a, fate), Notices)
    ensures
      var s', c := DeliverStep(s, a, fate), s.pass.targets[s.pass.next].chat;
      Settled(ToldOf(s'.told, c), Row(s', c))
  {
    if DeliveryAt(s, a).announced == [] {
      ServedSilently(s, a, fate);
    } else {
      ServedWithNotices(p, s, a, fate);
    }
  }

  lemma DeliverSettles(p: Params, s: State, a: Answers, fate: Fate)
    requires BroadcastBounds.Inv(s) && SettledInv(s) && s.pass.Delivering? && s.pass.next < |s.pass.targets|
    requires !Repeats(p, s, DeliverNext(a, fate), Notices)
    ensures SettledInv(DeliverStep(s, a, fate))
  {
    var s', next := DeliverStep(s, a, fate), s.pass.next;
    forall c: ChatId ensures Settled(ToldOf(s'.told, c), Row(s', c)) {
      if c == s.pass.targets[next].chat {
        ServedSettled(s, a, fate, p);
      } else {
        DeliverLeavesOthers(s, a, fate, c);
        assert Settled(ToldOf(s.told, c), Row(s, c));
      }
    }
    if s'.pass.Delivering? {
      forall j | next + 1 <= j < |s.pass.targets| ensures FreshFor(s', s.pass.targets[j]) {
        StillFresh(s, a, fate, j);
      }
    }
  }

  lemma StillFresh(s: State, a: Answers, fate: Fate, j: nat)
    requires SettledInv(s) && s.pass.Delivering? && s.pass.next < j < |s.pass.targets|
    ensures FreshFor(DeliverStep(s, a, fate), s.pass.targets[j])
  {
    var next, v := s.pass.next, s.pass.view;
    assert FreshFor(s, s.pass.targets[j]);
    if s.pass.targets[j].chat != s.pass.targets[next].chat {
      DeliverLeavesOthers(s, a, fate, s.pass.targets[j].chat);
    } else if Announces(v, s.pass.targets[j], s.pass.replies) {
      AnnouncedBy(s, a);
      ToldNow(s, a, fate);
      assert !Announces(v, s.pass.targets[next], s.pass.replies);
      assert ToldOf(s.told, s.pass.targets[next].chat).announced + [] == ToldOf(s.told, s.pass.targets[next].chat).announced;
    }
  }

  lemma ParkSettles(s: State, chat: ChatId, fate: Fate)
    requires SettledInv(s) && s.pass.Parking? && chat in s.pass.left && chat in s.pass.view.chats
    ensures SettledInv(ParkStep(s, chat, fate))
  {
    var s' := ParkStep(s, chat, fate);
    forall c: ChatId ensures Settled(ToldOf(s'.told, c), Row(s', c)) {
      ParkSettlesOne(s, chat, fate, c);
    }
  }

  lemma ParkSettlesOne(s: State, chat: ChatId, fate: Fate, c: ChatId)
    requires Settled(ToldOf(s.told, c), Row(s, c)) && s.pass.Parking? && chat in s.pass.view.chats
    ensures Settled(ToldOf(ParkStep(s, chat, fate).told, c), Row(ParkStep(s, chat, fate), c))
  {
  }

  lemma BroadcastSettles(p: Params, s: State, e: Step)
    requires BroadcastBounds.Inv(s) && SettledInv(s) && |s.marks| == |s.tables.log| && CanStep(p, s, e)
    requires e.Broadcast? && !Repeats(p, s, e, Notices)
    ensures SettledInv(Next(p, s, e))
  {
    var s' := Next(p, s, e);
    forall c: ChatId ensures Settled(ToldOf(s'.told, c), Row(s', c)) {
      assert Settled(ToldOf(s.told, c), Row(s, c));
    }
    forall j | 0 <= j < |e.targets| ensures FreshFor(s', e.targets[j]) {
      assert Settled(ToldOf(s.told, e.targets[j].chat), Row(s, e.targets[j].chat));
    }
  }

  /** The other steps tell nobody anything. */
  lemma OthersSettle(p: Params, s: State, e: Step)
    requires SettledInv(s) && |s.marks| == |s.tables.log| && CanStep(p, s, e)
    requires !e.DeliverNext? && !e.ParkChat? && !e.Broadcast?
    ensures SettledInv(Next(p, s, e))
  {
    var s' := Next(p, s, e);
    assert s'.told == s.told && s'.tables.chats == s.tables.chats;
    forall c: ChatId ensures Settled(ToldOf(s'.told, c), Row(s', c)) {
      assert Settled(ToldOf(s.told, c), Row(s, c));
    }
    if s'.pass.Delivering? {
      assert s'.pass == s.pass;
      forall j | s.pass.next <= j < |s.pass.targets| ensures FreshFor(s', s.pass.targets[j]) {
        assert FreshFor(s, s.pass.targets[j]);
      }
    }
  }

  ghost predicate AllSettled(p: Params, s: State) {
    Life.Inv(p, s) && BroadcastBounds.Inv(s) && SettledInv(s)
  }

  lemma NextSettles(p: Params, s: State, e: Step)
    requires BroadcastBounds.Inv(s) && SettledInv(s) && |s.marks| == |s.tables.log| && CanStep(p, s, e) && !Repeats(p, s, e, Notices)
    ensures SettledInv(Next(p, s, e))
  {
    match e
    case DeliverNext(a, fate) => DeliverSettles(p, s, a, fate);
    case ParkChat(chat, fate) => ParkSettles(s, chat, fate);
    case Broadcast(_, _) => BroadcastSettles(p, s, e);
    case _ => OthersSettle(p, s, e);
  }

  lemma StepSettles(p: Params, s: State, e: Step)
    requires AllSettled(p, s) && CanStep(p, s, e) && !Repeats(p, s, e, Notices)
    ensures AllSettled(p, Next(p, s, e))
  {
    LifeGivesBasics(p, s);
    NextSettles(p, s, e);
    BroadcastBounds.NextKeeps(p, s, e);
    Life.NextKeeps(p, s, e);
  }

  lemma {:induction false} RunSettles(p: Params, s: State, steps: seq<Step>, s': State)
    requires AllSettled(p, s) && OnceRun(p, s, steps, s', Notices)
    ensures AllSettled(p, s')
    decreases |steps|
  {
    if steps != [] {
      StepSettles(p, s, steps[0]);
      RunSettles(p, Next(p, s, steps[0]), steps[1..], s');
    }
  }

  /** Announcements go out in order and at most once; every event below the stored count was
      announced or the chat was excused from it; nothing at or above the count was announced. */
  lemma NoticesAtMostOnce(p: Params, steps: seq<Step>, s: State, chat: ChatId)
    requires OnceRun(p, BroadcastDelivery.Initial(), steps, s, Notices)
    ensures Increasing(ToldOf(s.told, chat).announced)
    ensures chat in s.tables.chats ==>
              forall i: nat | i < NotifiedCount(s.tables.chats[chat]) ::
                i < ToldOf(s.told, chat).excused || i in ToldOf(s.told, chat).announced
    ensures forall i <- ToldOf(s.told, chat).announced :: chat in s.tables.chats && i < NotifiedCount(s.tables.chats[chat])
  {
    RunSettles(p, BroadcastDelivery.Initial(), steps, s);
    assert Settled(ToldOf(s.told, chat), Row(s, chat));
  }

  // ── The other half ─────────────────────────────────────────────────

  const ALL_WELL := Answers(EditOk, SendOk(1), {}, {})

  lemma NoRefusal(from: nat, notices: nat)
    ensures FirstRefused(from, notices, {}) == if from <= notices then notices else from
    decreases notices - from
  {
    if from < notices {
      NoRefusal(from + 1, notices);
    }
  }

  /** Served well, a target announces everything its snapshot row lacks. */
  lemma AnnouncesAll(s: State)
    requires s.pass.Delivering? && s.pass.next < |s.pass.targets|
    requires Announces(s.pass.view, s.pass.targets[s.pass.next], s.pass.replies)
    ensures
      var s', c, n := DeliverStep(s, ALL_WELL, Committed), s.pass.targets[s.pass.next].chat, s.pass.view.chats[s.pass.targets[s.pass.next].chat].notified.value;
      && n <= |s.pass.view.cycle.events|
      && ToldOf(s'.told, c).announced == ToldOf(s.told, c).announced + Range(n, |s.pass.view.cycle.events|)
  {
    NoRefusal(s.pass.view.chats[s.pass.targets[s.pass.next].chat].notified.value, |s.pass.view.cycle.events|);
    ToldNow(s, ALL_WELL, Committed);
  }

  lemma AgainIsNotIncreasing(xs: seq<nat>, i: nat, from: nat, to: nat)
    requires i in xs && from <= i < to
    ensures !Increasing(xs + Range(from, to))
  {
    var ys, k := xs + Range(from, to), |xs| + (i - from);
    var j :| 0 <= j < |xs| && xs[j] == i;
    assert ys[j] == i && ys[k] == i;
  }

  /** An event other than the last one recorded. */
  function Another(t: Tables): Event {
    if t.cycle.Some? && |t.cycle.value.events| > 0 && t.cycle.value.events[|t.cycle.value.events| - 1].action == LONG
    then Event(SHORT, 0, 0) else Event(LONG, 0, 0)
  }

  /** After the pass died, another event is recorded and a pass loads it. */
  lemma NextChange(p: Params, s: State) returns (steps: seq<Step>, s': State)
    requires |s.marks| == |s.tables.log| && s.tables.cycle.Some? && p.maxAttempts > 0
    ensures OnceRun(p, s, steps, s', Notices) && s'.pass.Loaded? && |s'.marks| == |s'.tables.log|
    ensures s'.pass.view.cycle.lastSeq == s.tables.cycle.value.lastSeq + 1
    ensures |s'.pass.view.cycle.events| == |s.tables.cycle.value.events| + 1
    ensures s'.pass.view.chats == s.tables.chats && s'.told == s.told
  {
    var event := Another(s.tables);
    steps, s' := Step1(p, s, [], s, Crash, Notices);
    steps, s' := Step1(p, s, steps, s', Record(event), Notices);
    assert |s.tables.log| in ClaimableIds(s'.tables.log, p.maxAttempts);
    steps, s' := Step1(p, s, steps, s', Claim(Commits), Notices);
    steps, s' := Step1(p, s, steps, s', Load(true), Notices);
  }

  /** A healthy edit for one chat alone. */
  lemma EditedAlone(p: Params, s: State, before: seq<Step>, mid: State, target: Target) returns (steps: seq<Step>, s': State)
    requires OnceRun(p, s, before, mid, Notices) && |mid.marks| == |mid.tables.log| && mid.pass.Loaded?
    requires Announces(mid.pass.view, target, Replies(true, true))
    ensures OnceRun(p, s, steps, s', Notices)
    ensures
      var n := mid.pass.view.chats[target.chat].notified.value;
      && n <= |mid.pass.view.cycle.events|
      && ToldOf(s'.told, target.chat).announced == ToldOf(mid.told, target.chat).announced + Range(n, |mid.pass.view.cycle.events|)
  {
    steps, s' := Step1(p, s, before, mid, Broadcast([target], Replies(true, true)), Notices);
    AnnouncesAll(s');
    steps, s' := Step1(p, s, steps, s', DeliverNext(ALL_WELL, Committed), Notices);
  }

  /** With the next change, a chat behind announces everything from its stored count again. */
  lemma AnnouncedWithNextChange(p: Params, start: State, target: Target, i: nat) returns (rest: seq<Step>, s': State)
    requires |start.marks| == |start.tables.log| && start.tables.cycle.Some? && p.maxAttempts > 0
    requires target.chat in start.tables.chats && i in ToldOf(start.told, target.chat).announced
    requires
      var row, c := start.tables.chats[target.chat], start.tables.cycle.value;
      && row.messageId.Some? && row.deliveredSeq <= c.lastSeq
      && row.notified.Some? && row.notified.value <= i < |c.events|
    ensures OnceRun(p, start, rest, s', Notices) && !Increasing(HistoryOf(s', target.chat, Notices))
  {
    rest, s' := NextChange(p, start);
    AgainIsNotIncreasing(ToldOf(start.told, target.chat).announced, i, start.tables.chats[target.chat].notified.value, |s'.pass.view.cycle.events|);
    rest, s' := EditedAlone(p, start, rest, s', target);
  }

  /** An announcement the stored count does not cover is made again with the next change. */
  lemma UnrecordedNoticeRepeats(p: Params, s: State, e: Step) returns (rest: seq<Step>, s': State)
    requires Life.Inv(p, s) && BroadcastBounds.Inv(s) && s.tables.cycle.Some? && CanStep(p, s, e) && e.DeliverNext? && Repeats(p, s, e, Notices)
    requires p.maxAttempts > 0
    ensures OnceRun(p, Next(p, s, e), rest, s', Notices)
    ensures !Increasing(HistoryOf(s', s.pass.targets[s.pass.next].chat, Notices))
  {
    var target := s.pass.targets[s.pass.next];
    var i :| i in DeliveryAt(s, e.answers).announced && Count(RowAfter(s, e.answers, e.fate)) <= i;
    LostNotice(p, s, e, i);
    rest, s' := AnnouncedWithNextChange(p, Next(p, s, e), target, i);
  }

  /** The facts after such a step: the stored row is there, behind the next change, and its count
      does not cover the announced index. */
  lemma LostNotice(p: Params, s: State, e: Step, i: nat)
    requires Life.Inv(p, s) && BroadcastBounds.Inv(s) && s.tables.cycle.Some? && CanStep(p, s, e) && e.DeliverNext?
    requires i in DeliveryAt(s, e.answers).announced && Count(RowAfter(s, e.answers, e.fate)) <= i
    ensures
      var start, c := Next(p, s, e), s.pass.targets[s.pass.next].chat;
      && |start.marks| == |start.tables.log| && start.tables.cycle == s.tables.cycle && c in start.tables.chats
      && i in ToldOf(start.told, c).announced
      && start.tables.chats[c].messageId.Some? && start.tables.chats[c].deliveredSeq <= start.tables.cycle.value.lastSeq
      && start.tables.chats[c].notified.Some? && start.tables.chats[c].notified.value <= i < |start.tables.cycle.value.events|
  {
    var start, c, v := Next(p, s, e), s.pass.targets[s.pass.next].chat, s.pass.view;
    LifeGivesBasics(p, s);
    AnnouncedBy(s, e.answers);
    ToldNow(s, e.answers, e.fate);
    BroadcastBounds.NextKeeps(p, s, e);
    AheadTransitive(v.chats, s.tables.chats, start.tables.chats);
    assert RowAhead(v.chats[c], start.tables.chats[c]);
    assert RowBounded(start.tables.chats[c], |start.tables.log|, EventCount(start.tables));
  }

  // ── A chat named twice ─────────────────────────────────────────────

  /** Serves so many more targets well; nothing announced is forgotten. */
  lemma {:induction false} WellServed(p: Params, s: State, before: seq<Step>, mid: State, many: nat, c: ChatId)
      returns (steps: seq<Step>, s': State)
    requires OnceRun(p, s, before, mid, Notices) && |mid.marks| == |mid.tables.log|
    requires mid.pass.Delivering? && mid.pass.next + many <= |mid.pass.targets|
    ensures OnceRun(p, s, steps, s', Notices) && |s'.marks| == |s'.tables.log|
    ensures s'.pass.Delivering? && s'.pass == mid.pass.(next := mid.pass.next + many, ok := s'.pass.ok)
    ensures forall i <- ToldOf(mid.told, c).announced :: i in ToldOf(s'.told, c).announced
    decreases many
  {
    steps, s' := before, mid;
    if many > 0 {
      ToldNow(mid, ALL_WELL, Committed);
      steps, s' := Step1(p, s, before, mid, DeliverNext(ALL_WELL, Committed), Notices);
      if c != mid.pass.targets[mid.pass.next].chat {
        DeliverLeavesOthers(mid, ALL_WELL, Committed, c);
      }
      steps, s' := WellServed(p, s, steps, s', many - 1, c);
    }
  }

  lemma AnnouncesAgain(p: Params, s: State, before: seq<Step>, mid: State, n: nat) returns (steps: seq<Step>, s': State)
    requires OnceRun(p, s, before, mid, Notices) && |mid.marks| == |mid.tables.log|
    requires mid.pass.Delivering? && mid.pass.next < |mid.pass.targets|
    requires Announces(mid.pass.view, mid.pass.targets[mid.pass.next], mid.pass.replies)
    requires n == mid.pass.view.chats[mid.pass.targets[mid.pass.next].chat].notified.value
    ensures OnceRun(p, s, steps, s', Notices) && |s'.marks| == |s'.tables.log|
    ensures s'.pass.Delivering? && s'.pass == mid.pass.(next := mid.pass.next + 1, ok := s'.pass.ok)
    ensures
      var c := mid.pass.targets[mid.pass.next].chat;
      && n in ToldOf(s'.told, c).announced
      && (n in ToldOf(mid.told, c).announced ==> !Increasing(ToldOf(s'.told, c).announced))
  {
    var c, m := mid.pass.targets[mid.pass.next].chat, |mid.pass.view.cycle.events|;
    AnnouncesAll(mid);
    steps, s' := Step1(p, s, before, mid, DeliverNext(ALL_WELL, Committed), Notices);
    assert Range(n, m)[0] == n;
    if n in ToldOf(mid.told, c).announced {
      AgainIsNotIncreasing(ToldOf(mid.told, c).announced, n, n, m);
    }
  }

  /** A pass that gets past target `j`, whose notices are on and owed. */
  lemma AnnouncedOnce(p: Params, start: State, j: nat) returns (steps: seq<Step>, s': State)
    requires |start.marks| == |start.tables.log| && start.pass.Delivering? && start.pass.next == 0 && j < |start.pass.targets|
    requires Announces(start.pass.view, start.pass.targets[j], start.pass.replies)
    ensures OnceRun(p, start, steps, s', Notices) && |s'.marks| == |s'.tables.log|
    ensures s'.pass.Delivering? && s'.pass == start.pass.(next := j + 1, ok := s'.pass.ok)
    ensures
      var c := start.pass.targets[j].chat;
      start.pass.view.chats[c].notified.value in ToldOf(s'.told, c).announced
  {
    var c := start.pass.targets[j].chat;
    steps, s' := WellServed(p, start, [], start, j, c);
    steps, s' := AnnouncesAgain(p, start, steps, s', start.pass.view.chats[c].notified.value);
  }

  /** And so to the second target of the same chat. */
  lemma AnnouncedAgain(p: Params, start: State, j: nat, k: nat) returns (steps: seq<Step>, s': State)
    requires |start.marks| == |start.tables.log| && start.pass.Delivering? && start.pass.next == 0 && j < k < |start.pass.targets|
    requires start.pass.targets[j].chat == start.pass.targets[k].chat
    requires Announces(start.pass.view, start.pass.targets[j], start.pass.replies)
    requires Announces(start.pass.view, start.pass.targets[k], start.pass.replies)
    ensures OnceRun(p, start, steps, s', Notices) && !Increasing(HistoryOf(s', start.pass.targets[j].chat, Notices))
  {
    steps, s' := AnnouncedOnce(p, start, j);
    steps, s' := AnnouncedLater(p, start, steps, s', k, start.pass.view.chats[start.pass.targets[k].chat].notified.value);
  }

  /** A pass with the notice in the chat already gets to another target of that chat. */
  lemma AnnouncedLater(p: Params, start: State, before: seq<Step>, mid: State, k: nat, n: nat) returns (steps: seq<Step>, s': State)
    requires OnceRun(p, start, before, mid, Notices) && |mid.marks| == |mid.tables.log|
    requires mid.pass.Delivering? && mid.pass.next <= k < |mid.pass.targets|
    requires Announces(mid.pass.view, mid.pass.targets[k], mid.pass.replies)
    requires n == mid.pass.view.chats[mid.pass.targets[k].chat].notified.value
    requires n in ToldOf(mid.told, mid.pass.targets[k].chat).announced
    ensures OnceRun(p, start, steps, s', Notices) && !Increasing(HistoryOf(s', mid.pass.targets[k].chat, Notices))
  {
    steps, s' := WellServed(p, start, before, mid, k - mid.pass.next, mid.pass.targets[k].chat);
    steps, s' := AnnouncesAgain(p, start, steps, s', n);
  }

  /** A pass over targets that name a chat twice, with notices on for both, announces twice. */
  lemma RepeatedTargetAnnounces(p: Params, s: State, e: Step) returns (rest: seq<Step>, s': State, c: ChatId)
    requires |s.marks| == |s.tables.log| && CanStep(p, s, e) && e.Broadcast? && Repeats(p, s, e, Notices)
    ensures OnceRun(p, Next(p, s, e), rest, s', Notices) && !Increasing(HistoryOf(s', c, Notices))
  {
    var v := s.pass.view;
    var j, k :| 0 <= j < k < |e.targets| && e.targets[j].chat == e.targets[k].chat
                && Announces(v, e.targets[j], e.replies) && Announces(v, e.targets[k], e.replies);
    c := e.targets[j].chat;
    rest, s' := AnnouncedAgain(p, Next(p, s, e), j, k);
  }

  // ── The guarantee is exact ─────────────────────────────────────────

  lemma NeverAnnouncedTwice(p: Params, s: State)
    requires AllSettled(p, s)
    ensures !CanRepeatAfter(p, s, Notices)
  {
    forall rest, s' | OnceRun(p, s, rest, s', Notices) ensures !OutOfOrder(s', Notices) {
      RunSettles(p, s, rest, s');
      forall c: ChatId ensures Increasing(HistoryOf(s', c, Notices)) {
        assert Settled(ToldOf(s'.told, c), Row(s', c));
      }
    }
  }

  /** A pass under way has claimed something, so there was an attempt to spend. */
  lemma PassHasWork(p: Params, s: State)
    requires Life.Inv(p, s) && BroadcastBounds.Inv(s) && s.pass.Delivering?
    ensures s.tables.cycle.Some? && p.maxAttempts > 0
  {
    var i :| i in s.pass.ids;
    assert i in Life.Held(s);
    assert Life.EntrySound(s.tables.log[i], s.marks[i], p.maxAttempts);
  }

  lemma AnnouncesTwiceFrom(p: Params, s: State, e: Step)
    requires Life.Inv(p, s) && BroadcastBounds.Inv(s) && CanStep(p, s, e) && Repeats(p, s, e, Notices)
    ensures CanRepeatAfter(p, Next(p, s, e), Notices)
  {
    LifeGivesBasics(p, s);
    if e.DeliverNext? {
      PassHasWork(p, s);
      var rest, s' := UnrecordedNoticeRepeats(p, s, e);
    } else {
      var rest, s', c := RepeatedTargetAnnounces(p, s, e);
    }
  }

  /** From any reachable state, a step on the list can be followed by a run without another one in
      which an event is announced twice. */
  lemma RepeatingStepAnnouncesTwice(p: Params, s: State, e: Step)
    requires Reachable(p, s) && |s.marks| == |s.tables.log| && CanStep(p, s, e) && Repeats(p, s, e, Notices)
    ensures CanRepeatAfter(p, Next(p, s, e), Notices)
  {
    ReachableSound(p, s);
    AnnouncesTwiceFrom(p, s, e);
  }

  /** And only such a step can. */
  lemma AnnouncesTwiceIff(p: Params, steps: seq<Step>, s: State, e: Step)
    requires OnceRun(p, BroadcastDelivery.Initial(), steps, s, Notices)
    requires |s.marks| == |s.tables.log| && CanStep(p, s, e)
    ensures Repeats(p, s, e, Notices) <==> CanRepeatAfter(p, Next(p, s, e), Notices)
  {
    RunSettles(p, BroadcastDelivery.Initial(), steps, s);
    if Repeats(p, s, e, Notices) {
      AnnouncesTwiceFrom(p, s, e);
    } else {
      StepSettles(p, s, e);
      NeverAnnouncedTwice(p, Next(p, s, e));
    }
  }
}

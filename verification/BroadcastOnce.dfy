/** At most once: no chat is shown an older body after a newer one, none is posted twice, and no event
    is announced twice. `Repeats` is the exact list of steps after which that can break, for each of
    the three. Load failures and failed writes of deliveries that reached nobody are no obstacle.
    Announcements are taken up in `BroadcastNotices`. */
module BroadcastOnce {
  import opened Wrappers
  import opened BroadcastLog
  import opened BroadcastDelivery
  import opened BroadcastBounds
  import Life = BroadcastLifecycle

  /** Which history of a chat is meant: every body put into it, only new messages, or the events
      announced under them. */
  datatype Kind = Bodies | Posts | Notices

  function History(t: Told, kind: Kind): seq<nat> {
    match kind
    case Bodies => t.shown
    case Posts => t.posts
    case Notices => t.announced
  }

  predicate Adds(d: Delivery, kind: Kind) {
    match kind
    case Bodies => d.shown
    case Posts => d.posted
    case Notices => d.announced != []
  }

  ghost predicate Increasing(xs: seq<nat>) {
    forall i, j | 0 <= i < j < |xs| :: xs[i] < xs[j]
  }

  /** The newest sequence number in a history. */
  function Last(xs: seq<nat>): nat {
    if xs == [] then 0 else xs[|xs| - 1]
  }

  /** The sequence number stored for a chat. */
  function Seen(row: Option<ChatRow>): nat {
    if row.Some? then row.value.deliveredSeq else 0
  }

  /** The snapshot takes this chat to be behind. */
  predicate BehindView(v: View, c: ChatId) {
    c !in v.chats || v.chats[c].deliveredSeq < v.cycle.lastSeq
  }

  /** No entry of the log can be claimed any more, now or after a reclaim: each is closed, and not in
      the hands of a reclaim, or without attempts. */
  ghost predicate NothingLeft(s: State, maxAttempts: nat) {
    forall i | 0 <= i < |s.tables.log| :: Life.Final(s, i) || s.tables.log[i].attempts >= maxAttempts
  }

  /** Two of the targets from position `from` on are one chat, and it is behind. */
  ghost predicate Repeated(v: View, targets: seq<Target>, from: nat) {
    exists j, k | from <= j < k < |targets| :: targets[j].chat == targets[k].chat && BehindView(v, targets[j].chat)
  }

  /** An edit of this target would announce something, were nothing refused. */
  predicate Announces(v: View, target: Target, replies: Replies) {
    && target.chat in v.chats && Enabled(replies, target.audience)
    && var row := v.chats[target.chat];
       row.messageId.Some? && row.deliveredSeq < v.cycle.lastSeq && row.notified.Some? && row.notified.value < |v.cycle.events|
  }

  ghost predicate AnnouncedTwice(v: View, targets: seq<Target>, replies: Replies, from: nat) {
    exists j, k | from <= j < k < |targets| ::
      targets[j].chat == targets[k].chat && Announces(v, targets[j], replies) && Announces(v, targets[k], replies)
  }

  function Count(row: Option<ChatRow>): nat {
    if row.Some? then NotifiedCount(row.value) else 0
  }

  /** The stored row of the chat just served. */
  function RowAfter(s: State, a: Answers, fate: Fate): Option<ChatRow>
    requires s.pass.Delivering? && s.pass.next < |s.pass.targets|
  {
    Row(DeliverStep(s, a, fate), s.pass.targets[s.pass.next].chat)
  }

  /** The steps that can end with something reaching a chat twice. For bodies and posts:
      a pass over targets that name a chat twice while it is behind;
      a delivery that put its body in the chat and leaves the stored row behind it, written down or
      not, when no newer change is recorded yet and some entry, not closed for good, has an attempt left.
      For notices:
      a pass over targets that name a chat twice, with notices on for both;
      a delivery that announced an event and leaves the stored count at or below it: it was not
      written down, or Telegram took the notice without answering. */
  ghost predicate Repeats(p: Params, s: State, e: Step, kind: Kind) {
    match e
    case Broadcast(targets, replies) =>
      && s.pass.Loaded?
      && if kind.Notices? then AnnouncedTwice(s.pass.view, targets, replies, 0) else Repeated(s.pass.view, targets, 0)
    case DeliverNext(a, fate) =>
      && s.pass.Delivering? && s.pass.next < |s.pass.targets|
      && var row := RowAfter(s, a, fate);
         if kind.Notices? then exists i <- DeliveryAt(s, a).announced :: Count(row) <= i
         else
           && Adds(DeliveryAt(s, a), kind) && Seen(row) < s.pass.view.cycle.lastSeq
           && LastSeq(s.tables) == s.pass.view.cycle.lastSeq
           && !NothingLeft(DeliverStep(s, a, fate), p.maxAttempts)
    case _ => false
  }

  ghost predicate OnceRun(p: Params, s: State, steps: seq<Step>, s': State, kind: Kind)
    decreases |steps|
  {
    if steps == [] then s == s'
    else
      && |s.marks| == |s.tables.log| && CanStep(p, s, steps[0]) && !Repeats(p, s, steps[0], kind)
      && OnceRun(p, Next(p, s, steps[0]), steps[1..], s', kind)
  }

  // ── The invariant ──────────────────────────────────────────────────

  function HistoryOf(s: State, c: ChatId, kind: Kind): seq<nat> {
    History(ToldOf(s.told, c), kind)
  }

  function Row(s: State, c: ChatId): Option<ChatRow> {
    Existing(s.tables.chats, c)
  }

  /** Whatever pass loads the cycle from now on, it has something newer for the chat, or knows
      that the chat is up to date. */
  ghost predicate Safe(s: State, c: ChatId, kind: Kind, newest: nat) {
    Last(HistoryOf(s, c, kind)) <= Seen(Row(s, c)) || Last(HistoryOf(s, c, kind)) < newest
  }

  ghost predicate AllSafe(s: State, kind: Kind, newest: nat) {
    forall c: ChatId :: Safe(s, c, kind, newest)
  }

  ghost predicate ChatSound(p: Params, s: State, c: ChatId, kind: Kind) {
    && Increasing(HistoryOf(s, c, kind))
    && Last(HistoryOf(s, c, kind)) <= LastSeq(s.tables)
    && (Safe(s, c, kind, LastSeq(s.tables)) || NothingLeft(s, p.maxAttempts))
  }

  /** The target is up to date in the snapshot, or the snapshot has its row and it is safe to serve. */
  ghost predicate TargetSound(s: State, v: View, c: ChatId, kind: Kind) {
    BehindView(v, c) ==> Existing(v.chats, c) == Row(s, c) && Safe(s, c, kind, v.cycle.lastSeq)
  }

  ghost predicate PassSound(s: State, kind: Kind) {
    match s.pass
    case Claimed(_) => AllSafe(s, kind, LastSeq(s.tables))
    case Reading(_, v) => AllSafe(s, kind, v.cycle.lastSeq)
    case Loaded(_, v) => AllSafe(s, kind, v.cycle.lastSeq)
    case Parking(_, _, _) => AllSafe(s, kind, LastSeq(s.tables))
    case Delivering(_, v, targets, _, next, _) =>
      && !Repeated(v, targets, next)
      && forall j | next <= j < |targets| :: TargetSound(s, v, targets[j].chat, kind)
    case _ => true
  }

  ghost predicate ChatsSound(p: Params, s: State, kind: Kind) {
    forall c: ChatId :: ChatSound(p, s, c, kind)
  }

  ghost predicate Inv(p: Params, s: State, kind: Kind) {
    !kind.Notices? && ChatsSound(p, s, kind) && PassSound(s, kind)
  }

  lemma AppendIncreasing(xs: seq<nat>, x: nat)
    requires Increasing(xs) && Last(xs) < x
    ensures Increasing(xs + [x]) && Last(xs + [x]) == x
  {
  }

  // ── Deliveries ─────────────────────────────────────────────────────

  /** A body is shown only to a chat that is behind. */
  lemma ShownToTheBehind(s: State, a: Answers)
    requires s.pass.Delivering? && s.pass.next < |s.pass.targets|
    ensures
      var d, v := DeliveryAt(s, a), s.pass.view;
      && (d.shown ==> BehindView(v, s.pass.targets[s.pass.next].chat))
      && (d.posted ==> d.shown)
  {
  }

  /** What one delivery does to the history and the row of its chat. */
  lemma DeliveredHistory(s: State, a: Answers, fate: Fate, kind: Kind)
    requires !kind.Notices? && s.pass.Delivering? && s.pass.next < |s.pass.targets|
    ensures
      var s', c, d := DeliverStep(s, a, fate), s.pass.targets[s.pass.next].chat, DeliveryAt(s, a);
      && HistoryOf(s', c, kind) == HistoryOf(s, c, kind) + (if Adds(d, kind) then [s.pass.view.cycle.lastSeq] else [])
      && Seen(Row(s', c)) >= Seen(Row(s, c))
      && s'.tables.log == s.tables.log && s'.tables.cycle == s.tables.cycle && s'.stale <= s.stale
  {
    ShownToTheBehind(s, a);
    var s', c, d := DeliverStep(s, a, fate), s.pass.targets[s.pass.next].chat, DeliveryAt(s, a);
    var t := ToldOf(s.told, c);
    assert t.shown + [] == t.shown && t.posts + [] == t.posts;
    assert ToldOf(s'.told, c) == ToldAfter(t, d, s.pass.view.cycle.lastSeq);
  }

  lemma DeliverLeavesOthers(s: State, a: Answers, fate: Fate, c: ChatId)
    requires s.pass.Delivering? && s.pass.next < |s.pass.targets| && c != s.pass.targets[s.pass.next].chat
    ensures
      var s' := DeliverStep(s, a, fate);
      && ToldOf(s'.told, c) == ToldOf(s.told, c) && Row(s', c) == Row(s, c)
      && s'.tables.log == s.tables.log && s'.tables.cycle == s.tables.cycle && s'.stale <= s.stale
  {
  }

  /** A chat that was given nothing. */
  lemma UnservedChatSound(p: Params, s: State, s': State, c: ChatId, kind: Kind)
    requires ChatSound(p, s, c, kind)
    requires HistoryOf(s', c, kind) == HistoryOf(s, c, kind) && Seen(Row(s, c)) <= Seen(Row(s', c))
    requires s'.tables.log == s.tables.log && s'.tables.cycle == s.tables.cycle && s'.stale <= s.stale
    ensures ChatSound(p, s', c, kind)
  {
    if NothingLeft(s, p.maxAttempts) {
      forall i | 0 <= i < |s'.tables.log| ensures Life.Final(s', i) || s'.tables.log[i].attempts >= p.maxAttempts {
        assert Life.Final(s, i) || s.tables.log[i].attempts >= p.maxAttempts;
      }
    }
  }

  lemma ServedChatSound(p: Params, s: State, a: Answers, fate: Fate, kind: Kind)
    requires BroadcastBounds.Inv(s) && Basics(s) && Inv(p, s, kind)
    requires s.pass.Delivering? && s.pass.next < |s.pass.targets| && !Repeats(p, s, DeliverNext(a, fate), kind)
    ensures ChatSound(p, DeliverStep(s, a, fate), s.pass.targets[s.pass.next].chat, kind)
  {
    var c, d, v := s.pass.targets[s.pass.next].chat, DeliveryAt(s, a), s.pass.view;
    DeliveredHistory(s, a, fate, kind);
    ShownToTheBehind(s, a);
    assert ChatSound(p, s, c, kind);
    if Adds(d, kind) {
      assert TargetSound(s, v, c, kind);
      AppendIncreasing(HistoryOf(s, c, kind), v.cycle.lastSeq);
    } else {
      assert HistoryOf(s, c, kind) + [] == HistoryOf(s, c, kind);
      UnservedChatSound(p, s, DeliverStep(s, a, fate), c, kind);
    }
  }

  lemma DeliverChats(p: Params, s: State, a: Answers, fate: Fate, kind: Kind)
    requires BroadcastBounds.Inv(s) && Basics(s) && Inv(p, s, kind)
    requires s.pass.Delivering? && s.pass.next < |s.pass.targets| && !Repeats(p, s, DeliverNext(a, fate), kind)
    ensures ChatsSound(p, DeliverStep(s, a, fate), kind)
  {
    forall c: ChatId ensures ChatSound(p, DeliverStep(s, a, fate), c, kind) {
      if c == s.pass.targets[s.pass.next].chat {
        ServedChatSound(p, s, a, fate, kind);
      } else {
        DeliverLeavesOthers(s, a, fate, c);
        assert ChatSound(p, s, c, kind);
        UnservedChatSound(p, s, DeliverStep(s, a, fate), c, kind);
      }
    }
  }

  lemma DeliverPass(s: State, a: Answers, fate: Fate, kind: Kind)
    requires PassSound(s, kind) && s.pass.Delivering? && s.pass.next < |s.pass.targets|
    ensures PassSound(DeliverStep(s, a, fate), kind)
  {
    var s', v, targets, next := DeliverStep(s, a, fate), s.pass.view, s.pass.targets, s.pass.next;
    forall j | next + 1 <= j < |targets| ensures TargetSound(s', v, targets[j].chat, kind) {
      assert TargetSound(s, v, targets[j].chat, kind);
      if targets[j].chat != targets[next].chat {
        DeliverLeavesOthers(s, a, fate, targets[j].chat);
      }
    }
  }

  // ── The other steps ────────────────────────────────────────────────

  /** Histories and rows stay, the cycle may only grow, and what is left in the log only shrinks. */
  lemma ChatStays(p: Params, s: State, s': State, c: ChatId, kind: Kind)
    requires ChatSound(p, s, c, kind)
    requires HistoryOf(s', c, kind) == HistoryOf(s, c, kind) && Seen(Row(s, c)) <= Seen(Row(s', c))
    requires LastSeq(s.tables) <= LastSeq(s'.tables)
    requires LastSeq(s.tables) == LastSeq(s'.tables) && NothingLeft(s, p.maxAttempts) ==>
               NothingLeft(s', p.maxAttempts) || Safe(s, c, kind, LastSeq(s.tables))
    ensures ChatSound(p, s', c, kind)
  {
  }

  lemma SafeStays(s: State, s': State, kind: Kind, newest: nat, newest': nat)
    requires AllSafe(s, kind, newest) && newest <= newest'
    requires s'.told == s.told && s'.tables.chats == s.tables.chats
    ensures AllSafe(s', kind, newest')
  {
    forall c: ChatId ensures Safe(s', c, kind, newest') {
      assert Safe(s, c, kind, newest);
    }
  }

  lemma PassStays(s: State, s': State, kind: Kind)
    requires PassSound(s, kind) && s'.pass == s.pass && LastSeq(s.tables) <= LastSeq(s'.tables)
    requires s'.told == s.told && s'.tables.chats == s.tables.chats
    ensures PassSound(s', kind)
  {
    match s.pass
    case Claimed(_) => SafeStays(s, s', kind, LastSeq(s.tables), LastSeq(s'.tables));
    case Reading(_, v) => SafeStays(s, s', kind, v.cycle.lastSeq, v.cycle.lastSeq);
    case Loaded(_, v) => SafeStays(s, s', kind, v.cycle.lastSeq, v.cycle.lastSeq);
    case Parking(_, _, _) => SafeStays(s, s', kind, LastSeq(s.tables), LastSeq(s'.tables));
    case Delivering(_, v, targets, _, next, _) =>
      forall j | next <= j < |targets| ensures TargetSound(s', v, targets[j].chat, kind) {
        assert TargetSound(s, v, targets[j].chat, kind);
      }
    case _ =>
  }

  lemma ParkOnce(p: Params, s: State, chat: ChatId, fate: Fate, kind: Kind, c: ChatId)
    requires s.pass.Parking? && chat in s.pass.left && chat in s.pass.view.chats
    ensures
      var s' := ParkStep(s, chat, fate);
      && HistoryOf(s', c, kind) == HistoryOf(s, c, kind) && Seen(Row(s', c)) == Seen(Row(s, c))
      && s'.tables.log == s.tables.log && s'.tables.cycle == s.tables.cycle && s'.stale <= s.stale
  {
  }

  lemma ParkKeeps(p: Params, s: State, chat: ChatId, fate: Fate, kind: Kind)
    requires Inv(p, s, kind) && s.pass.Parking? && chat in s.pass.left && chat in s.pass.view.chats
    ensures Inv(p, ParkStep(s, chat, fate), kind)
  {
    var s' := ParkStep(s, chat, fate);
    forall c: ChatId ensures ChatSound(p, s', c, kind) && Safe(s', c, kind, LastSeq(s'.tables)) {
      ParkOnce(p, s, chat, fate, kind, c);
      assert ChatSound(p, s, c, kind) && Safe(s, c, kind, LastSeq(s.tables));
    }
  }

  lemma WriterKeeps(p: Params, s: State, e: Step, kind: Kind)
    requires BroadcastBounds.Inv(s) && Basics(s) && Inv(p, s, kind) && (e.Record? || e.Execute?)
    ensures Inv(p, Next(p, s, e), kind)
  {
    var s' := Next(p, s, e);
    assert s'.told == s.told && s'.tables.chats == s.tables.chats && s'.pass == s.pass;
    assert s'.tables.log == s.tables.log || LastSeq(s'.tables) > LastSeq(s.tables);
    forall c: ChatId ensures ChatSound(p, s', c, kind) {
      ChatStays(p, s, s', c, kind);
    }
    PassStays(s, s', kind);
  }

  lemma ClaimOnce(p: Params, s: State, db: Db, kind: Kind)
    requires Basics(s) && Inv(p, s, kind) && s.pass.Idle?
    ensures Inv(p, ClaimNext(p, s, db), kind)
  {
    var s' := ClaimNext(p, s, db);
    if NothingLeft(s, p.maxAttempts) {
      assert ClaimableIds(s.tables.log, p.maxAttempts) == {};
    }
    forall c: ChatId
      ensures ChatSound(p, s', c, kind)
      ensures s'.pass.Claimed? ==> Safe(s', c, kind, LastSeq(s'.tables))
    {
      assert ChatSound(p, s, c, kind);
    }
  }

  lemma LoadOnce(p: Params, s: State, found: bool, kind: Kind)
    requires BroadcastBounds.Inv(s) && Inv(p, s, kind) && |s.marks| == |s.tables.log| && CanStep(p, s, Load(found))
    ensures Inv(p, Next(p, s, Load(found)), kind)
  {
    var s' := Next(p, s, Load(found));
    if found {
      SafeStays(s, s', kind, LastSeq(s.tables), LastSeq(s'.tables));
    }
    forall c: ChatId ensures ChatSound(p, s', c, kind) {
      assert ChatSound(p, s, c, kind);
    }
  }

  lemma ReadOnce(p: Params, s: State, kind: Kind)
    requires Inv(p, s, kind) && |s.marks| == |s.tables.log| && CanStep(p, s, Read)
    ensures Inv(p, Next(p, s, Read), kind)
  {
    var s' := Next(p, s, Read);
    SafeStays(s, s', kind, LastSeq(s.tables), s'.pass.view.cycle.lastSeq);
    forall c: ChatId ensures ChatSound(p, s', c, kind) {
      assert ChatSound(p, s, c, kind);
    }
  }

  lemma WorkersOnce(p: Params, s: State, kind: Kind)
    requires Inv(p, s, kind) && |s.marks| == |s.tables.log| && CanStep(p, s, ReadWorkers)
    ensures Inv(p, Next(p, s, ReadWorkers), kind)
  {
    var s' := Next(p, s, ReadWorkers);
    SafeStays(s, s', kind, s.pass.view.cycle.lastSeq, s.pass.view.cycle.lastSeq);
    forall c: ChatId ensures ChatSound(p, s', c, kind) {
      assert ChatSound(p, s, c, kind);
    }
  }

  lemma BroadcastOnceMore(p: Params, s: State, e: Step, kind: Kind)
    requires BroadcastBounds.Inv(s) && Inv(p, s, kind) && |s.marks| == |s.tables.log| && CanStep(p, s, e)
    requires e.Broadcast? && !Repeats(p, s, e, kind)
    ensures Inv(p, Next(p, s, e), kind)
  {
    var s' := Next(p, s, e);
    forall c: ChatId ensures ChatSound(p, s', c, kind) && TargetSound(s', s.pass.view, c, kind) {
      assert ChatSound(p, s, c, kind) && Safe(s, c, kind, s.pass.view.cycle.lastSeq);
    }
  }

  lemma ParkStarts(p: Params, s: State, kind: Kind)
    requires BroadcastBounds.Inv(s) && Basics(s) && Inv(p, s, kind) && s.pass.Loaded?
    ensures Inv(p, Next(p, s, Park), kind)
  {
    var s' := Next(p, s, Park);
    forall c: ChatId ensures ChatSound(p, s', c, kind) && Safe(s', c, kind, LastSeq(s'.tables)) {
      assert ChatSound(p, s, c, kind) && Safe(s, c, kind, s.pass.view.cycle.lastSeq);
    }
  }

  /** A close leaves entries closed, or as spent as they were, unless it hands a parked pass back. */
  lemma CloseSpends(p: Params, s: State, db: Db)
    requires Life.Inv(p, s) && CanStep(p, s, Close(db)) && !s.pass.Parking?
    requires NothingLeft(s, p.maxAttempts)
    ensures NothingLeft(CloseStep(p, s, db), p.maxAttempts)
  {
    assert Life.Held(s) == s.pass.ids;
  }

  lemma CloseOnce(p: Params, s: State, db: Db, kind: Kind)
    requires Life.Inv(p, s) && Inv(p, s, kind) && CanStep(p, s, Close(db))
    ensures Inv(p, CloseStep(p, s, db), kind)
  {
    var s' := CloseStep(p, s, db);
    if !s.pass.Parking? && NothingLeft(s, p.maxAttempts) {
      CloseSpends(p, s, db);
    }
    forall c: ChatId ensures ChatSound(p, s', c, kind) {
      assert ChatSound(p, s, c, kind);
      assert s.pass.Parking? ==> Safe(s, c, kind, LastSeq(s.tables));
      ChatStays(p, s, s', c, kind);
    }
  }

  /** The sweeper hands nothing back that has an attempt left and was closed. */
  lemma SweepSpends(p: Params, s: State, e: Step)
    requires |s.marks| == |s.tables.log| && CanStep(p, s, e) && (e.FindStale? || e.Reclaim? || e.Crash?)
    requires NothingLeft(s, p.maxAttempts)
    ensures NothingLeft(Next(p, s, e), p.maxAttempts)
  {
    var s' := Next(p, s, e);
    forall i | 0 <= i < |s'.tables.log| ensures Life.Final(s', i) || s'.tables.log[i].attempts >= p.maxAttempts {
      assert Life.Final(s, i) || s.tables.log[i].attempts >= p.maxAttempts;
    }
  }

  lemma IdleKeeps(p: Params, s: State, e: Step, kind: Kind)
    requires Inv(p, s, kind) && |s.marks| == |s.tables.log| && CanStep(p, s, e) && (e.FindStale? || e.Reclaim? || e.Crash?)
    ensures Inv(p, Next(p, s, e), kind)
  {
    var s' := Next(p, s, e);
    assert s'.told == s.told && s'.tables.chats == s.tables.chats;
    if NothingLeft(s, p.maxAttempts) {
      SweepSpends(p, s, e);
    }
    forall c: ChatId ensures ChatSound(p, s', c, kind) {
      assert ChatSound(p, s, c, kind);
      ChatStays(p, s, s', c, kind);
    }
    if !e.Crash? {
      PassStays(s, s', kind);
    }
  }

  ghost predicate AllInv(p: Params, s: State, kind: Kind) {
    Life.Inv(p, s) && BroadcastBounds.Inv(s) && Inv(p, s, kind)
  }

  lemma NextOnce(p: Params, s: State, e: Step, kind: Kind)
    requires AllInv(p, s, kind) && Basics(s) && CanStep(p, s, e) && !Repeats(p, s, e, kind)
    ensures Inv(p, Next(p, s, e), kind)
  {
    match e
    case DeliverNext(a, fate) =>
      DeliverChats(p, s, a, fate, kind);
      DeliverPass(s, a, fate, kind);
    case ParkChat(chat, fate) => ParkKeeps(p, s, chat, fate, kind);
    case Claim(db) => ClaimOnce(p, s, db, kind);
    case Load(found) => LoadOnce(p, s, found, kind);
    case Read => ReadOnce(p, s, kind);
    case ReadWorkers => WorkersOnce(p, s, kind);
    case Broadcast(_, _) => BroadcastOnceMore(p, s, e, kind);
    case Park => ParkStarts(p, s, kind);
    case Close(db) => CloseOnce(p, s, db, kind);
    case Record(_) => WriterKeeps(p, s, e, kind);
    case Execute(_, _) => WriterKeeps(p, s, e, kind);
    case _ => IdleKeeps(p, s, e, kind);
  }

  lemma AllKept(p: Params, s: State, e: Step, kind: Kind)
    requires AllInv(p, s, kind) && CanStep(p, s, e) && !Repeats(p, s, e, kind)
    ensures AllInv(p, Next(p, s, e), kind)
  {
    LifeGivesBasics(p, s);
    NextOnce(p, s, e, kind);
    BroadcastBounds.NextKeeps(p, s, e);
    Life.NextKeeps(p, s, e);
  }

  lemma {:induction false} RunKeeps(p: Params, s: State, steps: seq<Step>, s': State, kind: Kind)
    requires AllInv(p, s, kind) && OnceRun(p, s, steps, s', kind)
    ensures AllInv(p, s', kind)
    decreases |steps|
  {
    if steps != [] {
      AllKept(p, s, steps[0], kind);
      RunKeeps(p, Next(p, s, steps[0]), steps[1..], s', kind);
    }
  }

  lemma StartsSound(p: Params, kind: Kind)
    requires !kind.Notices?
    ensures AllInv(p, BroadcastDelivery.Initial(), kind)
  {
  }

  // ── The guarantees ─────────────────────────────────────────────────

  /** Over every run without a repeating step, bodies reach a chat in strictly increasing order,
      edited in or posted: no stale overwrite, and nothing twice, even when Telegram never answers.
      For new messages alone, an edit that was not written down is harmless too. */
  lemma NoStaleBodyNoDuplicatePost(p: Params, steps: seq<Step>, s: State, chat: ChatId, kind: Kind)
    requires !kind.Notices? && OnceRun(p, BroadcastDelivery.Initial(), steps, s, kind)
    ensures Increasing(History(ToldOf(s.told, chat), kind))
  {
    StartsSound(p, kind);
    RunKeeps(p, BroadcastDelivery.Initial(), steps, s, kind);
    assert ChatSound(p, s, chat, kind);
  }
}

/** Whole passes: one healthy dispatch brings every target up to date, and passes that are parked
    because broadcasting is silenced cannot be told from no pass at all. Writers and the sweeper may
    interleave with either. */
module BroadcastPasses {
  import opened Wrappers
  import opened BroadcastLog
  import opened BroadcastDelivery
  import opened BroadcastBounds
  import Life = BroadcastLifecycle
  import Notices = BroadcastNotices

  predicate IsWriter(e: Step) {
    e.Record? || e.Execute?
  }

  // ── One healthy dispatch ───────────────────────────────────────────

  predicate IsSweep(e: Step) {
    e.FindStale? || e.Reclaim?
  }

  /** The steps of a pass after its claim when every call answers well, the writers', and the sweeper's. */
  ghost predicate Healthy(e: Step) {
    match e
    case Record(_) => true
    case Execute(_, _) => true
    case Load(found) => found
    case Read => true
    case ReadWorkers => true
    case Broadcast(targets, _) => Distinct(targets)
    case DeliverNext(a, fate) => fate.Committed? && a.edit.EditOk? && a.send.SendOk? && a.refused == {} && a.unanswered == {}
    case Close(db) => db.Commits?
    case FindStale(_) => true
    case Reclaim(_) => true
    case _ => false
  }

  /** The entries a reclaim hands back that no pass holds: left behind by an earlier one, or found
      while this one was sending them and written after it had closed them. */
  function HandedBackBy(s: State, e: Step): set<nat> {
    if e.Reclaim? && !e.db.Aborts? then s.stale - Life.Held(s) else {}
  }

  ghost function HandedBack(p: Params, s: State, steps: seq<Step>): set<nat>
    decreases |steps|
  {
    if steps == [] || |s.marks| != |s.tables.log| || !CanStep(p, s, steps[0]) then {}
    else HandedBackBy(s, steps[0]) + HandedBack(p, Next(p, s, steps[0]), steps[1..])
  }

  lemma HandedBackFirst(p: Params, s: State, steps: seq<Step>, back: set<nat>)
    requires steps != [] && |s.marks| == |s.tables.log| && CanStep(p, s, steps[0])
    ensures back + HandedBack(p, s, steps) == (back + HandedBackBy(s, steps[0])) + HandedBack(p, Next(p, s, steps[0]), steps[1..])
  {
  }

  /** The entries present at the claim that it did not take are as they were, or handed back. */
  ghost predicate OthersKept(before: seq<LogEntry>, ids: set<nat>, back: set<nat>, log: seq<LogEntry>) {
    && |before| <= |log|
    && forall i | 0 <= i < |before| && i !in ids ::
         log[i] == if i in back then ReclaimedEntry(before[i]) else before[i]
  }

  predicate Open(e: LogEntry) {
    e.status.PENDING? || e.status.SENDING?
  }

  /** The claimed ones have spent one attempt and are still open. */
  ghost predicate HeldKept(before: seq<LogEntry>, ids: set<nat>, log: seq<LogEntry>) {
    forall i <- ids :: i < |before| && i < |log| && Open(log[i]) && log[i] == ClaimedEntry(before[i]).(status := log[i].status)
  }

  /** They have been delivered, and handed back by a reclaim that overtook that or not. */
  ghost predicate DeliveredKept(before: seq<LogEntry>, ids: set<nat>, back: set<nat>, log: seq<LogEntry>) {
    forall i <- ids :: i < |before| && i < |log| && log[i] == ClaimedEntry(before[i]).(status := if i in back then PENDING else DELIVERED)
  }

  /** What a healthy pass does to one target, given its row and history at the claim. A target
      already at the snapshot is left alone; one behind gets exactly one edit (a new message if
      it had none) and the notices it had not seen. */
  ghost predicate Served(prior: Option<ChatRow>, t0: Told, row: Option<ChatRow>, t: Told, v: View, enabled: bool) {
    var seqNo, notices := v.cycle.lastSeq, |v.cycle.events|;
    && row.Some? && row.value.deliveredSeq == seqNo
    && if prior.Some? && prior.value.deliveredSeq >= seqNo then row == prior && t == t0
       else
         var editing := prior.Some? && prior.value.messageId.Some?;
         && row.value.messageId.Some? && NotifiedCount(row.value) == notices
         && (editing ==> row.value.messageId == prior.value.messageId)
         && t.shown == t0.shown + [seqNo]
         && t.posts == (if editing then t0.posts else t0.posts + [seqNo])
         && t.announced == (if editing then t0.announced + AnnouncedNow(prior.value.notified, notices, enabled, Notices.ALL_WELL) else t0.announced)
  }

  /** What a pass delivers: the cycle as it loaded it, and its settings as it read them. */
  datatype Snapshot = Snapshot(view: View, targets: seq<Target>, replies: Replies)

  ghost predicate ServedTarget(s0: State, s: State, snap: Snapshot, j: nat) {
    j < |snap.targets| &&
    var c := snap.targets[j].chat;
    Served(Existing(s0.tables.chats, c), ToldOf(s0.told, c), Existing(s.tables.chats, c), ToldOf(s.told, c), snap.view,
           Enabled(snap.replies, snap.targets[j].audience))
  }

  ghost predicate Unserved(s0: State, s: State, targets: seq<Target>, j: nat) {
    j < |targets| &&
    var c := targets[j].chat;
    Existing(s.tables.chats, c) == Existing(s0.tables.chats, c) && ToldOf(s.told, c) == ToldOf(s0.told, c)
  }

  /** No two targets are stored under one chat id. */
  ghost predicate Distinct(targets: seq<Target>) {
    forall i, j | 0 <= i < j < |targets| :: targets[i].chat != targets[j].chat
  }

  /** The state a dispatch starts from, as far as convergence needs it. */
  ghost predicate Ready(s0: State) {
    s0.pass.Idle? && RowsBounded(s0.tables.chats, |s0.tables.log|, EventCount(s0.tables))
  }

  ghost predicate ViewAfter(s0: State, v: View) {
    && v.chats == s0.tables.chats
    && |s0.tables.log| <= v.cycle.lastSeq
    && EventCount(s0.tables) <= |v.cycle.events|
  }

  ghost predicate PassGood(p: Params, s0: State, s: State, back: set<nat>) {
    var ids0 := ClaimableIds(s0.tables.log, p.maxAttempts);
    && OthersKept(s0.tables.log, ids0, back, s.tables.log) && HeldKept(s0.tables.log, ids0, s.tables.log) && back !! ids0
    && EventCount(s0.tables) <= EventCount(s.tables)
    && match s.pass
       case Claimed(ids) => ids == ids0 && s.tables.chats == s0.tables.chats && s.told == s0.told
       case Reading(ids, v) => ids == ids0 && s.tables.chats == s0.tables.chats && s.told == s0.told && ViewAfter(s0, v)
       case Loaded(ids, v) => ids == ids0 && s.tables.chats == s0.tables.chats && s.told == s0.told && ViewAfter(s0, v)
       case Delivering(ids, v, targets, replies, next, ok) =>
         && ids == ids0 && ok && ViewAfter(s0, v) && next <= |targets| && Distinct(targets)
         && (forall j | 0 <= j < next :: ServedTarget(s0, s, Snapshot(v, targets, replies), j))
         && (forall j | next <= j < |targets| :: Unserved(s0, s, targets, j))
       case _ => false
  }

  ghost predicate Converged(p: Params, s0: State, s: State, snap: Snapshot, back: set<nat>) {
    var ids0 := ClaimableIds(s0.tables.log, p.maxAttempts);
    && OthersKept(s0.tables.log, ids0, back, s.tables.log) && DeliveredKept(s0.tables.log, ids0, back, s.tables.log)
    && ViewAfter(s0, snap.view)
    && forall j | 0 <= j < |snap.targets| :: ServedTarget(s0, s, snap, j)
  }

  lemma ServesOne(prior: Option<ChatRow>, t0: Told, v: View, audience: Audience, enabled: bool, a: Answers)
    requires a.edit.EditOk? && a.send.SendOk? && a.refused == {} && a.unanswered == {}
    requires prior.Some? ==> RowBounded(prior.value, v.cycle.lastSeq, |v.cycle.events|)
    ensures
      var d := Deliver(prior, Render(audience, v), v.cycle.lastSeq, |v.cycle.events|, enabled, a);
      var row := if d.write.None? then prior
                 else Some(if prior.Some? then ChatMerged(prior.value, audience, d.write.value) else ChatInserted(audience, d.write.value));
      d.ok && Served(prior, t0, row, ToldAfter(t0, d, v.cycle.lastSeq), v, enabled)
  {
    if prior.Some? && prior.value.notified.Some? {
      Notices.NoRefusal(prior.value.notified.value, |v.cycle.events|);
    }
    assert t0.announced + [] == t0.announced;
  }

  lemma DeliverServes(p: Params, s0: State, s: State, a: Answers)
    requires Ready(s0) && CanStep(p, s, DeliverNext(a, Committed))
    requires ViewAfter(s0, s.pass.view) && Unserved(s0, s, s.pass.targets, s.pass.next)
    requires a.edit.EditOk? && a.send.SendOk? && a.refused == {} && a.unanswered == {}
    ensures
      var s' := DeliverStep(s, a, Committed);
      && DeliveryAt(s, a).ok
      && ServedTarget(s0, s', Snapshot(s.pass.view, s.pass.targets, s.pass.replies), s.pass.next)
      && forall c | c != s.pass.targets[s.pass.next].chat ::
           Existing(s'.tables.chats, c) == Existing(s.tables.chats, c) && ToldOf(s'.told, c) == ToldOf(s.told, c)
  {
    var target := s.pass.targets[s.pass.next];
    var prior := Existing(s0.tables.chats, target.chat);
    if prior.Some? {
      assert RowBounded(s0.tables.chats[target.chat], |s0.tables.log|, EventCount(s0.tables));
    }
    ServesOne(prior, ToldOf(s0.told, target.chat), s.pass.view, target.audience, Enabled(s.pass.replies, target.audience), a);
  }

  lemma DeliverGood(p: Params, s0: State, s: State, back: set<nat>, a: Answers)
    requires Ready(s0) && PassGood(p, s0, s, back) && CanStep(p, s, DeliverNext(a, Committed))
    requires a.edit.EditOk? && a.send.SendOk? && a.refused == {} && a.unanswered == {}
    ensures PassGood(p, s0, DeliverStep(s, a, Committed), back)
  {
    var s', snap := DeliverStep(s, a, Committed), Snapshot(s.pass.view, s.pass.targets, s.pass.replies);
    var next := s.pass.next;
    assert Unserved(s0, s, snap.targets, next);
    DeliverServes(p, s0, s, a);
    forall j | 0 <= j < next ensures ServedTarget(s0, s', snap, j) {
      assert ServedTarget(s0, s, snap, j) && snap.targets[j].chat != snap.targets[next].chat;
    }
    forall j | next + 1 <= j < |snap.targets| ensures Unserved(s0, s', snap.targets, j) {
      assert Unserved(s0, s, snap.targets, j) && snap.targets[j].chat != snap.targets[next].chat;
    }
  }

  /** A writer touches neither chats nor entries already in the log. */
  lemma WriterAppends(p: Params, s: State, e: Step)
    requires Basics(s) && IsWriter(e)
    ensures
      var s' := Next(p, s, e);
      && s'.tables.chats == s.tables.chats && s'.told == s.told && s'.pass == s.pass
      && |s.tables.log| <= |s'.tables.log|
      && (forall i | 0 <= i < |s.tables.log| :: s'.tables.log[i] == s.tables.log[i])
      && EventCount(s.tables) <= EventCount(s'.tables)
  {
  }

  /** The sweeper touches neither chats nor cycle, and no status but those it hands back. */
  lemma SweepLeaves(p: Params, s: State, e: Step)
    requires |s.marks| == |s.tables.log| && CanStep(p, s, e) && IsSweep(e)
    ensures
      var s' := Next(p, s, e);
      && s'.tables == s.tables.(log := s'.tables.log) && s'.told == s.told && s'.pass == s.pass
      && |s'.tables.log| == |s.tables.log|
      && forall i | 0 <= i < |s.tables.log| ::
           s'.tables.log[i] == if e.Reclaim? && !e.db.Aborts? && i in s.stale then ReclaimedEntry(s.tables.log[i]) else s.tables.log[i]
  {
  }

  lemma OthersSwept(p: Params, s: State, e: Step, before: seq<LogEntry>, ids: set<nat>, back: set<nat>)
    requires OthersKept(before, ids, back, s.tables.log) && |s.marks| == |s.tables.log| && CanStep(p, s, e)
    requires (IsWriter(e) && Basics(s)) || (IsSweep(e) && Life.Held(s) <= ids)
    ensures OthersKept(before, ids, back + HandedBackBy(s, e), Next(p, s, e).tables.log)
  {
    if IsWriter(e) {
      WriterAppends(p, s, e);
    } else {
      SweepLeaves(p, s, e);
    }
  }

  lemma MeanwhileGood(p: Params, s0: State, s: State, back: set<nat>, e: Step)
    requires PassGood(p, s0, s, back) && Basics(s) && CanStep(p, s, e) && (IsWriter(e) || IsSweep(e))
    ensures PassGood(p, s0, Next(p, s, e), back + HandedBackBy(s, e))
  {
    OthersSwept(p, s, e, s0.tables.log, ClaimableIds(s0.tables.log, p.maxAttempts), back);
    if IsWriter(e) {
      WriterAppends(p, s, e);
    } else {
      SweepLeaves(p, s, e);
    }
    var s' := Next(p, s, e);
    if s.pass.Delivering? {
      var snap := Snapshot(s.pass.view, s.pass.targets, s.pass.replies);
      forall j | 0 <= j < s.pass.next ensures ServedTarget(s0, s', snap, j) {
        assert ServedTarget(s0, s, snap, j);
      }
      forall j | s.pass.next <= j < |snap.targets| ensures Unserved(s0, s', snap.targets, j) {
        assert Unserved(s0, s, snap.targets, j);
      }
    }
  }

  lemma LoadGood(p: Params, s0: State, s: State, back: set<nat>, e: Step)
    requires PassGood(p, s0, s, back) && Basics(s) && CanStep(p, s, e) && Healthy(e) && (e.Load? || e.Read? || e.ReadWorkers? || e.Broadcast?)
    ensures PassGood(p, s0, Next(p, s, e), back)
  {
    if e.Broadcast? {
      var s' := Next(p, s, e);
      forall j | 0 <= j < |e.targets| ensures Unserved(s0, s', e.targets, j) {
      }
    }
  }

  lemma CloseGood(p: Params, s0: State, s: State, back: set<nat>)
    requires PassGood(p, s0, s, back) && CanStep(p, s, Close(Commits))
    ensures s.pass.Delivering? && Converged(p, s0, CloseStep(p, s, Commits), Snapshot(s.pass.view, s.pass.targets, s.pass.replies), back)
  {
    var s', snap := CloseStep(p, s, Commits), Snapshot(s.pass.view, s.pass.targets, s.pass.replies);
    forall j | 0 <= j < |snap.targets| ensures ServedTarget(s0, s', snap, j) {
      assert ServedTarget(s0, s, snap, j);
    }
  }

  /** Once closed, a claimed entry only changes by being handed back. */
  lemma AfterwardsConverged(p: Params, s0: State, s: State, e: Step, snap: Snapshot, back: set<nat>)
    requires Converged(p, s0, s, snap, back) && s.pass.Idle? && Basics(s) && CanStep(p, s, e) && (IsWriter(e) || IsSweep(e))
    ensures Converged(p, s0, Next(p, s, e), snap, back + HandedBackBy(s, e)) && Next(p, s, e).pass.Idle?
  {
    OthersSwept(p, s, e, s0.tables.log, ClaimableIds(s0.tables.log, p.maxAttempts), back);
    if IsWriter(e) {
      WriterAppends(p, s, e);
    } else {
      SweepLeaves(p, s, e);
    }
    forall j | 0 <= j < |snap.targets| ensures ServedTarget(s0, Next(p, s, e), snap, j) {
      assert ServedTarget(s0, s, snap, j);
    }
  }

  lemma {:induction false} StaysConverged(p: Params, s0: State, s: State, steps: seq<Step>, s': State, snap: Snapshot, back: set<nat>)
    requires Converged(p, s0, s, snap, back) && s.pass.Idle? && Life.Inv(p, s)
    requires IsRun(p, s, steps, s') && forall e <- steps :: Healthy(e)
    ensures Converged(p, s0, s', snap, back + HandedBack(p, s, steps))
    decreases |steps|
  {
    if steps == [] {
      assert back + {} == back;
    } else {
      var e := steps[0];
      assert Healthy(e);
      LifeGivesBasics(p, s);
      AfterwardsConverged(p, s0, s, e, snap, back);
      Life.NextKeeps(p, s, e);
      StaysConverged(p, s0, Next(p, s, e), steps[1..], s', snap, back + HandedBackBy(s, e));
      HandedBackFirst(p, s, steps, back);
    }
  }

  /** What the first pass of a run delivers, if it gets so far. */
  ghost function Delivered(p: Params, s: State, steps: seq<Step>): Option<Snapshot>
    decreases |steps|
  {
    if s.pass.Delivering? then Some(Snapshot(s.pass.view, s.pass.targets, s.pass.replies))
    else if steps == [] || |s.marks| != |s.tables.log| || !CanStep(p, s, steps[0]) then None
    else Delivered(p, Next(p, s, steps[0]), steps[1..])
  }

  lemma StepGood(p: Params, s0: State, s: State, back: set<nat>, e: Step)
    requires Ready(s0) && PassGood(p, s0, s, back) && Basics(s) && CanStep(p, s, e) && Healthy(e) && !e.Close?
    ensures PassGood(p, s0, Next(p, s, e), back + HandedBackBy(s, e))
    ensures s.pass.Delivering? ==>
              var s' := Next(p, s, e);
              s'.pass.Delivering? && s'.pass.view == s.pass.view && s'.pass.targets == s.pass.targets && s'.pass.replies == s.pass.replies
  {
    assert !e.Reclaim? ==> back + HandedBackBy(s, e) == back;
    if IsWriter(e) {
      MeanwhileGood(p, s0, s, back, e);
      WriterAppends(p, s, e);
    } else if IsSweep(e) {
      MeanwhileGood(p, s0, s, back, e);
      SweepLeaves(p, s, e);
    } else if e.DeliverNext? {
      DeliverGood(p, s0, s, back, e.answers);
    } else {
      LoadGood(p, s0, s, back, e);
    }
  }

  lemma {:induction false} PassConverges(p: Params, s0: State, s: State, steps: seq<Step>, s': State, back: set<nat>) returns (snap: Snapshot)
    requires Ready(s0) && PassGood(p, s0, s, back) && Life.Inv(p, s)
    requires IsRun(p, s, steps, s') && s'.pass.Idle? && forall e <- steps :: Healthy(e)
    ensures Delivered(p, s, steps) == Some(snap) && Converged(p, s0, s', snap, back + HandedBack(p, s, steps))
    decreases |steps|
  {
    var e := steps[0];
    assert Healthy(e);
    LifeGivesBasics(p, s);
    Life.NextKeeps(p, s, e);
    if e.Close? {
      snap := Snapshot(s.pass.view, s.pass.targets, s.pass.replies);
      CloseGood(p, s0, s, back);
      StaysConverged(p, s0, Next(p, s, e), steps[1..], s', snap, back);
      HandedBackFirst(p, s, steps, back);
      assert back + HandedBackBy(s, e) == back;
    } else {
      StepGood(p, s0, s, back, e);
      snap := PassConverges(p, s0, Next(p, s, e), steps[1..], s', back + HandedBackBy(s, e));
      HandedBackFirst(p, s, steps, back);
    }
  }

  lemma ClaimGood(p: Params, s0: State)
    requires s0.pass.Idle? && ClaimableIds(s0.tables.log, p.maxAttempts) != {}
    ensures PassGood(p, s0, ClaimNext(p, s0, Commits), {})
  {
  }

  /** From idle to idle: a claim that finds work, and a pass over distinct targets whose calls all
      answer well. */
  ghost predicate HealthyDispatch(p: Params, s: State, steps: seq<Step>, s': State) {
    && s.pass.Idle? && ClaimableIds(s.tables.log, p.maxAttempts) != {}
    && IsRun(p, ClaimNext(p, s, Commits), steps, s') && s'.pass.Idle?
    && forall e <- steps :: Healthy(e)
  }

  /** One dispatch converges. Started in any reachable state, a pass that claims something and whose
      calls all answer well, writers and sweeper interleaving, ends with each of its targets at its
      snapshot: left alone if it was there already, otherwise after exactly one edit or post, with
      all notices settled. Every claimed entry is DELIVERED, and nothing of the log it found is
      claimable, but for what the sweeper handed back. */
  lemma OneDispatchConverges(p: Params, s0: State, steps: seq<Step>, s': State) returns (snap: Snapshot)
    requires Reachable(p, s0) && HealthyDispatch(p, s0, steps, s')
    ensures Delivered(p, ClaimNext(p, s0, Commits), steps) == Some(snap)
    ensures Converged(p, s0, s', snap, HandedBack(p, ClaimNext(p, s0, Commits), steps))
    ensures forall i | 0 <= i < |s0.tables.log| && Claimable(s'.tables.log[i], p.maxAttempts) ::
              i in HandedBack(p, ClaimNext(p, s0, Commits), steps)
  {
    ReachableSound(p, s0);
    Life.ClaimKeeps(p, s0, Commits);
    ClaimGood(p, s0);
    var start := ClaimNext(p, s0, Commits);
    snap := PassConverges(p, s0, start, steps, s', {});
    assert {} + HandedBack(p, start, steps) == HandedBack(p, start, steps);
  }

  /** As far as the row of a chat with a message knows, an event is still to be announced there: its
      notice, or an earlier one, was refused or taken in silence, or it is newer than the row. */
  ghost predicate OwesNotice(s: State, c: ChatId, index: nat) {
    && c in s.tables.chats && s.tables.chats[c].messageId.Some?
    && s.tables.chats[c].notified.Some? && s.tables.chats[c].notified.value <= index < EventCount(s.tables)
  }

  /** How often an event was announced. */
  function Times(announced: seq<nat>, index: nat): nat {
    multiset(announced)[index]
  }

  lemma OnceInRange(announced: seq<nat>, from: nat, index: nat, to: nat)
    requires from <= index < to
    ensures Times(announced + Range(from, to), index) == Times(announced, index) + 1
  {
    var before, after := Range(from, index), Range(index + 1, to);
    assert Range(from, to) == before + [index] + after;
    assert index !in before && index !in after;
    assert multiset(announced + Range(from, to)) == multiset(announced) + multiset(before) + multiset([index]) + multiset(after);
  }

  /** When such a notice is made up for: a healthy dispatch that serves the chat, with notices on,
      announces the event once more if and only if the cycle it loaded has changed since the row was
      written. That is the first time if the notice was refused, and the second if it got there
      unanswered. */
  lemma RefusedNoticeIsMadeUpForIff(p: Params, s0: State, steps: seq<Step>, s': State, snap: Snapshot, j: nat, index: nat)
    requires Reachable(p, s0) && HealthyDispatch(p, s0, steps, s')
    requires Delivered(p, ClaimNext(p, s0, Commits), steps) == Some(snap)
    requires j < |snap.targets| && Enabled(snap.replies, snap.targets[j].audience)
    requires OwesNotice(s0, snap.targets[j].chat, index)
    ensures
      var t0, t := ToldOf(s0.told, snap.targets[j].chat), ToldOf(s'.told, snap.targets[j].chat);
      var seqNo := s0.tables.chats[snap.targets[j].chat].deliveredSeq;
      && seqNo <= snap.view.cycle.lastSeq
      && Times(t.announced, index) == Times(t0.announced, index) + (if snap.view.cycle.lastSeq > seqNo then 1 else 0)
      && (snap.view.cycle.lastSeq == seqNo <==> t == t0)
  {
    var c := snap.targets[j].chat;
    var snap1 := OneDispatchConverges(p, s0, steps, s');
    assert ServedTarget(s0, s', snap, j);
    assert s0.tables.chats[c].deliveredSeq <= snap.view.cycle.lastSeq && EventCount(s0.tables) <= |snap.view.cycle.events| by {
      ReachableSound(p, s0);
      assert RowBounded(s0.tables.chats[c], |s0.tables.log|, EventCount(s0.tables));
    }
    NoticeMadeUpFor(s0.tables.chats[c], ToldOf(s0.told, c), Existing(s'.tables.chats, c), ToldOf(s'.told, c), snap.view, index);
  }

  /** The same for one chat, from what a healthy pass does to it. */
  lemma NoticeMadeUpFor(prior: ChatRow, t0: Told, row: Option<ChatRow>, t: Told, v: View, index: nat)
    requires Served(Some(prior), t0, row, t, v, true)
    requires prior.messageId.Some? && prior.notified.Some? && prior.notified.value <= index < |v.cycle.events|
    requires prior.deliveredSeq <= v.cycle.lastSeq
    ensures Times(t.announced, index) == Times(t0.announced, index) + (if v.cycle.lastSeq > prior.deliveredSeq then 1 else 0)
    ensures v.cycle.lastSeq == prior.deliveredSeq <==> t == t0
  {
    if v.cycle.lastSeq > prior.deliveredSeq {
      Notices.NoRefusal(prior.notified.value, |v.cycle.events|);
      OnceInRange(t0.announced, prior.notified.value, index, |v.cycle.events|);
    }
  }

  // ── Parked passes ──────────────────────────────────────────────────

  /** The steps of passes parked because broadcasting is off, the writers' and the sweeper's. A claim
      may fail. */
  predicate Quiet(e: Step) {
    match e
    case Record(_) => true
    case Execute(_, _) => true
    case Claim(db) => !db.ReplyLost?
    case Load(found) => found
    case Read => true
    case ReadWorkers => true
    case Park => true
    case ParkChat(_, fate) => fate.Committed?
    case Close(db) => db.Commits?
    case FindStale(_) => true
    case Reclaim(_) => true
    case _ => false
  }

  /** Equal but for the count of settled notices, which may only have grown. */
  predicate SameButNotices(row: ChatRow, row': ChatRow) {
    && row' == row.(notified := row'.notified)
    && NotifiedCount(row) <= NotifiedCount(row')
  }

  ghost predicate BehindIn(t: Tables, c: ChatId) {
    c in t.chats && t.chats[c].messageId.Some? && t.chats[c].deliveredSeq < LastSeq(t)
  }

  ghost predicate SameChats(chats: map<ChatId, ChatRow>, chats': map<ChatId, ChatRow>) {
    chats'.Keys == chats.Keys && forall c <- chats :: SameButNotices(chats[c], chats'[c])
  }

  /** An entry as it was, but for having been handed back. */
  function Swept(log: seq<LogEntry>, back: set<nat>, i: nat): LogEntry
    requires i < |log|
  {
    if i in back then ReclaimedEntry(log[i]) else log[i]
  }

  /** The log as it was at `s0`, but for what the sweeper has handed back, and what the current pass
      has claimed and will defer. */
  ghost predicate SameLog(s0: State, s: State, back: set<nat>, maxAttempts: nat) {
    && |s0.tables.log| <= |s.tables.log|
    && forall i | 0 <= i < |s0.tables.log| ::
         var e, e' := Swept(s0.tables.log, back, i), s.tables.log[i];
         if i in Life.Held(s) then Claimable(e, maxAttempts) && Open(e') && e' == ClaimedEntry(e).(status := e'.status)
         else e' == e
  }

  ghost predicate SameTold(told: map<ChatId, Told>, told': map<ChatId, Told>) {
    forall c: ChatId :: ToldOf(told', c) == ToldOf(told, c).(excused := ToldOf(told', c).excused)
  }

  ghost predicate ParkedView(s0: State, s: State, v: View) {
    && SameChats(s0.tables.chats, v.chats)
    && LastSeq(s0.tables) <= v.cycle.lastSeq
    && EventCount(s0.tables) <= |v.cycle.events|
  }

  /** No chat can tell `s` from `s0`, nor what it was shown and told. */
  ghost predicate Unnoticed(p: Params, s0: State, s: State) {
    && SameChats(s0.tables.chats, s.tables.chats)
    && SameTold(s0.told, s.told)
    && LastSeq(s0.tables) <= LastSeq(s.tables)
    && EventCount(s0.tables) <= EventCount(s.tables)
    && match s.pass
       case Idle => true
       case Claimed(_) => true
       case Reading(_, v) => ParkedView(s0, s, v)
       case Loaded(_, v) => ParkedView(s0, s, v)
       case Parking(_, v, left) =>
         && ParkedView(s0, s, v)
         && forall c <- Behind(v) - left :: c in s.tables.chats && |v.cycle.events| <= NotifiedCount(s.tables.chats[c])
       case _ => false
  }

  ghost predicate CaughtUp(s0: State, s: State) {
    forall c: ChatId | BehindIn(s0.tables, c) ::
      c in s.tables.chats && EventCount(s0.tables) <= NotifiedCount(s.tables.chats[c])
  }

  /** Settling one parked chat changes its notice count only, and never back. */
  lemma ParkedWrite(s: State, chat: ChatId)
    requires s.pass.Parking? && chat in s.pass.view.chats && chat in s.tables.chats
    requires s.pass.view.chats[chat].audience == s.tables.chats[chat].audience
    ensures
      var chats' := ParkStep(s, chat, Committed).tables.chats;
      && SameChats(s.tables.chats, chats')
      && |s.pass.view.cycle.events| <= NotifiedCount(chats'[chat])
  {
  }

  lemma SameChatsTransitive(a: map<ChatId, ChatRow>, b: map<ChatId, ChatRow>, c: map<ChatId, ChatRow>)
    requires SameChats(a, b) && SameChats(b, c)
    ensures SameChats(a, c)
  {
    forall k <- a ensures SameButNotices(a[k], c[k]) {
      assert SameButNotices(a[k], b[k]) && SameButNotices(b[k], c[k]);
    }
  }

  lemma ParkedChatUnnoticed(p: Params, s0: State, s: State, chat: ChatId)
    requires Unnoticed(p, s0, s) && CanStep(p, s, ParkChat(chat, Committed))
    ensures Unnoticed(p, s0, ParkStep(s, chat, Committed))
  {
    ParkedChats(p, s0, s, chat);
    ParkedTold(s0, s, chat);
    NoticesGrow(s, ParkStep(s, chat, Committed));
  }

  lemma ParkedTold(s0: State, s: State, chat: ChatId)
    requires SameTold(s0.told, s.told) && s.pass.Parking? && chat in s.pass.view.chats
    ensures SameTold(s0.told, ParkStep(s, chat, Committed).told)
  {
    var told' := ParkStep(s, chat, Committed).told;
    forall c: ChatId ensures ToldOf(told', c) == ToldOf(s0.told, c).(excused := ToldOf(told', c).excused) {
      assert ToldOf(s.told, c) == ToldOf(s0.told, c).(excused := ToldOf(s.told, c).excused);
    }
  }

  lemma ParkedChats(p: Params, s0: State, s: State, chat: ChatId)
    requires Unnoticed(p, s0, s) && CanStep(p, s, ParkChat(chat, Committed))
    ensures
      var chats' := ParkStep(s, chat, Committed).tables.chats;
      && SameChats(s0.tables.chats, chats') && SameChats(s.tables.chats, chats')
      && |s.pass.view.cycle.events| <= NotifiedCount(chats'[chat])
  {
    assert SameButNotices(s0.tables.chats[chat], s.pass.view.chats[chat]);
    assert SameButNotices(s0.tables.chats[chat], s.tables.chats[chat]);
    ParkedWrite(s, chat);
    SameChatsTransitive(s0.tables.chats, s.tables.chats, ParkStep(s, chat, Committed).tables.chats);
  }

  lemma NoticesGrow(s: State, s': State)
    requires SameChats(s.tables.chats, s'.tables.chats)
    ensures forall c <- s.tables.chats :: c in s'.tables.chats && NotifiedCount(s.tables.chats[c]) <= NotifiedCount(s'.tables.chats[c])
  {
    forall c <- s.tables.chats ensures NotifiedCount(s.tables.chats[c]) <= NotifiedCount(s'.tables.chats[c]) {
      assert SameButNotices(s.tables.chats[c], s'.tables.chats[c]);
    }
  }

  lemma CaughtUpStays(s0: State, s: State, s': State)
    requires CaughtUp(s0, s) && SameChats(s.tables.chats, s'.tables.chats)
    ensures CaughtUp(s0, s')
  {
    NoticesGrow(s, s');
  }

  /** Silenced steps change no chat but for its count of settled notices. */
  lemma QuietChats(p: Params, s0: State, s: State, e: Step)
    requires Unnoticed(p, s0, s) && Basics(s) && CanStep(p, s, e) && Quiet(e)
    ensures SameChats(s.tables.chats, Next(p, s, e).tables.chats)
  {
    if e.ParkChat? {
      ParkedChats(p, s0, s, e.chat);
    } else {
      assert Next(p, s, e).tables.chats == s.tables.chats;
    }
  }

  lemma ParkedCloseUnnoticed(p: Params, s0: State, s: State)
    requires Unnoticed(p, s0, s) && CanStep(p, s, Close(Commits))
    ensures Unnoticed(p, s0, CloseStep(p, s, Commits))
    ensures CaughtUp(s0, CloseStep(p, s, Commits))
  {
    var s' := CloseStep(p, s, Commits);
    forall c: ChatId | BehindIn(s0.tables, c)
      ensures c in s'.tables.chats && EventCount(s0.tables) <= NotifiedCount(s'.tables.chats[c])
    {
      assert SameButNotices(s0.tables.chats[c], s.pass.view.chats[c]);
      assert c in Behind(s.pass.view) - s.pass.left;
    }
  }

  lemma ParkingStarts(p: Params, s0: State, s: State)
    requires Unnoticed(p, s0, s) && s.pass.Loaded? && |s.marks| == |s.tables.log|
    requires exists c :: BehindIn(s0.tables, c)
    ensures Unnoticed(p, s0, Next(p, s, Park))
  {
    var c :| BehindIn(s0.tables, c);
    assert SameButNotices(s0.tables.chats[c], s.pass.view.chats[c]);
    assert c in Behind(s.pass.view);
    ParkLeavesAll(p, s);
  }

  lemma ParkLeavesAll(p: Params, s: State)
    requires s.pass.Loaded? && Behind(s.pass.view) != {} && |s.marks| == |s.tables.log|
    ensures Next(p, s, Park) == s.(pass := Parking(s.pass.ids, s.pass.view, Behind(s.pass.view)))
  {
  }

  lemma WriterUnnoticed(p: Params, s0: State, s: State, e: Step)
    requires Unnoticed(p, s0, s) && Basics(s) && IsWriter(e)
    ensures Unnoticed(p, s0, Next(p, s, e))
  {
    WriterAppends(p, s, e);
  }

  lemma ClaimUnnoticed(p: Params, s0: State, s: State, e: Step)
    requires Unnoticed(p, s0, s) && Basics(s) && CanStep(p, s, e) && Quiet(e) && (e.Claim? || e.Load? || e.Read? || e.ReadWorkers?)
    ensures Unnoticed(p, s0, Next(p, s, e))
  {
  }

  lemma ParkingStep(p: Params, s0: State, s: State, e: Step)
    requires Unnoticed(p, s0, s) && Basics(s) && CanStep(p, s, e) && Quiet(e)
    requires (exists c :: BehindIn(s0.tables, c)) && (e.Park? || e.ParkChat?)
    ensures Unnoticed(p, s0, Next(p, s, e))
  {
    if e.Park? {
      ParkingStarts(p, s0, s);
    } else {
      ParkedChatUnnoticed(p, s0, s, e.chat);
    }
  }

  lemma QuietStep(p: Params, s0: State, s: State, e: Step)
    requires Unnoticed(p, s0, s) && Basics(s) && CanStep(p, s, e) && Quiet(e)
    requires exists c :: BehindIn(s0.tables, c)
    ensures Unnoticed(p, s0, Next(p, s, e))
  {
    if IsWriter(e) {
      WriterUnnoticed(p, s0, s, e);
    } else if IsSweep(e) {
      SweepLeaves(p, s, e);
    } else if e.Claim? || e.Load? || e.Read? || e.ReadWorkers? {
      ClaimUnnoticed(p, s0, s, e);
    } else if e.Close? {
      ParkedCloseUnnoticed(p, s0, s);
    } else {
      ParkingStep(p, s0, s, e);
    }
  }

  /** A parked pass gives back what its claim took, and a reclaim in between takes no part of that. */
  lemma QuietLog(p: Params, s0: State, s: State, back: set<nat>, e: Step)
    requires SameLog(s0, s, back, p.maxAttempts) && Basics(s) && CanStep(p, s, e) && Quiet(e)
    requires e.Close? ==> s.pass.Parking?
    ensures SameLog(s0, Next(p, s, e), back + HandedBackBy(s, e), p.maxAttempts)
  {
    if IsWriter(e) {
      WriterAppends(p, s, e);
    } else if IsSweep(e) {
      SweepLeaves(p, s, e);
    } else {
      assert back + HandedBackBy(s, e) == back;
    }
  }

  lemma QuietNext(p: Params, s0: State, s: State, back: set<nat>, e: Step)
    requires Unnoticed(p, s0, s) && SameLog(s0, s, back, p.maxAttempts) && Life.Inv(p, s) && CanStep(p, s, e) && Quiet(e)
    requires exists c :: BehindIn(s0.tables, c)
    ensures Unnoticed(p, s0, Next(p, s, e)) && SameLog(s0, Next(p, s, e), back + HandedBackBy(s, e), p.maxAttempts)
    ensures Life.Inv(p, Next(p, s, e))
  {
    LifeGivesBasics(p, s);
    QuietStep(p, s0, s, e);
    QuietLog(p, s0, s, back, e);
    Life.NextKeeps(p, s, e);
  }

  lemma {:induction false} QuietRun(p: Params, s0: State, s: State, steps: seq<Step>, s': State, back: set<nat>)
    requires Unnoticed(p, s0, s) && SameLog(s0, s, back, p.maxAttempts)
    requires Life.Inv(p, s) && IsRun(p, s, steps, s') && forall e <- steps :: Quiet(e)
    requires exists c :: BehindIn(s0.tables, c)
    ensures Unnoticed(p, s0, s') && SameLog(s0, s', back + HandedBack(p, s, steps), p.maxAttempts)
    decreases |steps|
  {
    if steps == [] {
      assert back + {} == back;
    } else {
      var e := steps[0];
      assert Quiet(e);
      QuietNext(p, s0, s, back, e);
      QuietRun(p, s0, Next(p, s, e), steps[1..], s', back + HandedBackBy(s, e));
      HandedBackFirst(p, s, steps, back);
    }
  }

  lemma {:induction false} CaughtUpRun(p: Params, s0: State, s: State, steps: seq<Step>, s': State)
    requires Unnoticed(p, s0, s) && Life.Inv(p, s) && IsRun(p, s, steps, s') && forall e <- steps :: Quiet(e)
    requires exists c :: BehindIn(s0.tables, c)
    ensures CaughtUp(s0, s) || (exists e <- steps :: e.Close?) ==> CaughtUp(s0, s')
    decreases |steps|
  {
    if steps != [] {
      var e := steps[0];
      assert Quiet(e);
      LifeGivesBasics(p, s);
      QuietStep(p, s0, s, e);
      CatchingUp(p, s0, s, e);
      Life.NextKeeps(p, s, e);
      CaughtUpRun(p, s0, Next(p, s, e), steps[1..], s');
    }
  }

  /** A complete pass catches the chats behind up, and they stay so. */
  lemma CatchingUp(p: Params, s0: State, s: State, e: Step)
    requires Unnoticed(p, s0, s) && Basics(s) && CanStep(p, s, e) && Quiet(e)
    ensures CaughtUp(s0, s) || e.Close? ==> CaughtUp(s0, Next(p, s, e))
  {
    if e.Close? {
      ParkedCloseUnnoticed(p, s0, s);
    } else if CaughtUp(s0, s) {
      QuietChats(p, s0, s, e);
      CaughtUpStays(s0, s, Next(p, s, e));
    }
  }

  /** From idle to idle: silenced passes, with some posted message owed an edit at the start. */
  ghost predicate ParkedPasses(p: Params, s: State, steps: seq<Step>, s': State) {
    && s.pass.Idle? && (exists c :: BehindIn(s.tables, c))
    && IsRun(p, s, steps, s') && s'.pass.Idle?
    && forall e <- steps :: Quiet(e)
  }

  /** Parking is invisible. While some posted message is owed an edit, any number of silenced
      passes leave every entry of the log with its status and attempts, but for what the sweeper
      handed back, and every chat with its message, body, sequence and history of posts, edits and
      notices; after at least one complete pass the chats left behind are settled on notices for
      everything recorded before it. */
  lemma ParkingIsInvisible(p: Params, s0: State, steps: seq<Step>, s: State)
    requires Reachable(p, s0) && ParkedPasses(p, s0, steps, s)
    ensures |s0.tables.log| <= |s.tables.log|
    ensures forall i | 0 <= i < |s0.tables.log| :: s.tables.log[i] == Swept(s0.tables.log, HandedBack(p, s0, steps), i)
    ensures SameChats(s0.tables.chats, s.tables.chats) && SameTold(s0.told, s.told)
    ensures (exists e <- steps :: e.Close?) ==> CaughtUp(s0, s)
  {
    Life.ReachableSound(p, s0);
    QuietRun(p, s0, s0, steps, s, {});
    CaughtUpRun(p, s0, s0, steps, s);
    assert {} + HandedBack(p, s0, steps) == HandedBack(p, s0, steps);
  }

  /** The first healthy pass after parking edits each chat left behind that it serves exactly once,
      posts nothing new, and announces only events recorded after the last parked pass began. */
  lemma UnparkingEditsOnce(p: Params, s0: State, quiet: seq<Step>, s1: State, steps: seq<Step>, s2: State, snap: Snapshot, j: nat)
      returns (seqNo: nat, news: seq<nat>)
    requires Reachable(p, s0) && ParkedPasses(p, s0, quiet, s1) && exists e <- quiet :: e.Close?
    requires HealthyDispatch(p, s1, steps, s2) && Delivered(p, ClaimNext(p, s1, Commits), steps) == Some(snap)
    requires j < |snap.targets| && BehindIn(s0.tables, snap.targets[j].chat)
    ensures
      var t0, t2 := ToldOf(s0.told, snap.targets[j].chat), ToldOf(s2.told, snap.targets[j].chat);
      && t2.shown == t0.shown + [seqNo] && t2.posts == t0.posts
      && t2.announced == t0.announced + news
      && forall i <- news :: EventCount(s0.tables) <= i
  {
    var c, v := snap.targets[j].chat, snap.view;
    ParkingIsInvisible(p, s0, quiet, s1);
    var past :| IsRun(p, BroadcastDelivery.Initial(), past, s0);
    RunExtends(p, BroadcastDelivery.Initial(), past, s0, quiet, s1);
    var snap1 := OneDispatchConverges(p, s1, steps, s2);
    assert ServedTarget(s1, s2, snap, j);
    assert SameButNotices(s0.tables.chats[c], s1.tables.chats[c]);
    assert ToldOf(s1.told, c) == ToldOf(s0.told, c).(excused := ToldOf(s1.told, c).excused);
    assert LastSeq(s0.tables) <= |s1.tables.log| by {
      Life.ReachableSound(p, s0);
      LifeGivesBasics(p, s0);
    }
    seqNo := v.cycle.lastSeq;
    news := AnnouncedNow(s1.tables.chats[c].notified, |v.cycle.events|, Enabled(snap.replies, snap.targets[j].audience), Notices.ALL_WELL);
  }

  // ── Parked passes whose transactions fail ──────────────────────────

  /** Everything but Telegram calls and failed loads: lost claims, failed deferrals, notice counts not
      written down, the sweeper, and crashes anywhere. */
  predicate Silent(e: Step) {
    match e
    case DeliverNext(_, _) => false
    case Broadcast(_, _) => false
    case Load(found) => found
    case _ => true
  }

  /** Open entries are open, and closed ones as they were, but for those a reclaim under way at the
      start had found, which it may open again. */
  ghost predicate SameOpen(log: seq<LogEntry>, stale: set<nat>, log': seq<LogEntry>) {
    && |log| <= |log'|
    && forall i | 0 <= i < |log| ::
         if Open(log[i]) then Open(log'[i]) else log'[i] == log[i] || (i in stale && Open(log'[i]))
  }

  /** What silenced passes keep when anything may fail, with chat `c` left behind from the start. */
  ghost predicate Muted(s0: State, s: State, c: ChatId) {
    && SameChats(s0.tables.chats, s.tables.chats) && SameTold(s0.told, s.told)
    && SameOpen(s0.tables.log, s0.stale, s.tables.log)
    && (forall i <- s.stale | i < |s0.tables.log| :: Open(s.tables.log[i]) || i in s0.stale)
    && BehindIn(s.tables, c)
    && match s.pass
       case Idle => true
       case Claimed(_) => true
       case Reading(_, v) => c in Behind(v)
       case Loaded(_, v) => c in Behind(v)
       case Parking(_, v, _) => SameChats(v.chats, s.tables.chats)
       case _ => false
  }

  /** Settling one parked chat, or failing to, changes at most its notice count. */
  lemma SettledOrNot(s: State, chat: ChatId, fate: Fate)
    requires s.pass.Parking? && chat in s.pass.view.chats && SameChats(s.pass.view.chats, s.tables.chats)
    ensures SameChats(s.tables.chats, ParkStep(s, chat, fate).tables.chats)
    ensures SameTold(s.told, ParkStep(s, chat, fate).told)
  {
    assert SameButNotices(s.pass.view.chats[chat], s.tables.chats[chat]);
  }

  lemma SameToldTransitive(a: map<ChatId, Told>, b: map<ChatId, Told>, c: map<ChatId, Told>)
    requires SameTold(a, b) && SameTold(b, c)
    ensures SameTold(a, c)
  {
    forall k: ChatId ensures ToldOf(c, k) == ToldOf(a, k).(excused := ToldOf(c, k).excused) {
      assert ToldOf(b, k) == ToldOf(a, k).(excused := ToldOf(b, k).excused);
    }
  }

  lemma MutedPark(s0: State, s: State, c: ChatId, chat: ChatId, fate: Fate)
    requires Muted(s0, s, c) && s.pass.Parking? && chat in s.pass.left && chat in s.pass.view.chats
    ensures Muted(s0, ParkStep(s, chat, fate), c)
  {
    var s' := ParkStep(s, chat, fate);
    SettledOrNot(s, chat, fate);
    SameChatsTransitive(s0.tables.chats, s.tables.chats, s'.tables.chats);
    SameChatsTransitive(s.pass.view.chats, s.tables.chats, s'.tables.chats);
    SameToldTransitive(s0.told, s.told, s'.told);
    assert SameButNotices(s.tables.chats[c], s'.tables.chats[c]);
  }

  lemma MutedWriter(p: Params, s0: State, s: State, c: ChatId, e: Step)
    requires Muted(s0, s, c) && Basics(s) && IsWriter(e)
    ensures Muted(s0, Next(p, s, e), c)
  {
    WriterAppends(p, s, e);
  }

  /** A step that changes entries without closing any, and nothing else. */
  lemma MutedLogOnly(s0: State, s: State, s': State, c: ChatId)
    requires Muted(s0, s, c) && SameOpen(s.tables.log, s.stale, s'.tables.log) && s'.stale <= s.stale
    requires s'.tables == s.tables.(log := s'.tables.log) && s'.told == s.told
    requires s'.pass == s.pass || s'.pass.Idle? || s'.pass.Claimed?
    ensures Muted(s0, s', c)
  {
  }

  lemma CloseKeepsOpen(p: Params, s: State, db: Db)
    requires Life.Inv(p, s) && s.pass.Parking?
    ensures SameOpen(s.tables.log, s.stale, CloseStep(p, s, db).tables.log)
  {
    assert Life.Held(s) == s.pass.ids;
  }

  lemma MutedClose(p: Params, s0: State, s: State, c: ChatId, db: Db)
    requires Muted(s0, s, c) && Life.Inv(p, s) && CanStep(p, s, Close(db))
    ensures Muted(s0, CloseStep(p, s, db), c)
  {
    CloseKeepsOpen(p, s, db);
    MutedLogOnly(s0, s, CloseStep(p, s, db), c);
  }

  lemma MutedReclaim(p: Params, s0: State, s: State, c: ChatId, db: Db)
    requires Muted(s0, s, c) && |s.marks| == |s.tables.log|
    ensures Muted(s0, Next(p, s, Reclaim(db)), c)
  {
    MutedLogOnly(s0, s, Next(p, s, Reclaim(db)), c);
  }

  lemma MutedFind(p: Params, s0: State, s: State, c: ChatId, ids: set<nat>)
    requires Muted(s0, s, c) && |s.marks| == |s.tables.log| && CanStep(p, s, FindStale(ids))
    ensures Muted(s0, Next(p, s, FindStale(ids)), c)
  {
  }

  lemma MutedClaim(p: Params, s0: State, s: State, c: ChatId, db: Db)
    requires Muted(s0, s, c) && s.pass.Idle?
    ensures Muted(s0, ClaimNext(p, s, db), c)
  {
    MutedLogOnly(s0, s, ClaimNext(p, s, db), c);
  }

  lemma MutedMoves(p: Params, s0: State, s: State, c: ChatId, e: Step)
    requires Muted(s0, s, c) && BroadcastBounds.Inv(s) && |s.marks| == |s.tables.log| && CanStep(p, s, e)
    requires e == Load(true) || e.Read? || e.ReadWorkers? || e.Park?
    ensures Muted(s0, Next(p, s, e), c)
  {
  }

  lemma {:induction false} MutedRun(p: Params, s0: State, s: State, steps: seq<Step>, s': State, c: ChatId)
    requires Muted(s0, s, c) && Life.Inv(p, s) && BroadcastBounds.Inv(s)
    requires IsRun(p, s, steps, s') && forall e <- steps :: Silent(e)
    ensures Muted(s0, s', c)
    decreases |steps|
  {
    if steps != [] {
      var e := steps[0];
      assert Silent(e);
      LifeGivesBasics(p, s);
      match e {
        case Record(_) => MutedWriter(p, s0, s, c, e);
        case Execute(_, _) => MutedWriter(p, s0, s, c, e);
        case Load(_) => MutedMoves(p, s0, s, c, e);
        case Read => MutedMoves(p, s0, s, c, e);
        case ReadWorkers => MutedMoves(p, s0, s, c, e);
        case Park => MutedMoves(p, s0, s, c, e);
        case ParkChat(chat, fate) => MutedPark(s0, s, c, chat, fate);
        case Claim(db) => MutedClaim(p, s0, s, c, db);
        case Close(db) => MutedClose(p, s0, s, c, db);
        case FindStale(ids) => MutedFind(p, s0, s, c, ids);
        case Reclaim(db) => MutedReclaim(p, s0, s, c, db);
        case Crash => MutedLogOnly(s0, s, Next(p, s, e), c);
        case _ =>
      }
      Life.NextKeeps(p, s, e);
      BroadcastBounds.NextKeeps(p, s, e);
      MutedRun(p, s0, Next(p, s, e), steps[1..], s', c);
    }
  }

  /** Silenced passes whose transactions fail can still only spend attempts. While a chat is behind,
      no chat's message, body or sequence changes, nobody is told anything, and no entry is closed:
      an attempt is gone exactly when a claim was not handed back. */
  lemma SilenceOnlySpendsAttempts(p: Params, s0: State, steps: seq<Step>, s: State, c: ChatId)
    requires Reachable(p, s0) && s0.pass.Idle? && BehindIn(s0.tables, c)
    requires IsRun(p, s0, steps, s) && forall e <- steps :: Silent(e)
    ensures SameChats(s0.tables.chats, s.tables.chats) && SameTold(s0.told, s.told) && SameOpen(s0.tables.log, s0.stale, s.tables.log)
    ensures |s.marks| == |s.tables.log| && |s0.marks| == |s0.tables.log| <= |s.tables.log|
    ensures forall i | 0 <= i < |s0.tables.log| ::
              s.tables.log[i].attempts - s0.tables.log[i].attempts
              == (s.marks[i].claims - s0.marks[i].claims) - (s.marks[i].deferrals - s0.marks[i].deferrals)
  {
    ReachableSound(p, s0);
    MutedRun(p, s0, s0, steps, s, c);
    Life.RunKeeps(p, s0, steps, s);
    forall i | 0 <= i < |s0.tables.log|
      ensures s.tables.log[i].attempts - s0.tables.log[i].attempts
              == (s.marks[i].claims - s0.marks[i].claims) - (s.marks[i].deferrals - s0.marks[i].deferrals)
    {
      assert Life.EntrySound(s0.tables.log[i], s0.marks[i], p.maxAttempts);
      assert Life.EntrySound(s.tables.log[i], s.marks[i], p.maxAttempts);
    }
  }
}

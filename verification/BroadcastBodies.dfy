/** What a chat row stores is what the log says: the body is the render of the changes up to the row's
    `delivered_seq`. Holds over every run, whatever fails and whatever the targets. Only the worker
    table may be newer: a load reads it last, and a report may be recorded meanwhile. */
module BroadcastBodies {
  import opened Wrappers
  import opened BroadcastStatus
  import opened BroadcastLog
  import opened BroadcastDelivery
  import opened BroadcastBounds
  import Life = BroadcastLifecycle

  /** The worker table after some first `k` changes, `from` at least and exactly if `exact`. */
  ghost predicate WorkersFrom(workers: map<WorkerId, WorkerRow>, from: nat, changes: seq<Change>, exact: bool) {
    exists k :: from <= k <= |changes| && WorkersAt(workers, k, changes) && (exact ==> k == from)
  }

  ghost predicate WorkersAt(workers: map<WorkerId, WorkerRow>, k: nat, changes: seq<Change>)
    requires k <= |changes|
  {
    workers == WorkersOf(changes[..k])
  }

  /** The body is worked out from the first `seqNo` changes. */
  ghost predicate BodyTrue(body: Body, seqNo: nat, changes: seq<Change>, exact: bool)
    requires seqNo <= |changes|
  {
    && body.events == EventsOf(changes[..seqNo])
    && body.status == Folded(ActionsOf(body.events))
    && (body.audience.Public? ==> body.workers == map[])
    && (body.audience.Private? ==> WorkersFrom(body.workers, seqNo, changes, exact))
  }

  ghost predicate RowTrue(row: ChatRow, changes: seq<Change>, exact: bool) {
    && row.deliveredSeq <= |changes|
    && (row.deliveredSeq > 0 ==> row.body.Some? && BodyTrue(row.body.value, row.deliveredSeq, changes, exact))
  }

  ghost predicate RowsTrue(s: State, exact: bool) {
    forall c <- s.tables.chats :: RowTrue(s.tables.chats[c], Changes(s.tables.log), exact)
  }

  ghost predicate CycleTrue(v: View, changes: seq<Change>) {
    && 0 < v.cycle.lastSeq <= |changes|
    && v.cycle.events == EventsOf(changes[..v.cycle.lastSeq])
    && v.cycle.status == Folded(ActionsOf(v.cycle.events))
  }

  ghost predicate UpTo(chats: map<ChatId, ChatRow>, seqNo: nat) {
    forall c <- chats :: chats[c].deliveredSeq <= seqNo
  }

  predicate HasView(pass: Pass) {
    pass.Reading? || pass.Loaded? || pass.Delivering?
  }

  ghost predicate PassTrue(s: State, exact: bool) {
    HasView(s.pass) ==>
      && CycleTrue(s.pass.view, Changes(s.tables.log)) && UpTo(s.tables.chats, s.pass.view.cycle.lastSeq)
      && (!s.pass.Reading? ==> WorkersFrom(s.pass.view.workers, s.pass.view.cycle.lastSeq, Changes(s.tables.log), exact))
  }

  ghost predicate Inv(s: State, exact: bool) {
    RowsTrue(s, exact) && PassTrue(s, exact)
  }

  /** The log only grows at its end, so what was true of a prefix stays true. */
  lemma PrefixStable(log: seq<LogEntry>, log': seq<LogEntry>)
    requires Life.LogEvolves(log, log')
    ensures Changes(log')[..|log|] == Changes(log)
    ensures forall k: nat | k <= |log| :: Changes(log')[..k] == Changes(log)[..k]
  {
    forall i | 0 <= i < |log| ensures Changes(log')[i] == Changes(log)[i] {
      assert Life.EntryEvolves(log[i], log'[i]);
    }
  }

  lemma WorkersStable(workers: map<WorkerId, WorkerRow>, from: nat, log: seq<LogEntry>, log': seq<LogEntry>, exact: bool)
    requires WorkersFrom(workers, from, Changes(log), exact) && Life.LogEvolves(log, log')
    ensures WorkersFrom(workers, from, Changes(log'), exact)
  {
    PrefixStable(log, log');
    var k :| from <= k <= |Changes(log)| && WorkersAt(workers, k, Changes(log)) && (exact ==> k == from);
    assert WorkersAt(workers, k, Changes(log'));
  }

  lemma RowStable(row: ChatRow, log: seq<LogEntry>, log': seq<LogEntry>, exact: bool)
    requires RowTrue(row, Changes(log), exact) && Life.LogEvolves(log, log')
    ensures RowTrue(row, Changes(log'), exact)
  {
    PrefixStable(log, log');
    if row.deliveredSeq > 0 && row.body.value.audience.Private? {
      WorkersStable(row.body.value.workers, row.deliveredSeq, log, log', exact);
    }
  }

  lemma ChatsUntouched(s: State, s': State, exact: bool)
    requires Inv(s, exact) && Life.LogEvolves(s.tables.log, s'.tables.log) && s'.tables.chats == s.tables.chats
    requires HasView(s'.pass) ==> HasView(s.pass) && s'.pass.view == s.pass.view && (s.pass.Reading? <==> s'.pass.Reading?)
    ensures Inv(s', exact)
  {
    forall c <- s'.tables.chats ensures RowTrue(s'.tables.chats[c], Changes(s'.tables.log), exact) {
      RowStable(s.tables.chats[c], s.tables.log, s'.tables.log, exact);
    }
    PrefixStable(s.tables.log, s'.tables.log);
    if HasView(s'.pass) && !s'.pass.Reading? {
      WorkersStable(s.pass.view.workers, s.pass.view.cycle.lastSeq, s.tables.log, s'.tables.log, exact);
    }
  }

  /** A delivery stores the sequence of its snapshot together with the body it renders, or neither. */
  lemma BodyWithItsSequence(s: State, a: Answers)
    requires s.pass.Delivering? && s.pass.next < |s.pass.targets|
    ensures
      var d, v, target := DeliveryAt(s, a), s.pass.view, s.pass.targets[s.pass.next];
      d.write.Some? ==>
        || (d.write.value.body.None? && d.write.value.deliveredSeq.None?)
        || (d.write.value.body == Some(Render(target.audience, v)) && d.write.value.deliveredSeq == Some(v.cycle.lastSeq))
  {
  }

  lemma DeliverKeeps(s: State, a: Answers, fate: Fate, exact: bool)
    requires Inv(s, exact) && s.pass.Delivering? && s.pass.next < |s.pass.targets|
    ensures Inv(DeliverStep(s, a, fate), exact)
  {
    var s', v, target := DeliverStep(s, a, fate), s.pass.view, s.pass.targets[s.pass.next];
    BodyWithItsSequence(s, a);
    assert BodyTrue(Render(target.audience, v), v.cycle.lastSeq, Changes(s.tables.log), exact);
    forall c <- s'.tables.chats
      ensures RowTrue(s'.tables.chats[c], Changes(s'.tables.log), exact) && s'.tables.chats[c].deliveredSeq <= v.cycle.lastSeq
    {
      if c in s.tables.chats {
        assert RowTrue(s.tables.chats[c], Changes(s.tables.log), exact);
      }
    }
  }

  lemma ParkKeeps(s: State, chat: ChatId, fate: Fate, exact: bool)
    requires Inv(s, exact) && BroadcastBounds.Inv(s) && s.pass.Parking? && chat in s.pass.left && chat in s.pass.view.chats
    ensures Inv(ParkStep(s, chat, fate), exact)
  {
    var s' := ParkStep(s, chat, fate);
    forall c <- s'.tables.chats ensures RowTrue(s'.tables.chats[c], Changes(s'.tables.log), exact) {
      assert RowTrue(s.tables.chats[c], Changes(s.tables.log), exact);
    }
  }

  /** The tables are true to the log when they are read. */
  lemma TablesTrue(p: Params, s: State)
    requires Life.Inv(p, s) && BroadcastBounds.Inv(s) && s.tables.cycle.Some?
    ensures CycleTrue(View(s.tables.cycle.value, map[], map[]), Changes(s.tables.log))
    ensures WorkersAt(s.tables.workers, |s.tables.log|, Changes(s.tables.log))
    ensures s.tables.cycle.value.lastSeq == |s.tables.log| && UpTo(s.tables.chats, |s.tables.log|)
  {
    var c, changes := s.tables.cycle.value, Changes(s.tables.log);
    LifeGivesBasics(p, s);
    assert CycleFollows(c, changes) && s.tables.workers == WorkersOf(changes);
    assert changes[..c.lastSeq] == changes;
  }

  lemma LoadKeeps(p: Params, s: State, e: Step, exact: bool)
    requires Inv(s, exact) && Life.Inv(p, s) && BroadcastBounds.Inv(s) && CanStep(p, s, e)
    requires e == Load(true) || e.Read? || (e.ReadWorkers? && !exact)
    ensures Inv(Next(p, s, e), exact)
  {
    LifeGivesBasics(p, s);
    if s.tables.cycle.Some? {
      TablesTrue(p, s);
    }
  }

  lemma OthersKeep(p: Params, s: State, e: Step, exact: bool)
    requires Inv(s, exact) && |s.marks| == |s.tables.log| && CanStep(p, s, e)
    requires !e.DeliverNext? && !e.ParkChat? && !e.Read? && !e.ReadWorkers? && (e.Load? ==> !e.found)
    requires Life.LogEvolves(s.tables.log, Next(p, s, e).tables.log)
    ensures Inv(Next(p, s, e), exact)
  {
    ChatsUntouched(s, Next(p, s, e), exact);
  }

  lemma NextKeeps(p: Params, s: State, e: Step, exact: bool)
    requires Inv(s, exact) && Life.Inv(p, s) && BroadcastBounds.Inv(s) && CanStep(p, s, e) && (exact ==> !e.ReadWorkers?)
    ensures Inv(Next(p, s, e), exact)
  {
    if e.DeliverNext? {
      DeliverKeeps(s, e.answers, e.fate, exact);
    } else if e.ParkChat? {
      ParkKeeps(s, e.chat, e.fate, exact);
    } else if e == Load(true) || e.Read? || e.ReadWorkers? {
      LoadKeeps(p, s, e, exact);
    } else {
      Life.NextKeeps(p, s, e);
      OthersKeep(p, s, e, exact);
    }
  }

  lemma {:induction false} RunKeeps(p: Params, s: State, steps: seq<Step>, s': State, exact: bool)
    requires Inv(s, exact) && Life.Inv(p, s) && BroadcastBounds.Inv(s) && IsRun(p, s, steps, s')
    requires exact ==> forall e <- steps :: !e.ReadWorkers?
    ensures Inv(s', exact)
    decreases |steps|
  {
    if steps != [] {
      assert steps[0] in steps;
      NextKeeps(p, s, steps[0], exact);
      LifeGivesBasics(p, s);
      BroadcastBounds.NextKeeps(p, s, steps[0]);
      Life.NextKeeps(p, s, steps[0]);
      RunKeeps(p, Next(p, s, steps[0]), steps[1..], s', exact);
    }
  }

  /** After every run, crashes, lost writes and changed settings included, the body stored for a chat
      is worked out from the first `delivered_seq` changes: exactly its events and status, and, in a
      private one, the worker table of that many changes or more; exactly that many over a run in
      which no load was interrupted. A public body never carries the worker table. */
  lemma StoredBodyIsTheRender(p: Params, steps: seq<Step>, s: State, chat: ChatId)
    requires IsRun(p, BroadcastDelivery.Initial(), steps, s)
    requires chat in s.tables.chats && s.tables.chats[chat].deliveredSeq > 0
    ensures
      var row := s.tables.chats[chat];
      && row.deliveredSeq <= |s.tables.log| && row.body.Some?
      && BodyTrue(row.body.value, row.deliveredSeq, Changes(s.tables.log), forall e <- steps :: !e.ReadWorkers?)
  {
    RunKeeps(p, BroadcastDelivery.Initial(), steps, s, forall e <- steps :: !e.ReadWorkers?);
    assert RowTrue(s.tables.chats[chat], Changes(s.tables.log), forall e <- steps :: !e.ReadWorkers?);
  }
}

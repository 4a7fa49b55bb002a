/** What every run keeps of the write log: the log determines the cycle, and the life cycle of an
    entry with its attempt budget. Nothing is assumed about failures here. */
module BroadcastLifecycle {
  import opened Wrappers
  import opened BroadcastStatus
  import opened BroadcastLog
  import opened BroadcastDelivery
  import TradeStatus

  /** The entries the current pass has claimed. */
  function Held(s: State): set<nat> {
    if s.pass.Idle? then {} else s.pass.ids
  }

  ghost predicate EntrySound(e: LogEntry, m: Marks, maxAttempts: nat) {
    && e.attempts + m.deferrals == m.claims
    && e.attempts <= maxAttempts
    && (e.status.SENDING? ==> e.attempts >= 1)
    && (e.status.FAILED? ==> e.attempts == maxAttempts)
    && (e.status.PENDING? && e.attempts == maxAttempts && maxAttempts > 0 ==> m.stranded)
  }

  ghost predicate EntriesSound(log: seq<LogEntry>, marks: seq<Marks>, maxAttempts: nat) {
    && |marks| == |log|
    && forall i | 0 <= i < |log| :: EntrySound(log[i], marks[i], maxAttempts)
  }

  /** A claimed entry has an attempt to give back and is not closed. */
  ghost predicate HeldSound(log: seq<LogEntry>, ids: set<nat>) {
    forall i <- ids :: i < |log| && log[i].attempts >= 1 && (log[i].status.SENDING? || log[i].status.PENDING?)
  }

  ghost predicate Inv(p: Params, s: State) {
    && LogSound(s.tables)
    && EntriesSound(s.tables.log, s.marks, p.maxAttempts)
    && HeldSound(s.tables.log, Held(s))
  }

  /** What an entry records stays. */
  predicate EntryEvolves(e: LogEntry, e': LogEntry) {
    e'.seqNo == e.seqNo && e'.change == e.change
  }

  ghost predicate LogEvolves(log: seq<LogEntry>, log': seq<LogEntry>) {
    && |log| <= |log'|
    && forall i | 0 <= i < |log| :: EntryEvolves(log[i], log'[i])
  }

  lemma SameChangesSound(t: Tables, log: seq<LogEntry>)
    requires LogSound(t) && |log| == |t.log|
    requires forall i | 0 <= i < |log| :: EntryEvolves(t.log[i], log[i])
    ensures LogSound(t.(log := log))
  {
    assert Changes(log) == Changes(t.log);
    if t.cycle.None? {
      assert log == [];
    }
  }

  /** A writer leaves the log alone or appends one fresh entry. */
  predicate AppendsFresh(log: seq<LogEntry>, log': seq<LogEntry>) {
    || log' == log
    || (|log'| == |log| + 1 && log'[..|log|] == log && log'[|log|].status.PENDING? && log'[|log|].attempts == 0)
  }

  lemma AppendKeeps(s: State, t: Tables, maxAttempts: nat)
    requires EntriesSound(s.tables.log, s.marks, maxAttempts) && HeldSound(s.tables.log, Held(s))
    requires AppendsFresh(s.tables.log, t.log)
    ensures EntriesSound(t.log, FreshMarks(s.marks, t.log), maxAttempts)
    ensures HeldSound(t.log, Held(s)) && LogEvolves(s.tables.log, t.log)
  {
    var log, marks := s.tables.log, FreshMarks(s.marks, t.log);
    forall i | 0 <= i < |log| ensures t.log[i] == log[i] && marks[i] == s.marks[i] {
      assert t.log[..|log|][i] == log[i];
    }
  }

  lemma WriterKeeps(p: Params, s: State, e: Step)
    requires Inv(p, s) && (e.Record? || e.Execute?)
    ensures Inv(p, Next(p, s, e)) && LogEvolves(s.tables.log, Next(p, s, e).tables.log)
  {
    var t := Next(p, s, e).tables;
    if e.Record? {
      EventRecordedSound(s.tables, e.event);
    } else {
      ExecutionRecordedSound(s.tables, e.worker, e.row);
    }
    assert AppendsFresh(s.tables.log, t.log) by {
      assert s.tables.cycle.None? ==> s.tables.log == [];
    }
    AppendKeeps(s, t, p.maxAttempts);
  }

  /** A claim spends one attempt of every entry it takes, and holds what it took. */
  lemma ClaimSpends(p: Params, s: State)
    requires EntriesSound(s.tables.log, s.marks, p.maxAttempts)
    ensures
      var ids := ClaimableIds(s.tables.log, p.maxAttempts);
      var log, marks := LogClaimed(s.tables.log, ids), MarksClaimed(s.marks, ids);
      EntriesSound(log, marks, p.maxAttempts) && HeldSound(log, ids) && LogEvolves(s.tables.log, log)
  {
    var ids := ClaimableIds(s.tables.log, p.maxAttempts);
    forall i | 0 <= i < |s.tables.log|
      ensures EntrySound(LogClaimed(s.tables.log, ids)[i], MarksClaimed(s.marks, ids)[i], p.maxAttempts)
    {
      assert EntrySound(s.tables.log[i], s.marks[i], p.maxAttempts);
    }
  }

  lemma ClaimKeeps(p: Params, s: State, db: Db)
    requires Inv(p, s) && s.pass.Idle?
    ensures Inv(p, ClaimNext(p, s, db)) && LogEvolves(s.tables.log, ClaimNext(p, s, db).tables.log)
  {
    if !db.Aborts? {
      ClaimSpends(p, s);
      SameChangesSound(s.tables, ClaimNext(p, s, db).tables.log);
    }
  }

  lemma ReclaimKeeps(p: Params, s: State, db: Db)
    requires Inv(p, s)
    ensures Inv(p, Next(p, s, Reclaim(db))) && LogEvolves(s.tables.log, Next(p, s, Reclaim(db)).tables.log)
  {
    var s' := Next(p, s, Reclaim(db));
    forall i | 0 <= i < |s.tables.log|
      ensures EntryEvolves(s.tables.log[i], s'.tables.log[i]) && EntrySound(s'.tables.log[i], s'.marks[i], p.maxAttempts)
    {
      assert EntrySound(s.tables.log[i], s.marks[i], p.maxAttempts);
    }
    SameChangesSound(s.tables, s'.tables.log);
  }

  lemma CloseKeeps(p: Params, s: State, db: Db)
    requires Inv(p, s) && CanStep(p, s, Close(db))
    ensures Inv(p, CloseStep(p, s, db)) && LogEvolves(s.tables.log, CloseStep(p, s, db).tables.log)
  {
    var s' := CloseStep(p, s, db);
    forall i | 0 <= i < |s.tables.log|
      ensures EntryEvolves(s.tables.log[i], s'.tables.log[i]) && EntrySound(s'.tables.log[i], s'.marks[i], p.maxAttempts)
    {
      assert EntrySound(s.tables.log[i], s.marks[i], p.maxAttempts);
    }
    SameChangesSound(s.tables, s'.tables.log);
  }

  lemma NextKeeps(p: Params, s: State, e: Step)
    requires Inv(p, s) && CanStep(p, s, e)
    ensures Inv(p, Next(p, s, e)) && LogEvolves(s.tables.log, Next(p, s, e).tables.log)
  {
    match e
    case Record(_) => WriterKeeps(p, s, e);
    case Execute(_, _) => WriterKeeps(p, s, e);
    case Claim(db) => ClaimKeeps(p, s, db);
    case Close(db) => CloseKeeps(p, s, db);
    case Reclaim(db) => ReclaimKeeps(p, s, db);
    case _ =>
      assert Next(p, s, e).tables.log == s.tables.log;
      assert Held(Next(p, s, e)) <= Held(s);
  }

  lemma {:induction false} RunKeeps(p: Params, s: State, steps: seq<Step>, s': State)
    requires Inv(p, s) && IsRun(p, s, steps, s')
    ensures Inv(p, s') && LogEvolves(s.tables.log, s'.tables.log)
    decreases |steps|
  {
    if steps != [] {
      var mid := Next(p, s, steps[0]);
      NextKeeps(p, s, steps[0]);
      RunKeeps(p, mid, steps[1..], s');
      forall i | 0 <= i < |s.tables.log| ensures EntryEvolves(s.tables.log[i], s'.tables.log[i]) {
        assert EntryEvolves(s.tables.log[i], mid.tables.log[i]) && EntryEvolves(mid.tables.log[i], s'.tables.log[i]);
      }
    }
  }

  lemma ReachableSound(p: Params, s: State)
    requires Reachable(p, s)
    ensures Inv(p, s)
  {
    var steps :| IsRun(p, BroadcastDelivery.Initial(), steps, s);
    RunKeeps(p, BroadcastDelivery.Initial(), steps, s);
  }

  // ── The guarantees ─────────────────────────────────────────────────

  /** In every reachable state the log alone gives back the whole cycle. */
  lemma LogDeterminesCycle(p: Params, s: State)
    requires Reachable(p, s) && s.tables.cycle.Some?
    ensures
      var c, changes := s.tables.cycle.value, Changes(s.tables.log);
      && (forall i | 0 <= i < |s.tables.log| :: s.tables.log[i].seqNo == i + 1)
      && c.lastSeq == |s.tables.log|
      && c.events == EventsOf(changes)
      && s.tables.workers == WorkersOf(changes)
      && Split(c.actions) == Names(ActionsOf(c.events))
      && c.latestAction == c.events[|c.events| - 1].action
      && NoAdjacentRepeat(c.events)
  {
    ReachableSound(p, s);
    TrailRoundTrip(ActionsOf(s.tables.cycle.value.events), LONG);
  }

  /** An event with this action is among them. */
  ghost predicate Has(events: seq<Event>, action: Action) {
    exists i :: 0 <= i < |events| && events[i].action == action
  }

  ghost predicate HasEnd(events: seq<Event>) {
    Has(events, Action.TP2) || Has(events, Action.SL) || Has(events, Action.R_SL) || Has(events, Action.FLAT)
  }

  lemma ActionsHave(events: seq<Event>, action: Action)
    ensures action in ActionsOf(events) <==> Has(events, action)
  {
    if Has(events, action) {
      var i :| 0 <= i < |events| && events[i].action == action;
      assert ActionsOf(events)[i] == action;
    }
  }

  /** In every reachable state the cycle is CLOSED if and only if one of its events ended the trade,
      and TP1 if and only if part was taken off and none ended it. */
  lemma StatusMeans(p: Params, s: State)
    requires Reachable(p, s) && s.tables.cycle.Some?
    ensures
      var c := s.tables.cycle.value;
      && (c.status.CLOSED? <==> HasEnd(c.events))
      && (c.status.TP1? <==> !HasEnd(c.events) && Has(c.events, Action.TP1))
  {
    ReachableSound(p, s);
    var c := s.tables.cycle.value;
    assert CycleFollows(c, Changes(s.tables.log));
    FoldedMeans(ActionsOf(c.events));
    forall action: Action ensures action in ActionsOf(c.events) <==> Has(c.events, action) {
      ActionsHave(c.events, action);
    }
  }

  lemma EventsOnlyGrow(p: Params, s: State, e: Step)
    requires |s.marks| == |s.tables.log| && CanStep(p, s, e) && s.tables.cycle.Some?
    ensures
      var t := Next(p, s, e).tables;
      t.cycle.Some? && s.tables.cycle.value.events <= t.cycle.value.events
  {
  }

  lemma {:induction false} EventsGrowOverRuns(p: Params, s: State, steps: seq<Step>, s': State)
    requires IsRun(p, s, steps, s') && s.tables.cycle.Some?
    ensures s'.tables.cycle.Some? && s.tables.cycle.value.events <= s'.tables.cycle.value.events
    decreases |steps|
  {
    if steps != [] {
      EventsOnlyGrow(p, s, steps[0]);
      EventsGrowOverRuns(p, Next(p, s, steps[0]), steps[1..], s');
    }
  }

  /** A cycle never moves backwards: one that is CLOSED stays CLOSED over every run, and one that
      reached TP1 never reads RUNNING again. */
  lemma EndedForGood(p: Params, s: State, steps: seq<Step>, s': State)
    requires Reachable(p, s) && IsRun(p, s, steps, s') && s.tables.cycle.Some?
    ensures s'.tables.cycle.Some?
    ensures s.tables.cycle.value.status.CLOSED? ==> s'.tables.cycle.value.status.CLOSED?
    ensures s.tables.cycle.value.status.TP1? ==> !s'.tables.cycle.value.status.RUNNING?
  {
    var past :| IsRun(p, BroadcastDelivery.Initial(), past, s);
    RunExtends(p, BroadcastDelivery.Initial(), past, s, steps, s');
    EventsGrowOverRuns(p, s, steps, s');
    StatusMeans(p, s);
    StatusMeans(p, s');
    var before, after := s.tables.cycle.value.events, s'.tables.cycle.value.events;
    forall action: Action | Has(before, action) ensures Has(after, action) {
      var i :| 0 <= i < |before| && before[i].action == action;
      assert after[i] == before[i];
    }
  }

  // ── What was recorded ──────────────────────────────────────────────

  /** The signals recorded over a run, less those repeating the one before: same action, same time. */
  function Recorded(steps: seq<Step>): seq<Event> {
    if steps == [] then []
    else
      var before, last := Recorded(steps[..|steps| - 1]), steps[|steps| - 1];
      if !last.Record? then before
      else if before != [] && before[|before| - 1].action == last.event.action && before[|before| - 1].timestamp == last.event.timestamp
      then before
      else before + [last.event]
  }

  /** The last report of a worker since the cycle began. */
  function LastReport(steps: seq<Step>, worker: WorkerId): Option<WorkerRow> {
    if steps == [] then None
    else
      var before, last := steps[..|steps| - 1], steps[|steps| - 1];
      if last.Execute? && last.worker == worker && Recorded(before) != [] then Some(last.row) else LastReport(before, worker)
  }

  /** The tables hold what was recorded. */
  ghost predicate Holds(t: Tables, steps: seq<Step>) {
    && (if t.cycle.Some? then t.cycle.value.events == Recorded(steps) && Recorded(steps) != [] else Recorded(steps) == [] && t.workers == map[])
    && forall w :: if w in t.workers then LastReport(steps, w) == Some(t.workers[w]) else LastReport(steps, w).None?
  }

  lemma HoldsNext(p: Params, s: State, steps: seq<Step>, e: Step)
    requires |s.marks| == |s.tables.log| && CanStep(p, s, e) && Holds(s.tables, steps)
    ensures Holds(Next(p, s, e).tables, steps + [e])
  {
    assert (steps + [e])[..|steps|] == steps;
    var t := Next(p, s, e).tables;
    if e.Record? {
      RecordingTakes(s.tables, e.event, "", WorkerRow(TradeStatus.Opened, None));
    } else if e.Execute? {
      RecordingTakes(s.tables, Event(LONG, 0, 0), e.worker, e.row);
    } else {
      assert t.cycle == s.tables.cycle && t.workers == s.tables.workers;
    }
  }

  lemma {:induction false} HoldsOverRuns(p: Params, past: seq<Step>, s: State, steps: seq<Step>, s': State)
    requires Holds(s.tables, past) && IsRun(p, s, steps, s')
    ensures Holds(s'.tables, past + steps)
    decreases |steps|
  {
    if steps == [] {
      assert past + steps == past;
    } else {
      HoldsNext(p, s, past, steps[0]);
      HoldsOverRuns(p, past + [steps[0]], Next(p, s, steps[0]), steps[1..], s');
      assert past + [steps[0]] + steps[1..] == past + steps;
    }
  }

  /** Over every run the cycle's events are the signals recorded, in order, but for repetitions of the
      one before, and each worker's row is the last report about it since the cycle began. */
  lemma TablesHoldWhatWasRecorded(p: Params, steps: seq<Step>, s: State, worker: WorkerId)
    requires IsRun(p, BroadcastDelivery.Initial(), steps, s)
    ensures (if s.tables.cycle.Some? then s.tables.cycle.value.events else []) == Recorded(steps)
    ensures (if worker in s.tables.workers then Some(s.tables.workers[worker]) else None) == LastReport(steps, worker)
  {
    HoldsOverRuns(p, [], BroadcastDelivery.Initial(), steps, s);
    assert [] + steps == steps;
  }

  /** The event list as the renderers read it back. */
  function Texts(events: seq<Event>): (texts: seq<Option<Action>>)
    ensures |texts| == |events|
  {
    seq(|events|, i requires 0 <= i < |events| => Some(events[i].action))
  }

  lemma {:induction false} AllRecognised(events: seq<Event>)
    ensures Recognised(Texts(events)) == ActionsOf(events)
    decreases |events|
  {
    if events != [] {
      var init := events[..|events| - 1];
      AllRecognised(init);
      assert Texts(events)[..|events| - 1] == Texts(init);
      assert ActionsOf(events) == ActionsOf(init) + [events[|events| - 1].action];
    }
  }

  lemma HeaderOfCycle(c: Cycle)
    requires c.events != [] && c.status == Folded(ActionsOf(c.events))
    ensures HeaderOf(Some(c.status), Texts(c.events)) == c.status
    ensures NoticeOf(Some(c.status), Texts(c.events), |c.events| - 1) == Some(c.status)
  {
    AllRecognised(c.events);
    HeaderAgreesWithLastNotice(c.status, Texts(c.events));
  }

  /** The row's status is the fold of its events, so folding them again in the header changes
      nothing and the header agrees with the notice for the last event. */
  lemma HeaderAndNoticeAgree(p: Params, s: State)
    requires Reachable(p, s) && s.tables.cycle.Some?
    ensures
      var c := s.tables.cycle.value;
      && HeaderOf(Some(c.status), Texts(c.events)) == c.status
      && NoticeOf(Some(c.status), Texts(c.events), |c.events| - 1) == Some(c.status)
  {
    assert CycleFollows(s.tables.cycle.value, Changes(s.tables.log)) by {
      ReachableSound(p, s);
    }
    HeaderOfCycle(s.tables.cycle.value);
  }

  /** Life cycle of an entry: attempts are claims minus deferrals and never exceed the limit;
      FAILED means every attempt was used; one left PENDING at the limit was written back by
      a reclaim on its last attempt; and an entry a pass holds always has an attempt to give back. */
  lemma EntryLifeCycle(p: Params, s: State, i: nat)
    requires Reachable(p, s) && i < |s.tables.log|
    ensures |s.marks| == |s.tables.log|
    ensures
      var e, m := s.tables.log[i], s.marks[i];
      && e.attempts == m.claims - m.deferrals && e.attempts <= p.maxAttempts
      && (e.status.FAILED? ==> e.attempts == p.maxAttempts)
      && (e.status.PENDING? && !Claimable(e, p.maxAttempts) ==> p.maxAttempts == 0 || m.stranded)
      && (i in Held(s) ==> DeferredEntry(e).attempts == e.attempts - 1)
  {
    ReachableSound(p, s);
    assert EntrySound(s.tables.log[i], s.marks[i], p.maxAttempts);
  }

  predicate Closed(e: LogEntry) {
    e.status.DELIVERED? || e.status.FAILED?
  }

  /** Closed, and no reclaim under way has found it still being sent. */
  ghost predicate Final(s: State, i: nat) {
    i < |s.tables.log| && Closed(s.tables.log[i]) && i !in s.stale
  }

  lemma FinalKept(p: Params, s: State, e: Step, i: nat)
    requires Inv(p, s) && CanStep(p, s, e) && Final(s, i)
    ensures Final(Next(p, s, e), i) && Next(p, s, e).tables.log[i] == s.tables.log[i]
  {
    assert i !in Held(s);
  }

  lemma {:induction false} FinalStays(p: Params, s: State, steps: seq<Step>, s': State, i: nat)
    requires Inv(p, s) && Final(s, i) && IsRun(p, s, steps, s')
    ensures Final(s', i) && s'.tables.log[i] == s.tables.log[i]
    decreases |steps|
  {
    if steps != [] {
      FinalKept(p, s, steps[0], i);
      NextKeeps(p, s, steps[0]);
      FinalStays(p, Next(p, s, steps[0]), steps[1..], s', i);
    }
  }

  /** Whatever happens next, the entry stays exactly as it is. */
  ghost predicate NeverChanges(p: Params, s: State, i: nat)
    requires i < |s.tables.log|
  {
    forall steps, s' | IsRun(p, s, steps, s') :: i < |s'.tables.log| && s'.tables.log[i] == s.tables.log[i]
  }

  /** A DELIVERED or FAILED entry is final if and only if the reclaim under way, if any, did not find
      it: one that did will write PENDING over whatever the pass has closed it as. */
  lemma ClosedIsFinalIff(p: Params, s: State, i: nat)
    requires Reachable(p, s) && i < |s.tables.log| && Closed(s.tables.log[i])
    ensures NeverChanges(p, s, i) <==> i !in s.stale
  {
    ReachableSound(p, s);
    if i !in s.stale {
      forall steps, s' | IsRun(p, s, steps, s') ensures i < |s'.tables.log| && s'.tables.log[i] == s.tables.log[i] {
        FinalStays(p, s, steps, s', i);
      }
    } else {
      var s' := Next(p, s, Reclaim(Commits));
      assert IsRun(p, s', [], s') && [Reclaim(Commits)][1..] == [];
      assert IsRun(p, s, [Reclaim(Commits)], s');
      assert s'.tables.log[i] != s.tables.log[i];
    }
  }

  // ── The attempt budget ─────────────────────────────────────────────

  /** Attempts left in the log. */
  function Budget(log: seq<LogEntry>, maxAttempts: nat): nat {
    if log == [] then 0
    else
      var last := log[|log| - 1];
      Budget(log[..|log| - 1], maxAttempts) + (if last.attempts < maxAttempts then maxAttempts - last.attempts else 0)
  }

  lemma {:induction false} BudgetMonotone(log: seq<LogEntry>, log': seq<LogEntry>, maxAttempts: nat)
    requires |log| == |log'| && forall i | 0 <= i < |log| :: log[i].attempts <= log'[i].attempts
    ensures Budget(log', maxAttempts) <= Budget(log, maxAttempts)
    ensures (exists i | 0 <= i < |log| :: log[i].attempts < log'[i].attempts <= maxAttempts) ==> Budget(log', maxAttempts) < Budget(log, maxAttempts)
    decreases |log|
  {
    if log != [] {
      BudgetMonotone(log[..|log| - 1], log'[..|log| - 1], maxAttempts);
      if i :| 0 <= i < |log| && log[i].attempts < log'[i].attempts <= maxAttempts {
        if i < |log| - 1 {
          assert log[..|log| - 1][i].attempts < log'[..|log| - 1][i].attempts <= maxAttempts;
        }
      }
    }
  }

  /** Claims that take at least one entry; a lost reply still spends the attempt. */
  function BusyClaim(p: Params, s: State, e: Step): nat {
    if e.Claim? && !e.db.Aborts? && ClaimableIds(s.tables.log, p.maxAttempts) != {} then 1 else 0
  }

  ghost function BusyClaims(p: Params, s: State, steps: seq<Step>, s': State): nat
    requires IsRun(p, s, steps, s')
    decreases |steps|
  {
    if steps == [] then 0
    else BusyClaim(p, s, steps[0]) + BusyClaims(p, Next(p, s, steps[0]), steps[1..], s')
  }

  /** Neither writes nor parks. */
  predicate SpendsOnly(e: Step) {
    !e.Record? && !e.Execute? && !e.Park?
  }

  lemma StepSpends(p: Params, s: State, e: Step)
    requires |s.marks| == |s.tables.log| && CanStep(p, s, e) && SpendsOnly(e) && !s.pass.Parking?
    ensures Budget(Next(p, s, e).tables.log, p.maxAttempts) + BusyClaim(p, s, e) <= Budget(s.tables.log, p.maxAttempts)
  {
    var s' := Next(p, s, e);
    BudgetMonotone(s.tables.log, s'.tables.log, p.maxAttempts);
    if BusyClaim(p, s, e) == 1 {
      var i :| i in ClaimableIds(s.tables.log, p.maxAttempts);
      assert s.tables.log[i].attempts < s'.tables.log[i].attempts <= p.maxAttempts;
    }
  }

  /** Termination: without new writes and without parking, at most as many claims can still find
      work as there are attempts left in the log. */
  lemma {:induction false} ClaimsAreBounded(p: Params, s: State, steps: seq<Step>, s': State)
    requires IsRun(p, s, steps, s') && !s.pass.Parking? && forall e <- steps :: SpendsOnly(e)
    ensures BusyClaims(p, s, steps, s') + Budget(s'.tables.log, p.maxAttempts) <= Budget(s.tables.log, p.maxAttempts)
    decreases |steps|
  {
    if steps != [] {
      assert SpendsOnly(steps[0]);
      StepSpends(p, s, steps[0]);
      ClaimsAreBounded(p, Next(p, s, steps[0]), steps[1..], s');
    }
  }
}

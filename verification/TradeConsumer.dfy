/** `TradeEventConsumer` between the TRADES stream and the trades table: reports are redelivered
    until they are settled, and settling, committing and hearing of it can each fail alone. */
module TradeConsumer {
  import opened Wrappers
  import opened TradeStatus
  import opened TradeLedger

  type MessageId = nat

  const TRADE_MAX_DELIVERIES := 720

  datatype TradeOutcome = PERSISTED | UNREADABLE | RETRY

  /** What arrived on the stream (None is a report nobody can read), what is still on it, how often
      each was delivered, and the reports whose upsert was committed, in order. */
  datatype State = State(
    arrived: map<MessageId, Option<Report>>,
    stream: set<MessageId>,
    deliveries: map<MessageId, nat>,
    applied: seq<Report>)

  /** A settle that fails, or a broker that dies before it, leaves the message to be redelivered. */
  datatype Event = Arrive(m: MessageId, report: Option<Report>) | Deliver(m: MessageId, db: Db, settles: bool)

  predicate CanStep(s: State, e: Event) {
    match e
    case Arrive(m, _) => m !in s.arrived && m !in s.deliveries
    case Deliver(m, _, _) => m in s.stream && m in s.arrived && m in s.deliveries
  }

  /** The upsert of a status nobody knows returns before it touches the database. */
  predicate Ignored(e: Report) {
    ToTradeStatus(e.position).None?
  }

  function OutcomeOf(report: Option<Report>, db: Db): TradeOutcome {
    if report.None? then UNREADABLE
    else if db.Commits? || Ignored(report.value) then PERSISTED
    else RETRY
  }

  /** Whether the message is taken off the stream: acked, or terminated. */
  predicate Leaves(outcome: TradeOutcome, deliveries: nat) {
    !outcome.RETRY? || deliveries >= TRADE_MAX_DELIVERIES
  }

  function Next(s: State, e: Event): State
    requires CanStep(s, e)
  {
    match e
    case Arrive(m, report) => State(s.arrived[m := report], s.stream + {m}, s.deliveries[m := 0], s.applied)
    case Deliver(m, db, settles) =>
      var n := s.deliveries[m] + 1;
      var report := s.arrived[m];
      State(s.arrived,
            if settles && Leaves(OutcomeOf(report, db), n) then s.stream - {m} else s.stream,
            s.deliveries[m := n],
            if report.Some? && (!db.Aborts? || Ignored(report.value)) then s.applied + [report.value] else s.applied)
  }

  ghost predicate IsRun(s: State, events: seq<Event>, s': State)
    decreases |events|
  {
    if events == [] then s == s' else CanStep(s, events[0]) && IsRun(Next(s, events[0]), events[1..], s')
  }

  const EMPTY := State(map[], {}, map[], [])

  ghost predicate Reachable(s: State) {
    exists events :: IsRun(EMPTY, events, s)
  }

  ghost predicate Inv(s: State) {
    && s.deliveries.Keys == s.arrived.Keys
    && s.stream <= s.arrived.Keys
    && (forall m <- s.arrived :: m in s.stream || s.arrived[m].None? || s.arrived[m].value in s.applied
                                 || s.deliveries[m] >= TRADE_MAX_DELIVERIES)
    && (forall e <- s.applied :: exists m :: m in s.arrived && s.arrived[m] == Some(e))
  }

  lemma NextKeeps(s: State, e: Event)
    requires Inv(s) && CanStep(s, e)
    ensures Inv(Next(s, e))
  {
    var s' := Next(s, e);
    forall r <- s'.applied ensures exists m :: m in s'.arrived && s'.arrived[m] == Some(r) {
      if r in s.applied {
        var m :| m in s.arrived && s.arrived[m] == Some(r);
        assert m in s'.arrived && s'.arrived[m] == Some(r);
      } else {
        assert s'.arrived[e.m] == Some(r);
      }
    }
  }

  lemma {:induction false} RunKeeps(s: State, events: seq<Event>, s': State)
    requires Inv(s) && IsRun(s, events, s')
    ensures Inv(s')
    decreases |events|
  {
    if events != [] {
      NextKeeps(s, events[0]);
      RunKeeps(Next(s, events[0]), events[1..], s');
    }
  }

  lemma {:induction false} RunExtends(s: State, events: seq<Event>, s': State, e: Event)
    requires IsRun(s, events, s') && CanStep(s', e)
    ensures IsRun(s, events + [e], Next(s', e))
    decreases |events|
  {
    if events == [] {
      assert [e][1..] == [];
    } else {
      RunExtends(Next(s, events[0]), events[1..], s', e);
      assert (events + [e])[1..] == events[1..] + [e];
    }
  }

  /** A report leaves the stream only when its upsert was committed, nobody can read it, or it had
      all its deliveries. */
  lemma LeavesOnlyWhenSettled(s: State, m: MessageId)
    requires Reachable(s) && m in s.arrived && m !in s.stream
    ensures s.arrived[m].None? || s.arrived[m].value in s.applied
            || (m in s.deliveries && s.deliveries[m] >= TRADE_MAX_DELIVERIES)
  {
    var events :| IsRun(EMPTY, events, s);
    RunKeeps(EMPTY, events, s);
  }

  /** The reports that arrived and can be read. */
  ghost predicate Readable(s: State, reports: seq<Report>) {
    forall e :: e in reports <==> exists m :: m in s.arrived && s.arrived[m] == Some(e)
  }

  lemma EverythingApplied(s: State, reports: seq<Report>)
    requires Reachable(s) && s.stream == {} && Readable(s, reports)
    requires forall m <- s.deliveries :: s.deliveries[m] < TRADE_MAX_DELIVERIES
    ensures forall e :: e in s.applied <==> e in reports
  {
    var events :| IsRun(EMPTY, events, s);
    RunKeeps(EMPTY, events, s);
    forall e ensures e in s.applied <==> e in reports {
      if e in reports {
        var m :| m in s.arrived && s.arrived[m] == Some(e);
        assert s.arrived[m].value in s.applied;
      }
    }
  }

  /** Once the stream is empty and no report used up its deliveries, the table is where the reports
      that arrived lead to in whatever order they are put: it has one row for each trade reported,
      at the rank of the furthest report, and with its status unless the trade was reported both
      closed and flat. Outages, redeliveries and repeated commits on the way leave no trace. */
  lemma EmptyStreamMeansEverythingCounted(s: State, reports: seq<Report>)
    requires Reachable(s) && s.stream == {} && Readable(s, reports) && GatewaysSet(reports)
    requires forall m <- s.deliveries :: s.deliveries[m] < TRADE_MAX_DELIVERIES
    ensures
      var rows := AppliedAll(s.applied);
      && (forall i, j | 0 <= i < j < |rows| :: RowKey(rows[i]) != RowKey(rows[j]))
      && (forall key :: (exists i :: 0 <= i < |rows| && RowKey(rows[i]) == key) <==> Furthest(reports, key).Some?)
      && (forall i | 0 <= i < |rows| :: RowFollows(rows[i], reports))
  {
    EverythingApplied(s, reports);
    var rows := AppliedAll(s.applied);
    TableTracksReports(s.applied);
    forall key ensures (exists i :: 0 <= i < |rows| && RowKey(rows[i]) == key) <==> Furthest(reports, key).Some? {
      OrderAndRepetitionDoNotMatter(s.applied, reports, key);
    }
    forall i | 0 <= i < |rows| ensures RowFollows(rows[i], reports) {
      OrderAndRepetitionDoNotMatter(s.applied, reports, RowKey(rows[i]));
      FurthestCounts(reports, RowKey(rows[i]));
      FurthestCounts(s.applied, RowKey(rows[i]));
    }
  }

  lemma FurthestCounts(reports: seq<Report>, key: Key)
    ensures Furthest(reports, key).Some? ==> Counts(Furthest(reports, key).value, key)
  {
    var i := FurthestIsLatestOfTheHighest(reports, key);
  }

  /** The row is as far as the furthest of these reports about its trade. */
  predicate RowFollows(row: Row, reports: seq<Report>) {
    var e := Furthest(reports, RowKey(row));
    && e.Some? && ReportRank(e.value) == Rank(row.status)
    && (!ClosedAndFlat(reports, RowKey(row)) ==> ToTradeStatus(e.value.position) == Some(row.status))
  }

  // ── The code ───────────────────────────────────────────────────────

  class TradeRepository {
    var rows: seq<Row>

    constructor ()
      ensures rows == []
    {
      rows := [];
    }

    /** Applies a report in one transaction. False: the call raised, which does not mean that
        nothing was written. */
    method UpsertByPositionEvent(e: Report, db: Db) returns (ok: bool)
      modifies this
      ensures rows == if db.Aborts? then old(rows) else Applied(old(rows), e)
      ensures ok == (db.Commits? || ToTradeStatus(e.position).None?)
    {
      var status := ToTradeStatus(e.position);
      if status.None? {
        return true;
      }
      if db.Aborts? {
        return false;
      }
      var i := FirstMatch(rows, e);
      if i < |rows| {
        if !IsDowngrade(status.value, rows[i].status) {
          rows := rows[i := Updated(rows[i], e, status.value)];
        }
      } else {
        rows := rows + [Inserted(e, status.value)];
      }
      return db.Commits?;
    }
  }

  class TradeEventConsumer {
    const repo: TradeRepository

    /** The TRADES stream, as the broker's settles leave it. */
    var stream: set<MessageId>

    ghost var state: State

    ghost predicate Valid()
      reads this, repo
    {
      Reachable(state) && stream == state.stream && repo.rows == AppliedAll(state.applied)
    }

    constructor ()
      ensures Valid() && state == EMPTY && fresh(repo)
    {
      repo := new TradeRepository();
      stream, state := {}, EMPTY;
      assert IsRun(EMPTY, [], EMPTY);
    }

    ghost method Advance(e: Event)
      requires Reachable(state) && CanStep(state, e)
      modifies this`state
      ensures Reachable(state) && state == Next(old(state), e)
    {
      var events :| IsRun(EMPTY, events, state);
      RunExtends(EMPTY, events, state, e);
      state := Next(state, e);
    }

    /** The stream captures a report as it is published. */
    method Capture(m: MessageId, report: Option<Report>)
      requires Valid() && CanStep(state, Arrive(m, report))
      modifies this
      ensures Valid() && state == Next(old(state), Arrive(m, report)) && m in stream
    {
      stream := stream + {m};
      Advance(Arrive(m, report));
    }

    /** Parses and persists one report. Never raises. */
    method HandleSubjectTrade(report: Option<Report>, db: Db) returns (outcome: TradeOutcome)
      modifies repo
      ensures outcome == OutcomeOf(report, db)
      ensures outcome.UNREADABLE? <==> report.None?
      ensures outcome.PERSISTED? <==> report.Some? && (db.Commits? || report.value.position.Other?)
      ensures repo.rows == if report.Some? && (!db.Aborts? || Ignored(report.value)) then Applied(old(repo.rows), report.value) else old(repo.rows)
    {
      if report.None? {
        return UNREADABLE;
      }
      var ok := repo.UpsertByPositionEvent(report.value, db);
      if !ok {
        return RETRY;
      }
      return PERSISTED;
    }

    /** Processes one report and settles it according to the outcome: it stays on the stream while it
        could not be persisted and has deliveries left, or the settle fails. */
    method HandleOne(m: MessageId, report: Option<Report>, deliveries: nat, db: Db, settles: bool)
      requires Valid() && CanStep(state, Deliver(m, Commits, true))
      requires report == state.arrived[m] && deliveries == state.deliveries[m] + 1
      modifies this, repo
      ensures Valid() && state.arrived == old(state.arrived)
      ensures m in state.deliveries && state.deliveries[m] == deliveries
      ensures stream == if settles && (report.None? || db.Commits? || report.value.position.Other? || deliveries >= 720)
                        then old(stream) - {m} else old(stream)
      ensures repo.rows == if report.Some? && !db.Aborts? then Applied(old(repo.rows), report.value) else old(repo.rows)
      ensures report.Some? && !db.Aborts? ==> report.value in state.applied
      ensures m !in stream ==> report.None? || report.value in state.applied || deliveries >= 720
    {
      var outcome := HandleSubjectTrade(report, db);
      if outcome.PERSISTED? || outcome.UNREADABLE? || deliveries >= TRADE_MAX_DELIVERIES {
        if settles {
          stream := stream - {m};
        }
      }
      assert report.Some? ==> (state.applied + [report.value])[..|state.applied|] == state.applied;
      Advance(Deliver(m, db, settles));
      if m !in stream {
        LeavesOnlyWhenSettled(state, m);
      }
    }
  }
}

/** The `trades` table under worker reports that arrive reordered and repeated. */
module TradeLedger {
  import opened Wrappers
  import opened TradeStatus

  /** A worker's position event, as far as the trade row takes it over. */
  datatype Report = Report(
    account: string, refId: string, market: string, gateway: Option<string>,
    position: PositionStatus, closedPrice: Option<int>, openedPrice: int, volume: int)

  datatype Row = Row(
    account: string, refId: string, market: string, gateway: Option<string>,
    status: TradeStatus, lastAction: Option<ActionLabel>, isRunning: bool, price: int, quantity: int)

  /** What tells two trades apart. */
  datatype Key = Key(account: string, refId: string, market: string, gateway: Option<string>)

  function KeyOf(e: Report): Key {
    Key(e.account, e.refId, e.market, e.gateway)
  }

  function RowKey(row: Row): Key {
    Key(row.account, row.refId, row.market, row.gateway)
  }

  /** The row a report is looked up by: its own gateway, or one recorded before gateways were. */
  predicate Matches(row: Row, e: Report) {
    && row.account == e.account && row.refId == e.refId && row.market == e.market
    && (row.gateway == e.gateway || row.gateway.None?)
  }

  /** The place of the first match, or the end of the table. */
  function FirstMatch(rows: seq<Row>, e: Report): (r: nat)
    ensures r <= |rows|
    ensures r < |rows| ==> Matches(rows[r], e)
    ensures forall j | 0 <= j < r :: !Matches(rows[j], e)
  {
    if rows == [] || Matches(rows[0], e) then 0 else 1 + FirstMatch(rows[1..], e)
  }

  /** A closing price of 0 means the worker had none to report. */
  function PriceOf(e: Report): int {
    if e.closedPrice.Some? && e.closedPrice.value != 0 then e.closedPrice.value else e.openedPrice
  }

  function Updated(row: Row, e: Report, status: TradeStatus): Row {
    row.(status := status, lastAction := ToLastAction(e.position), isRunning := IsOpen(e.position),
         price := PriceOf(e), quantity := e.volume,
         gateway := if e.gateway.Some? then e.gateway else row.gateway)
  }

  function Inserted(e: Report, status: TradeStatus): Row {
    Row(e.account, e.refId, e.market, e.gateway, status, ToLastAction(e.position), IsOpen(e.position), PriceOf(e), e.volume)
  }

  /** `upsert_by_position_event` on the table. */
  function Applied(rows: seq<Row>, e: Report): seq<Row> {
    var status := ToTradeStatus(e.position);
    if status.None? then rows
    else
      var i := FirstMatch(rows, e);
      if i == |rows| then rows + [Inserted(e, status.value)]
      else if IsDowngrade(status.value, rows[i].status) then rows
      else rows[i := Updated(rows[i], e, status.value)]
  }

  function AppliedAll(reports: seq<Report>): seq<Row> {
    if reports == [] then [] else Applied(AppliedAll(reports[..|reports| - 1]), reports[|reports| - 1])
  }

  // ── The table without the table ────────────────────────────────────

  predicate Counts(e: Report, key: Key) {
    KeyOf(e) == key && ToTradeStatus(e.position).Some?
  }

  function ReportRank(e: Report): int {
    var status := ToTradeStatus(e.position);
    if status.Some? then Rank(status.value) else -2
  }

  /** Of all reports about a trade, the latest among those that got furthest. */
  function Furthest(reports: seq<Report>, key: Key): Option<Report> {
    if reports == [] then None
    else
      var before, e := Furthest(reports[..|reports| - 1], key), reports[|reports| - 1];
      if Counts(e, key) && (before.None? || ReportRank(e) >= ReportRank(before.value)) then Some(e) else before
  }

  /** Furthest, said without recursion: nothing about this trade ranks higher, and nothing later
      ranks as high. */
  lemma {:induction false} FurthestIsLatestOfTheHighest(reports: seq<Report>, key: Key) returns (i: nat)
    ensures Furthest(reports, key).None? <==> forall e <- reports :: !Counts(e, key)
    ensures Furthest(reports, key).Some? ==>
              && i < |reports| && reports[i] == Furthest(reports, key).value && Counts(reports[i], key)
              && (forall j | 0 <= j < |reports| && Counts(reports[j], key) ::
                    ReportRank(reports[j]) <= ReportRank(reports[i]) && (j > i ==> ReportRank(reports[j]) < ReportRank(reports[i])))
  {
    i := 0;
    if reports != [] {
      var n := |reports| - 1;
      assert reports == reports[..n] + [reports[n]];
      var before := Furthest(reports[..n], key);
      i := FurthestIsLatestOfTheHighest(reports[..n], key);
      if Furthest(reports, key) == Some(reports[n]) && Counts(reports[n], key)
         && (before.None? || ReportRank(reports[n]) >= ReportRank(before.value)) {
        i := n;
      }
    }
  }

  predicate Shows(row: Row, e: Report) {
    && ToTradeStatus(e.position) == Some(row.status)
    && row.lastAction == ToLastAction(e.position)
    && row.isRunning == IsOpen(e.position)
    && row.price == PriceOf(e) && row.quantity == e.volume
  }

  /** The table holds a row for a trade exactly when one of its reports was understood, and it
      shows the furthest one. */
  ghost predicate Tracks(rows: seq<Row>, reports: seq<Report>) {
    && (forall i | 0 <= i < |rows| ::
          && rows[i].gateway.Some?
          && Furthest(reports, RowKey(rows[i])).Some?
          && Shows(rows[i], Furthest(reports, RowKey(rows[i])).value))
    && (forall i, j | 0 <= i < j < |rows| :: RowKey(rows[i]) != RowKey(rows[j]))
    && (forall key | Furthest(reports, key).Some? :: exists i :: 0 <= i < |rows| && RowKey(rows[i]) == key)
  }

  ghost predicate GatewaysSet(reports: seq<Report>) {
    forall e <- reports :: e.gateway.Some?
  }

  lemma FurthestElsewhere(reports: seq<Report>, e: Report, key: Key)
    ensures Furthest(reports + [e], key) ==
              if Counts(e, key) && (Furthest(reports, key).None? || ReportRank(e) >= ReportRank(Furthest(reports, key).value))
              then Some(e) else Furthest(reports, key)
  {
    assert (reports + [e])[..|reports|] == reports;
  }

  lemma AppliedTracks(rows: seq<Row>, reports: seq<Report>, e: Report)
    requires Tracks(rows, reports) && e.gateway.Some?
    ensures Tracks(Applied(rows, e), reports + [e])
  {
    var rows' := Applied(rows, e);
    var i := FirstMatch(rows, e);
    if i < |rows| {
      assert RowKey(rows[i]) == KeyOf(e);
    }
    AppliedKeys(rows, e);
    forall k | 0 <= k < |rows'|
      ensures Furthest(reports + [e], RowKey(rows'[k])).Some? && Shows(rows'[k], Furthest(reports + [e], RowKey(rows'[k])).value)
    {
      FurthestElsewhere(reports, e, RowKey(rows'[k]));
      if k < |rows| {
        assert RowKey(rows'[k]) == RowKey(rows[k]);
      }
    }
    forall key | Furthest(reports + [e], key).Some? ensures exists j :: 0 <= j < |rows'| && RowKey(rows'[j]) == key {
      FurthestElsewhere(reports, e, key);
      if Furthest(reports, key).Some? {
        var j :| 0 <= j < |rows| && RowKey(rows[j]) == key;
        assert RowKey(rows'[j]) == key;
      } else {
        assert KeyOf(e) == key && RowKey(rows'[i]) == key;
      }
    }
  }

  /** With its gateway set, a report leaves every key in place and adds at most its own. */
  lemma AppliedKeys(rows: seq<Row>, e: Report)
    requires e.gateway.Some? && forall i | 0 <= i < |rows| :: rows[i].gateway.Some?
    requires forall i, j | 0 <= i < j < |rows| :: RowKey(rows[i]) != RowKey(rows[j])
    ensures
      var rows' := Applied(rows, e);
      && |rows| <= |rows'| <= |rows| + 1
      && (forall i | 0 <= i < |rows| :: RowKey(rows'[i]) == RowKey(rows[i]))
      && (|rows'| > |rows| ==> RowKey(rows'[|rows|]) == KeyOf(e))
      && (forall i | 0 <= i < |rows'| :: rows'[i].gateway.Some?)
      && (forall i, j | 0 <= i < j < |rows'| :: RowKey(rows'[i]) != RowKey(rows'[j]))
  {
    var i := FirstMatch(rows, e);
    if i < |rows| {
      assert RowKey(rows[i]) == KeyOf(e);
    } else {
      assert forall j | 0 <= j < |rows| :: !Matches(rows[j], e);
    }
  }

  /** The incremental table and the account of it agree, for every sequence of reports. */
  lemma {:induction false} TableTracksReports(reports: seq<Report>)
    requires GatewaysSet(reports)
    ensures Tracks(AppliedAll(reports), reports)
  {
    if reports != [] {
      var n := |reports| - 1;
      TableTracksReports(reports[..n]);
      AppliedTracks(AppliedAll(reports[..n]), reports[..n], reports[n]);
      assert reports == reports[..n] + [reports[n]];
    }
  }

  // ── What operators rely on ─────────────────────────────────────────

  /** Both reports say that the trade is over, but differently. */
  predicate ClosedAndFlat(reports: seq<Report>, key: Key) {
    && (exists e <- reports :: Counts(e, key) && ToTradeStatus(e.position) == Some(Closed))
    && (exists e <- reports :: Counts(e, key) && ToTradeStatus(e.position) == Some(Flat))
  }

  /** Two histories of the same reports, in any order and with any repetition, leave a trade at the
      same rank, and at the same status unless it was reported both closed and flat. */
  lemma OrderAndRepetitionDoNotMatter(xs: seq<Report>, ys: seq<Report>, key: Key)
    requires forall e :: e in xs <==> e in ys
    ensures Furthest(xs, key).Some? <==> Furthest(ys, key).Some?
    ensures Furthest(xs, key).Some? ==>
              var x, y := Furthest(xs, key).value, Furthest(ys, key).value;
              ReportRank(x) == ReportRank(y)
              && (!ClosedAndFlat(xs, key) ==> ToTradeStatus(x.position) == ToTradeStatus(y.position))
  {
    var i := FurthestIsLatestOfTheHighest(xs, key);
    var j := FurthestIsLatestOfTheHighest(ys, key);
    if Furthest(xs, key).Some? {
      assert xs[i] in ys;
    }
    if Furthest(ys, key).Some? {
      assert ys[j] in xs;
    }
  }

  lemma LaterOfTwo(x: Report, y: Report)
    requires KeyOf(x) == KeyOf(y) && Counts(x, KeyOf(y)) && Counts(y, KeyOf(y)) && ReportRank(x) <= ReportRank(y)
    ensures Furthest([x, y], KeyOf(y)) == Some(y)
  {
    FurthestElsewhere([], x, KeyOf(y));
    FurthestElsewhere([x], y, KeyOf(y));
    assert [] + [x] == [x] && [x] + [y] == [x, y];
  }

  /** The exception is real: the same two reports in the two orders end differently. */
  lemma ClosedAndFlatDependOnOrder(closed: Report, flat: Report)
    requires KeyOf(closed) == KeyOf(flat)
    requires ToTradeStatus(closed.position) == Some(Closed) && ToTradeStatus(flat.position) == Some(Flat)
    ensures Furthest([closed, flat], KeyOf(flat)) == Some(flat)
    ensures Furthest([flat, closed], KeyOf(flat)) == Some(closed)
  {
    LaterOfTwo(closed, flat);
    LaterOfTwo(flat, closed);
  }

  predicate IsRejection(e: Report) {
    ToTradeStatus(e.position) == Some(Rejected)
  }

  /** A rejection is not final: a trade is left rejected exactly when nothing but rejections of it
      ever arrived, in whatever order. */
  lemma RejectedOnlyIfNothingElse(reports: seq<Report>, key: Key)
    ensures (Furthest(reports, key).Some? && IsRejection(Furthest(reports, key).value)) <==>
              (exists e <- reports :: Counts(e, key)) && (forall e <- reports :: Counts(e, key) ==> IsRejection(e))
  {
    var i := FurthestIsLatestOfTheHighest(reports, key);
    if Furthest(reports, key).Some? {
      assert reports[i] in reports;
      forall e <- reports | Counts(e, key) ensures ReportRank(e) <= ReportRank(reports[i]) {
        var j :| 0 <= j < |reports| && reports[j] == e;
      }
    }
  }

  /** The trade is in the table, and over. */
  ghost predicate IsOver(rows: seq<Row>, key: Key) {
    exists i :: 0 <= i < |rows| && RowKey(rows[i]) == key && rows[i].status in {Closed, Flat} && !rows[i].isRunning
  }

  lemma OverIffFurthestIsOver(rows: seq<Row>, reports: seq<Report>, key: Key)
    requires Tracks(rows, reports)
    ensures IsOver(rows, key) <==> Furthest(reports, key).Some? && ReportRank(Furthest(reports, key).value) == 2
  {
    if Furthest(reports, key).Some? {
      var i :| 0 <= i < |rows| && RowKey(rows[i]) == key;
      assert Shows(rows[i], Furthest(reports, key).value);
    }
  }

  /** A trade that was reported over never runs again, whatever is delivered afterwards. */
  lemma OverStaysOver(before: seq<Report>, after: seq<Report>, key: Key)
    requires GatewaysSet(before + after) && IsOver(AppliedAll(before), key)
    ensures IsOver(AppliedAll(before + after), key)
  {
    assert forall e <- before :: e in before + after;
    TableTracksReports(before);
    TableTracksReports(before + after);
    OverIffFurthestIsOver(AppliedAll(before), before, key);
    OverIffFurthestIsOver(AppliedAll(before + after), before + after, key);
    var n := FurthestIsLatestOfTheHighest(before, key);
    var m := FurthestIsLatestOfTheHighest(before + after, key);
    assert (before + after)[n] == before[n] && before[n] in before + after;
    assert ReportRank((before + after)[m]) <= 2;
  }

  /** The columns of a row always agree with each other. */
  lemma ColumnsAgree(reports: seq<Report>, i: nat)
    requires GatewaysSet(reports) && i < |AppliedAll(reports)|
    ensures
      var row := AppliedAll(reports)[i];
      && (row.isRunning <==> row.status in {Opened, PartiallyClosed})
      && row.lastAction.Some?
      && ToTradeStatus(if row.lastAction.value.FLAT? then FLATTED else row.lastAction.value.status) == Some(row.status)
  {
    TableTracksReports(reports);
  }

  // ── Said of the positions ──────────────────────────────────────────

  /** The position ends the trade. */
  predicate EndsTrade(position: PositionStatus) {
    position in {TP2, SL, R_SL, TERMINAL_CLOSED, FORCED_CLOSED, FLATTED}
  }

  /** The status a position stands for. */
  predicate StandsFor(position: PositionStatus, status: TradeStatus) {
    match status
    case Opened => position.OPENED?
    case PartiallyClosed => position.TP1?
    case Closed => EndsTrade(position) && !position.FLATTED?
    case Flat => position.FLATTED?
    case Rejected => position.REJECTED?
  }

  /** One of the reports about this trade has this position. */
  ghost predicate Reported(reports: seq<Report>, key: Key, position: PositionStatus) {
    exists e <- reports :: e.account == key.account && e.refId == key.refId && e.market == key.market
                           && e.gateway == key.gateway && e.position == position
  }

  ghost predicate ReportedOver(reports: seq<Report>, key: Key) {
    exists position :: EndsTrade(position) && Reported(reports, key, position)
  }

  lemma PositionsMean(e: Report)
    ensures ToTradeStatus(e.position).None? <==> e.position.Other?
    ensures forall status: TradeStatus :: ToTradeStatus(e.position) == Some(status) <==> StandsFor(e.position, status)
    ensures ReportRank(e) == (if EndsTrade(e.position) then 2 else if e.position.TP1? then 1 else if e.position.OPENED? then 0
                              else if e.position.REJECTED? then -1 else -2)
  {
  }

  /** The furthest report of a trade, by positions: over if any report says so, else partially closed
      if any does, else opened if any does, else rejected. */
  lemma FurthestByPosition(reports: seq<Report>, key: Key)
    ensures
      var e := Furthest(reports, key);
      && (e.Some? <==> ReportedOver(reports, key) || Reported(reports, key, PositionStatus.TP1) || Reported(reports, key, OPENED) || Reported(reports, key, REJECTED))
      && (e.Some? ==>
            && (EndsTrade(e.value.position) <==> ReportedOver(reports, key))
            && (e.value.position.TP1? <==> !ReportedOver(reports, key) && Reported(reports, key, PositionStatus.TP1))
            && (e.value.position.REJECTED? ==> !ReportedOver(reports, key) && !Reported(reports, key, PositionStatus.TP1) && !Reported(reports, key, OPENED)))
  {
    var i := FurthestIsLatestOfTheHighest(reports, key);
    forall e <- reports ensures Counts(e, key) <==> KeyOf(e) == key && !e.position.Other? {
      PositionsMean(e);
    }
    forall e <- reports | Counts(e, key) ensures Reported(reports, key, e.position) {
    }
    if Furthest(reports, key).Some? {
      PositionsMean(reports[i]);
      assert reports[i] in reports;
      forall e <- reports | Counts(e, key) ensures ReportRank(e) <= ReportRank(reports[i]) {
        var j :| 0 <= j < |reports| && reports[j] == e;
      }
      forall e <- reports ensures ReportRank(e) == (if EndsTrade(e.position) then 2 else if e.position.TP1? then 1 else if e.position.OPENED? then 0
                              else if e.position.REJECTED? then -1 else -2) {
        PositionsMean(e);
      }
    }
  }

  /** What a row shows of a report. */
  predicate Displays(row: Row, e: Report) {
    && StandsFor(e.position, row.status)
    && row.lastAction == Some(if e.position.FLATTED? then FLAT else Named(e.position))
    && (row.isRunning <==> e.position.OPENED? || e.position.TP1?)
    && row.price == (if e.closedPrice.None? || e.closedPrice == Some(0) then e.openedPrice else e.closedPrice.value)
    && row.quantity == e.volume
  }

  /** The row of a trade shows one of its reports: a closing one if there is any, else a partial one,
      else an opening one, else a rejection; and of those with the same claim the latest. */
  lemma TradeStands(reports: seq<Report>, i: nat) returns (k: nat)
    requires GatewaysSet(reports) && i < |AppliedAll(reports)|
    ensures
      var row := AppliedAll(reports)[i];
      var key := Key(row.account, row.refId, row.market, row.gateway);
      && k < |reports| && Displays(row, reports[k]) && KeyOf(reports[k]) == key
      && (row.status in {Closed, Flat} <==> ReportedOver(reports, key))
      && (row.status.PartiallyClosed? <==> !ReportedOver(reports, key) && Reported(reports, key, PositionStatus.TP1))
      && (row.status.Rejected? ==> !ReportedOver(reports, key) && !Reported(reports, key, PositionStatus.TP1) && !Reported(reports, key, OPENED))
      && (forall j | k < j < |reports| && KeyOf(reports[j]) == key :: !Outdoes(reports[j].position, reports[k].position))
  {
    var row := AppliedAll(reports)[i];
    TableTracksReports(reports);
    k := FurthestIsLatestOfTheHighest(reports, RowKey(row));
    FurthestByPosition(reports, RowKey(row));
    PositionsMean(reports[k]);
    forall j | k < j < |reports| && KeyOf(reports[j]) == RowKey(row) ensures !Outdoes(reports[j].position, reports[k].position) {
      PositionsMean(reports[j]);
    }
  }

  /** A report with this position takes the row over from one with that: it is as far or further. */
  predicate Outdoes(position: PositionStatus, current: PositionStatus) {
    || EndsTrade(position)
    || (position.TP1? && !EndsTrade(current))
    || (position.OPENED? && (current.OPENED? || current.REJECTED?))
    || (position.REJECTED? && current.REJECTED?)
  }

  /** The upsert on the columns: an unknown position changes nothing; the first row of the trade that
      carries the report's gateway or none takes the report over, unless it is further already; with
      no such row one is added. */
  lemma UpsertDoes(rows: seq<Row>, e: Report) returns (i: nat)
    ensures i <= |rows|
    ensures forall j | 0 <= j < i :: !(rows[j].account == e.account && rows[j].refId == e.refId && rows[j].market == e.market
                                        && (rows[j].gateway == e.gateway || rows[j].gateway == None))
    ensures i < |rows| ==> rows[i].account == e.account && rows[i].refId == e.refId && rows[i].market == e.market
                           && (rows[i].gateway == e.gateway || rows[i].gateway == None)
    ensures
      var rows' := Applied(rows, e);
      if e.position.Other? || (i < |rows| && Behind(e.position, rows[i].status)) then rows' == rows
      else
        && |rows'| == (if i < |rows| then |rows| else |rows| + 1)
        && (forall j | 0 <= j < |rows| && j != i :: rows'[j] == rows[j])
        && Displays(rows'[i], e)
        && rows'[i].account == e.account && rows'[i].refId == e.refId && rows'[i].market == e.market
        && rows'[i].gateway == (if e.gateway.None? && i < |rows| then rows[i].gateway else e.gateway)
  {
    i := FirstMatch(rows, e);
    PositionsMean(e);
  }

  /** The position says less than the status. */
  predicate Behind(position: PositionStatus, status: TradeStatus) {
    match status
    case Opened => position.REJECTED?
    case PartiallyClosed => position.REJECTED? || position.OPENED?
    case Closed => position.REJECTED? || position.OPENED? || position.TP1?
    case Flat => position.REJECTED? || position.OPENED? || position.TP1?
    case Rejected => false
  }

  // ── Without a gateway ──────────────────────────────────────────────

  /** How many rows the table has for one trade. */
  function RowsFor(rows: seq<Row>, account: string, refId: string, market: string): nat {
    if rows == [] then 0
    else (if rows[0].account == account && rows[0].refId == refId && rows[0].market == market then 1 else 0)
         + RowsFor(rows[1..], account, refId, market)
  }

  lemma {:induction false} RowsForUpdate(rows: seq<Row>, i: nat, row: Row, account: string, refId: string, market: string)
    requires i < |rows| && row.account == rows[i].account && row.refId == rows[i].refId && row.market == rows[i].market
    ensures RowsFor(rows[i := row], account, refId, market) == RowsFor(rows, account, refId, market)
  {
    if i > 0 {
      RowsForUpdate(rows[1..], i - 1, row, account, refId, market);
      assert rows[i := row][1..] == rows[1..][i - 1 := row];
    } else {
      assert rows[i := row][1..] == rows[1..];
    }
  }

  lemma {:induction false} RowsForAppend(rows: seq<Row>, row: Row, account: string, refId: string, market: string)
    ensures RowsFor(rows + [row], account, refId, market)
         == RowsFor(rows, account, refId, market) + RowsFor([row], account, refId, market)
  {
    if rows == [] {
      assert rows + [row] == [row];
    } else {
      RowsForAppend(rows[1..], row, account, refId, market);
      assert (rows + [row])[1..] == rows[1..] + [row];
    }
  }

  /** A report adds a row exactly when it is understood and every row the trade already has carries
      a gateway other than its own, none at all included. */
  lemma AddsARowIff(rows: seq<Row>, e: Report)
    ensures RowsFor(Applied(rows, e), e.account, e.refId, e.market) ==
              RowsFor(rows, e.account, e.refId, e.market)
              + if ToTradeStatus(e.position).Some? && (forall row <- rows :: !Matches(row, e)) then 1 else 0
  {
    var i, status := FirstMatch(rows, e), ToTradeStatus(e.position);
    if status.Some? && i == |rows| {
      RowsForAppend(rows, Inserted(e, status.value), e.account, e.refId, e.market);
      assert RowsFor([Inserted(e, status.value)], e.account, e.refId, e.market) == 1;
    } else if status.Some? {
      assert rows[i] in rows;
      RowsForUpdate(rows, i, Updated(rows[i], e, status.value), e.account, e.refId, e.market);
    }
  }

  /** So one trade whose worker sends its gateway only now and then ends up as two rows. */
  lemma UnsetGatewaySplitsATrade(e: Report)
    requires e.gateway.Some? && ToTradeStatus(e.position).Some?
    ensures RowsFor(AppliedAll([e.(gateway := None), e, e.(gateway := None)]), e.account, e.refId, e.market) == 2
  {
    var n, status := e.(gateway := None), ToTradeStatus(e.position).value;
    assert [n, e, n][..2] == [n, e] && [n, e][..1] == [n] && [n][..0] == [];
    var r0 := Inserted(n, status);
    assert AppliedAll([n]) == [r0];
    assert FirstMatch([r0], e) == 0;
    var r1 := Updated(r0, e, status);
    assert AppliedAll([n, e]) == [r0][0 := r1] == [r1];
    assert !Matches(r1, n) && FirstMatch([r1], n) == 1;
    assert AppliedAll([n, e, n]) == [r1] + [r0] == [r1, r0];
    assert [r1, r0][1..] == [r0] && [r0][1..] == [];
    assert RowsFor([r0], e.account, e.refId, e.market) == 1;
  }
}

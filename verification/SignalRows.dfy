/** The `signals` table and the transactions `SqlAlchemySignalRepository` runs on it.

    Rows are never deleted, so a row's id is modelled as its position in the table: insertion
    order is `createdAt` order, and the id of the next insert is fresh by construction. */
module SignalRows {
  import opened Wrappers

  type SignalId = nat

  /** Identity of a stored JetStream message; its delivery key is this number. */
  type MessageId = nat

  datatype SignalStatus = QUEUED | PUBLISHED | FAILED

  /** Whether the payload can be turned into a trading signal. It is a function of the payload
      alone: the same payload parses, or fails to parse, on every attempt. */
  datatype Payload = Sound | Unparseable

  datatype Signal = Signal(
    deliveryKey: Option<MessageId>,
    payload: Payload,
    status: SignalStatus,
    attempts: int,
    lastAttempt: Option<nat>)

  type SignalTable = seq<Signal>

  /** A row whose first fan-out started but was never confirmed either way. */
  predicate FirstFanoutUnconfirmed(row: Signal) {
    row.status.QUEUED? && row.lastAttempt.None?
  }

  predicate KeyFree(rows: SignalTable, key: Option<MessageId>) {
    key.None? || forall i | 0 <= i < |rows| :: rows[i].deliveryKey != key
  }

  function NewSignal(key: Option<MessageId>, payload: Payload, attempts: int): Signal {
    Signal(key, payload, QUEUED, attempts, None)
  }

  function MarkedPublished(row: Signal): Signal {
    row.(status := PUBLISHED)
  }

  function MarkedFailed(row: Signal, now: nat): Signal {
    row.(status := FAILED, attempts := 0, lastAttempt := Some(now))
  }

  function AttemptSpent(row: Signal, now: nat): Signal {
    if row.attempts <= 1 then
      row.(lastAttempt := Some(now), attempts := 0, status := FAILED)
    else
      row.(lastAttempt := Some(now), attempts := row.attempts - 1)
  }

  /** One attempt less, stamped; the last one closes the row. */
  predicate SpentOne(before: Signal, row: Signal, now: nat) {
    && row.deliveryKey == before.deliveryKey && row.payload == before.payload && row.lastAttempt == Some(now)
    && (before.attempts > 1 ==> row.attempts == before.attempts - 1 && row.status == before.status)
    && (before.attempts <= 1 ==> row.attempts == 0 && row.status.FAILED?)
  }

  /** The table after a transaction on one row: unchanged when it rolled back or found no row. */
  function Stored(rows: SignalTable, id: SignalId, row: Signal, db: Db): SignalTable {
    if id < |rows| && !db.Aborts? then rows[id := row] else rows
  }

  /** The table after an insert; the unique key turns a second insert into a roll-back. */
  function Inserted(rows: SignalTable, row: Signal, db: Db): SignalTable {
    if KeyFree(rows, row.deliveryKey) && !db.Aborts? then rows + [row] else rows
  }

  predicate Retryable(row: Signal, now: nat, interval: nat) {
    && row.status.QUEUED?
    && row.attempts > 0
    && row.lastAttempt.Some?
    && row.lastAttempt.value + interval < now
  }

  /** `list_retryable`: the ids of the QUEUED rows with attempts left whose last failed attempt is
      longer ago than the interval, from position `from` on, oldest first. */
  function RetryableFrom(rows: SignalTable, from: nat, now: nat, interval: nat): (ids: seq<SignalId>)
    requires from <= |rows|
    ensures forall id <- ids :: from <= id < |rows|
    ensures forall id | from <= id < |rows| ::
              id in ids <==> rows[id].status.QUEUED? && rows[id].attempts > 0
                             && rows[id].lastAttempt.Some? && now - rows[id].lastAttempt.value > interval
    ensures forall i, j | 0 <= i < j < |ids| :: ids[i] < ids[j]
    decreases |rows| - from
  {
    if from == |rows| then []
    else
      var rest := RetryableFrom(rows, from + 1, now, interval);
      assert forall k | 0 <= k < |rest| :: rest[k] in rest;
      if Retryable(rows[from], now, interval) then [from] + rest else rest
  }

  /** Updates the table in place, one transaction per method. `db` is what the database does. */
  class SignalRepository {
    var rows: SignalTable

    /** No row but `id` changed. */
    ghost predicate OthersKept(before: SignalTable, id: SignalId)
      reads this
    {
      |rows| == |before| && forall j | 0 <= j < |before| && j != id :: rows[j] == before[j]
    }

    constructor ()
      ensures rows == []
    {
      rows := [];
    }

    method LogSignal(key: Option<MessageId>, payload: Payload, attempts: int, db: Db)
        returns (id: Option<SignalId>)
      modifies this
      ensures rows == Inserted(old(rows), NewSignal(key, payload, attempts), db)
      ensures id.Some? <==> db.Commits? && (key.None? || forall row <- old(rows) :: row.deliveryKey != key)
      ensures id.Some? ==> id.value == |old(rows)| && rows == old(rows) + [Signal(key, payload, QUEUED, attempts, None)]
    {
      if !KeyFree(rows, key) || db.Aborts? {
        return None;
      }
      var newId := |rows|;
      rows := rows + [Signal(key, payload, QUEUED, attempts, None)];
      id := if db.Commits? then Some(newId) else None;
    }

    method MarkPublished(id: SignalId, db: Db) returns (ok: bool)
      modifies this
      ensures id < |old(rows)| ==> rows == Stored(old(rows), id, MarkedPublished(old(rows)[id]), db)
      ensures id >= |old(rows)| || db.Aborts? ==> rows == old(rows)
      ensures ok == (id < |old(rows)| && db.Commits?)
      ensures id < |old(rows)| && !db.Aborts? ==> OthersKept(old(rows), id)
      ensures id < |old(rows)| && !db.Aborts? ==>
                var row, before := rows[id], old(rows)[id];
                && row.status.PUBLISHED? && row.deliveryKey == before.deliveryKey && row.payload == before.payload
                && row.attempts == before.attempts && row.lastAttempt == before.lastAttempt
    {
      if id >= |rows| || db.Aborts? {
        return false;
      }
      rows := rows[id := rows[id].(status := PUBLISHED)];
      ok := db.Commits?;
    }

    method MarkFailed(id: SignalId, now: nat, db: Db) returns (ok: bool)
      modifies this
      ensures id < |old(rows)| ==> rows == Stored(old(rows), id, MarkedFailed(old(rows)[id], now), db)
      ensures id >= |old(rows)| || db.Aborts? ==> rows == old(rows)
      ensures ok == (id < |old(rows)| && db.Commits?)
      ensures id < |old(rows)| && !db.Aborts? ==> OthersKept(old(rows), id)
      ensures id < |old(rows)| && !db.Aborts? ==>
                var row, before := rows[id], old(rows)[id];
                && row.status.FAILED? && row.deliveryKey == before.deliveryKey && row.payload == before.payload
                && row.attempts == 0 && row.lastAttempt == Some(now)
    {
      if id >= |rows| || db.Aborts? {
        return false;
      }
      var row := rows[id];
      row := row.(status := FAILED);
      row := row.(attempts := 0);
      row := row.(lastAttempt := Some(now));
      rows := rows[id := row];
      ok := db.Commits?;
    }

    method RecordAttemptFailure(id: SignalId, now: nat, db: Db) returns (ok: bool)
      modifies this
      ensures id < |old(rows)| ==> rows == Stored(old(rows), id, AttemptSpent(old(rows)[id], now), db)
      ensures id >= |old(rows)| || db.Aborts? ==> rows == old(rows)
      ensures ok == (id < |old(rows)| && db.Commits?)
      ensures id < |old(rows)| && !db.Aborts? ==> OthersKept(old(rows), id) && SpentOne(old(rows)[id], rows[id], now)
    {
      if id >= |rows| || db.Aborts? {
        return false;
      }
      var row := rows[id].(lastAttempt := Some(now));
      if row.attempts <= 1 {
        row := row.(attempts := 0);
        row := row.(status := FAILED);
      } else {
        row := row.(attempts := row.attempts - 1);
      }
      rows := rows[id := row];
      ok := db.Commits?;
    }
  }
}

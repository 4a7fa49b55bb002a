/** `SignalProcessingService`, `SignalWorker` and `SignalRetryJob` as the code writes them. Every
    method is proved to walk a run of the state machine in `SignalPipeline`, so what is proved
    there about all runs holds of this code. What the outside world answers is a parameter. */
module SignalService {
  import opened Wrappers
  import opened SignalRows
  import opened SignalPipeline

  /** How a call ends; `Raises` stands for an exception that escapes it. */
  datatype Outcome =
    | Accepted | RetryScheduled | Invalid | Blocked | Duplicate | NotFound | Skipped | Raises

  /** What the outside world answers at each await of one delivery: the lookup, the gate, the insert, the
      publish, and the write that records what came of it. */
  datatype Outside = Outside(lookup: Answer, gate: Answer, insert: Answer, publish: Answer, mark: Answer)

  /** The subject the workers listen on: whatever a publish may have put there. */
  class SignalPublisher {
    var sent: seq<Sent>

    constructor ()
      ensures sent == []
    {
      sent := [];
    }

    /** Answers false when the publish raised, which does not mean that it did not get through. */
    method Publish(signal: Sent, network: Db) returns (ok: bool)
      modifies this
      ensures sent == if network.Aborts? then old(sent) else old(sent) + [signal]
      ensures ok == network.Commits?
    {
      if !network.Aborts? {
        sent := sent + [signal];
      }
      ok := network.Commits?;
    }
  }

  class SignalProcessingService {
    const params: Params
    const signals: SignalRepository
    const publisher: SignalPublisher

    /** The machine state this broker is in, and the run that led there. */
    ghost var state: State
    ghost var trace: seq<Event>

    ghost predicate Valid()
      reads this, signals, publisher
    {
      && signals.rows == state.world.rows
      && publisher.sent == state.world.sent
      && IsRun(params, Initial(), trace, state)
    }

    constructor (params: Params)
      ensures Valid() && this.params == params && fresh(signals) && fresh(publisher)
      ensures state == Initial()
    {
      this.params := params;
      this.signals := new SignalRepository();
      this.publisher := new SignalPublisher();
      this.state := Initial();
      this.trace := [];
    }

    ghost method Step(e: Event)
      requires IsRun(params, Initial(), trace, state) && Enabled(params, state, e)
      modifies this
      ensures IsRun(params, Initial(), trace, state)
      ensures state == Apply(params, old(state), e) && trace == old(trace) + [e]
    {
      var next := Apply(params, state, e);
      assert IsRun(params, next, [], next) && [e][1..] == [];
      RunExtends(params, Initial(), trace, state, [e], next);
      trace, state := trace + [e], next;
    }

    /** The event with which the worker, or else the retry job, advances. */
    ghost function Advance(byWorker: bool, a: Answer): Event {
      if byWorker then WorkerStep(a) else RetryStep(a)
    }

    ghost predicate FanningOutAt(byWorker: bool, id: SignalId, at: Fanout)
      reads this
    {
      && id < |state.world.rows|
      && if byWorker then WorkerEnabled(state) && state.worker.stage == FanningOut(id, at)
         else RetryEnabled(state) && state.retry.stage == Firing(id, at)
    }

    /** No row but `id` changed, and that one kept its key. */
    ghost predicate OnlyRowOf(before: SignalTable, id: SignalId)
      reads this, signals
    {
      && |signals.rows| == |before|
      && forall j | 0 <= j < |before| :: signals.rows[j].deliveryKey == before[j].deliveryKey && (j != id ==> signals.rows[j] == before[j])
    }

    /** At most so many publishes more than before. */
    ghost predicate PublishedUpTo(many: nat, before: seq<Sent>)
      reads publisher
    {
      before <= publisher.sent && |publisher.sent| <= |before| + many
    }

    /** One publish of this row, if its payload can be parsed and the network takes it. */
    ghost predicate PublishedOnce(before: seq<Sent>, id: SignalId, row: Signal, network: Db)
      reads publisher
    {
      publisher.sent == if row.payload.Sound? && !network.Aborts? then before + [Sent(row.deliveryKey, id)] else before
    }

    /** The outcome of a fan-out of row `id`, which was `row`, and what the table says of it. */
    ghost predicate FannedOut(r: Outcome, id: SignalId, row: Signal, publish: Answer, mark: Answer)
      reads this, signals
    {
      && id < |signals.rows|
      && r in {Accepted, RetryScheduled, Invalid, Raises}
      && (r.Accepted? <==> row.payload.Sound? && publish.db.Commits?)
      && (r.RetryScheduled? <==> row.payload.Sound? && !publish.db.Commits? && mark.db.Commits?)
      && (r.Invalid? <==> row.payload.Unparseable? && mark.db.Commits?)
      && (r.Accepted? ==> id in state.world.confirmed)
      && var now := signals.rows[id];
         if mark.db.Aborts? then now == row
         else if row.payload.Unparseable? then
           now.status.FAILED? && now.attempts == 0 && now.lastAttempt == Some(mark.now) && now.deliveryKey == row.deliveryKey
         else if publish.db.Commits? then now.status.PUBLISHED? && now == row.(status := now.status)
         else SpentOne(row, now, mark.now)
    }

    /** What an outcome says about the row of a message. */
    ghost predicate RowShows(r: Outcome, id: SignalId, key: Option<MessageId>)
      reads this, signals
    {
      r in {Accepted, RetryScheduled, Invalid, Duplicate} ==>
        && id < |signals.rows| && signals.rows[id].deliveryKey == key
        && (r.Accepted? ==> id in state.world.confirmed)
        && (r.RetryScheduled? ==> signals.rows[id].lastAttempt.Some?)
        && (r.Invalid? ==> signals.rows[id].status.FAILED?)
        && (r.Duplicate? ==> !FirstFanoutUnconfirmed(signals.rows[id]))
    }

    /** The payload will never parse, so no retry can help: the row is closed. */
    method GiveUp(id: SignalId, mark: Answer, ghost byWorker: bool) returns (r: Outcome)
      requires Valid() && FanningOutAt(byWorker, id, MarkingInvalid)
      modifies this, signals
      ensures Valid() && old(trace) <= trace && state.stream == old(state.stream)
      ensures byWorker ==> state.retry == old(state.retry)
                           && state.worker == old(state.worker).(stage := if r.Raises? then Escaped else Acking)
      ensures !byWorker ==> state.worker == old(state.worker) && state.retry == NextRow(old(state)).retry
      ensures OnlyRowOf(old(signals.rows), id)
      ensures r == if mark.db.Commits? then Invalid else Raises
      ensures if mark.db.Aborts? then signals.rows == old(signals.rows)
              else signals.rows[id].status.FAILED? && signals.rows[id].attempts == 0 && signals.rows[id].lastAttempt == Some(mark.now)
    {
      var marked := signals.MarkFailed(id, mark.now, mark.db);
      Step(Advance(byWorker, mark));
      return if marked then Invalid else Raises;
    }

    /** The publish itself; a payload that cannot be parsed never gets that far. */
    method PublishSignal(id: SignalId, payload: Payload, a: Answer, ghost byWorker: bool) returns (published: bool)
      requires Valid() && FanningOutAt(byWorker, id, Publishing) && payload == signals.rows[id].payload
      modifies this, publisher
      ensures Valid() && old(trace) <= trace && state.stream == old(state.stream)
      ensures PublishedOnce(old(publisher.sent), id, signals.rows[id], a.db)
      ensures FanningOutAt(byWorker, id, if payload.Unparseable? then MarkingInvalid else if published then MarkingPublished else RecordingFailure)
      ensures published <==> payload.Sound? && a.db.Commits?
      ensures published ==> id in state.world.confirmed
      ensures if byWorker then state.retry == old(state.retry) && state.worker == old(state.worker).(stage := state.worker.stage)
              else state.worker == old(state.worker) && state.retry == old(state.retry).(stage := state.retry.stage)
    {
      published := false;
      if payload.Sound? {
        published := publisher.Publish(Sent(signals.rows[id].deliveryKey, id), a.db);
      }
      Step(Advance(byWorker, a));
    }

    /** Publish to the workers; record success or the failed attempt. */
    method Fanout(id: SignalId, payload: Payload, publish: Answer, mark: Answer, ghost byWorker: bool) returns (r: Outcome)
      requires Valid() && FanningOutAt(byWorker, id, Publishing)
      requires payload == signals.rows[id].payload
      modifies this, signals, publisher
      ensures Valid() && old(trace) <= trace && state.stream == old(state.stream)
      ensures byWorker ==> state.retry == old(state.retry)
                           && state.worker == old(state.worker).(stage := if r.Raises? then Escaped else Acking)
      ensures !byWorker ==> state.worker == old(state.worker) && state.retry == NextRow(old(state)).retry
      ensures OnlyRowOf(old(signals.rows), id)
      ensures PublishedOnce(old(publisher.sent), id, old(signals.rows)[id], publish.db)
      ensures FannedOut(r, id, old(signals.rows)[id], publish, mark)
    {
      var published := PublishSignal(id, payload, publish, byWorker);
      if payload.Unparseable? {
        r := GiveUp(id, mark, byWorker);
        return;
      }
      if !published {
        var recorded := signals.RecordAttemptFailure(id, mark.now, mark.db);
        Step(Advance(byWorker, mark));
        return if recorded then RetryScheduled else Raises;
      }
      var _ := signals.MarkPublished(id, mark.db);
      Step(Advance(byWorker, mark));
      r := Accepted;
    }

    ghost predicate WorkerAt(m: MessageId, payload: Payload, keyed: bool, redelivered: bool, delays: nat, stage: Stage)
      reads this
    {
      && state.worker == Handling(m, redelivered, delays, stage)
      && m in state.stream
      && state.stream[m].payload == Some(payload)
      && state.stream[m].keyed == keyed
    }

    /** The gate is closed: an interrupted first fan-out of an earlier delivery is given up. */
    method DropBlocked(m: MessageId, existing: Option<Found>, mark: Answer, ghost payload: Payload, ghost keyed: bool,
                       ghost redelivered: bool, ghost delays: nat)
        returns (r: Outcome)
      requires Valid()
      requires WorkerAt(m, payload, keyed, redelivered, delays,
                        if existing.Some? && FirstFanoutUnconfirmed(existing.value.row)
                        then ClosingBlocked(existing.value.id) else Acking)
      requires existing.Some? ==> existing.value.id < |signals.rows|
      modifies this, signals
      ensures Valid() && old(trace) <= trace
      ensures state.stream == old(state.stream) && state.retry == old(state.retry)
      ensures WorkerAt(m, payload, keyed, redelivered, delays, if r.Raises? then Escaped else Acking)
      ensures r in {Blocked, Raises} && (r.Raises? ==> !mark.db.Commits?)
      ensures if existing.Some? then OnlyRowOf(old(signals.rows), existing.value.id) else signals.rows == old(signals.rows)
      ensures r.Blocked? && existing.Some? && FirstFanoutUnconfirmed(existing.value.row) ==> signals.rows[existing.value.id].status.FAILED?
      ensures existing.Some? && !FirstFanoutUnconfirmed(existing.value.row) ==> r.Blocked? && signals.rows == old(signals.rows)
    {
      if existing.Some? && FirstFanoutUnconfirmed(existing.value.row) {
        var marked := signals.MarkFailed(existing.value.id, mark.now, mark.db);
        Step(WorkerStep(mark));
        if !marked {
          return Raises;
        }
      }
      return Blocked;
    }

    /** The row of the message, if it is looked up, and the gate could be read. */
    ghost predicate GateRead(keyed: bool, redelivered: bool, out: Outside) {
      (keyed && redelivered ==> out.lookup.db.Commits?) && out.gate.db.Commits?
    }

    /** No row is taken to be this message's: none carries its key, or this is its first delivery. */
    ghost predicate FirstTime(rows: SignalTable, m: MessageId, keyed: bool, redelivered: bool) {
      keyed && redelivered ==> forall row <- rows :: row.deliveryKey != Some(m)
    }

    /** A row was inserted for the message and fanned out, unless the insert failed. */
    ghost predicate TakenUp(r: Outcome, id: SignalId, before: SignalTable, sent: seq<Sent>, row: Signal, out: Outside)
      reads this, signals, publisher
    {
      if out.insert.db.Commits? then
        && id == |before| && |signals.rows| == |before| + 1 && signals.rows[..|before|] == before
        && FannedOut(r, id, row, out.publish, out.mark) && PublishedOnce(sent, id, row, out.publish.db)
      else
        r.Raises? && publisher.sent == sent
    }

    /** The row of the message is fanned out again if that was never confirmed or failed, and is left
        alone otherwise. */
    ghost predicate Resumed(r: Outcome, id: SignalId, before: SignalTable, sent: seq<Sent>, m: MessageId, out: Outside)
      reads this, signals, publisher
    {
      && id < |before| && before[id].deliveryKey == Some(m) && OnlyRowOf(before, id)
      && if before[id].status.QUEUED? && before[id].lastAttempt.None? then
           FannedOut(r, id, before[id], out.publish, out.mark) && PublishedOnce(sent, id, before[id], out.publish.db)
         else
           r.Duplicate? && signals.rows == before && publisher.sent == sent
    }

    /** First-time processing of an envelope, or of a redelivery of it. */
    method HandleEnqueued(m: MessageId, payload: Payload, keyed: bool, redelivered: bool, out: Outside, ghost delays: nat)
        returns (r: Outcome, ghost id: SignalId)
      requires Valid() && WorkerAt(m, payload, keyed, redelivered, delays, LookingUp)
      modifies this, signals, publisher
      ensures Valid() && old(trace) <= trace
      ensures state.stream == old(state.stream) && state.retry == old(state.retry)
      ensures WorkerAt(m, payload, keyed, redelivered, delays, if r.Raises? then Escaped else Acking)
      ensures r in {Accepted, RetryScheduled, Invalid, Blocked, Duplicate, Raises}
      ensures PublishedUpTo(1, old(publisher.sent))
      ensures RowShows(r, id, if keyed then Some(m) else None)
      // Nothing happens before the gate was read.
      ensures !GateRead(keyed, redelivered, out) ==> r.Raises? && signals.rows == old(signals.rows) && publisher.sent == old(publisher.sent)
      // A closed gate, and only a closed gate, drops the message.
      ensures r.Blocked? ==> GateRead(keyed, redelivered, out) && out.gate.blocked
      ensures GateRead(keyed, redelivered, out) && out.gate.blocked ==>
                (r.Blocked? || (r.Raises? && !out.mark.db.Commits?)) && publisher.sent == old(publisher.sent)
      ensures r.Blocked? && keyed && redelivered ==> forall row <- signals.rows :: row.deliveryKey == Some(m) ==> !FirstFanoutUnconfirmed(row)
      // Behind an open gate it is taken up.
      ensures GateRead(keyed, redelivered, out) && !out.gate.blocked ==>
                if FirstTime(old(signals.rows), m, keyed, redelivered)
                then TakenUp(r, id, old(signals.rows), old(publisher.sent),
                             Signal(if keyed then Some(m) else None, payload, QUEUED, params.maxAttempts, None), out)
                else Resumed(r, id, old(signals.rows), old(publisher.sent), m, out)
    {
      id := 0;
      var failed, existing := FindExisting(m, payload, keyed, redelivered, out.lookup, delays);
      if failed {
        return Raises, id;
      }
      Step(WorkerStep(out.gate));
      if !out.gate.db.Commits? {
        return Raises, id;
      }
      if out.gate.blocked {
        r := DropBlocked(m, existing, out.mark, payload, keyed, redelivered, delays);
        if existing.Some? && r.Blocked? {
          OneRowPerKey(m, existing.value.id);
        }
        return;
      }
      r, id := BehindOpenGate(m, existing, payload, keyed, out, redelivered, delays);
    }

    /** The gate is open: the row that was found decides, and without one a row is written. */
    method BehindOpenGate(m: MessageId, existing: Option<Found>, payload: Payload, keyed: bool, out: Outside,
                          ghost redelivered: bool, ghost delays: nat)
        returns (r: Outcome, ghost id: SignalId)
      requires Valid()
      requires WorkerAt(m, payload, keyed, redelivered, delays,
                        if existing.None? then Persisting
                        else if FirstFanoutUnconfirmed(existing.value.row) then FanningOut(existing.value.id, Publishing) else Acking)
      requires existing.Some? ==>
                 && keyed && existing.value.id < |signals.rows|
                 && existing.value.row == signals.rows[existing.value.id] && existing.value.row.deliveryKey == Some(m)
      modifies this, signals, publisher
      ensures Valid() && old(trace) <= trace
      ensures state.stream == old(state.stream) && state.retry == old(state.retry)
      ensures WorkerAt(m, payload, keyed, redelivered, delays, if r.Raises? then Escaped else Acking)
      ensures r in {Accepted, RetryScheduled, Invalid, Duplicate, Raises}
      ensures RowShows(r, id, if keyed then Some(m) else None)
      ensures if existing.None?
              then TakenUp(r, id, old(signals.rows), old(publisher.sent),
                           Signal(if keyed then Some(m) else None, payload, QUEUED, params.maxAttempts, None), out)
              else Resumed(r, id, old(signals.rows), old(publisher.sent), m, out)
    {
      if existing.Some? {
        r := HandleRedelivery(m, existing.value, payload, out, keyed, redelivered, delays);
        id := existing.value.id;
        return;
      }
      r, id := PersistAndFanout(m, payload, keyed, out, redelivered, delays);
    }

    lemma OneRowPerKey(m: MessageId, id: SignalId)
      requires Valid() && id < |signals.rows| && signals.rows[id].deliveryKey == Some(m)
      ensures forall row <- signals.rows :: row.deliveryKey == Some(m) ==> row == signals.rows[id]
    {
      RunKeeps(params, Initial(), trace, state);
    }

    /** Looks the row of the message up, unless this is its first delivery. */
    method FindExisting(m: MessageId, payload: Payload, keyed: bool, redelivered: bool, a: Answer, ghost delays: nat)
        returns (failed: bool, existing: Option<Found>)
      requires Valid() && WorkerAt(m, payload, keyed, redelivered, delays, LookingUp)
      modifies this
      ensures Valid() && old(trace) <= trace && state.world == old(state.world)
      ensures state.stream == old(state.stream) && state.retry == old(state.retry)
      ensures WorkerAt(m, payload, keyed, redelivered, delays, if failed then Escaped else AtGate(existing))
      ensures existing.Some? ==>
                && keyed && existing.value.id < |signals.rows|
                && existing.value.row == signals.rows[existing.value.id] && existing.value.row.deliveryKey == Some(m)
      ensures failed <==> keyed && redelivered && !a.db.Commits?
      ensures !failed ==> (existing.None? <==> FirstTime(signals.rows, m, keyed, redelivered))
    {
      failed, existing := false, None;
      if keyed && redelivered {
        if a.db.Commits? {
          existing := FindByKey(signals.rows, m);
        } else {
          failed := true;
        }
      }
      Step(WorkerStep(a));
    }

    /** A message without a row: one is written, then the signal goes out. */
    method PersistAndFanout(m: MessageId, payload: Payload, keyed: bool, out: Outside, ghost redelivered: bool, ghost delays: nat)
        returns (r: Outcome, ghost id: SignalId)
      requires Valid() && WorkerAt(m, payload, keyed, redelivered, delays, Persisting)
      modifies this, signals, publisher
      ensures Valid() && old(trace) <= trace
      ensures state.stream == old(state.stream) && state.retry == old(state.retry)
      ensures WorkerAt(m, payload, keyed, redelivered, delays, if r.Raises? then Escaped else Acking)
      ensures TakenUp(r, id, old(signals.rows), old(publisher.sent),
                      Signal(if keyed then Some(m) else None, payload, QUEUED, params.maxAttempts, None), out)
      ensures r in {Accepted, RetryScheduled, Invalid, Raises}
      ensures RowShows(r, id, if keyed then Some(m) else None)
    {
      id := 0;
      NobodyElsesKey(m, keyed);
      var logged := signals.LogSignal(if keyed then Some(m) else None, payload, params.maxAttempts, out.insert.db);
      Step(WorkerStep(out.insert));
      if logged.None? {
        return Raises, id;
      }
      id := logged.value;
      r := Fanout(logged.value, payload, out.publish, out.mark, true);
    }

    /** A row is only written for a message that has none. */
    lemma NobodyElsesKey(m: MessageId, keyed: bool)
      requires Valid() && state.worker.Handling? && state.worker.m == m && state.worker.stage.Persisting?
      requires m in state.stream && state.stream[m].keyed == keyed
      ensures keyed ==> forall row <- signals.rows :: row.deliveryKey != Some(m)
    {
      RunKeeps(params, Initial(), trace, state);
    }

    /** A message came back for a row that already exists. */
    method HandleRedelivery(m: MessageId, existing: Found, payload: Payload, out: Outside, ghost keyed: bool,
                            ghost redelivered: bool, ghost delays: nat)
        returns (r: Outcome)
      requires Valid() && existing.id < |signals.rows| && signals.rows[existing.id].deliveryKey == Some(m)
      requires WorkerAt(m, payload, keyed, redelivered, delays,
                        if FirstFanoutUnconfirmed(existing.row) then FanningOut(existing.id, Publishing) else Acking)
      modifies this, signals, publisher
      ensures Valid() && old(trace) <= trace
      ensures state.stream == old(state.stream) && state.retry == old(state.retry)
      ensures WorkerAt(m, payload, keyed, redelivered, delays, if r.Raises? then Escaped else Acking)
      ensures r.Duplicate? <==> !FirstFanoutUnconfirmed(existing.row)
      ensures r in {Accepted, RetryScheduled, Invalid, Duplicate, Raises}
      ensures r.Duplicate? ==> state == old(state)
      ensures existing.row == old(signals.rows)[existing.id] ==>
                && RowShows(r, existing.id, Some(m))
                && Resumed(r, existing.id, old(signals.rows), old(publisher.sent), m, out)
    {
      if FirstFanoutUnconfirmed(existing.row) {
        assert signals.rows[existing.id].payload == payload by {
          RunKeeps(params, Initial(), trace, state);
        }
        r := Fanout(existing.id, payload, out.publish, out.mark, true);
      } else {
        r := Duplicate;
      }
    }

    /** The payload cannot be rebuilt: that costs an attempt, whether it can be written down or not. */
    method Discard(id: SignalId, mark: Answer)
      requires Valid() && RetryEnabled(state) && state.retry.stage == Discarding(id)
      modifies this, signals
      ensures Valid() && old(trace) <= trace
      ensures state.worker == old(state.worker) && state.retry == NextRow(old(state)).retry
      ensures id < |old(signals.rows)| && OnlyRowOf(old(signals.rows), id)
      ensures if mark.db.Aborts? then signals.rows == old(signals.rows) else SpentOne(old(signals.rows)[id], signals.rows[id], mark.now)
    {
      var _ := signals.RecordAttemptFailure(id, mark.now, mark.db);
      Step(RetryStep(mark));
    }

    /** Another attempt on a persisted signal, for the first row of the current tick. `fetch` is the
        read of the row, and whether its payload can be rebuilt. */
    method RetrySignal(id: SignalId, fetch: Answer, publish: Answer, mark: Answer) returns (r: Outcome)
      requires Valid() && RetryEnabled(state) && state.retry.stage.Fetching? && state.retry.ids[0] == id
      modifies this, signals, publisher
      ensures Valid() && old(trace) <= trace
      ensures state.worker == old(state.worker) && state.retry == NextRow(old(state)).retry
      ensures id < |old(signals.rows)| && OnlyRowOf(old(signals.rows), id)
      ensures PublishedUpTo(1, old(publisher.sent))
      ensures r.NotFound? <==> !fetch.db.Commits?
      ensures r.Skipped? <==> fetch.db.Commits? && !(old(signals.rows)[id].status.QUEUED? && old(signals.rows)[id].attempts > 0)
      ensures r in {NotFound, Skipped} ==> signals.rows == old(signals.rows) && publisher.sent == old(publisher.sent)
      ensures !r.NotFound? && !r.Skipped? ==>
                if fetch.rebuilds
                then FannedOut(r, id, old(signals.rows)[id], publish, mark) && PublishedOnce(old(publisher.sent), id, old(signals.rows)[id], publish.db)
                else r.Invalid? && publisher.sent == old(publisher.sent)
                     && (if mark.db.Aborts? then signals.rows == old(signals.rows) else SpentOne(old(signals.rows)[id], signals.rows[id], mark.now))
    {
      assert id < |signals.rows| && state.world.rows[id].lastAttempt.Some? by {
        RunKeeps(params, Initial(), trace, state);
        assert Stamped(state.world.rows, id);
      }
      if !fetch.db.Commits? {
        Step(RetryStep(fetch));
        return NotFound;
      }
      var row := signals.rows[id];
      Step(RetryStep(fetch));
      if !row.status.QUEUED? || row.attempts <= 0 {
        return Skipped;
      }
      if !fetch.rebuilds {
        Discard(id, mark);
        return Invalid;
      }
      r := Fanout(id, row.payload, publish, mark, false);
    }
  }

  class SignalWorker {
    const service: SignalProcessingService

    constructor (service: SignalProcessingService)
      ensures this.service == service
    {
      this.service := service;
    }

    /** Every await of a try answers well. */
    static predicate Answers(out: Outside) {
      out.lookup.db.Commits? && out.gate.db.Commits? && out.insert.db.Commits? && out.publish.db.Commits? && out.mark.db.Commits?
    }

    /** The tries of one delivery in place, until the pipeline returns or the retries are spent. */
    method TryInPlace(m: MessageId, payload: Payload, keyed: bool, redelivered: bool, tries: nat -> Outside, ghost back: Answer)
        returns (last: Outcome, ghost id: SignalId, ghost n: nat)
      requires service.Valid() && service.WorkerAt(m, payload, keyed, redelivered, service.params.inlineRetries, LookingUp)
      modifies service, service.signals, service.publisher
      ensures service.Valid() && old(service.trace) <= service.trace
      ensures service.state.stream == old(service.state.stream) && service.state.retry == old(service.state.retry)
      ensures if last.Raises? then service.state.worker.Idle?
              else exists seen, delays :: service.WorkerAt(m, payload, keyed, seen, delays, Acking)
      ensures service.PublishedUpTo(n + 1, old(service.publisher.sent)) && n <= service.params.inlineRetries
      ensures last.Raises? ==> n == service.params.inlineRetries
      ensures service.RowShows(last, id, if keyed then Some(m) else None)
      ensures last.Blocked? ==> tries(n).gate.blocked
      ensures Answers(tries(0)) ==> n == 0 && !last.Raises?
      ensures n == 0 && !redelivered && payload.Sound? && Answers(tries(0)) && !tries(0).gate.blocked ==>
                last.Accepted? && id == |old(service.signals.rows)| && service.signals.rows[id].status.PUBLISHED?
    {
      var seen := redelivered;
      var delaysLeft := service.params.inlineRetries;
      var k: nat := 0;
      while true
        invariant service.Valid() && old(service.trace) <= service.trace
        invariant service.WorkerAt(m, payload, keyed, seen, delaysLeft, LookingUp)
        invariant service.state.stream == old(service.state.stream) && service.state.retry == old(service.state.retry)
        invariant k + delaysLeft == service.params.inlineRetries
        invariant service.PublishedUpTo(k, old(service.publisher.sent))
        invariant k == 0 ==> seen == redelivered && service.signals.rows == old(service.signals.rows)
        invariant k > 0 ==> !Answers(tries(0))
        decreases delaysLeft
      {
        n := k;
        last, id := service.HandleEnqueued(m, payload, keyed, seen, tries(k), delaysLeft);
        if !last.Raises? {
          return;
        }
        service.Step(WorkerStep(back));
        if delaysLeft == 0 {
          return;
        }
        delaysLeft := delaysLeft - 1;
        k := k + 1;
        seen := true;
      }
    }

    /** Handles one delivered envelope: in place first, then leaving it to redelivery. `tries` is what
        the world answers to each try. The message is acked only when the pipeline returned, and
        nothing is published more often than it is tried in place. */
    method HandleOne(m: MessageId, payload: Option<Payload>, keyed: bool, redelivered: bool, tries: nat -> Outside, ack: Answer)
        returns (settled: bool, ghost last: Outcome, ghost id: SignalId)
      requires service.Valid() && Enabled(service.params, service.state, Deliver(m, redelivered))
      requires service.state.stream[m].payload == payload && service.state.stream[m].keyed == keyed
      modifies service, service.signals, service.publisher
      ensures service.Valid() && old(service.trace) <= service.trace
      ensures service.state.worker.Idle? && m in service.state.stream && service.state.retry == old(service.state.retry)
      ensures payload.None? ==> settled && service.signals.rows == old(service.signals.rows)
      ensures service.PublishedUpTo(service.params.inlineRetries + 1, old(service.publisher.sent))
      // The settlement: terminated if nobody can read it, else acked, if the call gets through.
      ensures service.state.stream[m].settled ==
                if settled && !ack.db.Aborts? && old(service.state.stream[m].settled).Open?
                then (if payload.None? then Termed else Acked) else old(service.state.stream[m].settled)
      // What the last try came to.
      ensures payload.Some? ==> (settled <==> !last.Raises?) && service.RowShows(last, id, if keyed then Some(m) else None)
      ensures payload.Some? && Answers(tries(0)) ==> settled
      ensures payload.Some? && last.Blocked? ==> exists k: nat :: k <= service.params.inlineRetries && tries(k).gate.blocked
      ensures payload == Some(Sound) && !redelivered && Answers(tries(0)) && !tries(0).gate.blocked ==>
                last.Accepted? && id == |old(service.signals.rows)| && service.signals.rows[id].status.PUBLISHED?
    {
      last, id := Raises, 0;
      service.Step(Deliver(m, redelivered));
      if payload.None? {
        service.Step(WorkerStep(ack));
        return true, last, id;
      }
      ghost var n: nat;
      var outcome;
      outcome, id, n := TryInPlace(m, payload.value, keyed, redelivered, tries, ack);
      last := outcome;
      if outcome.Raises? {
        return false, last, id;
      }
      service.Step(WorkerStep(ack));
      return true, last, id;
    }
  }

  class SignalRetryJob {
    const service: SignalProcessingService

    constructor (service: SignalProcessingService)
      ensures this.service == service
    {
      this.service := service;
    }

    /** One poll: hands every eligible row back to the service, oldest first. `a` is the time and
        whether the rows could be read; `tries` what the world answers for each of them. */
    method TickOnce(a: Answer, tries: nat -> Outside) returns (visited: seq<SignalId>)
      requires service.Valid() && service.state.retry.Resting?
      modifies service, service.signals, service.publisher
      ensures service.Valid() && old(service.trace) <= service.trace
      ensures service.state.worker == old(service.state.worker) && service.state.retry.Resting?
      ensures visited == if a.db.Commits? then RetryableFrom(old(service.signals.rows), 0, a.now, service.params.interval) else []
      ensures service.PublishedUpTo(|visited|, old(service.publisher.sent))
      ensures Visited(service.signals.rows, old(service.signals.rows), visited, tries)
    {
      visited := [];
      if a.db.Commits? {
        visited := RetryableFrom(service.signals.rows, 0, a.now, service.params.interval);
      }
      service.Step(Tick(a));
      VisitAll(visited, tries);
    }

    /** Visits these rows in turn. */
    method VisitAll(ids: seq<SignalId>, tries: nat -> Outside)
      requires service.Valid() && service.state.retry == if ids == [] then Resting else Ticking(ids, Fetching)
      requires forall id <- ids :: id < |service.signals.rows| && service.signals.rows[id].status.QUEUED? && service.signals.rows[id].attempts > 0
      requires forall i, j | 0 <= i < j < |ids| :: ids[i] != ids[j]
      modifies service, service.signals, service.publisher
      ensures service.Valid() && old(service.trace) <= service.trace
      ensures service.state.worker == old(service.state.worker) && service.state.retry.Resting?
      ensures service.PublishedUpTo(|ids|, old(service.publisher.sent))
      ensures Visited(service.signals.rows, old(service.signals.rows), ids, tries)
    {
      var i := 0;
      while i < |ids|
        invariant 0 <= i <= |ids|
        invariant service.Valid() && old(service.trace) <= service.trace
        invariant service.state.worker == old(service.state.worker)
        invariant service.PublishedUpTo(i, old(service.publisher.sent))
        invariant service.state.retry == if i == |ids| then Resting else Ticking(ids[i..], Fetching)
        invariant Visited(service.signals.rows, old(service.signals.rows), ids[..i], tries)
      {
        var out := tries(i);
        ghost var mid := service.signals.rows;
        assert ids[i] !in ids[..i];
        var _ := service.RetrySignal(ids[i], out.lookup, out.publish, out.mark);
        VisitedNext(old(service.signals.rows), mid, service.signals.rows, ids[..i], ids[i], tries);
        assert ids[..i + 1] == ids[..i] + [ids[i]];
        i := i + 1;
      }
      assert ids[..i] == ids;
    }

    /** What a visit leaves of an eligible row: as it was if it could not be read or nothing could be
        written, else PUBLISHED, FAILED, or one attempt spent. */
    static predicate After(before: Signal, row: Signal, out: Outside) {
      if !out.lookup.db.Commits? || out.mark.db.Aborts? then row == before
      else if !out.lookup.rebuilds then SpentOne(before, row, out.mark.now)
      else if before.payload.Unparseable? then row.status.FAILED?
      else if out.publish.db.Commits? then row.status.PUBLISHED?
      else SpentOne(before, row, out.mark.now)
    }

    /** The rows visited so far, and only they, are as their visit left them. */
    static ghost predicate Visited(rows: SignalTable, before: SignalTable, ids: seq<SignalId>, tries: nat -> Outside) {
      && |rows| == |before|
      && (forall j | 0 <= j < |before| && j !in ids :: rows[j] == before[j])
      && (forall k: nat | k < |ids| :: ids[k] < |before| && After(before[ids[k]], rows[ids[k]], tries(k)))
    }

    static lemma VisitedNext(before: SignalTable, mid: SignalTable, rows: SignalTable, ids: seq<SignalId>, id: SignalId, tries: nat -> Outside)
      requires Visited(mid, before, ids, tries) && id !in ids && id < |before|
      requires |rows| == |mid| && forall j | 0 <= j < |mid| && j != id :: rows[j] == mid[j]
      requires After(before[id], rows[id], tries(|ids|))
      ensures Visited(rows, before, ids + [id], tries)
    {
    }
  }
}

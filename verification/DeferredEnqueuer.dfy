/** `DeferredEnqueuer` as the code writes it. Every method is proved to walk a run of the state
    machine in `DeferredBacklog`; what JetStream answers, which webhooks arrive at an await, and
    when the loop is cancelled are parameters. */
module DeferredEnqueuer {
  import opened Wrappers
  import opened DeferredBacklog

  datatype Answer = Acked | Raised | Cancelled

  function Envelopes(items: seq<Item>): (r: seq<Envelope>)
    ensures |r| == |items|
  {
    seq(|items|, i requires 0 <= i < |items| => items[i].envelope)
  }

  /** The publisher: which webhook events it was asked to put on the stream. */
  class SignalPublisher {
    var calls: seq<Envelope>

    constructor ()
      ensures calls == []
    {
      calls := [];
    }

    method PublishWebhookEvent(envelope: Envelope, answer: Answer) returns (r: Answer)
      modifies this
      ensures calls == old(calls) + [envelope] && r == answer
    {
      calls := calls + [envelope];
      r := answer;
    }
  }

  class DeferredEnqueuer {
    const params: Params
    const publisher: SignalPublisher

    var queue: seq<Item>
    var unfinished: nat
    var inFlight: Option<Item>
    /** How many envelopes were ever accepted; names the next one. */
    var accepted: nat
    /** Whether the loop's task is there and not done. */
    var running: bool

    ghost var state: State

    ghost predicate Valid()
      reads this, publisher
    {
      && Reachable(params, state)
      && queue == state.queue && unfinished == state.unfinished && inFlight == state.inFlight
      && accepted == |state.ledger| && running == !state.loop.Off?
      && publisher.calls == Envelopes(state.calls)
    }

    constructor (params: Params)
      ensures Valid() && this.params == params && state == EMPTY && fresh(publisher)
    {
      this.params := params;
      publisher := new SignalPublisher();
      queue, unfinished, inFlight, accepted, running, state := [], 0, None, 0, false, EMPTY;
      assert IsRun(params, EMPTY, [], EMPTY);
    }

    ghost method Advance(e: Event)
      requires Reachable(params, state) && CanStep(params, state, e)
      modifies this`state
      ensures Reachable(params, state) && state == Next(params, old(state), e)
    {
      ReachableExtends(params, state, e);
      state := Next(params, state, e);
    }

    /** Launches the loop, once. */
    method Start()
      requires Valid() && (running || (inFlight.None? && state.leftovers == []))
      modifies this
      ensures Valid() && running
      ensures state == if old(running) then old(state) else old(state).(loop := Waiting)
    {
      if running {
        return;
      }
      Advance(Event.Start);
      running := true;
    }

    /** Takes ownership of an envelope, or says that the backlog is full. */
    method Submit(envelope: Envelope) returns (taken: bool)
      requires Valid()
      modifies this
      ensures Valid() && state == Submitted(params, old(state), envelope)
      ensures taken <==> params.maxsize == 0 || |old(queue)| < params.maxsize
      ensures taken ==> queue == old(queue) + [Item(old(accepted), envelope, 0)]
      ensures !taken ==> queue == old(queue)
    {
      Advance(Event.Submit(envelope));
      if params.maxsize > 0 && |queue| >= params.maxsize {
        return false;
      }
      queue := queue + [Item(accepted, envelope, 0)];
      unfinished := unfinished + 1;
      accepted := accepted + 1;
      return true;
    }

    /** What others see to while this task awaits: webhooks that hand in more envelopes. */
    method Await(arrivals: seq<Envelope>)
      requires Valid()
      modifies this
      ensures Valid()
      ensures state.loop == old(state.loop) && inFlight == old(inFlight) && state.leftovers == old(state.leftovers)
      ensures arrivals == [] ==> state == old(state)
      ensures |old(state.ledger)| <= |state.ledger| && state.ledger[..|old(state.ledger)|] == old(state.ledger)
      ensures |old(queue)| <= |queue| && queue[..|old(queue)|] == old(queue)
      ensures forall i | |old(queue)| <= i < |queue| :: queue[i].serial >= |old(state.ledger)|
      ensures LostOnStops(state.ledger) == LostOnStops(old(state.ledger))
    {
      var i := 0;
      while i < |arrivals|
        invariant 0 <= i <= |arrivals| && Valid()
        invariant state.loop == old(state.loop) && inFlight == old(inFlight) && state.leftovers == old(state.leftovers)
        invariant i == 0 ==> state == old(state)
        invariant |old(state.ledger)| <= |state.ledger| && state.ledger[..|old(state.ledger)|] == old(state.ledger)
        invariant |old(queue)| <= |queue| && queue[..|old(queue)|] == old(queue)
        invariant forall i | |old(queue)| <= i < |queue| :: queue[i].serial >= |old(state.ledger)|
        invariant LostOnStops(state.ledger) == LostOnStops(old(state.ledger))
      {
        LostAppend(state.ledger, Record(arrivals[i], 0, None));
        var _ := Submit(arrivals[i]);
        i := i + 1;
      }
    }

    /** One round of the loop, from the envelope at the head of the queue until it is settled,
        queued again, or the loop is cancelled with it in hand. */
    method RunOnce(answer: Answer, arrivals: seq<Envelope>, later: seq<Envelope>, cancels: bool) returns (cancelled: bool)
      requires Valid() && state.loop.Waiting? && queue != []
      modifies this, publisher
      ensures Valid()
      ensures if cancelled then state.loop.Off? && inFlight.Some? else state.loop.Waiting? && inFlight.None?
      ensures arrivals == [] && later == [] && !cancelled ==> Measure(params, state) < Measure(params, old(state))
      ensures publisher.calls == old(publisher.calls) + [old(queue)[0].envelope]
      ensures
        var item := old(queue)[0].(attempts := old(queue)[0].attempts + 1);
        && (cancelled <==> answer.Cancelled? || (answer.Raised? && item.attempts < params.maxAttempts && cancels))
        && (cancelled ==> inFlight == Some(item))
        && (answer.Acked? ==> Ended(item, Published))
        && (answer.Raised? && item.attempts >= params.maxAttempts ==> Ended(item, GaveUp))
        && (answer.Raised? && item.attempts < params.maxAttempts && !cancels ==>
              Requeued(item) || (Ended(item, CrowdedOut) && Full(params, queue)))
      ensures arrivals == [] && (answer.Acked? || later == []) && !answer.Cancelled? ==> old(queue)[1..] <= queue
      ensures arrivals == [] && answer.Acked? ==> queue == old(queue)[1..] && SameFates(old(state.ledger), old(queue)[0].serial)
    {
      ReachableSound(params, state);
      assert ItemSound(state.ledger, state.queue[0], Limit(params) - 1);
      var item := queue[0];
      queue := queue[1..];
      item := item.(attempts := item.attempts + 1);
      inFlight := Some(item);
      LoopStepDecreases(params, state, Take);
      Advance(Take);
      var r := publisher.PublishWebhookEvent(item.envelope, answer);
      assert Valid();
      Await(arrivals);
      cancelled := Settle(item, r, later, cancels);
    }

    /** Every envelope but this one has the fate it had. */
    ghost predicate SameFates(before: seq<Record>, serial: nat)
      reads this
    {
      |state.ledger| == |before| && forall i | 0 <= i < |before| && i != serial :: state.ledger[i].fate == before[i].fate
    }

    /** The envelope waits at the end of the queue again, which had room for it. */
    ghost predicate Requeued(item: Item)
      reads this
    {
      && item.serial < |state.ledger| && state.ledger[item.serial].fate.None?
      && queue != [] && queue[|queue| - 1] == item && !Full(params, queue[..|queue| - 1])
    }

    /** The envelope is settled this way. */
    ghost predicate Ended(item: Item, fate: Fate)
      reads this
    {
      item.serial < |state.ledger| && state.ledger[item.serial].fate == Some(fate)
    }

    /** The rest of the round: what the publish came to, and the wait before the next try. */
    method Settle(item: Item, r: Answer, later: seq<Envelope>, cancels: bool) returns (cancelled: bool)
      requires Valid() && state.loop.Publishing? && inFlight == Some(item)
      modifies this
      ensures Valid()
      ensures if cancelled then state.loop.Off? && inFlight.Some? else state.loop.Waiting? && inFlight.None?
      ensures later == [] && !cancelled ==> Measure(params, state) < Measure(params, old(state))
      ensures cancelled <==> r.Cancelled? || (r.Raised? && item.attempts < params.maxAttempts && cancels)
      ensures cancelled ==> inFlight == Some(item)
      ensures old(queue) <= queue && (r.Acked? ==> queue == old(queue) && SameFates(old(state.ledger), item.serial))
      ensures r.Acked? ==> Ended(item, Published)
      ensures r.Raised? && item.attempts >= params.maxAttempts ==> Ended(item, GaveUp)
      ensures r.Raised? && item.attempts < params.maxAttempts && !cancelled ==>
                Requeued(item) || (Ended(item, CrowdedOut) && Full(params, queue))
    {
      ReachableSound(params, state);
      if r.Cancelled? {
        Advance(Cancel);
        running := false;
        unfinished := unfinished - 1;
        return true;
      }
      if r.Acked? {
        LoopStepDecreases(params, state, PublishOk);
        Advance(PublishOk);
        inFlight := None;
        unfinished := unfinished - 1;
        return false;
      }
      LoopStepDecreases(params, state, PublishFails);
      Advance(PublishFails);
      if item.attempts >= params.maxAttempts {
        inFlight := None;
        unfinished := unfinished - 1;
        return false;
      }
      cancelled := WaitAndRequeue(item, later, cancels);
    }

    /** Waits out the interval and puts the envelope back, unless the backlog has filled up. */
    method WaitAndRequeue(item: Item, later: seq<Envelope>, cancels: bool) returns (cancelled: bool)
      requires Valid() && state.loop.Sleeping? && inFlight == Some(item)
      modifies this
      ensures Valid()
      ensures if cancelled then state.loop.Off? && inFlight.Some? else state.loop.Waiting? && inFlight.None?
      ensures later == [] && !cancelled ==> Measure(params, state) < Measure(params, old(state))
      ensures cancelled == cancels && old(queue) <= queue
      ensures cancelled ==> inFlight == Some(item)
      ensures !cancelled ==> Requeued(item) || (Ended(item, CrowdedOut) && Full(params, queue))
    {
      Await(later);
      ReachableSound(params, state);
      assert Places(state, item.serial) == 1;
      cancelled := cancels;
      if cancelled {
        Advance(Cancel);
        running := false;
        unfinished := unfinished - 1;
        return;
      }
      LoopStepDecreases(params, state, WakeUp);
      Advance(WakeUp);
      if !(params.maxsize > 0 && |queue| >= params.maxsize) {
        assert (queue + [item])[..|queue|] == queue;
        queue := queue + [item];
        unfinished := unfinished + 1;
      }
      inFlight := None;
      unfinished := unfinished - 1;
    }

    /** The loop, left alone, until it waits for a next envelope: it always gets there. `answers` are what
        JetStream answers in turn, `cancels` whether the loop is cancelled in the wait after each. */
    method RunUntilIdle(answers: nat -> Answer, cancels: nat -> bool) returns (cancelled: bool)
      requires Valid() && state.loop.Waiting?
      modifies this, publisher
      ensures Valid()
      ensures !cancelled ==> queue == [] && inFlight.None? && unfinished == 0
      ensures !cancelled ==> forall serial | 0 <= serial < |state.ledger| :: state.ledger[serial].fate.Some?
      ensures (forall k: nat :: answers(k).Acked?) ==> !cancelled && publisher.calls == old(publisher.calls) + Envelopes(old(queue))
    {
      cancelled := false;
      var n: nat := 0;
      while queue != [] && !cancelled
        invariant Valid() && (!cancelled ==> state.loop.Waiting?)
        invariant (forall k: nat :: answers(k).Acked?) ==>
                    && !cancelled && n <= |old(queue)| && queue == old(queue)[n..]
                    && publisher.calls == old(publisher.calls) + Envelopes(old(queue)[..n])
        decreases !cancelled, Measure(params, state)
      {
        ghost var calls := publisher.calls;
        cancelled := RunOnce(answers(n), [], [], cancels(n));
        assert n < |old(queue)| ==> Envelopes(old(queue)[..n]) + [old(queue)[n].envelope] == Envelopes(old(queue)[..n + 1]);
        n := n + 1;
      }
      assert old(queue)[..|old(queue)|] == old(queue);
      if !cancelled {
        ReachableSound(params, state);
        OldOnesAreSettled(params, state, |state.ledger|);
      }
    }

    /** Publishes one leftover if there is time. */
    method DrainOne(item: Item, late: bool, answer: Answer, arrivals: seq<Envelope>, ghost n: nat) returns (lost: nat)
      requires Valid() && state.loop.Off? && inFlight.None? && state.leftovers != [] && state.leftovers[0] == item
      requires n <= accepted && forall i | 0 <= i < |queue| :: queue[i].serial >= n
      modifies this, publisher
      ensures Valid() && state.loop.Off? && inFlight.None? && state.leftovers == old(state.leftovers)[1..]
      ensures n <= accepted && forall i | 0 <= i < |queue| :: queue[i].serial >= n
      ensures |old(state.ledger)| <= |state.ledger|
      ensures LostOnStops(state.ledger) == LostOnStops(old(state.ledger)) + lost
      ensures lost == (if late || !answer.Acked? then 1 else 0) && Ended(item, if lost == 1 then LostOnStop else Published)
      ensures publisher.calls == if late then old(publisher.calls) else old(publisher.calls) + [item.envelope]
    {
      ReachableSound(params, state);
      assert ItemSound(state.ledger, item, Limit(params));
      assert Places(state, item.serial) == 1;
      ghost var before := state.ledger;
      if late {
        Advance(Drain(TooLate));
        LostUpdate(before, item.serial, state.ledger[item.serial]);
        assert state.ledger == before[item.serial := state.ledger[item.serial]];
        return 1;
      }
      var r := publisher.PublishWebhookEvent(item.envelope, answer);
      var stored := r.Acked?;
      Advance(Drain(if stored then Stored else NotStored));
      LostUpdate(before, item.serial, state.ledger[item.serial]);
      assert state.ledger == before[item.serial := state.ledger[item.serial]];
      assert Valid();
      Await(arrivals);
      lost := if stored then 0 else 1;
    }

    /** Cancels the loop, then tries every envelope still owed once more, inside one deadline. `owed` are
        the envelopes it found, what the loop held first; `late` says for which of them the deadline had
        passed, `answers` what JetStream answered to the others. */
    method Stop(early: seq<Envelope>, late: nat -> bool, answers: nat -> Answer, arrivals: nat -> seq<Envelope>)
        returns (lost: nat, ghost owed: seq<Item>)
      requires Valid() && state.leftovers == []
      modifies this, publisher
      ensures Valid() && state.loop.Off? && state.leftovers == [] && inFlight.None?
      ensures |old(state.ledger)| <= |state.ledger|
      ensures forall i | 0 <= i < |queue| :: queue[i].serial >= |old(state.ledger)|
      ensures forall serial | 0 <= serial < |old(state.ledger)| :: state.ledger[serial].fate.Some?
      ensures lost == LostOnStops(state.ledger) - LostOnStops(old(state.ledger))
      ensures early == [] ==> owed == (if old(inFlight).Some? then [old(inFlight).value] else []) + old(queue)
      ensures lost == |Unstored(|owed|, late, answers)|
      ensures (forall i | 0 <= i < |owed| :: !late(i)) ==> publisher.calls == old(publisher.calls) + Envelopes(owed)
    {
      CancelLoop();
      Await(early);
      ghost var n := |state.ledger|;
      ReachableSound(params, state);
      var leftovers := (if inFlight.Some? then [inFlight.value] else []) + queue;
      inFlight := None;
      Advance(Collect);
      while queue != []
        modifies this`queue, this`unfinished
        invariant |queue| <= unfinished && unfinished - |queue| == state.unfinished
        decreases |queue|
      {
        queue := queue[1..];
        unfinished := unfinished - 1;
      }
      owed := leftovers;
      lost := DrainAll(leftovers, late, answers, arrivals, n);
      ReachableSound(params, state);
      OldOnesAreSettled(params, state, n);
    }

    method CancelLoop()
      requires Valid() && state.leftovers == []
      modifies this
      ensures Valid() && state.loop.Off? && state.leftovers == [] && state.ledger == old(state.ledger)
      ensures queue == old(queue) && inFlight == old(inFlight)
    {
      ReachableSound(params, state);
      if !running {
        return;
      }
      Advance(Cancel);
      running := false;
      if inFlight.Some? {
        unfinished := unfinished - 1;
      }
    }

    /** The first so many leftovers, less those that were published in time. */
    static function Unstored(n: nat, late: nat -> bool, answers: nat -> Answer): set<nat> {
      set i: nat | i < n && (late(i) || !answers(i).Acked?)
    }

    static lemma OneMoreUnstored(n: nat, late: nat -> bool, answers: nat -> Answer)
      ensures Unstored(n + 1, late, answers) == Unstored(n, late, answers) + (if late(n) || !answers(n).Acked? then {n} else {})
      ensures n !in Unstored(n, late, answers)
    {
    }

    /** Publishes the leftovers once each; tells how many it could not. */
    method DrainAll(leftovers: seq<Item>, late: nat -> bool, answers: nat -> Answer, arrivals: nat -> seq<Envelope>, ghost n: nat)
        returns (lost: nat)
      requires Valid() && state.loop.Off? && inFlight.None? && state.leftovers == leftovers
      requires queue == [] && n == accepted
      modifies this, publisher
      ensures Valid() && state.loop.Off? && inFlight.None? && state.leftovers == []
      ensures n <= accepted && forall i | 0 <= i < |queue| :: queue[i].serial >= n
      ensures lost == LostOnStops(state.ledger) - LostOnStops(old(state.ledger))
      ensures lost == |Unstored(|leftovers|, late, answers)|
      ensures (forall i | 0 <= i < |leftovers| :: !late(i)) ==> publisher.calls == old(publisher.calls) + Envelopes(leftovers)
    {
      lost := 0;
      var i := 0;
      while i < |leftovers|
        invariant 0 <= i <= |leftovers|
        invariant Valid() && state.loop.Off? && inFlight.None? && state.leftovers == leftovers[i..]
        invariant n <= accepted && forall i | 0 <= i < |queue| :: queue[i].serial >= n
        invariant lost == LostOnStops(state.ledger) - LostOnStops(old(state.ledger))
        invariant lost == |Unstored(i, late, answers)|
        invariant (forall j | 0 <= j < i :: !late(j)) ==> publisher.calls == old(publisher.calls) + Envelopes(leftovers[..i])
      {
        var gone := DrainOne(leftovers[i], late(i), answers(i), arrivals(i), n);
        OneMoreUnstored(i, late, answers);
        assert Envelopes(leftovers[..i]) + [leftovers[i].envelope] == Envelopes(leftovers[..i + 1]);
        lost := lost + gone;
        i := i + 1;
      }
      assert leftovers[..i] == leftovers;
    }
  }
}

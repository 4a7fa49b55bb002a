/** The backlog of webhook envelopes JetStream did not take in time: one state machine for the
    retry loop, the HTTP handler that hands envelopes in, and the shutdown. */
module DeferredBacklog {
  import opened Wrappers

  /** What the webhook owes JetStream, with the message id every attempt carries. */
  datatype Envelope = Envelope(strategy: string, body: string, msgId: string)

  /** A `_DeferredEnvelope`. The serial is the identity of the object: the place of its
      acceptance. */
  datatype Item = Item(serial: nat, envelope: Envelope, attempts: nat)

  datatype Fate = Published | GaveUp | CrowdedOut | LostOnStop

  /** What became of one accepted envelope, and how many publishes were tried for it. */
  datatype Record = Record(envelope: Envelope, tries: nat, fate: Option<Fate>)

  /** Where the retry loop is: not there, waiting in `get`, or at one of the two awaits of
      `_attempt`. */
  datatype Loop = Off | Waiting | Publishing | Sleeping

  /** `maxsize == 0` is asyncio's unbounded queue. */
  datatype Params = Params(maxAttempts: nat, maxsize: nat)

  /** `calls` is every publish that was tried, in order. */
  datatype State = State(
    queue: seq<Item>,
    unfinished: nat,
    inFlight: Option<Item>,
    loop: Loop,
    leftovers: seq<Item>,
    ledger: seq<Record>,
    calls: seq<Item>)

  datatype DrainOutcome = Stored | NotStored | TooLate

  datatype Event =
    | Submit(envelope: Envelope)
    | Start
    | Take
    | PublishOk
    | PublishFails
    | WakeUp
    | Cancel
    | Collect
    | Drain(outcome: DrainOutcome)

  function Limit(p: Params): nat {
    if p.maxAttempts == 0 then 1 else p.maxAttempts
  }

  predicate Full(p: Params, queue: seq<Item>) {
    p.maxsize > 0 && |queue| >= p.maxsize
  }

  predicate Busy(loop: Loop) {
    loop.Publishing? || loop.Sleeping?
  }

  function Pending(s: State): nat {
    |s.queue| + if s.inFlight.Some? then 1 else 0
  }

  const EMPTY := State([], 0, None, Off, [], [], [])

  predicate Known(ledger: seq<Record>, item: Item) {
    item.serial < |ledger|
  }

  function Tried(ledger: seq<Record>, serial: nat): (r: seq<Record>)
    requires serial < |ledger|
    ensures |r| == |ledger|
  {
    ledger[serial := ledger[serial].(tries := ledger[serial].tries + 1)]
  }

  function Settled(ledger: seq<Record>, serial: nat, fate: Fate): (r: seq<Record>)
    requires serial < |ledger|
    ensures |r| == |ledger|
  {
    ledger[serial := ledger[serial].(fate := Some(fate))]
  }

  predicate CanStep(p: Params, s: State, e: Event) {
    match e
    case Submit(_) => true
    case Start => s.loop.Off? && s.inFlight.None? && s.leftovers == []
    case Take => s.loop.Waiting? && s.queue != [] && Known(s.ledger, s.queue[0])
    case PublishOk => s.loop.Publishing? && s.inFlight.Some? && s.unfinished > 0 && Known(s.ledger, s.inFlight.value)
    case PublishFails => s.loop.Publishing? && s.inFlight.Some? && s.unfinished > 0 && Known(s.ledger, s.inFlight.value)
    case WakeUp => s.loop.Sleeping? && s.inFlight.Some? && s.unfinished > 0 && Known(s.ledger, s.inFlight.value)
    case Cancel => s.loop.Waiting? || (Busy(s.loop) && s.unfinished > 0)
    case Collect => s.loop.Off? && s.leftovers == [] && s.unfinished >= |s.queue|
    case Drain(_) => s.loop.Off? && s.leftovers != [] && Known(s.ledger, s.leftovers[0])
  }

  function Submitted(p: Params, s: State, envelope: Envelope): State {
    if Full(p, s.queue) then s
    else
      s.(queue := s.queue + [Item(|s.ledger|, envelope, 0)],
         unfinished := s.unfinished + 1,
         ledger := s.ledger + [Record(envelope, 0, None)])
  }

  /** The first awaiting envelope comes off the queue, and its publish starts. */
  function Taken(s: State): State
    requires s.queue != [] && Known(s.ledger, s.queue[0])
  {
    var item := s.queue[0];
    s.(queue := s.queue[1..], inFlight := Some(item.(attempts := item.attempts + 1)), loop := Publishing,
       ledger := Tried(s.ledger, item.serial), calls := s.calls + [item])
  }

  /** The loop lets go of its envelope for good. */
  function LetGo(s: State, fate: Fate): State
    requires s.inFlight.Some? && s.unfinished > 0 && Known(s.ledger, s.inFlight.value)
  {
    s.(inFlight := None, loop := Waiting, unfinished := s.unfinished - 1,
       ledger := Settled(s.ledger, s.inFlight.value.serial, fate))
  }

  function Requeued(p: Params, s: State): State
    requires s.inFlight.Some? && s.unfinished > 0 && Known(s.ledger, s.inFlight.value)
  {
    if Full(p, s.queue) then LetGo(s, CrowdedOut)
    else s.(queue := s.queue + [s.inFlight.value], inFlight := None, loop := Waiting)
  }

  function Collected(s: State): State
    requires s.unfinished >= |s.queue|
  {
    s.(leftovers := (if s.inFlight.Some? then [s.inFlight.value] else []) + s.queue,
       inFlight := None, queue := [], unfinished := s.unfinished - |s.queue|)
  }

  function Drained(s: State, outcome: DrainOutcome): State
    requires s.leftovers != [] && Known(s.ledger, s.leftovers[0])
  {
    var serial := s.leftovers[0].serial;
    var tried := if outcome.TooLate? then s.ledger else Tried(s.ledger, serial);
    s.(leftovers := s.leftovers[1..],
       ledger := Settled(tried, serial, if outcome.Stored? then Published else LostOnStop),
       calls := if outcome.TooLate? then s.calls else s.calls + [s.leftovers[0]])
  }

  function Next(p: Params, s: State, e: Event): State
    requires CanStep(p, s, e)
  {
    match e
    case Submit(envelope) => Submitted(p, s, envelope)
    case Start => s.(loop := Waiting)
    case Take => Taken(s)
    case PublishOk => LetGo(s, Published)
    case PublishFails => if s.inFlight.value.attempts >= p.maxAttempts then LetGo(s, GaveUp) else s.(loop := Sleeping)
    case WakeUp => Requeued(p, s)
    case Cancel => s.(loop := Off, unfinished := if Busy(s.loop) then s.unfinished - 1 else s.unfinished)
    case Collect => Collected(s)
    case Drain(outcome) => Drained(s, outcome)
  }

  ghost predicate IsRun(p: Params, s: State, events: seq<Event>, s': State)
    decreases |events|
  {
    if events == [] then s == s'
    else CanStep(p, s, events[0]) && IsRun(p, Next(p, s, events[0]), events[1..], s')
  }

  ghost predicate Reachable(p: Params, s: State) {
    exists events :: IsRun(p, EMPTY, events, s)
  }

  lemma {:induction false} RunExtends(p: Params, s: State, events: seq<Event>, s': State, e: Event)
    requires IsRun(p, s, events, s') && CanStep(p, s', e)
    ensures IsRun(p, s, events + [e], Next(p, s', e))
    decreases |events|
  {
    if events == [] {
      assert [e][1..] == [];
    } else {
      RunExtends(p, Next(p, s, events[0]), events[1..], s', e);
      assert (events + [e])[1..] == events[1..] + [e];
    }
  }

  lemma ReachableExtends(p: Params, s: State, e: Event)
    requires Reachable(p, s) && CanStep(p, s, e)
    ensures Reachable(p, Next(p, s, e))
  {
    var events :| IsRun(p, EMPTY, events, s);
    RunExtends(p, EMPTY, events, s, e);
  }

  // ── Where an envelope is ───────────────────────────────────────────

  function Count(items: seq<Item>, serial: nat): nat {
    if items == [] then 0 else (if items[0].serial == serial then 1 else 0) + Count(items[1..], serial)
  }

  function CountHand(hand: Option<Item>, serial: nat): nat {
    if hand.Some? && hand.value.serial == serial then 1 else 0
  }

  /** In how many places an accepted envelope is: the queue, the loop's hand, the shutdown's list,
      or settled for good. */
  function Places(s: State, serial: nat): nat
    requires serial < |s.ledger|
  {
    Count(s.queue, serial) + CountHand(s.inFlight, serial) + Count(s.leftovers, serial)
    + if s.ledger[serial].fate.Some? then 1 else 0
  }

  ghost predicate Conserved(s: State) {
    forall serial | 0 <= serial < |s.ledger| :: Places(s, serial) == 1
  }

  predicate ItemSound(ledger: seq<Record>, item: Item, most: nat) {
    && item.serial < |ledger|
    && item.envelope == ledger[item.serial].envelope
    && item.attempts == ledger[item.serial].tries
    && item.attempts <= most
  }

  ghost predicate AllSound(ledger: seq<Record>, items: seq<Item>, most: nat) {
    forall i | 0 <= i < |items| :: ItemSound(ledger, items[i], most)
  }

  predicate RecordSound(p: Params, r: Record) {
    match r.fate
    case None => true
    case Some(Published) => 1 <= r.tries <= Limit(p) + 1
    case Some(GaveUp) => r.tries == Limit(p)
    case Some(CrowdedOut) => 1 <= r.tries < Limit(p) && p.maxsize > 0
    case Some(LostOnStop) => r.tries <= Limit(p) + 1
  }

  predicate HandSound(p: Params, s: State) {
    && (Busy(s.loop) ==> s.inFlight.Some?)
    && (s.loop.Waiting? ==> s.inFlight.None?)
    && (s.inFlight.Some? ==>
          && ItemSound(s.ledger, s.inFlight.value, Limit(p)) && s.inFlight.value.attempts > 0
          && (s.loop.Sleeping? ==> s.inFlight.value.attempts < Limit(p)))
    && (s.leftovers != [] ==> s.loop.Off? && s.inFlight.None?)
  }

  predicate CountersSound(p: Params, s: State) {
    && s.unfinished == |s.queue| + (if Busy(s.loop) then 1 else 0)
    && (p.maxsize > 0 ==> |s.queue| <= p.maxsize)
  }

  /** Every publish carried an accepted envelope as it was handed in, and all are counted. */
  ghost predicate CallsSound(ledger: seq<Record>, calls: seq<Item>) {
    && (forall i | 0 <= i < |calls| :: calls[i].serial < |ledger| && calls[i].envelope == ledger[calls[i].serial].envelope)
    && (forall serial | 0 <= serial < |ledger| :: Count(calls, serial) == ledger[serial].tries)
  }

  ghost predicate Inv(p: Params, s: State) {
    && Conserved(s)
    && CallsSound(s.ledger, s.calls)
    && AllSound(s.ledger, s.queue, Limit(p) - 1)
    && AllSound(s.ledger, s.leftovers, Limit(p))
    && HandSound(p, s)
    && CountersSound(p, s)
    && (forall serial | 0 <= serial < |s.ledger| :: RecordSound(p, s.ledger[serial]))
  }

  lemma {:induction false} CountAppend(xs: seq<Item>, item: Item, serial: nat)
    ensures Count(xs + [item], serial) == Count(xs, serial) + if item.serial == serial then 1 else 0
  {
    if xs == [] {
      assert xs + [item] == [item];
    } else {
      CountAppend(xs[1..], item, serial);
      assert (xs + [item])[1..] == xs[1..] + [item];
    }
  }

  lemma {:induction false} CountAt(items: seq<Item>, i: nat)
    requires i < |items|
    ensures Count(items, items[i].serial) >= 1
  {
    if i > 0 {
      CountAt(items[1..], i - 1);
    }
  }

  /** Items whose records did not change stay sound. */
  lemma SoundElsewhere(ledger: seq<Record>, ledger': seq<Record>, items: seq<Item>, most: nat, serial: nat)
    requires AllSound(ledger, items, most) && |ledger| <= |ledger'|
    requires forall i | 0 <= i < |ledger| && i != serial :: ledger'[i] == ledger[i]
    requires serial < |ledger| ==> Count(items, serial) == 0
    ensures AllSound(ledger', items, most)
  {
    forall i | 0 <= i < |items| ensures ItemSound(ledger', items[i], most) {
      CountAt(items, i);
    }
  }

  lemma CallSound(ledger: seq<Record>, calls: seq<Item>, item: Item, fate: Option<Fate>)
    requires CallsSound(ledger, calls) && item.serial < |ledger| && item.envelope == ledger[item.serial].envelope
    ensures
      var tried := Tried(ledger, item.serial);
      CallsSound(tried, calls + [item]) && (fate.Some? ==> CallsSound(Settled(tried, item.serial, fate.value), calls + [item]))
  {
    forall serial | 0 <= serial < |ledger| ensures Count(calls + [item], serial) == Tried(ledger, item.serial)[serial].tries {
      CountAppend(calls, item, serial);
    }
  }

  lemma SubmitKeeps(p: Params, s: State, envelope: Envelope)
    requires Inv(p, s)
    ensures Inv(p, Submitted(p, s, envelope))
  {
    var s' := Submitted(p, s, envelope);
    if !Full(p, s.queue) {
      var n, item := |s.ledger|, Item(|s.ledger|, envelope, 0);
      SoundElsewhere(s.ledger, s'.ledger, s.queue, Limit(p) - 1, n);
      SoundElsewhere(s.ledger, s'.ledger, s.leftovers, Limit(p), n);
      assert AllSound(s'.ledger, s'.queue, Limit(p) - 1);
      NoCallsBeyond(s.ledger, s.calls, n);
      forall serial | 0 <= serial < |s'.ledger| ensures Places(s', serial) == 1 {
        CountAppend(s.queue, item, serial);
        if serial == n {
          NoneBeyond(s.ledger, s.queue, Limit(p) - 1, n);
          NoneBeyond(s.ledger, s.leftovers, Limit(p), n);
        } else {
          assert Places(s, serial) == 1;
        }
      }
    }
  }

  lemma {:induction false} NoneBeyond(ledger: seq<Record>, items: seq<Item>, most: nat, serial: nat)
    requires AllSound(ledger, items, most) && serial >= |ledger|
    ensures Count(items, serial) == 0
  {
    if items != [] {
      assert ItemSound(ledger, items[0], most);
      forall i | 0 <= i < |items[1..]| ensures ItemSound(ledger, items[1..][i], most) {
        assert ItemSound(ledger, items[i + 1], most);
      }
      NoneBeyond(ledger, items[1..], most, serial);
    }
  }

  lemma {:induction false} NoCallsBeyond(ledger: seq<Record>, calls: seq<Item>, serial: nat)
    requires forall i | 0 <= i < |calls| :: calls[i].serial < |ledger|
    requires serial >= |ledger|
    ensures Count(calls, serial) == 0
  {
    if calls != [] {
      assert calls[0].serial < |ledger|;
      NoCallsBeyond(ledger, calls[1..], serial);
    }
  }

  lemma TailSound(ledger: seq<Record>, items: seq<Item>, most: nat)
    requires AllSound(ledger, items, most) && items != []
    ensures AllSound(ledger, items[1..], most)
  {
    forall i | 0 <= i < |items[1..]| ensures ItemSound(ledger, items[1..][i], most) {
      assert ItemSound(ledger, items[i + 1], most);
    }
  }

  lemma TakeKeeps(p: Params, s: State)
    requires Inv(p, s) && CanStep(p, s, Take)
    ensures Inv(p, Taken(s))
  {
    var s', item := Taken(s), s.queue[0];
    assert ItemSound(s.ledger, item, Limit(p) - 1);
    assert Places(s, item.serial) == 1;
    TailSound(s.ledger, s.queue, Limit(p) - 1);
    SoundElsewhere(s.ledger, s'.ledger, s'.queue, Limit(p) - 1, item.serial);
    SoundElsewhere(s.ledger, s'.ledger, s'.leftovers, Limit(p), item.serial);
    forall serial | 0 <= serial < |s'.ledger| ensures Places(s', serial) == 1 {
      assert Places(s, serial) == 1;
    }
    assert s.ledger[item.serial].fate.None?;
    CallSound(s.ledger, s.calls, item, None);
  }

  /** The loop settles its envelope, after a publish that went through or one too many that failed. */
  lemma LetGoKeeps(p: Params, s: State, fate: Fate)
    requires Inv(p, s) && Busy(s.loop) && s.unfinished > 0
    requires fate.Published? || (fate.GaveUp? && s.inFlight.value.attempts == Limit(p))
             || (fate.CrowdedOut? && s.loop.Sleeping? && p.maxsize > 0)
    ensures Inv(p, LetGo(s, fate))
  {
    var s', item := LetGo(s, fate), s.inFlight.value;
    assert Places(s, item.serial) == 1;
    SoundElsewhere(s.ledger, s'.ledger, s.queue, Limit(p) - 1, item.serial);
    SoundElsewhere(s.ledger, s'.ledger, s.leftovers, Limit(p), item.serial);
    forall serial | 0 <= serial < |s'.ledger| ensures Places(s', serial) == 1 && RecordSound(p, s'.ledger[serial]) {
      assert Places(s, serial) == 1 && RecordSound(p, s.ledger[serial]);
    }
  }

  lemma WakeUpKeeps(p: Params, s: State)
    requires Inv(p, s) && CanStep(p, s, WakeUp)
    ensures Inv(p, Requeued(p, s))
  {
    if Full(p, s.queue) {
      LetGoKeeps(p, s, CrowdedOut);
    } else {
      var s' := Requeued(p, s);
      forall serial | 0 <= serial < |s'.ledger| ensures Places(s', serial) == 1 {
        assert Places(s, serial) == 1;
        CountAppend(s.queue, s.inFlight.value, serial);
      }
    }
  }

  lemma CollectKeeps(p: Params, s: State)
    requires Inv(p, s) && CanStep(p, s, Collect)
    ensures Inv(p, Collected(s))
  {
    var s' := Collected(s);
    if s.inFlight.Some? {
      assert s'.leftovers[1..] == s.queue;
      forall i | 0 <= i < |s'.leftovers| ensures ItemSound(s'.ledger, s'.leftovers[i], Limit(p)) {
        assert i > 0 ==> s'.leftovers[i] == s.queue[i - 1];
      }
    } else {
      assert s'.leftovers == s.queue;
    }
    forall serial | 0 <= serial < |s'.ledger| ensures Places(s', serial) == 1 {
      assert Places(s, serial) == 1;
    }
  }

  lemma DrainKeeps(p: Params, s: State, outcome: DrainOutcome)
    requires Inv(p, s) && CanStep(p, s, Drain(outcome))
    ensures Inv(p, Drained(s, outcome))
  {
    var s', item := Drained(s, outcome), s.leftovers[0];
    assert ItemSound(s.ledger, item, Limit(p));
    assert Places(s, item.serial) == 1;
    TailSound(s.ledger, s.leftovers, Limit(p));
    CallSound(s.ledger, s.calls, item, s'.ledger[item.serial].fate);
    SoundElsewhere(s.ledger, s'.ledger, s'.queue, Limit(p) - 1, item.serial);
    SoundElsewhere(s.ledger, s'.ledger, s'.leftovers, Limit(p), item.serial);
    forall serial | 0 <= serial < |s'.ledger| ensures Places(s', serial) == 1 && RecordSound(p, s'.ledger[serial]) {
      assert Places(s, serial) == 1 && RecordSound(p, s.ledger[serial]);
    }
  }

  lemma PlainStepKeeps(p: Params, s: State, loop: Loop, unfinished: nat)
    requires Inv(p, s)
    requires HandSound(p, s.(loop := loop)) && CountersSound(p, s.(loop := loop, unfinished := unfinished))
    ensures Inv(p, s.(loop := loop, unfinished := unfinished))
  {
    var s' := s.(loop := loop, unfinished := unfinished);
    forall serial | 0 <= serial < |s'.ledger| ensures Places(s', serial) == 1 {
      assert Places(s, serial) == 1;
    }
  }

  lemma NextKeeps(p: Params, s: State, e: Event)
    requires Inv(p, s) && CanStep(p, s, e)
    ensures Inv(p, Next(p, s, e))
  {
    match e
    case Submit(envelope) => SubmitKeeps(p, s, envelope);
    case Start => PlainStepKeeps(p, s, Waiting, s.unfinished);
    case Take => TakeKeeps(p, s);
    case PublishOk => LetGoKeeps(p, s, Published);
    case PublishFails =>
      if s.inFlight.value.attempts >= p.maxAttempts {
        LetGoKeeps(p, s, GaveUp);
      } else {
        PlainStepKeeps(p, s, Sleeping, s.unfinished);
      }
    case WakeUp => WakeUpKeeps(p, s);
    case Cancel => PlainStepKeeps(p, s, Off, if Busy(s.loop) then s.unfinished - 1 else s.unfinished);
    case Collect => CollectKeeps(p, s);
    case Drain(outcome) => DrainKeeps(p, s, outcome);
  }

  lemma {:induction false} RunKeeps(p: Params, s: State, events: seq<Event>, s': State)
    requires Inv(p, s) && IsRun(p, s, events, s')
    ensures Inv(p, s')
    decreases |events|
  {
    if events != [] {
      NextKeeps(p, s, events[0]);
      RunKeeps(p, Next(p, s, events[0]), events[1..], s');
    }
  }

  lemma ReachableSound(p: Params, s: State)
    requires Reachable(p, s)
    ensures Inv(p, s)
  {
    var events :| IsRun(p, EMPTY, events, s);
    RunKeeps(p, EMPTY, events, s);
  }

  // ── The guarantees ─────────────────────────────────────────────────

  /** Every accepted envelope is in exactly one place at every step, cancellations included, and
      wherever it waits it is still the envelope that was handed in. */
  lemma NothingIsDroppedSilently(p: Params, s: State, serial: nat)
    requires Reachable(p, s) && serial < |s.ledger|
    ensures Places(s, serial) == 1
    ensures s.ledger[serial].fate.None? ==>
              exists item: Item :: item.serial == serial && item.envelope == s.ledger[serial].envelope
                             && (item in s.queue || s.inFlight == Some(item) || item in s.leftovers)
  {
    ReachableSound(p, s);
    if s.ledger[serial].fate.None? && CountHand(s.inFlight, serial) == 0 {
      assert Places(s, serial) == 1;
      if Count(s.queue, serial) > 0 {
        var i := Located(s.queue, serial);
        assert ItemSound(s.ledger, s.queue[i], Limit(p) - 1) && s.queue[i] in s.queue;
      } else {
        var i := Located(s.leftovers, serial);
        assert ItemSound(s.ledger, s.leftovers[i], Limit(p)) && s.leftovers[i] in s.leftovers;
      }
    }
  }

  lemma {:induction false} Located(items: seq<Item>, serial: nat) returns (i: nat)
    requires Count(items, serial) > 0
    ensures i < |items| && items[i].serial == serial
  {
    if items[0].serial == serial {
      i := 0;
    } else {
      i := Located(items[1..], serial);
      i := i + 1;
    }
  }

  /** No envelope is tried more than `max_attempts` times and once more on the way out, and one
      reported lost was tried to the end, met a full backlog, or was still owed at the stop. */
  lemma TriesAreBounded(p: Params, s: State, serial: nat)
    requires Reachable(p, s) && serial < |s.ledger|
    ensures Count(s.calls, serial) == s.ledger[serial].tries <= Limit(p) + 1
    ensures s.ledger[serial].fate == Some(Published) ==> s.ledger[serial].tries >= 1
    ensures s.ledger[serial].fate == Some(GaveUp) ==> s.ledger[serial].tries == Limit(p)
    ensures s.ledger[serial].fate == Some(CrowdedOut) ==> p.maxsize > 0 && s.ledger[serial].tries < Limit(p)
  {
    ReachableSound(p, s);
    assert RecordSound(p, s.ledger[serial]);
    if s.ledger[serial].fate.None? {
      assert Places(s, serial) == 1;
      if Count(s.queue, serial) > 0 {
        var i := Located(s.queue, serial);
        assert ItemSound(s.ledger, s.queue[i], Limit(p) - 1);
      } else if Count(s.leftovers, serial) > 0 {
        var i := Located(s.leftovers, serial);
        assert ItemSound(s.ledger, s.leftovers[i], Limit(p));
      }
    }
  }

  /** Every publish carries an accepted envelope exactly as the webhook handed it in, its message id
      included, so the stream can tell a repeated one. */
  lemma PublishesCarryTheirMessageId(p: Params, s: State, i: nat)
    requires Reachable(p, s) && i < |s.calls|
    ensures s.calls[i].serial < |s.ledger| && s.calls[i].envelope == s.ledger[s.calls[i].serial].envelope
  {
    ReachableSound(p, s);
  }

  /** The queue's own count of unfinished work is what is queued and what the loop holds, so
      `task_done` is never called once too often, and `pending` is all that is still owed. */
  lemma QueueAccounting(p: Params, s: State)
    requires Reachable(p, s)
    ensures s.unfinished == |s.queue| + if Busy(s.loop) then 1 else 0
    ensures Busy(s.loop) ==> s.unfinished > 0 && s.inFlight.Some?
    ensures s.loop.Waiting? ==> s.inFlight.None?
    ensures p.maxsize > 0 ==> |s.queue| <= p.maxsize
  {
    ReachableSound(p, s);
  }

  /** How an envelope ends, step by step: it is called published by a publish that was answered, given
      up by a failed one that was the last, crowded out when it comes back to a full backlog, and lost
      by a shutdown that could not store it; once said, it is not taken back. */
  lemma FatesAreEarned(p: Params, s: State, e: Event, serial: nat)
    requires Reachable(p, s) && CanStep(p, s, e) && serial < |s.ledger|
    ensures serial < |Next(p, s, e).ledger|
    ensures
      var before, after := s.ledger[serial].fate, Next(p, s, e).ledger[serial].fate;
      var inHand := s.inFlight.Some? && s.inFlight.value.serial == serial;
      var drained := e.Drain? && s.leftovers[0].serial == serial;
      if before.Some? then after == before
      else
        && (after == Some(Published) <==> (e.PublishOk? && inHand) || (drained && e.outcome.Stored?))
        && (after == Some(GaveUp) <==> e.PublishFails? && inHand && s.inFlight.value.attempts >= p.maxAttempts)
        && (after == Some(CrowdedOut) <==> e.WakeUp? && inHand && 0 < p.maxsize <= |s.queue|)
        && (after == Some(LostOnStop) <==> drained && !e.outcome.Stored?)
  {
    ReachableSound(p, s);
    assert Places(s, serial) == 1;
  }

  /** The backlog is worked off in order: what is handed in, or comes back, goes to its end; the loop
      takes its head, for one more try; and a shutdown takes what the loop holds first. */
  lemma FirstInFirstTried(p: Params, s: State, e: Event)
    requires CanStep(p, s, e)
    ensures
      var s' := Next(p, s, e);
      match e
      case Submit(envelope) =>
        if 0 < p.maxsize <= |s.queue| then s' == s
        else s'.queue == s.queue + [Item(|s.ledger|, envelope, 0)] && s'.ledger == s.ledger + [Record(envelope, 0, None)]
      case Take =>
        s'.queue == s.queue[1..] && s'.inFlight == Some(s.queue[0].(attempts := s.queue[0].attempts + 1)) && s'.calls == s.calls + [s.queue[0]]
      case WakeUp => s'.inFlight.None? && s'.queue == if 0 < p.maxsize <= |s.queue| then s.queue else s.queue + [s.inFlight.value]
      case Collect => s'.queue == [] && s'.inFlight.None? && s'.leftovers == (if s.inFlight.Some? then [s.inFlight.value] + s.queue else s.queue)
      case Drain(outcome) => s'.leftovers == s.leftovers[1..] && s'.calls == if outcome.TooLate? then s.calls else s.calls + [s.leftovers[0]]
      case _ => s'.queue == s.queue && s'.leftovers == s.leftovers && s'.calls == s.calls
  {
    assert [] + s.queue == s.queue;
  }

  // ── Shutting down ──────────────────────────────────────────────────

  /** What can happen while a shutdown drains its list: its own steps and more webhooks. */
  predicate WhileDraining(e: Event) {
    e.Submit? || e.Drain?
  }

  lemma {:induction false} DrainingRun(p: Params, s: State, events: seq<Event>, s': State)
    requires IsRun(p, s, events, s') && forall e <- events :: WhileDraining(e)
    requires s.loop.Off? && s.inFlight.None?
    ensures s'.loop.Off? && s'.inFlight.None?
    ensures |s'.queue| + |s.ledger| == |s.queue| + |s'.ledger|
    ensures |s.queue| <= |s'.queue| && s'.queue[..|s.queue|] == s.queue
    ensures forall i | |s.queue| <= i < |s'.queue| :: s'.queue[i].serial >= |s.ledger|
    decreases |events|
  {
    if events != [] {
      var next := Next(p, s, events[0]);
      assert events[0] in events;
      DrainingRun(p, next, events[1..], s');
      assert next.queue == s.queue || next.queue == s.queue + [Item(|s.ledger|, events[0].envelope, 0)];
      assert s'.queue[..|s.queue|] == s'.queue[..|next.queue|][..|s.queue|];
      if |next.queue| > |s.queue| {
        assert s'.queue[|s.queue|] == s'.queue[..|next.queue|][|s.queue|];
      }
    }
  }

  /** With the shutdown's list worked off and only newcomers in the queue, the old ones are settled. */
  lemma OldOnesAreSettled(p: Params, s: State, n: nat)
    requires Inv(p, s) && s.leftovers == [] && s.inFlight.None?
    requires forall item <- s.queue :: item.serial >= n
    ensures forall serial | 0 <= serial < n && serial < |s.ledger| :: s.ledger[serial].fate.Some?
  {
    forall serial | 0 <= serial < n && serial < |s.ledger| ensures s.ledger[serial].fate.Some? {
      assert Places(s, serial) == 1;
      if Count(s.queue, serial) > 0 {
        var i := Located(s.queue, serial);
        assert false;
      }
    }
  }

  /** `stop`, once its list is worked off: everything accepted before it collected the backlog is
      settled, published or reported lost. What is still pending is exactly what was accepted
      since, so nothing is pending if and only if nothing was. */
  lemma StopSettlesTheBacklog(p: Params, s: State, events: seq<Event>, s': State)
    requires Reachable(p, s) && CanStep(p, s, Collect)
    requires IsRun(p, Next(p, s, Collect), events, s') && forall e <- events :: WhileDraining(e)
    requires s'.leftovers == []
    ensures forall serial | 0 <= serial < |s.ledger| :: serial < |s'.ledger| && s'.ledger[serial].fate.Some?
    ensures Pending(s') == |s'.ledger| - |s.ledger|
    ensures Pending(s') == 0 <==> |s'.ledger| == |s.ledger|
  {
    var s1 := Next(p, s, Collect);
    ReachableSound(p, s);
    NextKeeps(p, s, Collect);
    RunKeeps(p, s1, events, s');
    DrainingRun(p, s1, events, s');
    OldOnesAreSettled(p, s', |s.ledger|);
  }

  lemma CollectedWith(p: Params, first: Envelope) returns (s: State)
    ensures s == State([], 0, None, Off, [Item(0, first, 0)], [Record(first, 0, None)], [])
    ensures IsRun(p, EMPTY, [Start, Submit(first), Cancel, Collect], s)
  {
    var events := [Start, Submit(first), Cancel, Collect];
    var s1 := EMPTY.(loop := Waiting);
    var s2 := State([Item(0, first, 0)], 1, None, Waiting, [], [Record(first, 0, None)], []);
    s := State([], 0, None, Off, [Item(0, first, 0)], [Record(first, 0, None)], []);
    assert Next(p, s1, Submit(first)) == s2 && Next(p, s2.(loop := Off), Collect) == s;
    assert IsRun(p, s2, events[2..], s) && events[1..][1..] == events[2..];
  }

  /** It does happen: a webhook accepted while the shutdown drains is neither tried nor reported. */
  lemma AcceptedWhileDraining(p: Params, first: Envelope, second: Envelope) returns (events: seq<Event>, s: State)
    ensures events == [Start, Submit(first), Cancel, Collect, Submit(second), Drain(Stored)] && IsRun(p, EMPTY, events, s)
    ensures s.loop.Off? && s.leftovers == [] && Pending(s) == 1
    ensures |s.ledger| == 2 && s.ledger[0].fate == Some(Published) && s.ledger[1] == Record(second, 0, None)
  {
    events := [Start, Submit(first), Cancel, Collect];
    var collected := CollectedWith(p, first);
    RunExtends(p, EMPTY, events, collected, Submit(second));
    events := events + [Submit(second)];
    RunExtends(p, EMPTY, events, Next(p, collected, Submit(second)), Drain(Stored));
    s := Next(p, Next(p, collected, Submit(second)), Drain(Stored));
    events := events + [Drain(Stored)];
  }

  // ── Without new webhooks ───────────────────────────────────────────

  predicate LoopsOwn(e: Event) {
    e.Take? || e.PublishOk? || e.PublishFails? || e.WakeUp?
  }

  /** Steps left for an envelope with so many attempts behind it. */
  function StepsLeft(p: Params, attempts: nat): nat {
    if attempts < Limit(p) then 3 * (Limit(p) - attempts) else 0
  }

  function QueueSteps(p: Params, queue: seq<Item>): nat {
    if queue == [] then 0 else StepsLeft(p, queue[0].attempts) + QueueSteps(p, queue[1..])
  }

  function Measure(p: Params, s: State): nat {
    QueueSteps(p, s.queue)
    + match s.loop
      case Publishing => (if s.inFlight.Some? then StepsLeft(p, s.inFlight.value.attempts) else 0) + 2
      case Sleeping => (if s.inFlight.Some? then StepsLeft(p, s.inFlight.value.attempts) else 0) + 1
      case _ => 0
  }

  lemma {:induction false} QueueStepsAppend(p: Params, queue: seq<Item>, item: Item)
    ensures QueueSteps(p, queue + [item]) == QueueSteps(p, queue) + StepsLeft(p, item.attempts)
  {
    if queue == [] {
      assert queue + [item] == [item];
    } else {
      QueueStepsAppend(p, queue[1..], item);
      assert (queue + [item])[1..] == queue[1..] + [item];
    }
  }

  lemma LoopStepDecreases(p: Params, s: State, e: Event)
    requires Inv(p, s) && CanStep(p, s, e) && LoopsOwn(e)
    ensures Measure(p, Next(p, s, e)) < Measure(p, s)
  {
    match e
    case Take =>
      assert ItemSound(s.ledger, s.queue[0], Limit(p) - 1);
    case PublishOk =>
    case PublishFails =>
    case WakeUp =>
      QueueStepsAppend(p, s.queue, s.inFlight.value);
  }

  lemma {:induction false} LoopRunShrinks(p: Params, s: State, events: seq<Event>, s': State)
    requires Inv(p, s) && IsRun(p, s, events, s') && forall e <- events :: LoopsOwn(e)
    ensures |events| + Measure(p, s') <= Measure(p, s)
    decreases |events|
  {
    if events != [] {
      assert events[0] in events;
      NextKeeps(p, s, events[0]);
      LoopStepDecreases(p, s, events[0]);
      LoopRunShrinks(p, Next(p, s, events[0]), events[1..], s');
    }
  }

  /** Left alone, the loop makes at most so many steps, whatever JetStream answers. */
  lemma LoopRunsDry(p: Params, s: State, events: seq<Event>, s': State)
    requires Reachable(p, s) && IsRun(p, s, events, s') && forall e <- events :: LoopsOwn(e)
    ensures |events| + Measure(p, s') <= Measure(p, s)
  {
    ReachableSound(p, s);
    LoopRunShrinks(p, s, events, s');
  }

  /** And it stops only when nothing is left: a running loop with something pending can move. */
  lemma LoopIsNeverStuck(p: Params, s: State)
    requires Reachable(p, s) && !s.loop.Off?
    ensures Pending(s) > 0 <==> exists e :: LoopsOwn(e) && CanStep(p, s, e)
  {
    ReachableSound(p, s);
    if s.queue != [] {
      assert ItemSound(s.ledger, s.queue[0], Limit(p) - 1);
    }
    if Pending(s) > 0 {
      assert CanStep(p, s, Take) || CanStep(p, s, PublishOk) || CanStep(p, s, WakeUp);
    }
  }

  // ── What the shutdown reports ──────────────────────────────────────

  /** The envelopes reported lost by a shutdown. */
  function LostOnStops(ledger: seq<Record>): nat {
    if ledger == [] then 0
    else (if ledger[0].fate == Some(LostOnStop) then 1 else 0) + LostOnStops(ledger[1..])
  }

  lemma {:induction false} LostAppend(ledger: seq<Record>, r: Record)
    ensures LostOnStops(ledger + [r]) == LostOnStops(ledger) + if r.fate == Some(LostOnStop) then 1 else 0
  {
    if ledger == [] {
      assert ledger + [r] == [r];
    } else {
      LostAppend(ledger[1..], r);
      assert (ledger + [r])[1..] == ledger[1..] + [r];
    }
  }

  lemma {:induction false} LostUpdate(ledger: seq<Record>, i: nat, r: Record)
    requires i < |ledger| && ledger[i].fate != Some(LostOnStop)
    ensures LostOnStops(ledger[i := r]) == LostOnStops(ledger) + if r.fate == Some(LostOnStop) then 1 else 0
  {
    if i > 0 {
      LostUpdate(ledger[1..], i - 1, r);
      assert ledger[i := r][1..] == ledger[1..][i - 1 := r];
    } else {
      assert ledger[i := r][1..] == ledger[1..];
    }
  }
}

/** The per-cycle lock of `BroadcastDispatcher.dispatch`: one entry per cycle being dispatched, a
    count of the dispatches that hold or await it, and asyncio's lock underneath, which between a
    release and the wake-up of the next waiter reads as unlocked. */
module CycleLocks {
  import opened Wrappers

  type Task = nat
  type Key = string
  type EntryId = nat

  /** A `_CycleLock`: its user count, who holds its lock, who waits for it in order. */
  datatype Entry = Entry(users: nat, holder: Option<Task>, waiters: seq<Task>)

  /** A dispatch in flight and the entry object it holds on to. One is Abandoned from its
      cancellation until it runs again and leaves: its future is dead but still in the queue. */
  datatype Place =
    | Waiting(key: Key, entry: EntryId)
    | Abandoned(key: Key, entry: EntryId)
    | Critical(key: Key, entry: EntryId)

  datatype State = State(
    locks: map<Key, EntryId>,
    entries: map<EntryId, Entry>,
    tasks: map<Task, Place>)

  /** Between two events nothing else runs: entering up to the first wait, waking up with the
      lock, and releasing together with leaving, are each one turn of the event loop. */
  datatype Event =
    | Enter(task: Task, key: Key, spare: EntryId)
    | Wake(task: Task)
    | Leave(task: Task)
    | Abandon(task: Task)
    | Cancel(task: Task)

  predicate CanStep(s: State, e: Event) {
    match e
    case Enter(t, key, spare) => t !in s.tasks && spare !in s.entries && (key in s.locks ==> s.locks[key] in s.entries)
    case Wake(t) =>
      && t in s.tasks && s.tasks[t].Waiting? && s.tasks[t].entry in s.entries
      && var entry := s.entries[s.tasks[t].entry];
      entry.holder.None? && entry.waiters != [] && entry.waiters[0] == t
    case Leave(t) => t in s.tasks && s.tasks[t].Critical? && s.tasks[t].entry in s.entries
    case Abandon(t) => t in s.tasks && s.tasks[t].Waiting?
    case Cancel(t) => t in s.tasks && !s.tasks[t].Critical? && s.tasks[t].entry in s.entries
  }

  /** asyncio lets a newcomer have the lock at once when nobody holds it and every future in its
      queue is cancelled. */
  predicate Free(entry: Entry, tasks: map<Task, Place>) {
    entry.holder.None? && forall w <- entry.waiters :: w in tasks && tasks[w].Abandoned?
  }

  /** The waiters without `t`. */
  function Without(waiters: seq<Task>, t: Task): (r: seq<Task>)
    ensures forall u :: u in r <==> u in waiters && u != t
    ensures |r| <= |waiters|
  {
    if waiters == [] then []
    else if waiters[0] == t then Without(waiters[1..], t)
    else [waiters[0]] + Without(waiters[1..], t)
  }

  /** `users -= 1`, and the entry goes when nobody holds or awaits it. */
  function Dropped(s: State, t: Task, entry: Entry): State
    requires t in s.tasks
  {
    var key, id := s.tasks[t].key, s.tasks[t].entry;
    var entry' := entry.(users := if entry.users == 0 then 0 else entry.users - 1);
    State(if entry'.users == 0 then s.locks - {key} else s.locks, s.entries[id := entry'], s.tasks - {t})
  }

  function Next(s: State, e: Event): State
    requires CanStep(s, e)
  {
    match e
    case Enter(t, key, spare) =>
      var id := if key in s.locks then s.locks[key] else spare;
      var entry := if key in s.locks then s.entries[id] else Entry(0, None, []);
      var free := Free(entry, s.tasks);
      var entry' := Entry(entry.users + 1, if free then Some(t) else entry.holder, if free then entry.waiters else entry.waiters + [t]);
      State(s.locks[key := id], s.entries[id := entry'],
            s.tasks[t := if free then Critical(key, id) else Waiting(key, id)])
    case Wake(t) =>
      var id := s.tasks[t].entry;
      s.(entries := s.entries[id := s.entries[id].(holder := Some(t), waiters := s.entries[id].waiters[1..])],
         tasks := s.tasks[t := Critical(s.tasks[t].key, id)])
    case Leave(t) => Dropped(s, t, s.entries[s.tasks[t].entry].(holder := None))
    case Abandon(t) => s.(tasks := s.tasks[t := Abandoned(s.tasks[t].key, s.tasks[t].entry)])
    case Cancel(t) =>
      var entry := s.entries[s.tasks[t].entry];
      Dropped(s, t, entry.(waiters := Without(entry.waiters, t)))
  }

  ghost predicate IsRun(s: State, events: seq<Event>, s': State)
    decreases |events|
  {
    if events == [] then s == s' else CanStep(s, events[0]) && IsRun(Next(s, events[0]), events[1..], s')
  }

  const EMPTY := State(map[], map[], map[])

  ghost predicate Reachable(s: State) {
    exists events :: IsRun(EMPTY, events, s)
  }

  // ── The invariant ──────────────────────────────────────────────────

  /** The dispatches of `key` in flight. */
  function InFlight(s: State, key: Key): set<Task> {
    set t | t in s.tasks && s.tasks[t].key == key
  }

  /** Everybody in flight holds the entry the map has for its key, as its holder or a waiter. */
  ghost predicate TasksSound(s: State) {
    forall t <- s.tasks ::
      var place := s.tasks[t];
      && place.key in s.locks && s.locks[place.key] == place.entry && place.entry in s.entries
      && (place.Critical? ==> s.entries[place.entry].holder == Some(t))
      && (!place.Critical? ==> t in s.entries[place.entry].waiters)
  }

  ghost predicate NoRepeats(xs: seq<Task>) {
    forall i, j | 0 <= i < j < |xs| :: xs[i] != xs[j]
  }

  ghost predicate EntrySound(s: State, key: Key) {
    key in s.locks ==>
      && s.locks[key] in s.entries
      && var entry := s.entries[s.locks[key]];
      && entry.users == |InFlight(s, key)| && entry.users > 0
      && (entry.holder.Some? ==> entry.holder.value in s.tasks && s.tasks[entry.holder.value] == Critical(key, s.locks[key]))
      && (forall t <- entry.waiters :: t in s.tasks && s.tasks[t] in {Waiting(key, s.locks[key]), Abandoned(key, s.locks[key])})
      && NoRepeats(entry.waiters)
  }

  ghost predicate Inv(s: State) {
    && TasksSound(s)
    && (forall key <- s.locks :: EntrySound(s, key))
    && (forall k1, k2 | k1 in s.locks && k2 in s.locks && s.locks[k1] == s.locks[k2] :: k1 == k2)
  }

  lemma WithoutKeepsNoRepeats(waiters: seq<Task>, t: Task)
    requires NoRepeats(waiters)
    ensures NoRepeats(Without(waiters, t))
    decreases |waiters|
  {
    if waiters != [] {
      WithoutKeepsNoRepeats(waiters[1..], t);
      if waiters[0] != t {
        var rest := Without(waiters[1..], t);
        assert forall i | 0 <= i < |rest| :: rest[i] in waiters[1..];
      }
    }
  }

  /** Somebody of this cycle is inside, or waits to get in and still wants to. */
  ghost predicate Wanted(s: State, key: Key) {
    exists t :: t in s.tasks && s.tasks[t].key == key && !s.tasks[t].Abandoned?
  }

  /** A lock is free for a newcomer exactly when nobody is inside or still wants in. */
  lemma FreeIffUnwanted(s: State, key: Key)
    requires Inv(s)
    ensures key in s.locks ==> s.locks[key] in s.entries
    ensures key in s.locks ==> (Free(s.entries[s.locks[key]], s.tasks) <==> !Wanted(s, key))
    ensures key !in s.locks ==> InFlight(s, key) == {} && !Wanted(s, key)
  {
    if key in s.locks {
      assert EntrySound(s, key);
    }
    if t :| t in InFlight(s, key) {
      assert s.tasks[t].key == key && s.locks[key] == s.tasks[t].entry;
    }
  }

  /** What a step does to one key does not concern the others. */
  lemma OtherKey(s: State, s': State, k: Key)
    requires EntrySound(s, k) && k in s.locks && k in s'.locks && s'.locks[k] == s.locks[k]
    requires s.locks[k] in s'.entries && s'.entries[s.locks[k]] == s.entries[s.locks[k]]
    requires forall u | u in s.tasks && s.tasks[u].key == k :: u in s'.tasks && s'.tasks[u] == s.tasks[u]
    requires forall u | u in s'.tasks && s'.tasks[u].key == k :: u in s.tasks && s.tasks[u] == s'.tasks[u]
    ensures EntrySound(s', k)
  {
    assert InFlight(s', k) == InFlight(s, k);
  }

  /** `t` joins an entry: its first user, or one more beside those it has. */
  lemma EnterOwnKey(s: State, t: Task, key: Key, spare: EntryId)
    requires Inv(s) && CanStep(s, Enter(t, key, spare))
    ensures EntrySound(Next(s, Enter(t, key, spare)), key)
  {
    var s' := Next(s, Enter(t, key, spare));
    assert InFlight(s', key) == InFlight(s, key) + {t};
    FreeIffUnwanted(s, key);
    if key in s.locks {
      EnterBusyKey(s, t, key, spare, s');
    } else {
      EnterFreshKey(s, t, key, spare, s');
    }
  }

  lemma EnterFreshKey(s: State, t: Task, key: Key, spare: EntryId, s': State)
    requires CanStep(s, Enter(t, key, spare)) && s' == Next(s, Enter(t, key, spare))
    requires key !in s.locks && InFlight(s', key) == {t}
    ensures EntrySound(s', key)
  {
    assert s'.locks[key] == spare && s'.entries[spare] == Entry(1, Some(t), []);
    assert s'.tasks[t] == Critical(key, spare);
  }

  lemma EnterBusyKey(s: State, t: Task, key: Key, spare: EntryId, s': State)
    requires Inv(s) && CanStep(s, Enter(t, key, spare)) && s' == Next(s, Enter(t, key, spare))
    requires key in s.locks && InFlight(s', key) == InFlight(s, key) + {t}
    ensures EntrySound(s', key)
  {
    var entry := s.entries[s.locks[key]];
    assert EntrySound(s, key) && t !in InFlight(s, key);
    if Free(entry, s.tasks) {
      assert s'.entries[s'.locks[key]] == Entry(entry.users + 1, Some(t), entry.waiters);
      assert s'.tasks == s.tasks[t := Critical(key, s.locks[key])];
    } else {
      assert s'.entries[s'.locks[key]] == Entry(entry.users + 1, entry.holder, entry.waiters + [t]);
      assert s'.tasks == s.tasks[t := Waiting(key, s.locks[key])];
    }
  }

  lemma EnterTasks(s: State, t: Task, key: Key, spare: EntryId)
    requires Inv(s) && CanStep(s, Enter(t, key, spare))
    ensures TasksSound(Next(s, Enter(t, key, spare)))
  {
    var s' := Next(s, Enter(t, key, spare));
    FreeIffUnwanted(s, key);
    forall u <- s'.tasks | u != t
      ensures
        var place := s'.tasks[u];
        && place.key in s'.locks && s'.locks[place.key] == place.entry && place.entry in s'.entries
        && (place.Critical? ==> s'.entries[place.entry].holder == Some(u))
        && (!place.Critical? ==> u in s'.entries[place.entry].waiters)
    {
      assert EntrySound(s, s.tasks[u].key);
    }
  }

  lemma EnterKeeps(s: State, t: Task, key: Key, spare: EntryId)
    requires Inv(s) && CanStep(s, Enter(t, key, spare))
    ensures Inv(Next(s, Enter(t, key, spare)))
  {
    var s' := Next(s, Enter(t, key, spare));
    EnterTasks(s, t, key, spare);
    EnterOwnKey(s, t, key, spare);
    forall k <- s'.locks | k != key ensures EntrySound(s', k) {
      assert EntrySound(s, k);
      OtherKey(s, s', k);
    }
    assert forall k <- s.locks :: s.locks[k] in s.entries by {
      assert forall k <- s.locks :: EntrySound(s, k);
    }
  }

  lemma WakeOwnKey(s: State, t: Task)
    requires Inv(s) && CanStep(s, Wake(t))
    ensures EntrySound(Next(s, Wake(t)), s.tasks[t].key)
  {
    var s' := Next(s, Wake(t));
    var key := s.tasks[t].key;
    var waiters := s.entries[s.locks[key]].waiters;
    assert EntrySound(s, key);
    assert waiters == [t] + waiters[1..];
    assert InFlight(s', key) == InFlight(s, key);
  }

  lemma WakeTasks(s: State, t: Task)
    requires Inv(s) && CanStep(s, Wake(t))
    ensures TasksSound(Next(s, Wake(t)))
  {
    var s' := Next(s, Wake(t));
    var waiters := s.entries[s.locks[s.tasks[t].key]].waiters;
    assert EntrySound(s, s.tasks[t].key);
    assert waiters == [t] + waiters[1..];
  }

  lemma WakeKeeps(s: State, t: Task)
    requires Inv(s) && CanStep(s, Wake(t))
    ensures Inv(Next(s, Wake(t)))
  {
    var s' := Next(s, Wake(t));
    WakeTasks(s, t);
    WakeOwnKey(s, t);
    forall k <- s'.locks | k != s.tasks[t].key ensures EntrySound(s', k) {
      assert EntrySound(s, k);
      OtherKey(s, s', k);
    }
  }

  /** The entry after its holder released it, or after one waiter gave up. */
  ghost predicate Released(s: State, t: Task, entry: Entry) {
    && t in s.tasks && s.tasks[t].entry in s.entries
    && var before := s.entries[s.tasks[t].entry];
    entry == if s.tasks[t].Critical? then before.(holder := None) else before.(waiters := Without(before.waiters, t))
  }

  lemma DropOwnKey(s: State, t: Task, entry: Entry)
    requires Inv(s) && Released(s, t, entry)
    ensures EntrySound(Dropped(s, t, entry), s.tasks[t].key)
    ensures s.tasks[t].key in Dropped(s, t, entry).locks <==> InFlight(Dropped(s, t, entry), s.tasks[t].key) != {}
  {
    var s' := Dropped(s, t, entry);
    var key := s.tasks[t].key;
    assert EntrySound(s, key);
    assert t in InFlight(s, key) && InFlight(s', key) == InFlight(s, key) - {t};
    assert |InFlight(s', key)| == |InFlight(s, key)| - 1;
    WithoutKeepsNoRepeats(s.entries[s.locks[key]].waiters, t);
  }

  lemma DropTasks(s: State, t: Task, entry: Entry)
    requires Inv(s) && Released(s, t, entry)
    ensures TasksSound(Dropped(s, t, entry))
  {
    var s' := Dropped(s, t, entry);
    var key := s.tasks[t].key;
    DropOwnKey(s, t, entry);
    forall u <- s'.tasks
      ensures
        var place := s'.tasks[u];
        && place.key in s'.locks && s'.locks[place.key] == place.entry && place.entry in s'.entries
        && (place.Critical? ==> s'.entries[place.entry].holder == Some(u))
        && (!place.Critical? ==> u in s'.entries[place.entry].waiters)
    {
      assert u in s.tasks && u != t;
      if s.tasks[u].key == key {
        assert u in InFlight(s', key);
      }
    }
  }

  /** A dispatch leaves, holding or no longer awaiting the lock. */
  lemma DropKeeps(s: State, t: Task, entry: Entry)
    requires Inv(s) && Released(s, t, entry)
    ensures Inv(Dropped(s, t, entry))
  {
    var s' := Dropped(s, t, entry);
    DropTasks(s, t, entry);
    DropOwnKey(s, t, entry);
    DropOtherKeys(s, t, entry);
  }

  lemma DropOtherKeys(s: State, t: Task, entry: Entry)
    requires Inv(s) && Released(s, t, entry)
    ensures forall k <- Dropped(s, t, entry).locks | k != s.tasks[t].key :: EntrySound(Dropped(s, t, entry), k)
  {
    var s' := Dropped(s, t, entry);
    forall k <- s'.locks | k != s.tasks[t].key ensures EntrySound(s', k) {
      assert EntrySound(s, k);
      assert s.locks[k] != s.tasks[t].entry;
      OtherKey(s, s', k);
    }
  }

  lemma AbandonOwnKey(s: State, t: Task)
    requires Inv(s) && CanStep(s, Abandon(t))
    ensures EntrySound(Next(s, Abandon(t)), s.tasks[t].key)
  {
    var s' := Next(s, Abandon(t));
    var key := s.tasks[t].key;
    assert EntrySound(s, key) && InFlight(s', key) == InFlight(s, key);
  }

  lemma AbandonOtherKeys(s: State, t: Task)
    requires Inv(s) && CanStep(s, Abandon(t))
    ensures forall k <- s.locks | k != s.tasks[t].key :: EntrySound(Next(s, Abandon(t)), k)
  {
    forall k <- s.locks | k != s.tasks[t].key ensures EntrySound(Next(s, Abandon(t)), k) {
      assert EntrySound(s, k);
      OtherKey(s, Next(s, Abandon(t)), k);
    }
  }

  lemma AbandonTasks(s: State, t: Task)
    requires Inv(s) && CanStep(s, Abandon(t))
    ensures TasksSound(Next(s, Abandon(t)))
  {
  }

  lemma AbandonKeeps(s: State, t: Task)
    requires Inv(s) && CanStep(s, Abandon(t))
    ensures Inv(Next(s, Abandon(t)))
  {
    AbandonOwnKey(s, t);
    AbandonOtherKeys(s, t);
    AbandonTasks(s, t);
  }

  lemma NextKeeps(s: State, e: Event)
    requires Inv(s) && CanStep(s, e)
    ensures Inv(Next(s, e))
  {
    match e
    case Enter(t, key, spare) => EnterKeeps(s, t, key, spare);
    case Wake(t) => WakeKeeps(s, t);
    case Leave(t) => DropKeeps(s, t, s.entries[s.tasks[t].entry].(holder := None));
    case Abandon(t) => AbandonKeeps(s, t);
    case Cancel(t) =>
      var entry := s.entries[s.tasks[t].entry];
      DropKeeps(s, t, entry.(waiters := Without(entry.waiters, t)));
  }

  lemma {:induction false} RunKeeps(s: State, events: seq<Event>, s': State)
    requires Inv(s) && IsRun(s, events, s')
    ensures Inv(s')
    decreases |events|
  {
    if events != [] {
      NextKeeps(s, events[0]);
      RunKeeps(Next(s, events[0]), events[1..], s');
    }
  }

  // ── The guarantees ─────────────────────────────────────────────────

  /** At most one dispatch of a cycle is in the critical section, and all of them share one entry. */
  lemma MutualExclusion(s: State, t: Task, u: Task)
    requires Reachable(s) && t in s.tasks && u in s.tasks && s.tasks[t].key == s.tasks[u].key
    ensures s.tasks[t].entry == s.tasks[u].entry
    ensures s.tasks[t].Critical? && s.tasks[u].Critical? ==> t == u
  {
    var events :| IsRun(EMPTY, events, s);
    RunKeeps(EMPTY, events, s);
  }

  /** The map holds an entry for a cycle exactly while dispatches of it are in flight, and the
      entry counts them: nothing leaks, and nothing in use is dropped. */
  lemma EntriesNeverLeak(s: State, key: Key)
    requires Reachable(s)
    ensures key in s.locks <==> InFlight(s, key) != {}
    ensures key in s.locks ==> s.locks[key] in s.entries && s.entries[s.locks[key]].users == |InFlight(s, key)|
  {
    var events :| IsRun(EMPTY, events, s);
    RunKeeps(EMPTY, events, s);
    if t :| t in InFlight(s, key) {
      assert s.tasks[t].key in s.locks;
    }
  }

  /** Nobody waits for a lock that cannot move: it is held, or the first in its queue can wake up
      or, cancelled, leave. */
  lemma SomebodyCanMove(s: State, t: Task) returns (mover: Event)
    requires Reachable(s) && t in s.tasks
    ensures CanStep(s, mover) && (mover.Leave? || mover.Wake? || (mover.Cancel? && s.tasks[mover.task].Abandoned?))
    ensures mover.task in s.tasks && s.tasks[mover.task].key == s.tasks[t].key
  {
    var events :| IsRun(EMPTY, events, s);
    RunKeeps(EMPTY, events, s);
    var key := s.tasks[t].key;
    var entry := s.entries[s.locks[key]];
    assert EntrySound(s, key);
    if entry.holder.Some? {
      mover := Leave(entry.holder.value);
    } else {
      assert t in entry.waiters;
      assert entry.waiters[0] in entry.waiters;
      mover := if s.tasks[entry.waiters[0]].Waiting? then Wake(entry.waiters[0]) else Cancel(entry.waiters[0]);
    }
  }

  /** Dispatches of a cycle get in in the order they came: who has to wait goes to the end of the queue,
      and nobody is woken but the first in it. */
  lemma FirstComeFirstServed(s: State, e: Event, t: Task)
    requires Reachable(s) && CanStep(s, e) && t in s.tasks && !s.tasks[t].Critical? && e.task != t
    ensures t in Next(s, e).tasks && s.tasks[t].entry in s.entries && s.tasks[t].entry in Next(s, e).entries
    ensures
      var before, after := s.entries[s.tasks[t].entry].waiters, Next(s, e).entries[s.tasks[t].entry].waiters;
      || after == before
      || (e.Enter? && after == before + [e.task])
      || (e.Wake? && before != [] && before[0] == e.task && after == before[1..])
      || (e.Cancel? && after == Without(before, e.task))
  {
    var events :| IsRun(EMPTY, events, s);
    RunKeeps(EMPTY, events, s);
    assert TasksSound(s);
  }

  // ── Why it counts instead of looking at the lock ───────────────────

  /** The rule this code replaced: on leaving, drop the entry when its lock reads as unlocked. */
  function LeaveByLockState(s: State, t: Task): State
    requires CanStep(s, Leave(t))
  {
    var key, id := s.tasks[t].key, s.tasks[t].entry;
    State(s.locks - {key}, s.entries[id := s.entries[id].(holder := None)], s.tasks - {t})
  }

  /** Two dispatches, one leaving by that rule while the other waits, and a third arriving: the
      third gets a fresh lock and runs beside the one that wakes up. */
  lemma LockStateRuleBreaksExclusion()
    ensures
      var s2 := Next(Next(EMPTY, Enter(1, "k", 10)), Enter(2, "k", 11));
      CanStep(s2, Leave(1)) &&
      var s3 := LeaveByLockState(s2, 1);
      CanStep(s3, Enter(3, "k", 12)) &&
      var s4 := Next(s3, Enter(3, "k", 12));
      CanStep(s4, Wake(2)) &&
      var s5 := Next(s4, Wake(2));
      s5.tasks == map[2 := Critical("k", 10), 3 := Critical("k", 12)]
  {
    var s1 := Next(EMPTY, Enter(1, "k", 10));
    assert s1 == State(map["k" := 10], map[10 := Entry(1, Some(1), [])], map[1 := Critical("k", 10)]);
    var s2 := Next(s1, Enter(2, "k", 11));
    assert s2.entries[10] == Entry(2, Some(1), [2]) && s2.tasks[2] == Waiting("k", 10);
    var s3 := LeaveByLockState(s2, 1);
    assert s3.entries[10] == Entry(2, None, [2]) && s3.locks == map[];
    var s4 := Next(s3, Enter(3, "k", 12));
    assert s4.tasks == map[2 := Waiting("k", 10), 3 := Critical("k", 12)];
    assert s4.entries[10] == Entry(2, None, [2]);
  }

  lemma {:induction false} RunExtends(s: State, events: seq<Event>, s': State, e: Event)
    requires IsRun(s, events, s') && CanStep(s', e)
    ensures IsRun(s, events + [e], Next(s', e))
    decreases |events|
  {
    if events == [] {
      assert [e][1..] == [];
    } else {
      RunExtends(Next(s, events[0]), events[1..], s', e);
      assert (events + [e])[1..] == events[1..] + [e];
    }
  }

  lemma ReachableExtends(s: State, e: Event)
    requires Reachable(s) && CanStep(s, e)
    ensures Reachable(Next(s, e))
  {
    var events :| IsRun(EMPTY, events, s);
    RunExtends(EMPTY, events, s, e);
  }

  /** A newcomer finds the entry of its key, and gets in at once exactly when nobody is inside or
      still wants in. */
  lemma CanAlwaysEnter(s: State, key: Key)
    requires Reachable(s)
    ensures key in s.locks ==> s.locks[key] in s.entries
    ensures key in s.locks ==> (Free(s.entries[s.locks[key]], s.tasks) <==> !Wanted(s, key))
    ensures key !in s.locks ==> !Wanted(s, key)
  {
    var events :| IsRun(EMPTY, events, s);
    RunKeeps(EMPTY, events, s);
    FreeIffUnwanted(s, key);
  }

  lemma CanAlwaysLeave(s: State, t: Task)
    requires Reachable(s) && t in s.tasks
    ensures s.tasks[t].entry in s.entries && s.entries[s.tasks[t].entry].users > 0
  {
    var events :| IsRun(EMPTY, events, s);
    RunKeeps(EMPTY, events, s);
    assert EntrySound(s, s.tasks[t].key);
  }

  // ── The code ───────────────────────────────────────────────────────

  /** The lock map of the dispatcher, updated in place. Lock objects live in `entries`. */
  class DispatchLocks {
    var locks: map<Key, EntryId>
    var entries: map<EntryId, Entry>
    var tasks: map<Task, Place>
    var nextEntry: EntryId

    ghost function Contents(): State
      reads this
    {
      State(locks, entries, tasks)
    }

    ghost predicate Valid()
      reads this
    {
      Reachable(Contents()) && forall id <- entries :: id < nextEntry
    }

    constructor ()
      ensures Valid() && Contents() == EMPTY
    {
      locks, entries, tasks, nextEntry := map[], map[], map[], 0;
      assert IsRun(EMPTY, [], EMPTY);
    }

    /** `dispatch` up to the point where it has the lock or waits for it. */
    method Enter(t: Task, key: Key) returns (entered: bool)
      requires Valid() && t !in tasks
      modifies this
      ensures CanStep(old(Contents()), Event.Enter(t, key, old(nextEntry)))
      ensures Valid() && Contents() == Next(old(Contents()), Event.Enter(t, key, old(nextEntry)))
      ensures entered <==> tasks[t].Critical?
      ensures entered <==> !Wanted(old(Contents()), key)
    {
      ghost var before := Contents();
      CanAlwaysEnter(before, key);
      ReachableExtends(before, Event.Enter(t, key, nextEntry));
      var id, entry := nextEntry, Entry(0, None, []);
      if key in locks {
        id, entry := locks[key], entries[locks[key]];
      } else {
        locks := locks[key := id];
        nextEntry := nextEntry + 1;
      }
      entered := Free(entry, tasks);
      entry := entry.(users := entry.users + 1);
      if entered {
        entry := entry.(holder := Some(t));
        tasks := tasks[t := Critical(key, id)];
      } else {
        entry := entry.(waiters := entry.waiters + [t]);
        tasks := tasks[t := Waiting(key, id)];
      }
      entries := entries[id := entry];
      assert key in before.locks ==> locks == before.locks;
      assert Contents() == Next(before, Event.Enter(t, key, old(nextEntry)));
    }

    /** Releases the lock and leaves; the entry goes with its last user. */
    method Leave(t: Task)
      requires Valid() && t in tasks && tasks[t].Critical?
      modifies this
      ensures CanStep(old(Contents()), Event.Leave(t))
      ensures Valid() && Contents() == Next(old(Contents()), Event.Leave(t))
    {
      var key, id := tasks[t].key, tasks[t].entry;
      CanAlwaysLeave(Contents(), t);
      ReachableExtends(Contents(), Event.Leave(t));
      var entry := entries[id].(holder := None);
      entry := entry.(users := entry.users - 1);
      entries := entries[id := entry];
      tasks := tasks - {t};
      if entry.users == 0 {
        locks := locks - {key};
      }
    }
  }
}

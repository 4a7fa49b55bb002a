/** Lifecycle rules of a broadcast cycle, and the two renderers that read them: the header of the
    cycle's message and the reply notice posted under it for one event. */
module BroadcastStatus {
  import opened Wrappers

  datatype Action = LONG | SHORT | TP1 | TP2 | R_SL | SL | FLAT

  datatype Status = RUNNING | TP1 | CLOSED

  const CLOSING_ACTIONS: set<Action> := {Action.TP2, Action.SL, Action.R_SL, Action.FLAT}
  const PARTIAL_ACTIONS: set<Action> := {Action.TP1}

  function Rank(status: Status): nat {
    match status
    case RUNNING => 0
    case TP1 => 1
    case CLOSED => 2
  }

  /** A stored status; None stands for a value this revision does not recognise. */
  function AsStatus(stored: Option<Status>): Status {
    if stored.Some? then stored.value else RUNNING
  }

  function StatusForAction(action: Action): Status {
    if action in CLOSING_ACTIONS then CLOSED
    else if action in PARTIAL_ACTIONS then Status.TP1
    else RUNNING
  }

  function MergeStatus(current: Status, incoming: Status): Status {
    if Rank(incoming) < Rank(current) then current else incoming
  }

  /** What a cycle's row holds after these actions arrived in this order (`record_event`). */
  function Folded(actions: seq<Action>): Status {
    if actions == [] then RUNNING
    else MergeStatus(Folded(actions[..|actions| - 1]), StatusForAction(actions[|actions| - 1]))
  }

  /** An action that ends the trade is among them. */
  ghost predicate Ended(actions: seq<Action>) {
    Action.TP2 in actions || Action.SL in actions || Action.R_SL in actions || Action.FLAT in actions
  }

  /** What a cycle's status means: CLOSED once an action ended the trade, whatever comes after it; TP1
      once part was taken off and nothing ended it; RUNNING before. */
  lemma {:induction false} FoldedMeans(actions: seq<Action>)
    ensures Folded(actions).CLOSED? <==> Ended(actions)
    ensures Folded(actions).TP1? <==> !Ended(actions) && Action.TP1 in actions
  {
    if actions != [] {
      FoldedMeans(actions[..|actions| - 1]);
      assert actions == actions[..|actions| - 1] + [actions[|actions| - 1]];
    }
  }

  // ── The renderers ──────────────────────────────────────────────────

  /** The recognised actions of a stored event list; None is an action text of another revision. */
  function Recognised(events: seq<Option<Action>>): seq<Action> {
    if events == [] then []
    else
      var rest := Recognised(events[..|events| - 1]);
      if events[|events| - 1].Some? then rest + [events[|events| - 1].value] else rest
  }

  /** An event that ends the trade is among them. */
  ghost predicate EndedBy(events: seq<Option<Action>>) {
    Some(Action.TP2) in events || Some(Action.SL) in events || Some(Action.R_SL) in events || Some(Action.FLAT) in events
  }

  lemma {:induction false} RecognisedHas(events: seq<Option<Action>>, action: Action)
    ensures action in Recognised(events) <==> Some(action) in events
  {
    if events != [] {
      RecognisedHas(events[..|events| - 1], action);
      assert events == events[..|events| - 1] + [events[|events| - 1]];
    }
  }

  /** The fold of the recognised events, said of the events. */
  lemma EventsMean(events: seq<Option<Action>>)
    ensures Folded(Recognised(events)).CLOSED? <==> EndedBy(events)
    ensures Folded(Recognised(events)).TP1? <==> !EndedBy(events) && Some(Action.TP1) in events
    ensures Recognised(events) == [] <==> forall e <- events :: e.None?
  {
    FoldedMeans(Recognised(events));
    forall action: Action ensures action in Recognised(events) <==> Some(action) in events {
      RecognisedHas(events, action);
    }
    if Recognised(events) != [] {
      assert Some(Recognised(events)[0]) in events;
    }
  }

  lemma FoldedSnoc(actions: seq<Action>, action: Action)
    ensures Folded(actions + [action]) == MergeStatus(Folded(actions), StatusForAction(action))
  {
    assert (actions + [action])[..|actions|] == actions;
  }

  lemma RecognisedSnoc(events: seq<Option<Action>>, event: Option<Action>)
    ensures Recognised(events + [event]) == Recognised(events) + (if event.Some? then [event.value] else [])
  {
    assert (events + [event])[..|events|] == events;
  }

  /** Status of the cycle as of `events[index]`: the fold of the recognised actions so far, or the
      fallback when there is none. */
  function StatusAsOf(events: seq<Option<Action>>, index: nat, fallback: Status): Status
    requires index < |events|
  {
    var actions := Recognised(events[..index + 1]);
    if actions == [] then fallback else Folded(actions)
  }

  /** `_status_through`: one pass over the events, starting without a status. */
  method StatusThrough(events: seq<Option<Action>>, index: nat, fallback: Status) returns (r: Status)
    requires index < |events|
    ensures r == StatusAsOf(events, index, fallback)
  {
    var status: Option<Status> := None;
    var i := 0;
    while i <= index
      invariant 0 <= i <= index + 1
      invariant status == if Recognised(events[..i]) == [] then None else Some(Folded(Recognised(events[..i])))
    {
      RecognisedSnoc(events[..i], events[i]);
      assert events[..i + 1] == events[..i] + [events[i]];
      if events[i].Some? {
        var incoming := StatusForAction(events[i].value);
        FoldedSnoc(Recognised(events[..i]), events[i].value);
        status := Some(if status.None? then incoming else MergeStatus(status.value, incoming));
      }
      i := i + 1;
    }
    r := if status.Some? then status.value else fallback;
  }

  /** Status in the `[STATUS]` header of the message: CLOSED if the row says so or an event ended the
      trade, else TP1 if the row says so or part was taken off, else RUNNING. */
  method HeaderStatus(stored: Option<Status>, events: seq<Option<Action>>) returns (r: Status)
    ensures r == HeaderOf(stored, events)
    ensures r.CLOSED? <==> stored == Some(CLOSED) || EndedBy(events)
    ensures r.TP1? <==> stored != Some(CLOSED) && !EndedBy(events) && (stored == Some(Status.TP1) || Some(Action.TP1) in events)
  {
    r := AsStatus(stored);
    if events != [] {
      var through := StatusThrough(events, |events| - 1, r);
      r := MergeStatus(r, through);
      assert events[..|events| - 1 + 1] == events;
      EventsMean(events);
    }
  }

  function HeaderOf(stored: Option<Status>, events: seq<Option<Action>>): Status {
    var row := AsStatus(stored);
    if events == [] then row else MergeStatus(row, StatusAsOf(events, |events| - 1, row))
  }

  /** Status in the notice for `events[index]`; None when the index names no event. */
  method NoticeStatus(stored: Option<Status>, events: seq<Option<Action>>, index: int) returns (r: Option<Status>)
    ensures r == NoticeOf(stored, events, index)
    ensures r.None? <==> !(0 <= index < |events|)
    ensures r.Some? ==>
              var past := events[..index + 1];
              if forall e <- past :: e.None? then r.value == (if stored.Some? then stored.value else RUNNING)
              else && (r.value.CLOSED? <==> EndedBy(past))
                   && (r.value.TP1? <==> !EndedBy(past) && Some(Action.TP1) in past)
  {
    if index < 0 || index >= |events| {
      return None;
    }
    var through := StatusThrough(events, index, AsStatus(stored));
    r := Some(through);
    EventsMean(events[..index + 1]);
  }

  function NoticeOf(stored: Option<Status>, events: seq<Option<Action>>, index: int): Option<Status> {
    if 0 <= index < |events| then Some(StatusAsOf(events, index, AsStatus(stored))) else None
  }

  // ── The lifecycle only runs forward ────────────────────────────────

  /** `merge_status` is the join of the chain RUNNING < TP1 < CLOSED: CLOSED is terminal, TP1 sticky. */
  lemma MergeIsJoin(a: Status, b: Status, c: Status)
    ensures MergeStatus(a, b) == MergeStatus(b, a)
    ensures MergeStatus(a, MergeStatus(b, c)) == MergeStatus(MergeStatus(a, b), c)
    ensures MergeStatus(a, a) == a && MergeStatus(RUNNING, a) == a
    ensures MergeStatus(a, b).CLOSED? <==> a.CLOSED? || b.CLOSED?
    ensures MergeStatus(a, b).RUNNING? <==> a.RUNNING? && b.RUNNING?
    ensures Rank(MergeStatus(a, b)) >= Rank(a) && Rank(MergeStatus(a, b)) >= Rank(b)
  {
  }

  /** The fold is the furthest status any of the actions implies, and nothing further. */
  lemma {:induction false} FoldedIsFurthest(actions: seq<Action>)
    ensures forall a <- actions :: Rank(StatusForAction(a)) <= Rank(Folded(actions))
    ensures Folded(actions) == RUNNING || exists a <- actions :: StatusForAction(a) == Folded(actions)
  {
    if actions != [] {
      var last := actions[|actions| - 1];
      FoldedIsFurthest(actions[..|actions| - 1]);
      assert actions == actions[..|actions| - 1] + [last];
    }
  }

  /** Order and repetition of the actions do not matter: only which ones occurred. */
  lemma FoldedDependsOnSetOnly(left: seq<Action>, right: seq<Action>)
    requires forall a :: a in left <==> a in right
    ensures Folded(left) == Folded(right)
  {
    FoldedIsFurthest(left);
    FoldedIsFurthest(right);
  }

  /** A cycle never moves backwards; in particular CLOSED is terminal and TP1 is sticky. */
  lemma {:induction false} FoldedIsMonotone(actions: seq<Action>, more: seq<Action>)
    ensures Rank(Folded(actions)) <= Rank(Folded(actions + more))
    decreases |more|
  {
    if more == [] {
      assert actions + more == actions;
    } else {
      FoldedIsMonotone(actions, more[..|more| - 1]);
      assert (actions + more)[..|actions + more| - 1] == actions + more[..|more| - 1];
    }
  }

  lemma {:induction false} RecognisedConcat(events: seq<Option<Action>>, more: seq<Option<Action>>)
    ensures Recognised(events + more) == Recognised(events) + Recognised(more)
    decreases |more|
  {
    if more == [] {
      assert events + more == events;
    } else {
      RecognisedConcat(events, more[..|more| - 1]);
      assert (events + more)[..|events + more| - 1] == events + more[..|more| - 1];
    }
  }

  /** Notices never step back as the index grows, once the first recognised action has arrived or
      when the row itself has not moved yet. */
  lemma NoticesNeverStepBack(stored: Option<Status>, events: seq<Option<Action>>, i: nat, j: nat)
    requires i <= j < |events|
    requires Recognised(events[..i + 1]) != [] || AsStatus(stored).RUNNING?
    ensures Rank(NoticeOf(stored, events, i).value) <= Rank(NoticeOf(stored, events, j).value)
  {
    var early, late := events[..i + 1], events[i + 1..j + 1];
    assert events[..j + 1] == early + late;
    RecognisedConcat(early, late);
    FoldedIsMonotone(Recognised(early), Recognised(late));
  }

  /** When the row holds the fold of its own events, folding them again in the renderer changes
      nothing, and the header agrees with the notice for the last event. */
  lemma HeaderAgreesWithLastNotice(stored: Status, events: seq<Option<Action>>)
    requires events != [] && stored == Folded(Recognised(events))
    ensures HeaderOf(Some(stored), events) == stored
    ensures NoticeOf(Some(stored), events, |events| - 1) == Some(stored)
  {
    assert events[..|events| - 1 + 1] == events;
  }

  /** A row left behind by its events (written before TP1 had a status) is caught up by the
      header; a row ahead of them stays where it is. */
  lemma HeaderCatchesUp(stored: Option<Status>, events: seq<Option<Action>>)
    ensures Rank(HeaderOf(stored, events)) >= Rank(AsStatus(stored))
    ensures Rank(HeaderOf(stored, events)) >= Rank(Folded(Recognised(events)))
    ensures HeaderOf(stored, events) in {AsStatus(stored), Folded(Recognised(events))}
  {
    if events != [] {
      assert events[..|events| - 1 + 1] == events;
    }
  }
}

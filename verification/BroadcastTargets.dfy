/** Which chats a pass serves: the deployment's private ones, and the public ones of a setting that
    may fail to be read. */
module BroadcastTargets {
  import opened BroadcastLog
  import opened BroadcastDelivery
  import opened BroadcastPasses

  /** One entry of a chat-id setting: its text, and the id its chat row is stored under. Parsing an
      entry and putting it together again may give another text (a topic written with leading
      zeros). */
  datatype Entry = Entry(raw: string, chat: ChatId)

  /** What a pass reads from the settings table. */
  datatype Settings = Settings(silent: bool, replies: Replies, publicChats: seq<Entry>)

  /** What the code goes by when the read fails: nothing is set. */
  const UNSET := Settings(false, Replies(true, true), [])

  function Listed(audience: Audience, entries: seq<Entry>): (r: seq<(Audience, Entry)>)
    ensures |r| == |entries| && forall i | 0 <= i < |r| :: r[i] == (audience, entries[i])
  {
    seq(|entries|, i requires 0 <= i < |entries| => (audience, entries[i]))
  }

  predicate Seen(all: seq<(Audience, Entry)>, raw: string) {
    exists i :: 0 <= i < |all| && all[i].1.raw == raw
  }

  /** The first of each text, in order. */
  function Kept(all: seq<(Audience, Entry)>): seq<Target> {
    if all == [] then []
    else
      var n := |all| - 1;
      if Seen(all[..n], all[n].1.raw) then Kept(all[..n]) else Kept(all[..n]) + [Target(all[n].0, all[n].1.chat)]
  }

  lemma KeptSnoc(init: seq<(Audience, Entry)>, x: (Audience, Entry))
    ensures Kept(init + [x]) == if Seen(init, x.1.raw) then Kept(init) else Kept(init) + [Target(x.0, x.1.chat)]
  {
    assert (init + [x])[..|init|] == init;
  }

  lemma SeenSnoc(init: seq<(Audience, Entry)>, x: (Audience, Entry), raw: string)
    ensures Seen(init + [x], raw) <==> Seen(init, raw) || raw == x.1.raw
  {
    var all := init + [x];
    if Seen(init, raw) {
      var i :| 0 <= i < |init| && init[i].1.raw == raw;
      assert all[i].1.raw == raw;
    }
    assert all[|init|] == x;
  }

  /** `_targets`: private first; an entry listed twice is kept where it came first. */
  method Targets(privateChats: seq<Entry>, publicChats: seq<Entry>) returns (targets: seq<Target>)
    ensures targets == Kept(Listed(Private, privateChats) + Listed(Public, publicChats))
  {
    var all := Listed(Private, privateChats) + Listed(Public, publicChats);
    targets := [];
    var seen: set<string> := {};
    var i := 0;
    while i < |all|
      invariant 0 <= i <= |all|
      invariant targets == Kept(all[..i])
      invariant forall raw :: raw in seen <==> Seen(all[..i], raw)
    {
      assert all[..i + 1] == all[..i] + [all[i]];
      KeptSnoc(all[..i], all[i]);
      forall raw ensures raw in seen + {all[i].1.raw} <==> Seen(all[..i + 1], raw) {
        SeenSnoc(all[..i], all[i], raw);
      }
      if all[i].1.raw !in seen {
        targets := targets + [Target(all[i].0, all[i].1.chat)];
        seen := seen + {all[i].1.raw};
      }
      i := i + 1;
    }
    assert all[..|all|] == all;
  }

  /** A pass has no target exactly when nothing is listed. */
  lemma {:induction false} SomethingKept(all: seq<(Audience, Entry)>)
    ensures Kept(all) == [] <==> all == []
  {
    if all != [] {
      SomethingKept(all[..|all| - 1]);
    }
  }

  lemma NoTargets(privateChats: seq<Entry>, publicChats: seq<Entry>)
    ensures Kept(Listed(Private, privateChats) + Listed(Public, publicChats)) == [] <==> privateChats == [] && publicChats == []
  {
    SomethingKept(Listed(Private, privateChats) + Listed(Public, publicChats));
  }

  /** The entry at this place is the first of its text. */
  predicate IsFirst(all: seq<(Audience, Entry)>, i: nat)
    requires i < |all|
  {
    forall j | 0 <= j < i :: all[j].1.raw != all[i].1.raw
  }

  /** The targets are the first entries of their texts, all of them, in their order, each under the
      audience that lists it first. */
  ghost predicate AreFirst(all: seq<(Audience, Entry)>, targets: seq<Target>, places: seq<nat>) {
    && |places| == |targets|
    && (forall k | 0 <= k < |places| ::
          && places[k] < |all| && IsFirst(all, places[k])
          && targets[k].audience == all[places[k]].0 && targets[k].chat == all[places[k]].1.chat)
    && (forall j, k | 0 <= j < k < |places| :: places[j] < places[k])
    && (forall i | 0 <= i < |all| && IsFirst(all, i) :: i in places)
  }

  lemma FirstSnoc(init: seq<(Audience, Entry)>, x: (Audience, Entry))
    ensures forall i | 0 <= i < |init| :: IsFirst(init + [x], i) <==> IsFirst(init, i)
    ensures IsFirst(init + [x], |init|) <==> !Seen(init, x.1.raw)
  {
    var all := init + [x];
    assert forall i | 0 <= i < |init| :: all[i] == init[i];
    assert all[|init|] == x;
  }

  lemma AreFirstSnoc(init: seq<(Audience, Entry)>, x: (Audience, Entry), targets: seq<Target>, places: seq<nat>)
    requires AreFirst(init, targets, places)
    ensures if Seen(init, x.1.raw) then AreFirst(init + [x], targets, places)
            else AreFirst(init + [x], targets + [Target(x.0, x.1.chat)], places + [|init|])
  {
    var all := init + [x];
    FirstSnoc(init, x);
    assert forall i | 0 <= i < |init| :: all[i] == init[i];
    assert all[|init|] == x;
    if !Seen(init, x.1.raw) {
      var places' := places + [|init|];
      forall i | 0 <= i < |all| && IsFirst(all, i) ensures i in places' {
        assert i == |init| ==> places'[|places|] == i;
      }
    }
  }

  lemma {:induction false} KeptAreTheFirst(all: seq<(Audience, Entry)>) returns (places: seq<nat>)
    ensures AreFirst(all, Kept(all), places)
  {
    places := [];
    if all != [] {
      var init, x := all[..|all| - 1], all[|all| - 1];
      places := KeptAreTheFirst(init);
      assert all == init + [x];
      KeptSnoc(init, x);
      AreFirstSnoc(init, x, Kept(init), places);
      if !Seen(init, x.1.raw) {
        places := places + [|init|];
      }
    }
  }

  /** Private entries come first, so a chat listed for both audiences is a private one. */
  lemma PrivateComesFirst(privateChats: seq<Entry>, publicChats: seq<Entry>, i: nat)
    requires i < |privateChats| + |publicChats|
    ensures
      var all := Listed(Private, privateChats) + Listed(Public, publicChats);
      && all[i].0 == (if i < |privateChats| then Private else Public)
      && (IsFirst(all, i) && i >= |privateChats| ==> forall e <- privateChats :: e.raw != all[i].1.raw)
  {
    var all := Listed(Private, privateChats) + Listed(Public, publicChats);
    if IsFirst(all, i) && i >= |privateChats| {
      forall e <- privateChats ensures e.raw != all[i].1.raw {
        var j :| 0 <= j < |privateChats| && privateChats[j] == e;
        assert all[j].1 == e;
      }
    }
  }

  // ── When the targets are distinct ──────────────────────────────────

  predicate Lists(all: seq<(Audience, Entry)>, chat: ChatId) {
    exists i :: 0 <= i < |all| && all[i].1.chat == chat
  }

  predicate Serves(targets: seq<Target>, chat: ChatId) {
    exists k :: 0 <= k < |targets| && targets[k].chat == chat
  }

  /** An entry's text determines the id its row is stored under. */
  ghost predicate SameTextSameChat(all: seq<(Audience, Entry)>) {
    forall i, j | 0 <= i < |all| && 0 <= j < |all| && all[i].1.raw == all[j].1.raw :: all[i].1.chat == all[j].1.chat
  }

  /** No two entries of different text are stored under one id. */
  ghost predicate TellApart(all: seq<(Audience, Entry)>) {
    forall i, j | 0 <= i < |all| && 0 <= j < |all| && all[i].1.raw != all[j].1.raw :: all[i].1.chat != all[j].1.chat
  }

  lemma ListsSnoc(init: seq<(Audience, Entry)>, x: (Audience, Entry), chat: ChatId)
    ensures Lists(init + [x], chat) <==> Lists(init, chat) || chat == x.1.chat
  {
    var all := init + [x];
    if Lists(init, chat) {
      var i :| 0 <= i < |init| && init[i].1.chat == chat;
      assert all[i].1.chat == chat;
    }
    assert all[|init|] == x;
  }

  lemma ServesSnoc(init: seq<Target>, x: Target, chat: ChatId)
    ensures Serves(init + [x], chat) <==> Serves(init, chat) || chat == x.chat
  {
    var all := init + [x];
    if Serves(init, chat) {
      var i :| 0 <= i < |init| && init[i].chat == chat;
      assert all[i].chat == chat;
    }
    assert all[|init|] == x;
  }

  lemma DistinctSnoc(init: seq<Target>, x: Target)
    ensures Distinct(init + [x]) <==> Distinct(init) && !Serves(init, x.chat)
  {
    var all := init + [x];
    assert forall i | 0 <= i < |init| :: all[i] == init[i];
    assert all[|init|] == x;
  }

  /** Every chat listed is served, and no other. */
  lemma {:induction false} KeptChats(all: seq<(Audience, Entry)>, chat: ChatId)
    requires SameTextSameChat(all)
    ensures Lists(all, chat) <==> Serves(Kept(all), chat)
  {
    if all != [] {
      var init, x := all[..|all| - 1], all[|all| - 1];
      assert all == init + [x];
      KeptChats(init, chat);
      KeptSnoc(init, x);
      ListsSnoc(init, x, chat);
      ServesSnoc(Kept(init), Target(x.0, x.1.chat), chat);
      if Seen(init, x.1.raw) {
        var m :| 0 <= m < |init| && init[m].1.raw == x.1.raw;
        assert all[m].1.chat == x.1.chat && Lists(init, x.1.chat);
      }
    }
  }

  /** The targets of a pass are distinct exactly when different entries are different chats. */
  lemma {:induction false} TargetsAreDistinctIff(all: seq<(Audience, Entry)>)
    requires SameTextSameChat(all)
    ensures Distinct(Kept(all)) <==> TellApart(all)
  {
    if all != [] {
      var init, x := all[..|all| - 1], all[|all| - 1];
      assert all == init + [x];
      TargetsAreDistinctIff(init);
      KeptSnoc(init, x);
      KeptChats(init, x.1.chat);
      DistinctSnoc(Kept(init), Target(x.0, x.1.chat));
      TellApartSnoc(init, x);
    }
  }

  lemma TellApartSnoc(init: seq<(Audience, Entry)>, x: (Audience, Entry))
    requires SameTextSameChat(init + [x])
    ensures TellApart(init + [x]) <==> TellApart(init) && (Seen(init, x.1.raw) || !Lists(init, x.1.chat))
  {
    var all := init + [x];
    assert forall i | 0 <= i < |init| :: all[i] == init[i];
    assert all[|init|] == x;
    if Seen(init, x.1.raw) {
      var m :| 0 <= m < |init| && init[m].1.raw == x.1.raw;
      assert all[m].1.chat == x.1.chat;
    }
  }
}

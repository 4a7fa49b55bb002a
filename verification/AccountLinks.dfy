/** Who may drive which account: links, link tokens and every user's active account. One event is
    one database transaction, so a read that heals a session, and an unlink, are several. */
module AccountLinks {
  import opened Wrappers

  type AccountId = nat
  type UserId = nat
  type Token = nat

  datatype Account = Account(accountId: string, lastActivity: Option<nat>, createdAt: nat)
  datatype BotLink = BotLink(user: UserId, account: AccountId)
  datatype LinkToken = LinkToken(account: AccountId, revoked: bool, expiresAt: Option<nat>)

  datatype State = State(
    accounts: map<AccountId, Account>,
    links: set<BotLink>,
    sessions: map<UserId, Option<AccountId>>,
    tokens: map<Token, LinkToken>)

  const EMPTY := State(map[], {}, map[], map[])

  /** `Heal` and `Drop` are the writing transactions of a read that found no valid selection and of
      an unlink; the account they name was chosen in an earlier one. */
  datatype Event =
    | Create(account: AccountId, row: Account, invite: Option<Token>)
    | Trade(account: AccountId, now: nat)
    | LinkByToken(token: Token, user: UserId, now: nat)
    | LinkByAdmin(account: AccountId, user: UserId)
    | Switch(user: UserId, account: AccountId)
    | Heal(user: UserId, account: AccountId)
    | Drop(user: UserId, account: AccountId, next: Option<AccountId>)
    | Rotate(account: AccountId, token: Token)

  // ── Reading ────────────────────────────────────────────────────────

  /** The accounts a user is linked to. */
  function LinkedAccounts(s: State, u: UserId): set<AccountId> {
    set a | a in s.accounts && BotLink(u, a) in s.links
  }

  /** The database's order: latest activity first, and before all of them the accounts that never
      traded; equals by age. */
  predicate Precedes(a: Account, b: Account) {
    match (a.lastActivity, b.lastActivity)
    case (None, Some(_)) => true
    case (Some(_), None) => false
    case (None, None) => a.createdAt < b.createdAt
    case (Some(x), Some(y)) => x > y || (x == y && a.createdAt < b.createdAt)
  }

  predicate IsFirst(s: State, candidates: set<AccountId>, a: AccountId)
    requires candidates <= s.accounts.Keys
  {
    a in candidates && forall b <- candidates :: !Precedes(s.accounts[b], s.accounts[a])
  }

  /** First in order: it never traded if one of them never did, else none traded later; and none like it
      is older. */
  predicate HeadOf(s: State, candidates: set<AccountId>, a: AccountId)
    requires candidates <= s.accounts.Keys
  {
    && a in candidates
    && forall b <- candidates ::
         var x, y := s.accounts[a], s.accounts[b];
         && (y.lastActivity.None? ==> x.lastActivity.None?)
         && (x.lastActivity.Some? && y.lastActivity.Some? ==> y.lastActivity.value <= x.lastActivity.value)
         && (x.lastActivity == y.lastActivity ==> x.createdAt <= y.createdAt)
  }

  lemma FirstIsHead(s: State, candidates: set<AccountId>, a: AccountId)
    requires candidates <= s.accounts.Keys
    ensures IsFirst(s, candidates, a) <==> HeadOf(s, candidates, a)
  {
  }

  /** The selection a session holds, if the user still holds the account. */
  function Selected(s: State, u: UserId): Option<AccountId> {
    if u in s.sessions && s.sessions[u].Some? && s.sessions[u].value in LinkedAccounts(s, u) then s.sessions[u] else None
  }

  /** Which account a read answers with. */
  predicate Resolves(s: State, u: UserId, a: AccountId) {
    if Selected(s, u).Some? then Selected(s, u) == Some(a) else IsFirst(s, LinkedAccounts(s, u), a)
  }

  predicate TokenValid(s: State, t: Token, now: nat) {
    t in s.tokens && !s.tokens[t].revoked && (s.tokens[t].expiresAt.Some? ==> s.tokens[t].expiresAt.value > now)
  }

  // ── Writing ────────────────────────────────────────────────────────

  predicate CanStep(s: State, e: Event) {
    match e
    case Create(a, _, t) => a !in s.accounts && (t.Some? ==> t.value !in s.tokens)
    case Trade(a, _) => a in s.accounts
    case Heal(_, a) => a in s.accounts
    case Drop(u, a, next) =>
      a in s.accounts
      && var left := LinkedAccounts(s, u) - {a};
      if next.Some? then IsFirst(s, left, next.value) else left == {}
    case Rotate(a, t) => a in s.accounts && t !in s.tokens
    case _ => true
  }

  /** Adds the link; the account becomes active when the user has no selection yet. */
  function Linked(s: State, u: UserId, a: AccountId): State {
    s.(links := s.links + {BotLink(u, a)},
       sessions := if u !in s.sessions || s.sessions[u].None? then s.sessions[u := Some(a)] else s.sessions)
  }

  function Dropped(s: State, u: UserId, a: AccountId, next: Option<AccountId>): State {
    s.(links := s.links - {BotLink(u, a)},
       sessions := if u in s.sessions then s.sessions[u := next] else s.sessions)
  }

  /** Revokes every token of the account, unlinks all its users, clears the selections of it, and
      issues a new token. */
  function Rotated(s: State, a: AccountId, t: Token): State {
    State(s.accounts,
          set l | l in s.links && l.account != a,
          map u | u in s.sessions :: if s.sessions[u] == Some(a) then None else s.sessions[u],
          (map k | k in s.tokens :: if s.tokens[k].account == a then s.tokens[k].(revoked := true) else s.tokens[k])
            [t := LinkToken(a, false, None)])
  }

  function Next(s: State, e: Event): State
    requires CanStep(s, e)
  {
    match e
    case Create(a, row, t) =>
      s.(accounts := s.accounts[a := row],
         tokens := if t.Some? then s.tokens[t.value := LinkToken(a, false, None)] else s.tokens)
    case Trade(a, now) => s.(accounts := s.accounts[a := s.accounts[a].(lastActivity := Some(now))])
    case LinkByToken(t, u, now) => if TokenValid(s, t, now) && s.tokens[t].account in s.accounts then Linked(s, u, s.tokens[t].account) else s
    case LinkByAdmin(a, u) => if a in s.accounts then Linked(s, u, a) else s
    case Switch(u, a) => if a in LinkedAccounts(s, u) then s.(sessions := s.sessions[u := Some(a)]) else s
    case Heal(u, a) => s.(sessions := s.sessions[u := Some(a)])
    case Drop(u, a, next) => Dropped(s, u, a, next)
    case Rotate(a, t) => Rotated(s, a, t)
  }

  ghost predicate IsRun(s: State, events: seq<Event>, s': State)
    decreases |events|
  {
    if events == [] then s == s' else CanStep(s, events[0]) && IsRun(Next(s, events[0]), events[1..], s')
  }

  lemma {:induction false} RunExtends(s: State, events: seq<Event>, s': State, e: Event)
    requires IsRun(s, events, s') && CanStep(s', e)
    ensures IsRun(s, events + [e], Next(s', e))
    decreases |events|
  {
    if events == [] {
      assert [e][1..] == [];
    } else {
      RunExtends(Next(s, events[0]), events[1..], s', e);
      assert (events + [e])[1..] == events[1..] + [e];
    }
  }

  // ── Foreign keys and tokens ────────────────────────────────────────

  /** What every run keeps, healing or not: links and tokens name accounts that exist, and an
      account has at most one token that was not revoked. */
  ghost predicate Inv(s: State) {
    && (forall l <- s.links :: l.account in s.accounts)
    && (forall t <- s.tokens :: s.tokens[t].account in s.accounts)
    && (forall t1, t2 | t1 in s.tokens && t2 in s.tokens && !s.tokens[t1].revoked && !s.tokens[t2].revoked
                        && s.tokens[t1].account == s.tokens[t2].account :: t1 == t2)
  }

  /** A new account comes with a token that opens it and nobody holds it; a report only says when it
      last traded. */
  lemma NewAccountsAreClosed(s: State, a: AccountId, row: Account, t: Token, now: nat)
    requires Inv(s) && CanStep(s, Create(a, row, Some(t)))
    ensures
      var s' := Next(s, Create(a, row, Some(t)));
      && (forall k :: TokenValid(s', k, now) && s'.tokens[k].account == a <==> k == t)
      && (forall u :: a !in LinkedAccounts(s', u)) && s'.links == s.links && s'.sessions == s.sessions
      && (forall b | b in s.accounts :: s'.accounts[b] == s.accounts[b]) && s'.accounts[a] == row
      && Next(s', Trade(a, now)) == s'.(accounts := s'.accounts[a := Account(row.accountId, Some(now), row.createdAt)])
  {
  }

  lemma NextKeeps(s: State, e: Event)
    requires Inv(s) && CanStep(s, e)
    ensures Inv(Next(s, e))
  {
  }

  lemma {:induction false} RunKeeps(s: State, events: seq<Event>, s': State)
    requires Inv(s) && IsRun(s, events, s')
    ensures Inv(s')
    decreases |events|
  {
    if events != [] {
      NextKeeps(s, events[0]);
      RunKeeps(Next(s, events[0]), events[1..], s');
    }
  }

  lemma ReachableSound(events: seq<Event>, s: State)
    requires IsRun(EMPTY, events, s)
    ensures Inv(s)
  {
    RunKeeps(EMPTY, events, s);
  }

  // ── The active account ─────────────────────────────────────────────

  /** The session selects an account its user does not hold. */
  predicate Dangling(s: State, u: UserId) {
    u in s.sessions && s.sessions[u].Some? && BotLink(u, s.sessions[u].value) !in s.links
  }

  /** The writing half of a read whose answer was unlinked or rotated away in between. */
  predicate StaleHeal(s: State, e: Event) {
    e.Heal? && BotLink(e.user, e.account) !in s.links
  }

  /** No transaction but such a write leaves a user with a selection they do not hold. */
  lemma OnlyAStaleHealDangles(s: State, e: Event, u: UserId)
    requires CanStep(s, e) && !Dangling(s, u)
    ensures Dangling(Next(s, e), u) <==> StaleHeal(s, e) && e.user == u
  {
  }

  ghost predicate NoStaleHeal(s: State, events: seq<Event>)
    decreases |events|
  {
    events != [] ==>
      CanStep(s, events[0]) ==> !StaleHeal(s, events[0]) && NoStaleHeal(Next(s, events[0]), events[1..])
  }

  /** Over a run in which no read lost that race, every active account is one its user holds. */
  lemma {:induction false} ActiveIsAlwaysLinked(s: State, events: seq<Event>, s': State)
    requires IsRun(s, events, s') && NoStaleHeal(s, events)
    requires forall u :: !Dangling(s, u)
    ensures forall u :: !Dangling(s', u)
    decreases |events|
  {
    if events != [] {
      forall u ensures !Dangling(Next(s, events[0]), u) {
        OnlyAStaleHealDangles(s, events[0], u);
      }
      ActiveIsAlwaysLinked(Next(s, events[0]), events[1..], s');
    }
  }

  lemma OneStep(s: State, events: seq<Event>, mid: State, e: Event) returns (longer: seq<Event>, s': State)
    requires IsRun(s, events, mid) && CanStep(mid, e)
    ensures IsRun(s, longer, s') && longer == events + [e] && s' == Next(mid, e)
  {
    longer, s' := events + [e], Next(mid, e);
    RunExtends(s, events, mid, e);
  }

  /** A user with two accounts whose active one was rotated away: one link, and no selection. */
  lemma SelectionRotatedAway(row: Account) returns (events: seq<Event>, s: State)
    ensures IsRun(EMPTY, events, s) && LinkedAccounts(s, 7) == {1} && s.links == {BotLink(7, 1)}
    ensures s.sessions == map[7 := None] && 1 in s.accounts
  {
    events, s := OneStep(EMPTY, [], EMPTY, Create(1, row, None));
    events, s := OneStep(EMPTY, events, s, Create(2, row, None));
    events, s := OneStep(EMPTY, events, s, LinkByAdmin(2, 7));
    events, s := OneStep(EMPTY, events, s, LinkByAdmin(1, 7));
    events, s := OneStep(EMPTY, events, s, Rotate(2, 99));
  }

  /** The race, from an empty database. Two clients of that user: one reads, and would be answered
      account 1; the other unlinks it; the first then repairs the session with it. */
  lemma AReadCanLoseTheRace(row: Account) returns (events: seq<Event>, s: State, s': State)
    ensures IsRun(EMPTY, events, s) && Resolves(s, 7, 1)
    ensures CanStep(s, Drop(7, 1, None)) && CanStep(Next(s, Drop(7, 1, None)), Heal(7, 1))
    ensures s' == Next(Next(s, Drop(7, 1, None)), Heal(7, 1)) && IsRun(EMPTY, events + [Drop(7, 1, None), Heal(7, 1)], s')
    ensures Dangling(s', 7)
  {
    events, s := SelectionRotatedAway(row);
    assert LinkedAccounts(s, 7) - {1} == {};
    var longer;
    longer, s' := OneStep(EMPTY, events, s, Drop(7, 1, None));
    longer, s' := OneStep(EMPTY, longer, s', Heal(7, 1));
    assert longer == events + [Drop(7, 1, None), Heal(7, 1)];
  }

  lemma SomeAccountIsFirst(s: State, candidates: set<AccountId>) returns (a: AccountId)
    requires candidates <= s.accounts.Keys && candidates != {}
    ensures IsFirst(s, candidates, a)
    decreases candidates
  {
    a :| a in candidates;
    if b :| b in candidates && Precedes(s.accounts[b], s.accounts[a]) {
      assert b in candidates - {a};
      a := SomeAccountIsFirst(s, candidates - {a});
    }
  }

  /** Whatever a session holds, dangling included, a user with a link resolves to an account they
      hold, and one without resolves to nothing. */
  lemma ResolvesToALinkedAccount(s: State, u: UserId)
    ensures LinkedAccounts(s, u) != {} <==> exists a :: Resolves(s, u, a)
    ensures forall a | Resolves(s, u, a) :: a in LinkedAccounts(s, u)
  {
    if LinkedAccounts(s, u) != {} && Selected(s, u).None? {
      var a := SomeAccountIsFirst(s, LinkedAccounts(s, u));
      assert Resolves(s, u, a);
    } else if LinkedAccounts(s, u) != {} {
      assert Resolves(s, u, Selected(s, u).value);
    }
  }

  /** Linking alone does not repair a dangling selection: the new account is not the active one. */
  lemma LinkingLeavesADanglingSelection(s: State, u: UserId, a: AccountId)
    requires Dangling(s, u) && a in s.accounts && s.sessions[u] != Some(a)
    ensures Dangling(Next(s, LinkByAdmin(a, u)), u)
  {
  }

  /** An unlink takes exactly one link, of exactly this user, and leaves them with a selection they
      hold, or none when none is left. */
  lemma DropTakesOneLink(s: State, u: UserId, a: AccountId, next: Option<AccountId>)
    requires CanStep(s, Drop(u, a, next)) && a in LinkedAccounts(s, u)
    ensures
      var s' := Next(s, Drop(u, a, next));
      && LinkedAccounts(s', u) == LinkedAccounts(s, u) - {a}
      && (forall v | v != u :: LinkedAccounts(s', v) == LinkedAccounts(s, v))
      && (u in s.sessions ==> Selected(s', u) == next && (next.None? <==> LinkedAccounts(s', u) == {}))
      && (forall v | v != u :: Selected(s', v) == Selected(s, v))
  {
    var s' := Next(s, Drop(u, a, next));
    assert LinkedAccounts(s', u) == LinkedAccounts(s, u) - {a};
    forall v | v != u ensures LinkedAccounts(s', v) == LinkedAccounts(s, v) && Selected(s', v) == Selected(s, v) {
      assert forall b :: BotLink(v, b) in s'.links <==> BotLink(v, b) in s.links;
      assert LinkedAccounts(s', v) == LinkedAccounts(s, v);
    }
  }

  // ── Rotation ───────────────────────────────────────────────────────

  /** Exactly one token opens the account, nobody holds it and nobody has it selected; every other
      account keeps its links, selections and tokens. */
  lemma RotationResetsOneAccount(s: State, a: AccountId, t: Token, now: nat)
    requires CanStep(s, Rotate(a, t))
    ensures
      var s' := Next(s, Rotate(a, t));
      && (forall k :: TokenValid(s', k, now) && s'.tokens[k].account == a <==> k == t)
      && (forall u :: a !in LinkedAccounts(s', u) && (u in s'.sessions ==> s'.sessions[u] != Some(a)))
      && (forall u, b | b != a :: BotLink(u, b) in s'.links <==> BotLink(u, b) in s.links)
      && (forall u, b | b != a :: Selected(s', u) == Some(b) <==> Selected(s, u) == Some(b))
      && (forall k | k in s.tokens && s.tokens[k].account != a :: k in s'.tokens && s'.tokens[k] == s.tokens[k])
  {
  }

  /** What may give somebody access to `a` while `t` is its only secret. */
  predicate Grants(e: Event, a: AccountId, t: Token) {
    (e.LinkByAdmin? && e.account == a) || (e.LinkByToken? && e.token == t) || (e.Rotate? && e.account == a)
  }

  /** Only `t` still opens `a`. */
  ghost predicate OnlySecret(s: State, a: AccountId, t: Token) {
    && a in s.accounts && t in s.tokens
    && (forall k | k in s.tokens && s.tokens[k].account == a && k != t :: s.tokens[k].revoked)
  }

  /** After a rotation nobody drives the account again without an admin's link or the new token,
      whoever held it before and whatever old tokens are tried. */
  lemma {:induction false} AccessOnlyThroughTheNewToken(s: State, a: AccountId, t: Token, events: seq<Event>, s': State)
    requires OnlySecret(s, a, t) && (forall l <- s.links :: l.account != a)
    requires IsRun(s, events, s') && forall e <- events :: !Grants(e, a, t)
    ensures forall u :: a !in LinkedAccounts(s', u)
    decreases |events|
  {
    if events != [] {
      var next := Next(s, events[0]);
      assert events[0] in events;
      assert OnlySecret(next, a, t) && forall l <- next.links :: l.account != a;
      AccessOnlyThroughTheNewToken(next, a, t, events[1..], s');
    }
  }

  lemma AccessAfterRotation(s: State, a: AccountId, t: Token, events: seq<Event>, s': State, u: UserId)
    requires CanStep(s, Rotate(a, t)) && IsRun(Next(s, Rotate(a, t)), events, s')
    requires a in LinkedAccounts(s', u)
    ensures exists e :: e in events && Grants(e, a, t)
  {
    if forall e <- events :: !Grants(e, a, t) {
      AccessOnlyThroughTheNewToken(Next(s, Rotate(a, t)), a, t, events, s');
    }
  }
}

/** The account transactions where they overlap. The database isolates statements, not transactions,
    and no rows are locked: what a transaction writes may rest on reads that are no longer true when
    it commits. Here a commit carries what it read as parameters, and may find anything. */
module AccountRaces {
  import opened Wrappers
  import opened AccountLinks

  /** What a transaction writes when it commits:
      a link, and the session if it had read no selection;
      a selection (a switch, or the repair of a read);
      the end of a link, and the session, if it had read one, moved on;
      a rotation, with the tokens, links and sessions it had found. */
  datatype Commit =
    | Linking(user: UserId, account: AccountId, selects: bool)
    | Selecting(user: UserId, account: AccountId)
    | Unlinking(user: UserId, account: AccountId, moves: bool, next: Option<AccountId>)
    | Rotating(account: AccountId, token: Token, revoked: set<Token>, unlinked: set<BotLink>, cleared: set<UserId>)

  function Applied(s: State, c: Commit): State {
    match c
    case Linking(u, a, selects) =>
      s.(links := s.links + {BotLink(u, a)}, sessions := if selects then s.sessions[u := Some(a)] else s.sessions)
    case Selecting(u, a) => s.(sessions := s.sessions[u := Some(a)])
    case Unlinking(u, a, moves, next) =>
      s.(links := s.links - {BotLink(u, a)}, sessions := if moves then s.sessions[u := next] else s.sessions)
    case Rotating(a, t, revoked, unlinked, cleared) =>
      State(s.accounts,
            s.links - unlinked,
            map u | u in s.sessions :: if u in cleared then None else s.sessions[u],
            (map k | k in s.tokens :: if k in revoked then s.tokens[k].(revoked := true) else s.tokens[k])
              [t := LinkToken(a, false, None)])
  }

  // ── One at a time ──────────────────────────────────────────────────

  /** What a transaction commits that nothing overlaps. */
  function CommitOf(s: State, e: Event): Option<Commit> {
    match e
    case LinkByToken(t, u, now) =>
      if TokenValid(s, t, now) && s.tokens[t].account in s.accounts
      then Some(Linking(u, s.tokens[t].account, u !in s.sessions || s.sessions[u].None?)) else None
    case LinkByAdmin(a, u) => if a in s.accounts then Some(Linking(u, a, u !in s.sessions || s.sessions[u].None?)) else None
    case Switch(u, a) => if a in LinkedAccounts(s, u) then Some(Selecting(u, a)) else None
    case Heal(u, a) => Some(Selecting(u, a))
    case Drop(u, a, next) => Some(Unlinking(u, a, u in s.sessions, next))
    case Rotate(a, t) =>
      Some(Rotating(a, t,
                    set k | k in s.tokens && s.tokens[k].account == a,
                    set l | l in s.links && l.account == a,
                    set u | u in s.sessions && s.sessions[u] == Some(a)))
    case _ => None
  }

  /** The transactions of `AccountLinks` are those commits. */
  lemma IsolatedCommits(s: State, e: Event)
    requires CanStep(s, e) && !e.Create? && !e.Trade?
    ensures Next(s, e) == if CommitOf(s, e).Some? then Applied(s, CommitOf(s, e).value) else s
  {
    if e.Rotate? {
      var s', r := Applied(s, CommitOf(s, e).value), Rotated(s, e.account, e.token);
      assert s'.links == r.links;
      assert s'.sessions == r.sessions;
      assert s'.tokens == r.tokens;
    }
  }

  // ── Selections ─────────────────────────────────────────────────────

  /** The commit was overtaken, to the harm of user `u`:
      it selects an account that was unlinked since;
      it moves on to such an account, or had read no session and one selects by now what it ends;
      it ends the link of a session that selected the account after it had looked. */
  ghost predicate Overtaken(s: State, c: Commit, u: UserId) {
    match c
    case Linking(_, _, _) => false
    case Selecting(v, a) => u == v && BotLink(u, a) !in s.links
    case Unlinking(v, a, moves, next) =>
      u == v && if moves then next.Some? && (next.value == a || BotLink(u, next.value) !in s.links)
                else u in s.sessions && s.sessions[u] == Some(a)
    case Rotating(_, _, _, unlinked, cleared) =>
      u in s.sessions && s.sessions[u].Some? && BotLink(u, s.sessions[u].value) in unlinked && u !in cleared
  }

  /** A commit leaves a user with a selection they do not hold if and only if it was overtaken. */
  lemma OnlyOvertakenCommitsDangle(s: State, c: Commit, u: UserId)
    requires !Dangling(s, u)
    ensures Dangling(Applied(s, c), u) <==> Overtaken(s, c, u)
  {
  }

  /** One that nothing overlaps is never overtaken, but for the repair of a read, which is two
      transactions. */
  lemma IsolatedIsNeverOvertaken(s: State, e: Event, u: UserId)
    requires CanStep(s, e) && CommitOf(s, e).Some? && !StaleHeal(s, e) && !Dangling(s, u)
    ensures !Overtaken(s, CommitOf(s, e).value, u)
  {
    OnlyAStaleHealDangles(s, e, u);
    IsolatedCommits(s, e);
    OnlyOvertakenCommitsDangle(s, CommitOf(s, e).value, u);
  }

  function AppliedAll(s: State, commits: seq<Commit>): State
    decreases |commits|
  {
    if commits == [] then s else AppliedAll(Applied(s, commits[0]), commits[1..])
  }

  ghost predicate NoneOvertaken(s: State, commits: seq<Commit>)
    decreases |commits|
  {
    commits != [] ==> (forall u :: !Overtaken(s, commits[0], u)) && NoneOvertaken(Applied(s, commits[0]), commits[1..])
  }

  /** Over any sequence of commits none of which was overtaken, every selection stays one its user
      holds. */
  lemma {:induction false} ActiveStaysLinked(s: State, commits: seq<Commit>)
    requires (forall u :: !Dangling(s, u)) && NoneOvertaken(s, commits)
    ensures forall u :: !Dangling(AppliedAll(s, commits), u)
    decreases |commits|
  {
    if commits != [] {
      forall u ensures !Dangling(Applied(s, commits[0]), u) {
        OnlyOvertakenCommitsDangle(s, commits[0], u);
      }
      ActiveStaysLinked(Applied(s, commits[0]), commits[1..]);
    }
  }

  // ── Tokens ─────────────────────────────────────────────────────────

  /** A rotation leaves its new token as the only one that opens the account if and only if it had
      found every other one that was open when it committed. */
  lemma OneTokenIff(s: State, c: Commit)
    requires c.Rotating? && c.token !in s.tokens
    ensures
      var s' := Applied(s, c);
      (forall k | k in s'.tokens && s'.tokens[k].account == c.account && !s'.tokens[k].revoked :: k == c.token)
      <==> (forall k | k in s.tokens && s.tokens[k].account == c.account && !s.tokens[k].revoked :: k in c.revoked)
  {
    var s' := Applied(s, c);
    forall k | k in s.tokens ensures k in s'.tokens && k != c.token && s'.tokens[k].account == s.tokens[k].account
                                     && s'.tokens[k].revoked == (k in c.revoked || s.tokens[k].revoked)
    {
    }
  }

  // ── Links ──────────────────────────────────────────────────────────

  /** The commit takes this link away. */
  predicate Ends(c: Commit, l: BotLink) {
    match c
    case Unlinking(u, a, _, _) => l == BotLink(u, a)
    case Rotating(_, _, _, unlinked, _) => l in unlinked
    case _ => false
  }

  ghost predicate NeverEnded(commits: seq<Commit>, from: nat, l: BotLink) {
    forall j | from <= j < |commits| :: !Ends(commits[j], l)
  }

  /** One of the commits makes the link, and none after it ends it. */
  ghost predicate LinkedToStay(commits: seq<Commit>, l: BotLink) {
    exists i :: 0 <= i < |commits| && commits[i].Linking? && l == BotLink(commits[i].user, commits[i].account) && NeverEnded(commits, i + 1, l)
  }

  /** Splitting the first commit off. */
  lemma LinkedFirst(commits: seq<Commit>, l: BotLink)
    requires commits != []
    ensures NeverEnded(commits, 0, l) <==> !Ends(commits[0], l) && NeverEnded(commits[1..], 0, l)
    ensures LinkedToStay(commits, l) <==>
              || (commits[0].Linking? && l == BotLink(commits[0].user, commits[0].account) && NeverEnded(commits[1..], 0, l))
              || LinkedToStay(commits[1..], l)
  {
    var rest := commits[1..];
    assert forall i | 0 <= i < |rest| :: rest[i] == commits[i + 1];
    assert forall i: nat :: NeverEnded(rest, i, l) <==> NeverEnded(commits, i + 1, l) by {
      forall i: nat ensures NeverEnded(rest, i, l) <==> NeverEnded(commits, i + 1, l) {
        assert NeverEnded(rest, i, l) ==> forall j | i + 1 <= j < |commits| :: commits[j] == rest[j - 1];
      }
    }
    if LinkedToStay(rest, l) {
      var i :| 0 <= i < |rest| && rest[i].Linking? && l == BotLink(rest[i].user, rest[i].account) && NeverEnded(rest, i + 1, l);
      assert NeverEnded(commits, i + 2, l) && commits[i + 1] == rest[i];
    }
    if LinkedToStay(commits, l) {
      var i :| 0 <= i < |commits| && commits[i].Linking? && l == BotLink(commits[i].user, commits[i].account) && NeverEnded(commits, i + 1, l);
      if i > 0 {
        assert NeverEnded(rest, i, l) && rest[i - 1] == commits[i];
      }
    }
  }

  /** Over any sequence of commits, whatever they had read, a link is there at the end if and only if
      it was there and is never ended, or is made and not ended again. */
  lemma {:induction false} LinkedIff(s: State, commits: seq<Commit>, l: BotLink)
    ensures AppliedAll(s, commits).accounts == s.accounts
    ensures l in AppliedAll(s, commits).links <==> (l in s.links && NeverEnded(commits, 0, l)) || LinkedToStay(commits, l)
    decreases |commits|
  {
    if commits != [] {
      LinkedFirst(commits, l);
      LinkedIff(Applied(s, commits[0]), commits[1..], l);
    }
  }

  /** Who holds an account after a rotation of it and whatever commits later: those whose link the
      rotation had not found and nobody ended since, and those linked after it, by whichever token or
      admin, and not unlinked again. */
  lemma HoldersAfterRotationIff(s: State, rotation: Commit, later: seq<Commit>, u: UserId)
    requires rotation.Rotating? && rotation.account in s.accounts
    ensures
      var s', l := AppliedAll(Applied(s, rotation), later), BotLink(u, rotation.account);
      rotation.account in LinkedAccounts(s', u)
      <==> (l in s.links && l !in rotation.unlinked && NeverEnded(later, 0, l)) || LinkedToStay(later, l)
  {
    var l := BotLink(u, rotation.account);
    LinkedIff(Applied(s, rotation), later, l);
  }

  // ── What can happen ────────────────────────────────────────────────

  /** A user with two accounts, the first active, and a token for the second. */
  lemma TwoAccounts(row: Account) returns (events: seq<Event>, s: State)
    ensures IsRun(EMPTY, events, s) && s.accounts.Keys == {1, 2} && s.links == {BotLink(7, 1), BotLink(7, 2)}
    ensures s.sessions == map[7 := Some(1)] && s.tokens == map[50 := LinkToken(2, false, None)]
  {
    events, s := OneStep(EMPTY, [], EMPTY, Create(1, row, None));
    events, s := OneStep(EMPTY, events, s, Create(2, row, Some(50)));
    events, s := OneStep(EMPTY, events, s, LinkByAdmin(1, 7));
    events, s := OneStep(EMPTY, events, s, LinkByAdmin(2, 7));
  }

  /** A switch to the second account checks the link, a rotation of that account commits, and then the
      switch does. */
  lemma SwitchOvertakenByRotation(row: Account) returns (events: seq<Event>, s: State, c: Commit)
    ensures IsRun(EMPTY, events, s) && CommitOf(s, Switch(7, 2)) == Some(c) && CanStep(s, Rotate(2, 99))
    ensures Dangling(Applied(Next(s, Rotate(2, 99)), c), 7)
  {
    events, s := TwoAccounts(row);
    c := Selecting(7, 2);
    assert 2 in LinkedAccounts(s, 7);
  }

  /** Two rotations of one account that overlap leave both new tokens open. */
  lemma TwoRotationsLeaveTwoTokens(row: Account) returns (events: seq<Event>, s: State, c: Commit)
    ensures IsRun(EMPTY, events, s) && CommitOf(s, Rotate(2, 98)) == Some(c) && CanStep(s, Rotate(2, 99))
    ensures
      var s' := Applied(Next(s, Rotate(2, 99)), c);
      TokenValid(s', 98, 0) && TokenValid(s', 99, 0) && s'.tokens[98].account == 2 == s'.tokens[99].account
  {
    events, s := TwoAccounts(row);
    c := CommitOf(s, Rotate(2, 98)).value;
  }

  /** A link by the old token that commits after the rotation: somebody drives the account without
      the new token or an admin's link. */
  lemma OldTokenLinksAfterRotation(row: Account) returns (events: seq<Event>, s: State, c: Commit)
    ensures IsRun(EMPTY, events, s) && CommitOf(s, LinkByToken(50, 8, 0)) == Some(c) && CanStep(s, Rotate(2, 99))
    ensures
      var s' := Applied(Next(s, Rotate(2, 99)), c);
      !TokenValid(s', 50, 0) && 2 in LinkedAccounts(s', 8)
  {
    events, s := TwoAccounts(row);
    c := CommitOf(s, LinkByToken(50, 8, 0)).value;
  }
}

/** `SqlAlchemyAccountRepository` as the code writes it, one transaction at a time. Between the
    transactions of one call others may run; every method is proved to walk a run of the machine in
    `AccountLinks`. */
module AccountRepository {
  import opened Wrappers
  import opened AccountLinks

  class SqlAlchemyAccountRepository {
    var accounts: map<AccountId, Account>
    var links: set<BotLink>
    var sessions: map<UserId, Option<AccountId>>
    var tokens: map<Token, LinkToken>

    ghost var trace: seq<Event>

    function Contents(): State
      reads this
    {
      State(accounts, links, sessions, tokens)
    }

    ghost predicate Valid()
      reads this
    {
      IsRun(EMPTY, trace, Contents())
    }

    constructor ()
      ensures Valid() && Contents() == EMPTY
    {
      accounts, links, sessions, tokens, trace := map[], {}, map[], map[], [];
    }

    /** Records in the history that the transaction `e` took the tables from `before` to here. */
    ghost method Record(before: State, e: Event)
      requires IsRun(EMPTY, trace, before) && CanStep(before, e) && Contents() == Next(before, e)
      modifies this`trace
      ensures Valid() && trace == old(trace) + [e]
    {
      RunExtends(EMPTY, trace, before, e);
      trace := trace + [e];
    }

    /** A transaction of somebody else. */
    method Other(e: Event)
      requires Valid() && CanStep(Contents(), e)
      modifies this
      ensures Valid() && Contents() == Next(old(Contents()), e) && trace == old(trace) + [e]
    {
      var s := Next(Contents(), e);
      ghost var before := Contents();
      accounts, links, sessions, tokens := s.accounts, s.links, s.sessions, s.tokens;
      Record(before, e);
    }

    /** What others do between two transactions of one call: nothing, or any of their own. */
    method Meanwhile(alone: bool)
      requires Valid()
      modifies this
      ensures Valid() && old(trace) <= trace && (alone ==> Contents() == old(Contents()))
      ensures old(accounts.Keys) <= accounts.Keys
    {
      var n: nat := *;
      while n > 0
        invariant Valid() && old(trace) <= trace && (alone ==> Contents() == old(Contents()))
        invariant old(accounts.Keys) <= accounts.Keys
      {
        var e: Event := *;
        if !alone && CanStep(Contents(), e) {
          Other(e);
        }
        n := n - 1;
      }
    }

    /** The user gained this link and nobody lost one; the account became active if the user had none,
        and nothing else changed. */
    predicate LinkAdded(before: State, u: UserId, a: AccountId)
      reads this
    {
      && accounts == before.accounts && tokens == before.tokens && links == before.links + {BotLink(u, a)}
      && (if u in before.sessions && before.sessions[u].Some? then sessions == before.sessions
          else sessions == before.sessions[u := Some(a)])
    }

    /** The link and, when the user has no selection yet, the selection. */
    method AddLink(u: UserId, a: AccountId)
      modifies this`links, this`sessions
      ensures Contents() == Linked(old(Contents()), u, a)
      ensures LinkAdded(old(Contents()), u, a)
    {
      links := links + {BotLink(u, a)};
      if u !in sessions {
        sessions := sessions[u := Some(a)];
      } else if sessions[u].None? {
        sessions := sessions[u := Some(a)];
      }
    }

    method LinkTelegram(t: Token, u: UserId, now: nat, db: Db) returns (r: Option<AccountId>)
      requires Valid()
      modifies this
      ensures Valid() && old(trace) <= trace
      ensures Contents() == if db.Aborts? then old(Contents()) else Next(old(Contents()), LinkByToken(t, u, now))
      ensures
        var opens := t in old(tokens) && !old(tokens)[t].revoked && old(tokens)[t].account in old(accounts)
                     && (old(tokens)[t].expiresAt.Some? ==> now < old(tokens)[t].expiresAt.value);
        && r == (if opens && db.Commits? then Some(old(tokens)[t].account) else None)
        && (if opens && !db.Aborts? then LinkAdded(old(Contents()), u, old(tokens)[t].account) else Contents() == old(Contents()))
    {
      if db.Aborts? {
        return None;
      }
      ghost var before := Contents();
      if !TokenValid(Contents(), t, now) {
        Record(before, LinkByToken(t, u, now));
        return None;
      }
      var a := tokens[t].account;
      if a !in accounts {
        Record(before, LinkByToken(t, u, now));
        return None;
      }
      AddLink(u, a);
      Record(before, LinkByToken(t, u, now));
      return if db.Commits? then Some(a) else None;
    }

    method AdminLinkTelegram(a: AccountId, u: UserId, db: Db) returns (r: Option<AccountId>)
      requires Valid()
      modifies this
      ensures Valid() && old(trace) <= trace
      ensures Contents() == if db.Aborts? then old(Contents()) else Next(old(Contents()), LinkByAdmin(a, u))
      ensures r == if db.Commits? && a in old(accounts) then Some(a) else None
      ensures if a in old(accounts) && !db.Aborts? then LinkAdded(old(Contents()), u, a) else Contents() == old(Contents())
    {
      if db.Aborts? {
        return None;
      }
      ghost var before := Contents();
      if a !in accounts {
        Record(before, LinkByAdmin(a, u));
        return None;
      }
      AddLink(u, a);
      Record(before, LinkByAdmin(a, u));
      return if db.Commits? then Some(a) else None;
    }

    method SetActiveAccount(u: UserId, a: AccountId, db: Db) returns (r: Option<AccountId>)
      requires Valid()
      modifies this
      ensures Valid() && old(trace) <= trace
      ensures Contents() == if db.Aborts? then old(Contents()) else Next(old(Contents()), Switch(u, a))
      ensures r == if db.Commits? && a in old(accounts) && BotLink(u, a) in old(links) then Some(a) else None
      ensures accounts == old(accounts) && links == old(links) && tokens == old(tokens)
      ensures sessions == if a in old(accounts) && BotLink(u, a) in old(links) && !db.Aborts? then old(sessions)[u := Some(a)] else old(sessions)
    {
      if db.Aborts? {
        return None;
      }
      ghost var before := Contents();
      if a !in LinkedAccounts(Contents(), u) {
        Record(before, Switch(u, a));
        return None;
      }
      sessions := sessions[u := Some(a)];
      Record(before, Switch(u, a));
      return if db.Commits? then Some(a) else None;
    }

    /** The head of the ordered query over `candidates`: one that never traded if there is any, else the
        one whose last trade is the latest; of equals the oldest. */
    method First(candidates: set<AccountId>) returns (a: AccountId)
      requires candidates != {} && candidates <= accounts.Keys
      ensures IsFirst(Contents(), candidates, a) && HeadOf(Contents(), candidates, a)
    {
      a :| a in candidates;
      var rest := candidates - {a};
      while rest != {}
        invariant rest <= candidates && a in candidates - rest
        invariant forall b <- candidates - rest :: !Precedes(accounts[b], accounts[a])
        decreases rest
      {
        var b :| b in rest;
        if Precedes(accounts[b], accounts[a]) {
          a := b;
        }
        rest := rest - {b};
      }
      assert candidates - rest == candidates;
    }

    /** The active account. A selection that is missing or no longer held is replaced by the first
        account in order, and the session repaired if that works. */
    method GetActiveAccount(u: UserId, readFails: bool, listFails: bool, heal: Db, alone: bool) returns (r: Option<AccountId>)
      requires Valid()
      modifies this
      ensures Valid() && old(trace) <= trace && (r.Some? ==> r.value in accounts)
      ensures alone ==> r.Some? ==> Resolves(old(Contents()), u, r.value) && r.value in LinkedAccounts(Contents(), u)
      ensures
        var selects := u in old(sessions) && old(sessions)[u].Some? && old(sessions)[u].value in old(accounts)
                       && BotLink(u, old(sessions)[u].value) in old(links);
        && (selects && !readFails ==> r == old(sessions)[u] && Contents() == old(Contents()))
        && (alone && !selects && r.Some? ==>
              && HeadOf(old(Contents()), LinkedAccounts(old(Contents()), u), r.value)
              && accounts == old(accounts) && links == old(links) && tokens == old(tokens)
              && sessions == if heal.Aborts? then old(sessions) else old(sessions)[u := r])
        && (readFails ==> r.None?) && (r.None? && alone ==> Contents() == old(Contents()))
      ensures alone && !readFails && !listFails ==> (r.None? <==> LinkedAccounts(old(Contents()), u) == {})
      ensures alone ==> Contents() == old(Contents()) || (r.Some? && Contents() == Next(old(Contents()), Heal(u, r.value)))
      ensures alone && r.Some? && heal.Commits? ==> Selected(Contents(), u) == r
    {
      if readFails {
        return None;
      }
      var selected := Selected(Contents(), u);
      if selected.Some? {
        return selected;
      }
      Meanwhile(alone);
      if listFails {
        return None;
      }
      var linked := LinkedAccounts(Contents(), u);
      if linked == {} {
        return None;
      }
      var fallback := First(linked);
      Meanwhile(alone);
      if !heal.Aborts? {
        ghost var before := Contents();
        sessions := sessions[u := Some(fallback)];
        Record(before, Heal(u, fallback));
      }
      return Some(fallback);
    }

    /** Drops this user's link to their active account. */
    method UnlinkTelegram(u: UserId, readFails: bool, listFails: bool, heal: Db, db: Db, alone: bool) returns (changed: bool)
      requires Valid()
      modifies this
      ensures Valid() && old(trace) <= trace
      ensures alone && changed ==>
                exists a :: Resolves(old(Contents()), u, a)
                  && LinkedAccounts(Contents(), u) == LinkedAccounts(old(Contents()), u) - {a}
                  && forall v | v != u :: LinkedAccounts(Contents(), v) == LinkedAccounts(old(Contents()), v)
      ensures alone && changed && !Dangling(old(Contents()), u) ==> !Dangling(Contents(), u)
      ensures alone && !changed && !readFails && !listFails && db.Commits? ==> LinkedAccounts(old(Contents()), u) == {}
    {
      var active := GetActiveAccount(u, readFails, listFails, heal, alone);
      if active.None? {
        return false;
      }
      ghost var resolved := Contents();
      Meanwhile(alone);
      if db.Aborts? {
        return false;
      }
      DropLink(u, active.value);
      if alone {
        ResolvesToALinkedAccount(old(Contents()), u);
      }
      return db.Commits?;
    }

    /** The writing transaction of an unlink: the link goes, the session moves on. */
    method DropLink(u: UserId, a: AccountId)
      requires Valid() && a in accounts
      modifies this
      ensures Valid() && old(trace) <= trace && !Dangling(Contents(), u)
      ensures LinkedAccounts(Contents(), u) == LinkedAccounts(old(Contents()), u) - {a}
      ensures forall v | v != u :: LinkedAccounts(Contents(), v) == LinkedAccounts(old(Contents()), v)
      ensures accounts == old(accounts) && tokens == old(tokens) && links == old(links) - {BotLink(u, a)}
      ensures u !in old(sessions) ==> sessions == old(sessions)
      ensures u in old(sessions) ==>
                && u in sessions && sessions == old(sessions)[u := sessions[u]]
                && (sessions[u].None? <==> LinkedAccounts(old(Contents()), u) <= {a})
                && (sessions[u].Some? ==> HeadOf(Contents(), LinkedAccounts(Contents(), u), sessions[u].value))
    {
      ghost var before := Contents();
      links := links - {BotLink(u, a)};
      var remaining := LinkedAccounts(Contents(), u) - {a};
      assert remaining == LinkedAccounts(before, u) - {a};
      var next: Option<AccountId> := None;
      if remaining != {} {
        var first := First(remaining);
        next := Some(first);
      }
      if u in sessions {
        sessions := sessions[u := next];
      }
      Record(before, Drop(u, a, next));
      forall v | v != u ensures LinkedAccounts(Contents(), v) == LinkedAccounts(before, v) {
        assert forall b :: BotLink(v, b) in links <==> BotLink(v, b) in before.links;
      }
    }

    /** Revokes the tokens, removes the links, clears the selections, and adds the new token. */
    method ResetAccess(a: AccountId, t: Token)
      modifies this`tokens, this`links, this`sessions
      ensures Contents() == Rotated(old(Contents()), a, t)
    {
      tokens := map k | k in tokens :: if tokens[k].account == a then tokens[k].(revoked := true) else tokens[k];
      links := set l | l in links && l.account != a;
      sessions := map v | v in sessions :: if sessions[v] == Some(a) then None else sessions[v];
      tokens := tokens[t := LinkToken(a, false, None)];
    }

    /** Issues a new token and resets who may drive the account. Which account, when several share
        the bare id, is the database's choice. */
    method RotateLinkToken(accountId: string, t: Token, db: Db) returns (r: Option<Token>, ghost a: AccountId)
      requires Valid() && t !in tokens
      modifies this
      ensures Valid() && old(trace) <= trace
      ensures r.Some? ==> r.value == t && a in accounts && accounts[a].accountId == accountId
                          && Contents() == Rotated(old(Contents()), a, t)
      ensures db.Commits? ==> (r.None? <==> forall b <- accounts :: accounts[b].accountId != accountId)
      ensures r.None? && !db.ReplyLost? ==> Contents() == old(Contents())
    {
      r, a := None, 0;
      var matching := set b | b in accounts && accounts[b].accountId == accountId;
      if db.Aborts? || matching == {} {
        assert db.Commits? ==> forall b <- accounts :: b !in matching;
        return;
      }
      var account :| account in matching;
      a := account;
      ghost var before := Contents();
      ResetAccess(account, t);
      Record(before, Rotate(account, t));
      if db.Commits? {
        r := Some(t);
      }
    }
  }
}

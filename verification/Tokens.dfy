/** Refresh-token families: rotation, reuse detection, logout and password reset. */
module Tokens {
  import opened Base

  const REFRESH_TTL := 30 * 24 * 3600

  type Hash = int
  type UserId = int
  type FamilyId = int

  datatype Token = Token(user: UserId, family: FamilyId, expires: int, revoked: bool)

  type Table = map<Hash, Token>

  // ---------- Statements ----------

  function Revoke(t: Table, h: Hash): Table {
    if h in t then t[h := t[h].(revoked := true)] else t
  }

  function RevokeFamily(t: Table, family: FamilyId): Table {
    map h | h in t :: if t[h].family == family then t[h].(revoked := true) else t[h]
  }

  function RevokeUser(t: Table, user: UserId): Table {
    map h | h in t :: if t[h].user == user then t[h].(revoked := true) else t[h]
  }

  function Issue(t: Table, h: Hash, user: UserId, family: FamilyId, now: int): Table {
    t[h := Token(user, family, now + REFRESH_TTL, false)]
  }

  /** The rotation transaction, on the token read before it began. */
  function Rotate(t: Table, h: Hash, novel: Hash, now: int): Table
    requires h in t
  {
    Issue(Revoke(t, h), novel, t[h].user, t[h].family, now)
  }

  // ---------- Serial runs ----------

  /** `novel` is the hash of a newly generated token; a login also starts a new family. */
  datatype Call =
    | Login(novel: Hash, user: UserId, family: FamilyId)
    | Refresh(hash: Hash, novel: Hash, userExists: bool)
    | Logout(hash: Hash)
    | ResetPassword(user: UserId)

  datatype Served = Served(table: Table, reply: Result<()>)

  function Serve(t: Table, c: Call, now: int): Served {
    match c
    case Login(novel, user, family) => Served(Issue(t, novel, user, family, now), Ok(()))
    case Refresh(h, novel, userExists) =>
      if h !in t then Served(t, Err(Unauthorized))
      else if t[h].revoked then Served(RevokeFamily(t, t[h].family), Err(Unauthorized))
      else if now > t[h].expires then Served(t, Err(Unauthorized))
      else if !userExists then Served(t, Err(Internal))
      else Served(Rotate(t, h, novel, now), Ok(()))
    case Logout(h) => Served(Revoke(t, h), Ok(()))
    case ResetPassword(user) => Served(RevokeUser(t, user), Ok(()))
  }

  /** New hashes and new families are new. */
  ghost predicate Novel(t: Table, c: Call) {
    match c
    case Login(novel, _, family) => novel !in t && forall h :: h in t ==> t[h].family != family
    case Refresh(_, novel, _) => novel !in t
    case _ => true
  }

  datatype Timed = Timed(call: Call, at: int)

  function ServeAll(t: Table, calls: seq<Timed>): Table
    decreases |calls|
  {
    if calls == [] then t else ServeAll(Serve(t, calls[0].call, calls[0].at).table, calls[1..])
  }

  ghost predicate AllNovel(t: Table, calls: seq<Timed>)
    decreases |calls|
  {
    calls != [] ==> Novel(t, calls[0].call) && AllNovel(Serve(t, calls[0].call, calls[0].at).table, calls[1..])
  }

  // ---------- Families ----------

  /** A family has one user and at most one token that still works. */
  ghost predicate Families(t: Table) {
    forall a, b :: a in t && b in t && a != b && t[a].family == t[b].family ==>
      t[a].user == t[b].user && (t[a].revoked || t[b].revoked)
  }

  ghost predicate Known(t: Table, family: FamilyId) {
    exists h :: h in t && t[h].family == family
  }

  ghost predicate Dead(t: Table, family: FamilyId) {
    forall h :: h in t && t[h].family == family ==> t[h].revoked
  }

  lemma ServeFamilies(t: Table, c: Call, now: int)
    requires Families(t) && Novel(t, c)
    ensures Families(Serve(t, c, now).table)
  {
  }

  lemma ServeKeeps(t: Table, c: Call, now: int, family: FamilyId)
    requires Families(t) && Novel(t, c)
    ensures Known(t, family) ==> Known(Serve(t, c, now).table, family)
    ensures Known(t, family) && Dead(t, family) ==> Dead(Serve(t, c, now).table, family)
  {
    if Known(t, family) {
      var h :| h in t && t[h].family == family;
      assert h in Serve(t, c, now).table && Serve(t, c, now).table[h].family == family;
    }
  }

  /** In every serial run each family keeps at most one working token, and a family that has
      none left never gains one again. */
  lemma {:induction false} EveryRun(t: Table, calls: seq<Timed>, family: FamilyId)
    requires Families(t) && AllNovel(t, calls)
    ensures Families(ServeAll(t, calls))
    ensures Known(t, family) && Dead(t, family) ==>
              Known(ServeAll(t, calls), family) && Dead(ServeAll(t, calls), family)
    decreases |calls|
  {
    if calls != [] {
      ServeFamilies(t, calls[0].call, calls[0].at);
      ServeKeeps(t, calls[0].call, calls[0].at, family);
      EveryRun(Serve(t, calls[0].call, calls[0].at).table, calls[1..], family);
    }
  }

  /** Presenting a token that was already used ends its whole family, for good. */
  lemma ReuseEndsFamily(t: Table, h: Hash, novel: Hash, userExists: bool, now: int, later: seq<Timed>)
    requires Families(t) && h in t && t[h].revoked && novel !in t
    requires AllNovel(Serve(t, Refresh(h, novel, userExists), now).table, later)
    ensures Serve(t, Refresh(h, novel, userExists), now).reply.Err?
    ensures Dead(ServeAll(Serve(t, Refresh(h, novel, userExists), now).table, later), t[h].family)
  {
    var u := Serve(t, Refresh(h, novel, userExists), now).table;
    ServeFamilies(t, Refresh(h, novel, userExists), now);
    assert h in u && u[h].family == t[h].family;
    EveryRun(u, later, t[h].family);
  }

  /** A password reset ends every family the user has, for good; other users keep theirs. */
  lemma ResetEndsSessions(t: Table, user: UserId, now: int, later: seq<Timed>, h: Hash)
    requires Families(t) && h in t
    requires AllNovel(Serve(t, ResetPassword(user), now).table, later)
    ensures t[h].user == user ==> Dead(ServeAll(Serve(t, ResetPassword(user), now).table, later), t[h].family)
    ensures t[h].user != user ==> Serve(t, ResetPassword(user), now).table[h] == t[h]
  {
    var u := Serve(t, ResetPassword(user), now).table;
    ServeFamilies(t, ResetPassword(user), now);
    if t[h].user == user {
      assert h in u && u[h].family == t[h].family;
      forall x | x in u && u[x].family == t[h].family ensures u[x].revoked {
        assert x in t && (x == h || t[x].user == t[h].user);
      }
      EveryRun(u, later, t[h].family);
    }
  }

  /** A successful refresh moves the family on: the old token stops working, the new one is
      the only one that does. */
  lemma RefreshRotates(t: Table, h: Hash, novel: Hash, now: int)
    requires Families(t) && novel !in t && Serve(t, Refresh(h, novel, true), now).reply.Ok?
    ensures var u := Serve(t, Refresh(h, novel, true), now).table;
            && u[h].revoked && !u[novel].revoked && u[novel].family == t[h].family && u[novel].user == t[h].user
            && forall x :: x in u && u[x].family == t[h].family && !u[x].revoked ==> x == novel
  {
    assert forall x :: x in t && x != h && t[x].family == t[h].family ==> t[x].revoked || t[h].revoked;
  }

  // ---------- How long a session lasts ----------

  /** A served call that hands out this token. */
  ghost predicate Issues(t: Table, c: Timed, h: Hash) {
    match c.call
    case Login(novel, _, _) => novel == h
    case Refresh(_, novel, _) => novel == h && Serve(t, c.call, c.at).reply.Ok?
    case _ => false
  }

  lemma IssuedFor(t: Table, c: Timed, h: Hash)
    requires Issues(t, c, h) && Novel(t, c.call)
    ensures var u := Serve(t, c.call, c.at).table;
            h in u && !u[h].revoked && u[h].expires == c.at + 30 * 24 * 3600
  {
  }

  /** Nothing about an issued token ever changes but that it stops working. */
  lemma {:induction false} RowStays(t: Table, calls: seq<Timed>, h: Hash)
    requires h in t && AllNovel(t, calls)
    ensures var u := ServeAll(t, calls);
            && h in u && u[h] == t[h].(revoked := u[h].revoked) && (t[h].revoked ==> u[h].revoked)
    decreases |calls|
  {
    if calls != [] {
      var next := Serve(t, calls[0].call, calls[0].at).table;
      assert h in next && next[h] == t[h].(revoked := next[h].revoked) && (t[h].revoked ==> next[h].revoked);
      RowStays(next, calls[1..], h);
    }
  }

  /** A token that has not been revoked refreshes for 30 days after the login or the refresh that
      issued it, and no longer, whatever happens to others in between. Presented too late it is
      refused and changes nothing. */
  lemma RefreshInTime(t: Table, c: Timed, later: seq<Timed>, h: Hash, novel: Hash, userExists: bool, now: int)
    requires Issues(t, c, h) && Novel(t, c.call) && AllNovel(Serve(t, c.call, c.at).table, later)
    ensures var u := ServeAll(Serve(t, c.call, c.at).table, later);
            var out := Serve(u, Refresh(h, novel, userExists), now);
            && h in u
            && (!u[h].revoked ==>
                  && (out.reply.Ok? <==> userExists && now <= c.at + 30 * 24 * 3600)
                  && (now > c.at + 30 * 24 * 3600 ==> out == Served(u, Err(Unauthorized)))
                  && (out.reply.Err? ==> out.table == u))
  {
    IssuedFor(t, c, h);
    RowStays(Serve(t, c.call, c.at).table, later, h);
  }

  /** The token a session holds after these calls, and when it was issued. */
  function Latest(calls: seq<Timed>, h: Hash, at: int): (Hash, int)
    decreases |calls|
  {
    if calls == [] then (h, at)
    else
      match calls[0].call
      case Refresh(x, novel, _) =>
        if x == h then Latest(calls[1..], novel, calls[0].at) else Latest(calls[1..], h, at)
      case _ => Latest(calls[1..], h, at)
  }

  /** The session's own refreshes come within 30 days of each other, each with the latest token, and
      nobody ends the session: no old token of its family is presented for a refresh, the latest is
      not logged out, and the user's password is not reset. Other sessions do as they please. */
  ghost predicate Continues(t: Table, calls: seq<Timed>, h: Hash, at: int)
    decreases |calls|
  {
    calls != [] ==>
      var c, next := calls[0], Serve(t, calls[0].call, calls[0].at).table;
      match c.call
      case Refresh(x, novel, userExists) =>
        if x == h then userExists && c.at <= at + 30 * 24 * 3600 && Continues(next, calls[1..], novel, c.at)
        else (x in t && h in t ==> t[x].family != t[h].family) && Continues(next, calls[1..], h, at)
      case Logout(x) => x != h && Continues(next, calls[1..], h, at)
      case ResetPassword(user) => (h in t ==> t[h].user != user) && Continues(next, calls[1..], h, at)
      case Login(_, _, _) => Continues(next, calls[1..], h, at)
  }

  /** The token works, and expires 30 days after it was issued. */
  ghost predicate Holds(t: Table, h: Hash, at: int) {
    h in t && !t[h].revoked && t[h].expires == at + 30 * 24 * 3600
  }

  lemma HoldsOn(t: Table, c: Timed, h: Hash, at: int)
    requires Holds(t, h, at) && Novel(t, c.call) && Continues(t, [c], h, at)
    ensures var u := Serve(t, c.call, c.at).table;
            && u == Serve(t, c.call, c.at).table
            && if c.call.Refresh? && c.call.hash == h then Holds(u, c.call.novel, c.at) else Holds(u, h, at)
  {
    assert [c][0] == c;
  }

  lemma {:induction false} HoldsThrough(t: Table, calls: seq<Timed>, h: Hash, at: int)
    requires Holds(t, h, at) && AllNovel(t, calls) && Continues(t, calls, h, at)
    ensures var (k, last) := Latest(calls, h, at); Holds(ServeAll(t, calls), k, last)
    decreases |calls|
  {
    if calls != [] {
      var c := calls[0];
      var next := Serve(t, c.call, c.at).table;
      assert Continues(t, [c], h, at) by { ContinuesFirst(t, calls, h, at); }
      HoldsOn(t, c, h, at);
      hide Holds, Serve;
      if c.call.Refresh? && c.call.hash == h {
        HoldsThrough(next, calls[1..], c.call.novel, c.at);
      } else {
        HoldsThrough(next, calls[1..], h, at);
      }
    }
  }

  lemma ContinuesFirst(t: Table, calls: seq<Timed>, h: Hash, at: int)
    requires calls != [] && Continues(t, calls, h, at)
    ensures Continues(t, [calls[0]], h, at)
  {
    hide Serve;
    assert [calls[0]][0] == calls[0] && [calls[0]][1..] == [];
  }

  /** Sessions last: from a login on, as long as each refresh comes within 30 days of the one before,
      the session is never ended by the passing of time or by what others do; its latest token
      refreshes once more within 30 days. */
  lemma SessionLasts(t: Table, user: UserId, family: FamilyId, h: Hash, at: int, calls: seq<Timed>, novel: Hash,
                     now: int)
    requires Novel(t, Login(h, user, family))
    requires var begun := Serve(t, Login(h, user, family), at).table;
             AllNovel(begun, calls) && Continues(begun, calls, h, at)
    requires now <= Latest(calls, h, at).1 + 30 * 24 * 3600
    ensures var u := ServeAll(Serve(t, Login(h, user, family), at).table, calls);
            Serve(u, Refresh(Latest(calls, h, at).0, novel, true), now).reply.Ok?
  {
    IssuedFor(t, Timed(Login(h, user, family), at), h);
    HoldsThrough(Serve(t, Login(h, user, family), at).table, calls, h, at);
    hide ServeAll, Continues;
  }

  // ---------- Two refreshes at once ----------

  /** The token is read before the rotation's transaction, so two refreshes can both hold it.
      A rotation on a stale read leaves its family sound exactly when no sibling of the token
      works at that moment, whatever happened to the token itself. */
  lemma StaleRotation(t: Table, h: Hash, novel: Hash, now: int)
    requires Families(t) && h in t && novel !in t
    ensures Families(Rotate(t, h, novel, now)) <==>
            forall x :: x in t && x != h && t[x].family == t[h].family ==> t[x].revoked
  {
    var u := Rotate(t, h, novel, now);
    assert forall x :: x in t && x != h ==> u[x] == t[x];
    assert u[h].revoked && !u[novel].revoked && u[novel].family == t[h].family;
  }

  /** Two refreshes of one live token that both read it first leave two working tokens. */
  lemma RaceSplitsFamily(user: UserId, family: FamilyId, now: int)
    ensures var t := map[1 := Token(user, family, now, false)];
            Families(t) && !Families(Rotate(Rotate(t, 1, 2, now), 1, 3, now))
  {
    var t := map[1 := Token(user, family, now, false)];
    var u := Rotate(Rotate(t, 1, 2, now), 1, 3, now);
    assert !u[2].revoked && !u[3].revoked;
  }

  // ---------- The service ----------

  class AuthService {
    var tokens: Table

    method RefreshTokens(h: Hash, novel: Hash, userExists: bool, now: int) returns (r: Result<()>)
      modifies this
      ensures Served(tokens, r) == Serve(old(tokens), Refresh(h, novel, userExists), now)
      ensures r.Ok? <==> h in old(tokens) && !old(tokens)[h].revoked && now <= old(tokens)[h].expires && userExists
      ensures r.Ok? ==>
                tokens == old(tokens)[h := old(tokens)[h].(revoked := true)]
                                     [novel := Token(old(tokens)[h].user, old(tokens)[h].family,
                                                     now + 30 * 24 * 3600, false)]
      ensures r.Err? ==>
              && tokens.Keys == old(tokens).Keys
              && (forall x :: x in tokens ==>
                    tokens[x] == if h in old(tokens) && old(tokens)[h].revoked
                                    && old(tokens)[x].family == old(tokens)[h].family
                                 then old(tokens)[x].(revoked := true) else old(tokens)[x])
              && r.error == if h in old(tokens) && !old(tokens)[h].revoked && now <= old(tokens)[h].expires
                            then Internal else Unauthorized
    {
      if h !in tokens { return Err(Unauthorized); }
      var existing := tokens[h];
      if existing.revoked {
        tokens := RevokeFamily(tokens, existing.family);
        return Err(Unauthorized);
      }
      if now > existing.expires { return Err(Unauthorized); }
      var tx := tokens[h := existing.(revoked := true)];
      if !userExists { return Err(Internal); }
      tx := tx[novel := Token(existing.user, existing.family, now + REFRESH_TTL, false)];
      tokens := tx;
      r := Ok(());
    }

    /** Only the presented token stops working; one that is unknown or already revoked is no error. */
    method Logout(h: Hash)
      modifies this
      ensures tokens == Serve(old(tokens), Call.Logout(h), 0).table
      ensures tokens.Keys == old(tokens).Keys && (h in tokens ==> tokens[h].revoked)
      ensures forall x :: x in tokens && (x != h || old(tokens)[x].revoked) ==> tokens[x] == old(tokens)[x]
    {
      if h in tokens { tokens := tokens[h := tokens[h].(revoked := true)]; }
    }

    /** No session of the user outlives the reset: every token of every family they have stops
        working, and nothing else about any token changes. */
    method ResetPassword(user: UserId)
      modifies this
      ensures Served(tokens, Ok(())) == Serve(old(tokens), Call.ResetPassword(user), 0)
      ensures tokens.Keys == old(tokens).Keys
      ensures forall h :: h in tokens ==>
                && tokens[h] == old(tokens)[h].(revoked := tokens[h].revoked)
                && (tokens[h].revoked <==> old(tokens)[h].revoked || old(tokens)[h].user == user)
      ensures Families(old(tokens)) ==>
                forall h :: h in old(tokens) && old(tokens)[h].user == user ==> Dead(tokens, old(tokens)[h].family)
    {
      ghost var was := tokens;
      tokens := map h | h in tokens :: if tokens[h].user == user then tokens[h].(revoked := true) else tokens[h];
      if Families(was) {
        forall h | h in was && was[h].user == user ensures Dead(tokens, was[h].family) {
          forall x | x in tokens && tokens[x].family == was[h].family ensures tokens[x].revoked {
            assert x == h || was[x].user == was[h].user;
          }
        }
      }
    }
  }
}

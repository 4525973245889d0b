/** Whom the server recognizes: what each handler changes about which tokens are accepted, for
    which user and until when, and what registering and unregistering leave behind. */
module Authentication {
  import opened Common
  import opened Expiry
  import opened Accounts

  /** A token issued at `clock` is still good at `now`. */
  predicate StillGood(cfg: Config, clock: Clock, now: Stamp)
    requires 1 <= clock.now.month <= 12 && 1 <= now.month <= 12
  {
    cfg.ttlDays == 0 || DayNumber(now) <= DayNumber(clock.now) + cfg.ttlDays
  }

  /** A row by which `hash` is accepted as `user`. */
  ghost predicate Witnesses(tokens: map<TokenId, Token>, id: TokenId, hash: string, now: Stamp, user: UserId) {
    id in tokens && Accepts(tokens[id], hash, now) && tokens[id].user == user
  }

  lemma ResolveIff(db: Db, hash: string, now: Stamp, user: UserId)
    requires UniqueTokens(db.tokens)
    ensures Resolve(db, hash, now) == Some(user) <==> exists id :: Witnesses(db.tokens, id, hash, now, user)
  {
    hide Accepts, UniqueTokens;
    if Resolve(db, hash, now) == Some(user) {
      var id :| id in db.tokens && Accepts(db.tokens[id], hash, now) && db.tokens[id].user == user;
      assert Witnesses(db.tokens, id, hash, now, user);
    }
    if id :| Witnesses(db.tokens, id, hash, now, user) {
      ResolveFinds(db, hash, now, id);
    }
  }

  /** Databases whose rows accept the same thing resolve it alike. */
  lemma SameResolve(before: Db, after: Db, hash: string, now: Stamp)
    requires UniqueTokens(before.tokens) && UniqueTokens(after.tokens)
    requires forall id, user ::
               Witnesses(before.tokens, id, hash, now, user) <==> Witnesses(after.tokens, id, hash, now, user)
    ensures Resolve(before, hash, now) == Resolve(after, hash, now)
  {
    hide Resolve, Witnesses, UniqueTokens;
    var b, a := Resolve(before, hash, now), Resolve(after, hash, now);
    if b.Some? {
      ResolveIff(before, hash, now, b.value);
      ResolveIff(after, hash, now, b.value);
    }
    if a.Some? {
      ResolveIff(before, hash, now, a.value);
      ResolveIff(after, hash, now, a.value);
    }
  }

  lemma NoWitness(db: Db, hash: string, now: Stamp)
    requires UniqueTokens(db.tokens) && forall id, user :: !Witnesses(db.tokens, id, hash, now, user)
    ensures Resolve(db, hash, now) == None
  {
    hide Witnesses;
    var found := Resolve(db, hash, now);
    if found.Some? {
      ResolveIff(db, hash, now, found.value);
    }
  }

  // ---------------------------------------------------------------------------
  // Issuing

  lemma NewTokenIsUnique(tokens: map<TokenId, Token>, id: TokenId, t: Token)
    requires UniqueTokens(tokens) && forall i :: i in tokens ==> tokens[i].hash != t.hash
    ensures UniqueTokens(tokens[id := t])
  {}

  /** Issuing a token makes it accepted for its user through the calendar day `ttlDays` ahead, and
      on no later day, or for ever without a lifetime; no other token is affected. */
  lemma IssuingAddsOneToken(cfg: Config, db: Db, user: UserId, token: string, clock: Clock, hash: string, now: Stamp)
    requires TablesLinked(db) && UniqueTokens(db.tokens) && FreshToken(db, token) && ClockOk(cfg, clock) && Valid(now)
    ensures UniqueTokens(InsertToken(db, user, token, cfg, clock).tokens)
    ensures Resolve(InsertToken(db, user, token, cfg, clock), hash, now)
         == if hash != token then Resolve(db, hash, now) else if StillGood(cfg, clock, now) then Some(user) else None
  {
    var after := InsertToken(db, user, token, cfg, clock);
    NotExpiredIsDateOrder(clock.later, clock.rest, now);
    hide NotExpired, Rfc3339, Seconds, DayNumber, Resolve, UniqueTokens;
    var t := after.tokens[db.nextToken];
    NewTokenIsUnique(db.tokens, db.nextToken, t);
    if hash != token {
      SameResolve(db, after, hash, now);
    } else if StillGood(cfg, clock, now) {
      ResolveFinds(after, hash, now, db.nextToken);
    } else {
      NoWitness(after, hash, now);
    }
  }

  lemma RefusalIsNoSuccess(cfg: Config, db: Db, req: RegisterReq, ok: Checks)
    ensures var refusal := Refusal(cfg, db, req, ok); refusal.Some? ==> !refusal.value.Registered?
  {}

  lemma InvUniqueTokens(cfg: Config, db: Db)
    requires Inv(cfg, db)
    ensures UniqueTokens(db.tokens) && TablesLinked(db)
  {}

  lemma SameTokens(before: Db, after: Db, hash: string, now: Stamp)
    requires before.tokens == after.tokens && UniqueTokens(before.tokens)
    ensures Resolve(before, hash, now) == Resolve(after, hash, now)
  {
    hide Resolve, Witnesses, UniqueTokens;
    SameResolve(before, after, hash, now);
  }

  /** A registration lets in the new account by its new token and changes nothing for others. */
  lemma RegisteringAddsOneToken(cfg: Config, db: Db, req: RegisterReq, ok: Checks, clock: Clock, token: string,
          hash: string, now: Stamp)
    requires Inv(cfg, db) && ClockOk(cfg, clock) && FreshToken(db, token) && Valid(now)
    requires Register(cfg, db, req, ok, clock, token).1 == Registered(token)
    ensures Resolve(Register(cfg, db, req, ok, clock, token).0, hash, now)
         == if hash != token then Resolve(db, hash, now)
            else if StillGood(cfg, clock, now) then Some(db.nextUser) else None
  {
    RefusalIsNoSuccess(cfg, db, req, ok);
    hide Refusal, Inv, StillGood, Resolve, MarkInvite;
    InvUniqueTokens(cfg, db);
    hide TablesLinked, UniqueTokens;
    IssuingAddsOneToken(cfg, db, db.nextUser, token, clock, hash, now);
    var after := Register(cfg, db, req, ok, clock, token).0;
    var issued := InsertToken(db, db.nextUser, token, cfg, clock);
    assert after.tokens == issued.tokens;
    SameTokens(issued, after, hash, now);
  }

  lemma DroppingOneToken(db: Db, id: TokenId, hash: string, now: Stamp)
    requires UniqueTokens(db.tokens) && id in db.tokens
    ensures Resolve(db.(tokens := db.tokens - {id}), hash, now)
         == if hash == db.tokens[id].hash then None else Resolve(db, hash, now)
  {
    hide NotExpired, Resolve;
    var after := db.(tokens := db.tokens - {id});
    if hash == db.tokens[id].hash {
      NoWitness(after, hash, now);
    } else {
      SameResolve(db, after, hash, now);
    }
  }

  /** A refresh adds its token for the user who asked, takes away the oldest one if there are as
      many as allowed, and changes nothing for others. */
  lemma RefreshingTradesTokens(cfg: Config, db: Db, hash: string, clock: Clock, oldest: TokenId, token: string,
          other: string, now: Stamp)
    requires Inv(cfg, db) && Possible(cfg, db, RefreshR(hash, clock, oldest, token)) && Valid(now)
    requires Resolve(db, hash, clock.now).Some?
    ensures var user := Resolve(db, hash, clock.now).value;
            Resolve(TokenRefresh(cfg, db, hash, clock, oldest, token).0, other, now) ==
            if other == token then if StillGood(cfg, clock, now) then Some(user) else None
            else if |TokensOf(db.tokens, user)| >= cfg.maxPerUser && other == db.tokens[oldest].hash then None
            else Resolve(db, other, now)
  {
    hide Resolve, StillGood, UniqueNames, TokenLimit, InvitesLinked, Seconds, DayNumber;
    var user := Resolve(db, hash, clock.now).value;
    if |TokensOf(db.tokens, user)| >= cfg.maxPerUser {
      DroppingOneToken(db, oldest, other, now);
      IssuingAddsOneToken(cfg, db.(tokens := db.tokens - {oldest}), user, token, clock, other, now);
    } else {
      IssuingAddsOneToken(cfg, db, user, token, clock, other, now);
    }
  }

  /** A refresh at or above the limit replaces the oldest token; below it, it adds one. */
  lemma RefreshReplacesAtLimit(cfg: Config, db: Db, hash: string, clock: Clock, oldest: TokenId, token: string)
    requires TablesLinked(db) && ClockOk(cfg, clock) && Resolve(db, hash, clock.now).Some?
    requires Oldest(db.tokens, Resolve(db, hash, clock.now).value, oldest)
    ensures var u := Resolve(db, hash, clock.now).value;
            var had := |TokensOf(db.tokens, u)|;
            var after := TokenRefresh(cfg, db, hash, clock, oldest, token).0;
            |TokensOf(after.tokens, u)| == (if had >= cfg.maxPerUser then had else had + 1)
            && (oldest in after.tokens <==> had < cfg.maxPerUser)
  {
    hide Resolve, Seconds, Expires, DayNumber;
    var u := Resolve(db, hash, clock.now).value;
    if |TokensOf(db.tokens, u)| >= cfg.maxPerUser {
      DeleteTokenSet(db.tokens, u, oldest);
      InsertTokenCount(db.(tokens := db.tokens - {oldest}), u, u, token, cfg, clock);
    } else {
      InsertTokenCount(db, u, u, token, cfg, clock);
    }
  }

  // ---------------------------------------------------------------------------
  // Unregistering

  /** Unregistering locks out all tokens of its user, and nobody else. */
  lemma UnregisteringLocksOutItsUser(cfg: Config, db: Db, hash: string, at: Stamp, other: string, now: Stamp)
    requires Inv(cfg, db) && Resolve(db, hash, at).Some?
    ensures var user := Resolve(db, hash, at);
            Resolve(Unregister(db, hash, at).0, other, now) ==
            if Resolve(db, other, now) == user then None else Resolve(db, other, now)
  {
    hide Resolve, NotExpired, UniqueNames, TokenLimit, InvitesLinked;
    var user, after := Resolve(db, hash, at).value, Unregister(db, hash, at).0;
    assert UniqueTokens(after.tokens);
    if Resolve(db, other, now) == Some(user) {
      ResolveIff(db, other, now, user);
      var id :| Witnesses(db.tokens, id, other, now, user);
      NoWitness(after, other, now);
    } else {
      ResolveIff(db, other, now, user);
      SameResolve(db, after, other, now);
    }
  }

  lemma InvFacts(cfg: Config, db: Db)
    requires Inv(cfg, db)
    ensures db.nextUser !in db.users && db.nextUser !in db.presence && db.nextToken !in db.tokens
    ensures forall id :: id in db.tokens ==> db.tokens[id].user != db.nextUser
    ensures forall c :: c in db.invites ==>
              db.invites[c].creator != Some(db.nextUser) && db.invites[c].usedBy != Some(db.nextUser)
  {
    hide UniqueNames, UniqueTokens, TokenLimit;
  }

  lemma RegisteredTables(cfg: Config, db: Db, req: RegisterReq, ok: Checks, clock: Clock, token: string)
    requires 1 <= clock.now.month <= 12 && Register(cfg, db, req, ok, clock, token).1 == Registered(token)
    ensures var u, mid := db.nextUser, Register(cfg, db, req, ok, clock, token).0;
            u in mid.users && u in mid.presence && db.nextToken in mid.tokens && mid.tokens[db.nextToken].user == u
            && mid == Db(db.users[u := mid.users[u]], db.presence[u := mid.presence[u]],
                         db.tokens[db.nextToken := mid.tokens[db.nextToken]],
                         MarkInvite(db.invites, req.invite, u), u + 1, db.nextToken + 1)
  {
    RefusalIsNoSuccess(cfg, db, req, ok);
    hide Refusal, Seconds, MarkInvite, Expires;
  }

  lemma InsertThenRemove<V>(m: map<UserId, V>, user: UserId, value: V)
    requires user !in m
    ensures m[user := value] - {user} == m
  {}

  lemma IssueThenDrop(tokens: map<TokenId, Token>, id: TokenId, t: Token, user: UserId)
    requires id !in tokens && t.user == user && forall i :: i in tokens ==> tokens[i].user != user
    ensures var grown := tokens[id := t]; (map i | i in grown && grown[i].user != user :: grown[i]) == tokens
  {}

  lemma MarkThenUnlink(invites: map<string, Invite>, code: Option<string>, user: UserId)
    requires forall c :: c in invites ==> invites[c].creator != Some(user) && invites[c].usedBy != Some(user)
    ensures var marked := MarkInvite(invites, code, user);
            (map c | c in marked :: Unlink(marked[c], user)) == invites <==>
            (code.Some? && code.value in invites ==> UnusedInvite(invites, code.value))
  {
    var marked := MarkInvite(invites, code, user);
    var after := map c | c in marked :: Unlink(marked[c], user);
    assert after.Keys == invites.Keys;
    forall c | c in invites
      ensures after[c] == invites[c] <==> (code == Some(c) ==> UnusedInvite(invites, c))
    {
    }
  }

  /** Unregistering straight after registering gives back users, presence and tokens as they were,
      with the two numbers used up; and the invites too, exactly when the code that came with the
      request was not already spent on somebody else, as an open server does not check. */
  lemma RegisterThenUnregister(cfg: Config, db: Db, req: RegisterReq, ok: Checks, clock: Clock, token: string)
    requires Inv(cfg, db) && ClockOk(cfg, clock) && FreshToken(db, token)
    requires Register(cfg, db, req, ok, clock, token).1 == Registered(token)
    ensures var after := Unregister(Register(cfg, db, req, ok, clock, token).0, token, clock.now).0;
            after == db.(nextUser := db.nextUser + 1, nextToken := db.nextToken + 1, invites := after.invites)
            && (after.invites == db.invites <==>
                  (req.invite.Some? && req.invite.value in db.invites ==> UnusedInvite(db.invites, req.invite.value)))
  {
    RegisteringAddsOneToken(cfg, db, req, ok, clock, token, token, clock.now);
    RegisteredTables(cfg, db, req, ok, clock, token);
    InvFacts(cfg, db);
    hide Inv, Resolve, Register, Seconds, DayNumber, MarkInvite, Unlink;
    var u, mid := db.nextUser, Register(cfg, db, req, ok, clock, token).0;
    InsertThenRemove(db.users, u, mid.users[u]);
    InsertThenRemove(db.presence, u, mid.presence[u]);
    IssueThenDrop(db.tokens, db.nextToken, mid.tokens[db.nextToken], u);
    MarkThenUnlink(db.invites, req.invite, u);
  }

  // ---------------------------------------------------------------------------
  // Where accepted tokens come from

  /** Request `r`, handled in `db`, issues the token `hash` to `user`. */
  ghost predicate Issues(cfg: Config, db: Db, r: Request, hash: string, user: UserId) {
    Possible(cfg, db, r)
    && match r
       case RegisterR(_, _, _, token) => token == hash && Handle(cfg, db, r).1 == Registered(hash)
           && user == db.nextUser
       case RefreshR(used, clock, _, token) => token == hash && Resolve(db, used, clock.now) == Some(user)
       case _ => false
  }

  lemma StepIssues(cfg: Config, db: Db, r: Request, hash: string, now: Stamp, user: UserId)
    requires Inv(cfg, db) && Possible(cfg, db, r) && Valid(now)
    requires Resolve(Handle(cfg, db, r).0, hash, now) == Some(user)
    ensures Resolve(db, hash, now) == Some(user) || Issues(cfg, db, r, hash, user)
  {
    hide Resolve, Inv, Refusal, Oldest, FreshToken, InsertToken, DeleteUser, StillGood;
    match r
    case RegisterR(req, ok, clock, token) =>
      if Refusal(cfg, db, req, ok) == None {
        RegisteringAddsOneToken(cfg, db, req, ok, clock, token, hash, now);
      }
    case RefreshR(used, clock, oldest, token) =>
      if Resolve(db, used, clock.now).Some? {
        RefreshingTradesTokens(cfg, db, used, clock, oldest, token, hash, now);
      }
    case UnregisterR(used, clock) =>
      if Resolve(db, used, clock.now).Some? {
        UnregisteringLocksOutItsUser(cfg, db, used, clock.now, hash, now);
      }
    case _ =>
      InvUniqueTokens(cfg, db);
      SameTokens(db, Handle(cfg, db, r).0, hash, now);
  }

  /** In every run, a token that is accepted and was not before was issued to that very user by a
      registration or a refresh of the run. */
  lemma {:induction false} AcceptedTokenWasIssued(cfg: Config, before: Db, rs: seq<Request>, after: Db,
          hash: string, now: Stamp, user: UserId)
    requires Inv(cfg, before) && Reaches(cfg, before, rs, after) && Valid(now)
    requires Resolve(after, hash, now) == Some(user) && Resolve(before, hash, now) != Some(user)
    ensures exists i, mid :: 0 <= i < |rs| && Reaches(cfg, before, rs[..i], mid) && Issues(cfg, mid, rs[i], hash, user)
    decreases |rs|
  {
    hide Inv, Resolve, Handle, Possible, Issues;
    assert rs != [];
    var next := Handle(cfg, before, rs[0]).0;
    HandleKeepsInv(cfg, before, rs[0]);
    if Resolve(next, hash, now) == Some(user) {
      StepIssues(cfg, before, rs[0], hash, now, user);
      assert Reaches(cfg, before, rs[..0], before);
    } else {
      AcceptedTokenWasIssued(cfg, next, rs[1..], after, hash, now, user);
      var i, mid :| 0 <= i < |rs[1..]| && Reaches(cfg, next, rs[1..][..i], mid)
          && Issues(cfg, mid, rs[1..][i], hash, user);
      assert rs[..i + 1][1..] == rs[1..][..i] && rs[..i + 1][0] == rs[0];
      assert Reaches(cfg, before, rs[..i + 1], mid);
    }
  }

  // ---------------------------------------------------------------------------
  // How long tokens have been out

  /** The request is answered with this token. */
  ghost predicate Grants(cfg: Config, db: Db, r: Request, hash: string)
    requires Possible(cfg, db, r)
  {
    Handle(cfg, db, r).1 == Registered(hash) || Handle(cfg, db, r).1 == Refreshed(hash)
  }

  /** When, in seconds, the last request of the run was handled that was answered with this token. */
  ghost function GrantedAt(cfg: Config, before: Db, rs: seq<Request>, hash: string): Option<nat>
    decreases |rs|
  {
    if rs == [] || !Possible(cfg, before, rs[0]) then None
    else
      var later := GrantedAt(cfg, Handle(cfg, before, rs[0]).0, rs[1..], hash);
      if later.Some? then later else if Grants(cfg, before, rs[0], hash) then Some(Seconds(rs[0].clock.now)) else None
  }

  /** Where a row of the token table comes from: it was there, or the request made it just now. */
  ghost predicate RowOrigin(cfg: Config, db: Db, r: Request, id: TokenId, t: Token)
    requires Possible(cfg, db, r)
  {
    if id in db.tokens then t == db.tokens[id] && !Grants(cfg, db, r, t.hash)
    else Grants(cfg, db, r, t.hash) && 1 <= r.clock.now.month <= 12 && t.created == Seconds(r.clock.now)
  }

  lemma RefusalGrantsNothing(cfg: Config, db: Db, req: RegisterReq, ok: Checks)
    ensures var refusal := Refusal(cfg, db, req, ok); refusal.Some? ==> !refusal.value.Refreshed?
  {}

  lemma RegisterOrigin(cfg: Config, db: Db, r: Request, id: TokenId)
    requires TablesLinked(db) && Possible(cfg, db, r) && r.RegisterR? && id in Handle(cfg, db, r).0.tokens
    ensures RowOrigin(cfg, db, r, id, Handle(cfg, db, r).0.tokens[id])
  {
    RefusalIsNoSuccess(cfg, db, r.req, r.ok);
    RefusalGrantsNothing(cfg, db, r.req, r.ok);
    hide Refusal, MarkInvite, Seconds, Expires, DayNumber;
  }

  lemma RefreshOrigin(cfg: Config, db: Db, r: Request, id: TokenId)
    requires TablesLinked(db) && Possible(cfg, db, r) && r.RefreshR? && id in Handle(cfg, db, r).0.tokens
    ensures RowOrigin(cfg, db, r, id, Handle(cfg, db, r).0.tokens[id])
  {
    hide Resolve, Oldest, TokensOf, Seconds, Expires, DayNumber;
  }

  lemma OtherOrigin(cfg: Config, db: Db, r: Request, id: TokenId)
    requires Possible(cfg, db, r) && !r.RegisterR? && !r.RefreshR? && id in Handle(cfg, db, r).0.tokens
    ensures RowOrigin(cfg, db, r, id, Handle(cfg, db, r).0.tokens[id])
  {
    hide Resolve, Seconds, DayNumber;
  }

  lemma StepOrigin(cfg: Config, db: Db, r: Request, id: TokenId)
    requires TablesLinked(db) && Possible(cfg, db, r) && id in Handle(cfg, db, r).0.tokens
    ensures RowOrigin(cfg, db, r, id, Handle(cfg, db, r).0.tokens[id])
  {
    hide Handle, RowOrigin, Possible;
    if r.RegisterR? {
      RegisterOrigin(cfg, db, r, id);
    } else if r.RefreshR? {
      RefreshOrigin(cfg, db, r, id);
    } else {
      OtherOrigin(cfg, db, r, id);
    }
  }

  /** What the `created` column of a row says: when the request was handled that last was answered
      with its token, unless the row is older than the run. */
  lemma {:induction false} CreatedIsGrantedAt(cfg: Config, before: Db, rs: seq<Request>, after: Db, id: TokenId)
    requires Inv(cfg, before) && Reaches(cfg, before, rs, after) && id in after.tokens
    ensures var at := GrantedAt(cfg, before, rs, after.tokens[id].hash);
            if at.Some? then after.tokens[id].created == at.value
            else id in before.tokens && before.tokens[id] == after.tokens[id]
    decreases |rs|
  {
    hide Inv, Handle, Possible, Grants, Seconds;
    if rs != [] {
      InvUniqueTokens(cfg, before);
      HandleKeepsInv(cfg, before, rs[0]);
      var next := Handle(cfg, before, rs[0]).0;
      CreatedIsGrantedAt(cfg, next, rs[1..], after, id);
      if id in next.tokens {
        StepOrigin(cfg, before, rs[0], id);
      }
    }
  }

  /** The user holds this token. */
  ghost predicate Holds(db: Db, user: UserId, hash: string) {
    exists id :: id in db.tokens && db.tokens[id].hash == hash && db.tokens[id].user == user
  }

  lemma LaterIsNotOldest(db: Db, user: UserId, a: TokenId, b: TokenId, oldest: TokenId)
    requires Oldest(db.tokens, user, oldest)
    requires a in db.tokens && b in db.tokens && db.tokens[a].user == db.tokens[b].user
    requires db.tokens[a].created < db.tokens[b].created
    ensures oldest != b
  {
    assert b in TokensOf(db.tokens, user) ==> a in TokensOf(db.tokens, user);
  }

  lemma RefreshKeepsOthers(cfg: Config, db: Db, r: Request, id: TokenId)
    requires TablesLinked(db) && Possible(cfg, db, r) && r.RefreshR? && id in db.tokens && id != r.oldest
    ensures id in Handle(cfg, db, r).0.tokens && Handle(cfg, db, r).0.tokens[id] == db.tokens[id]
  {
    hide Resolve, Oldest, TokensOf, Seconds, Expires, DayNumber, FreshToken;
  }

  lemma NobodyKeeps(cfg: Config, db: Db, r: Request)
    requires Possible(cfg, db, r) && r.RefreshR? && Resolve(db, r.hash, r.clock.now).None?
    ensures Handle(cfg, db, r).0 == db
  {
    hide Resolve, Oldest, TokensOf, FreshToken;
  }

  lemma PickedIsOldest(cfg: Config, db: Db, r: Request)
    requires Possible(cfg, db, r) && r.RefreshR? && Resolve(db, r.hash, r.clock.now).Some?
    ensures Oldest(db.tokens, Resolve(db, r.hash, r.clock.now).value, r.oldest)
  {
    hide Resolve, Oldest, FreshToken;
  }

  /** Of two tokens that a user holds and that were granted in the run, the earlier and the later, no
      refresh takes the later one: as long as the earlier is there, it is the one to go first. */
  lemma EarlierTokensGoFirst(cfg: Config, before: Db, rs: seq<Request>, db: Db, r: Request, user: UserId,
                             earlier: string, later: string)
    requires Inv(cfg, before) && Reaches(cfg, before, rs, db) && Possible(cfg, db, r) && r.RefreshR?
    requires Holds(db, user, earlier) && Holds(db, user, later)
    requires var a, b := GrantedAt(cfg, before, rs, earlier), GrantedAt(cfg, before, rs, later);
             a.Some? && b.Some? && a.value < b.value
    ensures Holds(Handle(cfg, db, r).0, user, later)
  {
    RunKeepsInv(cfg, before, rs, db);
    InvUniqueTokens(cfg, db);
    hide Inv, Reaches, Possible, Handle, Resolve, Oldest, GrantedAt, Seconds, UniqueTokens, TablesLinked;
    var i :| i in db.tokens && db.tokens[i].hash == earlier && db.tokens[i].user == user;
    var k :| k in db.tokens && db.tokens[k].hash == later && db.tokens[k].user == user;
    CreatedIsGrantedAt(cfg, before, rs, db, i);
    CreatedIsGrantedAt(cfg, before, rs, db, k);
    if Resolve(db, r.hash, r.clock.now).Some? {
      PickedIsOldest(cfg, db, r);
      LaterIsNotOldest(db, Resolve(db, r.hash, r.clock.now).value, i, k, r.oldest);
      RefreshKeepsOthers(cfg, db, r, k);
    } else {
      NobodyKeeps(cfg, db, r);
    }
  }
}

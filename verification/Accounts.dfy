/** Accounts, tokens and invites: the handlers of src/discovery.rs over the tables of src/db.rs.

    Each handler is a function from the tables to the new tables and the answer; the class
    `AccountServer` carries the handlers out statement by statement. A token and its hash are
    the same string here: hashing is taken to be injective. */
module Accounts {
  import opened Common
  import opened Expiry

  type UserId = nat
  type TokenId = nat

  datatype User = User(name: string, nameLc: string, pubkey: string, email: Option<string>)
  datatype Presence = Presence(ip: string, port: nat, lastSeen: Stamp)
  datatype Token = Token(user: UserId, hash: string, created: nat, expires: Option<string>)
  datatype Invite = Invite(creator: Option<UserId>, usedBy: Option<UserId>)

  datatype Db = Db(
    users: map<UserId, User>,
    presence: map<UserId, Presence>,
    tokens: map<TokenId, Token>,
    invites: map<string, Invite>,
    nextUser: UserId,
    nextToken: TokenId)

  /** `lower` is `str::to_lowercase`. */
  datatype Config = Config(open: bool, maxUsers: nat, maxPerUser: nat, ttlDays: nat, lower: string -> string)

  /** The clock during a request: now, and `ttlDays` from now with its fraction and offset. */
  datatype Clock = Clock(now: Stamp, later: Stamp, rest: string)

  datatype RegisterReq = RegisterReq(
    name: string, pubkey: string, ip: string, port: nat, email: Option<string>, invite: Option<string>)

  /** The outcomes of the checks whose bodies are library calls. */
  datatype Checks = Checks(rateAllowed: bool, versionOk: bool, nameOk: bool, pubkeyOk: bool, ipOk: bool, emailOk: bool)

  datatype Answer =
    | Registered(token: string) | Refreshed(token: string) | InviteCreated(code: string) | Done
    | TooManyRequests | ClientTooOld | RegistrationClosed | InvalidInvite | BadRequest
    | UsernameTaken | ServerFull | Unauthorized | Internal

  function Expires(cfg: Config, clock: Clock): Option<string> {
    if cfg.ttlDays > 0 then Some(Rfc3339(clock.later, clock.rest)) else None
  }

  ghost predicate ClockOk(cfg: Config, clock: Clock) {
    Valid(clock.now) && Valid(clock.later)
    && DayNumber(clock.later) == DayNumber(clock.now) + cfg.ttlDays
  }

  // ---------------------------------------------------------------------------
  // Statements

  predicate Accepts(t: Token, hash: string, now: Stamp) {
    t.hash == hash && (t.expires == None || NotExpired(t.expires.value, now))
  }

  /** The user `resolve_token` finds, if any. */
  ghost function Resolve(db: Db, hash: string, now: Stamp): Option<UserId> {
    if exists id :: id in db.tokens && Accepts(db.tokens[id], hash, now) then
      var id :| id in db.tokens && Accepts(db.tokens[id], hash, now);
      Some(db.tokens[id].user)
    else None
  }

  function TokensOf(tokens: map<TokenId, Token>, user: UserId): set<TokenId> {
    set id | id in tokens && tokens[id].user == user
  }

  predicate NameTaken(users: map<UserId, User>, nameLc: string) {
    exists u :: u in users && users[u].nameLc == nameLc
  }

  predicate UnusedInvite(invites: map<string, Invite>, code: string) {
    code in invites && invites[code].usedBy == None
  }

  /** `id` is a row that `ORDER BY created_at LIMIT 1` may select among the user's tokens. */
  ghost predicate Oldest(tokens: map<TokenId, Token>, user: UserId, id: TokenId) {
    id in TokensOf(tokens, user)
    && forall other :: other in TokensOf(tokens, user) ==> tokens[id].created <= tokens[other].created
  }

  function InsertToken(db: Db, user: UserId, hash: string, cfg: Config, clock: Clock): Db
    requires 1 <= clock.now.month <= 12
  {
    db.(tokens := db.tokens[db.nextToken := Token(user, hash, Seconds(clock.now), Expires(cfg, clock))],
        nextToken := db.nextToken + 1)
  }

  function Unlink(i: Invite, user: UserId): Invite {
    Invite(if i.creator == Some(user) then None else i.creator,
           if i.usedBy == Some(user) then None else i.usedBy)
  }

  /** `DELETE FROM users` with its cascades. */
  function DeleteUser(db: Db, user: UserId): Db {
    db.(users := db.users - {user},
        presence := db.presence - {user},
        tokens := map id | id in db.tokens && db.tokens[id].user != user :: db.tokens[id],
        invites := map code | code in db.invites :: Unlink(db.invites[code], user))
  }

  function MarkInvite(invites: map<string, Invite>, code: Option<string>, user: UserId): map<string, Invite> {
    if code.Some? && code.value in invites
    then invites[code.value := invites[code.value].(usedBy := Some(user))]
    else invites
  }

  // ---------------------------------------------------------------------------
  // Handlers

  /** Why a registration is refused; the order of the checks is the source's. */
  function Refusal(cfg: Config, db: Db, req: RegisterReq, ok: Checks): Option<Answer> {
    if !ok.rateAllowed then Some(TooManyRequests)
    else if !ok.versionOk then Some(ClientTooOld)
    else if !cfg.open && req.invite == None then Some(RegistrationClosed)
    else if !cfg.open && !UnusedInvite(db.invites, req.invite.value) then Some(InvalidInvite)
    else if !ok.nameOk then Some(BadRequest)
    else if NameTaken(db.users, cfg.lower(req.name)) then Some(UsernameTaken)
    else if !ok.pubkeyOk || !ok.ipOk || !ok.emailOk then Some(BadRequest)
    else if cfg.maxUsers > 0 && |db.users| >= cfg.maxUsers then Some(ServerFull)
    else None
  }

  function Register(cfg: Config, db: Db, req: RegisterReq, ok: Checks, clock: Clock, token: string): (Db, Answer)
    requires 1 <= clock.now.month <= 12
  {
    var refusal := Refusal(cfg, db, req, ok);
    if refusal.Some? then (db, refusal.value)
    else
      var u := db.nextUser;
      var withUser := db.(
        users := db.users[u := User(req.name, cfg.lower(req.name), req.pubkey, req.email)],
        presence := db.presence[u := Presence(req.ip, req.port, clock.now)],
        nextUser := u + 1);
      var withToken := InsertToken(withUser, u, token, cfg, clock);
      (withToken.(invites := MarkInvite(db.invites, req.invite, u)), Registered(token))
  }

  ghost function Update(db: Db, hash: string, ip: string, port: nat, ipOk: bool, now: Stamp): (Db, Answer) {
    match Resolve(db, hash, now)
    case None => (db, Unauthorized)
    case Some(u) =>
      if !ipOk then (db, BadRequest) else (db.(presence := db.presence[u := Presence(ip, port, now)]), Done)
  }

  ghost function Heartbeat(db: Db, hash: string, now: Stamp): (Db, Answer) {
    match Resolve(db, hash, now)
    case None => (db, Unauthorized)
    case Some(u) =>
      if u in db.presence
      then (db.(presence := db.presence[u := db.presence[u].(lastSeen := now)]), Done)
      else (db, Done)
  }

  ghost function Unregister(db: Db, hash: string, now: Stamp): (Db, Answer) {
    match Resolve(db, hash, now)
    case None => (db, Unauthorized)
    case Some(u) => (DeleteUser(db, u), Done)
  }

  /** `oldest` is the row the database picks for deletion, should one be deleted. */
  ghost function TokenRefresh(
    cfg: Config, db: Db, hash: string, clock: Clock, oldest: TokenId, token: string): (Db, Answer)
    requires 1 <= clock.now.month <= 12
  {
    match Resolve(db, hash, clock.now)
    case None => (db, Unauthorized)
    case Some(u) =>
      var kept := if |TokensOf(db.tokens, u)| >= cfg.maxPerUser then db.(tokens := db.tokens - {oldest}) else db;
      (InsertToken(kept, u, token, cfg, clock), Refreshed(token))
  }

  ghost function InviteCreate(db: Db, hash: string, code: string, now: Stamp): (Db, Answer) {
    match Resolve(db, hash, now)
    case None => (db, Unauthorized)
    case Some(u) =>
      if code in db.invites then (db, Internal)  // the primary key refuses the row
      else (db.(invites := db.invites[code := Invite(Some(u), None)]), InviteCreated(code))
  }

  // ---------------------------------------------------------------------------
  // Requests and runs

  datatype Request =
    | RegisterR(req: RegisterReq, ok: Checks, clock: Clock, token: string)
    | UpdateR(hash: string, ip: string, port: nat, ipOk: bool, clock: Clock)
    | HeartbeatR(hash: string, clock: Clock)
    | UnregisterR(hash: string, clock: Clock)
    | RefreshR(hash: string, clock: Clock, oldest: TokenId, token: string)
    | InviteR(hash: string, code: string, clock: Clock)

  ghost predicate FreshToken(db: Db, hash: string) {
    forall id :: id in db.tokens ==> db.tokens[id].hash != hash
  }

  /** The clock is a clock, generated tokens are new, and the database deletes an oldest row. */
  ghost predicate Possible(cfg: Config, db: Db, r: Request) {
    ClockOk(cfg, r.clock)
    && (r.RegisterR? ==> FreshToken(db, r.token))
    && (r.RefreshR? ==> FreshToken(db, r.token))
    && (r.RefreshR? ==> var u := Resolve(db, r.hash, r.clock.now); u.Some? ==> Oldest(db.tokens, u.value, r.oldest))
  }

  ghost function Handle(cfg: Config, db: Db, r: Request): (Db, Answer)
    requires Possible(cfg, db, r)
  {
    match r
    case RegisterR(req, ok, clock, token) => Register(cfg, db, req, ok, clock, token)
    case UpdateR(hash, ip, port, ipOk, clock) => Update(db, hash, ip, port, ipOk, clock.now)
    case HeartbeatR(hash, clock) => Heartbeat(db, hash, clock.now)
    case UnregisterR(hash, clock) => Unregister(db, hash, clock.now)
    case RefreshR(hash, clock, oldest, token) => TokenRefresh(cfg, db, hash, clock, oldest, token)
    case InviteR(hash, code, clock) => InviteCreate(db, hash, code, clock.now)
  }

  /** `after` is reached from `before` by handling the requests one after the other. */
  ghost predicate Reaches(cfg: Config, before: Db, rs: seq<Request>, after: Db)
    decreases |rs|
  {
    if rs == [] then before == after
    else Possible(cfg, before, rs[0]) && Reaches(cfg, Handle(cfg, before, rs[0]).0, rs[1..], after)
  }

  // ---------------------------------------------------------------------------
  // Invariants

  ghost predicate TablesLinked(db: Db) {
    (forall u :: u in db.users ==> u < db.nextUser)
    && (forall id :: id in db.tokens ==> id < db.nextToken && db.tokens[id].user in db.users)
    && db.presence.Keys == db.users.Keys
  }

  ghost predicate InvitesLinked(users: map<UserId, User>, invites: map<string, Invite>) {
    forall code :: code in invites ==>
      (invites[code].usedBy.Some? ==> invites[code].usedBy.value in users)
      && (invites[code].creator.Some? ==> invites[code].creator.value in users)
  }

  ghost predicate UniqueNames(cfg: Config, users: map<UserId, User>) {
    (forall u :: u in users ==> users[u].nameLc == cfg.lower(users[u].name))
    && forall u, v :: u in users && v in users && users[u].nameLc == users[v].nameLc ==> u == v
  }

  ghost predicate UniqueTokens(tokens: map<TokenId, Token>) {
    forall i, j :: i in tokens && j in tokens && tokens[i].hash == tokens[j].hash ==> i == j
  }

  function TokenCap(cfg: Config): nat {
    if cfg.maxPerUser == 0 then 1 else cfg.maxPerUser
  }

  ghost predicate TokenLimit(cfg: Config, users: map<UserId, User>, tokens: map<TokenId, Token>) {
    forall u :: u in users ==> |TokensOf(tokens, u)| <= TokenCap(cfg)
  }

  ghost predicate Inv(cfg: Config, db: Db) {
    TablesLinked(db)
    && InvitesLinked(db.users, db.invites)
    && UniqueNames(cfg, db.users)
    && UniqueTokens(db.tokens)
    && (cfg.maxUsers > 0 ==> |db.users| <= cfg.maxUsers)
    && TokenLimit(cfg, db.users, db.tokens)
  }

  lemma ResolveFinds(db: Db, hash: string, now: Stamp, id: TokenId)
    requires UniqueTokens(db.tokens)
    requires id in db.tokens && Accepts(db.tokens[id], hash, now)
    ensures Resolve(db, hash, now) == Some(db.tokens[id].user)
  {
  }

  // One lemma for each statement that writes

  function InsertUser(db: Db, user: User, presence: Presence): Db {
    db.(users := db.users[db.nextUser := user],
        presence := db.presence[db.nextUser := presence],
        nextUser := db.nextUser + 1)
  }

  lemma NewNameIsUnique(cfg: Config, db: Db, user: User)
    requires UniqueNames(cfg, db.users) && TablesLinked(db)
    requires user.nameLc == cfg.lower(user.name) && !NameTaken(db.users, user.nameLc)
    ensures UniqueNames(cfg, db.users[db.nextUser := user])
  {}

  lemma NewUserHasNoTokens(db: Db)
    requires TablesLinked(db)
    ensures TokensOf(db.tokens, db.nextUser) == {}
  {
  }

  lemma InsertUserKeepsInv(cfg: Config, db: Db, user: User, presence: Presence)
    requires Inv(cfg, db)
    requires user.nameLc == cfg.lower(user.name) && !NameTaken(db.users, user.nameLc)
    requires cfg.maxUsers > 0 ==> |db.users| < cfg.maxUsers
    ensures Inv(cfg, InsertUser(db, user, presence))
    ensures TokensOf(db.tokens, db.nextUser) == {}
  {
    hide TokensOf, UniqueNames, UniqueTokens, NameTaken;
    NewUserHasNoTokens(db);
    NewNameIsUnique(cfg, db, user);
    assert InsertUser(db, user, presence).users.Keys == db.users.Keys + {db.nextUser};
  }

  lemma OneTokenMore(tokens: map<TokenId, Token>, id: TokenId, t: Token, u: UserId)
    requires id !in tokens
    ensures |TokensOf(tokens[id := t], u)| == |TokensOf(tokens, u)| + if u == t.user then 1 else 0
  {
    if u == t.user {
      assert TokensOf(tokens[id := t], u) == TokensOf(tokens, u) + {id};
    } else {
      assert TokensOf(tokens[id := t], u) == TokensOf(tokens, u);
    }
  }

  lemma InsertTokenCount(db: Db, user: UserId, u: UserId, hash: string, cfg: Config, clock: Clock)
    requires TablesLinked(db) && 1 <= clock.now.month <= 12
    ensures |TokensOf(InsertToken(db, user, hash, cfg, clock).tokens, u)|
         == |TokensOf(db.tokens, u)| + if u == user then 1 else 0
  {
    hide Seconds, Expires, TokensOf;
    OneTokenMore(db.tokens, db.nextToken, InsertToken(db, user, hash, cfg, clock).tokens[db.nextToken], u);
  }

  lemma InsertTokenKeepsInv(cfg: Config, db: Db, user: UserId, hash: string, clock: Clock)
    requires Inv(cfg, db) && 1 <= clock.now.month <= 12
    requires user in db.users && FreshToken(db, hash) && |TokensOf(db.tokens, user)| < TokenCap(cfg)
    ensures Inv(cfg, InsertToken(db, user, hash, cfg, clock))
  {
    hide Seconds, Expires, UniqueNames, InvitesLinked, TokensOf;
    forall u | u in db.users
      ensures |TokensOf(InsertToken(db, user, hash, cfg, clock).tokens, u)| <= TokenCap(cfg)
    {
      InsertTokenCount(db, user, u, hash, cfg, clock);
    }
  }

  lemma FewerTokensUnique(tokens: map<TokenId, Token>, id: TokenId)
    requires UniqueTokens(tokens)
    ensures UniqueTokens(tokens - {id})
  {}

  lemma DeleteTokenSet(tokens: map<TokenId, Token>, u: UserId, id: TokenId)
    ensures TokensOf(tokens - {id}, u) == TokensOf(tokens, u) - {id}
    ensures |TokensOf(tokens - {id}, u)| <= |TokensOf(tokens, u)|
  {
  }

  lemma DeleteTokenKeepsInv(cfg: Config, db: Db, user: UserId, id: TokenId)
    requires Inv(cfg, db) && id in TokensOf(db.tokens, user)
    ensures Inv(cfg, db.(tokens := db.tokens - {id}))
    ensures |TokensOf(db.tokens - {id}, user)| == |TokensOf(db.tokens, user)| - 1
  {
    hide UniqueNames, UniqueTokens, InvitesLinked, TokensOf;
    FewerTokensUnique(db.tokens, id);
    forall u
      ensures TokensOf(db.tokens - {id}, u) == TokensOf(db.tokens, u) - {id}
      ensures |TokensOf(db.tokens - {id}, u)| <= |TokensOf(db.tokens, u)|
    {
      DeleteTokenSet(db.tokens, u, id);
    }
    DeleteTokenSet(db.tokens, user, id);
  }

  lemma MarkInviteKeepsInv(cfg: Config, db: Db, code: Option<string>, user: UserId)
    requires Inv(cfg, db) && user in db.users
    ensures Inv(cfg, db.(invites := MarkInvite(db.invites, code, user)))
  {
    hide TokenLimit, UniqueNames, UniqueTokens;
  }

  lemma DeleteUserLimits(cfg: Config, db: Db, user: UserId)
    requires TokenLimit(cfg, db.users, db.tokens) && InvitesLinked(db.users, db.invites)
    ensures TokenLimit(cfg, DeleteUser(db, user).users, DeleteUser(db, user).tokens)
    ensures InvitesLinked(DeleteUser(db, user).users, DeleteUser(db, user).invites)
  {
    var after := DeleteUser(db, user);
    forall v | v in after.users
      ensures TokensOf(after.tokens, v) == TokensOf(db.tokens, v)
    {
    }
  }

  lemma DeleteUserKeepsInv(cfg: Config, db: Db, user: UserId)
    requires Inv(cfg, db) && user in db.users
    ensures Inv(cfg, DeleteUser(db, user))
  {
    hide TokenLimit, InvitesLinked;
    var after := DeleteUser(db, user);
    assert after.users.Keys == db.users.Keys - {user};
    DeleteUserLimits(cfg, db, user);
  }

  lemma InsertInviteKeepsInv(cfg: Config, db: Db, user: UserId, code: string)
    requires Inv(cfg, db) && user in db.users
    ensures Inv(cfg, db.(invites := db.invites[code := Invite(Some(user), None)]))
  {
    hide TokenLimit, UniqueNames, UniqueTokens;
  }

  lemma PresenceKeepsInv(cfg: Config, db: Db, user: UserId, presence: Presence)
    requires Inv(cfg, db) && user in db.users
    ensures Inv(cfg, db.(presence := db.presence[user := presence]))
  {
    hide TokenLimit, UniqueNames, UniqueTokens;
  }

  lemma ResolvedUserExists(db: Db, hash: string, now: Stamp)
    requires TablesLinked(db)
    ensures var u := Resolve(db, hash, now); u.Some? ==> u.value in db.users && TokensOf(db.tokens, u.value) != {}
  {
    hide NotExpired;
    var found := Resolve(db, hash, now);
    if found.Some? {
      var id :| id in db.tokens && db.tokens[id].user == found.value;
      assert id in TokensOf(db.tokens, found.value);
    }
  }

  // ---------------------------------------------------------------------------

  lemma RegisterKeepsInv(cfg: Config, db: Db, req: RegisterReq, ok: Checks, clock: Clock, token: string)
    requires Inv(cfg, db) && 1 <= clock.now.month <= 12 && FreshToken(db, token)
    ensures Inv(cfg, Register(cfg, db, req, ok, clock, token).0)
  {
    hide Inv, TokensOf, MarkInvite;
    if Refusal(cfg, db, req, ok) == None {
      var u := db.nextUser;
      var withUser := InsertUser(db, User(req.name, cfg.lower(req.name), req.pubkey, req.email),
                                 Presence(req.ip, req.port, clock.now));
      InsertUserKeepsInv(cfg, db, withUser.users[u], withUser.presence[u]);
      InsertTokenKeepsInv(cfg, withUser, u, token, clock);
      MarkInviteKeepsInv(cfg, InsertToken(withUser, u, token, cfg, clock), req.invite, u);
    }
  }

  lemma InvLinksTables(cfg: Config, db: Db)
    requires Inv(cfg, db)
    ensures TablesLinked(db)
  {}

  lemma TokensWithinLimit(cfg: Config, db: Db, user: UserId)
    requires Inv(cfg, db) && user in db.users
    ensures TablesLinked(db) && |TokensOf(db.tokens, user)| <= TokenCap(cfg)
  {
    hide TokensOf, TokenCap, UniqueNames, UniqueTokens, InvitesLinked;
  }

  lemma StillFresh(db: Db, id: TokenId, token: string)
    requires FreshToken(db, token)
    ensures FreshToken(db.(tokens := db.tokens - {id}), token)
  {}

  lemma RefreshKeepsInv(cfg: Config, db: Db, hash: string, clock: Clock, oldest: TokenId, token: string)
    requires Inv(cfg, db) && 1 <= clock.now.month <= 12 && FreshToken(db, token)
    requires var u := Resolve(db, hash, clock.now); u.Some? ==> Oldest(db.tokens, u.value, oldest)
    ensures Inv(cfg, TokenRefresh(cfg, db, hash, clock, oldest, token).0)
  {
    hide Inv, FreshToken, InsertToken, Resolve, Seconds, Expires, TokensOf, TablesLinked;
    var user := Resolve(db, hash, clock.now);
    InvLinksTables(cfg, db);
    if user.Some? {
      ResolvedUserExists(db, hash, clock.now);
      TokensWithinLimit(cfg, db, user.value);
      if |TokensOf(db.tokens, user.value)| >= cfg.maxPerUser {
        DeleteTokenKeepsInv(cfg, db, user.value, oldest);
        StillFresh(db, oldest, token);
        InsertTokenKeepsInv(cfg, db.(tokens := db.tokens - {oldest}), user.value, token, clock);
      } else {
        InsertTokenKeepsInv(cfg, db, user.value, token, clock);
      }
    }
  }

  /** Every handler keeps the tables linked, unique and within their limits. */
  lemma HandleKeepsInv(cfg: Config, db: Db, r: Request)
    requires Inv(cfg, db) && Possible(cfg, db, r)
    ensures Inv(cfg, Handle(cfg, db, r).0)
  {
    hide Inv, Resolve, DeleteUser, TokenRefresh, Register, Oldest, FreshToken;
    if r.RegisterR? {
      RegisterKeepsInv(cfg, db, r.req, r.ok, r.clock, r.token);
    } else if r.RefreshR? {
      RefreshKeepsInv(cfg, db, r.hash, r.clock, r.oldest, r.token);
    } else {
      InvLinksTables(cfg, db);
      ResolvedUserExists(db, r.hash, r.clock.now);
      var user := Resolve(db, r.hash, r.clock.now);
      if user.Some? {
        match r
        case UpdateR(_, ip, port, _, clock) => PresenceKeepsInv(cfg, db, user.value, Presence(ip, port, clock.now));
        case HeartbeatR(_, clock) =>
          PresenceKeepsInv(cfg, db, user.value, db.presence[user.value].(lastSeen := clock.now));
        case UnregisterR(_, _) => DeleteUserKeepsInv(cfg, db, user.value);
        case InviteR(_, code, _) => InsertInviteKeepsInv(cfg, db, user.value, code);
      }
    }
  }

  /** ... and so does every run. */
  lemma {:induction false} RunKeepsInv(cfg: Config, before: Db, rs: seq<Request>, after: Db)
    requires Inv(cfg, before) && Reaches(cfg, before, rs, after)
    ensures Inv(cfg, after)
    decreases |rs|
  {
    hide Inv, Handle, Possible;
    if rs != [] {
      HandleKeepsInv(cfg, before, rs[0]);
      RunKeepsInv(cfg, Handle(cfg, before, rs[0]).0, rs[1..], after);
    }
  }
}

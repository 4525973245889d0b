/** What the account handlers of src/discovery.rs mean to their callers: a directory from lower-cased
    names to accounts, with no row numbers, foreign keys or cascades. Every run on the tables is a run
    on the directory with the same answers. */
module Directory {
  import opened Common
  import opened Expiry
  import opened Accounts

  datatype Account = Account(
    name: string, pubkey: string, email: Option<string>, ip: string, port: nat, seen: Stamp)

  /** `at` is when the token was issued, in seconds; `lastDay` the last calendar day it is good for. */
  datatype Issue = Issue(owner: string, at: nat, lastDay: Option<nat>)

  datatype Card = Card(creator: Option<string>, usedBy: Option<string>)

  datatype Dir = Dir(accounts: map<string, Account>, tokens: map<string, Issue>, invites: map<string, Card>)

  const EMPTY_DIR := Dir(map[], map[], map[])
  const EMPTY_DB := Db(map[], map[], map[], map[], 1, 1)

  // ---------------------------------------------------------------------------
  // The directory

  predicate Good(i: Issue, now: Stamp)
    requires 1 <= now.month <= 12
  {
    i.lastDay.None? || DayNumber(now) <= i.lastDay.value
  }

  /** The lower-cased name of the account a token stands for. */
  function Holder(d: Dir, hash: string, now: Stamp): Option<string>
    requires 1 <= now.month <= 12
  {
    if hash in d.tokens && Good(d.tokens[hash], now) then Some(d.tokens[hash].owner) else None
  }

  function Held(tokens: map<string, Issue>, owner: string): set<string> {
    set hash | hash in tokens && tokens[hash].owner == owner
  }

  /** The answer to a registration: the first reason there is against it. */
  function Verdict(cfg: Config, d: Dir, req: RegisterReq, ok: Checks, token: string): Answer {
    if !ok.rateAllowed then TooManyRequests
    else if !ok.versionOk then ClientTooOld
    else if !cfg.open && req.invite.None? then RegistrationClosed
    else if !cfg.open && (req.invite.value !in d.invites || d.invites[req.invite.value].usedBy.Some?) then InvalidInvite
    else if !ok.nameOk then BadRequest
    else if cfg.lower(req.name) in d.accounts then UsernameTaken
    else if !(ok.pubkeyOk && ok.ipOk && ok.emailOk) then BadRequest
    else if cfg.maxUsers != 0 && |d.accounts| >= cfg.maxUsers then ServerFull
    else Registered(token)
  }

  function Issued(cfg: Config, owner: string, clock: Clock): Issue
    requires 1 <= clock.now.month <= 12
  {
    Issue(owner, Seconds(clock.now), if cfg.ttlDays == 0 then None else Some(DayNumber(clock.now) + cfg.ttlDays))
  }

  function Enrolled(cfg: Config, d: Dir, req: RegisterReq, clock: Clock, token: string): Dir
    requires 1 <= clock.now.month <= 12
  {
    var name := cfg.lower(req.name);
    Dir(d.accounts[name := Account(req.name, req.pubkey, req.email, req.ip, req.port, clock.now)],
        d.tokens[token := Issued(cfg, name, clock)],
        if req.invite.Some? && req.invite.value in d.invites
        then d.invites[req.invite.value := d.invites[req.invite.value].(usedBy := Some(name))] else d.invites)
  }

  function Without(o: Option<string>, name: string): Option<string> {
    if o == Some(name) then None else o
  }

  function Struck(d: Dir, name: string): Dir {
    Dir(d.accounts - {name},
        map hash | hash in d.tokens && d.tokens[hash].owner != name :: d.tokens[hash],
        map code | code in d.invites ::
          Card(Without(d.invites[code].creator, name), Without(d.invites[code].usedBy, name)))
  }

  /** A request and what it does to the directory; `evicted` is the token a refresh may delete. */
  function Serve(cfg: Config, d: Dir, r: Request, evicted: string): (Dir, Answer)
    requires 1 <= r.clock.now.month <= 12
  {
    var now := r.clock.now;
    if r.RegisterR? then
      var verdict := Verdict(cfg, d, r.req, r.ok, r.token);
      (if verdict.Registered? then Enrolled(cfg, d, r.req, r.clock, r.token) else d, verdict)
    else if Holder(d, r.hash, now).None? then (d, Unauthorized)
    else
      var name := Holder(d, r.hash, now).value;
      match r
      case UpdateR(_, ip, port, ipOk, _) =>
        if !ipOk then (d, BadRequest)
        else if name in d.accounts
        then (d.(accounts := d.accounts[name := d.accounts[name].(ip := ip, port := port, seen := now)]), Done)
        else (d, Done)
      case HeartbeatR(_, _) =>
        if name in d.accounts
        then (d.(accounts := d.accounts[name := d.accounts[name].(seen := now)]), Done) else (d, Done)
      case UnregisterR(_, _) => (Struck(d, name), Done)
      case RefreshR(_, clock, _, token) =>
        var kept := if |Held(d.tokens, name)| < cfg.maxPerUser then d.tokens else d.tokens - {evicted};
        (d.(tokens := kept[token := Issued(cfg, name, clock)]), Refreshed(token))
      case InviteR(_, code, _) =>
        if code in d.invites then (d, Internal)
        else (d.(invites := d.invites[code := Card(Some(name), None)]), InviteCreated(code))
  }

  /** The token that has been out for longest. */
  predicate LongestOut(tokens: map<string, Issue>, owner: string, hash: string) {
    hash in Held(tokens, owner) && forall other :: other in Held(tokens, owner) ==> tokens[hash].at <= tokens[other].at
  }

  ghost predicate Serves(cfg: Config, d: Dir, r: Request, answer: Answer, after: Dir) {
    1 <= r.clock.now.month <= 12
    && exists evicted ::
         Serve(cfg, d, r, evicted) == (after, answer)
         && (r.RefreshR? && Holder(d, r.hash, r.clock.now).Some? ==>
               LongestOut(d.tokens, Holder(d, r.hash, r.clock.now).value, evicted))
  }

  ghost predicate Follows(cfg: Config, d: Dir, rs: seq<Request>, answers: seq<Answer>, after: Dir)
    decreases |rs|
  {
    if rs == [] then answers == [] && d == after
    else
      answers != []
      && exists mid :: Serves(cfg, d, rs[0], answers[0], mid) && Follows(cfg, mid, rs[1..], answers[1..], after)
  }

  // ---------------------------------------------------------------------------
  // What the tables and the directory have in common

  function NameOf(users: map<UserId, User>, u: Option<UserId>): Option<string> {
    if u.Some? && u.value in users then Some(users[u.value].nameLc) else None
  }

  ghost predicate AccountsMirror(
    users: map<UserId, User>, presence: map<UserId, Presence>, accounts: map<string, Account>)
  {
    (forall u :: u in users ==>
       u in presence && users[u].nameLc in accounts
       && accounts[users[u].nameLc] == Account(users[u].name, users[u].pubkey, users[u].email, presence[u].ip,
                                               presence[u].port, presence[u].lastSeen))
    && (forall name :: name in accounts ==> exists u :: u in users && users[u].nameLc == name)
  }

  ghost predicate SameToken(users: map<UserId, User>, t: Token, i: Issue) {
    t.user in users && i.owner == users[t.user].nameLc && i.at == t.created
    && forall now :: Valid(now) ==> (Accepts(t, t.hash, now) <==> Good(i, now))
  }

  ghost predicate TokensMirror(users: map<UserId, User>, tokens: map<TokenId, Token>, issued: map<string, Issue>) {
    (forall id :: id in tokens ==> tokens[id].hash in issued && SameToken(users, tokens[id], issued[tokens[id].hash]))
    && (forall hash :: hash in issued ==> exists id :: id in tokens && tokens[id].hash == hash)
  }

  ghost predicate InvitesMirror(users: map<UserId, User>, invites: map<string, Invite>, cards: map<string, Card>) {
    cards.Keys == invites.Keys
    && forall code :: code in invites ==>
         cards[code] == Card(NameOf(users, invites[code].creator), NameOf(users, invites[code].usedBy))
  }

  ghost predicate Mirrors(db: Db, d: Dir) {
    AccountsMirror(db.users, db.presence, d.accounts)
    && TokensMirror(db.users, db.tokens, d.tokens)
    && InvitesMirror(db.users, db.invites, d.invites)
  }

  // ---------------------------------------------------------------------------
  // Reading

  lemma HolderIs(cfg: Config, db: Db, d: Dir, hash: string, now: Stamp)
    requires Inv(cfg, db) && Mirrors(db, d) && Valid(now)
    ensures Resolve(db, hash, now).Some? ==> Resolve(db, hash, now).value in db.users
    ensures Holder(d, hash, now) == NameOf(db.users, Resolve(db, hash, now))
  {
    hide Good, AccountsMirror, InvitesMirror, InvitesLinked, UniqueNames, TokenLimit, DayNumber, NotExpired;
    if Resolve(db, hash, now).Some? {
      var id :| id in db.tokens && Accepts(db.tokens[id], hash, now)
                && Some(db.tokens[id].user) == Resolve(db, hash, now);
      assert SameToken(db.users, db.tokens[id], d.tokens[hash]);
    } else if hash in d.tokens {
      var id :| id in db.tokens && db.tokens[id].hash == hash;
      assert SameToken(db.users, db.tokens[id], d.tokens[hash]);
    }
  }

  lemma SameUser(cfg: Config, users: map<UserId, User>, u: UserId, v: UserId)
    requires UniqueNames(cfg, users) && u in users && v in users && users[u].nameLc == users[v].nameLc
    ensures u == v
  {}

  /** An account holds as many tokens as its rows say. */
  lemma HeldIs(cfg: Config, db: Db, d: Dir, u: UserId)
    requires UniqueTokens(db.tokens) && UniqueNames(cfg, db.users) && u in db.users
    requires TokensMirror(db.users, db.tokens, d.tokens)
    ensures forall id :: id in TokensOf(db.tokens, u) ==> db.tokens[id].hash in Held(d.tokens, db.users[u].nameLc)
    ensures |Held(d.tokens, db.users[u].nameLc)| == |TokensOf(db.tokens, u)|
  {
    hide UniqueNames, Accepts, Good;
    var name := db.users[u].nameLc;
    var hashes := map id | id in TokensOf(db.tokens, u) :: db.tokens[id].hash;
    forall hash | hash in Held(d.tokens, name)
      ensures hash in hashes.Values
    {
      var id :| id in db.tokens && db.tokens[id].hash == hash;
      assert SameToken(db.users, db.tokens[id], d.tokens[hash]);
      SameUser(cfg, db.users, db.tokens[id].user, u);
      assert id in hashes && hashes[id] == hash;
    }
    forall id | id in TokensOf(db.tokens, u)
      ensures db.tokens[id].hash in Held(d.tokens, name)
    {
      assert SameToken(db.users, db.tokens[id], d.tokens[db.tokens[id].hash]);
    }
    assert hashes.Values == Held(d.tokens, name) && hashes.Keys == TokensOf(db.tokens, u);
    BijectionSize(hashes);
  }

  lemma AccountsSize(cfg: Config, db: Db, d: Dir)
    requires UniqueNames(cfg, db.users) && AccountsMirror(db.users, db.presence, d.accounts)
    ensures |d.accounts| == |db.users|
  {
    var names := map u | u in db.users :: db.users[u].nameLc;
    forall name | name in d.accounts
      ensures name in names.Values
    {
      var u :| u in db.users && db.users[u].nameLc == name;
      assert u in names && names[u] == name;
    }
    assert names.Values == d.accounts.Keys && names.Keys == db.users.Keys;
    BijectionSize(names);
  }

  // ---------------------------------------------------------------------------
  // Writing, one lemma for each statement

  function AccountOf(user: User, presence: Presence): Account {
    Account(user.name, user.pubkey, user.email, presence.ip, presence.port, presence.lastSeen)
  }

  lemma EnterAccount(users: map<UserId, User>, presence: map<UserId, Presence>, accounts: map<string, Account>,
                     u: UserId, user: User, p: Presence)
    requires AccountsMirror(users, presence, accounts) && u !in users && !NameTaken(users, user.nameLc)
    ensures AccountsMirror(users[u := user], presence[u := p], accounts[user.nameLc := AccountOf(user, p)])
  {
    var after := users[u := user];
    forall v | v in users
      ensures users[v].nameLc != user.nameLc
    {
    }
    hide NameTaken;
    forall name | name in accounts
      ensures exists v :: v in after && after[v].nameLc == name
    {
      var v :| v in users && users[v].nameLc == name;
      assert after[v].nameLc == name;
    }
    assert after[u].nameLc == user.nameLc;
  }

  lemma EnterTokens(users: map<UserId, User>, tokens: map<TokenId, Token>, issued: map<string, Issue>, u: UserId,
                    user: User)
    requires TokensMirror(users, tokens, issued) && u !in users
    ensures TokensMirror(users[u := user], tokens, issued)
  {
    hide Accepts, Good;
    forall id | id in tokens
      ensures tokens[id].hash in issued && SameToken(users[u := user], tokens[id], issued[tokens[id].hash])
    {
      assert SameToken(users, tokens[id], issued[tokens[id].hash]);
    }
  }

  lemma EnterInvites(users: map<UserId, User>, invites: map<string, Invite>, cards: map<string, Card>, u: UserId,
                     user: User)
    requires InvitesMirror(users, invites, cards) && InvitesLinked(users, invites) && u !in users
    ensures InvitesMirror(users[u := user], invites, cards)
  {}

  lemma InvParts(cfg: Config, db: Db)
    requires Inv(cfg, db)
    ensures db.nextUser !in db.users && db.nextToken !in db.tokens && InvitesLinked(db.users, db.invites)
    ensures UniqueTokens(db.tokens) && UniqueNames(cfg, db.users)
  {
    hide UniqueTokens, UniqueNames, TokenLimit;
  }

  lemma EnterMirrors(cfg: Config, db: Db, d: Dir, user: User, p: Presence)
    requires Inv(cfg, db) && Mirrors(db, d) && !NameTaken(db.users, user.nameLc)
    ensures Mirrors(InsertUser(db, user, p), d.(accounts := d.accounts[user.nameLc := AccountOf(user, p)]))
  {
    InvParts(cfg, db);
    hide Inv, AccountsMirror, TokensMirror, InvitesMirror, InvitesLinked, UniqueNames, UniqueTokens, NameTaken,
        AccountOf;
    EnterAccount(db.users, db.presence, d.accounts, db.nextUser, user, p);
    EnterTokens(db.users, db.tokens, d.tokens, db.nextUser, user);
    EnterInvites(db.users, db.invites, d.invites, db.nextUser, user);
  }

  lemma IssuedIsGood(cfg: Config, clock: Clock, t: Token, owner: string)
    requires ClockOk(cfg, clock) && t.expires == Expires(cfg, clock)
    ensures forall now :: Valid(now) ==> (Accepts(t, t.hash, now) <==> Good(Issued(cfg, owner, clock), now))
  {
    forall now | Valid(now)
      ensures Accepts(t, t.hash, now) <==> Good(Issued(cfg, owner, clock), now)
    {
      NotExpiredIsDateOrder(clock.later, clock.rest, now);
      hide NotExpired, Rfc3339, DayNumber, Seconds;
    }
  }

  lemma IssueToken(users: map<UserId, User>, tokens: map<TokenId, Token>, issued: map<string, Issue>, id: TokenId,
                   t: Token, i: Issue)
    requires TokensMirror(users, tokens, issued) && SameToken(users, t, i)
    requires id !in tokens && forall other :: other in tokens ==> tokens[other].hash != t.hash
    ensures TokensMirror(users, tokens[id := t], issued[t.hash := i])
  {
    hide SameToken;
    var after, grown := tokens[id := t], issued[t.hash := i];
    forall h | h in grown
      ensures exists k :: k in after && after[k].hash == h
    {
      if h != t.hash {
        var k :| k in tokens && tokens[k].hash == h;
        assert after[k].hash == h;
      } else {
        assert after[id].hash == h;
      }
    }
  }

  lemma IssueMirrors(cfg: Config, db: Db, d: Dir, u: UserId, hash: string, clock: Clock)
    requires db.nextToken !in db.tokens && FreshToken(db, hash) && ClockOk(cfg, clock) && u in db.users
    requires Mirrors(db, d)
    ensures Mirrors(InsertToken(db, u, hash, cfg, clock),
                    d.(tokens := d.tokens[hash := Issued(cfg, db.users[u].nameLc, clock)]))
  {
    var t, i := Token(u, hash, Seconds(clock.now), Expires(cfg, clock)), Issued(cfg, db.users[u].nameLc, clock);
    IssuedIsGood(cfg, clock, t, db.users[u].nameLc);
    hide AccountsMirror, InvitesMirror, TokensMirror, Accepts, Good, Seconds, Expires, DayNumber;
    assert SameToken(db.users, t, i);
    hide SameToken;
    IssueToken(db.users, db.tokens, d.tokens, db.nextToken, t, i);
  }

  lemma DropMirrors(db: Db, d: Dir, id: TokenId)
    requires UniqueTokens(db.tokens) && id in db.tokens && Mirrors(db, d)
    ensures Mirrors(db.(tokens := db.tokens - {id}), d.(tokens := d.tokens - {db.tokens[id].hash}))
  {
    hide AccountsMirror, InvitesMirror, SameToken;
    var tokens, issued := db.tokens - {id}, d.tokens - {db.tokens[id].hash};
    forall h | h in issued
      ensures exists i :: i in tokens && tokens[i].hash == h
    {
      var i :| i in db.tokens && db.tokens[i].hash == h;
      assert tokens[i].hash == h;
    }
  }

  lemma PresenceMirrors(cfg: Config, db: Db, d: Dir, u: UserId, p: Presence)
    requires UniqueNames(cfg, db.users) && u in db.users && Mirrors(db, d)
    ensures db.users[u].nameLc in d.accounts
    ensures Mirrors(db.(presence := db.presence[u := p]),
                    d.(accounts := d.accounts[db.users[u].nameLc := AccountOf(db.users[u], p)]))
  {
    hide TokensMirror, InvitesMirror;
  }

  lemma MarkMirrors(db: Db, d: Dir, code: Option<string>, u: UserId)
    requires u in db.users && Mirrors(db, d)
    ensures Mirrors(db.(invites := MarkInvite(db.invites, code, u)),
                    d.(invites := if code.Some? && code.value in d.invites
                                  then d.invites[code.value :=
                                         d.invites[code.value].(usedBy := Some(db.users[u].nameLc))]
                                  else d.invites))
  {
    hide TokensMirror, AccountsMirror;
  }

  lemma CreateMirrors(db: Db, d: Dir, code: string, u: UserId)
    requires u in db.users && Mirrors(db, d)
    ensures Mirrors(db.(invites := db.invites[code := Invite(Some(u), None)]),
                    d.(invites := d.invites[code := Card(Some(db.users[u].nameLc), None)]))
  {
    hide TokensMirror, AccountsMirror;
  }

  lemma StrikeAccount(cfg: Config, users: map<UserId, User>, presence: map<UserId, Presence>,
                      accounts: map<string, Account>, u: UserId)
    requires UniqueNames(cfg, users) && u in users && AccountsMirror(users, presence, accounts)
    ensures AccountsMirror(users - {u}, presence - {u}, accounts - {users[u].nameLc})
  {
    var after := users - {u};
    forall v | v in after
      ensures users[v].nameLc != users[u].nameLc
    {
    }
    forall name | name in accounts && name != users[u].nameLc
      ensures exists v :: v in after && after[v].nameLc == name
    {
      var v :| v in users && users[v].nameLc == name;
      assert after[v].nameLc == name;
    }
  }

  lemma StrikeTokens(cfg: Config, db: Db, d: Dir, u: UserId)
    requires UniqueNames(cfg, db.users) && u in db.users && TokensMirror(db.users, db.tokens, d.tokens)
    ensures TokensMirror(DeleteUser(db, u).users, DeleteUser(db, u).tokens, Struck(d, db.users[u].nameLc).tokens)
  {
    hide Accepts, Good, UniqueNames;
    var after, issued, name := DeleteUser(db, u), Struck(d, db.users[u].nameLc).tokens, db.users[u].nameLc;
    forall id | id in after.tokens
      ensures after.tokens[id].hash in issued
      ensures SameToken(after.users, after.tokens[id], issued[after.tokens[id].hash])
    {
      assert SameToken(db.users, db.tokens[id], d.tokens[db.tokens[id].hash]);
      if db.users[db.tokens[id].user].nameLc == name {
        SameUser(cfg, db.users, db.tokens[id].user, u);
      }
    }
    forall h | h in issued
      ensures exists id :: id in after.tokens && after.tokens[id].hash == h
    {
      var id :| id in db.tokens && db.tokens[id].hash == h;
      assert SameToken(db.users, db.tokens[id], d.tokens[h]);
      assert after.tokens[id].hash == h;
    }
  }

  lemma UnlinkedName(cfg: Config, users: map<UserId, User>, o: Option<UserId>, u: UserId)
    requires UniqueNames(cfg, users) && u in users && (o.Some? ==> o.value in users)
    ensures NameOf(users - {u}, if o == Some(u) then None else o) == Without(NameOf(users, o), users[u].nameLc)
  {}

  lemma StrikeInvites(cfg: Config, db: Db, d: Dir, u: UserId)
    requires UniqueNames(cfg, db.users) && u in db.users && InvitesMirror(db.users, db.invites, d.invites)
    requires InvitesLinked(db.users, db.invites)
    ensures InvitesMirror(DeleteUser(db, u).users, DeleteUser(db, u).invites, Struck(d, db.users[u].nameLc).invites)
  {
    var after, cards := DeleteUser(db, u), Struck(d, db.users[u].nameLc).invites;
    forall code | code in db.invites
      ensures cards[code] == Card(NameOf(after.users, after.invites[code].creator),
                                  NameOf(after.users, after.invites[code].usedBy))
    {
      UnlinkedName(cfg, db.users, db.invites[code].creator, u);
      UnlinkedName(cfg, db.users, db.invites[code].usedBy, u);
    }
  }

  lemma StrikeMirrors(cfg: Config, db: Db, d: Dir, u: UserId)
    requires Inv(cfg, db) && u in db.users && Mirrors(db, d)
    ensures Mirrors(DeleteUser(db, u), Struck(d, db.users[u].nameLc))
  {
    InvParts(cfg, db);
    hide Inv, AccountsMirror, TokensMirror, InvitesMirror, InvitesLinked, UniqueNames, UniqueTokens;
    StrikeAccount(cfg, db.users, db.presence, d.accounts, u);
    StrikeTokens(cfg, db, d, u);
    StrikeInvites(cfg, db, d, u);
  }

  // ---------------------------------------------------------------------------
  // Requests

  lemma TakenIsListed(db: Db, d: Dir, nameLc: string)
    requires AccountsMirror(db.users, db.presence, d.accounts)
    ensures NameTaken(db.users, nameLc) <==> nameLc in d.accounts
  {}

  lemma UnusedIsBlank(db: Db, d: Dir, code: string)
    requires InvitesMirror(db.users, db.invites, d.invites) && InvitesLinked(db.users, db.invites)
    ensures UnusedInvite(db.invites, code) <==> code in d.invites && d.invites[code].usedBy.None?
  {}

  lemma VerdictByParts(cfg: Config, db: Db, d: Dir, req: RegisterReq, ok: Checks, token: string)
    requires NameTaken(db.users, cfg.lower(req.name)) <==> cfg.lower(req.name) in d.accounts
    requires req.invite.Some? ==>
      (UnusedInvite(db.invites, req.invite.value)
       <==> req.invite.value in d.invites && d.invites[req.invite.value].usedBy.None?)
    requires |d.accounts| == |db.users|
    ensures var refusal := Refusal(cfg, db, req, ok);
            Verdict(cfg, d, req, ok, token) == if refusal.Some? then refusal.value else Registered(token)
  {
    hide NameTaken, UnusedInvite;
  }

  lemma RefusalFacts(cfg: Config, db: Db, req: RegisterReq, ok: Checks)
    ensures Refusal(cfg, db, req, ok).Some? ==> !Refusal(cfg, db, req, ok).value.Registered?
    ensures Refusal(cfg, db, req, ok).None? ==> !NameTaken(db.users, cfg.lower(req.name))
  {
    hide NameTaken, UnusedInvite;
  }

  lemma VerdictIs(cfg: Config, db: Db, d: Dir, req: RegisterReq, ok: Checks, token: string)
    requires Inv(cfg, db) && Mirrors(db, d)
    ensures var refusal := Refusal(cfg, db, req, ok);
            Verdict(cfg, d, req, ok, token) == if refusal.Some? then refusal.value else Registered(token)
  {
    InvParts(cfg, db);
    hide Inv, AccountsMirror, TokensMirror, InvitesMirror, InvitesLinked, UniqueNames, UniqueTokens, NameTaken,
        UnusedInvite, Refusal, Verdict;
    TakenIsListed(db, d, cfg.lower(req.name));
    AccountsSize(cfg, db, d);
    if req.invite.Some? {
      UnusedIsBlank(db, d, req.invite.value);
    }
    VerdictByParts(cfg, db, d, req, ok, token);
  }

  lemma MirrorParts(db: Db, d: Dir)
    requires Mirrors(db, d)
    ensures AccountsMirror(db.users, db.presence, d.accounts) && TokensMirror(db.users, db.tokens, d.tokens)
    ensures InvitesMirror(db.users, db.invites, d.invites)
  {}

  lemma FreshInUsers(db: Db, user: User, p: Presence, token: string)
    requires FreshToken(db, token)
    ensures FreshToken(InsertUser(db, user, p), token)
  {}

  lemma EnrollMirrors(cfg: Config, db: Db, d: Dir, req: RegisterReq, ok: Checks, clock: Clock, token: string)
    requires Inv(cfg, db) && Mirrors(db, d) && ClockOk(cfg, clock) && FreshToken(db, token)
    requires Refusal(cfg, db, req, ok).None?
    ensures Mirrors(Register(cfg, db, req, ok, clock, token).0, Enrolled(cfg, d, req, clock, token))
  {
    InvParts(cfg, db);
    RefusalFacts(cfg, db, req, ok);
    hide Inv, Mirrors, Refusal, FreshToken, InvitesLinked, UniqueNames, UniqueTokens, NameTaken, MarkInvite, Issued;
    var u, name := db.nextUser, cfg.lower(req.name);
    var user, p := User(req.name, name, req.pubkey, req.email), Presence(req.ip, req.port, clock.now);
    EnterMirrors(cfg, db, d, user, p);
    var db1, d1 := InsertUser(db, user, p), d.(accounts := d.accounts[name := AccountOf(user, p)]);
    FreshInUsers(db, user, p, token);
    IssueMirrors(cfg, db1, d1, u, token, clock);
    var db2, d2 := InsertToken(db1, u, token, cfg, clock), d1.(tokens := d1.tokens[token := Issued(cfg, name, clock)]);
    MarkMirrors(db2, d2, req.invite, u);
  }

  lemma LongestOutIs(cfg: Config, db: Db, d: Dir, u: UserId, oldest: TokenId)
    requires UniqueTokens(db.tokens) && UniqueNames(cfg, db.users) && u in db.users
    requires TokensMirror(db.users, db.tokens, d.tokens) && Oldest(db.tokens, u, oldest)
    ensures LongestOut(d.tokens, db.users[u].nameLc, db.tokens[oldest].hash)
  {
    HeldIs(cfg, db, d, u);
    hide UniqueNames, UniqueTokens, Accepts, Good;
    assert SameToken(db.users, db.tokens[oldest], d.tokens[db.tokens[oldest].hash]);
    forall h | h in Held(d.tokens, db.users[u].nameLc)
      ensures d.tokens[db.tokens[oldest].hash].at <= d.tokens[h].at
    {
      var id :| id in db.tokens && db.tokens[id].hash == h;
      assert SameToken(db.users, db.tokens[id], d.tokens[h]);
      SameUser(cfg, db.users, db.tokens[id].user, u);
    }
  }

  lemma RefreshMirrors(cfg: Config, db: Db, d: Dir, u: UserId, clock: Clock, oldest: TokenId, token: string)
    requires Inv(cfg, db) && Mirrors(db, d) && ClockOk(cfg, clock) && FreshToken(db, token) && u in db.users
    requires Oldest(db.tokens, u, oldest)
    ensures var name := db.users[u].nameLc;
            var kept := if |TokensOf(db.tokens, u)| >= cfg.maxPerUser then db.(tokens := db.tokens - {oldest}) else db;
            var left := if |Held(d.tokens, name)| < cfg.maxPerUser then d.tokens
                        else d.tokens - {db.tokens[oldest].hash};
            Mirrors(InsertToken(kept, u, token, cfg, clock), d.(tokens := left[token := Issued(cfg, name, clock)]))
  {
    InvParts(cfg, db);
    MirrorParts(db, d);
    HeldIs(cfg, db, d, u);
    hide Inv, Mirrors, FreshToken, AccountsMirror, TokensMirror, InvitesMirror, InvitesLinked, UniqueNames,
        UniqueTokens, Issued, InsertToken, Held;
    if |TokensOf(db.tokens, u)| >= cfg.maxPerUser {
      DropMirrors(db, d, oldest);
      StillFresh(db, oldest, token);
      var kept, left := db.(tokens := db.tokens - {oldest}), d.(tokens := d.tokens - {db.tokens[oldest].hash});
      IssueMirrors(cfg, kept, left, u, token, clock);
    } else {
      IssueMirrors(cfg, db, d, u, token, clock);
    }
  }

  /** The token that goes, should one go. */
  function Evicted(db: Db, r: Request): string {
    if r.RefreshR? && r.oldest in db.tokens then db.tokens[r.oldest].hash else ""
  }

  lemma RegisterServes(cfg: Config, db: Db, d: Dir, r: Request)
    requires Inv(cfg, db) && Possible(cfg, db, r) && Mirrors(db, d) && r.RegisterR?
    ensures Serve(cfg, d, r, "").1 == Handle(cfg, db, r).1 && Mirrors(Handle(cfg, db, r).0, Serve(cfg, d, r, "").0)
  {
    hide Inv, Mirrors, Refusal, Verdict, FreshToken, Enrolled, InsertToken, MarkInvite;
    RefusalFacts(cfg, db, r.req, r.ok);
    VerdictIs(cfg, db, d, r.req, r.ok, r.token);
    if Refusal(cfg, db, r.req, r.ok).None? {
      EnrollMirrors(cfg, db, d, r.req, r.ok, r.clock, r.token);
    }
  }

  lemma EvictedIs(db: Db, u: UserId, r: Request)
    requires r.RefreshR? && Oldest(db.tokens, u, r.oldest)
    ensures r.oldest in db.tokens && Evicted(db, r) == db.tokens[r.oldest].hash
  {}

  lemma UnknownServes(cfg: Config, db: Db, d: Dir, r: Request, evicted: string)
    requires Possible(cfg, db, r) && !r.RegisterR?
    requires Resolve(db, r.hash, r.clock.now).None? && Holder(d, r.hash, r.clock.now).None?
    ensures Serve(cfg, d, r, evicted) == (d, Unauthorized) && Handle(cfg, db, r) == (db, Unauthorized)
  {
    hide Resolve, Holder, Register, FreshToken, Verdict, Enrolled, DayNumber;
  }

  lemma KnownRefresh(cfg: Config, db: Db, d: Dir, r: Request, u: UserId, name: string, evicted: string)
    requires Possible(cfg, db, r) && r.RefreshR?
    requires Resolve(db, r.hash, r.clock.now) == Some(u) && Holder(d, r.hash, r.clock.now) == Some(name)
    ensures var full := |TokensOf(db.tokens, u)| >= cfg.maxPerUser;
            var kept := if full then db.(tokens := db.tokens - {r.oldest}) else db;
            Handle(cfg, db, r) == (InsertToken(kept, u, r.token, cfg, r.clock), Refreshed(r.token))
    ensures var left := if |Held(d.tokens, name)| < cfg.maxPerUser then d.tokens else d.tokens - {evicted};
            var after := d.(tokens := left[r.token := Issued(cfg, name, r.clock)]);
            Serve(cfg, d, r, evicted) == (after, Refreshed(r.token))
  {
    hide Resolve, Holder, Oldest, FreshToken, DayNumber, TokensOf, Held, InsertToken, Issued;
  }

  lemma KnownRefreshMirrors(cfg: Config, db: Db, d: Dir, r: Request, u: UserId)
    requires Inv(cfg, db) && Possible(cfg, db, r) && Mirrors(db, d) && r.RefreshR? && u in db.users
    requires Resolve(db, r.hash, r.clock.now) == Some(u)
    requires Holder(d, r.hash, r.clock.now) == Some(db.users[u].nameLc)
    ensures var evicted := Evicted(db, r);
            Serve(cfg, d, r, evicted).1 == Handle(cfg, db, r).1
            && Mirrors(Handle(cfg, db, r).0, Serve(cfg, d, r, evicted).0)
  {
    EvictedIs(db, u, r);
    hide Inv, Mirrors, FreshToken, Issued, InsertToken, Held, Holder, Resolve, TokensOf, Oldest, Handle, Serve,
        DayNumber, Evicted;
    RefreshMirrors(cfg, db, d, u, r.clock, r.oldest, r.token);
    KnownRefresh(cfg, db, d, r, u, db.users[u].nameLc, Evicted(db, r));
  }

  lemma RefreshServes(cfg: Config, db: Db, d: Dir, r: Request)
    requires Inv(cfg, db) && Possible(cfg, db, r) && Mirrors(db, d) && r.RefreshR?
    ensures var evicted := Evicted(db, r);
            Serve(cfg, d, r, evicted).1 == Handle(cfg, db, r).1
            && Mirrors(Handle(cfg, db, r).0, Serve(cfg, d, r, evicted).0)
            && (Holder(d, r.hash, r.clock.now).Some? ==>
                  LongestOut(d.tokens, Holder(d, r.hash, r.clock.now).value, evicted))
  {
    HolderIs(cfg, db, d, r.hash, r.clock.now);
    InvParts(cfg, db);
    MirrorParts(db, d);
    hide Inv, Mirrors, FreshToken, AccountsMirror, TokensMirror, InvitesMirror, InvitesLinked, UniqueNames,
        UniqueTokens, Holder, Resolve, LongestOut, Oldest, Handle, Serve, DayNumber, Evicted;
    var user := Resolve(db, r.hash, r.clock.now);
    if user.Some? {
      EvictedIs(db, user.value, r);
      LongestOutIs(cfg, db, d, user.value, r.oldest);
      KnownRefreshMirrors(cfg, db, d, r, user.value);
    } else {
      UnknownServes(cfg, db, d, r, Evicted(db, r));
    }
  }

  lemma KnownPresence(cfg: Config, db: Db, d: Dir, r: Request, u: UserId, name: string)
    requires Possible(cfg, db, r) && (r.UpdateR? || r.HeartbeatR?) && u in db.presence && name in d.accounts
    requires Resolve(db, r.hash, r.clock.now) == Some(u) && Holder(d, r.hash, r.clock.now) == Some(name)
    ensures var p := if r.UpdateR? then Presence(r.ip, r.port, r.clock.now)
                     else db.presence[u].(lastSeen := r.clock.now);
            var a := if r.UpdateR? then d.accounts[name].(ip := r.ip, port := r.port, seen := r.clock.now)
                     else d.accounts[name].(seen := r.clock.now);
            if r.UpdateR? && !r.ipOk
            then Handle(cfg, db, r) == (db, BadRequest) && Serve(cfg, d, r, "") == (d, BadRequest)
            else Handle(cfg, db, r) == (db.(presence := db.presence[u := p]), Done)
                 && Serve(cfg, d, r, "") == (d.(accounts := d.accounts[name := a]), Done)
  {
    hide Resolve, Holder, DayNumber;
  }

  lemma AccountHere(cfg: Config, db: Db, d: Dir, u: UserId)
    requires u in db.users && AccountsMirror(db.users, db.presence, d.accounts)
    ensures u in db.presence && db.users[u].nameLc in d.accounts
    ensures d.accounts[db.users[u].nameLc] == AccountOf(db.users[u], db.presence[u])
  {}

  lemma PresenceServes(cfg: Config, db: Db, d: Dir, r: Request)
    requires Inv(cfg, db) && Possible(cfg, db, r) && Mirrors(db, d) && (r.UpdateR? || r.HeartbeatR?)
    ensures Serve(cfg, d, r, "").1 == Handle(cfg, db, r).1 && Mirrors(Handle(cfg, db, r).0, Serve(cfg, d, r, "").0)
  {
    HolderIs(cfg, db, d, r.hash, r.clock.now);
    InvParts(cfg, db);
    MirrorParts(db, d);
    hide Inv, Mirrors, AccountsMirror, TokensMirror, InvitesMirror, InvitesLinked, UniqueNames, UniqueTokens, Holder,
        Resolve, Handle, Serve, DayNumber;
    var user := Resolve(db, r.hash, r.clock.now);
    if user.Some? {
      var u := user.value;
      AccountHere(cfg, db, d, u);
      var p := if r.UpdateR? then Presence(r.ip, r.port, r.clock.now) else db.presence[u].(lastSeen := r.clock.now);
      PresenceMirrors(cfg, db, d, u, p);
      KnownPresence(cfg, db, d, r, u, db.users[u].nameLc);
    } else {
      UnknownServes(cfg, db, d, r, "");
    }
  }

  lemma KnownOther(cfg: Config, db: Db, d: Dir, r: Request, u: UserId, name: string)
    requires Possible(cfg, db, r) && (r.UnregisterR? || r.InviteR?) && d.invites.Keys == db.invites.Keys
    requires Resolve(db, r.hash, r.clock.now) == Some(u) && Holder(d, r.hash, r.clock.now) == Some(name)
    ensures r.UnregisterR? ==>
              Handle(cfg, db, r) == (DeleteUser(db, u), Done) && Serve(cfg, d, r, "") == (Struck(d, name), Done)
    ensures r.InviteR? ==>
              if r.code in db.invites
              then Handle(cfg, db, r) == (db, Internal) && Serve(cfg, d, r, "") == (d, Internal)
              else Handle(cfg, db, r)
                   == (db.(invites := db.invites[r.code := Invite(Some(u), None)]), InviteCreated(r.code))
                   && Serve(cfg, d, r, "")
                   == (d.(invites := d.invites[r.code := Card(Some(name), None)]), InviteCreated(r.code))
  {
    hide Resolve, Holder, DayNumber, DeleteUser, Struck;
  }

  lemma SameCodes(db: Db, d: Dir)
    requires InvitesMirror(db.users, db.invites, d.invites)
    ensures d.invites.Keys == db.invites.Keys
  {}

  lemma OtherServes(cfg: Config, db: Db, d: Dir, r: Request)
    requires Inv(cfg, db) && Possible(cfg, db, r) && Mirrors(db, d) && (r.UnregisterR? || r.InviteR?)
    ensures Serve(cfg, d, r, "").1 == Handle(cfg, db, r).1 && Mirrors(Handle(cfg, db, r).0, Serve(cfg, d, r, "").0)
  {
    HolderIs(cfg, db, d, r.hash, r.clock.now);
    InvParts(cfg, db);
    MirrorParts(db, d);
    SameCodes(db, d);
    hide Inv, Mirrors, AccountsMirror, TokensMirror, InvitesMirror, InvitesLinked, UniqueNames, UniqueTokens, Holder,
        Resolve, Handle, Serve, DeleteUser, Struck, DayNumber;
    var user := Resolve(db, r.hash, r.clock.now);
    if user.Some? {
      KnownOther(cfg, db, d, r, user.value, db.users[user.value].nameLc);
      if r.UnregisterR? {
        StrikeMirrors(cfg, db, d, user.value);
      } else if r.code !in db.invites {
        CreateMirrors(db, d, r.code, user.value);
      }
    } else {
      UnknownServes(cfg, db, d, r, "");
    }
  }

  /** Every request does to the directory what its handler does to the tables, with the same answer. */
  lemma HandlerServes(cfg: Config, db: Db, d: Dir, r: Request) returns (after: Dir)
    requires Inv(cfg, db) && Possible(cfg, db, r) && Mirrors(db, d)
    ensures Serves(cfg, d, r, Handle(cfg, db, r).1, after) && Mirrors(Handle(cfg, db, r).0, after)
  {
    hide Inv, Mirrors, Handle, Serve, Holder, LongestOut, Resolve, FreshToken, Oldest;
    var evicted := if r.RefreshR? then Evicted(db, r) else "";
    after := Serve(cfg, d, r, evicted).0;
    if r.RegisterR? {
      RegisterServes(cfg, db, d, r);
    } else if r.RefreshR? {
      RefreshServes(cfg, db, d, r);
    } else if r.UpdateR? || r.HeartbeatR? {
      PresenceServes(cfg, db, d, r);
    } else {
      OtherServes(cfg, db, d, r);
    }
    assert Serve(cfg, d, r, evicted) == (after, Handle(cfg, db, r).1);
  }

  /** What the handlers answer in a run. */
  ghost function Answers(cfg: Config, db: Db, rs: seq<Request>): seq<Answer>
    decreases |rs|
  {
    if rs == [] || !Possible(cfg, db, rs[0]) then []
    else [Handle(cfg, db, rs[0]).1] + Answers(cfg, Handle(cfg, db, rs[0]).0, rs[1..])
  }

  lemma {:induction false} RunServes(cfg: Config, before: Db, d: Dir, rs: seq<Request>, db: Db) returns (after: Dir)
    requires Inv(cfg, before) && Mirrors(before, d) && Reaches(cfg, before, rs, db)
    ensures Follows(cfg, d, rs, Answers(cfg, before, rs), after) && Mirrors(db, after)
    decreases |rs|
  {
    hide Inv, Mirrors, Possible, Handle, Serves;
    if rs == [] {
      after := d;
    } else {
      var next := Handle(cfg, before, rs[0]).0;
      HandleKeepsInv(cfg, before, rs[0]);
      var mid := HandlerServes(cfg, before, d, rs[0]);
      after := RunServes(cfg, next, mid, rs[1..], db);
      assert Answers(cfg, before, rs)[1..] == Answers(cfg, next, rs[1..]);
      assert Answers(cfg, before, rs)[0] == Handle(cfg, before, rs[0]).1;
    }
  }

  lemma NothingMirrors(cfg: Config)
    ensures Inv(cfg, EMPTY_DB) && Mirrors(EMPTY_DB, EMPTY_DIR)
  {}

  /** Every run of the handlers from empty tables is a run of the directory from nothing, answer by
      answer, and what the tables hold in the end is what the directory says. */
  lemma TablesFollowTheDirectory(cfg: Config, rs: seq<Request>, db: Db)
    requires Reaches(cfg, EMPTY_DB, rs, db)
    ensures exists d :: Follows(cfg, EMPTY_DIR, rs, Answers(cfg, EMPTY_DB, rs), d) && Mirrors(db, d)
  {
    NothingMirrors(cfg);
    hide Inv, Mirrors, Reaches, Follows;
    var d := RunServes(cfg, EMPTY_DB, EMPTY_DIR, rs, db);
  }

  // ---------------------------------------------------------------------------
  // What is found under a name

  function At(accounts: map<string, Account>, name: string): Option<Account> {
    if name in accounts then Some(accounts[name]) else None
  }

  /** What a request and its answer say about a name; `speaker` is whom the token stands for. */
  function Said(cfg: Config, r: Request, answer: Answer, speaker: Option<string>, name: string, before: Option<Account>)
    : Option<Account>
  {
    match r
    case RegisterR(req, _, clock, token) =>
      if answer == Registered(token) && cfg.lower(req.name) == name
      then Some(Account(req.name, req.pubkey, req.email, req.ip, req.port, clock.now)) else before
    case UpdateR(_, ip, port, _, clock) =>
      if answer == Done && speaker == Some(name) && before.Some?
      then Some(before.value.(ip := ip, port := port, seen := clock.now)) else before
    case HeartbeatR(_, clock) =>
      if answer == Done && speaker == Some(name) && before.Some?
      then Some(before.value.(seen := clock.now)) else before
    case UnregisterR(_, _) => if answer == Done && speaker == Some(name) then None else before
    case _ => before
  }

  lemma VerdictIsAnAnswer(cfg: Config, d: Dir, req: RegisterReq, ok: Checks, token: string)
    ensures var v := Verdict(cfg, d, req, ok, token); v.Registered? ==> v == Registered(token)
  {}

  lemma ServeSays(cfg: Config, d: Dir, r: Request, evicted: string, name: string)
    requires 1 <= r.clock.now.month <= 12
    ensures var speaker := if r.RegisterR? then None else Holder(d, r.hash, r.clock.now);
            var (after, answer) := Serve(cfg, d, r, evicted);
            At(after.accounts, name) == Said(cfg, r, answer, speaker, name, At(d.accounts, name))
  {
    if r.RegisterR? {
      VerdictIsAnAnswer(cfg, d, r.req, r.ok, r.token);
    }
    hide Verdict, Holder, Held, Issued;
  }

  ghost function Speaker(db: Db, r: Request): Option<string> {
    if r.RegisterR? then None else NameOf(db.users, Resolve(db, r.hash, r.clock.now))
  }

  /** What the requests of a run, one after the other, have said about a name. */
  ghost function LastSaid(cfg: Config, db: Db, rs: seq<Request>, name: string, before: Option<Account>): Option<Account>
    decreases |rs|
  {
    if rs == [] || !Possible(cfg, db, rs[0]) then before
    else
      var (next, answer) := Handle(cfg, db, rs[0]);
      LastSaid(cfg, next, rs[1..], name, Said(cfg, rs[0], answer, Speaker(db, rs[0]), name, before))
  }

  lemma SpeakerIsHolder(cfg: Config, db: Db, d: Dir, r: Request)
    requires Inv(cfg, db) && Possible(cfg, db, r) && Mirrors(db, d)
    ensures Valid(r.clock.now) && Speaker(db, r) == if r.RegisterR? then None else Holder(d, r.hash, r.clock.now)
  {
    hide Inv, Mirrors, Holder, Resolve, NameOf, FreshToken, Oldest;
    if !r.RegisterR? {
      HolderIs(cfg, db, d, r.hash, r.clock.now);
    }
  }

  lemma StepSays(cfg: Config, db: Db, d: Dir, r: Request, name: string) returns (after: Dir)
    requires Inv(cfg, db) && Possible(cfg, db, r) && Mirrors(db, d)
    ensures Mirrors(Handle(cfg, db, r).0, after)
    ensures At(after.accounts, name)
         == Said(cfg, r, Handle(cfg, db, r).1, Speaker(db, r), name, At(d.accounts, name))
  {
    SpeakerIsHolder(cfg, db, d, r);
    hide Inv, Mirrors, Possible, Handle, Serve, Said, Speaker, Holder, At;
    after := HandlerServes(cfg, db, d, r);
    var evicted :| Serve(cfg, d, r, evicted) == (after, Handle(cfg, db, r).1);
    ServeSays(cfg, d, r, evicted, name);
  }

  lemma {:induction false} RunSays(cfg: Config, before: Db, d: Dir, rs: seq<Request>, db: Db, name: string)
    returns (after: Dir)
    requires Inv(cfg, before) && Mirrors(before, d) && Reaches(cfg, before, rs, db)
    ensures Mirrors(db, after) && At(after.accounts, name) == LastSaid(cfg, before, rs, name, At(d.accounts, name))
    decreases |rs|
  {
    hide Inv, Mirrors, Possible, Handle, Said, Speaker, At;
    if rs == [] {
      after := d;
    } else {
      HandleKeepsInv(cfg, before, rs[0]);
      var mid := StepSays(cfg, before, d, rs[0], name);
      after := RunSays(cfg, Handle(cfg, before, rs[0]).0, mid, rs[1..], db, name);
    }
  }

  /** Under every name the tables hold what the last registration, updates and heartbeats of that name
      said, field by field, and nothing if it was unregistered since or never registered. */
  lemma FoundIsWhatWasSaid(cfg: Config, rs: seq<Request>, db: Db, name: string)
    requires Reaches(cfg, EMPTY_DB, rs, db)
    ensures var said := LastSaid(cfg, EMPTY_DB, rs, name, None);
            (said.None? <==> forall u :: u in db.users ==> db.users[u].nameLc != name)
            && forall u :: u in db.users && db.users[u].nameLc == name ==>
                 u in db.presence
                 && said == Some(Account(db.users[u].name, db.users[u].pubkey, db.users[u].email, db.presence[u].ip,
                                         db.presence[u].port, db.presence[u].lastSeen))
  {
    NothingMirrors(cfg);
    hide Inv, Mirrors, Reaches, LastSaid, AccountsMirror;
    var d := RunSays(cfg, EMPTY_DB, EMPTY_DIR, rs, db, name);
    MirrorParts(db, d);
    TakenIsListed(db, d, name);
    forall u | u in db.users && db.users[u].nameLc == name
      ensures u in db.presence && At(d.accounts, name) == Some(AccountOf(db.users[u], db.presence[u]))
    {
      AccountHere(cfg, db, d, u);
    }
  }
}

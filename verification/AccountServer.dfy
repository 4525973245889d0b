/** The handlers of src/discovery.rs carried out on mutable tables, one statement after another.
    Each method is proved to compute the handler function of module Accounts. */
module AccountServer {
  import opened Common
  import opened Expiry
  import A = Accounts
  import D = Directory

  lemma TokensAreUnique(cfg: A.Config, db: A.Db)
    requires A.Inv(cfg, db)
    ensures A.UniqueTokens(db.tokens)
  {}

  class AccountServer {
    const cfg: A.Config
    var users: map<A.UserId, A.User>
    var presence: map<A.UserId, A.Presence>
    var tokens: map<A.TokenId, A.Token>
    var invites: map<string, A.Invite>
    var nextUser: A.UserId
    var nextToken: A.TokenId

    ghost function View(): A.Db
      reads this
    {
      A.Db(users, presence, tokens, invites, nextUser, nextToken)
    }

    ghost predicate Valid()
      reads this
    {
      A.Inv(cfg, View())
    }

    constructor (cfg: A.Config)
      ensures Valid() && this.cfg == cfg && View() == A.Db(map[], map[], map[], map[], 1, 1)
    {
      this.cfg := cfg;
      users, presence, tokens, invites := map[], map[], map[], map[];
      nextUser, nextToken := 1, 1;
    }

    /** A row of the token table with this hash and without expiry or not yet expired. */
    predicate LetsIn(id: A.TokenId, hash: string, now: Stamp)
      reads this
    {
      id in tokens && tokens[id].hash == hash && (tokens[id].expires.None? || NotExpired(tokens[id].expires.value, now))
    }

    /** `resolve_token` */
    method ResolveToken(hash: string, now: Stamp) returns (user: Option<A.UserId>)
      requires Valid()
      ensures user == A.Resolve(View(), hash, now)
      ensures user.Some? <==> exists id :: LetsIn(id, hash, now)
      ensures user.Some? ==> exists id :: LetsIn(id, hash, now) && tokens[id].user == user.value
    {
      hide A.Inv;
      if id :| id in tokens && A.Accepts(tokens[id], hash, now) {
        assert LetsIn(id, hash, now);
        TokensAreUnique(cfg, View());
        A.ResolveFinds(View(), hash, now, id);
        return Some(tokens[id].user);
      }
      return None;
    }

    /** The one new row of the token table, created now and good for `ttlDays` from now. */
    ghost predicate TokenAdded(
      before: map<A.TokenId, A.Token>, id: A.TokenId, user: A.UserId, hash: string, clock: A.Clock)
      reads this
      requires 1 <= clock.now.month <= 12
    {
      var expires := if cfg.ttlDays == 0 then None else Some(Rfc3339(clock.later, clock.rest));
      tokens == before[id := A.Token(user, hash, Seconds(clock.now), expires)]
    }

    method InsertToken(user: A.UserId, hash: string, clock: A.Clock)
      requires 1 <= clock.now.month <= 12
      modifies this`tokens, this`nextToken
      ensures View() == A.InsertToken(old(View()), user, hash, cfg, clock)
      ensures TokenAdded(old(tokens), old(nextToken), user, hash, clock)
    {
      var expires := None;
      if cfg.ttlDays > 0 {
        expires := Some(Rfc3339(clock.later, clock.rest));
      }
      tokens := tokens[nextToken := A.Token(user, hash, Seconds(clock.now), expires)];
      nextToken := nextToken + 1;
    }

    /** The checks of a registration, in the order of the source. */
    method CheckRegistration(req: A.RegisterReq, ok: A.Checks) returns (refusal: Option<A.Answer>)
      ensures refusal == A.Refusal(cfg, View(), req, ok) && (refusal.Some? ==> !refusal.value.Registered?)
      ensures refusal.None? <==>
                ok == A.Checks(true, true, true, true, true, true)
                && (cfg.open || (req.invite.Some? && req.invite.value in invites
                                 && invites[req.invite.value].usedBy.None?))
                && (forall u :: u in users ==> users[u].nameLc != cfg.lower(req.name))
                && (cfg.maxUsers == 0 || |users| < cfg.maxUsers)
    {
      if !ok.rateAllowed {
        return Some(A.TooManyRequests);
      }
      if !ok.versionOk {
        return Some(A.ClientTooOld);
      }
      if !cfg.open {
        if req.invite == None {
          return Some(A.RegistrationClosed);
        }
        if !A.UnusedInvite(invites, req.invite.value) {
          return Some(A.InvalidInvite);
        }
      }
      if !ok.nameOk {
        return Some(A.BadRequest);
      }
      if A.NameTaken(users, cfg.lower(req.name)) {
        return Some(A.UsernameTaken);
      }
      if !ok.pubkeyOk {
        return Some(A.BadRequest);
      }
      if !ok.ipOk {
        return Some(A.BadRequest);
      }
      if !ok.emailOk {
        return Some(A.BadRequest);
      }
      if cfg.maxUsers > 0 {
        if |users| >= cfg.maxUsers {
          return Some(A.ServerFull);
        }
      }
      return None;
    }

    method Register(req: A.RegisterReq, ok: A.Checks, clock: A.Clock, token: string) returns (answer: A.Answer)
      requires Valid() && A.ClockOk(cfg, clock) && A.FreshToken(View(), token)
      modifies this
      ensures Valid()
      ensures (View(), answer) == A.Register(cfg, old(View()), req, ok, clock, token)
      ensures answer == A.Registered(token) ==>
                users == old(users)[old(nextUser) := A.User(req.name, cfg.lower(req.name), req.pubkey, req.email)]
                && presence == old(presence)[old(nextUser) := A.Presence(req.ip, req.port, clock.now)]
                && TokenAdded(old(tokens), old(nextToken), old(nextUser), token, clock)
                && (if req.invite.Some? && req.invite.value in old(invites)
                    then invites == old(invites)[req.invite.value :=
                                      A.Invite(old(invites)[req.invite.value].creator, Some(old(nextUser)))]
                    else invites == old(invites))
      ensures answer != A.Registered(token) ==> View() == old(View())
    {
      hide A.Inv, A.FreshToken, A.Refusal, A.InsertToken, Seconds, Rfc3339, DayNumber;
      A.RegisterKeepsInv(cfg, View(), req, ok, clock, token);
      var refusal := CheckRegistration(req, ok);
      if refusal.Some? {
        return refusal.value;
      }
      var user := nextUser;
      users := users[user := A.User(req.name, cfg.lower(req.name), req.pubkey, req.email)];
      nextUser := nextUser + 1;
      presence := presence[user := A.Presence(req.ip, req.port, clock.now)];
      InsertToken(user, token, clock);
      UseInvite(req.invite, user);
      return A.Registered(token);
    }

    method UseInvite(code: Option<string>, user: A.UserId)
      modifies this`invites
      ensures invites == A.MarkInvite(old(invites), code, user)
    {
      if code.Some? {
        if code.value in invites {
          invites := invites[code.value := invites[code.value].(usedBy := Some(user))];
        }
      }
    }

    /** The account under a name, whatever its case, with its presence row. */
    method Lookup(name: string) returns (found: Option<D.Account>)
      requires Valid()
      ensures found.None? <==> forall u :: u in users ==> users[u].nameLc != cfg.lower(name)
      ensures found.Some? ==>
                exists u :: u in users && u in presence && users[u].nameLc == cfg.lower(name)
                            && found.value == D.Account(users[u].name, users[u].pubkey, users[u].email, presence[u].ip,
                                                        presence[u].port, presence[u].lastSeen)
      ensures forall d: D.Dir :: D.Mirrors(View(), d) ==>
                found == if cfg.lower(name) in d.accounts then Some(d.accounts[cfg.lower(name)]) else None
    {
      hide A.Inv, D.Mirrors, D.AccountsMirror;
      A.InvLinksTables(cfg, View());
      forall d | D.Mirrors(View(), d)
        ensures D.AccountsMirror(users, presence, d.accounts)
      {
        D.MirrorParts(View(), d);
      }
      if u :| u in users && users[u].nameLc == cfg.lower(name) {
        forall d: D.Dir | D.AccountsMirror(users, presence, d.accounts)
          ensures cfg.lower(name) in d.accounts
          ensures d.accounts[cfg.lower(name)] == D.AccountOf(users[u], presence[u])
        {
          D.AccountHere(cfg, View(), d, u);
        }
        return Some(D.AccountOf(users[u], presence[u]));
      }
      forall d: D.Dir | D.AccountsMirror(users, presence, d.accounts)
        ensures cfg.lower(name) !in d.accounts
      {
        D.TakenIsListed(View(), d, cfg.lower(name));
      }
      return None;
    }

    method Update(hash: string, ip: string, port: nat, ipOk: bool, now: Stamp) returns (answer: A.Answer)
      requires Valid()
      modifies this`presence
      ensures Valid()
      ensures (View(), answer) == A.Update(old(View()), hash, ip, port, ipOk, now)
      ensures var user := A.Resolve(old(View()), hash, now);
              answer == (if user.None? then A.Unauthorized else if !ipOk then A.BadRequest else A.Done)
              && presence == if answer != A.Done then old(presence)
                             else old(presence)[user.value := A.Presence(ip, port, now)]
    {
      hide A.Inv, A.Resolve, A.TablesLinked;
      A.InvLinksTables(cfg, View());
      A.ResolvedUserExists(View(), hash, now);
      var user := ResolveToken(hash, now);
      if user == None {
        return A.Unauthorized;
      }
      if !ipOk {
        return A.BadRequest;
      }
      A.PresenceKeepsInv(cfg, View(), user.value, A.Presence(ip, port, now));
      presence := presence[user.value := A.Presence(ip, port, now)];
      return A.Done;
    }

    method Heartbeat(hash: string, now: Stamp) returns (answer: A.Answer)
      requires Valid()
      modifies this`presence
      ensures Valid()
      ensures (View(), answer) == A.Heartbeat(old(View()), hash, now)
      ensures var user := A.Resolve(old(View()), hash, now);
              answer == (if user.None? then A.Unauthorized else A.Done)
              && presence.Keys == old(presence).Keys
              && forall u :: u in presence ==>
                   presence[u] == if Some(u) == user then old(presence)[u].(lastSeen := now) else old(presence)[u]
    {
      hide A.Inv, A.Resolve, A.TablesLinked;
      A.InvLinksTables(cfg, View());
      A.ResolvedUserExists(View(), hash, now);
      var user := ResolveToken(hash, now);
      if user == None {
        return A.Unauthorized;
      }
      if user.value in presence {
        A.PresenceKeepsInv(cfg, View(), user.value, presence[user.value].(lastSeen := now));
        presence := presence[user.value := presence[user.value].(lastSeen := now)];
      }
      return A.Done;
    }

    method Unregister(hash: string, now: Stamp) returns (answer: A.Answer)
      requires Valid()
      modifies this
      ensures Valid()
      ensures (View(), answer) == A.Unregister(old(View()), hash, now)
      ensures var user := A.Resolve(old(View()), hash, now);
              if user.None? then answer == A.Unauthorized && View() == old(View())
              else answer == A.Done && users == old(users) - {user.value} && presence == old(presence) - {user.value}
                   && invites.Keys == old(invites).Keys
                   && forall id :: id in tokens <==> id in old(tokens) && old(tokens)[id].user != user.value
    {
      hide A.Inv, A.Resolve, A.TablesLinked;
      A.InvLinksTables(cfg, View());
      A.ResolvedUserExists(View(), hash, now);
      var user := ResolveToken(hash, now);
      if user == None {
        return A.Unauthorized;
      }
      var u := user.value;
      A.DeleteUserKeepsInv(cfg, View(), u);
      users := users - {u};
      presence := presence - {u};
      tokens := map id | id in tokens && tokens[id].user != u :: tokens[id];
      invites := map code | code in invites :: A.Unlink(invites[code], u);
      return A.Done;
    }

    /** The token to delete is the row the database picks among the oldest. */
    method TokenRefresh(hash: string, clock: A.Clock, oldest: A.TokenId, token: string) returns (answer: A.Answer)
      requires Valid() && A.Possible(cfg, View(), A.RefreshR(hash, clock, oldest, token))
      modifies this`tokens, this`nextToken
      ensures Valid()
      ensures (View(), answer) == A.TokenRefresh(cfg, old(View()), hash, clock, oldest, token)
      ensures var user := A.Resolve(old(View()), hash, clock.now);
              if user.None? then answer == A.Unauthorized && View() == old(View())
              else answer == A.Refreshed(token)
                   && TokenAdded(if |A.TokensOf(old(tokens), user.value)| >= cfg.maxPerUser then old(tokens) - {oldest}
                                 else old(tokens), old(nextToken), user.value, token, clock)
    {
      hide A.Inv, A.Resolve, A.FreshToken, A.Oldest, A.InsertToken;
      A.RefreshKeepsInv(cfg, View(), hash, clock, oldest, token);
      var user := ResolveToken(hash, clock.now);
      if user == None {
        return A.Unauthorized;
      }
      if |A.TokensOf(tokens, user.value)| >= cfg.maxPerUser {
        tokens := tokens - {oldest};
      }
      InsertToken(user.value, token, clock);
      return A.Refreshed(token);
    }

    method InviteCreate(hash: string, code: string, now: Stamp) returns (answer: A.Answer)
      requires Valid()
      modifies this`invites
      ensures Valid()
      ensures (View(), answer) == A.InviteCreate(old(View()), hash, code, now)
      ensures var user := A.Resolve(old(View()), hash, now);
              if user.None? then answer == A.Unauthorized && invites == old(invites)
              else if code in old(invites) then answer == A.Internal && invites == old(invites)
              else answer == A.InviteCreated(code) && invites == old(invites)[code := A.Invite(user, None)]
    {
      hide A.Inv, A.Resolve, A.TablesLinked;
      A.InvLinksTables(cfg, View());
      A.ResolvedUserExists(View(), hash, now);
      var user := ResolveToken(hash, now);
      if user == None {
        return A.Unauthorized;
      }
      if code in invites {
        return A.Internal;
      }
      A.InsertInviteKeepsInv(cfg, View(), user.value, code);
      invites := invites[code := A.Invite(Some(user.value), None)];
      return A.InviteCreated(code);
    }
  }
}

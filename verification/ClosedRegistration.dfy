/** What invites account for when registration is closed, over whole runs. */
module ClosedRegistration {
  import opened Common
  import opened Expiry
  import opened Accounts

  /** The codes that account `user` holds as used. */
  function CodesOf(invites: map<string, Invite>, user: UserId): set<string> {
    set code | code in invites && invites[code].usedBy == Some(user)
  }

  /** Accounts numbered `first` or later came through exactly one invite each. */
  ghost predicate OneInviteEach(db: Db, first: UserId) {
    first <= db.nextUser
    && forall u :: u in db.users && u >= first ==> exists code :: CodesOf(db.invites, u) == {code}
  }

  lemma MarkUnused(db: Db, code: string, user: UserId)
    requires InvitesLinked(db.users, db.invites) && UnusedInvite(db.invites, code) && user !in db.users
    ensures CodesOf(MarkInvite(db.invites, Some(code), user), user) == {code}
    ensures forall v :: v != user ==> CodesOf(MarkInvite(db.invites, Some(code), user), v) == CodesOf(db.invites, v)
  {
  }

  lemma RegisterKeepsOneInvite(cfg: Config, db: Db, req: RegisterReq, ok: Checks, clock: Clock, token: string,
          first: UserId)
    requires !cfg.open && Inv(cfg, db) && OneInviteEach(db, first) && 1 <= clock.now.month <= 12
    ensures OneInviteEach(Register(cfg, db, req, ok, clock, token).0, first)
    ensures forall u :: u in Register(cfg, db, req, ok, clock, token).0.users && u < first ==> u in db.users
  {
    hide TokenLimit, UniqueNames, UniqueTokens, Seconds, Expires;
    if Refusal(cfg, db, req, ok) == None {
      var u, code := db.nextUser, req.invite.value;
      var after := Register(cfg, db, req, ok, clock, token).0;
      assert after.invites == MarkInvite(db.invites, req.invite, u);
      MarkUnused(db, code, u);
      forall v | v in after.users && v >= first
        ensures exists c :: CodesOf(after.invites, v) == {c}
      {
        if v == u {
          assert CodesOf(after.invites, v) == {code};
        } else {
          assert CodesOf(after.invites, v) == CodesOf(db.invites, v);
        }
      }
    }
  }

  lemma DeleteKeepsOneInvite(db: Db, user: UserId, first: UserId)
    requires OneInviteEach(db, first)
    ensures OneInviteEach(DeleteUser(db, user), first)
  {
    var after := DeleteUser(db, user);
    forall v | v in after.users && v >= first
      ensures exists c :: CodesOf(after.invites, v) == {c}
    {
      assert CodesOf(after.invites, v) == CodesOf(db.invites, v);
    }
  }

  lemma CreateKeepsOneInvite(db: Db, user: UserId, code: string, first: UserId)
    requires OneInviteEach(db, first) && code !in db.invites
    ensures OneInviteEach(db.(invites := db.invites[code := Invite(Some(user), None)]), first)
  {
    var after := db.(invites := db.invites[code := Invite(Some(user), None)]);
    forall v | v in after.users && v >= first
      ensures exists c :: CodesOf(after.invites, v) == {c}
    {
      assert CodesOf(after.invites, v) == CodesOf(db.invites, v);
    }
  }

  lemma InsertTokenFrame(cfg: Config, db: Db, oldest: TokenId, token: string, clock: Clock)
    requires 1 <= clock.now.month <= 12
    ensures forall kept: Db, u ::
              kept.users == db.users && kept.invites == db.invites && kept.nextUser == db.nextUser ==>
              var after := InsertToken(kept, u, token, cfg, clock);
              after.users == db.users && after.invites == db.invites && after.nextUser == db.nextUser
  {
  }

  /** No handler adds accounts below `first`, and closed registration adds none without an invite. */
  lemma HandleKeepsOneInvite(cfg: Config, db: Db, r: Request, first: UserId)
    requires !cfg.open && Inv(cfg, db) && Possible(cfg, db, r) && OneInviteEach(db, first)
    ensures OneInviteEach(Handle(cfg, db, r).0, first)
    ensures forall u :: u in Handle(cfg, db, r).0.users && u < first ==> u in db.users
  {
    hide Inv, Resolve, InsertToken, Register, FreshToken, Oldest, TokensOf;
    match r
    case RegisterR(req, ok, clock, token) => RegisterKeepsOneInvite(cfg, db, req, ok, clock, token, first);
    case UnregisterR(hash, clock) =>
      var user := Resolve(db, hash, clock.now);
      if user.Some? {
        DeleteKeepsOneInvite(db, user.value, first);
      }
    case InviteR(hash, code, clock) =>
      var user := Resolve(db, hash, clock.now);
      if user.Some? && code !in db.invites {
        CreateKeepsOneInvite(db, user.value, code, first);
      }
    case RefreshR(hash, clock, oldest, token) => InsertTokenFrame(cfg, db, oldest, token, clock);
    case UpdateR(_, _, _, _, _) =>
    case HeartbeatR(_, _) =>
  }

  lemma {:induction false} RunKeepsOneInvite(cfg: Config, before: Db, rs: seq<Request>, after: Db, first: UserId)
    requires !cfg.open && Inv(cfg, before) && OneInviteEach(before, first) && Reaches(cfg, before, rs, after)
    ensures OneInviteEach(after, first)
    ensures forall u :: u in after.users && u < first ==> u in before.users
    decreases |rs|
  {
    hide Inv, Handle, Possible, OneInviteEach;
    if rs != [] {
      HandleKeepsInv(cfg, before, rs[0]);
      HandleKeepsOneInvite(cfg, before, rs[0], first);
      RunKeepsOneInvite(cfg, Handle(cfg, before, rs[0]).0, rs[1..], after, first);
    }
  }

  // ---------------------------------------------------------------------------
  // Counting

  function NewAccounts(db: Db, first: UserId): set<UserId> {
    set u | u in db.users && u >= first
  }

  function SpentInvites(db: Db, first: UserId): set<string> {
    set code | code in db.invites && db.invites[code].usedBy.Some? && db.invites[code].usedBy.value >= first
  }

  lemma NewAccountsAreSpentInvites(db: Db, first: UserId)
    requires InvitesLinked(db.users, db.invites) && OneInviteEach(db, first)
    ensures |NewAccounts(db, first)| == |SpentInvites(db, first)| <= |db.invites|
  {
    var holder := map code | code in SpentInvites(db, first) :: db.invites[code].usedBy.value;
    forall u | u in NewAccounts(db, first)
      ensures u in holder.Values
    {
      var code :| CodesOf(db.invites, u) == {code};
      assert code in CodesOf(db.invites, u);
      assert code in holder && holder[code] == u;
    }
    forall a, b | a in holder && b in holder && holder[a] == holder[b]
      ensures a == b
    {
      var code :| CodesOf(db.invites, holder[a]) == {code};
      assert a in CodesOf(db.invites, holder[a]) && b in CodesOf(db.invites, holder[a]);
    }
    BijectionSize(holder);
    assert holder.Keys == SpentInvites(db, first) && holder.Values == NewAccounts(db, first);
    Smaller(SpentInvites(db, first), db.invites.Keys);
  }

  lemma InitiallyNoneNew(cfg: Config, db: Db)
    requires Inv(cfg, db)
    ensures OneInviteEach(db, db.nextUser) && InvitesLinked(db.users, db.invites)
  {}

  lemma AccountsSplit(before: Db, after: Db, first: UserId)
    requires forall u :: u in after.users && u < first ==> u in before.users
    ensures |after.users| <= |before.users| + |NewAccounts(after, first)|
  {
    var kept := after.users.Keys - NewAccounts(after, first);
    Smaller(kept, before.users.Keys);
    assert after.users.Keys == kept + NewAccounts(after, first);
  }

  /** With registration closed, the accounts created during a run are exactly as many as the
      invites they hold, so the accounts never exceed the initial ones plus the invites. */
  lemma ClosedRegistrationIsBounded(cfg: Config, before: Db, rs: seq<Request>, after: Db)
    requires !cfg.open && Inv(cfg, before) && Reaches(cfg, before, rs, after)
    ensures |NewAccounts(after, before.nextUser)| == |SpentInvites(after, before.nextUser)|
    ensures |after.users| <= |before.users| + |after.invites|
  {
    hide Inv, Reaches, OneInviteEach, InvitesLinked, TablesLinked, NewAccounts, SpentInvites;
    var first := before.nextUser;
    InitiallyNoneNew(cfg, before);
    RunKeepsInv(cfg, before, rs, after);
    RunKeepsOneInvite(cfg, before, rs, after, first);
    InitiallyNoneNew(cfg, after);
    NewAccountsAreSpentInvites(after, first);
    AccountsSplit(before, after, first);
  }

  /** Unregistering an account that came through an invite frees that invite, which can then be
      used again, and changes the `used_by` of no other. */
  lemma UnregisterFreesOneInvite(cfg: Config, db: Db, hash: string, now: Stamp, first: UserId)
    requires Inv(cfg, db) && OneInviteEach(db, first)
    requires Resolve(db, hash, now).Some? && Resolve(db, hash, now).value >= first
    ensures var user, after := Resolve(db, hash, now).value, Unregister(db, hash, now).0;
            exists code ::
              CodesOf(db.invites, user) == {code} && UnusedInvite(after.invites, code)
              && forall c :: c in db.invites && c != code ==> after.invites[c].usedBy == db.invites[c].usedBy
  {
    ResolvedUserExists(db, hash, now);
    hide Resolve;
    var user := Resolve(db, hash, now).value;
    var code :| CodesOf(db.invites, user) == {code};
    assert code in CodesOf(db.invites, user);
    forall c | c in db.invites && c != code
      ensures db.invites[c].usedBy != Some(user)
    {
      assert c !in CodesOf(db.invites, user);
    }
  }
}

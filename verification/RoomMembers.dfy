/** Who may post in a channel: roles from the member table to the connections to the messages. */
module RoomMembers {
  import opened Room

  function Granted(s: State): set<string> {
    s.grants + s.misgrants
  }

  /** Nobody is an admin, and owners were granted their role by a join. */
  predicate RoleOk(role: Role, user: string, granted: set<string>) {
    role != Admin && (role == Owner ==> user in granted)
  }

  ghost predicate MembersOk(members: map<string, Member>, granted: set<string>) {
    forall u :: u in members ==> RoleOk(members[u].role, u, granted)
  }

  ghost predicate AgentRoleOk(a: Agent, granted: set<string>) {
    RoleOk(a.role, a.user, granted) && (a.pc.Counted? ==> RoleOk(a.pc.grant, a.user, granted))
  }

  ghost predicate RolesOk(agents: seq<Agent>, granted: set<string>) {
    forall p :: 0 <= p < |agents| ==> AgentRoleOk(agents[p], granted)
  }

  ghost predicate PostersOk(cfg: Config, log: seq<Entry>, granted: set<string>) {
    cfg.broadcastOnly ==> forall k :: 0 <= k < |log| ==> log[k].post.sender in granted
  }

  ghost predicate Inv(cfg: Config, s: State) {
    MembersOk(s.members, Granted(s)) && RolesOk(s.agents, Granted(s)) && PostersOk(cfg, s.log, Granted(s))
  }

  lemma CountKeepsInv(cfg: Config, s: State, p: nat, failed: bool)
    requires Inv(cfg, s) && Enabled(cfg, s, JoinCounts(p, failed))
    ensures Inv(cfg, Step(cfg, s, JoinCounts(p, failed)))
  {
    assert AgentRoleOk(s.agents[p], Granted(s));
  }

  lemma UpsertKeepsInv(cfg: Config, s: State, p: nat, token: string)
    requires Inv(cfg, s) && Enabled(cfg, s, JoinUpserts(p, token))
    ensures Inv(cfg, Step(cfg, s, JoinUpserts(p, token)))
  {
    assert AgentRoleOk(s.agents[p], Granted(s));
  }

  lemma StoreKeepsInv(cfg: Config, s: State, p: nat, post: Post, stored: bool)
    requires Inv(cfg, s) && p < |s.agents| && post.sender == s.agents[p].user
    ensures Inv(cfg, Store(cfg, s, p, post, stored))
  {
    assert AgentRoleOk(s.agents[p], Granted(s));
  }

  /** The agents keep their roles and nobody gains one that is counted. */
  ghost predicate SameRoles(before: seq<Agent>, after: seq<Agent>) {
    |before| == |after|
    && forall p :: 0 <= p < |before| ==>
         after[p].user == before[p].user && after[p].role == before[p].role
         && (after[p].pc.Counted? ==> after[p].pc == before[p].pc)
  }

  lemma CloseSameRoles(conns: map<string, nat>, agents: seq<Agent>, user: string)
    ensures SameRoles(agents, Close(conns, agents, user))
  {}

  lemma RegisterSameRoles(s: State, p: nat)
    requires p < |s.agents|
    ensures var t := RegisterAgent(s, p); SameRoles(s.agents, t.agents) && t == s.(agents := t.agents, conns := t.conns)
  {
    hide Close, SentCounts;
    CloseSameRoles(s.conns, s.agents, s.agents[p].user);
  }

  lemma OneSameRole(before: seq<Agent>, agents: seq<Agent>, p: nat, b: Agent)
    requires SameRoles(before, agents) && p < |agents| && !b.pc.Counted?
    requires b.user == agents[p].user && b.role == agents[p].role
    ensures SameRoles(before, agents[p := b])
  {}

  lemma QueueSameRole(before: seq<Agent>, agents: seq<Agent>, c: nat, b: Agent)
    requires SameRoles(before, agents) && c < |agents| && b == agents[c].(queue := b.queue, enqueued := b.enqueued)
    ensures SameRoles(before, agents[c := b])
  {}

  lemma DeliverSameRoles(s: State, p: nat, c: nat)
    requires p < |s.agents| && s.agents[p].pc.Sending? && s.agents[p].sent != []
    ensures var t := Deliver(s, p, c); SameRoles(s.agents, t.agents) && t == s.(agents := t.agents)
  {
    assert SameRoles(s.agents, s.agents);
    hide SameRoles;
    var a := s.agents[p];
    var agents := s.agents[p := a.(pc := Sending(a.pc.todo - {c}, a.pc.back))];
    OneSameRole(s.agents, s.agents, p, agents[p]);
    if c < |agents| {
      QueueSameRole(s.agents, agents, c, Deliver(s, p, c).agents[c]);
    }
  }

  lemma SameRolesKeepInv(cfg: Config, s: State, t: State)
    requires Inv(cfg, s) && SameRoles(s.agents, t.agents) && t.log == s.log
    requires t.grants == s.grants && t.misgrants == s.misgrants
    requires forall u :: u in t.members ==> u in s.members && t.members[u] == s.members[u]
    ensures Inv(cfg, t)
  {
    hide RoleOk;
    forall p | 0 <= p < |t.agents|
      ensures AgentRoleOk(t.agents[p], Granted(t))
    {
      assert AgentRoleOk(s.agents[p], Granted(s));
    }
  }

  lemma AppendKeepsInv(cfg: Config, s: State, a: Agent)
    requires Inv(cfg, s) && AgentRoleOk(a, Granted(s))
    ensures Inv(cfg, s.(agents := s.agents + [a]))
  {
    hide RoleOk, AgentRoleOk;
  }

  lemma ConnectingRole(cfg: Config, s: State, user: string, token: string)
    requires Inv(cfg, s) && HasToken(s.members, user, token)
    ensures AgentRoleOk(NewAgent(user, s.members[user].role, Fresh), Granted(s))
  {}

  /** Steps that change no member row except by deleting it, no log and no grant. */
  ghost predicate RolesStay(s: State, t: State) {
    SameRoles(s.agents, t.agents) && t.log == s.log && t.grants == s.grants && t.misgrants == s.misgrants
    && forall u :: u in t.members ==> u in s.members && t.members[u] == s.members[u]
  }

  lemma RolesStayKeepInv(cfg: Config, s: State, t: State)
    requires Inv(cfg, s) && RolesStay(s, t)
    ensures Inv(cfg, t)
  {
    hide Inv, SameRoles;
    SameRolesKeepInv(cfg, s, t);
  }

  lemma UnregisterRolesStay(cfg: Config, s: State, p: nat)
    requires Enabled(cfg, s, Unregister(p))
    ensures RolesStay(s, Step(cfg, s, Unregister(p)))
  {
    hide Close, NoReaders;
    CloseSameRoles(s.conns, s.agents, s.agents[p].user);
  }

  lemma OneAgentRolesStay(s: State, p: nat, b: Agent, t: State)
    requires p < |s.agents| && t.agents == s.agents[p := b] && !b.pc.Counted?
    requires b.user == s.agents[p].user && b.role == s.agents[p].role
    requires t.log == s.log && t.grants == s.grants && t.misgrants == s.misgrants
    requires forall u :: u in t.members ==> u in s.members && t.members[u] == s.members[u]
    ensures RolesStay(s, t)
  {}

  lemma StepRolesStay(cfg: Config, s: State, e: Event)
    requires Enabled(cfg, s, e)
    requires e.LeaveDeletes? || e.GivesUp? || e.ReadHistory? || e.TrimHistory? || e.Lock? || e.Unlock? || e.Pop?
             || e.SocketEnds?
    ensures RolesStay(s, Step(cfg, s, e))
  {
    hide RolesStay, ReadNewest, Trim, NextBody;
    OneAgentRolesStay(s, e.p, Step(cfg, s, e).agents[e.p], Step(cfg, s, e));
  }

  lemma RegisterKeepsInv(cfg: Config, s: State, p: nat)
    requires Inv(cfg, s) && p < |s.agents|
    ensures Inv(cfg, RegisterAgent(s, p))
  {
    hide Inv, RegisterAgent;
    RegisterSameRoles(s, p);
    RolesStayKeepInv(cfg, s, RegisterAgent(s, p));
  }

  lemma SendKeepsInv(cfg: Config, s: State, p: nat, c: nat)
    requires Inv(cfg, s) && p < |s.agents| && s.agents[p].pc.Sending? && s.agents[p].sent != []
    ensures Inv(cfg, Deliver(s, p, c))
  {
    hide Inv, Deliver;
    DeliverSameRoles(s, p, c);
    RolesStayKeepInv(cfg, s, Deliver(s, p, c));
  }

  lemma StepKeepsInv(cfg: Config, s: State, e: Event)
    requires Inv(cfg, s) && Enabled(cfg, s, e)
    ensures Inv(cfg, Step(cfg, s, e))
  {
    hide Inv, RolesStay, RegisterAgent, Deliver, Store, Close, NoReaders, ReadNewest, Trim, NextBody;
    match e
    case JoinCounts(p, failed) => CountKeepsInv(cfg, s, p, failed);
    case JoinUpserts(p, token) => UpsertKeepsInv(cfg, s, p, token);
    case Receive(p, data, ts, stored) => StoreKeepsInv(cfg, s, p, Post(s.agents[p].user, data, ts), stored);
    case JoinChecks(user, _) => AppendKeepsInv(cfg, s, NewAgent(user, Plain, Checked));
    case LeaveResolves(user, _) => AppendKeepsInv(cfg, s, NewAgent(user, Plain, Resolved));
    case Connect(user, token) =>
      ConnectingRole(cfg, s, user, token);
      AppendKeepsInv(cfg, s, NewAgent(user, s.members[user].role, Fresh));
    case Register(p) => RegisterKeepsInv(cfg, s, p);
    case Send(p, c) =>
      if s.agents[p].sent != [] {
        SendKeepsInv(cfg, s, p, c);
      }
    case Unregister(p) =>
      UnregisterRolesStay(cfg, s, p);
      RolesStayKeepInv(cfg, s, Step(cfg, s, e));
    case _ =>
      StepRolesStay(cfg, s, e);
      RolesStayKeepInv(cfg, s, Step(cfg, s, e));
  }

  lemma {:induction false} RunKeepsInv(cfg: Config, before: State, es: seq<Event>, after: State)
    requires Inv(cfg, before) && Reaches(cfg, before, es, after)
    ensures Inv(cfg, after)
    decreases |es|
  {
    hide Inv, Step, Enabled;
    if es != [] {
      StepKeepsInv(cfg, before, es[0]);
      RunKeepsInv(cfg, Step(cfg, before, es[0]), es[1..], after);
    }
  }

  // ---------------------------------------------------------------------------
  // Where grants come from

  /** In state `s` event `e` is a join of `user` that counts no members. */
  predicate SeesNoMembers(s: State, e: Event, user: string) {
    e.JoinCounts? && e.p < |s.agents| && s.agents[e.p].user == user && s.members == map[]
  }

  lemma GrantStep(cfg: Config, s: State, e: Event, user: string)
    requires Enabled(cfg, s, e)
    ensures user in Step(cfg, s, e).grants ==> user in s.grants || SeesNoMembers(s, e, user)
    ensures (e.JoinCounts? ==> !e.failed) ==> Step(cfg, s, e).misgrants == s.misgrants
  {
    hide Close, NoReaders, ReadNewest, Trim, NextBody, SentCounts;
  }

  lemma {:induction false} GrantOrigin(cfg: Config, before: State, es: seq<Event>, after: State, user: string)
    requires Reaches(cfg, before, es, after) && user in after.grants && user !in before.grants
    ensures exists i, mid ::
      0 <= i < |es| && Reaches(cfg, before, es[..i], mid) && SeesNoMembers(mid, es[i], user)
    decreases |es|
  {
    hide Step, Enabled;
    var next := Step(cfg, before, es[0]);
    GrantStep(cfg, before, es[0], user);
    if user in next.grants {
      assert Reaches(cfg, before, es[..0], before) && SeesNoMembers(before, es[0], user);
    } else {
      GrantOrigin(cfg, next, es[1..], after, user);
      var i, mid :| 0 <= i < |es[1..]| && Reaches(cfg, next, es[1..][..i], mid) && SeesNoMembers(mid, es[1..][i], user);
      assert es[..i + 1][1..] == es[1..][..i] && es[..i + 1][0] == es[0];
      assert Reaches(cfg, before, es[..i + 1], mid);
    }
  }

  lemma {:induction false} NoMisgrants(cfg: Config, before: State, es: seq<Event>, after: State)
    requires Reaches(cfg, before, es, after)
    requires forall i :: 0 <= i < |es| ==> es[i].JoinCounts? ==> !es[i].failed
    ensures after.misgrants == before.misgrants
    decreases |es|
  {
    hide Step, Enabled;
    if es != [] {
      GrantStep(cfg, before, es[0], "");
      NoMisgrants(cfg, Step(cfg, before, es[0]), es[1..], after);
    }
  }

  lemma OwnersAreGranted(cfg: Config, s: State, user: string)
    requires Inv(cfg, s) && user in s.members && s.members[user].role == Owner
    ensures user in Granted(s)
  {}

  /** From empty tables and with no failed count, every owner is a member one of whose joins, at some
      earlier point of the run, found the member table empty. */
  lemma OwnerFoundRoomEmpty(cfg: Config, es: seq<Event>, s: State, user: string)
    requires Reaches(cfg, START, es, s) && user in s.members && s.members[user].role == Owner
    requires forall i :: 0 <= i < |es| ==> es[i].JoinCounts? ==> !es[i].failed
    ensures exists i, mid ::
      0 <= i < |es| && Reaches(cfg, START, es[..i], mid) && SeesNoMembers(mid, es[i], user)
  {
    hide Reaches;
    assert Inv(cfg, START);
    RunKeepsInv(cfg, START, es, s);
    NoMisgrants(cfg, START, es, s);
    OwnersAreGranted(cfg, s, user);
    GrantOrigin(cfg, START, es, s, user);
  }

  /** In a channel, from empty tables and with no failed count, every stored message was posted
      by a user whose join, at some earlier point of the run, found the member table empty. */
  lemma ChannelPosterFoundRoomEmpty(cfg: Config, es: seq<Event>, s: State, k: nat)
    requires cfg.broadcastOnly && Reaches(cfg, START, es, s) && k < |s.log|
    requires forall i :: 0 <= i < |es| ==> es[i].JoinCounts? ==> !es[i].failed
    ensures exists i, mid ::
      0 <= i < |es| && Reaches(cfg, START, es[..i], mid) && SeesNoMembers(mid, es[i], s.log[k].post.sender)
  {
    hide Reaches;
    assert Inv(cfg, START);
    RunKeepsInv(cfg, START, es, s);
    NoMisgrants(cfg, START, es, s);
    GrantOrigin(cfg, START, es, s, s.log[k].post.sender);
  }
}

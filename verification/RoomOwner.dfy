/** The first member becomes the owner: how many owners there can be. */
module RoomOwner {
  import opened Room

  // ---------------------------------------------------------------------------
  // Joins that do not overlap

  /** No join counts the members while another one has counted and not yet written its row, and no
      count fails. */
  predicate JoinsApart(s: State, e: Event) {
    e.JoinCounts? ==> !e.failed && forall q :: 0 <= q < |s.agents| ==> !s.agents[q].pc.Counted?
  }

  ghost predicate ReachesApart(cfg: Config, before: State, es: seq<Event>, after: State)
    decreases |es|
  {
    if es == [] then before == after
    else Enabled(cfg, before, es[0]) && JoinsApart(before, es[0])
         && ReachesApart(cfg, Step(cfg, before, es[0]), es[1..], after)
  }

  predicate OneOwner(members: map<string, Member>) {
    forall u, v :: u in members && v in members && members[u].role == Owner && members[v].role == Owner ==> u == v
  }

  /** At most one join stands between its count and its row, and one that is to become the owner
      still has the table to itself. */
  predicate CountsOk(members: map<string, Member>, agents: seq<Agent>) {
    (forall p, q :: 0 <= p < |agents| && 0 <= q < |agents| && agents[p].pc.Counted? && agents[q].pc.Counted? ==> p == q)
    && (forall p :: 0 <= p < |agents| && agents[p].pc == Counted(Owner) ==> members == map[])
  }

  ghost predicate Inv(s: State) {
    OneOwner(s.members) && CountsOk(s.members, s.agents)
  }

  ghost predicate NoneCounts(before: seq<Agent>, after: seq<Agent>) {
    forall p :: 0 <= p < |after| && after[p].pc.Counted? ==> p < |before| && before[p].pc == after[p].pc
  }

  lemma NoneCountsKeeps(s: State, t: State)
    requires Inv(s) && NoneCounts(s.agents, t.agents)
    requires t.members.Keys <= s.members.Keys && forall u :: u in t.members ==> t.members[u] == s.members[u]
    ensures Inv(t)
  {
    if p :| 0 <= p < |t.agents| && t.agents[p].pc == Counted(Owner) {
      assert s.agents[p].pc == Counted(Owner);
      assert t.members == map[];
    }
  }

  lemma CloseCountsNone(conns: map<string, nat>, agents: seq<Agent>, user: string)
    ensures NoneCounts(agents, Close(conns, agents, user)) && |Close(conns, agents, user)| == |agents|
  {}

  lemma RegisterCountsNone(s: State, p: nat)
    requires p < |s.agents|
    ensures NoneCounts(s.agents, RegisterAgent(s, p).agents) && RegisterAgent(s, p).members == s.members
  {
    hide Close, SentCounts;
    CloseCountsNone(s.conns, s.agents, s.agents[p].user);
  }

  lemma UnregisterCountsNone(cfg: Config, s: State, p: nat)
    requires Enabled(cfg, s, Unregister(p))
    ensures NoneCounts(s.agents, Step(cfg, s, Unregister(p)).agents)
  {
    hide Close, NoReaders;
    CloseCountsNone(s.conns, s.agents, s.agents[p].user);
  }

  lemma DeliverCountsNone(s: State, p: nat, c: nat)
    requires p < |s.agents| && s.agents[p].pc.Sending? && s.agents[p].sent != []
    ensures NoneCounts(s.agents, Deliver(s, p, c).agents) && Deliver(s, p, c).members == s.members
  {}

  lemma StoreCountsNone(cfg: Config, s: State, p: nat, post: Post, stored: bool)
    requires p < |s.agents|
    ensures NoneCounts(s.agents, Store(cfg, s, p, post, stored).agents)
            && Store(cfg, s, p, post, stored).members == s.members
  {
    hide Muted;
  }

  lemma OneOtherPlace(agents: seq<Agent>, p: nat, b: Agent)
    requires p < |agents| && !b.pc.Counted?
    ensures NoneCounts(agents, agents[p := b])
  {}

  lemma OneMore(agents: seq<Agent>, a: Agent)
    requires !a.pc.Counted?
    ensures NoneCounts(agents, agents + [a])
  {}

  lemma NothingCounts(agents: seq<Agent>)
    ensures NoneCounts(agents, agents)
  {}

  lemma ElsewhereNoneCounts(cfg: Config, s: State, e: Event)
    requires Enabled(cfg, s, e) && !e.JoinCounts? && !e.JoinUpserts? && !e.Unregister?
    ensures NoneCounts(s.agents, Step(cfg, s, e).agents)
    ensures e.LeaveDeletes? || Step(cfg, s, e).members == s.members
  {
    hide NoneCounts, RegisterAgent, Deliver, Store, ReadNewest, Trim, NextBody, NoReaders;
    if e.Register? {
      RegisterCountsNone(s, e.p);
    } else if e.Send? {
      if s.agents[e.p].sent != [] {
        DeliverCountsNone(s, e.p, e.c);
      } else {
        NothingCounts(s.agents);
      }
    } else if e.Receive? {
      StoreCountsNone(cfg, s, e.p, Post(s.agents[e.p].user, e.data, e.ts), e.stored);
    } else if e.JoinChecks? {
      OneMore(s.agents, NewAgent(e.user, Plain, Checked));
    } else if e.LeaveResolves? {
      OneMore(s.agents, NewAgent(e.user, Plain, Resolved));
    } else if e.Connect? {
      OneMore(s.agents, NewAgent(e.user, s.members[e.user].role, Fresh));
    } else {
      OneOtherPlace(s.agents, e.p, Step(cfg, s, e).agents[e.p]);
    }
  }

  lemma CountKeepsInv(cfg: Config, s: State, p: nat, failed: bool)
    requires Inv(s) && Enabled(cfg, s, JoinCounts(p, failed)) && JoinsApart(s, JoinCounts(p, failed))
    ensures Inv(Step(cfg, s, JoinCounts(p, failed)))
  {}

  lemma UpsertKeepsInv(cfg: Config, s: State, p: nat, token: string)
    requires Inv(s) && Enabled(cfg, s, JoinUpserts(p, token))
    ensures Inv(Step(cfg, s, JoinUpserts(p, token)))
  {
    var t := Step(cfg, s, JoinUpserts(p, token));
    assert forall q :: 0 <= q < |t.agents| && t.agents[q].pc.Counted? ==> s.agents[q].pc.Counted? && q != p;
  }

  lemma StepKeepsInv(cfg: Config, s: State, e: Event)
    requires Inv(s) && Enabled(cfg, s, e) && JoinsApart(s, e)
    ensures Inv(Step(cfg, s, e))
  {
    if e.JoinCounts? {
      CountKeepsInv(cfg, s, e.p, e.failed);
    } else if e.JoinUpserts? {
      UpsertKeepsInv(cfg, s, e.p, e.token);
    } else {
      hide Inv, NoneCounts, Close, RegisterAgent, Deliver, Store, ReadNewest, Trim, NextBody, NoReaders;
      if e.Unregister? {
        UnregisterCountsNone(cfg, s, e.p);
      } else {
        ElsewhereNoneCounts(cfg, s, e);
      }
      NoneCountsKeeps(s, Step(cfg, s, e));
    }
  }

  lemma {:induction false} RunKeepsInv(cfg: Config, before: State, es: seq<Event>, after: State)
    requires Inv(before) && ReachesApart(cfg, before, es, after)
    ensures Inv(after)
    decreases |es|
  {
    hide Inv, Step, Enabled, JoinsApart;
    if es != [] {
      StepKeepsInv(cfg, before, es[0]);
      RunKeepsInv(cfg, Step(cfg, before, es[0]), es[1..], after);
    }
  }

  lemma OneOwnerOf(s: State)
    requires Inv(s)
    ensures OneOwner(s.members)
  {}

  /** As long as joins do not overlap, the room never has two owners. */
  lemma AtMostOneOwner(cfg: Config, es: seq<Event>, s: State)
    requires ReachesApart(cfg, START, es, s)
    ensures OneOwner(s.members)
  {
    assert Inv(START);
    hide ReachesApart, Inv;
    RunKeepsInv(cfg, START, es, s);
    OneOwnerOf(s);
  }

  // ---------------------------------------------------------------------------
  // Joins that do

  lemma OnlyJoinsAddMembers(cfg: Config, s: State, e: Event)
    requires Enabled(cfg, s, e) && !e.JoinUpserts?
    ensures var t := Step(cfg, s, e);
            forall u :: u in t.members ==> u in s.members && t.members[u] == s.members[u]
  {
    hide NoneCounts, ReadNewest, Trim, NextBody, NoReaders, Close, RegisterAgent, Deliver, Store;
    if !e.JoinCounts? && !e.Unregister? {
      ElsewhereNoneCounts(cfg, s, e);
    }
  }

  /** The step that makes a second owner is the row of a new member that counted an empty table,
      or whose count failed, when by now there is an owner; nothing else does. */
  lemma SecondOwnerIff(cfg: Config, s: State, e: Event)
    requires OneOwner(s.members) && Enabled(cfg, s, e)
    ensures !OneOwner(Step(cfg, s, e).members)
       <==> e.JoinUpserts? && s.agents[e.p].pc.grant == Owner && s.agents[e.p].user !in s.members
            && exists u :: u in s.members && s.members[u].role == Owner
  {
    if e.JoinUpserts? {
      var a := s.agents[e.p];
      var after := Step(cfg, s, e).members;
      assert forall u :: u in s.members && u != a.user ==> u in after && after[u] == s.members[u];
      assert a.user in after;
    } else {
      OnlyJoinsAddMembers(cfg, s, e);
    }
  }

  function Joining(members: map<string, Member>, agents: seq<Agent>, grants: set<string>): State {
    State(map[], map[], members, agents, [], grants, {}, 0)
  }

  function Two(a: string, pcA: Pc, b: string, pcB: Pc): seq<Agent> {
    [NewAgent(a, Plain, pcA), NewAgent(b, Plain, pcB)]
  }

  function BothChecked(a: string, b: string): State {
    Joining(map[], Two(a, Checked, b, Checked), {})
  }

  function BothCounted(a: string, b: string): State {
    Joining(map[], Two(a, Counted(Owner), b, Counted(Owner)), {a, b})
  }

  function BothJoined(a: string, b: string, s: string, t: string): State {
    Joining(map[a := Member(Owner, s), b := Member(Owner, t)], Two(a, Upserted(Owner), b, Upserted(Owner)), {a, b})
  }

  lemma CheckStep(cfg: Config, agents: seq<Agent>, grants: set<string>, user: string)
    ensures Enabled(cfg, Joining(map[], agents, grants), JoinChecks(user, false))
    ensures Step(cfg, Joining(map[], agents, grants), JoinChecks(user, false))
         == Joining(map[], agents + [NewAgent(user, Plain, Checked)], grants)
  {}

  lemma CountStep(cfg: Config, agents: seq<Agent>, grants: set<string>, p: nat)
    requires p < |agents| && agents[p].pc.Checked?
    ensures Enabled(cfg, Joining(map[], agents, grants), JoinCounts(p, false))
    ensures Step(cfg, Joining(map[], agents, grants), JoinCounts(p, false))
         == Joining(map[], agents[p := agents[p].(pc := Counted(Owner))], grants + {agents[p].user})
  {}

  lemma UpsertStep(cfg: Config, members: map<string, Member>, agents: seq<Agent>, grants: set<string>, p: nat,
          token: string)
    requires p < |agents| && agents[p].pc == Counted(Owner) && agents[p].user !in members
    requires forall u :: u in members ==> members[u].token != token
    ensures Enabled(cfg, Joining(members, agents, grants), JoinUpserts(p, token))
    ensures Step(cfg, Joining(members, agents, grants), JoinUpserts(p, token))
         == Joining(members[agents[p].user := Member(Owner, token)], agents[p := agents[p].(pc := Upserted(Owner))],
             grants)
  {}

  lemma BothCheck(cfg: Config, a: string, b: string)
    ensures Reaches(cfg, START, [JoinChecks(a, false), JoinChecks(b, false)], BothChecked(a, b))
  {
    var first := [NewAgent(a, Plain, Checked)];
    CheckStep(cfg, [], {}, a);
    CheckStep(cfg, first, {}, b);
    hide Step, Enabled, Reaches;
    assert [] + first == first && first + [NewAgent(b, Plain, Checked)] == Two(a, Checked, b, Checked);
    TwoSteps(cfg, START, JoinChecks(a, false), Joining(map[], first, {}), JoinChecks(b, false), BothChecked(a, b));
  }

  lemma BothCount(cfg: Config, a: string, b: string)
    ensures Reaches(cfg, BothChecked(a, b), [JoinCounts(0, false), JoinCounts(1, false)], BothCounted(a, b))
  {
    var none, one, two := Two(a, Checked, b, Checked), Two(a, Counted(Owner), b, Checked),
                          Two(a, Counted(Owner), b, Counted(Owner));
    CountStep(cfg, none, {}, 0);
    CountStep(cfg, one, {a}, 1);
    hide Step, Enabled, Reaches, Joining;
    assert none[0 := NewAgent(a, Plain, Counted(Owner))] == one && one[1 := NewAgent(b, Plain, Counted(Owner))] == two;
    assert {} + {a} == {a} && {a} + {b} == {a, b};
    TwoSteps(cfg, BothChecked(a, b), JoinCounts(0, false), Joining(map[], one, {a}), JoinCounts(1, false),
             BothCounted(a, b));
  }

  lemma BothUpsert(cfg: Config, a: string, b: string, s: string, t: string)
    requires a != b && s != t
    ensures Reaches(cfg, BothCounted(a, b), [JoinUpserts(0, s), JoinUpserts(1, t)], BothJoined(a, b, s, t))
  {
    var none, one, two := Two(a, Counted(Owner), b, Counted(Owner)), Two(a, Upserted(Owner), b, Counted(Owner)),
                          Two(a, Upserted(Owner), b, Upserted(Owner));
    var member := map[a := Member(Owner, s)];
    UpsertStep(cfg, map[], none, {a, b}, 0, s);
    UpsertStep(cfg, member, one, {a, b}, 1, t);
    hide Step, Enabled, Reaches, Joining;
    assert none[0 := NewAgent(a, Plain, Upserted(Owner))] == one;
    assert one[1 := NewAgent(b, Plain, Upserted(Owner))] == two;
    assert member[b := Member(Owner, t)] == map[a := Member(Owner, s), b := Member(Owner, t)];
    TwoSteps(cfg, BothCounted(a, b), JoinUpserts(0, s), Joining(member, one, {a, b}), JoinUpserts(1, t),
             BothJoined(a, b, s, t));
  }

  lemma BothJoin(cfg: Config, a: string, b: string, s: string, t: string)
    requires a != b && s != t
    ensures Reaches(cfg, START, [JoinChecks(a, false), JoinChecks(b, false)]
                                + [JoinCounts(0, false), JoinCounts(1, false)]
                                + [JoinUpserts(0, s), JoinUpserts(1, t)], BothJoined(a, b, s, t))
  {
    hide Reaches, BothChecked, BothCounted, BothJoined;
    BothCheck(cfg, a, b);
    BothCount(cfg, a, b);
    BothUpsert(cfg, a, b, s, t);
    var checks, counts := [JoinChecks(a, false), JoinChecks(b, false)], [JoinCounts(0, false), JoinCounts(1, false)];
    RunThenRun(cfg, START, checks, BothChecked(a, b), counts, BothCounted(a, b));
    RunThenRun(cfg, START, checks + counts, BothCounted(a, b), [JoinUpserts(0, s), JoinUpserts(1, t)],
               BothJoined(a, b, s, t));
  }

  /** Two joins that both count before either writes its row make two owners. */
  lemma OverlappingJoinsMakeTwoOwners(cfg: Config, a: string, b: string, s: string, t: string)
    requires a != b && s != t
    ensures exists after ::
      Reaches(cfg, START, [JoinChecks(a, false), JoinChecks(b, false)] + [JoinCounts(0, false), JoinCounts(1, false)]
                          + [JoinUpserts(0, s), JoinUpserts(1, t)], after)
      && a in after.members && b in after.members
      && after.members[a].role == Owner && after.members[b].role == Owner
  {
    hide Reaches;
    BothJoin(cfg, a, b, s, t);
    assert a in BothJoined(a, b, s, t).members;
  }
}

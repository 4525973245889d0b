/** How many members a room with a maximum can have: the bound, that it is reached, and so when the
    maximum holds. */
module RoomCapacity {
  import opened Common
  import opened Room
  import opened RoomHistory

  predicate IsJoining(pc: Pc) {
    pc.Checked? || pc.Counted?
  }

  /** The joins that have passed the check and have neither written their row nor given up. */
  function Joining(agents: seq<Agent>): set<nat> {
    set p: nat | p < |agents| && IsJoining(agents[p].pc)
  }

  /** What is known of the joins: at most so many are under way at any time, and whether their checks
      always manage to count. A check that does not reads zero and admits. */
  datatype Joins = Joins(atOnce: nat, counted: bool)

  predicate FewJoins(cfg: Config, s: State, e: Event, joins: Joins)
    requires Enabled(cfg, s, e)
  {
    (joins.counted && e.JoinChecks? ==> !e.miscounted) && |Joining(Step(cfg, s, e).agents)| <= joins.atOnce
  }

  ghost predicate ReachesFew(cfg: Config, joins: Joins, before: State, es: seq<Event>, after: State)
    decreases |es|
  {
    if es == [] then before == after
    else Enabled(cfg, before, es[0]) && FewJoins(cfg, before, es[0], joins)
         && ReachesFew(cfg, joins, Step(cfg, before, es[0]), es[1..], after)
  }

  // ---------------------------------------------------------------------------
  // The bound

  ghost predicate UnderCap(cfg: Config, s: State, joins: Joins) {
    cfg.maxMembers > 0 ==> |s.members| + |Joining(s.agents)| <= cfg.maxMembers - 1 + joins.atOnce
  }

  /** Nobody is added to the members or to those who are joining. */
  ghost predicate Shrinks(s: State, t: State) {
    t.members.Keys <= s.members.Keys && Joining(t.agents) <= Joining(s.agents)
  }

  lemma ShrinkingKeepsCap(cfg: Config, s: State, t: State, joins: Joins)
    requires UnderCap(cfg, s, joins) && Shrinks(s, t)
    ensures UnderCap(cfg, t, joins)
  {
    hide Joining;
    Smaller(t.members.Keys, s.members.Keys);
    Smaller(Joining(t.agents), Joining(s.agents));
  }

  lemma JoiningShrinks(before: seq<Agent>, after: seq<Agent>, p: nat)
    requires SamePcs(before, after, p)
    requires p < |after| && IsJoining(after[p].pc) ==> IsJoining(before[p].pc)
    ensures Joining(after) <= Joining(before)
  {}

  lemma AppendedIsNotJoining(agents: seq<Agent>, a: Agent)
    requires !IsJoining(a.pc)
    ensures Joining(agents + [a]) <= Joining(agents)
  {}

  lemma CheckedIsJoining(agents: seq<Agent>, a: Agent)
    requires IsJoining(a.pc)
    ensures |Joining(agents + [a])| > 0
  {
    assert (agents + [a])[|agents|] == a;
    assert |agents| in Joining(agents + [a]);
  }

  lemma CheckKeepsCap(cfg: Config, s: State, user: string, miscounted: bool, joins: Joins)
    requires joins.counted || joins.atOnce == 0
    requires Enabled(cfg, s, JoinChecks(user, miscounted)) && FewJoins(cfg, s, JoinChecks(user, miscounted), joins)
    ensures UnderCap(cfg, Step(cfg, s, JoinChecks(user, miscounted)), joins)
  {
    hide Joining;
    CheckedIsJoining(s.agents, NewAgent(user, Plain, Checked));
  }

  lemma OneJoiningLess(agents: seq<Agent>, p: nat, b: Agent)
    requires p < |agents| && IsJoining(agents[p].pc) && !IsJoining(b.pc)
    ensures |Joining(agents[p := b])| == |Joining(agents)| - 1
  {
    assert Joining(agents[p := b]) == Joining(agents) - {p};
  }

  lemma OneMemberMore(members: map<string, Member>, user: string, m: Member)
    ensures |members[user := m]| <= |members| + 1
  {
    assert members[user := m].Keys == members.Keys + {user};
  }

  lemma UpsertKeepsCap(cfg: Config, s: State, p: nat, token: string, joins: Joins)
    requires Enabled(cfg, s, JoinUpserts(p, token)) && UnderCap(cfg, s, joins)
    ensures UnderCap(cfg, Step(cfg, s, JoinUpserts(p, token)), joins)
  {
    hide Joining;
    var t := Step(cfg, s, JoinUpserts(p, token));
    OneJoiningLess(s.agents, p, t.agents[p]);
    OneMemberMore(s.members, s.agents[p].user, t.members[s.agents[p].user]);
  }

  /** The steps that only move an agent on, or append one that does not join. */
  lemma ElsewhereShrinks(cfg: Config, s: State, e: Event)
    requires Enabled(cfg, s, e) && !e.JoinChecks? && !e.JoinUpserts?
    requires !e.Register? && !e.Unregister? && !e.Send? && !e.Receive?
    ensures Shrinks(s, Step(cfg, s, e))
  {
    hide Joining, ReadNewest, Trim, NextBody;
    var t := Step(cfg, s, e);
    if e.LeaveResolves? {
      AppendedIsNotJoining(s.agents, NewAgent(e.user, Plain, Resolved));
    } else if e.Connect? {
      AppendedIsNotJoining(s.agents, NewAgent(e.user, s.members[e.user].role, Fresh));
    } else {
      JoiningShrinks(s.agents, t.agents, e.p);
    }
  }

  lemma RegisterShrinks(s: State, p: nat)
    requires p < |s.agents|
    ensures Shrinks(s, RegisterAgent(s, p))
  {
    hide Joining, RegisterAgent;
    RegisterKeepsPcs(s, p);
    JoiningShrinks(s.agents, RegisterAgent(s, p).agents, p);
  }

  lemma UnregisterShrinks(cfg: Config, s: State, p: nat)
    requires Enabled(cfg, s, Unregister(p))
    ensures Shrinks(s, Step(cfg, s, Unregister(p)))
  {
    hide Joining, Close, NoReaders;
    CloseKeepsPcs(s.conns, s.agents, s.agents[p].user);
    JoiningShrinks(s.agents, Step(cfg, s, Unregister(p)).agents, p);
  }

  lemma SendShrinks(cfg: Config, s: State, p: nat, c: nat)
    requires Enabled(cfg, s, Send(p, c))
    ensures Shrinks(s, Step(cfg, s, Send(p, c)))
  {
    hide Joining, Deliver;
    if s.agents[p].sent != [] {
      DeliverKeepsPcs(s, p, c);
      JoiningShrinks(s.agents, Deliver(s, p, c).agents, p);
    }
  }

  lemma ReceiveShrinks(cfg: Config, s: State, p: nat, post: Post, stored: bool)
    requires p < |s.agents| && s.agents[p].pc.Idle?
    ensures Shrinks(s, Store(cfg, s, p, post, stored))
  {
    hide Joining, Muted;
    JoiningShrinks(s.agents, Store(cfg, s, p, post, stored).agents, p);
  }

  lemma StepKeepsCap(cfg: Config, s: State, e: Event, joins: Joins)
    requires joins.counted || joins.atOnce == 0
    requires UnderCap(cfg, s, joins) && Enabled(cfg, s, e) && FewJoins(cfg, s, e, joins)
    ensures UnderCap(cfg, Step(cfg, s, e), joins)
  {
    hide UnderCap, Shrinks, RegisterAgent, Deliver, Store, Close, NoReaders, ReadNewest, Trim, NextBody;
    if e.JoinChecks? {
      CheckKeepsCap(cfg, s, e.user, e.miscounted, joins);
    } else if e.JoinUpserts? {
      UpsertKeepsCap(cfg, s, e.p, e.token, joins);
    } else {
      if e.Register? {
        RegisterShrinks(s, e.p);
      } else if e.Unregister? {
        UnregisterShrinks(cfg, s, e.p);
      } else if e.Send? {
        SendShrinks(cfg, s, e.p, e.c);
      } else if e.Receive? {
        ReceiveShrinks(cfg, s, e.p, Post(s.agents[e.p].user, e.data, e.ts), e.stored);
      } else {
        ElsewhereShrinks(cfg, s, e);
      }
      ShrinkingKeepsCap(cfg, s, Step(cfg, s, e), joins);
    }
  }

  lemma {:induction false} RunKeepsCap(cfg: Config, joins: Joins, before: State, es: seq<Event>, after: State)
    requires joins.counted || joins.atOnce == 0
    requires UnderCap(cfg, before, joins) && ReachesFew(cfg, joins, before, es, after)
    ensures UnderCap(cfg, after, joins)
    decreases |es|
  {
    hide UnderCap, Step, Enabled, FewJoins;
    if es != [] {
      StepKeepsCap(cfg, before, es[0], joins);
      RunKeepsCap(cfg, joins, Step(cfg, before, es[0]), es[1..], after);
    }
  }

  /** With at most so many joins between their check and their row, and no check that fails to count,
      the members and those about to be number at most `maxMembers - 1` and so many more. */
  lemma MemberCap(cfg: Config, joins: Joins, es: seq<Event>, s: State)
    requires joins.counted || joins.atOnce == 0
    requires cfg.maxMembers > 0 && ReachesFew(cfg, joins, START, es, s)
    ensures |s.members| + |Joining(s.agents)| <= cfg.maxMembers - 1 + joins.atOnce
  {
    hide ReachesFew;
    assert Joining(START.agents) == {};
    RunKeepsCap(cfg, joins, START, es, s);
  }

  /** Joins that run one at a time and manage to count never exceed the configured maximum. */
  lemma MemberCapOneAtATime(cfg: Config, es: seq<Event>, s: State)
    requires cfg.maxMembers > 0 && ReachesFew(cfg, Joins(1, true), START, es, s)
    ensures |s.members| <= cfg.maxMembers
  {
    hide ReachesFew;
    MemberCap(cfg, Joins(1, true), es, s);
  }

  // ---------------------------------------------------------------------------
  // The bound is reached

  lemma NoEventsFew(cfg: Config, joins: Joins, s: State)
    ensures ReachesFew(cfg, joins, s, [], s)
  {}

  lemma {:induction false} FewThenStep(cfg: Config, joins: Joins, s: State, es: seq<Event>, t: State, e: Event)
    requires ReachesFew(cfg, joins, s, es, t) && Enabled(cfg, t, e) && FewJoins(cfg, t, e, joins)
    ensures ReachesFew(cfg, joins, s, es + [e], Step(cfg, t, e))
    decreases |es|
  {
    hide Enabled, Step, FewJoins;
    if es == [] {
      assert es + [e] == [e] && [e][1..] == [];
    } else {
      FewThenStep(cfg, joins, Step(cfg, s, es[0]), es[1..], t, e);
      assert (es + [e])[1..] == es[1..] + [e];
    }
  }

  function Names(n: nat): (names: set<string>)
    ensures |names| == n && forall name :: name in names ==> |name| < n
  {
    if n == 0 then {} else Names(n - 1) + {Name(n - 1)}
  }

  ghost predicate Queued(agents: seq<Agent>, first: nat, n: nat) {
    forall p :: 0 <= p < |agents| ==>
      if p < first then !IsJoining(agents[p].pc)
      else agents[p].pc == Checked && agents[p].user == Name(n + p - first)
  }

  /** `n` members, each with its name for a token, and `j` joins that have only been checked, of those
      who come next; they are the last agents there are. */
  ghost predicate Crowd(s: State, n: nat, j: nat) {
    s.members.Keys == Names(n) && (forall u :: u in s.members ==> s.members[u].token == u)
    && j <= |s.agents| && Queued(s.agents, |s.agents| - j, n)
  }

  lemma QueuedJoin(agents: seq<Agent>, first: nat, n: nat)
    requires Queued(agents, first, n) && first <= |agents|
    ensures |Joining(agents)| == |agents| - first
  {
    IntervalSize(first, |agents|);
    assert Joining(agents) == Interval(first, |agents|);
  }

  lemma CrowdSize(s: State, n: nat, j: nat)
    requires Crowd(s, n, j)
    ensures |s.members| == n
  {
    hide Queued;
    assert |s.members| == |s.members.Keys|;
  }

  lemma OneMoreQueued(agents: seq<Agent>, first: nat, n: nat, a: Agent)
    requires Queued(agents, first, n) && first <= |agents|
    requires a.pc == Checked && a.user == Name(n + |agents| - first)
    ensures Queued(agents + [a], first, n)
  {
    hide Name;
  }

  lemma CheckIn(cfg: Config, joins: Joins, s: State, n: nat, j: nat, miscounted: bool)
    requires Crowd(s, n, j) && j < joins.atOnce && (joins.counted ==> !miscounted)
    requires miscounted || cfg.maxMembers == 0 || n < cfg.maxMembers
    ensures var e := JoinChecks(Name(n + j), miscounted);
            Enabled(cfg, s, e) && FewJoins(cfg, s, e, joins) && Crowd(Step(cfg, s, e), n, j + 1)
  {
    hide Joining, Name, Names, Queued;
    var t := Step(cfg, s, JoinChecks(Name(n + j), miscounted));
    CrowdSize(s, n, j);
    OneMoreQueued(s.agents, |s.agents| - j, n, NewAgent(Name(n + j), Plain, Checked));
    QueuedJoin(t.agents, |s.agents| - j, n);
  }

  lemma SameJoining(agents: seq<Agent>, p: nat, b: Agent)
    requires p < |agents| && IsJoining(agents[p].pc) && IsJoining(b.pc)
    ensures Joining(agents[p := b]) == Joining(agents)
  {}

  /** The first of those checked counts. */
  lemma FirstCounts(cfg: Config, joins: Joins, s: State, n: nat, j: nat)
    requires Crowd(s, n, j) && 0 < j <= joins.atOnce
    ensures var e := JoinCounts(|s.agents| - j, false);
            Enabled(cfg, s, e) && FewJoins(cfg, s, e, joins)
            && var t := Step(cfg, s, e);
               t.members == s.members && |t.agents| == |s.agents|
               && t.agents == s.agents[|s.agents| - j := t.agents[|s.agents| - j]]
               && t.agents[|s.agents| - j].pc.Counted? && t.agents[|s.agents| - j].user == Name(n)
  {
    hide Joining, Names;
    var p := |s.agents| - j;
    QueuedJoin(s.agents, p, n);
    SameJoining(s.agents, p, Step(cfg, s, JoinCounts(p, false)).agents[p]);
  }

  lemma NextName(n: nat)
    ensures Name(n) !in Names(n) && Names(n + 1) == Names(n) + {Name(n)}
  {}

  lemma NextMember(members: map<string, Member>, n: nat, role: Role)
    requires members.Keys == Names(n) && forall u :: u in members ==> members[u].token == u
    ensures Name(n) !in members && forall u :: u in members ==> members[u].token != Name(n)
    ensures var more := members[Name(n) := Member(role, Name(n))];
            more.Keys == Names(n + 1) && forall u :: u in more ==> more[u].token == u
  {
    NextName(n);
    hide Name, Names;
    assert members[Name(n) := Member(role, Name(n))].Keys == members.Keys + {Name(n)};
  }

  lemma OneFewerQueued(agents: seq<Agent>, first: nat, n: nat, b: Agent)
    requires Queued(agents, first, n) && first < |agents| && !IsJoining(b.pc)
    ensures Queued(agents[first := b], first + 1, n + 1)
  {
    hide Name;
  }

  /** ... and then writes its row. */
  lemma FirstUpserts(cfg: Config, joins: Joins, s: State, t: State, n: nat, j: nat)
    requires Crowd(s, n, j) && 0 < j <= joins.atOnce && |t.agents| == |s.agents| && t.members == s.members
    requires var p := |s.agents| - j;
             t.agents == s.agents[p := t.agents[p]] && t.agents[p].pc.Counted? && t.agents[p].user == Name(n)
    ensures var e := JoinUpserts(|s.agents| - j, Name(n));
            Enabled(cfg, t, e) && FewJoins(cfg, t, e, joins) && Crowd(Step(cfg, t, e), n + 1, j - 1)
  {
    hide Joining, Name, Names, Queued;
    var p := |s.agents| - j;
    NextMember(s.members, n, t.agents[p].pc.grant);
    var u := Step(cfg, t, JoinUpserts(p, Name(n)));
    assert u.agents == s.agents[p := u.agents[p]];
    OneFewerQueued(s.agents, p, n, u.agents[p]);
    QueuedJoin(u.agents, p + 1, n + 1);
  }

  lemma CrowdBounds(s: State, n: nat, j: nat)
    requires Crowd(s, n, j)
    ensures j <= |s.agents|
  {}

  /** One of those checked becomes a member. */
  lemma OneJoins(cfg: Config, joins: Joins, es: seq<Event>, s: State, n: nat, j: nat)
    requires ReachesFew(cfg, joins, START, es, s) && Crowd(s, n, j) && 0 < j <= joins.atOnce
    ensures exists fs, t :: ReachesFew(cfg, joins, START, fs, t) && Crowd(t, n + 1, j - 1)
  {
    hide ReachesFew, FewJoins, Enabled, Step, Crowd;
    CrowdBounds(s, n, j);
    var count, upsert := JoinCounts(|s.agents| - j, false), JoinUpserts(|s.agents| - j, Name(n));
    FirstCounts(cfg, joins, s, n, j);
    var mid := Step(cfg, s, count);
    FewThenStep(cfg, joins, START, es, s, count);
    FirstUpserts(cfg, joins, s, mid, n, j);
    FewThenStep(cfg, joins, START, es + [count], mid, upsert);
  }

  /** All of those checked do. */
  lemma {:induction false} AllJoin(cfg: Config, joins: Joins, es: seq<Event>, s: State, n: nat, j: nat)
    requires ReachesFew(cfg, joins, START, es, s) && Crowd(s, n, j) && j <= joins.atOnce
    ensures exists fs, t :: ReachesFew(cfg, joins, START, fs, t) && Crowd(t, n + j, 0)
    decreases j
  {
    hide ReachesFew, Crowd;
    if j > 0 {
      OneJoins(cfg, joins, es, s, n, j);
      var fs, t :| ReachesFew(cfg, joins, START, fs, t) && Crowd(t, n + 1, j - 1);
      AllJoin(cfg, joins, fs, t, n + 1, j - 1);
    }
  }

  lemma {:induction false} AllCheckIn(cfg: Config, joins: Joins, es: seq<Event>, s: State, n: nat, j: nat, k: nat)
    requires ReachesFew(cfg, joins, START, es, s) && Crowd(s, n, j) && j <= k <= joins.atOnce
    requires cfg.maxMembers == 0 || n < cfg.maxMembers
    ensures exists fs, t :: ReachesFew(cfg, joins, START, fs, t) && Crowd(t, n, k)
    decreases k - j
  {
    hide ReachesFew, FewJoins, Enabled, Step, Crowd;
    if j < k {
      CheckIn(cfg, joins, s, n, j, false);
      FewThenStep(cfg, joins, START, es, s, JoinChecks(Name(n + j), false));
      AllCheckIn(cfg, joins, es + [JoinChecks(Name(n + j), false)], Step(cfg, s, JoinChecks(Name(n + j), false)),
                 n, j + 1, k);
    }
  }

  lemma NobodyYet()
    ensures Crowd(START, 0, 0)
  {}

  /** Joins one after the other: as many as the maximum allows, or any number if the checks need not
      count. */
  lemma {:induction false} OneByOne(cfg: Config, joins: Joins, n: nat)
    requires 0 < joins.atOnce && (cfg.maxMembers == 0 || n <= cfg.maxMembers || !joins.counted)
    ensures exists es, s :: ReachesFew(cfg, joins, START, es, s) && Crowd(s, n, 0)
  {
    hide ReachesFew, FewJoins, Enabled, Step, Crowd;
    if n == 0 {
      NobodyYet();
      NoEventsFew(cfg, joins, START);
    } else {
      OneByOne(cfg, joins, n - 1);
      var es, s :| ReachesFew(cfg, joins, START, es, s) && Crowd(s, n - 1, 0);
      var check := JoinChecks(Name(n - 1), !joins.counted);
      CheckIn(cfg, joins, s, n - 1, 0, !joins.counted);
      FewThenStep(cfg, joins, START, es, s, check);
      AllJoin(cfg, joins, es + [check], Step(cfg, s, check), n - 1, 1);
    }
  }

  /** For every number of overlapping joins the bound is reached: a room one short of full, and then
      so many joins that all check before any writes its row. */
  lemma MemberCapIsReached(cfg: Config, joins: Joins)
    requires cfg.maxMembers > 0 && joins.atOnce > 0
    ensures exists es, s :: ReachesFew(cfg, joins, START, es, s) && |s.members| == cfg.maxMembers - 1 + joins.atOnce
  {
    hide ReachesFew, Crowd;
    var n := cfg.maxMembers - 1;
    OneByOne(cfg, joins, n);
    var es, s :| ReachesFew(cfg, joins, START, es, s) && Crowd(s, n, 0);
    AllCheckIn(cfg, joins, es, s, n, 0, joins.atOnce);
    var fs, t :| ReachesFew(cfg, joins, START, fs, t) && Crowd(t, n, joins.atOnce);
    AllJoin(cfg, joins, fs, t, n, joins.atOnce);
    var gs, u :| ReachesFew(cfg, joins, START, gs, u) && Crowd(u, n + joins.atOnce, 0);
    CrowdSize(u, n + joins.atOnce, 0);
  }

  /** If checks may fail to count there is no bound at all, even for joins that run one at a time. */
  lemma UncountedJoinsAreUnbounded(cfg: Config, atOnce: nat, n: nat)
    requires 0 < atOnce
    ensures exists es, s :: ReachesFew(cfg, Joins(atOnce, false), START, es, s) && |s.members| == n
  {
    hide ReachesFew, Crowd;
    var joins := Joins(atOnce, false);
    OneByOne(cfg, joins, n);
    var es, s :| ReachesFew(cfg, joins, START, es, s) && Crowd(s, n, 0);
    CrowdSize(s, n, 0);
  }

  /** The maximum holds in all runs of such joins if and only if they run one at a time and always
      manage to count, or there are none. */
  lemma MemberMaximumHoldsIff(cfg: Config, joins: Joins)
    requires cfg.maxMembers > 0
    ensures (forall es, s :: ReachesFew(cfg, joins, START, es, s) ==> |s.members| <= cfg.maxMembers)
       <==> joins.atOnce == 0 || (joins.atOnce == 1 && joins.counted)
  {
    hide ReachesFew;
    if joins.atOnce == 0 || (joins.atOnce == 1 && joins.counted) {
      forall es, s | ReachesFew(cfg, joins, START, es, s)
        ensures |s.members| <= cfg.maxMembers
      {
        MemberCap(cfg, joins, es, s);
      }
    } else if !joins.counted {
      UncountedJoinsAreUnbounded(cfg, joins.atOnce, cfg.maxMembers + 1);
    } else {
      MemberCapIsReached(cfg, joins);
    }
  }
}

/** Runs of the group room that show what can happen. */
module RoomRuns {
  import opened Common
  import opened Room
  import opened RoomDelivery
  import opened RoomOrder
  import opened RoomOwner

  // ---------------------------------------------------------------------------
  // A member connects

  /** `after` is `before` with a new connection of `user` in the map, its last agent. */
  ghost predicate Connected(before: State, user: string, after: State) {
    var n := |before.agents|;
    |after.agents| == n + 1 && after.members == before.members && after.conns == before.conns[user := n]
    && after.agents[n].user == user && after.agents[n].pc == Registered && after.agents[n].open
    && after.agents[n].queue == []
    && (forall k :: 0 <= k < n ==> after.agents[k] == before.agents[k].(open := after.agents[k].open))
    && (user in before.conns && before.conns[user] < n ==> !after.agents[before.conns[user]].open)
    && (forall k :: 0 <= k < n && !(user in before.conns && before.conns[user] == k) ==>
          after.agents[k].open == before.agents[k].open)
  }

  lemma RegisterConnects(s: State, made: State, user: string, role: Role)
    requires made == s.(agents := s.agents + [NewAgent(user, role, Fresh)])
    ensures Connected(s, user, RegisterAgent(made, |s.agents|))
  {
    hide SentCounts;
  }

  lemma MemberConnects(cfg: Config, s: State, user: string, token: string)
    requires NoReaders(s.agents) && HasToken(s.members, user, token)
    ensures exists t :: Reaches(cfg, s, [Connect(user, token), Register(|s.agents|)], t) && Connected(s, user, t)
  {
    hide Connected, RegisterAgent;
    var made := Step(cfg, s, Connect(user, token));
    assert NoReaders(made.agents);
    RegisterConnects(s, made, user, s.members[user].role);
    TwoSteps(cfg, s, Connect(user, token), made, Register(|s.agents|), RegisterAgent(made, |s.agents|));
  }

  /** Two members of the room, their join notes still to be broadcast, as the run of
      OverlappingJoinsMakeTwoOwners leaves them. */
  lemma TwoMembers(cfg: Config, a: string, b: string, s: string, t: string)
    requires a != b && s != t
    ensures exists es :: Reaches(cfg, START, es, BothJoined(a, b, s, t))
  {
    hide Reaches, BothJoined;
    BothJoin(cfg, a, b, s, t);
  }

  // ---------------------------------------------------------------------------
  // The newest connection is closed

  predicate ClosesTheNewest(cfg: Config, s: State, p: nat, c: nat)
    requires Enabled(cfg, s, Unregister(p))
  {
    var user, t := s.agents[p].user, Step(cfg, s, Unregister(p));
    c < |s.agents| && |t.agents| == |s.agents| && p < c && !s.agents[p].open && s.agents[c].user == user
    && user in s.conns && s.conns[user] == c && s.agents[c].open && !t.agents[c].open
  }

  lemma ReadThenIdle(cfg: Config, s: State, p: nat)
    requires p < |s.agents| && s.agents[p].pc == Registered
    ensures Enabled(cfg, s, ReadHistory(p, true))
    ensures var t := Step(cfg, s, ReadHistory(p, true));
            t.conns == s.conns && t.members == s.members && |t.agents| == |s.agents| && t.agents[p].pc == Idle
            && t.agents[p].user == s.agents[p].user && t.agents[p].open == s.agents[p].open
            && (forall k :: 0 <= k < |s.agents| && k != p ==> t.agents[k] == s.agents[k])
  {
    hide ReadNewest;
  }

  lemma SocketEndsExit(cfg: Config, s: State, p: nat)
    requires p < |s.agents| && s.agents[p].pc == Idle
    ensures Enabled(cfg, s, SocketEnds(p))
    ensures var t := Step(cfg, s, SocketEnds(p));
            t.conns == s.conns && |t.agents| == |s.agents| && t.agents[p] == s.agents[p].(pc := Exiting)
            && (forall k :: 0 <= k < |s.agents| && k != p ==> t.agents[k] == s.agents[k])
  {}

  lemma UnregisterCloses(cfg: Config, s: State, p: nat, c: nat)
    requires p < c < |s.agents| && s.agents[p].pc == Exiting && NoReaders(s.agents) && !s.agents[p].open
    requires s.agents[c].user == s.agents[p].user && s.agents[c].open
    requires s.agents[p].user in s.conns && s.conns[s.agents[p].user] == c
    ensures Enabled(cfg, s, Unregister(p)) && ClosesTheNewest(cfg, s, p, c)
  {
    hide NoReaders;
  }

  predicate ConnectedOnce(u: State, a: string, s: string) {
    |u.agents| == 3 && NoReaders(u.agents) && u.agents[2].user == a && u.agents[2].pc == Idle && u.agents[2].open
    && HasToken(u.members, a, s) && a in u.conns && u.conns[a] == 2
  }

  predicate ConnectedTwice(u: State, a: string) {
    |u.agents| == 4 && NoReaders(u.agents) && u.agents[2].user == u.agents[3].user == a
    && u.agents[2].pc == Idle && !u.agents[2].open && u.agents[3].open && a in u.conns && u.conns[a] == 3
  }

  lemma FirstConnection(cfg: Config, s0: State, a: string, s: string)
    requires |s0.agents| == 2 && NoReaders(s0.agents) && HasToken(s0.members, a, s)
    ensures exists es, u :: Reaches(cfg, s0, es, u) && ConnectedOnce(u, a, s)
  {
    hide Reaches, Step, Enabled;
    MemberConnects(cfg, s0, a, s);
    var connect := [Connect(a, s), Register(|s0.agents|)];
    var s1 :| Reaches(cfg, s0, connect, s1) && Connected(s0, a, s1);
    ReadThenIdle(cfg, s1, 2);
    RunThenStep(cfg, s0, connect, s1, ReadHistory(2, true));
    assert ConnectedOnce(Step(cfg, s1, ReadHistory(2, true)), a, s);
  }

  lemma SecondConnection(cfg: Config, s0: State, a: string, s: string)
    requires ConnectedOnce(s0, a, s)
    ensures exists es, u :: Reaches(cfg, s0, es, u) && ConnectedTwice(u, a)
  {
    hide Reaches, Step, Enabled;
    MemberConnects(cfg, s0, a, s);
    var connect := [Connect(a, s), Register(|s0.agents|)];
    var s1 :| Reaches(cfg, s0, connect, s1) && Connected(s0, a, s1);
    assert ConnectedTwice(s1, a);
  }

  lemma FirstLeaves(cfg: Config, s0: State, a: string)
    requires ConnectedTwice(s0, a)
    ensures exists u :: Reaches(cfg, s0, [SocketEnds(2)], u) && Enabled(cfg, u, Unregister(2))
                        && ClosesTheNewest(cfg, u, 2, 3)
  {
    hide Reaches, Step, Enabled, ClosesTheNewest;
    SocketEndsExit(cfg, s0, 2);
    var u := Step(cfg, s0, SocketEnds(2));
    UnregisterCloses(cfg, u, 2, 3);
    OneStep(cfg, s0, SocketEnds(2));
  }

  /** A member connects, connects again, and then the first connection's socket ends: its handler
      closes the second one. */
  lemma NewestConnectionIsClosed(cfg: Config, a: string, b: string, s: string, t: string)
    requires a != b && s != t
    ensures exists es, u, p, c ::
      Reaches(cfg, START, es, u) && Enabled(cfg, u, Unregister(p)) && ClosesTheNewest(cfg, u, p, c)
  {
    hide Reaches, Enabled, ClosesTheNewest, ConnectedOnce, ConnectedTwice;
    TwoMembers(cfg, a, b, s, t);
    var s0 := BothJoined(a, b, s, t);
    var es0 :| Reaches(cfg, START, es0, s0);
    FirstConnection(cfg, s0, a, s);
    var es1, s1 :| Reaches(cfg, s0, es1, s1) && ConnectedOnce(s1, a, s);
    SecondConnection(cfg, s1, a, s);
    var es2, s2 :| Reaches(cfg, s1, es2, s2) && ConnectedTwice(s2, a);
    FirstLeaves(cfg, s2, a);
    var s3 :| Reaches(cfg, s2, [SocketEnds(2)], s3)
              && Enabled(cfg, s3, Unregister(2)) && ClosesTheNewest(cfg, s3, 2, 3);
    RunThenRun(cfg, START, es0, s0, es1, s1);
    RunThenRun(cfg, START, es0 + es1, s1, es2, s2);
    RunThenRun(cfg, START, es0 + es1 + es2, s2, [SocketEnds(2)], s3);
  }

  // ---------------------------------------------------------------------------
  // Opposite orders

  lemma BothLock(cfg: Config, s: State, p: nat, q: nat)
    requires p != q && Enabled(cfg, s, Lock(p)) && Enabled(cfg, s, Lock(q))
    ensures Enabled(cfg, Step(cfg, s, Lock(p)), Lock(q))
    ensures var t := Step(cfg, Step(cfg, s, Lock(p)), Lock(q));
            |t.agents| == |s.agents| && t.agents[p].sent != [] && t.agents[q].sent != []
            && Last(t.agents[p]).from == p && Last(t.agents[q]).from == q
            && forall c :: 0 <= c < |s.agents| ==> t.agents[c].queue == s.agents[c].queue
  {
    hide NextBody;
  }

  lemma OppositeFrom(cfg: Config, es: seq<Event>, s: State, p: nat, q: nat, c: nat, d: nat)
    requires Reaches(cfg, START, es, s) && RoomDelivery.Inv(s) && p != q && c != d
    requires Enabled(cfg, s, Lock(p)) && Enabled(cfg, s, Lock(q)) && c in s.conns.Values && d in s.conns.Values
    requires c < |s.agents| && d < |s.agents| && s.agents[c].queue == s.agents[d].queue == []
    ensures exists es', u, f, g ::
      Reaches(cfg, START, es', u) && c < |u.agents| && d < |u.agents| && f != g
      && u.agents[c].queue == [f, g] && u.agents[d].queue == [g, f]
  {
    hide Reaches, Step, BothSending, RoomDelivery.Inv;
    LocksOverlap(cfg, s, p, q, c, d);
    BothLock(cfg, s, p, q);
    var t := Step(cfg, Step(cfg, s, Lock(p)), Lock(q));
    TwoSteps(cfg, s, Lock(p), Step(cfg, s, Lock(p)), Lock(q), t);
    RunThenRun(cfg, START, es, s, [Lock(p), Lock(q)], t);
    NoOrderBetweenSenders(cfg, t, p, q, c, d);
    var sends := [Send(p, c), Send(q, c), Send(q, d), Send(p, d)];
    var f, g := Last(t.agents[p]), Last(t.agents[q]);
    var u :| Reaches(cfg, t, sends, u) && |u.agents| == |t.agents|
             && u.agents[c].queue == t.agents[c].queue + [f, g] && u.agents[d].queue == t.agents[d].queue + [g, f];
    RunThenRun(cfg, START, es + [Lock(p), Lock(q)], t, sends, u);
    assert [] + [f, g] == [f, g] && [] + [g, f] == [g, f];
  }

  /** Two connections with nothing received yet, and two notes about to be broadcast. */
  predicate TwoListen(u: State, a: string, b: string) {
    |u.agents| == 4 && NoReaders(u.agents) && u.agents[0].pc.Upserted? && u.agents[1].pc.Upserted?
    && u.agents[2].queue == u.agents[3].queue == []
    && a in u.conns && b in u.conns && u.conns[a] == 2 && u.conns[b] == 3
  }

  lemma BothConnect(cfg: Config, s0: State, a: string, b: string, s: string, t: string)
    requires a != b && |s0.agents| == 2 && NoReaders(s0.agents)
    requires HasToken(s0.members, a, s) && HasToken(s0.members, b, t)
    requires s0.agents[0].pc.Upserted? && s0.agents[1].pc.Upserted? && s0.conns == map[]
    ensures exists es, u :: Reaches(cfg, s0, es, u) && TwoListen(u, a, b)
  {
    hide Reaches, Step, Enabled;
    MemberConnects(cfg, s0, a, s);
    var first := [Connect(a, s), Register(|s0.agents|)];
    var s1 :| Reaches(cfg, s0, first, s1) && Connected(s0, a, s1);
    MemberConnects(cfg, s1, b, t);
    var second := [Connect(b, t), Register(|s1.agents|)];
    var s2 :| Reaches(cfg, s1, second, s2) && Connected(s1, b, s2);
    assert TwoListen(s2, a, b);
    RunThenRun(cfg, s0, first, s1, second, s2);
  }

  /** Two members connect while the notes of their joins are still to come: the two notes can reach
      the two connections in opposite orders. */
  lemma OppositeOrders(cfg: Config, a: string, b: string, s: string, t: string)
    requires a != b && s != t
    ensures exists es, u, c: nat, d: nat, f, g ::
      Reaches(cfg, START, es, u) && c < |u.agents| && d < |u.agents| && f != g
      && u.agents[c].queue == [f, g] && u.agents[d].queue == [g, f]
  {
    hide Reaches, Step, RoomDelivery.Inv;
    TwoMembers(cfg, a, b, s, t);
    var s0 := BothJoined(a, b, s, t);
    var es0 :| Reaches(cfg, START, es0, s0);
    BothConnect(cfg, s0, a, b, s, t);
    var es1, s1 :| Reaches(cfg, s0, es1, s1) && TwoListen(s1, a, b);
    RunThenRun(cfg, START, es0, s0, es1, s1);
    ReachableInv(cfg, es0 + es1, s1);
    OppositeFrom(cfg, es0 + es1, s1, 0, 1, 2, 3);
  }
}

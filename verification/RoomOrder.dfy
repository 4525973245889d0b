/** In what order a connection gets the broadcasts of different senders. */
module RoomOrder {
  import opened Common
  import opened Room
  import opened RoomDelivery

  // ---------------------------------------------------------------------------
  // Places in a channel

  /** Where in the queue the `n`-th frame of `p` is. */
  function Place(q: seq<Frame>, p: nat, n: nat): (k: nat)
    requires n < |From(q, p)|
    ensures k < |q| && q[k] == From(q, p)[n]
  {
    var last := |q| - 1;
    if n < |From(q[..last], p)| then Place(q[..last], p, n) else last
  }

  lemma {:induction false} FromPrefix(q: seq<Frame>, r: seq<Frame>, p: nat)
    requires q <= r
    ensures From(q, p) <= From(r, p)
    decreases |r|
  {
    if |q| < |r| {
      FromPrefix(q, r[..|r| - 1], p);
    } else {
      assert q == r;
    }
  }

  /** What comes later leaves the places of what is there. */
  lemma {:induction false} PlaceInPrefix(q: seq<Frame>, r: seq<Frame>, p: nat, n: nat)
    requires q <= r && n < |From(q, p)|
    ensures n < |From(r, p)| && Place(r, p, n) == Place(q, p, n)
    decreases |r|
  {
    FromPrefix(q, r, p);
    if |q| < |r| {
      FromPrefix(q, r[..|r| - 1], p);
      PlaceInPrefix(q, r[..|r| - 1], p, n);
    } else {
      assert q == r;
    }
  }

  lemma FullPrefix(q: seq<Frame>, r: seq<Frame>)
    requires q <= r
    ensures |q| == |r| ==> q == r
  {}

  /** A frame that is not there yet comes behind. */
  lemma {:induction false} PlaceBeyond(q: seq<Frame>, r: seq<Frame>, p: nat, n: nat)
    requires q <= r && |From(q, p)| <= n < |From(r, p)|
    ensures Place(r, p, n) >= |q|
    decreases |r|
  {
    FullPrefix(q, r);
    var shorter := r[..|r| - 1];
    if n < |From(shorter, p)| {
      PlaceBeyond(q, shorter, p, n);
    }
  }

  // ---------------------------------------------------------------------------
  // What later states keep of earlier ones

  /** A channel only grows, and not at all once it is closed; a registration counts what had been
      broadcast by then. */
  ghost predicate Grown(a: Agent, b: Agent, counts: seq<nat>) {
    a.enqueued <= b.enqueued && a.sent <= b.sent
    && (a.pc.Fresh? ==> (b.pc.Fresh? && b.enqueued == a.enqueued && b.open == a.open)
                        || (!b.pc.Fresh? && b.since == counts))
    && (!a.pc.Fresh? ==> !b.pc.Fresh? && b.since == a.since && (!a.open ==> !b.open && b.enqueued == a.enqueued))
  }

  ghost predicate AllGrown(before: seq<Agent>, after: seq<Agent>) {
    |before| <= |after|
    && (forall c :: 0 <= c < |before| ==> Grown(before[c], after[c], SentCounts(before)))
    && (forall c :: |before| <= c < |after| ==> after[c].enqueued == [] && !after[c].open)
  }

  lemma GrownSelf(a: Agent, counts: seq<nat>)
    ensures Grown(a, a, counts)
  {}

  lemma MoveGrows(s: State, p: nat, t: State)
    requires Moved(s, p, t) && !s.agents[p].pc.Fresh? && !t.agents[p].pc.Fresh?
    ensures AllGrown(s.agents, t.agents)
  {
    hide SentCounts, Lags, AgentOk;
    forall c | 0 <= c < |s.agents|
      ensures Grown(s.agents[c], t.agents[c], SentCounts(s.agents))
    {
      GrownSelf(s.agents[c], SentCounts(s.agents));
    }
  }

  lemma MoversAreNotFresh(cfg: Config, s: State, e: Event)
    requires Enabled(cfg, s, e) && MovesOne(e)
    ensures e.p < |s.agents| && !s.agents[e.p].pc.Fresh?
    ensures e.p < |Step(cfg, s, e).agents| && !Step(cfg, s, e).agents[e.p].pc.Fresh?
  {
    hide ReadNewest, Trim;
  }

  lemma CloseGrows(conns: map<string, nat>, agents: seq<Agent>, user: string, c: nat, counts: seq<nat>)
    requires c < |agents| && !agents[c].pc.Fresh?
    ensures |Close(conns, agents, user)| == |agents| && Grown(agents[c], Close(conns, agents, user)[c], counts)
  {
    hide Close;
    ClosePart(conns, agents, user, c);
  }

  lemma FreshKeepsOut(s: State, user: string, c: nat)
    requires Inv(s) && c < |s.agents| && s.agents[c].pc.Fresh?
    ensures |Close(s.conns, s.agents, user)| == |s.agents| && Close(s.conns, s.agents, user)[c] == s.agents[c]
  {
    hide PairOk, Lags;
    assert AgentOk(s.agents[c], c, |s.agents|);
  }

  lemma RegisterGrows(s: State, p: nat)
    requires Inv(s) && p < |s.agents| && s.agents[p].pc.Fresh?
    ensures AllGrown(s.agents, RegisterAgent(s, p).agents)
  {
    hide Inv, Close, SentCounts;
    var user := s.agents[p].user;
    forall c | 0 <= c < |s.agents|
      ensures |RegisterAgent(s, p).agents| == |s.agents|
      ensures Grown(s.agents[c], RegisterAgent(s, p).agents[c], SentCounts(s.agents))
    {
      FreshKeepsOut(s, user, p);
      if s.agents[c].pc.Fresh? {
        FreshKeepsOut(s, user, c);
      } else {
        CloseGrows(s.conns, s.agents, user, c, SentCounts(s.agents));
      }
    }
  }

  lemma UnregisterGrows(cfg: Config, s: State, p: nat)
    requires Inv(s) && Enabled(cfg, s, Unregister(p))
    ensures AllGrown(s.agents, Step(cfg, s, Unregister(p)).agents)
  {
    hide Inv, Close, SentCounts, NoReaders;
    var user := s.agents[p].user;
    forall c | 0 <= c < |s.agents|
      ensures |Step(cfg, s, Unregister(p)).agents| == |s.agents|
      ensures Grown(s.agents[c], Step(cfg, s, Unregister(p)).agents[c], SentCounts(s.agents))
    {
      CloseGrows(s.conns, s.agents, user, p, SentCounts(s.agents));
      if s.agents[c].pc.Fresh? {
        FreshKeepsOut(s, user, c);
      } else {
        CloseGrows(s.conns, s.agents, user, c, SentCounts(s.agents));
      }
    }
  }

  lemma LockGrows(cfg: Config, s: State, p: nat)
    requires Enabled(cfg, s, Lock(p))
    ensures AllGrown(s.agents, Step(cfg, s, Lock(p)).agents)
  {
    hide SentCounts, NextBody;
  }

  lemma SendGrows(before: seq<Agent>, p: nat, c: nat, after: seq<Agent>)
    requires Delivers(before, p, c, after) && before[c].open && !before[c].pc.Fresh?
    ensures AllGrown(before, after)
  {
    hide SentCounts;
  }

  lemma AppendGrows(agents: seq<Agent>, a: Agent)
    requires a.enqueued == [] && !a.open
    ensures AllGrown(agents, agents + [a])
  {
    hide SentCounts;
  }

  lemma OpenIsNotFresh(s: State, p: nat, c: nat)
    requires Inv(s) && p < |s.agents| && Lags(s.agents[p], c)
    ensures c < |s.agents| && s.agents[c].open && !s.agents[c].pc.Fresh? && s.agents[p].sent != []
  {
    hide PairOk;
    assert c < |s.agents| && s.agents[c].open;
    assert AgentOk(s.agents[c], c, |s.agents|) && AgentOk(s.agents[p], p, |s.agents|);
  }

  lemma StepGrows(cfg: Config, s: State, e: Event)
    requires Inv(s) && Enabled(cfg, s, e)
    ensures AllGrown(s.agents, Step(cfg, s, e).agents)
  {
    hide Inv, AllGrown, RegisterAgent, Deliver, Store, Close, NoReaders, ReadNewest, Trim, Moved, NextBody;
    if MovesOne(e) {
      AgentOkHere(s, e.p);
      MoveIsSame(cfg, s, e);
      MoversAreNotFresh(cfg, s, e);
      MoveGrows(s, e.p, Step(cfg, s, e));
    } else {
      match e
      case Register(p) => RegisterGrows(s, p);
      case Lock(p) => LockGrows(cfg, s, p);
      case Send(p, c) =>
        OpenIsNotFresh(s, p, c);
        DeliverDelivers(s, p, c);
        SendGrows(s.agents, p, c, Deliver(s, p, c).agents);
      case Unregister(p) => UnregisterGrows(cfg, s, p);
      case JoinChecks(user, _) => AppendGrows(s.agents, NewAgent(user, Plain, Checked));
      case LeaveResolves(user, _) => AppendGrows(s.agents, NewAgent(user, Plain, Resolved));
      case Connect(user, _) => AppendGrows(s.agents, NewAgent(user, s.members[user].role, Fresh));
    }
  }

  /** What agent `c`, now `a`, has kept of the moment `mid`: its channel has grown, or it registered
      since and has counted at least what had been broadcast then, or it has no channel. */
  ghost predicate LaterOne(mid: seq<Agent>, c: nat, a: Agent) {
    if c < |mid| && !mid[c].pc.Fresh? then
      !a.pc.Fresh? && a.since == mid[c].since && mid[c].enqueued <= a.enqueued
      && (!mid[c].open ==> !a.open && a.enqueued == mid[c].enqueued)
    else
      (a.enqueued == [] && !a.open)
      || (!a.pc.Fresh? && |mid| <= |a.since| && forall p :: 0 <= p < |mid| ==> |mid[p].sent| <= a.since[p])
  }

  ghost predicate Later(mid: seq<Agent>, now: seq<Agent>) {
    |mid| <= |now|
    && (forall p :: 0 <= p < |mid| ==> mid[p].sent <= now[p].sent)
    && (forall c :: 0 <= c < |now| ==> LaterOne(mid, c, now[c]))
  }

  lemma LaterAtOnce(agents: seq<Agent>)
    requires AgentsOk(agents)
    ensures Later(agents, agents)
  {
    forall c | 0 <= c < |agents|
      ensures LaterOne(agents, c, agents[c])
    {
      assert AgentOk(agents[c], c, |agents|);
    }
  }

  lemma LaterOneGrows(mid: seq<Agent>, c: nat, a: Agent, b: Agent, counts: seq<nat>)
    requires LaterOne(mid, c, a) && Grown(a, b, counts)
    requires |mid| <= |counts| && forall p :: 0 <= p < |mid| ==> |mid[p].sent| <= counts[p]
    ensures LaterOne(mid, c, b)
  {}

  lemma LaterGrows(mid: seq<Agent>, before: seq<Agent>, after: seq<Agent>)
    requires Later(mid, before) && AllGrown(before, after)
    ensures Later(mid, after)
  {
    forall p | 0 <= p < |mid|
      ensures mid[p].sent <= after[p].sent && |mid[p].sent| <= SentCounts(before)[p]
    {
      assert Grown(before[p], after[p], SentCounts(before));
    }
    forall c | 0 <= c < |after|
      ensures LaterOne(mid, c, after[c])
    {
      if c < |before| {
        LaterOneGrows(mid, c, before[c], after[c], SentCounts(before));
      }
    }
  }

  lemma {:induction false} RunIsLater(cfg: Config, mid: seq<Agent>, before: State, es: seq<Event>, after: State)
    requires Inv(before) && Later(mid, before.agents) && Reaches(cfg, before, es, after)
    ensures Later(mid, after.agents)
    decreases |es|
  {
    hide Inv, Step, Enabled, Later, AllGrown;
    if es != [] {
      StepGrows(cfg, before, es[0]);
      StepKeepsInv(cfg, before, es[0]);
      LaterGrows(mid, before.agents, Step(cfg, before, es[0]).agents);
      RunIsLater(cfg, mid, Step(cfg, before, es[0]), es[1..], after);
    }
  }

  // ---------------------------------------------------------------------------
  // Broadcasts that do not overlap

  /** Broadcast `i` of this agent has released the read lock. */
  predicate Ended(a: Agent, i: nat) {
    i < |a.sent| && !(a.pc.Sending? && i == |a.sent| - 1)
  }

  predicate Begun(agents: seq<Agent>, q: nat, j: nat) {
    q < |agents| && j < |agents[q].sent|
  }

  /** Broadcast `i` of `p` was put on this channel. */
  predicate WasGiven(a: Agent, p: nat, i: nat) {
    Before(a, p) <= i < Upto(a, p)
  }

  /** ... and this is its place there. */
  function PlaceOf(a: Agent, p: nat, i: nat): nat
    requires WasGiven(a, p, i)
  {
    Place(a.enqueued, p, i - Before(a, p))
  }

  lemma NothingFromStrangers(a: Agent, c: nat, n: nat, q: nat)
    requires AgentOk(a, c, n) && n <= q
    ensures Upto(a, q) == 0
  {
    FromAbsent(a.enqueued, q);
  }

  /** At `mid` the channel of a registered `c` has broadcast `i` of `p` but not `j` of `q`. */
  lemma GivenSoFar(mid: seq<Agent>, c: nat, p: nat, i: nat, q: nat, j: nat)
    requires AgentsOk(mid) && FifoOk(mid) && c < |mid| && p < |mid|
    requires Ended(mid[p], i) && !Begun(mid, q, j)
    ensures mid[c].open ==> i < Upto(mid[c], p)
    ensures Upto(mid[c], q) <= j
  {
    hide From;
    assert PairOk(mid[c], c, mid[p], p);
    if q < |mid| {
      assert PairOk(mid[c], c, mid[q], q);
    } else {
      assert AgentOk(mid[c], c, |mid|);
      NothingFromStrangers(mid[c], c, |mid|, q);
    }
  }

  lemma PlacesOnceLater(m: Agent, a: Agent, p: nat, i: nat, q: nat, j: nat)
    requires a.since == m.since && m.enqueued <= a.enqueued
    requires WasGiven(a, p, i) && WasGiven(a, q, j) && i < Upto(m, p) && Upto(m, q) <= j
    ensures PlaceOf(a, p, i) < PlaceOf(a, q, j)
  {
    PlaceInPrefix(m.enqueued, a.enqueued, p, i - Before(a, p));
    PlaceBeyond(m.enqueued, a.enqueued, q, j - Before(a, q));
  }

  lemma OrderedOnceLater(mid: seq<Agent>, c: nat, a: Agent, p: nat, i: nat, q: nat, j: nat)
    requires AgentsOk(mid) && FifoOk(mid) && LaterOne(mid, c, a) && p < |mid|
    requires Ended(mid[p], i) && !Begun(mid, q, j) && WasGiven(a, p, i) && WasGiven(a, q, j)
    ensures PlaceOf(a, p, i) < PlaceOf(a, q, j)
  {
    hide AgentsOk, FifoOk, PlaceOf, Begun;
    if c < |mid| && !mid[c].pc.Fresh? {
      GivenSoFar(mid, c, p, i, q, j);
      assert mid[c].open;
      PlacesOnceLater(mid[c], a, p, i, q, j);
    } else {
      assert false;
    }
  }

  /** If one broadcast has ended before another begins, whoever is given both gets them in that
      order, whoever the senders and whatever else is going on. */
  lemma OneAfterTheOtherIsOrdered(
    cfg: Config, es: seq<Event>, mid: State, fs: seq<Event>, s: State, p: nat, i: nat, q: nat, j: nat, c: nat)
    requires Reaches(cfg, START, es, mid) && Reaches(cfg, mid, fs, s)
    requires p < |mid.agents| && Ended(mid.agents[p], i) && !Begun(mid.agents, q, j)
    requires c < |s.agents| && WasGiven(s.agents[c], p, i) && WasGiven(s.agents[c], q, j)
    ensures PlaceOf(s.agents[c], p, i) < PlaceOf(s.agents[c], q, j)
  {
    hide Reaches, LaterOne, Ended, Begun, WasGiven, PlaceOf, AgentsOk, FifoOk, ConnsOk, TodoOk;
    ReachableInv(cfg, es, mid);
    LaterAtOnce(mid.agents);
    RunIsLater(cfg, mid.agents, mid, fs, s);
    OrderedOnceLater(mid.agents, c, s.agents[c], p, i, q, j);
  }

  // ---------------------------------------------------------------------------
  // Broadcasts that do

  function Last(a: Agent): Frame
    requires a.sent != []
  {
    a.sent[|a.sent| - 1]
  }

  /** Two broadcasts hold the read lock at once and both have `c` and `d` still to serve. */
  predicate BothSending(s: State, p: nat, q: nat, c: nat, d: nat) {
    p < |s.agents| && q < |s.agents| && c < |s.agents| && d < |s.agents| && p != q && c != d
    && Lags(s.agents[p], c) && Lags(s.agents[p], d) && Lags(s.agents[q], c) && Lags(s.agents[q], d)
    && s.agents[p].sent != [] && s.agents[q].sent != []
  }

  lemma SendOnce(cfg: Config, s: State, p: nat, c: nat)
    requires p < |s.agents| && c < |s.agents| && Lags(s.agents[p], c) && s.agents[p].sent != []
    ensures Enabled(cfg, s, Send(p, c)) && Delivers(s.agents, p, c, Step(cfg, s, Send(p, c)).agents)
  {
    hide Delivers, Deliver;
    DeliverDelivers(s, p, c);
  }

  lemma SendElsewhere(before: seq<Agent>, p: nat, c: nat, after: seq<Agent>)
    requires Delivers(before, p, c, after)
    ensures forall q :: 0 <= q < |before| && q != p ==> after[q].sent == before[q].sent && after[q].pc == before[q].pc
    ensures after[p].sent == before[p].sent && after[p].pc.Sending?
    ensures forall d: nat :: Lags(after[p], d) <==> Lags(before[p], d) && d != c
    ensures forall d :: 0 <= d < |before| ==>
              after[d].queue == before[d].queue + if d == c then [Last(before[p])] else []
  {}

  lemma DeliversLength(before: seq<Agent>, p: nat, c: nat, after: seq<Agent>)
    requires Delivers(before, p, c, after)
    ensures |after| == |before|
  {}

  lemma FourSteps(cfg: Config, s: State, e0: Event, e1: Event, e2: Event, e3: Event)
    requires Enabled(cfg, s, e0) && Enabled(cfg, Step(cfg, s, e0), e1)
    requires Enabled(cfg, Step(cfg, Step(cfg, s, e0), e1), e2)
    requires Enabled(cfg, Step(cfg, Step(cfg, Step(cfg, s, e0), e1), e2), e3)
    ensures Reaches(cfg, s, [e0, e1, e2, e3], Step(cfg, Step(cfg, Step(cfg, Step(cfg, s, e0), e1), e2), e3))
  {
    hide Enabled, Step, Reaches;
    var s1 := Step(cfg, s, e0);
    var s2 := Step(cfg, s1, e1);
    var s3 := Step(cfg, s2, e2);
    TwoSteps(cfg, s, e0, s1, e1, s2);
    TwoSteps(cfg, s2, e2, s3, e3, Step(cfg, s3, e3));
    RunThenRun(cfg, s, [e0, e1], s2, [e2, e3], Step(cfg, s3, e3));
    assert [e0, e1] + [e2, e3] == [e0, e1, e2, e3];
  }

  /** Broadcasts share the lock: while two are under way, two recipients may still get them in
      opposite orders. */
  lemma NoOrderBetweenSenders(cfg: Config, s: State, p: nat, q: nat, c: nat, d: nat)
    requires BothSending(s, p, q, c, d)
    ensures exists t ::
      Reaches(cfg, s, [Send(p, c), Send(q, c), Send(q, d), Send(p, d)], t)
      && |t.agents| == |s.agents|
      && t.agents[c].queue == s.agents[c].queue + [Last(s.agents[p]), Last(s.agents[q])]
      && t.agents[d].queue == s.agents[d].queue + [Last(s.agents[q]), Last(s.agents[p])]
  {
    hide Step, Enabled, Delivers;
    SendOnce(cfg, s, p, c);
    var s1 := Step(cfg, s, Send(p, c));
    SendElsewhere(s.agents, p, c, s1.agents);
    DeliversLength(s.agents, p, c, s1.agents);
    SendOnce(cfg, s1, q, c);
    var s2 := Step(cfg, s1, Send(q, c));
    SendElsewhere(s1.agents, q, c, s2.agents);
    DeliversLength(s1.agents, q, c, s2.agents);
    SendOnce(cfg, s2, q, d);
    var s3 := Step(cfg, s2, Send(q, d));
    SendElsewhere(s2.agents, q, d, s3.agents);
    DeliversLength(s2.agents, q, d, s3.agents);
    SendOnce(cfg, s3, p, d);
    var t := Step(cfg, s3, Send(p, d));
    SendElsewhere(s3.agents, p, d, t.agents);
    DeliversLength(s3.agents, p, d, t.agents);
    FourSteps(cfg, s, Send(p, c), Send(q, c), Send(q, d), Send(p, d));
    var P, Q := Last(s.agents[p]), Last(s.agents[q]);
    assert (s.agents[c].queue + [P]) + [Q] + [] + [] == s.agents[c].queue + [P, Q];
    assert (s.agents[d].queue + [] + [] + [Q]) + [P] == s.agents[d].queue + [Q, P];
  }

  lemma LockOnce(cfg: Config, s: State, p: nat)
    requires Enabled(cfg, s, Lock(p))
    ensures var t := Step(cfg, s, Lock(p));
            |t.agents| == |s.agents| && t.conns == s.conns
            && (forall q :: 0 <= q < |s.agents| && q != p ==> t.agents[q] == s.agents[q])
            && t.agents[p].sent != [] && forall c: nat :: Lags(t.agents[p], c) <==> c in s.conns.Values
  {
    hide NextBody;
  }

  lemma EntryIsAgent(s: State, c: nat)
    requires Inv(s) && c in s.conns.Values
    ensures c < |s.agents|
  {
    hide AgentsOk, TodoOk, FifoOk;
    var u :| u in s.conns && s.conns[u] == c;
  }

  /** Any two agents about to broadcast to a room of two connections can come to that. */
  lemma LocksOverlap(cfg: Config, s: State, p: nat, q: nat, c: nat, d: nat)
    requires Inv(s) && p != q && c != d && Enabled(cfg, s, Lock(p)) && Enabled(cfg, s, Lock(q))
    requires c in s.conns.Values && d in s.conns.Values
    ensures Enabled(cfg, Step(cfg, s, Lock(p)), Lock(q))
    ensures BothSending(Step(cfg, Step(cfg, s, Lock(p)), Lock(q)), p, q, c, d)
  {
    hide Step, Inv, Lags;
    EntryIsAgent(s, c);
    EntryIsAgent(s, d);
    LockOnce(cfg, s, p);
    LockOnce(cfg, Step(cfg, s, Lock(p)), q);
  }

  // ---------------------------------------------------------------------------
  // Exactly when orders can still come out opposite

  /** Both were put on this channel, `i` of `p` before `j` of `q`. */
  predicate InOrder(a: Agent, p: nat, i: nat, q: nat, j: nat) {
    WasGiven(a, p, i) && WasGiven(a, q, j) && PlaceOf(a, p, i) < PlaceOf(a, q, j)
  }

  /** Broadcast `i` of this agent is under way and has yet to reach `c`. */
  predicate Owes(b: Agent, i: nat, c: nat) {
    Lags(b, c) && i == |b.sent| - 1
  }

  /** `c` has the two in this order, or is still owed the second and has, or is owed, the first. */
  predicate MayCome(agents: seq<Agent>, p: nat, i: nat, q: nat, j: nat, c: nat)
    requires p < |agents| && q < |agents| && c < |agents|
  {
    InOrder(agents[c], p, i, q, j)
    || (Owes(agents[q], j, c) && (WasGiven(agents[c], p, i) || Owes(agents[p], i, c)))
  }

  lemma GivenOrOwed(agents: seq<Agent>, c: nat, a: Agent, p: nat, i: nat)
    requires FifoOk(agents) && c < |agents| && p < |agents| && i < |agents[p].sent| && !agents[c].pc.Fresh?
    requires LaterOne(agents, c, a) && WasGiven(a, p, i)
    ensures WasGiven(agents[c], p, i) || Owes(agents[p], i, c)
    ensures i < Upto(agents[c], p) <==> WasGiven(agents[c], p, i)
  {
    assert PairOk(agents[c], c, agents[p], p);
    hide From;
  }

  lemma FreshHasNeither(agents: seq<Agent>, c: nat, a: Agent, p: nat, i: nat)
    requires c < |agents| && p < |agents| && i < |agents[p].sent| && agents[c].pc.Fresh? && LaterOne(agents, c, a)
    ensures !WasGiven(a, p, i)
  {}

  lemma PlacesKept(m: Agent, a: Agent, p: nat, i: nat)
    requires a.since == m.since && m.enqueued <= a.enqueued && WasGiven(m, p, i)
    ensures WasGiven(a, p, i) && PlaceOf(a, p, i) == PlaceOf(m, p, i)
  {
    PlaceInPrefix(m.enqueued, a.enqueued, p, i - Before(a, p));
  }

  /** An order there is later was there, or could come about, before. */
  lemma CouldCome(agents: seq<Agent>, c: nat, a: Agent, p: nat, i: nat, q: nat, j: nat)
    requires FifoOk(agents) && c < |agents| && p < |agents| && q < |agents|
    requires i < |agents[p].sent| && j < |agents[q].sent| && LaterOne(agents, c, a) && InOrder(a, p, i, q, j)
    ensures MayCome(agents, p, i, q, j, c)
  {
    hide FifoOk, WasGiven, Owes, PlaceOf, Upto;
    if agents[c].pc.Fresh? {
      FreshHasNeither(agents, c, a, p, i);
    } else {
      var m := agents[c];
      GivenOrOwed(agents, c, a, p, i);
      GivenOrOwed(agents, c, a, q, j);
      if WasGiven(m, p, i) && WasGiven(m, q, j) {
        PlacesKept(m, a, p, i);
        PlacesKept(m, a, q, j);
      } else if WasGiven(m, q, j) {
        PlacesOnceLater(m, a, q, j, p, i);
      }
    }
  }

  /** What sending broadcast `i` of `p` to `c` does. */
  ghost predicate Gives(before: seq<Agent>, p: nat, i: nat, c: nat, after: seq<Agent>) {
    |after| == |before| && p < |before| && c < |before|
    && WasGiven(after[c], p, i) && !Owes(after[p], i, c)
    && (forall x :: 0 <= x < |before| ==>
          after[x].since == before[x].since && |after[x].sent| == |before[x].sent|
          && before[x].enqueued <= after[x].enqueued)
    && (forall x :: 0 <= x < |before| && x != c ==> after[x].enqueued == before[x].enqueued)
    && (forall x: nat, y: nat {:trigger Lags(after[x], y)} :: x < |before| ==>
          (Lags(after[x], y) <==> Lags(before[x], y) && !(x == p && y == c)))
  }

  lemma OpenPair(s: State, c: nat, p: nat)
    requires Inv(s) && c < |s.agents| && p < |s.agents|
    ensures PairOk(s.agents[c], c, s.agents[p], p)
  {
    hide PairOk, AgentOk;
  }

  lemma DeliversKeep(before: seq<Agent>, p: nat, c: nat, after: seq<Agent>)
    requires Delivers(before, p, c, after)
    ensures |after| == |before| && after[c].open == before[c].open && after[c].since == before[c].since
    ensures after[p].sent == before[p].sent && !Lags(after[p], c)
  {}

  lemma ReachedNow(a: Agent, a': Agent, c: nat, b: Agent, p: nat, b': Agent, i: nat)
    requires PairOk(a, c, b, p) && PairOk(a', c, b', p) && a.open && a'.open && a'.since == a.since
    requires Owes(b, i, c) && b'.sent == b.sent && !Lags(b', c)
    ensures WasGiven(a', p, i)
  {
    hide From;
  }

  lemma DeliversGive(before: seq<Agent>, p: nat, i: nat, c: nat, after: seq<Agent>)
    requires Delivers(before, p, c, after) && WasGiven(after[c], p, i) && Owes(before[p], i, c)
    ensures Gives(before, p, i, c, after)
  {
    hide WasGiven;
  }

  lemma SendGives(cfg: Config, s: State, p: nat, i: nat, c: nat)
    requires Inv(s) && p < |s.agents| && Owes(s.agents[p], i, c)
    ensures c < |s.agents| && Enabled(cfg, s, Send(p, c)) && Inv(Step(cfg, s, Send(p, c)))
    ensures Gives(s.agents, p, i, c, Step(cfg, s, Send(p, c)).agents)
  {
    hide Inv, Step, Enabled, Delivers;
    OpenIsNotFresh(s, p, c);
    SendOnce(cfg, s, p, c);
    StepKeepsInv(cfg, s, Send(p, c));
    var t := Step(cfg, s, Send(p, c));
    OpenPair(s, c, p);
    DeliversKeep(s.agents, p, c, t.agents);
    OpenPair(t, c, p);
    ReachedNow(s.agents[c], t.agents[c], c, s.agents[p], p, t.agents[p], i);
    SendElsewhere(s.agents, p, c, t.agents);
    DeliversGive(s.agents, p, i, c, t.agents);
  }

  lemma SameChannel(a: Agent, b: Agent, p: nat, i: nat, q: nat, j: nat)
    requires b.since == a.since && b.enqueued == a.enqueued
    ensures InOrder(a, p, i, q, j) <==> InOrder(b, p, i, q, j)
    ensures WasGiven(a, p, i) <==> WasGiven(b, p, i)
  {}

  /** Another connection is not affected. */
  lemma ElsewhereMayCome(before: seq<Agent>, x: nat, k: nat, c: nat, after: seq<Agent>,
                         p: nat, i: nat, q: nat, j: nat, d: nat)
    requires Gives(before, x, k, c, after) && c != d && p < |before| && q < |before| && d < |before|
    requires MayCome(before, p, i, q, j, d)
    ensures MayCome(after, p, i, q, j, d)
    ensures InOrder(after[d], p, i, q, j) <==> InOrder(before[d], p, i, q, j)
    ensures Owes(after[p], i, d) <==> Owes(before[p], i, d)
  {
    SameChannel(before[d], after[d], p, i, q, j);
    hide WasGiven, InOrder;
  }

  /** Steps still to be made at `c`. */
  function ToDo(agents: seq<Agent>, p: nat, i: nat, q: nat, j: nat, c: nat): nat
    requires p < |agents| && q < |agents| && c < |agents|
  {
    if InOrder(agents[c], p, i, q, j) then 0 else if Owes(agents[p], i, c) then 2 else 1
  }

  lemma FirstComes(agents: seq<Agent>, p: nat, i: nat, q: nat, j: nat, c: nat, after: seq<Agent>)
    requires p != q && p < |agents| && q < |agents| && c < |agents| && MayCome(agents, p, i, q, j, c)
    requires !InOrder(agents[c], p, i, q, j) && Owes(agents[p], i, c) && Gives(agents, p, i, c, after)
    ensures MayCome(after, p, i, q, j, c) && ToDo(after, p, i, q, j, c) < ToDo(agents, p, i, q, j, c)
  {
    hide WasGiven, InOrder;
    assert Lags(after[q], c) <==> Lags(agents[q], c);
  }

  lemma GivenIsUpto(a: Agent, p: nat, i: nat)
    requires WasGiven(a, p, i)
    ensures i < Upto(a, p)
  {}

  lemma OwedIsNotGiven(a: Agent, c: nat, b: Agent, q: nat, j: nat)
    requires PairOk(a, c, b, q) && a.open && Owes(b, j, c)
    ensures Upto(a, q) <= j
  {
    hide From;
  }

  lemma SecondComes(s: State, p: nat, i: nat, q: nat, j: nat, c: nat, after: seq<Agent>)
    requires Inv(s) && p < |s.agents| && q < |s.agents| && c < |s.agents| && MayCome(s.agents, p, i, q, j, c)
    requires !InOrder(s.agents[c], p, i, q, j) && !Owes(s.agents[p], i, c) && Gives(s.agents, q, j, c, after)
    ensures MayCome(after, p, i, q, j, c) && ToDo(after, p, i, q, j, c) < ToDo(s.agents, p, i, q, j, c)
  {
    hide Inv;
    var m, a := s.agents[c], after[c];
    OpenIsNotFresh(s, q, c);
    OpenPair(s, c, q);
    OwedIsNotGiven(m, c, s.agents[q], q, j);
    PlacesKept(m, a, p, i);
    hide WasGiven, PlaceOf;
    GivenIsUpto(m, p, i);
    PlacesOnceLater(m, a, p, i, q, j);
  }

  lemma GivesLength(before: seq<Agent>, p: nat, i: nat, c: nat, after: seq<Agent>)
    requires Gives(before, p, i, c, after)
    ensures |after| == |before|
  {}

  /** Both orders can be brought about. */
  lemma {:induction false} BothCome(cfg: Config, s: State, p: nat, i: nat, q: nat, j: nat, c: nat, d: nat)
    requires Inv(s) && p != q && c != d && p < |s.agents| && q < |s.agents| && c < |s.agents| && d < |s.agents|
    requires MayCome(s.agents, p, i, q, j, c) && MayCome(s.agents, q, j, p, i, d)
    ensures exists es, t :: Reaches(cfg, s, es, t) && |t.agents| == |s.agents|
                            && InOrder(t.agents[c], p, i, q, j) && InOrder(t.agents[d], q, j, p, i)
    decreases ToDo(s.agents, p, i, q, j, c) + ToDo(s.agents, q, j, p, i, d),
              if InOrder(s.agents[c], p, i, q, j) then 1 else 0
  {
    hide Inv, Reaches, Step, Enabled, InOrder, WasGiven, Owes, Gives;
    if !InOrder(s.agents[c], p, i, q, j) {
      var owed := Owes(s.agents[p], i, c);
      var x, k := if owed then p else q, if owed then i else j;
      SendGives(cfg, s, x, k, c);
      var next := Step(cfg, s, Send(x, c));
      GivesLength(s.agents, x, k, c, next.agents);
      if owed {
        FirstComes(s.agents, p, i, q, j, c, next.agents);
      } else {
        SecondComes(s, p, i, q, j, c, next.agents);
      }
      ElsewhereMayCome(s.agents, x, k, c, next.agents, q, j, p, i, d);
      BothCome(cfg, next, p, i, q, j, c, d);
      var es, t :| Reaches(cfg, next, es, t) && |t.agents| == |next.agents|
                   && InOrder(t.agents[c], p, i, q, j) && InOrder(t.agents[d], q, j, p, i);
      OneStep(cfg, s, Send(x, c));
      RunThenRun(cfg, s, [Send(x, c)], next, es, t);
    } else if !InOrder(s.agents[d], q, j, p, i) {
      BothCome(cfg, s, q, j, p, i, d, c);
    } else {
      NoEvents(cfg, s);
    }
  }

  /** Two broadcasts that have begun can reach `c` and `d` in opposite orders if and only if each of
      these has them in the order wanted, or is still owed the second and has, or is owed, the first. */
  lemma OppositeOrdersIff(cfg: Config, es: seq<Event>, s: State, p: nat, i: nat, q: nat, j: nat, c: nat, d: nat)
    requires Reaches(cfg, START, es, s) && p != q && c != d
    requires p < |s.agents| && q < |s.agents| && c < |s.agents| && d < |s.agents|
    requires i < |s.agents[p].sent| && j < |s.agents[q].sent|
    ensures (exists fs, t :: Reaches(cfg, s, fs, t) && c < |t.agents| && d < |t.agents|
                             && InOrder(t.agents[c], p, i, q, j) && InOrder(t.agents[d], q, j, p, i))
       <==> MayCome(s.agents, p, i, q, j, c) && MayCome(s.agents, q, j, p, i, d)
  {
    hide Reaches, InOrder, MayCome, LaterOne, AgentsOk, FifoOk, ConnsOk, TodoOk;
    ReachableInv(cfg, es, s);
    forall fs, t | Reaches(cfg, s, fs, t) && c < |t.agents| && d < |t.agents|
                   && InOrder(t.agents[c], p, i, q, j) && InOrder(t.agents[d], q, j, p, i)
      ensures MayCome(s.agents, p, i, q, j, c) && MayCome(s.agents, q, j, p, i, d)
    {
      LaterAtOnce(s.agents);
      RunIsLater(cfg, s.agents, s, fs, t);
      CouldCome(s.agents, c, t.agents[c], p, i, q, j);
      CouldCome(s.agents, d, t.agents[d], q, j, p, i);
    }
    if MayCome(s.agents, p, i, q, j, c) && MayCome(s.agents, q, j, p, i, d) {
      BothCome(cfg, s, p, i, q, j, c, d);
    }
  }
}

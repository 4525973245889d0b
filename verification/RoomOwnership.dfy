/** The life of a connection's channel in the group room. */
module RoomOwnership {
  import opened Common
  import opened Room
  import opened RoomDelivery

  /** In the map at some time, and still running. */
  predicate Registered(a: Agent) {
    Listed(a.pc)
  }

  /** Every entry of the map belongs to a running handler of that user, and a running registered
      handler owns its user's entry exactly when its channel is open. */
  lemma EntriesAreOwned(cfg: Config, es: seq<Event>, s: State)
    requires Reaches(cfg, START, es, s)
    ensures forall u :: u in s.conns ==>
              s.conns[u] < |s.agents| && s.agents[s.conns[u]].user == u && Registered(s.agents[s.conns[u]])
    ensures forall c :: 0 <= c < |s.agents| && Registered(s.agents[c]) ==>
              (s.agents[c].open <==> s.agents[c].user in s.conns && s.conns[s.agents[c].user] == c)
  {
    ReachableInv(cfg, es, s);
    hide Reaches, PairOk;
    forall u | u in s.conns
      ensures s.conns[u] < |s.agents| && s.agents[s.conns[u]].user == u && Registered(s.agents[s.conns[u]])
    {
      assert AgentOk(s.agents[s.conns[u]], s.conns[u], |s.agents|);
    }
  }

  /** The frames a connection was given by an agent are a contiguous piece of that agent's
      broadcasts, in order, beginning with the first one after the registration; while the
      connection is open the piece reaches to the last broadcast, save one still under way. */
  lemma FramesAreASlice(cfg: Config, es: seq<Event>, s: State, c: nat, p: nat)
    requires Reaches(cfg, START, es, s) && c < |s.agents| && p < |s.agents|
    ensures var a, b := s.agents[c], s.agents[p];
            Upto(a, p) <= |b.sent|
            && From(a.enqueued, p) == b.sent[Before(a, p)..Upto(a, p)]
            && (a.open ==> Upto(a, p) == |b.sent| - if Lags(b, c) then 1 else 0)
            && a.enqueued == a.popped + a.queue
  {
    ReachableInv(cfg, es, s);
    hide Reaches, From;
    assert PairOk(s.agents[c], c, s.agents[p], p) && AgentOk(s.agents[c], c, |s.agents|);
  }

  // ---------------------------------------------------------------------------
  // A closed channel

  ghost predicate ClosedOff(a: Agent) {
    !a.open && !a.pc.Fresh?
  }

  ghost predicate StaysClosed(a: Agent, b: Agent) {
    ClosedOff(b) && b.enqueued == a.enqueued
  }

  lemma SendSparesClosed(s: State, p: nat, c: nat, d: nat)
    requires Inv(s) && p < |s.agents| && s.agents[p].pc.Sending? && c in s.agents[p].pc.todo
    requires d < |s.agents| && ClosedOff(s.agents[d]) && s.agents[p].sent != []
    ensures StaysClosed(s.agents[d], Deliver(s, p, c).agents[d])
  {
    hide PairOk, Deliver;
    assert Lags(s.agents[p], c);
    DeliverDelivers(s, p, c);
  }

  lemma RegisterSparesClosed(s: State, p: nat, d: nat)
    requires p < |s.agents| && s.agents[p].pc.Fresh? && d < |s.agents| && ClosedOff(s.agents[d])
    ensures |RegisterAgent(s, p).agents| == |s.agents|
    ensures StaysClosed(s.agents[d], RegisterAgent(s, p).agents[d])
  {
    hide Close, SentCounts;
    ClosePart(s.conns, s.agents, s.agents[p].user, d);
  }

  lemma UnregisterSparesClosed(cfg: Config, s: State, p: nat, d: nat)
    requires Enabled(cfg, s, Unregister(p)) && d < |s.agents| && ClosedOff(s.agents[d])
    ensures StaysClosed(s.agents[d], Step(cfg, s, Unregister(p)).agents[d])
  {
    hide Close, NoReaders;
    ClosePart(s.conns, s.agents, s.agents[p].user, d);
    ClosePart(s.conns, s.agents, s.agents[p].user, p);
  }

  lemma MoveSparesClosed(s: State, p: nat, t: State, d: nat)
    requires Moved(s, p, t) && d < |s.agents| && ClosedOff(s.agents[d])
    requires t.agents[p].pc.Fresh? ==> s.agents[p].pc.Fresh?
    ensures StaysClosed(s.agents[d], t.agents[d])
  {
    hide AgentOk, Lags;
  }

  lemma NeverFreshAgain(cfg: Config, s: State, e: Event)
    requires Enabled(cfg, s, e) && MovesOne(e)
    ensures e.p < |Step(cfg, s, e).agents| && (Step(cfg, s, e).agents[e.p].pc.Fresh? ==> s.agents[e.p].pc.Fresh?)
  {
    hide ReadNewest, Trim;
  }

  lemma MovedLength(s: State, p: nat, t: State)
    requires Moved(s, p, t)
    ensures |t.agents| == |s.agents| && p < |t.agents|
  {}

  lemma DeliverLength(s: State, p: nat, c: nat)
    requires p < |s.agents| && s.agents[p].pc.Sending? && s.agents[p].sent != []
    ensures |Deliver(s, p, c).agents| == |s.agents|
  {}

  lemma ClosedStaysClosed(cfg: Config, s: State, e: Event, d: nat)
    requires Inv(s) && Enabled(cfg, s, e) && d < |s.agents| && ClosedOff(s.agents[d])
    ensures d < |Step(cfg, s, e).agents| && StaysClosed(s.agents[d], Step(cfg, s, e).agents[d])
  {
    hide Inv, RegisterAgent, Deliver, Store, Close, NoReaders, ReadNewest, Trim, Moved, NextBody;
    if MovesOne(e) {
      AgentOkHere(s, e.p);
      MoveIsSame(cfg, s, e);
      NeverFreshAgain(cfg, s, e);
      MovedLength(s, e.p, Step(cfg, s, e));
      MoveSparesClosed(s, e.p, Step(cfg, s, e), d);
    } else {
      match e
      case Register(p) => RegisterSparesClosed(s, p, d);
      case Send(p, c) =>
        if s.agents[p].sent != [] {
          SendSparesClosed(s, p, c, d);
          DeliverLength(s, p, c);
        }
      case Unregister(p) =>
        UnregisterSparesClosed(cfg, s, p, d);
        ClosePart(s.conns, s.agents, s.agents[p].user, d);
      case _ =>
    }
  }

  lemma {:induction false} RunSparesClosed(cfg: Config, before: State, es: seq<Event>, after: State, d: nat)
    requires Inv(before) && Reaches(cfg, before, es, after) && d < |before.agents| && ClosedOff(before.agents[d])
    ensures d < |after.agents| && StaysClosed(before.agents[d], after.agents[d])
    decreases |es|
  {
    hide Inv, Step, Enabled, ClosedOff;
    if es != [] {
      ClosedStaysClosed(cfg, before, es[0], d);
      StepKeepsInv(cfg, before, es[0]);
      RunSparesClosed(cfg, Step(cfg, before, es[0]), es[1..], after, d);
    }
  }

  /** Once a handler's channel is closed nothing reaches it any more, and it never opens again,
      whatever run follows. */
  lemma ClosedIsFinal(cfg: Config, es: seq<Event>, s: State, fs: seq<Event>, t: State, d: nat)
    requires Reaches(cfg, START, es, s) && Reaches(cfg, s, fs, t)
    requires d < |s.agents| && !s.agents[d].open && !s.agents[d].pc.Fresh?
    ensures d < |t.agents| && !t.agents[d].open && !t.agents[d].pc.Fresh?
            && t.agents[d].enqueued == s.agents[d].enqueued
  {
    hide Reaches, Inv;
    ReachableInv(cfg, es, s);
    RunSparesClosed(cfg, s, fs, t, d);
  }

  function Pops(p: nat, n: nat): seq<Event> {
    if n == 0 then [Pop(p, true)] else [Pop(p, true)] + Pops(p, n - 1)
  }

  /** The handler after its channel has run dry: it has left its loop. */
  function RunDry(s: State, p: nat): State
    requires p < |s.agents|
  {
    var a := s.agents[p];
    s.(agents := s.agents[p := a.(queue := [], popped := a.popped + a.queue, pc := Exiting)])
  }

  lemma PopOnce(cfg: Config, s: State, p: nat)
    requires p < |s.agents| && s.agents[p].pc == Idle && !s.agents[p].open
    ensures Enabled(cfg, s, Pop(p, true))
    ensures var a, t := s.agents[p], Step(cfg, s, Pop(p, true));
            if a.queue == [] then t == RunDry(s, p)
            else |t.agents| == |s.agents| && t.agents[p].pc == Idle && !t.agents[p].open
                 && t.agents[p].queue == a.queue[1..] && RunDry(t, p) == RunDry(s, p)
  {
    var a := s.agents[p];
    if a.queue == [] {
      assert a.popped + a.queue == a.popped;
    } else {
      assert a.popped + a.queue == (a.popped + [a.queue[0]]) + a.queue[1..];
    }
  }

  /** A closed channel yields exactly what is left in it, in order, and then ends the handler. */
  lemma {:induction false} ClosedChannelDrains(cfg: Config, s: State, p: nat)
    requires p < |s.agents| && s.agents[p].pc == Idle && !s.agents[p].open
    ensures Reaches(cfg, s, Pops(p, |s.agents[p].queue|), RunDry(s, p))
    decreases |s.agents[p].queue|
  {
    hide RunDry, Step, Enabled;
    var es := Pops(p, |s.agents[p].queue|);
    PopOnce(cfg, s, p);
    var t := Step(cfg, s, Pop(p, true));
    if s.agents[p].queue == [] {
      assert es[1..] == [];
    } else {
      ClosedChannelDrains(cfg, t, p);
      assert es[1..] == Pops(p, |s.agents[p].queue| - 1);
    }
  }

  // ---------------------------------------------------------------------------
  // Reconnecting

  lemma LeavingCloses(cfg: Config, s: State, p: nat, c: nat)
    requires ConnsOk(s.conns, s.agents) && Enabled(cfg, s, Unregister(p)) && c < |s.agents| && c != p
    ensures |Step(cfg, s, Unregister(p)).agents| == |s.agents|
    ensures s.agents[c].open && !Step(cfg, s, Unregister(p)).agents[c].open
       <==> s.agents[p].user in s.conns && s.conns[s.agents[p].user] == c
  {
    hide NoReaders, Close;
    var user := s.agents[p].user;
    ClosePart(s.conns, s.agents, user, c);
    ClosedNow(s, user);
  }

  lemma LeavingKeepsLength(cfg: Config, s: State, p: nat)
    requires Enabled(cfg, s, Unregister(p))
    ensures |Step(cfg, s, Unregister(p)).agents| == |s.agents|
  {
    hide NoReaders;
  }

  /** A handler that leaves closes the channel of another one of the same user exactly when it
      had been replaced and its user has an entry: the newest connection need not survive. */
  lemma LeavingMayCloseTheNewest(cfg: Config, es: seq<Event>, s: State, p: nat)
    requires Reaches(cfg, START, es, s) && Enabled(cfg, s, Unregister(p))
    ensures |Step(cfg, s, Unregister(p)).agents| == |s.agents|
    ensures (exists c ::
               0 <= c < |s.agents| && c != p && s.agents[c].open && !Step(cfg, s, Unregister(p)).agents[c].open)
       <==> !s.agents[p].open && s.agents[p].user in s.conns
  {
    ReachableInv(cfg, es, s);
    hide Reaches, AgentsOk, TodoOk, FifoOk, Step, Close;
    LeavingKeepsLength(cfg, s, p);
    forall c | 0 <= c < |s.agents| && c != p
      ensures s.agents[c].open && !Step(cfg, s, Unregister(p)).agents[c].open
         <==> s.agents[p].user in s.conns && s.conns[s.agents[p].user] == c
    {
      LeavingCloses(cfg, s, p, c);
    }
    if !s.agents[p].open && s.agents[p].user in s.conns {
      var c := s.conns[s.agents[p].user];
      assert c != p && s.agents[c].open && !Step(cfg, s, Unregister(p)).agents[c].open;
    }
  }
}

/** Who receives what in the group room: ownership of the senders in the connection map, and the
    order in which frames reach a connection. */
module RoomDelivery {
  import opened Common
  import opened Room

  // ---------------------------------------------------------------------------
  // Agents and the connection map

  /** Registered, and not yet taken out of the map by itself. */
  predicate Listed(pc: Pc) {
    pc.Registered? || pc.Idle? || pc.Filed? || pc.Trimmed? || pc.Exiting? || (pc.Sending? && pc.back)
  }

  ghost predicate AgentOk(a: Agent, p: nat, n: nat) {
    (a.open ==> Listed(a.pc))
    && (a.pc.Fresh? ==> a.enqueued == [])
    && (a.pc.Sending? ==> a.sent != [])
    && a.enqueued == a.popped + a.queue
    && |a.since| <= n
    && (forall i :: 0 <= i < |a.sent| ==> a.sent[i].from == p)
    && (forall i :: 0 <= i < |a.enqueued| ==> a.enqueued[i].from < n)
  }

  ghost predicate AgentsOk(agents: seq<Agent>) {
    forall p :: 0 <= p < |agents| ==> AgentOk(agents[p], p, |agents|)
  }

  /** Every entry of the map belongs to a running handler of that user whose channel is open, and
      every open channel has its entry. */
  ghost predicate ConnsOk(conns: map<string, nat>, agents: seq<Agent>) {
    (forall u :: u in conns ==> conns[u] < |agents| && agents[conns[u]].user == u && agents[conns[u]].open)
    && (forall c :: 0 <= c < |agents| && agents[c].open ==> agents[c].user in conns && conns[agents[c].user] == c)
  }

  /** Agent `p` is in the middle of a broadcast that has yet to reach `c`. */
  predicate Lags(p: Agent, c: nat) {
    p.pc.Sending? && c in p.pc.todo
  }

  /** A broadcast under way only has open channels still to serve. */
  ghost predicate TodoOk(agents: seq<Agent>) {
    forall p: nat, c: nat {:trigger Lags(agents[p], c)} :: p < |agents| && Lags(agents[p], c) ==>
      c < |agents| && agents[c].open
  }

  // ---------------------------------------------------------------------------
  // Order of delivery

  /** The frames of `q` that agent `p` broadcast, in order. */
  function From(q: seq<Frame>, p: nat): seq<Frame> {
    if q == [] then []
    else
      var before := From(q[..|q| - 1], p);
      if q[|q| - 1].from == p then before + [q[|q| - 1]] else before
  }

  /** How many broadcasts of `p` had begun when `c` registered. */
  function Before(c: Agent, p: nat): nat {
    if p < |c.since| then c.since[p] else 0
  }

  function Upto(c: Agent, p: nat): nat {
    Before(c, p) + |From(c.enqueued, p)|
  }

  /** What `c` was given by `p` is a contiguous slice of `p`'s broadcasts that begins where `c`
      registered and, while `c` is open, reaches to the last one begun, save one under way. */
  ghost predicate PairOk(a: Agent, c: nat, b: Agent, p: nat) {
    Upto(a, p) <= |b.sent|
    && From(a.enqueued, p) == b.sent[Before(a, p)..Upto(a, p)]
    && (a.open ==> Upto(a, p) == |b.sent| - if Lags(b, c) then 1 else 0)
  }

  ghost predicate FifoOk(agents: seq<Agent>) {
    forall c, p :: 0 <= c < |agents| && 0 <= p < |agents| ==> PairOk(agents[c], c, agents[p], p)
  }

  ghost predicate Inv(s: State) {
    AgentsOk(s.agents) && ConnsOk(s.conns, s.agents) && TodoOk(s.agents) && FifoOk(s.agents)
  }

  // ---------------------------------------------------------------------------
  // Steps that send nothing

  /** The agent's part in deliveries is unchanged. */
  ghost predicate SamePart(a: Agent, b: Agent) {
    b.user == a.user && b.enqueued == a.enqueued && b.since == a.since && b.sent == a.sent && b.open == a.open
    && forall c: nat :: Lags(b, c) <==> Lags(a, c)
  }

  ghost predicate SameParts(before: seq<Agent>, after: seq<Agent>) {
    |before| == |after| && forall p :: 0 <= p < |before| ==> SamePart(before[p], after[p])
  }

  lemma SamePartsKeepFifo(before: seq<Agent>, after: seq<Agent>)
    requires FifoOk(before) && SameParts(before, after)
    ensures FifoOk(after)
  {
    forall c, p | 0 <= c < |after| && 0 <= p < |after|
      ensures PairOk(after[c], c, after[p], p)
    {
      assert PairOk(before[c], c, before[p], p) && SamePart(before[c], after[c]) && SamePart(before[p], after[p]);
    }
  }

  lemma SamePartsKeep(conns: map<string, nat>, before: seq<Agent>, after: seq<Agent>)
    requires ConnsOk(conns, before) && TodoOk(before) && FifoOk(before) && SameParts(before, after)
    ensures ConnsOk(conns, after) && TodoOk(after) && FifoOk(after)
  {
    hide Lags, PairOk;
    SamePartsKeepFifo(before, after);
    forall p: nat, c: nat | p < |after| && Lags(after[p], c)
      ensures c < |after| && after[c].open
    {
      assert SamePart(before[p], after[p]) && Lags(before[p], c);
      assert SamePart(before[c], after[c]);
    }
  }

  lemma {:induction false} FromAbsent(q: seq<Frame>, p: nat)
    requires forall i :: 0 <= i < |q| ==> q[i].from != p
    ensures From(q, p) == []
  {
    if q != [] {
      FromAbsent(q[..|q| - 1], p);
    }
  }

  lemma AppendAgents(agents: seq<Agent>, a: Agent)
    requires AgentsOk(agents) && a.enqueued == a.popped == a.queue == [] && a.since == [] && a.sent == []
    requires !a.open && !a.pc.Sending?
    ensures AgentsOk(agents + [a])
  {
    var after := agents + [a];
    forall p | 0 <= p < |after|
      ensures AgentOk(after[p], p, |after|)
    {
      assert p < |agents| ==> after[p] == agents[p] && AgentOk(agents[p], p, |agents|);
    }
  }

  lemma AppendConns(conns: map<string, nat>, agents: seq<Agent>, a: Agent)
    requires ConnsOk(conns, agents) && !a.open
    ensures ConnsOk(conns, agents + [a])
  {}

  lemma NotSendingNoLag(a: Agent, c: nat)
    requires !a.pc.Sending?
    ensures !Lags(a, c)
  {}

  lemma AppendTodo(agents: seq<Agent>, a: Agent)
    requires TodoOk(agents) && !a.pc.Sending?
    ensures TodoOk(agents + [a])
  {
    var after := agents + [a];
    forall p: nat, c: nat {:trigger Lags(after[p], c)} | p < |after| && Lags(after[p], c)
      ensures c < |after| && after[c].open
    {
      NotSendingNoLag(a, c);
      assert after[p] == agents[p] && Lags(agents[p], c);
    }
  }

  lemma AppendPair(agents: seq<Agent>, a: Agent, c: nat, p: nat)
    requires AgentsOk(agents) && FifoOk(agents) && c <= |agents| && p <= |agents|
    requires a.enqueued == [] && a.since == [] && a.sent == [] && !a.open && !a.pc.Sending?
    ensures PairOk((agents + [a])[c], c, (agents + [a])[p], p)
  {
    if c < |agents| && p == |agents| {
      assert AgentOk(agents[c], c, |agents|);
      FromAbsent(agents[c].enqueued, p);
    } else if c < |agents| {
      assert PairOk(agents[c], c, agents[p], p);
    }
  }

  lemma AppendFifo(agents: seq<Agent>, a: Agent)
    requires AgentsOk(agents) && FifoOk(agents)
    requires a.enqueued == [] && a.since == [] && a.sent == [] && !a.open && !a.pc.Sending?
    ensures FifoOk(agents + [a])
  {
    hide PairOk, AgentOk;
    forall c, p | 0 <= c < |agents + [a]| && 0 <= p < |agents + [a]|
      ensures PairOk((agents + [a])[c], c, (agents + [a])[p], p)
    {
      AppendPair(agents, a, c, p);
    }
  }

  lemma AppendKeepsInv(s: State, a: Agent)
    requires Inv(s) && a.enqueued == a.popped == a.queue == [] && a.since == [] && a.sent == [] && !a.open
    requires !a.pc.Sending?
    ensures Inv(s.(agents := s.agents + [a]))
  {
    AppendFifo(s.agents, a);
    hide PairOk, Lags, FifoOk, AgentOk;
    AppendAgents(s.agents, a);
    AppendConns(s.conns, s.agents, a);
    AppendTodo(s.agents, a);
  }

  // ---------------------------------------------------------------------------
  // The four steps that deliver, register or close

  lemma ClosePart(conns: map<string, nat>, agents: seq<Agent>, user: string, c: nat)
    requires c < |agents|
    ensures |Close(conns, agents, user)| == |agents|
    ensures var a, b := agents[c], Close(conns, agents, user)[c];
            b == a.(open := b.open) && (b.open ==> a.open) && (!b.open && a.open ==> user in conns && conns[user] == c)
  {}

  lemma CloseFifo(agents: seq<Agent>, after: seq<Agent>)
    requires FifoOk(agents) && |after| == |agents|
    requires forall c :: 0 <= c < |agents| ==>
               after[c] == agents[c].(open := after[c].open) && (after[c].open ==> agents[c].open)
    ensures FifoOk(after)
  {
    forall c, p | 0 <= c < |after| && 0 <= p < |after|
      ensures PairOk(after[c], c, after[p], p)
    {
      assert PairOk(agents[c], c, agents[p], p);
      assert Lags(after[p], c) == Lags(agents[p], c);
    }
  }

  lemma ClosedNow(s: State, user: string)
    requires ConnsOk(s.conns, s.agents)
    ensures user in s.conns ==> !Close(s.conns, s.agents, user)[s.conns[user]].open
    ensures forall c :: 0 <= c < |s.agents| && Close(s.conns, s.agents, user)[c].open ==> s.agents[c].user != user
  {}

  lemma ClosePartLength(conns: map<string, nat>, agents: seq<Agent>, user: string)
    ensures |Close(conns, agents, user)| == |agents|
  {}

  lemma NoReadersNoTodo(agents: seq<Agent>, after: seq<Agent>)
    requires NoReaders(agents) && |after| == |agents| && forall p :: 0 <= p < |agents| ==> after[p].pc == agents[p].pc
    ensures TodoOk(after) && NoReaders(after)
  {}

  /** Closing the channel under `user` and taking the entry away. */
  lemma UnlistKeepsInv(s: State, user: string)
    requires Inv(s) && NoReaders(s.agents)
    ensures Inv(s.(conns := s.conns - {user}, agents := Close(s.conns, s.agents, user)))
    ensures forall c :: 0 <= c < |s.agents| && Close(s.conns, s.agents, user)[c].open ==> s.agents[c].user != user
  {
    hide PairOk, FifoOk, Close;
    var after := Close(s.conns, s.agents, user);
    ClosedNow(s, user);
    forall c | 0 <= c < |s.agents|
      ensures |after| == |s.agents| && after[c] == s.agents[c].(open := after[c].open)
      ensures after[c].open ==> s.agents[c].open
      ensures !after[c].open && s.agents[c].open ==> user in s.conns && s.conns[user] == c
      ensures AgentOk(after[c], c, |after|)
    {
      ClosePart(s.conns, s.agents, user, c);
      assert AgentOk(s.agents[c], c, |s.agents|);
    }
    ClosePartLength(s.conns, s.agents, user);
    CloseFifo(s.agents, after);
    NoReadersNoTodo(s.agents, after);
  }

  lemma SentCountsLength(agents: seq<Agent>)
    ensures |SentCounts(agents)| == |agents|
  {}

  lemma EnterFifo(agents: seq<Agent>, p: nat, b: Agent)
    requires FifoOk(agents) && AgentsOk(agents) && NoReaders(agents) && p < |agents| && agents[p].pc.Fresh?
    requires b == agents[p].(pc := Registered, open := true, since := SentCounts(agents))
    ensures FifoOk(agents[p := b])
  {
    var after := agents[p := b];
    assert AgentOk(agents[p], p, |agents|);
    forall c, q | 0 <= c < |after| && 0 <= q < |after|
      ensures PairOk(after[c], c, after[q], q)
    {
      assert PairOk(agents[c], c, agents[q], q);
      assert !Lags(after[q], c) && !Lags(agents[q], c) && after[q].sent == agents[q].sent;
    }
  }

  lemma EnterKeepsInv(s: State, p: nat, b: Agent)
    requires Inv(s) && NoReaders(s.agents) && p < |s.agents| && s.agents[p].pc.Fresh? && s.agents[p].user !in s.conns
    requires b == s.agents[p].(pc := Registered, open := true, since := SentCounts(s.agents))
    ensures Inv(s.(conns := s.conns[b.user := p], agents := s.agents[p := b]))
  {
    hide PairOk, FifoOk, SentCounts;
    var after := s.agents[p := b];
    EnterFifo(s.agents, p, b);
    SentCountsLength(s.agents);
    forall c | 0 <= c < |after|
      ensures AgentOk(after[c], c, |after|)
    {
      assert AgentOk(s.agents[c], c, |s.agents|);
    }
    assert forall c: nat :: c < |after| ==> !after[c].pc.Sending?;
  }

  lemma FreshIsUntouched(s: State, p: nat)
    requires Inv(s) && NoReaders(s.agents) && p < |s.agents| && s.agents[p].pc.Fresh?
    ensures var after := Close(s.conns, s.agents, s.agents[p].user);
            |after| == |s.agents| && after[p] == s.agents[p] && SentCounts(after) == SentCounts(s.agents)
                && NoReaders(after)
  {
    hide PairOk;
    assert AgentOk(s.agents[p], p, |s.agents|);
  }

  lemma RegisterKeepsInv(cfg: Config, s: State, p: nat)
    requires Inv(s) && Enabled(cfg, s, Register(p))
    ensures Inv(Step(cfg, s, Register(p)))
  {
    hide Inv, Close, SentCounts;
    var a := s.agents[p];
    var u := s.(conns := s.conns - {a.user}, agents := Close(s.conns, s.agents, a.user));
    UnlistKeepsInv(s, a.user);
    FreshIsUntouched(s, p);
    EnterKeepsInv(u, p, a.(pc := Registered, open := true, since := SentCounts(s.agents)));
    assert u.conns[a.user := p] == s.conns[a.user := p];
  }

  lemma LockTodo(s: State, p: nat, b: Agent)
    requires TodoOk(s.agents) && ConnsOk(s.conns, s.agents) && p < |s.agents|
    requires b.pc.Sending? && b.pc.todo == s.conns.Values && b.open == s.agents[p].open
    ensures TodoOk(s.agents[p := b])
  {
    var after := s.agents[p := b];
    forall q: nat, c: nat | q < |after| && Lags(after[q], c)
      ensures c < |after| && after[c].open
    {
      if q == p {
        var u :| u in s.conns && s.conns[u] == c;
      } else {
        assert Lags(s.agents[q], c);
      }
    }
  }

  lemma LockAgents(agents: seq<Agent>, p: nat, b: Agent)
    requires AgentsOk(agents) && p < |agents| && ReadyToSend(agents[p].pc)
    requires b.pc.Sending? && (b.pc.back <==> agents[p].pc.Trimmed?) && |b.sent| == |agents[p].sent| + 1
    requires b.sent[..|agents[p].sent|] == agents[p].sent && b.sent[|agents[p].sent|].from == p
    requires b == agents[p].(pc := b.pc, sent := b.sent)
    ensures AgentsOk(agents[p := b])
  {
    var after := agents[p := b];
    forall q | 0 <= q < |after|
      ensures AgentOk(after[q], q, |after|)
    {
      assert AgentOk(agents[q], q, |agents|);
      if q == p {
        forall i | 0 <= i < |b.sent|
          ensures b.sent[i].from == p
        {
          assert i < |agents[p].sent| ==> b.sent[i] == b.sent[..|agents[p].sent|][i];
        }
      }
    }
  }

  lemma LockConns(conns: map<string, nat>, agents: seq<Agent>, p: nat, b: Agent)
    requires ConnsOk(conns, agents) && p < |agents| && b.user == agents[p].user && b.open == agents[p].open
    ensures ConnsOk(conns, agents[p := b])
  {}

  lemma OpenIsListed(s: State, c: nat)
    requires ConnsOk(s.conns, s.agents) && c < |s.agents|
    ensures s.agents[c].open ==> c in s.conns.Values
  {
    if s.agents[c].open {
      assert s.conns[s.agents[c].user] == c;
    }
  }

  lemma LockPair(a: Agent, c: nat, b: Agent, p: nat, b': Agent)
    requires PairOk(a, c, b, p) && !b.pc.Sending? && b'.pc.Sending? && (a.open ==> c in b'.pc.todo)
    requires |b'.sent| == |b.sent| + 1 && b'.sent[..|b.sent|] == b.sent
    ensures PairOk(a, c, b', p)
  {
    hide From;
    var lo, hi := Before(a, p), Upto(a, p);
    PieceOfPrefix(b.sent, b'.sent, lo, hi);
  }

  lemma Bystander(a: Agent, d: nat, a': Agent, b: Agent, q: nat, b': Agent)
    requires PairOk(a, d, b, q)
    requires a'.since == a.since && a'.enqueued == a.enqueued && a'.open == a.open
    requires b'.sent == b.sent && (Lags(b', d) <==> Lags(b, d))
    ensures PairOk(a', d, b', q)
  {
    hide From;
  }

  lemma LockFifo(s: State, p: nat, b: Agent)
    requires FifoOk(s.agents) && ConnsOk(s.conns, s.agents) && p < |s.agents| && !s.agents[p].pc.Sending?
    requires b.pc.Sending? && b.pc.todo == s.conns.Values && |b.sent| == |s.agents[p].sent| + 1
    requires b.sent[..|s.agents[p].sent|] == s.agents[p].sent
    requires b == s.agents[p].(pc := b.pc, sent := b.sent)
    ensures FifoOk(s.agents[p := b])
  {
    hide PairOk, ConnsOk;
    var after := s.agents[p := b];
    forall c, q | 0 <= c < |after| && 0 <= q < |after|
      ensures PairOk(after[c], c, after[q], q)
    {
      assert PairOk(s.agents[c], c, s.agents[q], q);
      Bystander(s.agents[c], c, after[c], s.agents[q], q, s.agents[q]);
      if q == p {
        OpenIsListed(s, c);
        LockPair(after[c], c, s.agents[p], p, b);
      }
    }
  }

  lemma LockKeepsInv(cfg: Config, s: State, p: nat)
    requires Inv(s) && Enabled(cfg, s, Lock(p))
    ensures Inv(Step(cfg, s, Lock(p)))
  {
    hide AgentsOk, ConnsOk, TodoOk, FifoOk, NextBody;
    var b := s.agents[p].(pc := Sending(s.conns.Values, s.agents[p].pc.Trimmed?),
                          sent := s.agents[p].sent + [Frame(p, NextBody(s.agents[p]))]);
    LockFifo(s, p, b);
    LockTodo(s, p, b);
    LockAgents(s.agents, p, b);
    LockConns(s.conns, s.agents, p, b);
  }

  lemma FromAppend(q: seq<Frame>, f: Frame, p: nat)
    ensures From(q + [f], p) == if f.from == p then From(q, p) + [f] else From(q, p)
  {
    assert (q + [f])[..|q|] == q;
  }

  /** The broadcast of `p` reaches `c`. */
  ghost predicate Delivers(before: seq<Agent>, p: nat, c: nat, after: seq<Agent>) {
    |before| == |after| && p < |before| && c < |before|
    && before[p].pc.Sending? && c in before[p].pc.todo && before[p].sent != []
    && (forall d :: 0 <= d < |before| ==>
          after[d].user == before[d].user && after[d].open == before[d].open && after[d].since == before[d].since
          && after[d].sent == before[d].sent && after[d].popped == before[d].popped)
    && (forall d :: 0 <= d < |before| && d != p ==> after[d].pc == before[d].pc)
    && after[p].pc == Sending(before[p].pc.todo - {c}, before[p].pc.back)
    && (forall d :: 0 <= d < |before| && d != c ==>
          after[d].queue == before[d].queue && after[d].enqueued == before[d].enqueued)
    && var f := before[p].sent[|before[p].sent| - 1];
       after[c].queue == before[c].queue + [f] && after[c].enqueued == before[c].enqueued + [f]
  }

  lemma DeliverDelivers(s: State, p: nat, c: nat)
    requires p < |s.agents| && c < |s.agents| && s.agents[p].sent != []
    requires s.agents[p].pc.Sending? && c in s.agents[p].pc.todo
    ensures Delivers(s.agents, p, c, Deliver(s, p, c).agents) && Deliver(s, p, c).conns == s.conns
  {}

  lemma ReceiverAndSender(a: Agent, c: nat, a': Agent, b: Agent, p: nat, b': Agent)
    requires PairOk(a, c, b, p) && a.open && b.sent != [] && b.sent[|b.sent| - 1].from == p && Lags(b, c)
    requires a'.since == a.since && a'.enqueued == a.enqueued + [b.sent[|b.sent| - 1]]
    requires b'.sent == b.sent && !Lags(b', c)
    ensures PairOk(a', c, b', p)
  {
    hide From;
    FromAppend(a.enqueued, b.sent[|b.sent| - 1], p);
    var lo, hi := Before(a, p), Upto(a, p);
    assert b.sent[lo..hi + 1] == b.sent[lo..hi] + [b.sent[|b.sent| - 1]];
  }

  lemma ReceiverAndOther(a: Agent, c: nat, a': Agent, b: Agent, q: nat, b': Agent, f: Frame)
    requires PairOk(a, c, b, q) && f.from != q
    requires a'.since == a.since && a'.enqueued == a.enqueued + [f] && a'.open == a.open
    requires b'.sent == b.sent && (Lags(b', c) <==> Lags(b, c))
    ensures PairOk(a', c, b', q)
  {
    hide From;
    FromAppend(a.enqueued, f, q);
  }

  lemma SendPair(before: seq<Agent>, p: nat, c: nat, after: seq<Agent>, d: nat, q: nat)
    requires Delivers(before, p, c, after) && AgentsOk(before) && d < |before| && q < |before|
    requires PairOk(before[d], d, before[q], q) && before[c].open
    ensures PairOk(after[d], d, after[q], q)
  {
    hide From, PairOk;
    assert AgentOk(before[p], p, |before|);
    if d == c {
      if q == p {
        ReceiverAndSender(before[c], c, after[c], before[p], p, after[p]);
      } else {
        ReceiverAndOther(before[c], c, after[c], before[q], q, after[q], before[p].sent[|before[p].sent| - 1]);
      }
    } else {
      Bystander(before[d], d, after[d], before[q], q, after[q]);
    }
  }

  lemma SendKeepsFifo(before: seq<Agent>, p: nat, c: nat, after: seq<Agent>)
    requires Delivers(before, p, c, after) && AgentsOk(before) && FifoOk(before) && before[c].open
    ensures FifoOk(after)
  {
    hide PairOk, AgentsOk;
    forall d, q | 0 <= d < |after| && 0 <= q < |after|
      ensures PairOk(after[d], d, after[q], q)
    {
      SendPair(before, p, c, after, d, q);
    }
  }

  lemma SendKeepsAgents(before: seq<Agent>, p: nat, c: nat, after: seq<Agent>)
    requires Delivers(before, p, c, after) && AgentsOk(before) && before[c].open
    ensures AgentsOk(after)
  {
    assert AgentOk(before[p], p, |before|) && AgentOk(before[c], c, |before|);
    forall d | 0 <= d < |after|
      ensures AgentOk(after[d], d, |after|)
    {
      assert AgentOk(before[d], d, |before|);
    }
  }

  lemma SendKeepsTodo(before: seq<Agent>, p: nat, c: nat, after: seq<Agent>)
    requires Delivers(before, p, c, after) && TodoOk(before)
    ensures TodoOk(after)
  {
    forall q: nat, d: nat {:trigger Lags(after[q], d)} | q < |after| && Lags(after[q], d)
      ensures d < |after| && after[d].open
    {
      assert Lags(before[q], d);
    }
  }

  lemma SendKeepsInv(cfg: Config, s: State, p: nat, c: nat)
    requires Inv(s) && Enabled(cfg, s, Send(p, c))
    ensures Inv(Step(cfg, s, Send(p, c)))
  {
    hide PairOk, FifoOk, Deliver;
    assert AgentOk(s.agents[p], p, |s.agents|);
    assert Lags(s.agents[p], c);
    DeliverDelivers(s, p, c);
    var after := Deliver(s, p, c).agents;
    SendKeepsFifo(s.agents, p, c, after);
    SendKeepsAgents(s.agents, p, c, after);
    SendKeepsTodo(s.agents, p, c, after);
  }

  // ---------------------------------------------------------------------------
  // All steps

  lemma SameSelf(agents: seq<Agent>)
    ensures forall p :: 0 <= p < |agents| ==> SamePart(agents[p], agents[p])
  {}

  lemma ReplaceKeepsInv(s: State, p: nat, b: Agent)
    requires Inv(s) && p < |s.agents| && SamePart(s.agents[p], b) && AgentOk(b, p, |s.agents|)
    ensures Inv(s.(agents := s.agents[p := b]))
  {
    hide PairOk, FifoOk, AgentOk, Lags;
    SameSelf(s.agents);
    SamePartsKeep(s.conns, s.agents, s.agents[p := b]);
  }

  lemma AgentOkHere(s: State, p: nat)
    requires Inv(s) && p < |s.agents|
    ensures AgentOk(s.agents[p], p, |s.agents|)
  {}

  lemma UnregisterKeepsInv(cfg: Config, s: State, p: nat)
    requires Inv(s) && Enabled(cfg, s, Unregister(p))
    ensures Inv(Step(cfg, s, Unregister(p)))
  {
    hide Inv, Close;
    var user := s.agents[p].user;
    var u := s.(conns := s.conns - {user}, agents := Close(s.conns, s.agents, user));
    UnlistKeepsInv(s, user);
    ClosePart(s.conns, s.agents, user, p);
    AgentOkHere(u, p);
    ReplaceKeepsInv(u, p, u.agents[p].(pc := Unlisted));
  }

  /** The steps that only move one agent on. */
  predicate MovesOne(e: Event) {
    e.JoinCounts? || e.JoinUpserts? || e.LeaveDeletes? || e.GivesUp? || e.ReadHistory? || e.Receive? || e.TrimHistory?
    || e.Unlock? || e.Pop? || e.SocketEnds?
  }

  ghost predicate Moved(s: State, p: nat, t: State) {
    p < |s.agents| && |t.agents| == |s.agents| && t.agents == s.agents[p := t.agents[p]] && t.conns == s.conns
    && SamePart(s.agents[p], t.agents[p]) && AgentOk(t.agents[p], p, |s.agents|)
  }

  lemma ReceiveMoves(cfg: Config, s: State, p: nat, post: Post, stored: bool)
    requires p < |s.agents| && s.agents[p].pc.Idle? && AgentOk(s.agents[p], p, |s.agents|)
    ensures Moved(s, p, Store(cfg, s, p, post, stored))
  {}

  lemma PopMoves(cfg: Config, s: State, p: nat, ok: bool)
    requires Enabled(cfg, s, Pop(p, ok)) && AgentOk(s.agents[p], p, |s.agents|)
    ensures Moved(s, p, Step(cfg, s, Pop(p, ok)))
  {
    var a := s.agents[p];
    if a.queue != [] {
      assert a.popped + a.queue == (a.popped + [a.queue[0]]) + a.queue[1..];
    }
  }

  lemma UnlockMoves(cfg: Config, s: State, p: nat)
    requires Enabled(cfg, s, Unlock(p)) && AgentOk(s.agents[p], p, |s.agents|)
    ensures Moved(s, p, Step(cfg, s, Unlock(p)))
  {}

  /** Statements and exits: the place changes, and what the statement writes. */
  lemma StatementMoves(s: State, p: nat, t: State, b: Agent)
    requires p < |s.agents| && AgentOk(s.agents[p], p, |s.agents|) && !s.agents[p].pc.Sending?
    requires t.agents == s.agents[p := b] && t.conns == s.conns
    requires b == s.agents[p].(pc := b.pc, shown := b.shown, readAt := b.readAt)
    requires !b.pc.Sending? && !b.pc.Fresh? && (Listed(b.pc) || !s.agents[p].open)
    ensures Moved(s, p, t)
  {}

  lemma MoveIsSame(cfg: Config, s: State, e: Event)
    requires Enabled(cfg, s, e) && MovesOne(e) && AgentOk(s.agents[e.p], e.p, |s.agents|)
    ensures Moved(s, e.p, Step(cfg, s, e))
  {
    hide ReadNewest, Trim, Moved, Store;
    if e.Receive? {
      ReceiveMoves(cfg, s, e.p, Post(s.agents[e.p].user, e.data, e.ts), e.stored);
    } else if e.Pop? {
      PopMoves(cfg, s, e.p, e.ok);
    } else if e.Unlock? {
      UnlockMoves(cfg, s, e.p);
    } else {
      StatementMoves(s, e.p, Step(cfg, s, e), Step(cfg, s, e).agents[e.p]);
    }
  }

  lemma InvIsLocal(s: State, t: State)
    requires Inv(s) && t.conns == s.conns && t.agents == s.agents
    ensures Inv(t)
  {}

  lemma MovedKeepsInv(s: State, p: nat, t: State)
    requires Inv(s) && Moved(s, p, t)
    ensures Inv(t)
  {
    hide Inv;
    ReplaceKeepsInv(s, p, t.agents[p]);
    InvIsLocal(s.(agents := t.agents), t);
  }

  lemma StepKeepsInv(cfg: Config, s: State, e: Event)
    requires Inv(s) && Enabled(cfg, s, e)
    ensures Inv(Step(cfg, s, e))
  {
    hide Inv, RegisterAgent, Deliver, Store, Close, NoReaders, ReadNewest, Trim, Moved;
    if MovesOne(e) {
      AgentOkHere(s, e.p);
      MoveIsSame(cfg, s, e);
      MovedKeepsInv(s, e.p, Step(cfg, s, e));
    } else {
      match e
      case Register(p) => RegisterKeepsInv(cfg, s, p);
      case Lock(p) => LockKeepsInv(cfg, s, p);
      case Send(p, c) => SendKeepsInv(cfg, s, p, c);
      case Unregister(p) => UnregisterKeepsInv(cfg, s, p);
      case JoinChecks(user, _) => AppendKeepsInv(s, NewAgent(user, Plain, Checked));
      case LeaveResolves(user, _) => AppendKeepsInv(s, NewAgent(user, Plain, Resolved));
      case Connect(user, _) => AppendKeepsInv(s, NewAgent(user, s.members[user].role, Fresh));
    }
  }

  lemma {:induction false} RunKeepsInv(cfg: Config, before: State, es: seq<Event>, after: State)
    requires Inv(before) && Reaches(cfg, before, es, after)
    ensures Inv(after)
    decreases |es|
  {
    hide Inv, Step, Enabled;
    if es != [] {
      StepKeepsInv(cfg, before, es[0]);
      RunKeepsInv(cfg, Step(cfg, before, es[0]), es[1..], after);
    }
  }

  lemma ReachableInv(cfg: Config, es: seq<Event>, s: State)
    requires Reaches(cfg, START, es, s)
    ensures Inv(s)
  {
    hide Reaches;
    RunKeepsInv(cfg, START, es, s);
  }
}

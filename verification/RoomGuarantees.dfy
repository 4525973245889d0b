/** No message falls between the history a connection is shown and the frames it receives, and
    other guarantees of the group room over whole runs. */
module RoomGuarantees {
  import opened Common
  import opened Room
  import opened RoomHistory
  import opened RoomDelivery

  /** The message an agent has inserted, or tried to, and not yet begun to broadcast. */
  function Unsent(pc: Pc): Option<Post> {
    if pc.Filed? || pc.Trimmed? then Some(pc.post) else None
  }

  /** A logged message is, or is about to be, broadcast by the agent that inserted it. */
  ghost predicate EntryOk(e: Entry, agents: seq<Agent>) {
    e.agent < |agents|
    && var a := agents[e.agent];
       e.post.sender == a.user
       && e.nth <= |a.sent|
       && (e.nth < |a.sent| ==> a.sent[e.nth] == Frame(e.agent, Chat(e.post)))
       && (e.nth == |a.sent| ==> Unsent(a.pc) == Some(e.post))
  }

  ghost predicate LogOk(log: seq<Entry>, agents: seq<Agent>) {
    forall k :: 0 <= k < |log| ==> EntryOk(log[k], agents)
  }

  /** What an agent read is the end of the log of that moment, and every message logged since
      will be broadcast after the agent registered. */
  ghost predicate ReadOk(cfg: Config, log: seq<Entry>, a: Agent) {
    (a.pc.Fresh? ==> a.readAt == None)
    && (a.readAt.Some? ==>
          a.readAt.value <= |log|
          && a.shown == (if cfg.history
                         then Some(Posts(log)[Max(0, a.readAt.value - cfg.limit)..a.readAt.value]) else None)
          && forall k :: a.readAt.value <= k < |log| ==> Before(a, log[k].agent) <= log[k].nth)
  }

  ghost predicate ReadsOk(cfg: Config, log: seq<Entry>, agents: seq<Agent>) {
    forall c :: 0 <= c < |agents| ==> ReadOk(cfg, log, agents[c])
  }

  ghost predicate AllOk(cfg: Config, s: State) {
    RoomDelivery.Inv(s) && HistoryOk(cfg, s) && LogOk(s.log, s.agents) && ReadsOk(cfg, s.log, s.agents)
  }

  // ---------------------------------------------------------------------------
  // Steps that leave all of this alone

  ghost predicate Kept(a: Agent, b: Agent) {
    b.user == a.user && b.since == a.since && b.readAt == a.readAt && b.shown == a.shown && b.sent == a.sent
    && (b.pc.Fresh? ==> a.pc.Fresh?) && Unsent(b.pc) == Unsent(a.pc)
  }

  ghost predicate AllKept(before: seq<Agent>, after: seq<Agent>) {
    |before| <= |after|
    && (forall p :: 0 <= p < |before| ==> Kept(before[p], after[p]))
    && (forall p :: |before| <= p < |after| ==> after[p].readAt == None)
  }

  lemma KeptKeepsOk(cfg: Config, log: seq<Entry>, before: seq<Agent>, after: seq<Agent>)
    requires LogOk(log, before) && ReadsOk(cfg, log, before) && AllKept(before, after)
    ensures LogOk(log, after) && ReadsOk(cfg, log, after)
  {
    forall k | 0 <= k < |log|
      ensures EntryOk(log[k], after)
    {
      assert EntryOk(log[k], before) && Kept(before[log[k].agent], after[log[k].agent]);
    }
    forall c | 0 <= c < |after|
      ensures ReadOk(cfg, log, after[c])
    {
      if c < |before| {
        assert ReadOk(cfg, log, before[c]) && Kept(before[c], after[c]);
      }
    }
  }

  lemma CloseKept(conns: map<string, nat>, agents: seq<Agent>, user: string)
    ensures |Close(conns, agents, user)| == |agents|
    ensures forall p :: 0 <= p < |agents| ==> Kept(agents[p], Close(conns, agents, user)[p])
  {}

  lemma KeptSelf(agents: seq<Agent>)
    ensures forall p :: 0 <= p < |agents| ==> Kept(agents[p], agents[p])
  {}

  lemma OneKept(before: seq<Agent>, agents: seq<Agent>, p: nat, b: Agent)
    requires AllKept(before, agents) && p < |before| && |agents| == |before| && Kept(before[p], b)
    ensures AllKept(before, agents[p := b])
  {
    hide Kept;
  }

  lemma QueueKept(a: Agent, b: Agent, c: Agent)
    requires Kept(a, b) && c == b.(queue := c.queue, enqueued := c.enqueued)
    ensures Kept(a, c)
  {
    hide Unsent;
  }

  lemma SendingKept(a: Agent, pc: Pc)
    requires a.pc.Sending? && pc.Sending?
    ensures Kept(a, a.(pc := pc))
  {}

  lemma DeliverKept(s: State, p: nat, c: nat)
    requires p < |s.agents| && s.agents[p].pc.Sending? && s.agents[p].sent != []
    ensures AllKept(s.agents, Deliver(s, p, c).agents) && Deliver(s, p, c).log == s.log
  {
    hide Kept;
    KeptSelf(s.agents);
    var a := s.agents[p];
    var agents := s.agents[p := a.(pc := Sending(a.pc.todo - {c}, a.pc.back))];
    SendingKept(a, agents[p].pc);
    OneKept(s.agents, s.agents, p, agents[p]);
    if c < |agents| {
      var b := Deliver(s, p, c).agents[c];
      QueueKept(s.agents[c], agents[c], b);
      OneKept(s.agents, agents, c, b);
    }
  }

  lemma KeptTwice(s: State, p: nat)
    requires p < |s.agents| && s.agents[p].pc.Exiting?
    ensures var after := Close(s.conns, s.agents, s.agents[p].user);
            |after| == |s.agents| && Kept(s.agents[p], after[p].(pc := Unlisted))
  {}

  lemma PlaceKept(a: Agent, b: Agent)
    requires b == a.(pc := b.pc, queue := b.queue, popped := b.popped)
    requires (b.pc.Fresh? ==> a.pc.Fresh?) && Unsent(b.pc) == Unsent(a.pc)
    ensures Kept(a, b)
  {
    hide Unsent;
  }

  lemma MoveKept(cfg: Config, s: State, e: Event)
    requires Enabled(cfg, s, e) && !e.ReadHistory? && !e.Receive? && MovesOne(e)
    ensures var t := Step(cfg, s, e);
            |t.agents| == |s.agents| && t.agents == s.agents[e.p := t.agents[e.p]] && t.log == s.log
            && Kept(s.agents[e.p], t.agents[e.p])
  {
    hide Kept, Trim;
    PlaceKept(s.agents[e.p], Step(cfg, s, e).agents[e.p]);
  }

  lemma StepKept(cfg: Config, s: State, e: Event)
    requires Enabled(cfg, s, e) && !e.Register? && !e.ReadHistory? && !e.Receive? && !e.Lock?
    ensures AllKept(s.agents, Step(cfg, s, e).agents) && Step(cfg, s, e).log == s.log
  {
    hide Kept, Deliver, Close, Trim, NoReaders;
    KeptSelf(s.agents);
    if e.Send? && s.agents[e.p].sent != [] {
      DeliverKept(s, e.p, e.c);
    } else if e.Unregister? {
      CloseKept(s.conns, s.agents, s.agents[e.p].user);
      KeptTwice(s, e.p);
    } else if e.JoinChecks? || e.LeaveResolves? || e.Connect? {
    } else if !e.Send? {
      MoveKept(cfg, s, e);
    }
  }

  // ---------------------------------------------------------------------------
  // The steps that matter

  lemma RegisterKeepsOk(cfg: Config, s: State, p: nat)
    requires LogOk(s.log, s.agents) && ReadsOk(cfg, s.log, s.agents) && Enabled(cfg, s, Register(p))
    ensures RegisterAgent(s, p).log == s.log
    ensures LogOk(s.log, RegisterAgent(s, p).agents) && ReadsOk(cfg, s.log, RegisterAgent(s, p).agents)
  {
    hide Close, SentCounts, NoReaders;
    var closed := Close(s.conns, s.agents, s.agents[p].user);
    CloseKept(s.conns, s.agents, s.agents[p].user);
    KeptKeepsOk(cfg, s.log, s.agents, closed);
    var b := s.agents[p].(pc := Registered, open := true, since := SentCounts(s.agents));
    assert ReadOk(cfg, s.log, s.agents[p]);
    forall k | 0 <= k < |s.log|
      ensures EntryOk(s.log[k], closed[p := b])
    {
      assert EntryOk(s.log[k], closed) && EntryOk(s.log[k], s.agents);
    }
  }

  lemma ReadKeepsLog(s: State, p: nat, b: Agent)
    requires LogOk(s.log, s.agents) && p < |s.agents|
    requires b.user == s.agents[p].user && b.sent == s.agents[p].sent && Unsent(b.pc) == Unsent(s.agents[p].pc)
    ensures LogOk(s.log, s.agents[p := b])
  {
    forall k | 0 <= k < |s.log|
      ensures EntryOk(s.log[k], s.agents[p := b])
    {
      assert EntryOk(s.log[k], s.agents);
    }
  }

  lemma ReadShows(cfg: Config, s: State)
    requires HistoryOk(cfg, s)
    ensures ReadNewest(s.rows, cfg.limit) == Posts(s.log)[Max(0, |s.log| - cfg.limit)..|s.log|]
  {
    ReadsEndOfLog(cfg, s);
    hide HistoryOk, ReadNewest;
  }

  lemma ReadKeepsOk(cfg: Config, s: State, p: nat, ok: bool)
    requires HistoryOk(cfg, s) && LogOk(s.log, s.agents) && ReadsOk(cfg, s.log, s.agents)
    requires Enabled(cfg, s, ReadHistory(p, ok))
    ensures var t := Step(cfg, s, ReadHistory(p, ok)); LogOk(t.log, t.agents) && ReadsOk(cfg, t.log, t.agents)
  {
    hide ReadNewest, HistoryOk, LogOk;
    ReadShows(cfg, s);
    var t := Step(cfg, s, ReadHistory(p, ok));
    ReadKeepsLog(s, p, t.agents[p]);
  }

  lemma LockKeepsOk(cfg: Config, s: State, p: nat)
    requires LogOk(s.log, s.agents) && ReadsOk(cfg, s.log, s.agents) && Enabled(cfg, s, Lock(p))
    ensures var t := Step(cfg, s, Lock(p)); LogOk(t.log, t.agents) && ReadsOk(cfg, t.log, t.agents)
  {
    var t := Step(cfg, s, Lock(p));
    forall k | 0 <= k < |t.log|
      ensures EntryOk(t.log[k], t.agents)
    {
      assert EntryOk(s.log[k], s.agents);
    }
    forall c | 0 <= c < |t.agents|
      ensures ReadOk(cfg, t.log, t.agents[c])
    {
      assert ReadOk(cfg, s.log, s.agents[c]);
    }
  }

  lemma StoreKeepsLog(cfg: Config, s: State, p: nat, post: Post, stored: bool)
    requires LogOk(s.log, s.agents) && p < |s.agents| && s.agents[p].pc.Idle? && post.sender == s.agents[p].user
    ensures var t := Store(cfg, s, p, post, stored); LogOk(t.log, t.agents)
  {
    var t := Store(cfg, s, p, post, stored);
    forall k | 0 <= k < |t.log|
      ensures EntryOk(t.log[k], t.agents)
    {
      if k < |s.log| {
        assert EntryOk(s.log[k], s.agents);
      }
    }
  }

  lemma LongerLogKeepsRead(cfg: Config, log: seq<Entry>, a: Agent, e: Entry)
    requires ReadOk(cfg, log, a) && Before(a, e.agent) <= e.nth
    ensures ReadOk(cfg, log + [e], a)
  {
    hide Before;
    if a.readAt.Some? {
      var n := a.readAt.value;
      assert Posts(log + [e])[..|log|] == Posts(log);
      PieceOfPrefix(Posts(log), Posts(log + [e]), Max(0, n - cfg.limit), n);
    }
  }

  lemma LongerLogKeepsReads(cfg: Config, log: seq<Entry>, agents: seq<Agent>, e: Entry)
    requires FifoOk(agents) && ReadsOk(cfg, log, agents) && e.agent < |agents| && e.nth == |agents[e.agent].sent|
    ensures ReadsOk(cfg, log + [e], agents)
  {
    hide From, ReadOk;
    forall c | 0 <= c < |agents|
      ensures ReadOk(cfg, log + [e], agents[c])
    {
      assert PairOk(agents[c], c, agents[e.agent], e.agent);
      LongerLogKeepsRead(cfg, log, agents[c], e);
    }
  }

  lemma FiledKeepsReads(cfg: Config, log: seq<Entry>, agents: seq<Agent>, p: nat, pc: Pc)
    requires ReadsOk(cfg, log, agents) && p < |agents| && !agents[p].pc.Fresh? && !pc.Fresh?
    ensures ReadsOk(cfg, log, agents[p := agents[p].(pc := pc)])
  {
    hide Posts;
    var after := agents[p := agents[p].(pc := pc)];
    forall c | 0 <= c < |after|
      ensures ReadOk(cfg, log, after[c])
    {
      assert ReadOk(cfg, log, agents[c]);
    }
  }

  lemma StoreKeepsReads(cfg: Config, s: State, p: nat, post: Post, stored: bool)
    requires FifoOk(s.agents) && ReadsOk(cfg, s.log, s.agents) && p < |s.agents| && s.agents[p].pc.Idle?
    ensures var t := Store(cfg, s, p, post, stored); ReadsOk(cfg, t.log, t.agents)
  {
    hide FifoOk, ReadsOk, Muted;
    var e := Entry(post, p, |s.agents[p].sent|);
    LongerLogKeepsReads(cfg, s.log, s.agents, e);
    FiledKeepsReads(cfg, s.log, s.agents, p, Filed(post));
    FiledKeepsReads(cfg, s.log + [e], s.agents, p, Filed(post));
  }

  lemma StepKeepsAllOk(cfg: Config, s: State, e: Event)
    requires AllOk(cfg, s) && Enabled(cfg, s, e)
    ensures AllOk(cfg, Step(cfg, s, e))
  {
    hide AgentsOk, ConnsOk, TodoOk, FifoOk, HistoryOk, LogOk, ReadsOk, AllKept, RegisterAgent, Store, Deliver,
        NoReaders;
    StepKeepsInv(cfg, s, e);
    StepKeepsHistory(cfg, s, e);
    match e
    case Register(p) => RegisterKeepsOk(cfg, s, p);
    case ReadHistory(p, ok) => ReadKeepsOk(cfg, s, p, ok);
    case Lock(p) => LockKeepsOk(cfg, s, p);
    case Receive(p, data, ts, stored) =>
      var post := Post(s.agents[p].user, data, ts);
      StoreKeepsLog(cfg, s, p, post, stored);
      StoreKeepsReads(cfg, s, p, post, stored);
    case _ =>
      StepKept(cfg, s, e);
      KeptKeepsOk(cfg, s.log, s.agents, Step(cfg, s, e).agents);
  }

  lemma {:induction false} RunKeepsAllOk(cfg: Config, before: State, es: seq<Event>, after: State)
    requires AllOk(cfg, before) && Reaches(cfg, before, es, after)
    ensures AllOk(cfg, after)
    decreases |es|
  {
    hide AllOk, Step, Enabled;
    if es != [] {
      StepKeepsAllOk(cfg, before, es[0]);
      RunKeepsAllOk(cfg, Step(cfg, before, es[0]), es[1..], after);
    }
  }

  lemma StartAllOk(cfg: Config)
    ensures AllOk(cfg, START)
  {
    assert Interval(0, 0) == {};
  }

  lemma ReachableAllOk(cfg: Config, es: seq<Event>, s: State)
    requires Reaches(cfg, START, es, s)
    ensures AllOk(cfg, s)
  {
    StartAllOk(cfg);
    hide Reaches, AllOk;
    RunKeepsAllOk(cfg, START, es, s);
  }

  // ---------------------------------------------------------------------------
  // Guarantees

  /** Message `k` of the log has been broadcast to everyone it was going to. */
  predicate Completed(s: State, k: nat)
    requires k < |s.log| && s.log[k].agent < |s.agents|
  {
    var a := s.agents[s.log[k].agent];
    s.log[k].nth < |a.sent| && !(a.pc.Sending? && s.log[k].nth == |a.sent| - 1)
  }

  /** The history frame of the connection has the post of row `k` in its place. */
  predicate InHistory(cfg: Config, a: Agent, k: nat, post: Post) {
    a.shown.Some? && a.readAt.Some?
    && var read, lo := a.readAt.value, Max(0, a.readAt.value - cfg.limit);
       lo <= k < read && |a.shown.value| == read - lo && a.shown.value[k - lo] == post
  }

  /** The broadcast of this very entry, told apart from others alike by its number, was put on the
      connection's channel. */
  predicate Enqueued(a: Agent, e: Entry) {
    var i := e.nth - Before(a, e.agent);
    0 <= i < |From(a.enqueued, e.agent)| && From(a.enqueued, e.agent)[i] == Frame(e.agent, Chat(e.post))
  }

  lemma BroadcastWasDelivered(agents: seq<Agent>, c: nat, e: Entry)
    requires c < |agents| && e.agent < |agents| && PairOk(agents[c], c, agents[e.agent], e.agent) && agents[c].open
    requires EntryOk(e, agents) && Before(agents[c], e.agent) <= e.nth < |agents[e.agent].sent|
    requires !(agents[e.agent].pc.Sending? && e.nth == |agents[e.agent].sent| - 1)
    ensures Enqueued(agents[c], e)
  {
    hide From;
  }

  lemma ShownInHistory(log: seq<Entry>, lo: nat, hi: nat, k: nat)
    requires lo <= k < hi <= |log|
    ensures |Posts(log)[lo..hi]| == hi - lo && Posts(log)[lo..hi][k - lo] == log[k].post
  {}

  lemma EarlierIsShown(cfg: Config, log: seq<Entry>, a: Agent, k: nat)
    requires cfg.history && ReadOk(cfg, log, a) && a.readAt.Some? && k < a.readAt.value && k < |log|
    ensures InHistory(cfg, a, k, log[k].post) || k + cfg.limit < a.readAt.value
  {
    hide Posts;
    var read := a.readAt.value;
    if k + cfg.limit >= read {
      ShownInHistory(log, Max(0, read - cfg.limit), read, k);
    }
  }

  lemma LaterIsBroadcastAfter(cfg: Config, log: seq<Entry>, a: Agent, k: nat)
    requires ReadOk(cfg, log, a) && a.readAt.Some? && a.readAt.value <= k < |log|
    ensures Before(a, log[k].agent) <= log[k].nth
  {
    hide Posts, Before;
  }

  lemma AllOkHere(cfg: Config, s: State, c: nat, k: nat)
    requires AllOk(cfg, s) && c < |s.agents| && k < |s.log|
    ensures EntryOk(s.log[k], s.agents) && s.log[k].agent < |s.agents| && ReadOk(cfg, s.log, s.agents[c])
    ensures PairOk(s.agents[c], c, s.agents[s.log[k].agent], s.log[k].agent)
  {
    hide PairOk, ReadOk, HistoryOk;
    assert EntryOk(s.log[k], s.agents);
  }

  /** No gap: take a connection that registered, read its history and is still registered, and any
      stored message whose broadcast is complete. The message is in its place in the history the
      connection was shown, or it was put on the connection's channel, or at least `limit` newer
      messages were already stored when the history was read. */
  lemma NoGap(cfg: Config, es: seq<Event>, s: State, c: nat, k: nat)
    requires cfg.history && Reaches(cfg, START, es, s)
    requires c < |s.agents| && s.agents[c].open && s.agents[c].readAt.Some? && k < |s.log|
    ensures s.log[k].agent < |s.agents|
    ensures Completed(s, k) ==>
              InHistory(cfg, s.agents[c], k, s.log[k].post)
              || Enqueued(s.agents[c], s.log[k])
              || k + cfg.limit < s.agents[c].readAt.value
  {
    hide AllOk, Reaches, EntryOk, ReadOk, PairOk, Enqueued, InHistory;
    ReachableAllOk(cfg, es, s);
    AllOkHere(cfg, s, c, k);
    if Completed(s, k) {
      if k < s.agents[c].readAt.value {
        EarlierIsShown(cfg, s.log, s.agents[c], k);
      } else {
        LaterIsBroadcastAfter(cfg, s.log, s.agents[c], k);
        BroadcastWasDelivered(s.agents, c, s.log[k]);
      }
    }
  }
}

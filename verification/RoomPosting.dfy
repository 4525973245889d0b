/** What becomes of the messages clients send: which ones the room takes, that each of these is stored
    and broadcast once, and under whose name. */
module RoomPosting {
  import opened Common
  import opened Room
  import opened RoomDelivery
  import opened RoomGuarantees
  import opened RoomHistory

  // ---------------------------------------------------------------------------
  // Who is who

  /** The users on whose behalf handlers were started, by the events alone. */
  function Arrivals(es: seq<Event>): seq<string> {
    if es == [] then []
    else
      var last := es[|es| - 1];
      Arrivals(es[..|es| - 1])
      + if last.JoinChecks? || last.LeaveResolves? || last.Connect? then [last.user] else []
  }

  ghost predicate SameUsers(before: seq<Agent>, after: seq<Agent>) {
    |before| <= |after| && forall p :: 0 <= p < |before| ==> after[p].user == before[p].user
  }

  lemma CloseKeepsUsers(conns: map<string, nat>, agents: seq<Agent>, user: string)
    ensures |Close(conns, agents, user)| == |agents| && SameUsers(agents, Close(conns, agents, user))
  {}

  lemma RegisterKeepsUsers(s: State, p: nat)
    requires p < |s.agents|
    ensures |RegisterAgent(s, p).agents| == |s.agents| && SameUsers(s.agents, RegisterAgent(s, p).agents)
  {
    hide Close, SentCounts;
    CloseKeepsUsers(s.conns, s.agents, s.agents[p].user);
  }

  lemma DeliverKeepsUsers(s: State, p: nat, c: nat)
    requires p < |s.agents| && s.agents[p].pc.Sending? && s.agents[p].sent != []
    ensures |Deliver(s, p, c).agents| == |s.agents| && SameUsers(s.agents, Deliver(s, p, c).agents)
  {}

  lemma UnregisterKeepsUsers(cfg: Config, s: State, p: nat)
    requires Enabled(cfg, s, Unregister(p))
    ensures var t := Step(cfg, s, Unregister(p)); |t.agents| == |s.agents| && SameUsers(s.agents, t.agents)
  {
    hide Close, NoReaders;
    CloseKeepsUsers(s.conns, s.agents, s.agents[p].user);
  }

  lemma StoreKeepsUsers(cfg: Config, s: State, p: nat, post: Post, stored: bool)
    requires p < |s.agents|
    ensures var t := Store(cfg, s, p, post, stored); |t.agents| == |s.agents| && SameUsers(s.agents, t.agents)
  {}

  /** Agents keep their user; one event starts one handler for the user it names. */
  lemma StepKeepsUsers(cfg: Config, s: State, e: Event)
    requires Enabled(cfg, s, e)
    ensures var t := Step(cfg, s, e);
            SameUsers(s.agents, t.agents)
            && if e.JoinChecks? || e.LeaveResolves? || e.Connect?
               then |t.agents| == |s.agents| + 1 && t.agents[|s.agents|].user == e.user
               else |t.agents| == |s.agents|
  {
    hide SentCounts, ReadNewest, NoReaders, NextBody, RegisterAgent, Deliver, Store, Close, Trim, HasToken;
    match e
    case Register(p) => RegisterKeepsUsers(s, p);
    case Send(p, c) => if s.agents[p].sent != [] { DeliverKeepsUsers(s, p, c); }
    case Unregister(p) => UnregisterKeepsUsers(cfg, s, p);
    case Receive(p, data, ts, stored) => StoreKeepsUsers(cfg, s, p, Post(s.agents[p].user, data, ts), stored);
    case _ =>
  }

  lemma {:induction false} LastStep(cfg: Config, s: State, es: seq<Event>, t: State) returns (mid: State)
    requires Reaches(cfg, s, es, t) && es != []
    ensures Reaches(cfg, s, es[..|es| - 1], mid) && Enabled(cfg, mid, es[|es| - 1])
    ensures t == Step(cfg, mid, es[|es| - 1])
    decreases |es|
  {
    hide Step, Enabled;
    var n := |es| - 1;
    if n == 0 {
      assert es[..0] == [] && es[1..] == [];
      mid := s;
    } else {
      mid := LastStep(cfg, Step(cfg, s, es[0]), es[1..], t);
      assert es[..n][1..] == es[1..][..n - 1] && es[..n][0] == es[0] && es[1..][n - 1] == es[n];
    }
  }

  /** Handler `p` acts for the user the run started it for. */
  lemma {:induction false} AgentsAreArrivals(cfg: Config, es: seq<Event>, s: State)
    requires Reaches(cfg, START, es, s)
    ensures |s.agents| == |Arrivals(es)| && forall p :: 0 <= p < |s.agents| ==> s.agents[p].user == Arrivals(es)[p]
    decreases |es|
  {
    hide Step, Enabled;
    if es != [] {
      hide Reaches;
      var mid := LastStep(cfg, START, es, s);
      AgentsAreArrivals(cfg, es[..|es| - 1], mid);
      StepKeepsUsers(cfg, mid, es[|es| - 1]);
    }
  }

  // ---------------------------------------------------------------------------
  // What is stored

  /** In a channel owners and admins may post, elsewhere everybody. */
  predicate MayPost(cfg: Config, role: Role) {
    !cfg.broadcastOnly || role == Owner || role == Admin
  }

  /** The message the event is, if it is one that the room takes. */
  function Taken(cfg: Config, s: State, e: Event): seq<Post> {
    if e.Receive? && e.p < |s.agents| && MayPost(cfg, s.agents[e.p].role)
    then [Post(s.agents[e.p].user, e.data, e.ts)] else []
  }

  /** The messages of a run that the room took and that could be written, in order. */
  ghost function Written(cfg: Config, before: State, es: seq<Event>): seq<Post>
    decreases |es|
  {
    if es == [] || !Enabled(cfg, before, es[0]) then []
    else
      (if es[0].Receive? && es[0].stored then Taken(cfg, before, es[0]) else [])
      + Written(cfg, Step(cfg, before, es[0]), es[1..])
  }

  lemma PostsAppend(log: seq<Entry>, e: Entry)
    ensures Posts(log + [e]) == Posts(log) + [e.post]
  {}

  lemma StepWrites(cfg: Config, s: State, e: Event)
    requires Enabled(cfg, s, e)
    ensures Posts(Step(cfg, s, e).log) == Posts(s.log) + if e.Receive? && e.stored then Taken(cfg, s, e) else []
  {
    hide SentCounts, ReadNewest, NoReaders, NextBody, RegisterAgent, Deliver, Close, Posts;
    if e.Receive? {
      PostsAppend(s.log, Entry(Post(s.agents[e.p].user, e.data, e.ts), e.p, |s.agents[e.p].sent|));
    } else if !e.TrimHistory? {
      hide Step;
      ElsewhereSameHistory(cfg, s, e);
    }
  }

  /** The log is the messages taken and written, each once and in order. */
  lemma {:induction false} LogIsWritten(cfg: Config, before: State, es: seq<Event>, after: State)
    requires Reaches(cfg, before, es, after)
    ensures Posts(after.log) == Posts(before.log) + Written(cfg, before, es)
    decreases |es|
  {
    hide Step, Enabled, Posts, Taken;
    if es != [] {
      StepWrites(cfg, before, es[0]);
      LogIsWritten(cfg, Step(cfg, before, es[0]), es[1..], after);
      Regroup(Posts(before.log), if es[0].Receive? && es[0].stored then Taken(cfg, before, es[0]) else [],
              Written(cfg, Step(cfg, before, es[0]), es[1..]));
    }
  }

  lemma NothingWrittenYet(cfg: Config, es: seq<Event>, s: State)
    requires Reaches(cfg, START, es, s)
    ensures Posts(s.log) == Written(cfg, START, es)
  {
    hide Reaches;
    LogIsWritten(cfg, START, es, s);
  }

  /** A read of the history, whenever it happens, yields the last `limit` messages that were taken and
      written, or all of them, in order. */
  lemma HistoryIsWhatWasWritten(cfg: Config, es: seq<Event>, s: State)
    requires Reaches(cfg, START, es, s)
    ensures var all := Written(cfg, START, es);
            ReadNewest(s.rows, cfg.limit) == all[if |all| <= cfg.limit then 0 else |all| - cfg.limit..]
  {
    hide Reaches, Posts, Written, ReadNewest;
    HistoryReadsTheLog(cfg, es, s);
    NothingWrittenYet(cfg, es, s);
  }

  /** What an ordinary group stores, by the events alone: every message that could be written. */
  function Spoken(es: seq<Event>): seq<Post> {
    if es == [] then []
    else
      var before, last := es[..|es| - 1], es[|es| - 1];
      Spoken(before)
      + if last.Receive? && last.stored && last.p < |Arrivals(before)|
        then [Post(Arrivals(before)[last.p], last.data, last.ts)] else []
  }

  /** In a room that is no channel everybody's messages are stored, under the name of the user whose
      connection they came in on. */
  lemma {:induction false} OpenRoomsStoreEverything(cfg: Config, es: seq<Event>, s: State)
    requires Reaches(cfg, START, es, s) && !cfg.broadcastOnly
    ensures Posts(s.log) == Spoken(es)
    decreases |es|
  {
    if es != [] {
      hide Reaches, Step, Posts;
      var before := es[..|es| - 1];
      var mid := LastStep(cfg, START, es, s);
      OpenRoomsStoreEverything(cfg, before, mid);
      AgentsAreArrivals(cfg, before, mid);
      StepWrites(cfg, mid, es[|es| - 1]);
    }
  }

  // ---------------------------------------------------------------------------
  // What is broadcast

  /** The messages among the frames. */
  function Chats(frames: seq<Frame>): seq<Post> {
    if frames == [] then []
    else
      var last := frames[|frames| - 1].body;
      Chats(frames[..|frames| - 1]) + if last.Chat? then [last.post] else []
  }

  /** The messages agent `p` has broadcast, and the one it is about to, if any. */
  function Voiced(agents: seq<Agent>, p: nat): seq<Post> {
    if p < |agents|
    then Chats(agents[p].sent) + (if Unsent(agents[p].pc).Some? then [Unsent(agents[p].pc).value] else [])
    else []
  }

  lemma SameVoice(a: Agent, b: Agent, before: seq<Agent>, after: seq<Agent>, p: nat)
    requires p < |before| && p < |after| && a == before[p] && b == after[p]
    requires b.sent == a.sent && Unsent(b.pc) == Unsent(a.pc)
    ensures Voiced(after, p) == Voiced(before, p)
  {}

  lemma KeptVoice(before: seq<Agent>, after: seq<Agent>, p: nat)
    requires AllKept(before, after) && p < |before|
    ensures Voiced(after, p) == Voiced(before, p)
  {
    hide Chats, Unsent;
  }

  lemma RegisterVoice(cfg: Config, s: State, p: nat, q: nat)
    requires Enabled(cfg, s, Register(p)) && q < |s.agents|
    ensures |RegisterAgent(s, p).agents| == |s.agents| && Voiced(RegisterAgent(s, p).agents, q) == Voiced(s.agents, q)
  {
    hide Close, SentCounts, NoReaders, Voiced;
    CloseKept(s.conns, s.agents, s.agents[p].user);
    SameVoice(s.agents[q], RegisterAgent(s, p).agents[q], s.agents, RegisterAgent(s, p).agents, q);
  }

  lemma ReadVoice(cfg: Config, s: State, p: nat, ok: bool, q: nat)
    requires Enabled(cfg, s, ReadHistory(p, ok)) && q < |s.agents|
    ensures var t := Step(cfg, s, ReadHistory(p, ok)); q < |t.agents| && Voiced(t.agents, q) == Voiced(s.agents, q)
  {
    hide ReadNewest, Voiced;
    SameVoice(s.agents[q], Step(cfg, s, ReadHistory(p, ok)).agents[q], s.agents,
              Step(cfg, s, ReadHistory(p, ok)).agents, q);
  }

  lemma LockVoice(cfg: Config, s: State, p: nat, q: nat)
    requires Enabled(cfg, s, Lock(p)) && q < |s.agents|
    ensures var t := Step(cfg, s, Lock(p)); q < |t.agents| && Voiced(t.agents, q) == Voiced(s.agents, q)
  {
    var t := Step(cfg, s, Lock(p));
    if q == p {
      var sent, frame := s.agents[p].sent, Frame(p, NextBody(s.agents[p]));
      assert (sent + [frame])[..|sent|] == sent;
    } else {
      SameVoice(s.agents[q], t.agents[q], s.agents, t.agents, q);
    }
  }

  lemma StoreVoice(cfg: Config, s: State, p: nat, data: string, ts: int, stored: bool, q: nat)
    requires Enabled(cfg, s, Receive(p, data, ts, stored)) && q < |s.agents|
    ensures var e := Receive(p, data, ts, stored);
            var t := Step(cfg, s, e);
            q < |t.agents| && Voiced(t.agents, q) == Voiced(s.agents, q) + if q == p then Taken(cfg, s, e) else []
  {
    hide Chats;
    var t := Step(cfg, s, Receive(p, data, ts, stored));
    if q != p {
      SameVoice(s.agents[q], t.agents[q], s.agents, t.agents, q);
    }
  }

  lemma NewVoice(cfg: Config, s: State, e: Event)
    requires Enabled(cfg, s, e)
    ensures |s.agents| < |Step(cfg, s, e).agents| ==> Voiced(Step(cfg, s, e).agents, |s.agents|) == []
  {
    if e.JoinChecks? || e.LeaveResolves? || e.Connect? {
      hide NoReaders, Enabled;
    } else {
      hide Step, Voiced;
      StepKeepsUsers(cfg, s, e);
    }
  }

  lemma NobodysVoice(agents: seq<Agent>, p: nat)
    ensures p >= |agents| ==> Voiced(agents, p) == []
  {}

  lemma ReceivesFromSomebody(cfg: Config, s: State, e: Event)
    requires Enabled(cfg, s, e)
    ensures e.Receive? ==> e.p < |s.agents|
  {}

  lemma StepVoices(cfg: Config, s: State, e: Event, p: nat)
    requires Enabled(cfg, s, e)
    ensures Voiced(Step(cfg, s, e).agents, p)
         == Voiced(s.agents, p) + if e.Receive? && e.p == p then Taken(cfg, s, e) else []
  {
    hide Voiced, AllKept, SentCounts, ReadNewest, NoReaders, NextBody, RegisterAgent, Deliver, Store, Close, Taken;
    if p < |s.agents| {
      match e
      case Register(q) => RegisterVoice(cfg, s, q, p);
      case ReadHistory(q, ok) => ReadVoice(cfg, s, q, ok, p);
      case Lock(q) => LockVoice(cfg, s, q, p);
      case Receive(q, data, ts, stored) => StoreVoice(cfg, s, q, data, ts, stored, p);
      case _ =>
        hide Step;
        StepKept(cfg, s, e);
        KeptVoice(s.agents, Step(cfg, s, e).agents, p);
    } else {
      NobodysVoice(s.agents, p);
      NobodysVoice(Step(cfg, s, e).agents, p);
      NewVoice(cfg, s, e);
      StepKeepsUsers(cfg, s, e);
      ReceivesFromSomebody(cfg, s, e);
    }
  }

  /** The messages of one connection that the room took, written or not, in order. */
  ghost function TakenFrom(cfg: Config, before: State, es: seq<Event>, p: nat): seq<Post>
    decreases |es|
  {
    if es == [] || !Enabled(cfg, before, es[0]) then []
    else
      (if es[0].Receive? && es[0].p == p then Taken(cfg, before, es[0]) else [])
      + TakenFrom(cfg, Step(cfg, before, es[0]), es[1..], p)
  }

  lemma {:induction false} RunVoices(cfg: Config, before: State, es: seq<Event>, after: State, p: nat)
    requires Reaches(cfg, before, es, after)
    ensures Voiced(after.agents, p) == Voiced(before.agents, p) + TakenFrom(cfg, before, es, p)
    decreases |es|
  {
    hide Step, Enabled, Voiced, Taken;
    if es != [] {
      StepVoices(cfg, before, es[0], p);
      RunVoices(cfg, Step(cfg, before, es[0]), es[1..], after, p);
      Regroup(Voiced(before.agents, p), if es[0].Receive? && es[0].p == p then Taken(cfg, before, es[0]) else [],
              TakenFrom(cfg, Step(cfg, before, es[0]), es[1..], p));
    }
  }

  /** Each message taken from a connection is broadcast by its handler exactly once, in order, whether
      it could be written or not; only the last may still be on its way. */
  lemma EveryMessageIsBroadcast(cfg: Config, es: seq<Event>, s: State, p: nat)
    requires Reaches(cfg, START, es, s) && p < |s.agents|
    ensures TakenFrom(cfg, START, es, p)
         == Chats(s.agents[p].sent)
            + if s.agents[p].pc.Filed? || s.agents[p].pc.Trimmed? then [s.agents[p].pc.post] else []
  {
    RunVoices(cfg, START, es, s, p);
    hide Reaches, Chats, TakenFrom;
  }

  lemma OpenHasAll(agents: seq<Agent>, c: nat, p: nat)
    requires FifoOk(agents) && c < |agents| && p < |agents| && agents[c].open && Before(agents[c], p) == 0
    requires !agents[p].pc.Sending?
    ensures From(agents[c].enqueued, p) == agents[p].sent
  {
    hide From, Before;
    assert PairOk(agents[c], c, agents[p], p);
    assert agents[p].sent[0..|agents[p].sent|] == agents[p].sent;
  }

  lemma FifoHere(cfg: Config, es: seq<Event>, s: State)
    requires Reaches(cfg, START, es, s)
    ensures FifoOk(s.agents)
  {
    hide Reaches, HistoryOk, LogOk, ReadsOk;
    ReachableAllOk(cfg, es, s);
  }

  /** From the client that speaks to the client that listens: a connection that registered before
      another one broadcast anything, and is still open while that one is back in its loop, has been
      given exactly the messages taken from it, once each and in order. */
  lemma ListenersHearEverything(cfg: Config, es: seq<Event>, s: State, p: nat, c: nat)
    requires Reaches(cfg, START, es, s) && p < |s.agents| && c < |s.agents|
    requires s.agents[p].pc.Idle? && s.agents[c].open && Before(s.agents[c], p) == 0
    ensures Chats(From(s.agents[c].enqueued, p)) == TakenFrom(cfg, START, es, p)
  {
    hide Reaches, Chats, TakenFrom, From, Before, FifoOk;
    FifoHere(cfg, es, s);
    OpenHasAll(s.agents, c, p);
    EveryMessageIsBroadcast(cfg, es, s, p);
  }
}

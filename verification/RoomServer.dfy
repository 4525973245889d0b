/** The handlers of src/group.rs on the mutable connection map, tables and channels: one method for
    each lock or SQL statement, and the handlers built from them. Each statement is proved to be
    one event of module Room and each handler, run by itself, a run of them; the room is always in
    a state that such runs reach. */
module RoomServer {
  import opened Common
  import opened Room
  import opened RoomGuarantees
  import opened RoomHistory

  /** `Internal` stands for the group key that cannot be had or sealed and for the row that cannot be
      written. */
  datatype Joined = GroupFull | BadRequest | Internal | Welcome(token: string, role: Role)
  datatype Left = Unauthorized | NoContent

  // ---------------------------------------------------------------------------
  // What a whole broadcast does

  function Given(a: Agent, frames: seq<Frame>): Agent {
    a.(queue := a.queue + frames, enqueued := a.enqueued + frames)
  }

  /** The agents when `p` has sent its next frame to the connections in `served`. */
  function Served(s: State, p: nat, pc: Pc, served: set<nat>): (agents: seq<Agent>)
    requires p < |s.agents|
    ensures |agents| == |s.agents|
  {
    var frame := Frame(p, NextBody(s.agents[p]));
    var sender := s.agents[p].(pc := pc, sent := s.agents[p].sent + [frame]);
    seq(|s.agents|, c requires 0 <= c < |s.agents| =>
      Given(if c == p then sender else s.agents[c], if c in served then [frame] else []))
  }

  /** Every connection in the map has the frame once more, and nothing else has changed. */
  function AfterBroadcast(s: State, p: nat): State
    requires p < |s.agents|
  {
    s.(agents := Served(s, p, if s.agents[p].pc.Trimmed? then Idle else Gone, s.conns.Values))
  }

  lemma NobodyServed(cfg: Config, s: State, p: nat)
    requires Enabled(cfg, s, Lock(p))
    ensures Step(cfg, s, Lock(p)).agents == Served(s, p, Sending(s.conns.Values, s.agents[p].pc.Trimmed?), {})
  {
    hide NextBody;
    assert forall q: seq<Frame> :: q + [] == q;
  }

  lemma OneMoreServed(cfg: Config, s: State, t: State, p: nat, todo: set<nat>, back: bool, served: set<nat>, c: nat)
    requires p < |s.agents| && t.agents == Served(s, p, Sending(todo, back), served)
    requires c in todo && c !in served && c < |s.agents|
    ensures Enabled(cfg, t, Send(p, c)) && t.agents[p].sent != []
    ensures t.agents[p].pc.Sending? && c in t.agents[p].pc.todo
    ensures Step(cfg, t, Send(p, c)) == t.(agents := Served(s, p, Sending(todo - {c}, back), served + {c}))
  {
    hide NextBody;
    var after := Served(s, p, Sending(todo - {c}, back), served + {c});
    assert t.agents[p].sent[|t.agents[p].sent| - 1] == Frame(p, NextBody(s.agents[p]));
    assert forall q: seq<Frame>, f: Frame :: (q + []) + [f] == q + [f];
    assert Deliver(t, p, c).agents == after;
  }

  lemma LockReleased(cfg: Config, s: State, t: State, p: nat, back: bool, served: set<nat>)
    requires p < |s.agents| && t.agents == Served(s, p, Sending({}, back), served)
    ensures Enabled(cfg, t, Unlock(p))
    ensures Step(cfg, t, Unlock(p)) == t.(agents := Served(s, p, if back then Idle else Gone, served))
  {
    hide NextBody;
    assert Step(cfg, t, Unlock(p)).agents == Served(s, p, if back then Idle else Gone, served);
  }

  // ---------------------------------------------------------------------------
  // What the connections see

  /** The agents there were have received `frame` if the map `conns` lists them, and nothing else. */
  ghost predicate Told(before: seq<Agent>, conns: map<string, nat>, frame: Frame, after: seq<Agent>) {
    |before| <= |after|
    && forall c :: 0 <= c < |before| ==>
         after[c].queue == before[c].queue + if c in conns.Values then [frame] else []
  }

  ghost predicate Quiet(before: seq<Agent>, after: seq<Agent>) {
    |before| <= |after| && forall c :: 0 <= c < |before| ==> after[c].queue == before[c].queue
  }

  lemma QuietTwice(before: seq<Agent>, mid: seq<Agent>, after: seq<Agent>)
    requires Quiet(before, mid) && Quiet(mid, after)
    ensures Quiet(before, after)
  {}

  lemma QuietThenTold(before: seq<Agent>, mid: seq<Agent>, conns: map<string, nat>, frame: Frame, after: seq<Agent>)
    requires Quiet(before, mid) && Told(mid, conns, frame, after)
    ensures Told(before, conns, frame, after)
  {}

  /** A whole broadcast gives each connection in the map its frame exactly once. */
  lemma EveryoneServed(s: State, p: nat)
    requires p < |s.agents|
    ensures var t := AfterBroadcast(s, p);
            |t.agents| == |s.agents|
            && t.agents[p].pc == (if s.agents[p].pc.Trimmed? then Idle else Gone)
            && Told(s.agents, s.conns, Frame(p, NextBody(s.agents[p])), t.agents)
  {
    hide NextBody;
  }

  // ---------------------------------------------------------------------------
  // Reachable states

  ghost predicate Reachable(cfg: Config, s: State) {
    exists es :: Reaches(cfg, START, es, s)
  }

  lemma StartIsReachable(cfg: Config)
    ensures Reachable(cfg, START)
  {
    NoEvents(cfg, START);
  }

  lemma StepKeepsReachable(cfg: Config, s: State, e: Event)
    requires Reachable(cfg, s) && Enabled(cfg, s, e)
    ensures Reachable(cfg, Step(cfg, s, e))
  {
    hide Reaches, Enabled, Step;
    var es :| Reaches(cfg, START, es, s);
    RunThenStep(cfg, START, es, s, e);
  }

  /** What module RoomGuarantees proves of them, and what this module uses of it. */
  lemma ReachableFacts(cfg: Config, s: State)
    requires Reachable(cfg, s)
    ensures AllOk(cfg, s) && HistoryOk(cfg, s)
    ensures forall u :: u in s.conns ==> s.conns[u] < |s.agents|
  {
    hide Reaches, HistoryOk, LogOk, ReadsOk;
    var es :| Reaches(cfg, START, es, s);
    ReachableAllOk(cfg, es, s);
  }

  /** The event can happen in `s` and leads to `t`. */
  ghost predicate Does(cfg: Config, s: State, e: Event, t: State) {
    Enabled(cfg, s, e) && t == Step(cfg, s, e)
  }

  class GroupRoom {
    const cfg: Config
    var conns: map<string, nat>
    var rows: map<nat, Post>
    var nextId: nat
    var members: map<string, Member>
    var agents: seq<Agent>
    ghost var log: seq<Entry>
    ghost var grants: set<string>
    ghost var misgrants: set<string>
    ghost var failedTrims: nat

    ghost function View(): State
      reads this
    {
      State(conns, rows, members, agents, log, grants, misgrants, failedTrims)
    }

    /** Row ids count the inserts, and the room is as some run from the empty room leaves it, so that
        all that the other modules prove of such states holds of it. */
    ghost predicate Valid()
      reads this
    {
      nextId == |log| && Reachable(cfg, View())
    }

    constructor (cfg: Config)
      ensures View() == START && Valid() && this.cfg == cfg
    {
      this.cfg := cfg;
      conns, rows, nextId, members, agents := map[], map[], 0, map[], [];
      log, grants, misgrants, failedTrims := [], {}, {}, 0;
      new;
      StartIsReachable(cfg);
    }

    // -------------------------------------------------------------------------
    // broadcast

    /** Under the read lock, in whatever order the map yields its senders. */
    method Broadcast(p: nat) returns (ghost es: seq<Event>)
      requires Valid() && p < |agents| && ReadyToSend(agents[p].pc)
      modifies this`agents
      ensures Valid() && View() == AfterBroadcast(old(View()), p)
      ensures Told(old(agents), conns, Frame(p, NextBody(old(agents)[p])), agents) && |agents| == |old(agents)|
      ensures agents[p].pc == if old(agents)[p].pc.Trimmed? then Idle else Gone
      ensures Reaches(cfg, old(View()), es, View())
    {
      hide NextBody, Served, Deliver, Reaches, Step, Reachable, Told;
      ghost var start := View();
      var back := agents[p].pc.Trimmed?;
      OneStep(cfg, start, Lock(p));
      NobodyServed(cfg, start, p);
      TakeReadLock(p);
      ghost var sends := ServeAll(start, p, back);
      RunThenRun(cfg, start, [Lock(p)], Step(cfg, start, Lock(p)), sends, View());
      LockReleased(cfg, start, View(), p, back, conns.Values);
      RunThenStep(cfg, start, [Lock(p)] + sends, View(), Unlock(p));
      ReleaseReadLock(p);
      es := [Lock(p)] + sends + [Unlock(p)];
      EveryoneServed(start, p);
    }

    method TakeReadLock(p: nat)
      requires Valid() && p < |agents| && ReadyToSend(agents[p].pc)
      modifies this`agents
      ensures Valid() && Does(cfg, old(View()), Lock(p), View())
    {
      hide Reachable;
      StepKeepsReachable(cfg, View(), Lock(p));
      var frame := Frame(p, NextBody(agents[p]));
      agents := agents[p := agents[p].(
        pc := Sending(conns.Values, agents[p].pc.Trimmed?), sent := agents[p].sent + [frame])];
    }

    method ReleaseReadLock(p: nat)
      requires Valid() && p < |agents| && agents[p].pc.Sending? && agents[p].pc.todo == {}
      modifies this`agents
      ensures Valid() && Does(cfg, old(View()), Unlock(p), View())
    {
      hide Reachable;
      StepKeepsReachable(cfg, View(), Unlock(p));
      agents := agents[p := agents[p].(pc := if agents[p].pc.back then Idle else Gone)];
    }

    /** The loop over the senders; `start` is the state before the lock was taken. */
    method ServeAll(ghost start: State, p: nat, ghost back: bool) returns (ghost es: seq<Event>)
      requires Valid() && p < |start.agents| && start.conns == conns
      requires View() == start.(agents := Served(start, p, Sending(conns.Values, back), {}))
      modifies this`agents
      ensures Valid() && View() == start.(agents := Served(start, p, Sending({}, back), conns.Values))
      ensures Reaches(cfg, old(View()), es, View())
    {
      hide NextBody, Served, Deliver, Step, Enabled, Reaches, Reachable, AllOk, HistoryOk;
      ReachableFacts(cfg, View());
      var todo := conns.Values;
      ghost var served: set<nat> := {};
      es := [];
      assert Reaches(cfg, View(), es, View()) by { NoEvents(cfg, View()); }
      while todo != {}
        invariant Valid() && |agents| == |start.agents| && todo + served == conns.Values && todo !! served
        invariant View() == start.(agents := Served(start, p, Sending(todo, back), served))
        invariant Reaches(cfg, old(View()), es, View())
      {
        var c :| c in todo;
        ghost var before := View();
        OneMoreServed(cfg, start, before, p, todo, back, served, c);
        SendTo(p, c);
        RunThenStep(cfg, old(View()), es, before, Send(p, c));
        todo, served, es := todo - {c}, served + {c}, es + [Send(p, c)];
      }
      assert served == conns.Values;
    }

    method SendTo(p: nat, c: nat)
      requires Valid() && p < |agents| && agents[p].pc.Sending? && c in agents[p].pc.todo
      requires c < |agents| && agents[p].sent != []
      modifies this`agents
      ensures Valid() && Does(cfg, old(View()), Send(p, c), View())
    {
      hide Reachable;
      StepKeepsReachable(cfg, View(), Send(p, c));
      var frame := agents[p].sent[|agents[p].sent| - 1];
      agents := agents[p := agents[p].(pc := Sending(agents[p].pc.todo - {c}, agents[p].pc.back))];
      agents := agents[c := agents[c].(queue := agents[c].queue + [frame], enqueued := agents[c].enqueued + [frame])];
    }

    // -------------------------------------------------------------------------
    // Members

    /** The member with this token, if there is one. */
    method ResolveMember(token: string) returns (user: Option<string>)
      ensures user.Some? ==> HasToken(members, user.value, token)
      ensures user.None? ==> forall u :: u in members ==> !HasToken(members, u, token)
    {
      if u :| u in members && members[u].token == token {
        return Some(u);
      }
      return None;
    }

    /** The first count; a count that fails reads as zero. */
    method CheckRoom(user: string, miscounted: bool) returns (room: bool)
      requires Valid()
      modifies this`agents
      ensures Valid() && (room <==> cfg.maxMembers == 0 || miscounted || |members| < cfg.maxMembers)
      ensures if room then Does(cfg, old(View()), JoinChecks(user, miscounted), View()) else View() == old(View())
      ensures room ==> agents == old(agents) + [NewAgent(user, Plain, Checked)]
      ensures Quiet(old(agents), agents)
    {
      hide Reachable;
      if Enabled(cfg, View(), JoinChecks(user, miscounted)) {
        StepKeepsReachable(cfg, View(), JoinChecks(user, miscounted));
      }
      if cfg.maxMembers > 0 {
        var count := if miscounted then 0 else |members|;
        if count >= cfg.maxMembers {
          return false;
        }
      }
      agents := agents + [NewAgent(user, Plain, Checked)];
      return true;
    }

    /** The second count, which decides the role. */
    method CountMembers(p: nat, failed: bool) returns (role: Role)
      requires Valid() && p < |agents| && agents[p].pc.Checked?
      modifies this`agents, this`grants, this`misgrants
      ensures Valid() && Does(cfg, old(View()), JoinCounts(p, failed), View())
      ensures agents == old(agents)[p := old(agents)[p].(pc := Counted(role))] && Quiet(old(agents), agents)
      ensures role == if failed || members == map[] then Owner else Plain
    {
      hide Reachable;
      StepKeepsReachable(cfg, View(), JoinCounts(p, failed));
      ghost var user := agents[p].user;
      var count := if failed then 0 else |members|;
      role := if count == 0 then Owner else Plain;
      agents := agents[p := agents[p].(pc := Counted(role))];
      grants := if members == map[] then grants + {user} else grants;
      misgrants := if failed then misgrants + {user} else misgrants;
    }

    /** The insert, or on a known username the update of the token alone. */
    method UpsertMember(p: nat, token: string)
      requires Valid() && p < |agents| && agents[p].pc.Counted?
      requires forall u :: u in members ==> members[u].token != token
      modifies this`agents, this`members
      ensures Valid() && Does(cfg, old(View()), JoinUpserts(p, token), View())
      ensures var a := old(agents)[p];
              agents == old(agents)[p := a.(pc := Upserted(a.pc.grant))] && Quiet(old(agents), agents)
              && members == old(members)[a.user := Member(
                   if a.user in old(members) then old(members)[a.user].role else a.pc.grant, token)]
    {
      hide Reachable;
      StepKeepsReachable(cfg, View(), JoinUpserts(p, token));
      var user, grant := agents[p].user, agents[p].pc.grant;
      if user in members {
        members := members[user := members[user].(token := token)];
      } else {
        members := members[user := Member(grant, token)];
      }
      agents := agents[p := agents[p].(pc := Upserted(grant))];
    }

    /** A join or a leave ends with an error before it has written or deleted a row. */
    method GiveUp(p: nat)
      requires Valid() && p < |agents| && (agents[p].pc.Checked? || agents[p].pc.Counted? || agents[p].pc.Resolved?)
      modifies this`agents
      ensures Valid() && Does(cfg, old(View()), GivesUp(p), View()) && Quiet(old(agents), agents)
    {
      hide Reachable;
      StepKeepsReachable(cfg, View(), GivesUp(p));
      agents := agents[p := agents[p].(pc := Gone)];
    }

    /** `token` is new; `keyOk` says whether the key could be decoded, `sealed` whether the group key
        could be had and sealed, `stored` whether the row could be written. The reply and the note to
        the room carry the role counted for, not the one stored. */
    method GroupJoin(
      user: string, token: string, keyOk: bool, sealed: bool, miscounted: bool, failed: bool, stored: bool)
      returns (reply: Joined, ghost es: seq<Event>)
      requires Valid() && forall u :: u in members ==> members[u].token != token
      modifies this`agents, this`grants, this`misgrants, this`members
      ensures Valid() && Reaches(cfg, old(View()), es, View())
      ensures reply == if cfg.maxMembers > 0 && !miscounted && |old(members)| >= cfg.maxMembers then GroupFull
                       else if !keyOk then BadRequest
                       else if !sealed || !stored then Internal
                       else Welcome(token, if failed || old(members) == map[] then Owner else Plain)
      ensures members == if !reply.Welcome? then old(members)
                         else old(members)[user := Member(
                           if user in old(members) then old(members)[user].role else reply.role, token)]
      ensures if reply.Welcome?
              then Told(old(agents), conns, Frame(|old(agents)|, JoinNote(user, reply.role)), agents)
              else Quiet(old(agents), agents)
    {
      hide AfterBroadcast, Reaches, Step, Reachable, Told, Quiet;
      ghost var start := View();
      es := [];
      NoEvents(cfg, start);
      var room := CheckRoom(user, miscounted);
      if !room {
        return GroupFull, es;
      }
      var p := |agents| - 1;
      RunThenStep(cfg, start, es, start, JoinChecks(user, miscounted));
      es := es + [JoinChecks(user, miscounted)];
      ghost var checked := View();
      if !keyOk || !sealed {
        GiveUp(p);
        RunThenStep(cfg, start, es, checked, GivesUp(p));
        QuietTwice(start.agents, checked.agents, agents);
        return if keyOk then Internal else BadRequest, es + [GivesUp(p)];
      }
      var role := CountMembers(p, failed);
      RunThenStep(cfg, start, es, checked, JoinCounts(p, failed));
      es := es + [JoinCounts(p, failed)];
      ghost var counted := View();
      QuietTwice(start.agents, checked.agents, counted.agents);
      if !stored {
        GiveUp(p);
        RunThenStep(cfg, start, es, counted, GivesUp(p));
        QuietTwice(start.agents, counted.agents, agents);
        return Internal, es + [GivesUp(p)];
      }
      es := FinishJoin(p, token, start, es);
      return Welcome(token, role), es;
    }

    /** The row and the note. */
    method FinishJoin(p: nat, token: string, ghost start: State, ghost es: seq<Event>) returns (ghost fs: seq<Event>)
      requires Valid() && p < |agents| && agents[p].pc.Counted?
      requires forall u :: u in members ==> members[u].token != token
      requires Reaches(cfg, start, es, View()) && Quiet(start.agents, agents)
      modifies this`agents, this`members
      ensures Valid() && Reaches(cfg, start, fs, View())
      ensures var a := old(agents)[p];
              Told(start.agents, conns, Frame(p, JoinNote(a.user, a.pc.grant)), agents)
              && members == old(members)[a.user := Member(
                   if a.user in old(members) then old(members)[a.user].role else a.pc.grant, token)]
    {
      hide AfterBroadcast, Reaches, Step, Reachable, Told, Quiet;
      ghost var counted := View();
      UpsertMember(p, token);
      RunThenStep(cfg, start, es, counted, JoinUpserts(p, token));
      ghost var upserted := View();
      QuietTwice(start.agents, counted.agents, upserted.agents);
      ghost var sends := Broadcast(p);
      QuietThenTold(start.agents, upserted.agents, conns, Frame(p, NextBody(upserted.agents[p])), agents);
      RunThenRun(cfg, start, es + [JoinUpserts(p, token)], upserted, sends, View());
      fs := es + [JoinUpserts(p, token)] + sends;
    }

    method BeginLeave(user: string, token: string)
      requires Valid() && HasToken(members, user, token)
      modifies this`agents
      ensures Valid() && Does(cfg, old(View()), LeaveResolves(user, token), View())
      ensures agents == old(agents) + [NewAgent(user, Plain, Resolved)] && Quiet(old(agents), agents)
    {
      hide Reachable;
      StepKeepsReachable(cfg, View(), LeaveResolves(user, token));
      agents := agents + [NewAgent(user, Plain, Resolved)];
    }

    method DeleteMember(p: nat)
      requires Valid() && p < |agents| && agents[p].pc.Resolved?
      modifies this`agents, this`members
      ensures Valid() && Does(cfg, old(View()), LeaveDeletes(p), View())
      ensures members == old(members) - {old(agents)[p].user}
      ensures agents == old(agents)[p := old(agents)[p].(pc := Deleted)] && Quiet(old(agents), agents)
    {
      hide Reachable;
      StepKeepsReachable(cfg, View(), LeaveDeletes(p));
      members := members - {agents[p].user};
      agents := agents[p := agents[p].(pc := Deleted)];
    }

    /** Exactly the member with the token is deleted, and every connection is told. */
    method GroupLeave(token: string) returns (reply: Left, ghost es: seq<Event>)
      requires Valid()
      modifies this`agents, this`members
      ensures Valid() && Reaches(cfg, old(View()), es, View())
      ensures reply == Unauthorized <==> forall u :: u in old(members) ==> !HasToken(old(members), u, token)
      ensures reply == Unauthorized ==> View() == old(View())
      ensures reply == NoContent ==>
                exists u :: HasToken(old(members), u, token) && members == old(members) - {u}
                            && Told(old(agents), conns, Frame(|old(agents)|, LeaveNote(u)), agents)
    {
      hide AfterBroadcast, Reaches, Step, Reachable, Told, Quiet;
      ghost var start := View();
      es := [];
      NoEvents(cfg, start);
      var user := ResolveMember(token);
      if user.None? {
        return Unauthorized, es;
      }
      var p := |agents|;
      BeginLeave(user.value, token);
      RunThenStep(cfg, start, es, start, LeaveResolves(user.value, token));
      es := es + [LeaveResolves(user.value, token)];
      ghost var resolved := View();
      DeleteMember(p);
      RunThenStep(cfg, start, es, resolved, LeaveDeletes(p));
      es := es + [LeaveDeletes(p)];
      ghost var deleted := View();
      QuietTwice(start.agents, resolved.agents, deleted.agents);
      ghost var sends := Broadcast(p);
      QuietThenTold(start.agents, deleted.agents, conns, Frame(p, LeaveNote(user.value)), agents);
      RunThenRun(cfg, start, es, deleted, sends, View());
      assert HasToken(start.members, user.value, token);
      return NoContent, es + sends;
    }

    // -------------------------------------------------------------------------
    // Connections

    /** The role is the one stored at this moment and is kept for the life of the connection. */
    method ConnectMember(user: string, token: string)
      requires Valid() && HasToken(members, user, token)
      modifies this`agents
      ensures Valid() && Does(cfg, old(View()), Connect(user, token), View())
      ensures agents == old(agents) + [NewAgent(user, members[user].role, Fresh)]
      ensures NoReaders(old(agents)) ==> NoReaders(agents)
    {
      hide Reachable;
      StepKeepsReachable(cfg, View(), Connect(user, token));
      agents := agents + [NewAgent(user, members[user].role, Fresh)];
    }

    /** Under the write lock the new sender replaces the one the map held for the user, which is
        dropped and so closes its channel. */
    method RegisterSender(p: nat)
      requires Valid() && p < |agents| && agents[p].pc.Fresh? && NoReaders(agents)
      modifies this`agents, this`conns
      ensures Valid() && Does(cfg, old(View()), Register(p), View())
      ensures |agents| == |old(agents)|
      ensures agents[p].user == old(agents)[p].user && agents[p].role == old(agents)[p].role
      ensures agents[p].pc == Registered && agents[p].open && conns == old(conns)[agents[p].user := p]
      ensures agents[p].user in old(conns) && old(conns)[agents[p].user] != p ==>
                var c := old(conns)[agents[p].user]; c < |agents| && agents[c] == old(agents)[c].(open := false)
      ensures Quiet(old(agents), agents)
    {
      hide Reachable, AllOk, NoReaders, HistoryOk, SentCounts;
      ReachableFacts(cfg, View());
      StepKeepsReachable(cfg, View(), Register(p));
      var user, since := agents[p].user, SentCounts(agents);
      if user in conns {
        agents := agents[conns[user] := agents[conns[user]].(open := false)];
      }
      agents := agents[p := agents[p].(pc := Registered, open := true, since := since)];
      conns := conns[user := p];
    }

    /** The snapshot, read after the sender is in the map, is the end of the log of all posts; a
        failed read gives none of it. */
    method ReadSnapshot(p: nat, ok: bool) returns (history: Option<seq<Post>>)
      requires Valid() && p < |agents| && agents[p].pc.Registered?
      modifies this`agents
      ensures Valid() && Does(cfg, old(View()), ReadHistory(p, ok), View())
      ensures history == if !cfg.history then None
                         else if ok then Some(Posts(log)[Max(0, |log| - cfg.limit)..]) else Some([])
      ensures |agents| == |old(agents)| && agents[p].pc == Idle
      ensures agents[p].open == old(agents)[p].open && agents[p].user == old(agents)[p].user
      ensures agents[p].role == old(agents)[p].role
    {
      hide Reachable, AllOk, HistoryOk, ReadNewest, Posts;
      ReachableFacts(cfg, View());
      ReadsEndOfLog(cfg, View());
      StepKeepsReachable(cfg, View(), ReadHistory(p, ok));
      var messages := if ok then ReadNewest(rows, cfg.limit) else [];
      history := if cfg.history then Some(messages) else None;
      agents := agents[p := agents[p].(pc := Idle, shown := history, readAt := if ok then Some(nextId) else None)];
    }

    /** A socket of a known member: sender registered, then snapshot read and shown. */
    method Attach(user: string, token: string, ok: bool)
      returns (p: nat, history: Option<seq<Post>>, ghost es: seq<Event>)
      requires Valid() && NoReaders(agents) && HasToken(members, user, token)
      modifies this`agents, this`conns
      ensures Valid() && Reaches(cfg, old(View()), es, View())
      ensures p < |agents| && agents[p].pc == Idle && agents[p].open && conns == old(conns)[user := p]
      ensures agents[p].user == user && agents[p].role == members[user].role
      ensures history == if !cfg.history then None
                         else if ok then Some(Posts(log)[Max(0, |log| - cfg.limit)..]) else Some([])
    {
      hide Reaches, Step, Reachable, Posts, NoReaders;
      ghost var start := View();
      p := |agents|;
      OneStep(cfg, start, Connect(user, token));
      ConnectMember(user, token);
      ghost var connected := View();
      RegisterSender(p);
      RunThenStep(cfg, start, [Connect(user, token)], connected, Register(p));
      ghost var registered := View();
      history := ReadSnapshot(p, ok);
      RunThenStep(cfg, start, [Connect(user, token)] + [Register(p)], registered, ReadHistory(p, ok));
      es := [Connect(user, token)] + [Register(p)] + [ReadHistory(p, ok)];
    }

    /** The upgrade. */
    method OpenSocket(token: string, ok: bool)
      returns (p: Option<nat>, history: Option<seq<Post>>, ghost es: seq<Event>)
      requires Valid() && NoReaders(agents)
      modifies this`agents, this`conns
      ensures Valid() && Reaches(cfg, old(View()), es, View())
      ensures p.None? <==> forall u :: u in members ==> !HasToken(members, u, token)
      ensures p.None? ==> View() == old(View())
      ensures p.Some? ==>
                p.value < |agents| && agents[p.value].pc == Idle && agents[p.value].open
                && var u := agents[p.value].user;
                   HasToken(members, u, token) && agents[p.value].role == members[u].role
                   && conns == old(conns)[u := p.value]
      ensures p.Some? ==>
                history == if !cfg.history then None
                           else if ok then Some(Posts(log)[Max(0, |log| - cfg.limit)..]) else Some([])
    {
      hide Reaches, Reachable, Posts;
      es, history := [], None;
      NoEvents(cfg, View());
      var user := ResolveMember(token);
      if user.None? {
        return None, None, es;
      }
      var c;
      c, history, es := Attach(user.value, token, ok);
      return Some(c), history, es;
    }

    method InsertPost(p: nat, data: string, ts: int, stored: bool) returns (filed: bool)
      requires Valid() && p < |agents| && agents[p].pc.Idle?
      modifies this`agents, this`rows, this`nextId, this`log
      ensures Valid() && Does(cfg, old(View()), Receive(p, data, ts, stored), View())
      ensures filed <==> !cfg.broadcastOnly || old(agents)[p].role == Owner || old(agents)[p].role == Admin
      ensures !filed ==> View() == old(View())
      ensures filed ==> agents == old(agents)[p := old(agents)[p].(pc := Filed(Post(old(agents)[p].user, data, ts)))]
      ensures var post := Post(old(agents)[p].user, data, ts);
              if filed && stored
              then rows == old(rows)[old(nextId) := post] && log == old(log) + [Entry(post, p, |old(agents)[p].sent|)]
              else rows == old(rows) && log == old(log)
      ensures Quiet(old(agents), agents)
    {
      hide Reachable;
      StepKeepsReachable(cfg, View(), Receive(p, data, ts, stored));
      var a := agents[p];
      if cfg.broadcastOnly && a.role != Owner && a.role != Admin {
        return false;
      }
      var post := Post(a.user, data, ts);
      agents := agents[p := a.(pc := Filed(post))];
      if stored {
        rows := rows[nextId := post];
        nextId := nextId + 1;
        log := log + [Entry(post, p, |a.sent|)];
      }
      return true;
    }

    method TrimPosts(p: nat, ok: bool)
      requires Valid() && p < |agents| && agents[p].pc.Filed?
      modifies this`agents, this`rows, this`failedTrims
      ensures Valid() && Does(cfg, old(View()), TrimHistory(p, ok), View())
      ensures agents == old(agents)[p := old(agents)[p].(pc := Trimmed(old(agents)[p].pc.post))]
      ensures Quiet(old(agents), agents)
    {
      hide NewestIds, Reachable;
      StepKeepsReachable(cfg, View(), TrimHistory(p, ok));
      agents := agents[p := agents[p].(pc := Trimmed(agents[p].pc.post))];
      if ok {
        var newest := NewestIds(rows.Keys, cfg.limit);
        rows := map id | id in rows && id in newest :: rows[id];
      } else {
        failedTrims := failedTrims + 1;
      }
    }

    /** The arm for a message: insert, trim, broadcast, with the failures of the statements
        ignored as they are. Every connection in the map, the poster's own too, gets the message
        once; what was stored and trimmed makes no difference to that. */
    method PostMessage(p: nat, data: string, ts: int, stored: bool, trimmed: bool)
      returns (posted: bool, ghost es: seq<Event>)
      requires Valid() && p < |agents| && agents[p].pc == Idle
      modifies this`agents, this`rows, this`nextId, this`log, this`failedTrims
      ensures Valid() && Reaches(cfg, old(View()), es, View())
      ensures posted <==> !cfg.broadcastOnly || old(agents)[p].role == Owner || old(agents)[p].role == Admin
      ensures !posted ==> View() == old(View())
      ensures posted ==> |agents| == |old(agents)| && agents[p].pc == Idle
                         && Told(old(agents), conns, Frame(p, Chat(Post(old(agents)[p].user, data, ts))), agents)
      ensures Posts(log) == Posts(old(log))
                          + if posted && stored then [Post(old(agents)[p].user, data, ts)] else []
    {
      hide AfterBroadcast, Reaches, Step, Reachable, Told, Quiet;
      ghost var start := View();
      es := [];
      NoEvents(cfg, start);
      posted := InsertPost(p, data, ts, stored);
      RunThenStep(cfg, start, es, start, Receive(p, data, ts, stored));
      es := es + [Receive(p, data, ts, stored)];
      if !posted {
        return false, es;
      }
      ghost var filed := View();
      TrimPosts(p, trimmed);
      RunThenStep(cfg, start, es, filed, TrimHistory(p, trimmed));
      es := es + [TrimHistory(p, trimmed)];
      ghost var ready := View();
      QuietTwice(start.agents, filed.agents, ready.agents);
      ghost var sends := Broadcast(p);
      QuietThenTold(start.agents, ready.agents, conns, Frame(p, NextBody(ready.agents[p])), agents);
      RunThenRun(cfg, start, es, ready, sends, View());
      es := es + sends;
    }

    /** The arm for the channel: the next frame goes to the socket, or the channel has ended. */
    method TakeFrame(p: nat, written: bool) returns (frame: Option<Frame>)
      requires Valid() && p < |agents| && agents[p].pc.Idle? && (agents[p].queue != [] || !agents[p].open)
      modifies this`agents
      ensures Valid() && Does(cfg, old(View()), Pop(p, written), View())
      ensures var a := old(agents)[p];
              if a.queue == [] then frame == None && agents == old(agents)[p := a.(pc := Exiting)]
              else frame == Some(a.queue[0])
                   && agents == old(agents)[p := a.(queue := a.queue[1..], popped := a.popped + [a.queue[0]],
                                                    pc := if written then Idle else Exiting)]
    {
      hide Reachable;
      StepKeepsReachable(cfg, View(), Pop(p, written));
      var a := agents[p];
      if a.queue == [] {
        agents := agents[p := a.(pc := Exiting)];
        return None;
      }
      agents := agents[p := a.(queue := a.queue[1..], popped := a.popped + [a.queue[0]],
                               pc := if written then Idle else Exiting)];
      return Some(a.queue[0]);
    }

    /** The arm of the socket when it ends or fails. */
    method LeaveLoop(p: nat)
      requires Valid() && p < |agents| && agents[p].pc.Idle?
      modifies this`agents
      ensures Valid() && Does(cfg, old(View()), SocketEnds(p), View())
      ensures agents == old(agents)[p := old(agents)[p].(pc := Exiting)]
    {
      hide Reachable;
      StepKeepsReachable(cfg, View(), SocketEnds(p));
      agents := agents[p := agents[p].(pc := Exiting)];
    }

    method RemoveSender(p: nat)
      requires Valid() && p < |agents| && agents[p].pc.Exiting? && NoReaders(agents)
      modifies this`agents, this`conns
      ensures Valid() && Does(cfg, old(View()), Unregister(p), View()) && Quiet(old(agents), agents)
      ensures |agents| == |old(agents)| && agents[p].pc == Unlisted && agents[p].user == old(agents)[p].user
      ensures conns == old(conns) - {old(agents)[p].user}
      ensures old(agents)[p].user in old(conns) ==>
                var c := old(conns)[old(agents)[p].user]; c < |agents| && !agents[c].open
    {
      hide Reachable, AllOk, NoReaders, HistoryOk;
      ReachableFacts(cfg, View());
      StepKeepsReachable(cfg, View(), Unregister(p));
      var user := agents[p].user;
      if user in conns {
        agents := agents[conns[user] := agents[conns[user]].(open := false)];
      }
      conns := conns - {user};
      agents := agents[p := agents[p].(pc := Unlisted)];
    }

    /** After the loop: the entry under the name goes, whosever it is, and those still in the map are
        told. */
    method CloseSocket(p: nat) returns (ghost es: seq<Event>)
      requires Valid() && p < |agents| && agents[p].pc.Exiting? && NoReaders(agents)
      modifies this`agents, this`conns
      ensures Valid() && Reaches(cfg, old(View()), es, View())
      ensures conns == old(conns) - {old(agents)[p].user} && |agents| == |old(agents)| && agents[p].pc == Gone
      ensures Told(old(agents), conns, Frame(p, LeaveNote(old(agents)[p].user)), agents)
    {
      hide AfterBroadcast, Reaches, Step, Reachable, Told, Quiet;
      ghost var start := View();
      OneStep(cfg, start, Unregister(p));
      RemoveSender(p);
      ghost var unlisted := View();
      ghost var sends := Broadcast(p);
      QuietThenTold(start.agents, unlisted.agents, conns, Frame(p, LeaveNote(start.agents[p].user)), agents);
      RunThenRun(cfg, start, [Unregister(p)], unlisted, sends, View());
      es := [Unregister(p)] + sends;
    }

    // -------------------------------------------------------------------------
    // group_history

    method GroupHistory(token: string) returns (messages: Option<seq<Post>>)
      requires Valid()
      ensures messages.None? <==> forall u :: u in members ==> !HasToken(members, u, token)
      ensures messages.Some? ==> messages.value == Posts(log)[Max(0, |log| - cfg.limit)..]
    {
      hide Reachable, AllOk, HistoryOk, ReadNewest, Posts;
      ReachableFacts(cfg, View());
      ReadsEndOfLog(cfg, View());
      var user := ResolveMember(token);
      if user.None? {
        return None;
      }
      return Some(ReadNewest(rows, cfg.limit));
    }
  }
}

/** The group room of src/group.rs: connections, posted messages, the trimmed history and the
    member table, interleaved at every lock and SQL statement.

    Each WebSocket handler and each join or leave request is an agent, known by its number. A
    message's row id is its position in `log`, the list of all messages ever inserted; `log`,
    `sent`, `enqueued` and `popped` record the past and are not part of the server. */
module Room {
  import opened Common

  datatype Role = Owner | Admin | Plain

  datatype Post = Post(sender: string, data: string, ts: int)
  datatype Body = Chat(post: Post) | JoinNote(user: string, role: Role) | LeaveNote(user: string)

  /** A broadcast frame, marked with the agent that broadcasts it. */
  datatype Frame = Frame(from: nat, body: Body)

  /** `post` became row `log[..]`; it is, or will be, the broadcast number `nth` of its agent. */
  datatype Entry = Entry(post: Post, agent: nat, nth: nat)

  datatype Member = Member(role: Role, token: string)

  /** Where an agent stands. A connection: channel made, entered in the map, in its loop, message
      inserted, history trimmed, loop left, taken out of the map. A join: room checked, members
      counted, row written. A leave: member found, row deleted. `Sending` holds the read lock
      with the receivers still to come; `back` says whether the agent returns to its loop. */
  datatype Pc =
    | Fresh | Registered | Idle | Filed(post: Post) | Trimmed(post: Post) | Exiting | Unlisted
    | Checked | Counted(grant: Role) | Upserted(note: Role) | Resolved | Deleted
    | Sending(todo: set<nat>, back: bool) | Gone

  /** `open`: the sender of its channel is alive. `since`: how many frames each agent had
      broadcast when it registered. `shown`: the history frame. `readAt`: the length of the log
      when the history was read, if the read succeeded. */
  datatype Agent = Agent(
    user: string, role: Role, pc: Pc, open: bool, queue: seq<Frame>, enqueued: seq<Frame>, popped: seq<Frame>,
    since: seq<nat>, sent: seq<Frame>, shown: Option<seq<Post>>, readAt: Option<nat>)

  datatype Config = Config(limit: nat, history: bool, broadcastOnly: bool, maxMembers: nat)

  /** `grants`: the users for whom a join saw no members; `misgrants`: for whom the count failed. */
  datatype State = State(
    conns: map<string, nat>, rows: map<nat, Post>, members: map<string, Member>, agents: seq<Agent>,
    log: seq<Entry>, grants: set<string>, misgrants: set<string>, failedTrims: nat)

  const START := State(map[], map[], map[], [], [], {}, {}, 0)

  function NewAgent(user: string, role: Role, pc: Pc): Agent {
    Agent(user, role, pc, false, [], [], [], [], [], None, None)
  }

  // ---------------------------------------------------------------------------
  // Statements on the message table

  predicate IsLargest(m: nat, ids: set<nat>) {
    m in ids && forall i :: i in ids ==> i <= m
  }

  lemma LargerOfBoth(ids: set<nat>, k: nat, n: nat)
    requires k in ids && IsLargest(n, ids - {k})
    ensures IsLargest(if n < k then k else n, ids)
  {
    forall i | i in ids
      ensures i <= k || i <= n
    {
      assert i == k || i in ids - {k};
    }
  }

  lemma LargestExists(ids: set<nat>)
    requires ids != {}
    ensures exists m :: IsLargest(m, ids)
  {
    var k :| k in ids;
    var rest := ids - {k};
    if rest == {} {
      assert ids == {k};
      assert IsLargest(k, ids);
    } else {
      LargestExists(rest);
      var n :| IsLargest(n, rest);
      LargerOfBoth(ids, k, n);
    }
  }

  function Largest(ids: set<nat>): (m: nat)
    requires ids != {}
    ensures IsLargest(m, ids)
  {
    LargestExists(ids);
    var m :| m in ids && IsLargest(m, ids);
    m
  }

  /** `SELECT id ... ORDER BY id DESC LIMIT n` */
  function NewestIds(ids: set<nat>, n: nat): set<nat> {
    if n == 0 || ids == {} then {}
    else var m := Largest(ids); {m} + NewestIds(ids - {m}, n - 1)
  }

  /** `SELECT ... ORDER BY id DESC LIMIT n`, reversed. */
  function ReadNewest(rows: map<nat, Post>, n: nat): seq<Post>
    decreases n
  {
    if n == 0 || rows == map[] then []
    else
      assert rows.Keys != {};
      var m := Largest(rows.Keys);
      ReadNewest(rows - {m}, n - 1) + [rows[m]]
  }

  /** `DELETE ... WHERE id NOT IN (SELECT id ... ORDER BY id DESC LIMIT n)` */
  function Trim(rows: map<nat, Post>, n: nat): map<nat, Post> {
    var newest := NewestIds(rows.Keys, n);
    map id | id in rows && id in newest :: rows[id]
  }

  // ---------------------------------------------------------------------------
  // Steps

  datatype Event =
    | JoinChecks(user: string, miscounted: bool) | JoinCounts(p: nat, failed: bool) | JoinUpserts(p: nat, token: string)
    | LeaveResolves(user: string, token: string) | LeaveDeletes(p: nat) | GivesUp(p: nat)
    | Connect(user: string, token: string) | Register(p: nat) | ReadHistory(p: nat, ok: bool)
    | Receive(p: nat, data: string, ts: int, stored: bool) | TrimHistory(p: nat, ok: bool)
    | Lock(p: nat) | Send(p: nat, c: nat) | Unlock(p: nat)
    | Pop(p: nat, ok: bool) | SocketEnds(p: nat) | Unregister(p: nat)

  predicate NoReaders(agents: seq<Agent>) {
    forall p :: 0 <= p < |agents| ==> !agents[p].pc.Sending?
  }

  predicate HasToken(members: map<string, Member>, user: string, token: string) {
    user in members && members[user].token == token
  }

  predicate ReadyToSend(pc: Pc) {
    pc.Trimmed? || pc.Unlisted? || pc.Upserted? || pc.Deleted?
  }

  predicate Enabled(cfg: Config, s: State, e: Event) {
    match e
    case JoinChecks(_, miscounted) => cfg.maxMembers == 0 || miscounted || |s.members| < cfg.maxMembers
    case JoinCounts(p, _) => p < |s.agents| && s.agents[p].pc.Checked?
    case JoinUpserts(p, token) =>
      p < |s.agents| && s.agents[p].pc.Counted? && forall u :: u in s.members ==> s.members[u].token != token
    case LeaveResolves(user, token) => HasToken(s.members, user, token)
    case LeaveDeletes(p) => p < |s.agents| && s.agents[p].pc.Resolved?
    case GivesUp(p) =>
      p < |s.agents| && (s.agents[p].pc.Checked? || s.agents[p].pc.Counted? || s.agents[p].pc.Resolved?)
    case Connect(user, token) => HasToken(s.members, user, token)
    case Register(p) => p < |s.agents| && s.agents[p].pc.Fresh? && NoReaders(s.agents)
    case ReadHistory(p, _) => p < |s.agents| && s.agents[p].pc.Registered?
    case Receive(p, _, _, _) => p < |s.agents| && s.agents[p].pc.Idle?
    case TrimHistory(p, _) => p < |s.agents| && s.agents[p].pc.Filed?
    case Lock(p) => p < |s.agents| && ReadyToSend(s.agents[p].pc)
    case Send(p, c) => p < |s.agents| && s.agents[p].pc.Sending? && c in s.agents[p].pc.todo
    case Unlock(p) => p < |s.agents| && s.agents[p].pc.Sending? && s.agents[p].pc.todo == {}
    case Pop(p, _) => p < |s.agents| && s.agents[p].pc.Idle? && (s.agents[p].queue != [] || !s.agents[p].open)
    case SocketEnds(p) => p < |s.agents| && s.agents[p].pc.Idle?
    case Unregister(p) => p < |s.agents| && s.agents[p].pc.Exiting? && NoReaders(s.agents)
  }

  /** Dropping the sender that the map holds for `user`, if it holds one. */
  function Close(conns: map<string, nat>, agents: seq<Agent>, user: string): seq<Agent> {
    if user in conns && conns[user] < |agents|
    then agents[conns[user] := agents[conns[user]].(open := false)] else agents
  }

  predicate Muted(cfg: Config, role: Role) {
    cfg.broadcastOnly && role != Owner && role != Admin
  }

  /** The frame an agent broadcasts next. */
  function NextBody(a: Agent): Body {
    if a.pc.Trimmed? then Chat(a.pc.post)
    else if a.pc.Upserted? then JoinNote(a.user, a.pc.note)
    else LeaveNote(a.user)
  }

  function SentCounts(agents: seq<Agent>): seq<nat> {
    seq(|agents|, i requires 0 <= i < |agents| => |agents[i].sent|)
  }

  function RegisterAgent(s: State, p: nat): State
    requires p < |s.agents|
  {
    var a := s.agents[p];
    s.(agents := Close(s.conns, s.agents, a.user)[
         p := a.(pc := Registered, open := true, since := SentCounts(s.agents))],
       conns := s.conns[a.user := p])
  }

  function Store(cfg: Config, s: State, p: nat, post: Post, stored: bool): State
    requires p < |s.agents|
  {
    var a := s.agents[p];
    if Muted(cfg, a.role) then s
    else
      var filed := s.(agents := s.agents[p := a.(pc := Filed(post))]);
      if stored
      then filed.(rows := s.rows[|s.log| := post], log := s.log + [Entry(post, p, |a.sent|)])
      else filed
  }

  function Deliver(s: State, p: nat, c: nat): State
    requires p < |s.agents| && s.agents[p].pc.Sending? && s.agents[p].sent != []
  {
    var a := s.agents[p];
    var frame := a.sent[|a.sent| - 1];
    var agents := s.agents[p := a.(pc := Sending(a.pc.todo - {c}, a.pc.back))];
    if c < |agents|
    then s.(agents := agents[
           c := agents[c].(queue := agents[c].queue + [frame], enqueued := agents[c].enqueued + [frame])])
    else s.(agents := agents)
  }

  function Step(cfg: Config, s: State, e: Event): State
    requires Enabled(cfg, s, e)
  {
    match e
    case JoinChecks(user, _) => s.(agents := s.agents + [NewAgent(user, Plain, Checked)])
    case JoinCounts(p, failed) =>
      var first := failed || s.members == map[];
      var a := s.agents[p];
      s.(agents := s.agents[p := a.(pc := Counted(if first then Owner else Plain))],
         grants := if s.members == map[] then s.grants + {a.user} else s.grants,
         misgrants := if failed then s.misgrants + {a.user} else s.misgrants)
    case JoinUpserts(p, token) =>
      var a := s.agents[p];
      var role := if a.user in s.members then s.members[a.user].role else a.pc.grant;
      s.(members := s.members[a.user := Member(role, token)],
         agents := s.agents[p := a.(pc := Upserted(a.pc.grant))])
    case LeaveResolves(user, _) => s.(agents := s.agents + [NewAgent(user, Plain, Resolved)])
    case LeaveDeletes(p) =>
      s.(members := s.members - {s.agents[p].user}, agents := s.agents[p := s.agents[p].(pc := Deleted)])
    case GivesUp(p) => s.(agents := s.agents[p := s.agents[p].(pc := Gone)])
    case Connect(user, _) => s.(agents := s.agents + [NewAgent(user, s.members[user].role, Fresh)])
    case Register(p) => RegisterAgent(s, p)
    case ReadHistory(p, ok) =>
      var read := if ok then ReadNewest(s.rows, cfg.limit) else [];
      s.(agents := s.agents[p := s.agents[p].(
           pc := Idle, shown := if cfg.history then Some(read) else None,
           readAt := if ok then Some(|s.log|) else None)])
    case Receive(p, data, ts, stored) => Store(cfg, s, p, Post(s.agents[p].user, data, ts), stored)
    case TrimHistory(p, ok) =>
      s.(agents := s.agents[p := s.agents[p].(pc := Trimmed(s.agents[p].pc.post))],
         rows := if ok then Trim(s.rows, cfg.limit) else s.rows,
         failedTrims := if ok then s.failedTrims else s.failedTrims + 1)
    case Lock(p) =>
      var a := s.agents[p];
      s.(agents := s.agents[p := a.(pc := Sending(s.conns.Values, a.pc.Trimmed?),
                                    sent := a.sent + [Frame(p, NextBody(a))])])
    case Send(p, c) => if s.agents[p].sent != [] then Deliver(s, p, c) else s
    case Unlock(p) =>
      s.(agents := s.agents[p := s.agents[p].(pc := if s.agents[p].pc.back then Idle else Gone)])
    case Pop(p, ok) =>
      var a := s.agents[p];
      if a.queue != [] then
        s.(agents := s.agents[p := a.(queue := a.queue[1..], popped := a.popped + [a.queue[0]],
                                      pc := if ok then Idle else Exiting)])
      else s.(agents := s.agents[p := a.(pc := Exiting)])
    case SocketEnds(p) => s.(agents := s.agents[p := s.agents[p].(pc := Exiting)])
    case Unregister(p) =>
      var agents := Close(s.conns, s.agents, s.agents[p].user);
      s.(conns := s.conns - {s.agents[p].user}, agents := agents[p := agents[p].(pc := Unlisted)])
  }

  ghost predicate Reaches(cfg: Config, before: State, es: seq<Event>, after: State)
    decreases |es|
  {
    if es == [] then before == after
    else Enabled(cfg, before, es[0]) && Reaches(cfg, Step(cfg, before, es[0]), es[1..], after)
  }

  // ---------------------------------------------------------------------------
  // Runs

  lemma OneStep(cfg: Config, s: State, e: Event)
    requires Enabled(cfg, s, e)
    ensures Reaches(cfg, s, [e], Step(cfg, s, e))
  {
    hide Enabled, Step;
    assert [e][1..] == [];
  }

  lemma {:induction false} RunThenRun(cfg: Config, s: State, es: seq<Event>, t: State, fs: seq<Event>, u: State)
    requires Reaches(cfg, s, es, t) && Reaches(cfg, t, fs, u)
    ensures Reaches(cfg, s, es + fs, u)
    decreases |es|
  {
    hide Enabled, Step;
    if es == [] {
      assert es + fs == fs;
    } else {
      RunThenRun(cfg, Step(cfg, s, es[0]), es[1..], t, fs, u);
      assert (es + fs)[1..] == es[1..] + fs;
    }
  }

  lemma NoEvents(cfg: Config, s: State)
    ensures Reaches(cfg, s, [], s)
  {}

  lemma RunThenStep(cfg: Config, s: State, es: seq<Event>, t: State, e: Event)
    requires Reaches(cfg, s, es, t) && Enabled(cfg, t, e)
    ensures Reaches(cfg, s, es + [e], Step(cfg, t, e))
  {
    hide Enabled, Step, Reaches;
    OneStep(cfg, t, e);
    RunThenRun(cfg, s, es, t, [e], Step(cfg, t, e));
  }

  lemma TwoSteps(cfg: Config, s: State, e: Event, t: State, f: Event, u: State)
    requires Enabled(cfg, s, e) && t == Step(cfg, s, e) && Enabled(cfg, t, f) && u == Step(cfg, t, f)
    ensures Reaches(cfg, s, [e, f], u)
  {
    hide Enabled, Step, Reaches;
    OneStep(cfg, s, e);
    RunThenStep(cfg, s, [e], t, f);
    assert [e] + [f] == [e, f];
  }
}

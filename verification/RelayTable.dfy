/** The relay session tables of src/state.rs and the handlers of src/relay.rs that move sessions
    through them, interleaved at every lock: `relay_create`, `relay_ws` and `cleanup_loop`.

    Every admitted creator upgrade builds one `PendingRelay`; it is known by the number of the
    upgrade, its index in `arcs`. A token and its hash are the same string here. */
module RelayTable {
  import opened Common
  import P = RelayPipe

  datatype Config = Config(maxSessions: nat, timeout: nat)

  datatype Session = Session(tokenA: string, tokenB: string)
  datatype Initialized = Initialized(tokens: Session, createdAt: Instant)

  /** How far a creator upgrade has come: the table entry cloned, the record built, the entry
      removed, the record published and the task spawned. */
  datatype Stage = Cloned | Built | Removed | Serving

  /** `tokenA` was presented by the creator, `guests` by the joiners admitted to the record. */
  datatype Arc = Arc(
    sid: string, tokenA: string, tokenB: string, createdAt: Instant, deadline: Instant,
    stage: Stage, guests: seq<string>, pipe: P.Pipe)

  datatype Sweeper = Asleep | Awake(now: Instant) | InitSwept(now: Instant)

  /** `sessions` records the identifiers handed out so far; it is not part of the server. */
  datatype State = State(
    now: Instant, init: map<string, Initialized>, pending: map<string, nat>,
    sessions: map<string, Session>, creating: nat, arcs: seq<Arc>, sweeper: Sweeper, lastSweep: Instant)

  const START := State(0, map[], map[], map[], 0, [], Asleep, 0)

  datatype Event =
    | CreateCheck | CreateFails | CreateInsert(id: string, tokens: Session)
    | CloneInit(sid: string, token: string) | Build(h: nat) | RemoveInit(h: nat) | InsertPending(h: nat)
    | AdmitJoiner(sid: string, token: string)
    | Task(k: nat, e: P.Event)
    | SweepBegin | SweepInit | SweepPending
    | Tick(elapsed: nat)

  function Grace(cfg: Config): nat {
    cfg.timeout + 30 * SECOND
  }

  /** The record as its handler leaves it, one table entry fewer. */
  function Forget(a: Arc): Arc {
    a.(pipe := a.pipe.(holders := a.pipe.holders - {P.Table}))
  }

  function ForgetAt(arcs: seq<Arc>, pending: map<string, nat>, sid: string): seq<Arc> {
    if sid in pending && pending[sid] < |arcs| then arcs[pending[sid] := Forget(arcs[pending[sid]])] else arcs
  }

  /** Dropping the entry under `sid`, if there is one. */
  function Unlisted(s: State, sid: string): State {
    s.(pending := s.pending - {sid}, arcs := ForgetAt(s.arcs, s.pending, sid))
  }

  predicate Stale(cfg: Config, now: Instant, createdAt: Instant) {
    !(Since(now, createdAt) < Grace(cfg))
  }

  predicate StalePending(cfg: Config, s: State, now: Instant, sid: string) {
    sid in s.pending && s.pending[sid] < |s.arcs| && Stale(cfg, now, s.arcs[s.pending[sid]].createdAt)
  }

  /** `retain` on the pending table, dropping the references of the entries it removes. */
  function SweptArcs(cfg: Config, s: State, now: Instant): (arcs: seq<Arc>)
    ensures |arcs| == |s.arcs|
  {
    seq(|s.arcs|, i requires 0 <= i < |s.arcs| =>
      if exists sid :: sid in s.pending && s.pending[sid] == i && StalePending(cfg, s, now, sid)
      then Forget(s.arcs[i]) else s.arcs[i])
  }

  predicate Enabled(cfg: Config, s: State, e: Event) {
    match e
    case CreateCheck => cfg.maxSessions == 0 || |s.init| + |s.pending| < cfg.maxSessions
    case CreateFails => s.creating > 0
    case CreateInsert(id, _) => s.creating > 0 && id !in s.sessions
    case CloneInit(sid, token) => sid in s.init && s.init[sid].tokens.tokenA == token
    case Build(h) => h < |s.arcs| && s.arcs[h].stage == Cloned
    case RemoveInit(h) => h < |s.arcs| && s.arcs[h].stage == Built
    case InsertPending(h) => h < |s.arcs| && s.arcs[h].stage == Removed
    case AdmitJoiner(sid, token) =>
      sid in s.pending && s.pending[sid] < |s.arcs| && s.arcs[s.pending[sid]].tokenB == token
    case Task(k, e) =>
      k < |s.arcs| && s.arcs[k].stage == Serving && P.OfTask(e) && P.Enabled(s.arcs[k].pipe, e)
      && (e.DeadlinePasses? ==> s.arcs[k].deadline <= s.now)
    case SweepBegin => s.sweeper == Asleep && s.lastSweep + 60 * SECOND <= s.now
    case SweepInit => s.sweeper.Awake?
    case SweepPending => s.sweeper.InitSwept?
    case Tick(_) => true
  }

  /** The pipe's own event, or the pipe itself where the event is not possible. */
  function Admitted(p: P.Pipe): P.Pipe {
    if P.Enabled(p, P.Admit) then P.Step(p, P.Admit) else p
  }

  function Published(p: P.Pipe): P.Pipe {
    if P.Enabled(p, P.Publish) then P.Step(p, P.Publish) else p
  }

  /** Inserting the record under its session id replaces what was there. */
  function PublishArc(s: State, h: nat): State
    requires h < |s.arcs|
  {
    var a, u := s.arcs[h], Unlisted(s, s.arcs[h].sid);
    u.(pending := u.pending[a.sid := h],
       arcs := u.arcs[h := a.(stage := Serving, pipe := Published(a.pipe))])
  }

  /** A step of a task; the creator's withdrawal also removes the entry under its session id. */
  function RunTask(cfg: Config, s: State, k: nat, e: P.Event): State
    requires k < |s.arcs| && P.Enabled(s.arcs[k].pipe, e)
  {
    var a := s.arcs[k];
    var deadline := if e.CreatorStarts? then s.now + cfg.timeout else a.deadline;
    var t := s.(arcs := s.arcs[k := a.(pipe := P.Step(a.pipe, e), deadline := deadline)]);
    if e.CreatorWithdraws? then Unlisted(t, a.sid) else t
  }

  function Step(cfg: Config, s: State, e: Event): State
    requires Enabled(cfg, s, e)
  {
    match e
    case CreateCheck => s.(creating := s.creating + 1)
    case CreateFails => s.(creating := s.creating - 1)
    case CreateInsert(id, tokens) =>
      s.(creating := s.creating - 1, sessions := s.sessions[id := tokens],
         init := s.init[id := Initialized(tokens, s.now)])
    case CloneInit(sid, token) =>
      s.(arcs := s.arcs + [Arc(sid, token, s.init[sid].tokens.tokenB, s.now, s.now, Cloned, [], P.NEW_PIPE)])
    case Build(h) => s.(arcs := s.arcs[h := s.arcs[h].(stage := Built, createdAt := s.now)])
    case RemoveInit(h) =>
      s.(init := s.init - {s.arcs[h].sid}, arcs := s.arcs[h := s.arcs[h].(stage := Removed)])
    case InsertPending(h) => PublishArc(s, h)
    case AdmitJoiner(sid, token) =>
      var k := s.pending[sid];
      var a := s.arcs[k];
      s.(pending := s.pending - {sid},
         arcs := s.arcs[k := a.(guests := a.guests + [token], pipe := Admitted(a.pipe))])
    case Task(k, e) => RunTask(cfg, s, k, e)
    case SweepBegin => s.(sweeper := Awake(s.now))
    case SweepInit =>
      s.(init := map sid | sid in s.init && !Stale(cfg, s.sweeper.now, s.init[sid].createdAt) :: s.init[sid],
         sweeper := InitSwept(s.sweeper.now))
    case SweepPending =>
      s.(pending := map sid | sid in s.pending && !StalePending(cfg, s, s.sweeper.now, sid) :: s.pending[sid],
         arcs := SweptArcs(cfg, s, s.sweeper.now),
         sweeper := Asleep, lastSweep := s.sweeper.now)
    case Tick(d) => s.(now := s.now + d)
  }

  // ---------------------------------------------------------------------------
  // Runs

  function Upgrading(arcs: seq<Arc>): set<nat> {
    set h: nat | h < |arcs| && arcs[h].stage != Serving
  }

  /** What is known of the schedule. `Racing`: nothing. `Limited`: at most so many creations and
      creator upgrades together are under way at any time. `Capped`: at most so many of each.
      `Serial`: nothing else happens while a creator upgrade is under way. `Timely`: moreover the
      sweeper starts on time and is quick. */
  datatype Schedule = Racing | Limited(handlers: nat) | Capped(creations: nat, upgrades: nat) | Serial | Timely

  predicate AdvancesUpgrade(e: Event, h: nat) {
    e == Build(h) || e == RemoveInit(h) || e == InsertPending(h)
  }

  predicate Allows(sched: Schedule, cfg: Config, s: State, e: Event)
    requires Enabled(cfg, s, e)
  {
    match sched
    case Racing => true
    case Limited(m) => var t := Step(cfg, s, e); t.creating + |Upgrading(t.arcs)| <= m
    case Capped(c, r) => var t := Step(cfg, s, e); t.creating <= c && |Upgrading(t.arcs)| <= r
    case Serial => forall h :: h in Upgrading(s.arcs) ==> AdvancesUpgrade(e, h)
    case Timely =>
      (forall h :: h in Upgrading(s.arcs) ==> AdvancesUpgrade(e, h))
      && (e.Tick? ==> s.sweeper == Asleep && s.now + e.elapsed <= s.lastSweep + 60 * SECOND)
  }

  ghost predicate Reaches(sched: Schedule, cfg: Config, before: State, es: seq<Event>, after: State)
    decreases |es|
  {
    if es == [] then before == after
    else
      Enabled(cfg, before, es[0]) && Allows(sched, cfg, before, es[0])
      && Reaches(sched, cfg, Step(cfg, before, es[0]), es[1..], after)
  }

  lemma OneStep(sched: Schedule, cfg: Config, s: State, e: Event)
    requires Enabled(cfg, s, e) && Allows(sched, cfg, s, e)
    ensures Reaches(sched, cfg, s, [e], Step(cfg, s, e))
  {
    hide Enabled, Step, Allows;
    assert [e][1..] == [];
  }

  lemma {:induction false} RunThenRun(sched: Schedule, cfg: Config, s: State, es: seq<Event>, t: State, fs: seq<Event>,
                                      u: State)
    requires Reaches(sched, cfg, s, es, t) && Reaches(sched, cfg, t, fs, u)
    ensures Reaches(sched, cfg, s, es + fs, u)
    decreases |es|
  {
    hide Enabled, Step, Allows;
    if es == [] {
      assert es + fs == fs;
    } else {
      RunThenRun(sched, cfg, Step(cfg, s, es[0]), es[1..], t, fs, u);
      assert (es + fs)[1..] == es[1..] + fs;
    }
  }

  lemma RunThenStep(sched: Schedule, cfg: Config, s: State, es: seq<Event>, t: State, e: Event)
    requires Reaches(sched, cfg, s, es, t) && Enabled(cfg, t, e) && Allows(sched, cfg, t, e)
    ensures Reaches(sched, cfg, s, es + [e], Step(cfg, t, e))
  {
    hide Enabled, Step, Allows, Reaches;
    OneStep(sched, cfg, t, e);
    RunThenRun(sched, cfg, s, es, t, [e], Step(cfg, t, e));
  }

  // ---------------------------------------------------------------------------
  // Invariants under any schedule

  ghost predicate InitOk(init: map<string, Initialized>, sessions: map<string, Session>) {
    forall sid :: sid in init ==> sid in sessions && init[sid].tokens == sessions[sid]
  }

  ghost predicate ArcOk(a: Arc, sessions: map<string, Session>) {
    a.sid in sessions && a.tokenA == sessions[a.sid].tokenA && a.tokenB == sessions[a.sid].tokenB
    && P.Inv(a.pipe)
    && (a.stage != Serving ==> a.pipe == P.NEW_PIPE)
    && |a.guests| == a.pipe.admitted
    && (forall i :: 0 <= i < |a.guests| ==> a.guests[i] == a.tokenB)
  }

  ghost predicate ArcsOk(arcs: seq<Arc>, sessions: map<string, Session>) {
    forall h :: 0 <= h < |arcs| ==> ArcOk(arcs[h], sessions)
  }

  /** Once its upgrade has removed it, a session is never in the first table again. */
  ghost predicate LeftInit(init: map<string, Initialized>, arcs: seq<Arc>) {
    forall h :: 0 <= h < |arcs| && arcs[h].stage in {Removed, Serving} ==> arcs[h].sid !in init
  }

  predicate InTable(a: Arc) {
    P.Table in a.pipe.holders
  }

  /** The pending table and the records agree on who is in it. */
  ghost predicate TableOk(pending: map<string, nat>, arcs: seq<Arc>) {
    (forall sid :: sid in pending ==>
       pending[sid] < |arcs| && arcs[pending[sid]].sid == sid && InTable(arcs[pending[sid]]))
    && (forall h :: 0 <= h < |arcs| && InTable(arcs[h]) ==>
       arcs[h].sid in pending && pending[arcs[h].sid] == h)
  }

  ghost predicate Inv(s: State) {
    InitOk(s.init, s.sessions) && ArcsOk(s.arcs, s.sessions) && LeftInit(s.init, s.arcs) && TableOk(s.pending, s.arcs)
  }

  // One lemma for each event that changes what the invariant speaks about

  lemma KeepsCreateInsert(cfg: Config, s: State, id: string, tokens: Session)
    requires Inv(s) && Enabled(cfg, s, CreateInsert(id, tokens))
    ensures Inv(Step(cfg, s, CreateInsert(id, tokens)))
  {
    hide P.Inv, TableOk;
  }

  lemma KeepsCloneInit(cfg: Config, s: State, sid: string, token: string)
    requires Inv(s) && Enabled(cfg, s, CloneInit(sid, token))
    ensures Inv(Step(cfg, s, CloneInit(sid, token)))
  {
    P.NewPipeInv();
    hide P.Inv;
  }

  lemma ReplaceKeepsInv(s: State, k: nat, b: Arc)
    requires Inv(s) && k < |s.arcs| && ArcOk(b, s.sessions) && b.sid == s.arcs[k].sid
    requires b.stage in {Removed, Serving} ==> b.sid !in s.init || s.arcs[k].stage in {Removed, Serving}
    requires InTable(b) <==> InTable(s.arcs[k])
    ensures Inv(s.(arcs := s.arcs[k := b]))
  {
    hide ArcOk, InTable;
  }

  lemma KeepsBuild(cfg: Config, s: State, h: nat)
    requires Inv(s) && Enabled(cfg, s, Build(h))
    ensures Inv(Step(cfg, s, Build(h)))
  {
    hide P.Inv;
    ReplaceKeepsInv(s, h, s.arcs[h].(stage := Built, createdAt := s.now));
  }

  lemma FewerInitKeepsInv(s: State, sid: string)
    requires Inv(s)
    ensures Inv(s.(init := s.init - {sid}))
  {
    hide ArcsOk, TableOk;
  }

  lemma KeepsRemoveInit(cfg: Config, s: State, h: nat)
    requires Inv(s) && Enabled(cfg, s, RemoveInit(h))
    ensures Inv(Step(cfg, s, RemoveInit(h)))
  {
    hide P.Inv;
    FewerInitKeepsInv(s, s.arcs[h].sid);
    ReplaceKeepsInv(s.(init := s.init - {s.arcs[h].sid}), h, s.arcs[h].(stage := Removed));
  }

  lemma ForgetOk(a: Arc, sessions: map<string, Session>)
    requires ArcOk(a, sessions) && a.stage == Serving
    ensures ArcOk(Forget(a), sessions) && !InTable(Forget(a))
  {
    hide P.Inv;
    if InTable(a) {
      P.KeepsUnpublish(a.pipe);
    } else {
      assert a.pipe.holders - {P.Table} == a.pipe.holders;
    }
  }

  lemma PublishedOk(a: Arc, sessions: map<string, Session>)
    requires ArcOk(a, sessions) && a.stage == Removed
    ensures ArcOk(a.(stage := Serving, pipe := Published(a.pipe)), sessions)
    ensures InTable(a.(stage := Serving, pipe := Published(a.pipe)))
  {
    hide P.Inv;
    P.KeepsPublish(a.pipe);
  }

  lemma AdmittedOk(a: Arc, sessions: map<string, Session>, token: string)
    requires ArcOk(a, sessions) && InTable(a) && token == a.tokenB
    ensures var b := a.(guests := a.guests + [token], pipe := Admitted(a.pipe));
            ArcOk(b, sessions) && !InTable(b) && b.sid == a.sid && b.stage == a.stage == Serving
  {
    hide P.Inv;
    P.KeepsAdmit(a.pipe);
  }

  lemma TableEntryServes(s: State, sid: string)
    requires Inv(s) && sid in s.pending
    ensures s.pending[sid] < |s.arcs| && s.arcs[s.pending[sid]].stage == Serving
  {
    hide P.Inv;
  }

  lemma ForgetKeeps(a: Arc)
    ensures Forget(a).sid == a.sid && Forget(a).stage == a.stage && Forget(a).createdAt == a.createdAt
    ensures Forget(a).guests == a.guests && Forget(a).tokenA == a.tokenA && Forget(a).tokenB == a.tokenB
  {}

  lemma UnlistedKeepsInv(s: State, sid: string)
    requires Inv(s)
    ensures Inv(Unlisted(s, sid)) && sid !in Unlisted(s, sid).pending
    ensures |Unlisted(s, sid).arcs| == |s.arcs|
    ensures forall h :: 0 <= h < |s.arcs| && s.arcs[h].stage != Serving ==> Unlisted(s, sid).arcs[h] == s.arcs[h]
  {
    hide P.Inv, ArcOk, Forget;
    if sid in s.pending {
      TableEntryServes(s, sid);
      ForgetOk(s.arcs[s.pending[sid]], s.sessions);
      ForgetKeeps(s.arcs[s.pending[sid]]);
    }
  }

  lemma PartOfInv(s: State, h: nat)
    requires Inv(s) && h < |s.arcs|
    ensures ArcOk(s.arcs[h], s.sessions)
  {}

  lemma EnterKeepsInv(s: State, h: nat, b: Arc)
    requires Inv(s) && h < |s.arcs| && s.arcs[h].sid !in s.pending && s.arcs[h].stage == Removed
    requires ArcOk(b, s.sessions) && b.sid == s.arcs[h].sid && InTable(b)
    ensures Inv(s.(pending := s.pending[b.sid := h], arcs := s.arcs[h := b]))
  {
    hide ArcOk, InTable;
  }

  lemma KeepsInsertPending(cfg: Config, s: State, h: nat)
    requires Inv(s) && Enabled(cfg, s, InsertPending(h))
    ensures Inv(Step(cfg, s, InsertPending(h)))
  {
    hide P.Inv, ArcOk, Published, Unlisted, Inv, InTable;
    var a, u := s.arcs[h], Unlisted(s, s.arcs[h].sid);
    UnlistedKeepsInv(s, a.sid);
    PartOfInv(u, h);
    PublishedOk(a, u.sessions);
    EnterKeepsInv(u, h, a.(stage := Serving, pipe := Published(a.pipe)));
  }

  lemma KeepsAdmitJoiner(cfg: Config, s: State, sid: string, token: string)
    requires Inv(s) && Enabled(cfg, s, AdmitJoiner(sid, token))
    ensures Inv(Step(cfg, s, AdmitJoiner(sid, token)))
  {
    hide P.Inv, ArcOk, Admitted;
    AdmittedOk(s.arcs[s.pending[sid]], s.sessions, token);
  }

  lemma TaskOk(a: Arc, sessions: map<string, Session>, e: P.Event, deadline: Instant)
    requires ArcOk(a, sessions) && a.stage == Serving && P.Enabled(a.pipe, e) && P.OfTask(e)
    ensures var b := a.(pipe := P.Step(a.pipe, e), deadline := deadline);
            ArcOk(b, sessions) && (InTable(b) <==> InTable(a))
  {
    hide P.Inv, P.Step, P.Enabled;
    P.StepKeepsInv(a.pipe, e);
  }

  lemma KeepsTask(cfg: Config, s: State, k: nat, e: P.Event)
    requires Inv(s) && Enabled(cfg, s, Task(k, e))
    ensures Inv(Step(cfg, s, Task(k, e)))
  {
    hide P.Inv, P.Step, P.Enabled, ArcOk, ForgetAt, TableOk, LeftInit, InitOk, InTable;
    var a := s.arcs[k];
    var deadline := if e.CreatorStarts? then s.now + cfg.timeout else a.deadline;
    var b := a.(pipe := P.Step(a.pipe, e), deadline := deadline);
    TaskOk(a, s.sessions, e, deadline);
    ReplaceKeepsInv(s, k, b);
    if e.CreatorWithdraws? {
      UnlistedKeepsInv(s.(arcs := s.arcs[k := b]), a.sid);
    }
  }

  lemma KeepsSweepInit(cfg: Config, s: State)
    requires Inv(s) && Enabled(cfg, s, SweepInit)
    ensures Inv(Step(cfg, s, SweepInit))
  {
    hide P.Inv;
  }

  predicate Discards(cfg: Config, s: State, now: Instant, h: nat) {
    exists sid :: sid in s.pending && s.pending[sid] == h && StalePending(cfg, s, now, sid)
  }

  lemma SweptArc(cfg: Config, s: State, now: Instant, h: nat)
    requires Inv(s) && h < |s.arcs|
    ensures var a, b := s.arcs[h], SweptArcs(cfg, s, now)[h];
            ArcOk(b, s.sessions) && b.sid == a.sid && b.stage == a.stage
            && (InTable(b) <==> InTable(a) && !StalePending(cfg, s, now, a.sid))
  {
    hide P.Inv, ArcOk, Forget, Stale;
    ForgetKeeps(s.arcs[h]);
    if Discards(cfg, s, now, h) {
      var sid :| sid in s.pending && s.pending[sid] == h && StalePending(cfg, s, now, sid);
      TableEntryServes(s, sid);
      ForgetOk(s.arcs[h], s.sessions);
    }
  }

  lemma KeepsSweepPending(cfg: Config, s: State)
    requires Inv(s) && Enabled(cfg, s, SweepPending)
    ensures Inv(Step(cfg, s, SweepPending))
  {
    hide ArcOk, Stale, InTable, SweptArcs, StalePending;
    var now := s.sweeper.now;
    forall h | 0 <= h < |s.arcs|
      ensures var a, b := s.arcs[h], SweptArcs(cfg, s, now)[h];
              ArcOk(b, s.sessions) && b.sid == a.sid && b.stage == a.stage
              && (InTable(b) <==> InTable(a) && !StalePending(cfg, s, now, a.sid))
    {
      SweptArc(cfg, s, now, h);
    }
  }

  /** Every step, of any handler, task or of the sweeper, keeps the invariant, races included. */
  lemma StepKeepsInv(cfg: Config, s: State, e: Event)
    requires Inv(s) && Enabled(cfg, s, e)
    ensures Inv(Step(cfg, s, e))
  {
    hide InitOk, ArcsOk, LeftInit, TableOk, PublishArc, RunTask, SweptArcs, Admitted;
    match e
    case CreateInsert(id, tokens) => KeepsCreateInsert(cfg, s, id, tokens);
    case CloneInit(sid, token) => KeepsCloneInit(cfg, s, sid, token);
    case Build(h) => KeepsBuild(cfg, s, h);
    case RemoveInit(h) => KeepsRemoveInit(cfg, s, h);
    case InsertPending(h) => KeepsInsertPending(cfg, s, h);
    case AdmitJoiner(sid, token) => KeepsAdmitJoiner(cfg, s, sid, token);
    case Task(k, f) => KeepsTask(cfg, s, k, f);
    case SweepInit => KeepsSweepInit(cfg, s);
    case SweepPending => KeepsSweepPending(cfg, s);
    case _ =>
  }

  lemma {:induction false} RunKeepsInv(sched: Schedule, cfg: Config, before: State, es: seq<Event>, after: State)
    requires Inv(before) && Reaches(sched, cfg, before, es, after)
    ensures Inv(after)
    decreases |es|
  {
    hide Inv, Step, Enabled, Allows;
    if es != [] {
      StepKeepsInv(cfg, before, es[0]);
      RunKeepsInv(sched, cfg, Step(cfg, before, es[0]), es[1..], after);
    }
  }
}

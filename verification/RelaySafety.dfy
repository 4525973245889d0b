/** What the relay tables guarantee under any races: rendezvous, disjoint tables, and what
    every step leaves as it was. */
module RelaySafety {
  import opened Common
  import P = RelayPipe
  import opened RelayTable

  lemma StartInv()
    ensures Inv(START)
  {}

  lemma ReachableInv(sched: Schedule, cfg: Config, es: seq<Event>, s: State)
    requires Reaches(sched, cfg, START, es, s)
    ensures Inv(s)
  {
    StartInv();
    hide Inv, Reaches;
    RunKeepsInv(sched, cfg, START, es, s);
  }

  // ---------------------------------------------------------------------------
  // Rendezvous

  lemma PipeRendezvous(p: P.Pipe)
    requires P.Inv(p)
    ensures p.admitted <= 1
    ensures P.Enabled(p, P.CreatorStarts) ==> p.slotBToA
    ensures forall n :: P.Enabled(p, P.JoinerTakes(n)) ==> p.slotAToB
  {
    hide P.FlowAToB, P.FlowBToA, P.Quiet;
  }

  lemma DisjointHere(s: State)
    requires Inv(s)
    ensures s.init.Keys !! s.pending.Keys
  {
    forall sid | sid in s.pending
      ensures sid !in s.init
    {
      TableEntryServes(s, sid);
    }
  }

  lemma TablesSize(s: State)
    requires Inv(s)
    ensures |s.init.Keys + s.pending.Keys| == |s.init| + |s.pending|
  {
    hide Inv;
    DisjointHere(s);
  }

  /** Under any races no session is in both tables. */
  lemma TablesDisjoint(cfg: Config, es: seq<Event>, s: State)
    requires Reaches(Racing, cfg, START, es, s)
    ensures s.init.Keys !! s.pending.Keys
  {
    hide Inv, Reaches;
    ReachableInv(Racing, cfg, es, s);
    DisjointHere(s);
  }

  // ---------------------------------------------------------------------------
  // What every step leaves as it was

  ghost predicate SameClock(s: State, t: State) {
    t.now == s.now && t.lastSweep == s.lastSweep && t.sweeper == s.sweeper
  }

  ghost predicate SameSessions(before: seq<Arc>, after: seq<Arc>, now: Instant) {
    |before| <= |after|
    && forall h :: 0 <= h < |before| ==>
         after[h].sid == before[h].sid
         && (before[h].stage == Serving ==> after[h].stage == Serving)
         && (before[h].stage == Cloned ==>
               after[h].stage == Cloned || (after[h].stage == Built && after[h].createdAt == now))
         && (before[h].stage != Cloned ==> after[h].createdAt == before[h].createdAt)
  }

  ghost predicate InitMovesOn(before: map<string, Initialized>, e: Event, after: map<string, Initialized>) {
    forall sid :: sid in after ==> (e.CreateInsert? && sid == e.id) || (sid in before && after[sid] == before[sid])
  }

  ghost predicate PendingMovesOn(s: State, e: Event, after: map<string, nat>) {
    forall sid :: sid in after ==>
      (e.InsertPending? && e.h < |s.arcs| && sid == s.arcs[e.h].sid && after[sid] == e.h)
      || (sid in s.pending && after[sid] == s.pending[sid])
  }

  /** What any step does to the tables and the upgrades: upgrades keep their session and only move
      on; a session enters the first table when it is created and the second when its upgrade
      publishes it; only the clock and the sweeper change the times. */
  ghost predicate MovesOn(s: State, e: Event, t: State) {
    |t.arcs| == (if e.CloneInit? then |s.arcs| + 1 else |s.arcs|)
    && SameSessions(s.arcs, t.arcs, s.now)
    && (e.CloneInit? ==> t.arcs[|s.arcs|].sid == e.sid && t.arcs[|s.arcs|].stage == Cloned)
    && InitMovesOn(s.init, e, t.init)
    && PendingMovesOn(s, e, t.pending)
    && (e.CreateInsert? || t.sessions == s.sessions)
    && (e.Tick? || e.SweepBegin? || e.SweepInit? || e.SweepPending? || SameClock(s, t))
  }

  lemma TablesMoveOn(s: State, e: Event, t: State)
    requires !e.CloneInit? && SameSessions(s.arcs, t.arcs, s.now) && |t.arcs| == |s.arcs|
    requires InitMovesOn(s.init, e, t.init) && PendingMovesOn(s, e, t.pending)
    requires e.CreateInsert? || t.sessions == s.sessions
    requires e.Tick? || e.SweepBegin? || e.SweepInit? || e.SweepPending? || SameClock(s, t)
    ensures MovesOn(s, e, t)
  {}

  lemma UnlistedMovesOn(s: State, sid: string)
    ensures var t := Unlisted(s, sid);
            SameSessions(s.arcs, t.arcs, s.now) && |t.arcs| == |s.arcs|
            && t.pending == s.pending - {sid} && t == s.(pending := t.pending, arcs := t.arcs)
  {}

  lemma UnlistedStage(s: State, sid: string, h: nat)
    requires h < |s.arcs|
    ensures |Unlisted(s, sid).arcs| == |s.arcs|
    ensures var a, b := s.arcs[h], Unlisted(s, sid).arcs[h];
            b.sid == a.sid && b.stage == a.stage && b.createdAt == a.createdAt
  {}

  /** One record may move to a later stage. */
  lemma OneArcMovesOn(before: seq<Arc>, arcs: seq<Arc>, h: nat, b: Arc, now: Instant)
    requires SameSessions(before, arcs, now) && h < |before| == |arcs|
    requires b.sid == before[h].sid
    requires before[h].stage == Serving ==> b.stage == Serving
    requires before[h].stage == Cloned ==> b.stage == Cloned || (b.stage == Built && b.createdAt == now)
    requires before[h].stage != Cloned ==> b.createdAt == before[h].createdAt
    ensures SameSessions(before, arcs[h := b], now)
  {}

  lemma NothingMovesOn(arcs: seq<Arc>, now: Instant)
    ensures SameSessions(arcs, arcs, now)
  {}

  lemma TaskMovesOn(cfg: Config, s: State, k: nat, e: P.Event)
    requires Enabled(cfg, s, Task(k, e))
    ensures MovesOn(s, Task(k, e), RunTask(cfg, s, k, e))
  {
    hide Unlisted, P.Step, P.Enabled, P.OfTask;
    var a := s.arcs[k];
    var deadline := if e.CreatorStarts? then s.now + cfg.timeout else a.deadline;
    UnlistedMovesOn(s.(arcs := s.arcs[k := a.(pipe := P.Step(a.pipe, e), deadline := deadline)]), a.sid);
  }

  lemma SweepMovesOn(cfg: Config, s: State, now: Instant)
    ensures SameSessions(s.arcs, SweptArcs(cfg, s, now), s.now) && |SweptArcs(cfg, s, now)| == |s.arcs|
  {
    hide Stale;
  }

  lemma CloneMovesOn(cfg: Config, s: State, sid: string, token: string)
    requires Enabled(cfg, s, CloneInit(sid, token))
    ensures MovesOn(s, CloneInit(sid, token), Step(cfg, s, CloneInit(sid, token)))
  {}

  lemma BuildMovesOn(cfg: Config, s: State, h: nat)
    requires Enabled(cfg, s, Build(h))
    ensures MovesOn(s, Build(h), Step(cfg, s, Build(h)))
  {
    hide SameSessions, MovesOn;
    NothingMovesOn(s.arcs, s.now);
    OneArcMovesOn(s.arcs, s.arcs, h, s.arcs[h].(stage := Built, createdAt := s.now), s.now);
    TablesMoveOn(s, Build(h), Step(cfg, s, Build(h)));
  }

  lemma RemoveMovesOn(cfg: Config, s: State, h: nat)
    requires Enabled(cfg, s, RemoveInit(h))
    ensures MovesOn(s, RemoveInit(h), Step(cfg, s, RemoveInit(h)))
  {
    hide SameSessions, MovesOn;
    NothingMovesOn(s.arcs, s.now);
    OneArcMovesOn(s.arcs, s.arcs, h, s.arcs[h].(stage := Removed), s.now);
    TablesMoveOn(s, RemoveInit(h), Step(cfg, s, RemoveInit(h)));
  }

  lemma PublishMovesOn(cfg: Config, s: State, h: nat)
    requires Enabled(cfg, s, InsertPending(h))
    ensures MovesOn(s, InsertPending(h), PublishArc(s, h))
  {
    hide Unlisted, Published, SameSessions, MovesOn;
    var a, u := s.arcs[h], Unlisted(s, s.arcs[h].sid);
    UnlistedMovesOn(s, a.sid);
    UnlistedStage(s, a.sid, h);
    OneArcMovesOn(s.arcs, u.arcs, h, a.(stage := Serving, pipe := Published(a.pipe)), s.now);
    TablesMoveOn(s, InsertPending(h), PublishArc(s, h));
  }

  lemma AdmitMovesOn(cfg: Config, s: State, sid: string, token: string)
    requires Enabled(cfg, s, AdmitJoiner(sid, token))
    ensures MovesOn(s, AdmitJoiner(sid, token), Step(cfg, s, AdmitJoiner(sid, token)))
  {
    hide Admitted;
  }

  lemma StepMovesOn(cfg: Config, s: State, e: Event)
    requires Enabled(cfg, s, e)
    ensures MovesOn(s, e, Step(cfg, s, e))
  {
    hide MovesOn, PublishArc, RunTask, SweptArcs, Admitted, Stale, StalePending, P.Enabled, P.Step;
    match e
    case CloneInit(sid, token) => CloneMovesOn(cfg, s, sid, token);
    case Build(h) => BuildMovesOn(cfg, s, h);
    case RemoveInit(h) => RemoveMovesOn(cfg, s, h);
    case AdmitJoiner(sid, token) => AdmitMovesOn(cfg, s, sid, token);
    case InsertPending(h) => PublishMovesOn(cfg, s, h);
    case Task(k, f) => TaskMovesOn(cfg, s, k, f);
    case SweepPending =>
      SweepMovesOn(cfg, s, s.sweeper.now);
      TablesMoveOn(s, e, Step(cfg, s, e));
    case _ => TablesMoveOn(s, e, Step(cfg, s, e));
  }

  lemma {:induction false} RunKeepsSessions(sched: Schedule, cfg: Config, before: State, es: seq<Event>, after: State)
    requires Reaches(sched, cfg, before, es, after)
    ensures |before.arcs| <= |after.arcs|
    ensures forall h :: 0 <= h < |before.arcs| ==> after.arcs[h].sid == before.arcs[h].sid
    decreases |es|
  {
    hide Step, Enabled, Allows, InitMovesOn, PendingMovesOn, SameClock;
    if es != [] {
      StepMovesOn(cfg, before, es[0]);
      RunKeepsSessions(sched, cfg, Step(cfg, before, es[0]), es[1..], after);
    }
  }

  // ---------------------------------------------------------------------------
  // Whose tokens they are

  /** The identifiers handed out, each with the tokens it was created with, by the events alone. */
  function CreatedIn(es: seq<Event>): map<string, Session> {
    if es == [] then map[]
    else
      var last := es[|es| - 1];
      var before := CreatedIn(es[..|es| - 1]);
      if last.CreateInsert? then before[last.id := last.tokens] else before
  }

  lemma StepCreates(cfg: Config, s: State, e: Event)
    requires Enabled(cfg, s, e)
    ensures Step(cfg, s, e).sessions == if e.CreateInsert? then s.sessions[e.id := e.tokens] else s.sessions
  {
    hide InitMovesOn, PendingMovesOn, SameSessions, SameClock;
    StepMovesOn(cfg, s, e);
    if !e.CreateInsert? {
      hide Step;
    }
  }

  lemma {:induction false} LastStep(sched: Schedule, cfg: Config, s: State, es: seq<Event>, t: State)
    returns (mid: State)
    requires Reaches(sched, cfg, s, es, t) && es != []
    ensures Reaches(sched, cfg, s, es[..|es| - 1], mid) && Enabled(cfg, mid, es[|es| - 1])
    ensures t == Step(cfg, mid, es[|es| - 1])
    decreases |es|
  {
    hide Step, Enabled, Allows;
    var n := |es| - 1;
    if n == 0 {
      assert es[..0] == [] && es[1..] == [];
      mid := s;
    } else {
      var next := Step(cfg, s, es[0]);
      mid := LastStep(sched, cfg, next, es[1..], t);
      assert es[..n][1..] == es[1..][..n - 1] && es[..n][0] == es[0] && es[1..][n - 1] == es[n];
    }
  }

  /** The sessions known are those the run created, with the tokens given them then. */
  lemma {:induction false} SessionsAreCreated(sched: Schedule, cfg: Config, es: seq<Event>, s: State)
    requires Reaches(sched, cfg, START, es, s)
    ensures s.sessions == CreatedIn(es)
    decreases |es|
  {
    hide Step, Enabled, Allows;
    if es != [] {
      hide Reaches;
      var mid := LastStep(sched, cfg, START, es, s);
      SessionsAreCreated(sched, cfg, es[..|es| - 1], mid);
      StepCreates(cfg, mid, es[|es| - 1]);
    }
  }

  /** Under any races: a record serves one creator, who presented the first token the session was
      created with, and at most one joiner, who presented the second; both find the receivers they come for. */
  lemma RendezvousIsSafe(cfg: Config, es: seq<Event>, s: State, h: nat)
    requires Reaches(Racing, cfg, START, es, s) && h < |s.arcs|
    ensures var a := s.arcs[h];
            a.sid in CreatedIn(es) && a.tokenA == CreatedIn(es)[a.sid].tokenA
            && |a.guests| <= 1 && (forall i :: 0 <= i < |a.guests| ==> a.guests[i] == CreatedIn(es)[a.sid].tokenB)
            && (P.Enabled(a.pipe, P.CreatorStarts) ==> a.pipe.slotBToA)
            && (forall n :: P.Enabled(a.pipe, P.JoinerTakes(n)) ==> a.pipe.slotAToB)
  {
    SessionsAreCreated(Racing, cfg, es, s);
    hide P.Inv, P.Enabled, CreatedIn;
    ReachableInv(Racing, cfg, es, s);
    PartOfInv(s, h);
    PipeRendezvous(s.arcs[h].pipe);
  }
}

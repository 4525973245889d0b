/** The life of a relay session when creator upgrades are not interleaved with anything: it only
    moves forward, its tokens are used once each, and nothing stays in the tables for long. */
module RelayLifecycle {
  import opened Common
  import P = RelayPipe
  import opened RelayTable
  import opened RelaySafety

  // ---------------------------------------------------------------------------
  // Single use

  ghost predicate OneUpgradeEach(arcs: seq<Arc>) {
    forall h, k :: 0 <= h < |arcs| && 0 <= k < |arcs| && arcs[h].sid == arcs[k].sid ==> h == k
  }

  lemma NoEarlierUpgrade(cfg: Config, s: State, sid: string, token: string)
    requires Inv(s) && Enabled(cfg, s, CloneInit(sid, token)) && Allows(Serial, cfg, s, CloneInit(sid, token))
    ensures forall h :: 0 <= h < |s.arcs| ==> s.arcs[h].sid != sid
  {
    hide ArcsOk, TableOk;
    assert forall h: nat :: h !in Upgrading(s.arcs);
    forall h | 0 <= h < |s.arcs|
      ensures s.arcs[h].sid != sid
    {
      assert h !in Upgrading(s.arcs);
    }
  }

  lemma OneUpgradeWhen(s: State, e: Event, t: State)
    requires OneUpgradeEach(s.arcs) && MovesOn(s, e, t)
    requires e.CloneInit? ==> forall h :: 0 <= h < |s.arcs| ==> s.arcs[h].sid != e.sid
    ensures OneUpgradeEach(t.arcs)
  {
    hide InitMovesOn, PendingMovesOn;
  }

  lemma StepKeepsOneUpgrade(cfg: Config, s: State, e: Event)
    requires Inv(s) && OneUpgradeEach(s.arcs) && Enabled(cfg, s, e) && Allows(Serial, cfg, s, e)
    ensures OneUpgradeEach(Step(cfg, s, e).arcs)
  {
    hide Step, Enabled, Inv, Allows;
    StepMovesOn(cfg, s, e);
    if e.CloneInit? {
      NoEarlierUpgrade(cfg, s, e.sid, e.token);
    }
    OneUpgradeWhen(s, e, Step(cfg, s, e));
  }

  lemma {:induction false} RunKeepsOneUpgrade(cfg: Config, before: State, es: seq<Event>, after: State)
    requires Inv(before) && OneUpgradeEach(before.arcs) && Reaches(Serial, cfg, before, es, after)
    ensures OneUpgradeEach(after.arcs)
    decreases |es|
  {
    hide Inv, Step, Enabled, Allows, OneUpgradeEach;
    if es != [] {
      StepKeepsInv(cfg, before, es[0]);
      StepKeepsOneUpgrade(cfg, before, es[0]);
      RunKeepsOneUpgrade(cfg, Step(cfg, before, es[0]), es[1..], after);
    }
  }

  /** When upgrades are not interleaved, a session has at most one creator and at most one joiner
      in its whole life: each of its two tokens admits at most one socket. */
  lemma TokensAreSingleUse(cfg: Config, es: seq<Event>, s: State, h: nat, k: nat)
    requires Reaches(Serial, cfg, START, es, s)
    requires h < |s.arcs| && k < |s.arcs| && s.arcs[h].sid == s.arcs[k].sid
    ensures h == k && |s.arcs[h].guests| <= 1
  {
    StartInv();
    ReachableInv(Serial, cfg, es, s);
    RunKeepsOneUpgrade(cfg, START, es, s);
    PartOfInv(s, h);
    PipeRendezvous(s.arcs[h].pipe);
  }

  // ---------------------------------------------------------------------------
  // Forward only

  /** While an upgrade is under way its session is in the first table until removed from there,
      and in neither until published. */
  ghost predicate UpgradeInPlace(s: State) {
    forall h :: 0 <= h < |s.arcs| ==>
      (s.arcs[h].stage in {Cloned, Built} ==> s.arcs[h].sid in s.init)
      && (s.arcs[h].stage == Removed ==> s.arcs[h].sid !in s.pending)
  }

  predicate BetweenTables(arcs: seq<Arc>, sid: string) {
    exists h :: 0 <= h < |arcs| && arcs[h].sid == sid && arcs[h].stage == Removed
  }

  /** Not yet created, initialized, between the tables, pending, out of both. */
  function Rank(s: State, sid: string): nat {
    if sid !in s.sessions then 0
    else if sid in s.init then 1
    else if BetweenTables(s.arcs, sid) then 2
    else if sid in s.pending then 3
    else 4
  }

  lemma NobodyUpgrading(cfg: Config, s: State, e: Event)
    requires Enabled(cfg, s, e) && Allows(Serial, cfg, s, e)
    requires !e.Build? && !e.RemoveInit? && !e.InsertPending?
    ensures forall h :: 0 <= h < |s.arcs| ==> s.arcs[h].stage == Serving
  {
    hide Enabled;
    assert forall h: nat :: h !in Upgrading(s.arcs);
    forall h | 0 <= h < |s.arcs|
      ensures s.arcs[h].stage == Serving
    {
      assert h !in Upgrading(s.arcs);
    }
  }

  lemma OnlyOneUpgrading(cfg: Config, s: State, e: Event, h: nat)
    requires Enabled(cfg, s, e) && Allows(Serial, cfg, s, e) && AdvancesUpgrade(e, h)
    ensures forall k :: 0 <= k < |s.arcs| && k != h ==> s.arcs[k].stage == Serving
  {
    hide Enabled;
    forall k: nat | k != h
      ensures k !in Upgrading(s.arcs)
    {
    }
    forall k | 0 <= k < |s.arcs| && k != h
      ensures s.arcs[k].stage == Serving
    {
      assert k !in Upgrading(s.arcs);
    }
  }

  lemma InPlaceWhenAllServe(s: State, e: Event, t: State)
    requires MovesOn(s, e, t) && (e.CloneInit? ==> e.sid in t.init)
    requires forall h :: 0 <= h < |s.arcs| ==> s.arcs[h].stage == Serving
    ensures UpgradeInPlace(t)
  {}

  lemma InPlaceAtBuild(cfg: Config, s: State, h: nat)
    requires UpgradeInPlace(s) && Enabled(cfg, s, Build(h))
    ensures UpgradeInPlace(Step(cfg, s, Build(h)))
  {}

  lemma InPlaceAtRemove(cfg: Config, s: State, h: nat)
    requires Inv(s) && UpgradeInPlace(s) && Enabled(cfg, s, RemoveInit(h))
    requires forall k :: 0 <= k < |s.arcs| && k != h ==> s.arcs[k].stage == Serving
    ensures UpgradeInPlace(Step(cfg, s, RemoveInit(h)))
  {
    hide Inv;
    DisjointHere(s);
  }

  lemma PublishResult(s: State, h: nat)
    requires h < |s.arcs|
    requires forall k :: 0 <= k < |s.arcs| && k != h ==> s.arcs[k].stage == Serving
    ensures var t := PublishArc(s, h);
            t.init == s.init && t.sessions == s.sessions && t.pending.Keys == s.pending.Keys + {s.arcs[h].sid}
            && forall k :: 0 <= k < |t.arcs| ==> t.arcs[k].stage == Serving
  {
    hide Unlisted, Published;
    UnlistedMovesOn(s, s.arcs[h].sid);
  }

  lemma InPlaceAtPublish(s: State, h: nat)
    requires h < |s.arcs|
    requires forall k :: 0 <= k < |s.arcs| && k != h ==> s.arcs[k].stage == Serving
    ensures UpgradeInPlace(PublishArc(s, h))
  {
    hide PublishArc;
    PublishResult(s, h);
  }

  lemma StepKeepsInPlace(cfg: Config, s: State, e: Event)
    requires Inv(s) && UpgradeInPlace(s) && Enabled(cfg, s, e) && Allows(Serial, cfg, s, e)
    ensures UpgradeInPlace(Step(cfg, s, e))
  {
    hide Inv, UpgradeInPlace, Allows, PublishArc, RunTask, SweptArcs, Admitted, MovesOn;
    match e
    case Build(h) => InPlaceAtBuild(cfg, s, h);
    case RemoveInit(h) =>
      OnlyOneUpgrading(cfg, s, e, h);
      InPlaceAtRemove(cfg, s, h);
    case InsertPending(h) =>
      OnlyOneUpgrading(cfg, s, e, h);
      InPlaceAtPublish(s, h);
    case _ =>
      NobodyUpgrading(cfg, s, e);
      StepMovesOn(cfg, s, e);
      InPlaceWhenAllServe(s, e, Step(cfg, s, e));
  }

  /** Steps that touch no upgrade. */
  lemma RankKeptWhenQuiet(s: State, e: Event, t: State, sid: string)
    requires Inv(s) && MovesOn(s, e, t) && !e.CreateInsert? && !e.InsertPending? && !e.RemoveInit? && !e.Build?
    requires forall h :: 0 <= h < |s.arcs| ==> s.arcs[h].stage == Serving
    ensures Rank(s, sid) <= Rank(t, sid)
  {
    DisjointHere(s);
    hide Inv;
    assert !BetweenTables(s.arcs, sid) && !BetweenTables(t.arcs, sid);
  }

  lemma RankAtCreate(cfg: Config, s: State, id: string, tokens: Session, sid: string)
    requires Enabled(cfg, s, CreateInsert(id, tokens))
    ensures Rank(s, sid) <= Rank(Step(cfg, s, CreateInsert(id, tokens)), sid)
  {}

  lemma RankAtBuild(cfg: Config, s: State, h: nat, sid: string)
    requires Enabled(cfg, s, Build(h))
    ensures Rank(s, sid) <= Rank(Step(cfg, s, Build(h)), sid)
  {
    var t := Step(cfg, s, Build(h));
    if BetweenTables(s.arcs, sid) {
      var k :| 0 <= k < |s.arcs| && s.arcs[k].sid == sid && s.arcs[k].stage == Removed;
      assert t.arcs[k] == s.arcs[k];
    }
    if BetweenTables(t.arcs, sid) {
      var k :| 0 <= k < |t.arcs| && t.arcs[k].sid == sid && t.arcs[k].stage == Removed;
      assert t.arcs[k] == s.arcs[k];
    }
  }

  lemma RankOnceRemoved(s: State, h: nat, t: State, sid: string)
    requires s.init.Keys !! s.pending.Keys && h < |s.arcs| && s.arcs[h].stage == Built && s.arcs[h].sid in s.init
    requires forall k :: 0 <= k < |s.arcs| && k != h ==> s.arcs[k].stage == Serving
    requires t == s.(init := s.init - {s.arcs[h].sid}, arcs := s.arcs[h := s.arcs[h].(stage := Removed)])
    ensures Rank(s, sid) <= Rank(t, sid)
  {
    assert !BetweenTables(s.arcs, sid);
    assert t.arcs[h].stage == Removed;
    assert BetweenTables(t.arcs, s.arcs[h].sid);
  }

  lemma RankAtRemove(cfg: Config, s: State, h: nat, sid: string)
    requires Inv(s) && Enabled(cfg, s, RemoveInit(h)) && UpgradeInPlace(s)
    requires forall k :: 0 <= k < |s.arcs| && k != h ==> s.arcs[k].stage == Serving
    ensures Rank(s, sid) <= Rank(Step(cfg, s, RemoveInit(h)), sid)
  {
    hide Inv, Rank, BetweenTables;
    DisjointHere(s);
    assert s.arcs[h].sid in s.init;
    RankOnceRemoved(s, h, Step(cfg, s, RemoveInit(h)), sid);
  }

  lemma LeftAlready(s: State, h: nat)
    requires Inv(s) && h < |s.arcs| && s.arcs[h].stage == Removed
    ensures s.arcs[h].sid !in s.init
  {}

  lemma RankOnceAllServe(s: State, h: nat, t: State, sid: string)
    requires h < |s.arcs| && s.arcs[h].stage == Removed && s.arcs[h].sid !in s.init
    requires forall k :: 0 <= k < |s.arcs| && k != h ==> s.arcs[k].stage == Serving
    requires forall k :: 0 <= k < |t.arcs| ==> t.arcs[k].stage == Serving
    requires t.init == s.init && t.sessions == s.sessions && t.pending.Keys == s.pending.Keys + {s.arcs[h].sid}
    ensures Rank(s, sid) <= Rank(t, sid)
  {
    assert !BetweenTables(t.arcs, sid);
    assert BetweenTables(s.arcs, sid) ==> sid == s.arcs[h].sid;
  }

  lemma RankAtPublish(cfg: Config, s: State, h: nat, sid: string)
    requires Inv(s) && Enabled(cfg, s, InsertPending(h))
    requires forall k :: 0 <= k < |s.arcs| && k != h ==> s.arcs[k].stage == Serving
    ensures Rank(s, sid) <= Rank(PublishArc(s, h), sid)
  {
    hide Inv, PublishArc, Rank, BetweenTables;
    LeftAlready(s, h);
    PublishResult(s, h);
    RankOnceAllServe(s, h, PublishArc(s, h), sid);
  }

  /** No step takes a session back to an earlier place. */
  lemma RankNeverDrops(cfg: Config, s: State, e: Event, sid: string)
    requires Inv(s) && UpgradeInPlace(s) && Enabled(cfg, s, e) && Allows(Serial, cfg, s, e)
    ensures Rank(s, sid) <= Rank(Step(cfg, s, e), sid)
  {
    hide Inv, Rank, PublishArc, RunTask, SweptArcs, Admitted, Allows, UpgradeInPlace;
    match e
    case CreateInsert(id, tokens) => RankAtCreate(cfg, s, id, tokens, sid);
    case Build(h) => RankAtBuild(cfg, s, h, sid);
    case RemoveInit(h) =>
      OnlyOneUpgrading(cfg, s, e, h);
      RankAtRemove(cfg, s, h, sid);
    case InsertPending(h) =>
      OnlyOneUpgrading(cfg, s, e, h);
      RankAtPublish(cfg, s, h, sid);
    case _ =>
      NobodyUpgrading(cfg, s, e);
      StepMovesOn(cfg, s, e);
      RankKeptWhenQuiet(s, e, Step(cfg, s, e), sid);
  }

  lemma {:induction false} RunKeepsInPlace(cfg: Config, before: State, es: seq<Event>, after: State)
    requires Inv(before) && UpgradeInPlace(before) && Reaches(Serial, cfg, before, es, after)
    ensures UpgradeInPlace(after)
    ensures forall sid :: Rank(before, sid) <= Rank(after, sid)
    decreases |es|
  {
    hide Inv, Step, Enabled, Allows, UpgradeInPlace, Rank;
    if es != [] {
      StepKeepsInv(cfg, before, es[0]);
      StepKeepsInPlace(cfg, before, es[0]);
      forall sid
        ensures Rank(before, sid) <= Rank(Step(cfg, before, es[0]), sid)
      {
        RankNeverDrops(cfg, before, es[0], sid);
      }
      RunKeepsInPlace(cfg, Step(cfg, before, es[0]), es[1..], after);
    }
  }

  /** A session only moves forward, and once it has left both tables it never reappears. */
  lemma SessionsMoveForward(cfg: Config, es: seq<Event>, s: State, fs: seq<Event>, t: State, sid: string)
    requires Reaches(Serial, cfg, START, es, s) && Reaches(Serial, cfg, s, fs, t)
    ensures Rank(s, sid) <= Rank(t, sid)
    ensures Rank(s, sid) == 4 ==> sid !in t.init && sid !in t.pending
  {
    StartInv();
    hide Reaches, Inv;
    ReachableInv(Serial, cfg, es, s);
    RunKeepsInPlace(cfg, START, es, s);
    RunKeepsInPlace(cfg, s, fs, t);
  }

  // ---------------------------------------------------------------------------
  // Staleness

  ghost predicate YoungInit(cfg: Config, init: map<string, Initialized>, at: Instant, now: Instant) {
    forall sid :: sid in init ==> init[sid].createdAt <= now && at - init[sid].createdAt < Grace(cfg)
  }

  ghost predicate YoungPending(cfg: Config, s: State, at: Instant) {
    forall sid :: sid in s.pending && s.pending[sid] < |s.arcs| ==>
      s.arcs[s.pending[sid]].createdAt <= s.now && at - s.arcs[s.pending[sid]].createdAt < Grace(cfg)
  }

  ghost predicate YoungUpgrades(s: State) {
    forall h :: 0 <= h < |s.arcs| && s.arcs[h].stage in {Built, Removed} ==> s.arcs[h].createdAt == s.now
  }

  ghost predicate OnTime(s: State) {
    s.lastSweep <= s.now <= s.lastSweep + 60 * SECOND
    && (s.sweeper.Awake? ==> s.sweeper.now == s.now)
    && (s.sweeper.InitSwept? ==> s.sweeper.now == s.now)
  }

  /** No entry was stale when the tables were last swept. */
  ghost predicate Young(cfg: Config, s: State) {
    OnTime(s)
    && YoungInit(cfg, s.init, if s.sweeper.InitSwept? then s.now else s.lastSweep, s.now)
    && YoungPending(cfg, s, s.lastSweep)
    && YoungUpgrades(s)
  }

  lemma YoungAtTick(cfg: Config, s: State, d: nat)
    requires Young(cfg, s) && Allows(Timely, cfg, s, Tick(d))
    ensures Young(cfg, Step(cfg, s, Tick(d)))
  {
    assert Allows(Serial, cfg, s, Tick(d));
    NobodyUpgrading(cfg, s, Tick(d));
  }

  lemma YoungAtSweepInit(cfg: Config, s: State)
    requires Young(cfg, s) && Enabled(cfg, s, SweepInit)
    ensures Young(cfg, Step(cfg, s, SweepInit))
  {}

  lemma YoungOnceSwept(cfg: Config, s: State, t: State)
    requires Young(cfg, s) && s.sweeper.InitSwept? && SameSessions(s.arcs, t.arcs, s.now) && |t.arcs| == |s.arcs|
    requires t == s.(pending := t.pending, arcs := t.arcs, sweeper := Asleep, lastSweep := s.sweeper.now)
    requires forall sid :: sid in s.pending ==> s.pending[sid] < |s.arcs| && s.arcs[s.pending[sid]].stage == Serving
    requires forall sid :: sid in t.pending ==>
               sid in s.pending && t.pending[sid] == s.pending[sid] && !StalePending(cfg, s, s.sweeper.now, sid)
    ensures Young(cfg, t)
  {}

  lemma YoungAtSweepPending(cfg: Config, s: State)
    requires Inv(s) && Young(cfg, s) && Enabled(cfg, s, SweepPending)
    ensures Young(cfg, Step(cfg, s, SweepPending))
  {
    hide Inv, SweptArcs, Young, SameSessions, StalePending;
    SweepMovesOn(cfg, s, s.sweeper.now);
    forall sid | sid in s.pending
      ensures s.pending[sid] < |s.arcs| && s.arcs[s.pending[sid]].stage == Serving
    {
      TableEntryServes(s, sid);
    }
    YoungOnceSwept(cfg, s, Step(cfg, s, SweepPending));
  }

  lemma EntryWasBuilt(s: State, sid: string)
    requires Inv(s) && sid in s.pending
    ensures s.pending[sid] < |s.arcs| && s.arcs[s.pending[sid]].stage == Serving
  {
    hide Inv;
    TableEntryServes(s, sid);
  }

  /** Steps that leave the clock alone. */
  lemma YoungElsewhere(cfg: Config, s: State, e: Event, t: State)
    requires Inv(s) && Young(cfg, s) && MovesOn(s, e, t) && SameClock(s, t)
    requires e.CreateInsert? ==> e.id in t.init ==> t.init[e.id].createdAt == s.now
    requires e.InsertPending? ==> e.h < |s.arcs| && s.arcs[e.h].stage == Removed
    ensures Young(cfg, t)
  {
    hide ArcsOk, InitOk, InTable;
    forall sid | sid in t.pending && t.pending[sid] < |t.arcs|
      ensures t.arcs[t.pending[sid]].createdAt <= t.now
      ensures t.lastSweep - t.arcs[t.pending[sid]].createdAt < Grace(cfg)
    {
      if sid in s.pending && t.pending[sid] == s.pending[sid] {
        EntryWasBuilt(s, sid);
      }
    }
  }

  lemma YoungAtWaking(cfg: Config, s: State)
    requires Young(cfg, s) && Enabled(cfg, s, SweepBegin)
    ensures Young(cfg, Step(cfg, s, SweepBegin))
  {}

  lemma StepKeepsYoung(cfg: Config, s: State, e: Event)
    requires Inv(s) && Young(cfg, s) && Enabled(cfg, s, e) && Allows(Timely, cfg, s, e)
    ensures Young(cfg, Step(cfg, s, e))
  {
    hide Inv, Young, Allows, PublishArc, RunTask, SweptArcs, Admitted;
    match e
    case Tick(d) => YoungAtTick(cfg, s, d);
    case SweepBegin => YoungAtWaking(cfg, s);
    case SweepInit => YoungAtSweepInit(cfg, s);
    case SweepPending => YoungAtSweepPending(cfg, s);
    case _ =>
      StepMovesOn(cfg, s, e);
      YoungElsewhere(cfg, s, e, Step(cfg, s, e));
  }

  lemma {:induction false} RunKeepsYoung(cfg: Config, before: State, es: seq<Event>, after: State)
    requires Inv(before) && Young(cfg, before) && Reaches(Timely, cfg, before, es, after)
    ensures Young(cfg, after)
    decreases |es|
  {
    hide Inv, Young, Step, Enabled, Allows;
    if es != [] {
      StepKeepsInv(cfg, before, es[0]);
      StepKeepsYoung(cfg, before, es[0]);
      RunKeepsYoung(cfg, Step(cfg, before, es[0]), es[1..], after);
    }
  }

  /** Nothing in either table is ever as old as the timeout and ninety seconds: thirty of grace
      and sixty until the sweeper comes. */
  lemma EntriesAreYoung(cfg: Config, es: seq<Event>, s: State)
    requires Reaches(Timely, cfg, START, es, s)
    ensures forall sid :: sid in s.init ==> s.now - s.init[sid].createdAt < cfg.timeout + 90 * SECOND
    ensures forall sid :: sid in s.pending ==>
              s.pending[sid] < |s.arcs| && s.now - s.arcs[s.pending[sid]].createdAt < cfg.timeout + 90 * SECOND
  {
    StartInv();
    ReachableInv(Timely, cfg, es, s);
    assert Young(cfg, START);
    RunKeepsYoung(cfg, START, es, s);
    hide Reaches, ArcsOk;
  }
}

/** How long a relay session stays in the tables: what removes an entry, that nothing removes a young
    one but its own handlers, and when a waiting creator's deadline passes. */
module RelayRetention {
  import opened Common
  import P = RelayPipe
  import opened RelayTable
  import opened RelaySafety

  // ---------------------------------------------------------------------------
  // What the sweeper keeps

  /** Of the first table exactly the entries younger than the timeout and thirty seconds remain. */
  ghost predicate KeptInit(
    cfg: Config, before: map<string, Initialized>, at: Instant, after: map<string, Initialized>)
  {
    (forall sid :: sid in after <==> sid in before && at - before[sid].createdAt < cfg.timeout + 30 * SECOND)
    && (forall sid :: sid in after ==> after[sid] == before[sid])
  }

  /** The record an entry of the pending table leads to was built so long ago. */
  predicate OldRecord(cfg: Config, pending: map<string, nat>, arcs: seq<Arc>, at: Instant, sid: string) {
    sid in pending && pending[sid] < |arcs| && at - arcs[pending[sid]].createdAt >= cfg.timeout + 30 * SECOND
  }

  /** ... and of the second likewise, by when the record was built. */
  ghost predicate KeptPending(
    cfg: Config, before: map<string, nat>, arcs: seq<Arc>, at: Instant, after: map<string, nat>)
  {
    (forall sid :: sid in after <==> sid in before && !OldRecord(cfg, before, arcs, at, sid))
    && (forall sid :: sid in after ==> after[sid] == before[sid])
  }

  lemma StaleByAge(cfg: Config, now: Instant, createdAt: Instant)
    ensures Stale(cfg, now, createdAt) <==> now - createdAt >= cfg.timeout + 30 * SECOND
  {}

  lemma SweepKeepsInit(cfg: Config, s: State)
    requires s.sweeper.Awake?
    ensures KeptInit(cfg, s.init, s.sweeper.now, Step(cfg, s, SweepInit).init)
  {
    hide Stale;
    forall sid | sid in s.init
      ensures Stale(cfg, s.sweeper.now, s.init[sid].createdAt)
         <==> s.sweeper.now - s.init[sid].createdAt >= cfg.timeout + 30 * SECOND
    {
      StaleByAge(cfg, s.sweeper.now, s.init[sid].createdAt);
    }
  }

  lemma StaleIsOld(cfg: Config, s: State, now: Instant, sid: string)
    ensures StalePending(cfg, s, now, sid) <==> OldRecord(cfg, s.pending, s.arcs, now, sid)
  {
    hide Stale;
    if sid in s.pending && s.pending[sid] < |s.arcs| {
      StaleByAge(cfg, now, s.arcs[s.pending[sid]].createdAt);
    }
  }

  lemma SweepKeepsPending(cfg: Config, s: State)
    requires s.sweeper.InitSwept?
    ensures KeptPending(cfg, s.pending, s.arcs, s.sweeper.now, Step(cfg, s, SweepPending).pending)
  {
    hide StalePending, OldRecord, SweptArcs;
    forall sid
      ensures StalePending(cfg, s, s.sweeper.now, sid) <==> OldRecord(cfg, s.pending, s.arcs, s.sweeper.now, sid)
    {
      StaleIsOld(cfg, s, s.sweeper.now, sid);
    }
  }

  // ---------------------------------------------------------------------------
  // What removes an entry

  /** Upgrade `h`, if there is one, is of this session. */
  predicate OfSession(arcs: seq<Arc>, h: nat, sid: string) {
    h < |arcs| && arcs[h].sid == sid
  }

  predicate TakesInit(cfg: Config, s: State, e: Event, sid: string) {
    (e.RemoveInit? && OfSession(s.arcs, e.h, sid))
    || (e.SweepInit? && s.sweeper.Awake? && sid in s.init
        && s.sweeper.now - s.init[sid].createdAt >= cfg.timeout + 30 * SECOND)
  }

  lemma TaskKeepsInit(cfg: Config, s: State, k: nat, e: P.Event)
    requires Enabled(cfg, s, Task(k, e))
    ensures RunTask(cfg, s, k, e).init == s.init
  {
    hide Unlisted, P.Step, P.Enabled, P.OfTask;
    var a := s.arcs[k];
    var deadline := if e.CreatorStarts? then s.now + cfg.timeout else a.deadline;
    UnlistedMovesOn(s.(arcs := s.arcs[k := a.(pipe := P.Step(a.pipe, e), deadline := deadline)]), a.sid);
  }

  lemma PublishKeepsInit(s: State, h: nat)
    requires h < |s.arcs|
    ensures PublishArc(s, h).init == s.init
  {
    hide Unlisted, Published;
    UnlistedMovesOn(s, s.arcs[h].sid);
  }

  /** A session leaves the first table in an event exactly when an upgrade of it removes it, or the
      sweeper does and the session is by then as old as the timeout and thirty seconds. */
  lemma LeavesInitIff(cfg: Config, s: State, e: Event, sid: string)
    requires Inv(s) && Enabled(cfg, s, e) && sid in s.init
    ensures sid !in Step(cfg, s, e).init <==> TakesInit(cfg, s, e, sid)
    ensures sid in Step(cfg, s, e).init ==> Step(cfg, s, e).init[sid] == s.init[sid]
  {
    hide ArcsOk, LeftInit, TableOk, PublishArc, RunTask, SweptArcs, Admitted, Stale, P.Enabled, P.Step;
    match e
    case Task(k, f) => TaskKeepsInit(cfg, s, k, f);
    case InsertPending(h) => PublishKeepsInit(s, h);
    case SweepInit => SweepKeepsInit(cfg, s);
    case _ =>
  }

  predicate TakesPending(cfg: Config, s: State, e: Event, sid: string) {
    (e.AdmitJoiner? && e.sid == sid)
    || (e.Task? && e.e.CreatorWithdraws? && OfSession(s.arcs, e.k, sid))
    || (e.InsertPending? && OfSession(s.arcs, e.h, sid))
    || (e.SweepPending? && s.sweeper.InitSwept? && OldRecord(cfg, s.pending, s.arcs, s.sweeper.now, sid))
  }

  lemma TaskPending(cfg: Config, s: State, k: nat, e: P.Event)
    requires Enabled(cfg, s, Task(k, e))
    ensures RunTask(cfg, s, k, e).pending == if e.CreatorWithdraws? then s.pending - {s.arcs[k].sid} else s.pending
  {
    hide Unlisted, P.Step, P.Enabled, P.OfTask;
    var a := s.arcs[k];
    var deadline := if e.CreatorStarts? then s.now + cfg.timeout else a.deadline;
    UnlistedMovesOn(s.(arcs := s.arcs[k := a.(pipe := P.Step(a.pipe, e), deadline := deadline)]), a.sid);
  }

  lemma PublishPending(s: State, h: nat)
    requires h < |s.arcs|
    ensures PublishArc(s, h).pending == s.pending[s.arcs[h].sid := h]
  {
    hide Unlisted, Published;
    UnlistedMovesOn(s, s.arcs[h].sid);
  }

  lemma NotYetListed(s: State, h: nat)
    requires Inv(s) && h < |s.arcs| && s.arcs[h].stage == Removed
    ensures forall sid :: sid in s.pending ==> s.pending[sid] != h
  {
    hide Inv;
    forall sid | sid in s.pending
      ensures s.pending[sid] != h
    {
      TableEntryServes(s, sid);
    }
  }

  /** An entry of the second table is taken out or replaced in an event exactly when its joiner is
      admitted, a creator of the session withdraws, another upgrade of the session is published, or
      the sweeper removes it and the record is by then as old as the timeout and thirty seconds. */
  lemma LeavesPendingIff(cfg: Config, s: State, e: Event, sid: string)
    requires Inv(s) && Enabled(cfg, s, e) && sid in s.pending
    ensures var after := Step(cfg, s, e).pending;
            sid !in after || after[sid] != s.pending[sid] <==> TakesPending(cfg, s, e, sid)
  {
    hide Inv, PublishArc, RunTask, SweptArcs, Admitted, StalePending, OldRecord, P.Enabled, P.Step;
    match e
    case Task(k, f) => TaskPending(cfg, s, k, f);
    case InsertPending(h) =>
      PublishPending(s, h);
      NotYetListed(s, h);
    case SweepPending => SweepKeepsPending(cfg, s);
    case _ =>
  }

  // ---------------------------------------------------------------------------
  // Young entries stay

  /** The sweeper works with a moment that has passed, and the clock does not run back. */
  ghost predicate SweepsThePast(s: State) {
    (s.sweeper.Awake? ==> s.sweeper.now <= s.now) && (s.sweeper.InitSwept? ==> s.sweeper.now <= s.now)
  }

  lemma StepSweepsThePast(cfg: Config, s: State, e: Event)
    requires Enabled(cfg, s, e) && SweepsThePast(s)
    ensures SweepsThePast(Step(cfg, s, e)) && s.now <= Step(cfg, s, e).now
  {
    hide InitMovesOn, PendingMovesOn, SameSessions, SweptArcs, PublishArc, RunTask, Admitted, Stale;
    StepMovesOn(cfg, s, e);
    match e
    case Tick(_) =>
    case SweepBegin =>
    case SweepInit =>
    case SweepPending =>
    case _ => hide Step;
  }

  lemma {:induction false} RunSweepsThePast(sched: Schedule, cfg: Config, before: State, es: seq<Event>, after: State)
    requires SweepsThePast(before) && Reaches(sched, cfg, before, es, after)
    ensures SweepsThePast(after) && before.now <= after.now
    decreases |es|
  {
    hide SweepsThePast, Step, Enabled, Allows;
    if es != [] {
      StepSweepsThePast(cfg, before, es[0]);
      RunSweepsThePast(sched, cfg, Step(cfg, before, es[0]), es[1..], after);
    }
  }

  lemma StepKeepsSessionIds(cfg: Config, s: State, e: Event, sid: string)
    requires Enabled(cfg, s, e) && sid in s.sessions
    ensures sid in Step(cfg, s, e).sessions
    ensures sid !in s.init ==> sid !in Step(cfg, s, e).init
  {
    hide PendingMovesOn, SameSessions, SameClock, SweptArcs, PublishArc, RunTask, Admitted, Stale;
    StepMovesOn(cfg, s, e);
    if !e.CreateInsert? {
      hide Step;
    }
  }

  /** An event of the run removes this session from the first table for an upgrade. */
  predicate Upgraded(es: seq<Event>, arcs: seq<Arc>, sid: string) {
    exists i :: 0 <= i < |es| && es[i].RemoveInit? && OfSession(arcs, es[i].h, sid)
  }

  lemma {:induction false} GoneFromInit(sched: Schedule, cfg: Config, before: State, es: seq<Event>, after: State,
                                        sid: string)
    requires sid in before.sessions && sid !in before.init && Reaches(sched, cfg, before, es, after)
    ensures sid !in after.init
    decreases |es|
  {
    hide Step, Enabled, Allows;
    if es != [] {
      StepKeepsSessionIds(cfg, before, es[0], sid);
      GoneFromInit(sched, cfg, Step(cfg, before, es[0]), es[1..], after, sid);
    }
  }

  lemma UpgradedFirstOrLater(es: seq<Event>, arcs: seq<Arc>, sid: string)
    requires es != []
    ensures Upgraded(es, arcs, sid)
       <==> (es[0].RemoveInit? && OfSession(arcs, es[0].h, sid)) || Upgraded(es[1..], arcs, sid)
  {
    hide OfSession;
    if i :| 0 <= i < |es| && es[i].RemoveInit? && OfSession(arcs, es[i].h, sid) {
      assert i > 0 ==> es[1..][i - 1] == es[i];
    }
    if i :| 0 <= i < |es[1..]| && es[1..][i].RemoveInit? && OfSession(arcs, es[1..][i].h, sid) {
      assert es[i + 1] == es[1..][i];
    }
  }

  lemma PastMeansPast(s: State)
    requires SweepsThePast(s)
    ensures s.sweeper.Awake? || s.sweeper.InitSwept? ==> s.sweeper.now <= s.now
  {}

  lemma RemovesAnUpgrade(cfg: Config, s: State, e: Event)
    requires Enabled(cfg, s, e)
    ensures e.RemoveInit? || e.InsertPending? || e.Build? ==> e.h < |s.arcs|
  {}

  lemma {:induction false} YoungSessionsStayFrom(sched: Schedule, cfg: Config, before: State, es: seq<Event>,
                                                 after: State, sid: string)
    requires Inv(before) && SweepsThePast(before) && Reaches(sched, cfg, before, es, after) && sid in before.init
    requires after.now - before.init[sid].createdAt < cfg.timeout + 30 * SECOND
    ensures sid in after.init <==> !Upgraded(es, after.arcs, sid)
    ensures sid in after.init ==> after.init[sid] == before.init[sid]
    decreases |es|
  {
    assert sid in before.sessions;
    if es != [] {
      hide Inv, SweepsThePast, Step, Enabled, Allows, Upgraded, Stale;
      var e, next := es[0], Step(cfg, before, es[0]);
      StepKeepsInv(cfg, before, e);
      StepSweepsThePast(cfg, before, e);
      RunSweepsThePast(sched, cfg, next, es[1..], after);
      LeavesInitIff(cfg, before, e, sid);
      UpgradedFirstOrLater(es, after.arcs, sid);
      RunKeepsSessions(sched, cfg, before, es, after);
      PastMeansPast(before);
      RemovesAnUpgrade(cfg, before, e);
      if sid in next.init {
        YoungSessionsStayFrom(sched, cfg, next, es[1..], after, sid);
      } else {
        StepKeepsSessionIds(cfg, before, e, sid);
        GoneFromInit(sched, cfg, next, es[1..], after, sid);
      }
    }
  }

  /** From any reachable state: a session younger than the timeout and thirty seconds is in the first
      table until, and only until, an upgrade of it takes it out. */
  lemma YoungSessionsStay(sched: Schedule, cfg: Config, es: seq<Event>, s: State, fs: seq<Event>, t: State,
                          sid: string)
    requires Reaches(sched, cfg, START, es, s) && Reaches(sched, cfg, s, fs, t) && sid in s.init
    requires t.now - s.init[sid].createdAt < cfg.timeout + 30 * SECOND
    ensures sid in t.init <==> !Upgraded(fs, t.arcs, sid)
    ensures sid in t.init ==> t.init[sid] == s.init[sid]
  {
    hide Reaches, Inv;
    ReachableInv(sched, cfg, es, s);
    RunSweepsThePast(sched, cfg, START, es, s);
    YoungSessionsStayFrom(sched, cfg, s, fs, t, sid);
  }

  predicate Holds(pending: map<string, nat>, sid: string, k: nat) {
    sid in pending && pending[sid] == k
  }

  /** The event hands the session's pending record to a joiner, or is the withdrawal of a creator of
      the session or the publication of another upgrade of it. */
  predicate Replaces(e: Event, arcs: seq<Arc>, sid: string) {
    (e.AdmitJoiner? && e.sid == sid)
    || (e.Task? && e.e.CreatorWithdraws? && OfSession(arcs, e.k, sid))
    || (e.InsertPending? && OfSession(arcs, e.h, sid))
  }

  predicate Replaced(es: seq<Event>, arcs: seq<Arc>, sid: string) {
    exists i :: 0 <= i < |es| && Replaces(es[i], arcs, sid)
  }

  lemma ReplacedFirstOrLater(es: seq<Event>, arcs: seq<Arc>, sid: string)
    requires es != []
    ensures Replaced(es, arcs, sid) <==> Replaces(es[0], arcs, sid) || Replaced(es[1..], arcs, sid)
  {
    hide Replaces;
    if i :| 0 <= i < |es| && Replaces(es[i], arcs, sid) {
      assert i > 0 ==> es[1..][i - 1] == es[i];
    }
    if i :| 0 <= i < |es[1..]| && Replaces(es[1..][i], arcs, sid) {
      assert es[i + 1] == es[1..][i];
    }
  }

  /** A record that serves keeps its session and its age, and once out of the table stays out. */
  lemma ServingStays(cfg: Config, s: State, e: Event, k: nat)
    requires Enabled(cfg, s, e) && k < |s.arcs| && s.arcs[k].stage == Serving
    ensures var t := Step(cfg, s, e);
            k < |t.arcs| && t.arcs[k].stage == Serving && t.arcs[k].sid == s.arcs[k].sid
            && t.arcs[k].createdAt == s.arcs[k].createdAt
            && (Holds(t.pending, s.arcs[k].sid, k) ==> Holds(s.pending, s.arcs[k].sid, k))
  {
    hide InitMovesOn, SameClock, Step;
    StepMovesOn(cfg, s, e);
  }

  lemma {:induction false} GoneFromPending(sched: Schedule, cfg: Config, before: State, es: seq<Event>, after: State,
                                           k: nat)
    requires k < |before.arcs| && before.arcs[k].stage == Serving && !Holds(before.pending, before.arcs[k].sid, k)
    requires Reaches(sched, cfg, before, es, after)
    ensures !Holds(after.pending, before.arcs[k].sid, k)
    decreases |es|
  {
    hide Step, Enabled, Allows, Holds;
    if es != [] {
      ServingStays(cfg, before, es[0], k);
      GoneFromPending(sched, cfg, Step(cfg, before, es[0]), es[1..], after, k);
    }
  }

  lemma ListedServes(s: State, sid: string)
    requires Inv(s) && sid in s.pending
    ensures var k := s.pending[sid]; k < |s.arcs| && s.arcs[k].stage == Serving && s.arcs[k].sid == sid
  {
    hide ArcsOk, InTable;
    TableEntryServes(s, sid);
  }

  /** Short of its age, what takes an entry is one of the three. */
  lemma TakenWhileYoung(cfg: Config, s: State, e: Event, arcs: seq<Arc>, sid: string)
    requires Inv(s) && SweepsThePast(s) && Enabled(cfg, s, e) && sid in s.pending && s.pending[sid] < |s.arcs|
    requires s.now - s.arcs[s.pending[sid]].createdAt < cfg.timeout + 30 * SECOND
    requires |s.arcs| <= |arcs| && forall h :: 0 <= h < |s.arcs| ==> arcs[h].sid == s.arcs[h].sid
    ensures Holds(Step(cfg, s, e).pending, sid, s.pending[sid]) <==> !Replaces(e, arcs, sid)
  {
    hide Inv, Step, P.Enabled;
    LeavesPendingIff(cfg, s, e, sid);
  }

  lemma {:induction false} YoungRecordsStayFrom(sched: Schedule, cfg: Config, before: State, es: seq<Event>,
                                                after: State, sid: string)
    requires Inv(before) && SweepsThePast(before) && Reaches(sched, cfg, before, es, after) && sid in before.pending
    requires before.pending[sid] < |before.arcs|
    requires after.now - before.arcs[before.pending[sid]].createdAt < cfg.timeout + 30 * SECOND
    ensures Holds(after.pending, sid, before.pending[sid]) <==> !Replaced(es, after.arcs, sid)
    decreases |es|
  {
    if es != [] {
      hide Inv, SweepsThePast, Step, Enabled, Allows, Replaced, Replaces, Stale;
      var e, next, k := es[0], Step(cfg, before, es[0]), before.pending[sid];
      StepKeepsInv(cfg, before, e);
      StepSweepsThePast(cfg, before, e);
      RunSweepsThePast(sched, cfg, next, es[1..], after);
      ReplacedFirstOrLater(es, after.arcs, sid);
      RunKeepsSessions(sched, cfg, before, es, after);
      ListedServes(before, sid);
      ServingStays(cfg, before, e, k);
      TakenWhileYoung(cfg, before, e, after.arcs, sid);
      if Holds(next.pending, sid, k) {
        YoungRecordsStayFrom(sched, cfg, next, es[1..], after, sid);
      } else {
        GoneFromPending(sched, cfg, next, es[1..], after, k);
      }
    }
  }

  /** From any reachable state: a published record younger than the timeout and thirty seconds is in
      the second table until, and only until, its joiner is admitted, a creator of the session
      withdraws or another upgrade of the session is published. */
  lemma YoungRecordsStay(sched: Schedule, cfg: Config, es: seq<Event>, s: State, fs: seq<Event>, t: State, sid: string)
    requires Reaches(sched, cfg, START, es, s) && Reaches(sched, cfg, s, fs, t) && sid in s.pending
    requires s.pending[sid] < |s.arcs| ==>
               t.now - s.arcs[s.pending[sid]].createdAt < cfg.timeout + 30 * SECOND
    ensures sid in t.pending && t.pending[sid] == s.pending[sid] <==> !Replaced(fs, t.arcs, sid)
  {
    hide Reaches, Inv, Replaced;
    ReachableInv(sched, cfg, es, s);
    ListedServes(s, sid);
    RunSweepsThePast(sched, cfg, START, es, s);
    YoungRecordsStayFrom(sched, cfg, s, fs, t, sid);
  }

  // ---------------------------------------------------------------------------
  // Deadlines

  /** The deadline is the same, a creator that waits was waiting, and one that has not run had not. */
  ghost predicate SameWait(a: Arc, b: Arc) {
    b.deadline == a.deadline && (b.pipe.creator == P.Waiting ==> a.pipe.creator == P.Waiting)
    && (b.pipe.creator == P.Unstarted ==> a.pipe.creator == P.Unstarted)
  }

  lemma StopsForGood(p: P.Pipe)
    ensures P.StopCreator(p).creator == P.Stopped
  {}

  lemma ReadWaits(p: P.Pipe, i: P.Incoming)
    requires p.creator == P.Waiting || p.creator == P.Live([])
    ensures P.CreatorRead(p, i).creator == P.Waiting ==> p.creator == P.Waiting
    ensures P.CreatorRead(p, i).creator != P.Unstarted
  {
    hide P.SendAToB, P.StopCreator;
    StopsForGood(p);
  }

  lemma TaskWaits(p: P.Pipe, e: P.Event)
    requires P.Enabled(p, e) && !e.CreatorStarts?
    ensures P.Step(p, e).creator == P.Waiting ==> p.creator == P.Waiting
    ensures P.Step(p, e).creator == P.Unstarted ==> p.creator == P.Unstarted
  {
    hide P.SendersAToB, P.SendersBToA, P.StopCreator, P.StopJoiner, P.SendAToB, P.SendBToA, P.CreatorRead, P.JoinerRead;
    StopsForGood(p);
    match e
    case CreatorReads(i) => ReadWaits(p, i);
    case CreatorNeverRuns => assert P.Step(p, e).creator == P.Stopped;
    case CreatorWithdraws => assert P.Step(p, e).creator == P.Stopped;
    case CreatorReceives => assert P.Step(p, e).creator != P.Waiting;
    case CreatorSinks(_) => assert P.Step(p, e).creator != P.Waiting;
    case _ =>
  }

  lemma StartsRunning(p: P.Pipe)
    requires P.Enabled(p, P.CreatorStarts)
    ensures p.creator == P.Unstarted && P.Step(p, P.CreatorStarts).creator != P.Unstarted
  {}

  lemma ForgetSameWait(a: Arc)
    ensures SameWait(a, Forget(a))
  {}

  lemma UnlistedSameWait(s: State, sid: string)
    ensures |Unlisted(s, sid).arcs| == |s.arcs|
    ensures forall h :: 0 <= h < |s.arcs| ==> SameWait(s.arcs[h], Unlisted(s, sid).arcs[h])
  {
    hide Forget;
    if sid in s.pending && s.pending[sid] < |s.arcs| {
      ForgetSameWait(s.arcs[s.pending[sid]]);
    }
  }

  lemma PublishSameWait(s: State, h: nat)
    requires h < |s.arcs|
    ensures |PublishArc(s, h).arcs| == |s.arcs|
    ensures forall k :: 0 <= k < |s.arcs| ==> SameWait(s.arcs[k], PublishArc(s, h).arcs[k])
  {
    hide Unlisted;
    UnlistedSameWait(s, s.arcs[h].sid);
  }

  lemma TaskSameWait(cfg: Config, s: State, k: nat, e: P.Event)
    requires Enabled(cfg, s, Task(k, e))
    ensures |RunTask(cfg, s, k, e).arcs| == |s.arcs|
    ensures forall h :: 0 <= h < |s.arcs| && !(h == k && e.CreatorStarts?) ==>
              SameWait(s.arcs[h], RunTask(cfg, s, k, e).arcs[h])
    ensures e.CreatorStarts? ==>
              RunTask(cfg, s, k, e).arcs[k].deadline == s.now + cfg.timeout && s.arcs[k].pipe.creator == P.Unstarted
              && RunTask(cfg, s, k, e).arcs[k].pipe.creator != P.Unstarted
  {
    hide P.Step, Unlisted, P.OfTask;
    var a := s.arcs[k];
    var deadline := if e.CreatorStarts? then s.now + cfg.timeout else a.deadline;
    var t := s.(arcs := s.arcs[k := a.(pipe := P.Step(a.pipe, e), deadline := deadline)]);
    if !e.CreatorStarts? {
      TaskWaits(a.pipe, e);
    } else {
      StartsRunning(a.pipe);
    }
    UnlistedSameWait(t, a.sid);
  }

  lemma SweptSameWait(cfg: Config, s: State, now: Instant)
    ensures forall h :: 0 <= h < |s.arcs| ==> SameWait(s.arcs[h], SweptArcs(cfg, s, now)[h])
  {
    hide Stale, StalePending;
  }

  lemma AdmitSameWait(p: P.Pipe)
    ensures Admitted(p).creator == p.creator
  {}

  lemma SamePipeWaits(a: Arc, b: Arc)
    requires b.pipe.creator == a.pipe.creator && b.deadline == a.deadline
    ensures SameWait(a, b)
  {}

  lemma StepSameWait(cfg: Config, s: State, e: Event, k: nat)
    requires Enabled(cfg, s, e) && k < |s.arcs| && e != Task(k, P.CreatorStarts)
    ensures k < |Step(cfg, s, e).arcs| && SameWait(s.arcs[k], Step(cfg, s, e).arcs[k])
  {
    hide PublishArc, RunTask, SweptArcs, Stale, StalePending, Admitted, SameWait, P.Enabled, P.Step;
    match e
    case InsertPending(h) => PublishSameWait(s, h);
    case Task(h, f) => TaskSameWait(cfg, s, h, f);
    case SweepPending => SweptSameWait(cfg, s, s.sweeper.now);
    case AdmitJoiner(_, _) =>
      AdmitSameWait(s.arcs[s.pending[e.sid]].pipe);
      SamePipeWaits(s.arcs[k], Step(cfg, s, e).arcs[k]);
    case _ => SamePipeWaits(s.arcs[k], Step(cfg, s, e).arcs[k]);
  }

  lemma StartSetsDeadline(cfg: Config, s: State, k: nat)
    requires Enabled(cfg, s, Task(k, P.CreatorStarts))
    ensures var t := Step(cfg, s, Task(k, P.CreatorStarts));
            k < |t.arcs| && t.arcs[k].deadline == s.now + cfg.timeout && s.arcs[k].pipe.creator == P.Unstarted
            && t.arcs[k].pipe.creator != P.Unstarted
  {
    hide RunTask, P.Enabled;
    TaskSameWait(cfg, s, k, P.CreatorStarts);
  }

  /** When the creator's task of record `k` first ran, if it did in this run. */
  ghost function StartedAt(cfg: Config, before: State, es: seq<Event>, k: nat): Option<Instant>
    decreases |es|
  {
    if es == [] || !Enabled(cfg, before, es[0]) then None
    else if es[0] == Task(k, P.CreatorStarts) then Some(before.now)
    else StartedAt(cfg, Step(cfg, before, es[0]), es[1..], k)
  }

  lemma NewArcUnstarted(cfg: Config, s: State, e: Event, k: nat)
    requires Enabled(cfg, s, e) && |s.arcs| <= k < |Step(cfg, s, e).arcs|
    ensures Step(cfg, s, e).arcs[k].pipe.creator == P.Unstarted
  {
    hide InitMovesOn, PendingMovesOn, SameSessions, SameClock;
    StepMovesOn(cfg, s, e);
    if !e.CloneInit? {
      hide Step;
    }
  }

  /** A creator starts once, so its deadline is never set again. */
  lemma {:induction false} DeadlineStays(sched: Schedule, cfg: Config, before: State, es: seq<Event>, after: State,
                                         k: nat)
    requires Reaches(sched, cfg, before, es, after) && k < |before.arcs|
    requires before.arcs[k].pipe.creator != P.Unstarted
    ensures k < |after.arcs| && after.arcs[k].deadline == before.arcs[k].deadline
    decreases |es|
  {
    hide Step, Enabled, Allows;
    if es != [] {
      var e, next := es[0], Step(cfg, before, es[0]);
      if e == Task(k, P.CreatorStarts) {
        StartSetsDeadline(cfg, before, k);
        assert false;
      }
      StepSameWait(cfg, before, e, k);
      DeadlineStays(sched, cfg, next, es[1..], after, k);
    }
  }

  lemma {:induction false} WaitsSinceStart(sched: Schedule, cfg: Config, before: State, es: seq<Event>, after: State,
                                           k: nat)
    requires Reaches(sched, cfg, before, es, after) && k < |after.arcs| && after.arcs[k].pipe.creator == P.Waiting
    requires k < |before.arcs| ==> before.arcs[k].pipe.creator != P.Waiting
    ensures StartedAt(cfg, before, es, k) == Some(after.arcs[k].deadline - cfg.timeout)
    decreases |es|
  {
    hide Step, Enabled, Allows;
    assert es != [];
    var e, next := es[0], Step(cfg, before, es[0]);
    if e == Task(k, P.CreatorStarts) {
      StartSetsDeadline(cfg, before, k);
      DeadlineStays(sched, cfg, next, es[1..], after, k);
    } else {
      if k < |before.arcs| {
        StepSameWait(cfg, before, e, k);
      } else if k < |next.arcs| {
        NewArcUnstarted(cfg, before, e, k);
      }
      WaitsSinceStart(sched, cfg, next, es[1..], after, k);
    }
  }

  lemma WaitingServes(s: State, k: nat)
    requires Inv(s) && k < |s.arcs| && s.arcs[k].pipe.creator == P.Waiting
    ensures s.arcs[k].stage == Serving
  {
    hide P.Inv;
    PartOfInv(s, k);
  }

  /** A waiting creator's deadline passes once the timeout has gone by since its task first ran, and
      not a moment earlier. */
  lemma DeadlineIsTheTimeout(sched: Schedule, cfg: Config, es: seq<Event>, s: State, k: nat)
    requires Reaches(sched, cfg, START, es, s) && k < |s.arcs| && s.arcs[k].pipe.creator == P.Waiting
    ensures StartedAt(cfg, START, es, k).Some?
    ensures Enabled(cfg, s, Task(k, P.DeadlinePasses)) <==> StartedAt(cfg, START, es, k).value + cfg.timeout <= s.now
  {
    hide Reaches, Inv;
    ReachableInv(sched, cfg, es, s);
    WaitingServes(s, k);
    WaitsSinceStart(sched, cfg, START, es, s, k);
  }
}

/** The relay handlers of src/relay.rs on the mutable tables of `AppState`: one method for each
    critical section, and the handlers built from them. Each section is proved to be one event of
    module RelayTable and each handler, run by itself, a run of them. */
module RelayServer {
  import opened Common
  import P = RelayPipe
  import opened RelayRetention
  import opened RelaySafety
  import opened RelayTable

  datatype Reply = MissingToken | InvalidToken | CreatorSocket(h: nat) | JoinerSocket(k: nat) | NotFound
  datatype Created = MaxSessionsReached | Failed | SessionCreated(id: string, tokenA: string)

  function UpgradeEvents(sid: string, token: string, h: nat): seq<Event> {
    [CloneInit(sid, token), Build(h), RemoveInit(h), InsertPending(h)]
  }

  lemma TwoSteps(cfg: Config, s: State, e: Event, f: Event)
    requires Enabled(cfg, s, e) && Enabled(cfg, Step(cfg, s, e), f)
    ensures Reaches(Racing, cfg, s, [e, f], Step(cfg, Step(cfg, s, e), f))
  {
    hide Step, Enabled, Reaches;
    OneStep(Racing, cfg, s, e);
    RunThenStep(Racing, cfg, s, [e], Step(cfg, s, e), f);
    assert [e] + [f] == [e, f];
  }

  lemma UpgradeRun(cfg: Config, s0: State, s1: State, s2: State, s3: State, s4: State, sid: string, token: string,
                   h: nat)
    requires Enabled(cfg, s0, CloneInit(sid, token)) && s1 == Step(cfg, s0, CloneInit(sid, token))
    requires Enabled(cfg, s1, Build(h)) && s2 == Step(cfg, s1, Build(h))
    requires Enabled(cfg, s2, RemoveInit(h)) && s3 == Step(cfg, s2, RemoveInit(h))
    requires Enabled(cfg, s3, InsertPending(h)) && s4 == Step(cfg, s3, InsertPending(h))
    ensures Reaches(Racing, cfg, s0, UpgradeEvents(sid, token, h), s4)
  {
    hide Step, Enabled, Reaches;
    TwoSteps(cfg, s0, CloneInit(sid, token), Build(h));
    TwoSteps(cfg, s2, RemoveInit(h), InsertPending(h));
    RunThenRun(Racing, cfg, s0, [CloneInit(sid, token), Build(h)], s2, [RemoveInit(h), InsertPending(h)], s4);
    assert [CloneInit(sid, token), Build(h)] + [RemoveInit(h), InsertPending(h)] == UpgradeEvents(sid, token, h);
  }

  /** The event can happen in `s` and leads to `t`. */
  ghost predicate Does(cfg: Config, s: State, e: Event, t: State) {
    Enabled(cfg, s, e) && t == Step(cfg, s, e)
  }

  lemma EnabledByStage(cfg: Config, s: State, h: nat)
    ensures h < |s.arcs| && s.arcs[h].stage == Cloned ==> Enabled(cfg, s, Build(h))
    ensures h < |s.arcs| && s.arcs[h].stage == Built ==> Enabled(cfg, s, RemoveInit(h))
    ensures h < |s.arcs| && s.arcs[h].stage == Removed ==> Enabled(cfg, s, InsertPending(h))
  {}

  lemma EnabledByToken(cfg: Config, s: State, sid: string, token: string)
    requires sid in s.init && s.init[sid].tokens.tokenA == token
    ensures Enabled(cfg, s, CloneInit(sid, token))
  {}

  lemma UnlistedLength(s: State, sid: string)
    ensures |Unlisted(s, sid).arcs| == |s.arcs|
  {}

  lemma SweptArcsAre(cfg: Config, s: State, swept: Instant, gone: set<string>, arcs: seq<Arc>)
    requires |arcs| == |s.arcs|
    requires forall sid :: sid in gone <==> StalePending(cfg, s, swept, sid)
    requires forall i :: 0 <= i < |arcs| ==>
      arcs[i] == if exists sid :: sid in gone && sid in s.pending && s.pending[sid] == i
                 then Forget(s.arcs[i]) else s.arcs[i]
    ensures arcs == SweptArcs(cfg, s, swept)
  {
    hide Forget;
  }

  /** Once published, the creator's task can run. */
  lemma PublishedRuns(s: State, h: nat)
    requires Inv(s) && h < |s.arcs| && s.arcs[h].stage == Removed
    ensures var p := Published(s.arcs[h].pipe); P.Enabled(p, P.CreatorStarts) && P.Table in p.holders
  {
    hide P.Inv;
    PartOfInv(s, h);
  }

  lemma EntriesAreRecords(s: State)
    requires Inv(s)
    ensures forall sid :: sid in s.pending ==> s.pending[sid] < |s.arcs|
  {}

  lemma EntryTokens(s: State, sid: string)
    requires Inv(s) && sid in s.init
    ensures sid in s.sessions && s.init[sid].tokens == s.sessions[sid]
  {}

  lemma AdmittedRuns(p: P.Pipe)
    requires P.Inv(p) && P.Table in p.holders
    ensures p.admitted == 0 && Admitted(p).slotAToB && P.Enabled(Admitted(p), P.JoinerTakes(0))
  {
    hide P.FlowAToB, P.FlowBToA, P.Quiet;
  }

  /** The joiner that takes the entry is the first and only one of its record, and shows the second
      token of the session; the receiver is there for it. */
  lemma AdmittedGuest(cfg: Config, s: State, sid: string, token: string)
    requires Inv(s) && Enabled(cfg, s, AdmitJoiner(sid, token))
    ensures var k, t := s.pending[sid], Step(cfg, s, AdmitJoiner(sid, token));
            k < |t.arcs| && sid in s.sessions && token == s.sessions[sid].tokenB
            && t.sessions == s.sessions && t.arcs[k].guests == [token] && t.arcs[k].pipe.slotAToB
            && P.Enabled(t.arcs[k].pipe, P.JoinerTakes(0))
  {
    var a := s.arcs[s.pending[sid]];
    assert ArcOk(a, s.sessions) && InTable(a);
    AdmittedRuns(a.pipe);
    hide P.Inv, P.Enabled, Admitted;
    assert a.guests == [];
  }

  /** The second token of a record, as the pending table's entry leads to it. */
  function TokenOf(arcs: seq<Arc>, k: nat): Option<string> {
    if k < |arcs| then Some(arcs[k].tokenB) else None
  }

  class RelayServer {
    const cfg: Config
    var now: Instant
    var init: map<string, Initialized>
    var pending: map<string, nat>
    ghost var sessions: map<string, Session>
    ghost var creating: nat
    var arcs: seq<Arc>
    var sweeper: Sweeper
    var lastSweep: Instant

    ghost function View(): State
      reads this
    {
      State(now, init, pending, sessions, creating, arcs, sweeper, lastSweep)
    }

    /** Tables and records agree, as module RelayTable states it. */
    ghost predicate Valid()
      reads this
    {
      Inv(View())
    }

    constructor (cfg: Config)
      ensures View() == START && Valid() && this.cfg == cfg
    {
      this.cfg := cfg;
      now, init, pending, sessions, creating := 0, map[], map[], map[], 0;
      arcs, sweeper, lastSweep := [], Asleep, 0;
      new;
      StartInv();
    }

    // -------------------------------------------------------------------------
    // relay_create

    /** Under both locks: is there room for one more session? */
    method CheckRoom() returns (room: bool)
      requires Valid()
      modifies this`creating
      ensures Valid() && |init| + |pending| == |init.Keys + pending.Keys|
      ensures creating == old(creating) + if room then 1 else 0
      ensures room <==> cfg.maxSessions == 0 || |init| + |pending| < cfg.maxSessions
      ensures if room then Does(cfg, old(View()), CreateCheck, View()) else View() == old(View())
    {
      hide Inv;
      TablesSize(View());
      if Enabled(cfg, View(), CreateCheck) {
        StepKeepsInv(cfg, View(), CreateCheck);
      }
      if cfg.maxSessions > 0 {
        var count := |init| + |pending|;
        if count >= cfg.maxSessions {
          return false;
        }
      }
      creating := creating + 1;
      return true;
    }

    method InsertSession(id: string, tokens: Session)
      requires Valid() && creating > 0 && id !in sessions
      modifies this`creating, this`sessions, this`init
      ensures Valid() && Does(cfg, old(View()), CreateInsert(id, tokens), View())
      ensures init == old(init)[id := Initialized(tokens, now)] && sessions == old(sessions)[id := tokens]
    {
      hide Inv;
      StepKeepsInv(cfg, View(), CreateInsert(id, tokens));
      creating := creating - 1;
      sessions := sessions[id := tokens];
      init := init[id := Initialized(tokens, now)];
    }

    /** The handler returns with an error between its check and its insertion. */
    method DropCreation()
      requires Valid() && creating > 0
      modifies this`creating
      ensures Valid() && View() == Step(cfg, old(View()), CreateFails) && creating == old(creating) - 1
    {
      hide Inv;
      StepKeepsInv(cfg, View(), CreateFails);
      creating := creating - 1;
    }

    /** `id` is a new UUID; `audited` says whether the audit row could be written. */
    method RelayCreate(id: string, tokens: Session, audited: bool) returns (reply: Created)
      requires Valid() && id !in sessions
      modifies this`creating, this`sessions, this`init
      ensures Valid()
      ensures reply == MaxSessionsReached <==> cfg.maxSessions > 0 && |old(init)| + |pending| >= cfg.maxSessions
      ensures reply != MaxSessionsReached ==>
                reply == if audited then SessionCreated(id, tokens.tokenA) else Failed
      ensures if reply.SessionCreated?
              then Reaches(Racing, cfg, old(View()), [CreateCheck, CreateInsert(id, tokens)], View())
              else View() == old(View())
      ensures reply.SessionCreated? ==> init == old(init)[id := Initialized(tokens, now)]
    {
      hide Inv, Step, Reaches;
      ghost var start := View();
      var room := CheckRoom();
      if !room {
        return MaxSessionsReached;
      }
      if !audited {
        DropCreation();
        return Failed;
      }
      InsertSession(id, tokens);
      TwoSteps(cfg, start, CreateCheck, CreateInsert(id, tokens));
      return SessionCreated(id, tokens.tokenA);
    }

    // -------------------------------------------------------------------------
    // relay_ws

    method CloneEntry(sid: string, token: string)
      requires Valid() && sid in init && init[sid].tokens.tokenA == token
      modifies this`arcs
      ensures Valid() && Does(cfg, old(View()), CloneInit(sid, token), View())
      ensures |arcs| == |old(arcs)| + 1 && arcs[|old(arcs)|].stage == Cloned && arcs[|old(arcs)|].sid == sid
      ensures arcs[|old(arcs)|].tokenB == init[sid].tokens.tokenB
    {
      hide Inv;
      StepKeepsInv(cfg, View(), CloneInit(sid, token));
      arcs := arcs + [Arc(sid, token, init[sid].tokens.tokenB, now, now, Cloned, [], P.NEW_PIPE)];
    }

    method BuildRecord(h: nat)
      requires Valid() && h < |arcs| && arcs[h].stage == Cloned
      modifies this`arcs
      ensures Valid() && Does(cfg, old(View()), Build(h), View())
      ensures |arcs| == |old(arcs)| && arcs[h] == old(arcs)[h].(stage := Built, createdAt := now)
    {
      hide Inv;
      StepKeepsInv(cfg, View(), Build(h));
      arcs := arcs[h := arcs[h].(stage := Built, createdAt := now)];
    }

    method RemoveEntry(h: nat)
      requires Valid() && h < |arcs| && arcs[h].stage == Built
      modifies this`arcs, this`init
      ensures Valid() && Does(cfg, old(View()), RemoveInit(h), View())
      ensures |arcs| == |old(arcs)| && arcs[h] == old(arcs)[h].(stage := Removed)
      ensures init == old(init) - {arcs[h].sid}
    {
      hide Inv;
      StepKeepsInv(cfg, View(), RemoveInit(h));
      init := init - {arcs[h].sid};
      arcs := arcs[h := arcs[h].(stage := Removed)];
    }

    /** The entry under a session id goes, and its reference with it. */
    method Unlist(sid: string)
      modifies this`pending, this`arcs
      ensures View() == Unlisted(old(View()), sid) && pending == old(pending) - {sid}
    {
      if sid in pending {
        var k := pending[sid];
        if k < |arcs| {
          arcs := arcs[k := Forget(arcs[k])];
        }
      }
      pending := pending - {sid};
    }

    method Publish(h: nat)
      requires Valid() && h < |arcs| && arcs[h].stage == Removed
      modifies this`pending, this`arcs
      ensures Valid() && Does(cfg, old(View()), InsertPending(h), View())
      ensures |arcs| == |old(arcs)|
      ensures arcs[h] == old(arcs)[h].(stage := Serving, pipe := arcs[h].pipe)
      ensures pending == old(pending)[arcs[h].sid := h]
      ensures P.Enabled(arcs[h].pipe, P.CreatorStarts) && P.Table in arcs[h].pipe.holders
    {
      hide Inv, Unlisted, Published;
      StepKeepsInv(cfg, View(), InsertPending(h));
      var a := arcs[h];
      PublishedRuns(View(), h);
      UnlistedLength(View(), a.sid);
      Unlist(a.sid);
      arcs := arcs[h := a.(stage := Serving, pipe := Published(a.pipe))];
      pending := pending[a.sid := h];
    }

    /** Under the lock of the pending table: take the entry if the token is its second one. */
    method TakePending(sid: string, token: string) returns (taken: bool)
      requires Valid()
      modifies this`pending, this`arcs
      ensures Valid()
      ensures taken <==> sid in old(pending) && TokenOf(old(arcs), old(pending)[sid]) == Some(token)
      ensures pending == if taken then old(pending) - {sid} else old(pending)
      ensures if taken then Does(cfg, old(View()), AdmitJoiner(sid, token), View()) else View() == old(View())
    {
      hide Inv, Admitted;
      EntriesAreRecords(View());
      if Enabled(cfg, View(), AdmitJoiner(sid, token)) {
        StepKeepsInv(cfg, View(), AdmitJoiner(sid, token));
      }
      if sid in pending && arcs[pending[sid]].tokenB == token {
        var k := pending[sid];
        pending := pending - {sid};
        arcs := arcs[k := arcs[k].(guests := arcs[k].guests + [token], pipe := Admitted(arcs[k].pipe))];
        return true;
      }
      return false;
    }

    /** A creator upgrade from the cloned entry to the published record. */
    method Upgrade(sid: string, token: string) returns (h: nat)
      requires Valid() && sid in init && init[sid].tokens.tokenA == token
      modifies this`arcs, this`init, this`pending
      ensures Valid() && h == |old(arcs)| < |arcs| && arcs[h].sid == sid && arcs[h].stage == Serving
      ensures arcs[h].tokenB == old(init)[sid].tokens.tokenB && arcs[h].createdAt == now
      ensures P.Enabled(arcs[h].pipe, P.CreatorStarts) && P.Table in arcs[h].pipe.holders
      ensures init == old(init) - {sid} && pending == old(pending)[sid := h]
      ensures Reaches(Racing, cfg, old(View()), UpgradeEvents(sid, token, h), View())
    {
      hide Inv, Step, Enabled, Reaches, UpgradeEvents;
      h := |arcs|;
      ghost var s0 := View();
      EnabledByToken(cfg, s0, sid, token);
      CloneEntry(sid, token);
      ghost var s1 := View();
      EnabledByStage(cfg, s1, h);
      BuildRecord(h);
      ghost var s2 := View();
      EnabledByStage(cfg, s2, h);
      RemoveEntry(h);
      ghost var s3 := View();
      EnabledByStage(cfg, s3, h);
      Publish(h);
      UpgradeRun(cfg, s0, s1, s2, s3, View(), sid, token, h);
    }

    method RelayWs(sid: string, token: string, present: bool) returns (reply: Reply)
      requires Valid()
      modifies this`arcs, this`init, this`pending
      ensures Valid()
      ensures reply == MissingToken <==> !present
      ensures reply == InvalidToken <==> present && sid in old(init) && old(init)[sid].tokens.tokenA != token
      ensures reply.CreatorSocket? <==> present && sid in old(init) && old(init)[sid].tokens.tokenA == token
      ensures reply.CreatorSocket? ==>
                reply.h == |old(arcs)| < |arcs| && arcs[reply.h].sid == sid
                && sid in sessions && token == sessions[sid].tokenA && arcs[reply.h].tokenB == sessions[sid].tokenB
                && init == old(init) - {sid} && pending == old(pending)[sid := reply.h]
                && P.Enabled(arcs[reply.h].pipe, P.CreatorStarts)
                && Reaches(Racing, cfg, old(View()), UpgradeEvents(sid, token, reply.h), View())
      ensures reply.JoinerSocket? <==>
                present && sid !in old(init) && sid in old(pending)
                && TokenOf(old(arcs), old(pending)[sid]) == Some(token)
      ensures reply.JoinerSocket? ==>
                reply.k == old(pending)[sid] < |arcs| && sid in sessions && token == sessions[sid].tokenB
                && arcs[reply.k].guests == [token] && arcs[reply.k].pipe.slotAToB
                && pending == old(pending) - {sid} && P.Enabled(arcs[reply.k].pipe, P.JoinerTakes(0))
                && Does(cfg, old(View()), AdmitJoiner(sid, token), View())
      ensures !reply.CreatorSocket? && !reply.JoinerSocket? ==> View() == old(View())
    {
      hide Inv, Step, Reaches;
      if !present {
        return MissingToken;
      }
      if sid in init {
        if init[sid].tokens.tokenA != token {
          return InvalidToken;
        }
        EntryTokens(View(), sid);
        var h := Upgrade(sid, token);
        return CreatorSocket(h);
      }
      if Enabled(cfg, View(), AdmitJoiner(sid, token)) {
        AdmittedGuest(cfg, View(), sid, token);
      }
      var k := if sid in pending then pending[sid] else 0;
      var taken := TakePending(sid, token);
      if taken {
        return JoinerSocket(k);
      }
      return NotFound;
    }

    /** A creator that leaves phase 1 ends its task and takes its session out of the table. */
    method Withdraw(k: nat)
      requires Valid() && k < |arcs| && arcs[k].stage == Serving && arcs[k].pipe.creator == P.Withdrawing
      modifies this`arcs, this`pending
      ensures Valid() && Does(cfg, old(View()), Task(k, P.CreatorWithdraws), View())
      ensures pending == old(pending) - {old(arcs)[k].sid}
    {
      hide Inv, Unlisted, P.StopCreator;
      StepKeepsInv(cfg, View(), Task(k, P.CreatorWithdraws));
      arcs := arcs[k := arcs[k].(pipe := P.StopCreator(arcs[k].pipe))];
      Unlist(arcs[k].sid);
    }

    // -------------------------------------------------------------------------
    // cleanup_loop, one round

    method Cleanup()
      requires Valid() && sweeper == Asleep && lastSweep + 60 * SECOND <= now
      modifies this`init, this`pending, this`arcs, this`sweeper, this`lastSweep
      ensures Valid() && sweeper == Asleep && lastSweep == now
      ensures Reaches(Racing, cfg, old(View()), [SweepBegin, SweepInit, SweepPending], View())
      ensures KeptInit(cfg, old(init), now, init) && KeptPending(cfg, old(pending), old(arcs), now, pending)
    {
      hide Inv, Stale, StalePending, SweptArcs, KeptInit, KeptPending;
      StepKeepsInv(cfg, View(), SweepBegin);
      sweeper := Awake(now);
      SweepInitTable();
      SweepPendingTable();
    }

    method SweepInitTable()
      requires Valid() && sweeper.Awake?
      modifies this`init, this`sweeper
      ensures Valid() && Does(cfg, old(View()), SweepInit, View())
      ensures KeptInit(cfg, old(init), old(sweeper).now, init)
    {
      hide Inv, Stale;
      SweepKeepsInit(cfg, View());
      StepKeepsInv(cfg, View(), SweepInit);
      init := map sid | sid in init && !Stale(cfg, sweeper.now, init[sid].createdAt) :: init[sid];
      sweeper := InitSwept(sweeper.now);
    }

    method StaleEntries(swept: Instant) returns (gone: set<string>)
      ensures forall sid :: sid in gone <==> StalePending(cfg, View(), swept, sid)
    {
      gone := set sid | sid in pending && pending[sid] < |arcs| && Stale(cfg, swept, arcs[pending[sid]].createdAt);
    }

    /** The references of the entries that go. */
    method ForgetRecords(gone: set<string>, swept: Instant)
      requires forall sid :: sid in gone <==> StalePending(cfg, View(), swept, sid)
      modifies this`arcs
      ensures arcs == SweptArcs(cfg, old(View()), swept)
    {
      ghost var s := View();
      var records, table := arcs, pending;
      var kept := seq(|records|, i requires 0 <= i < |records| =>
                      if exists sid :: sid in gone && sid in table && table[sid] == i
                      then Forget(records[i]) else records[i]);
      SweptArcsAre(cfg, s, swept, gone, kept);
      arcs := kept;
    }

    method SweepPendingTable()
      requires Valid() && sweeper.InitSwept?
      modifies this`pending, this`arcs, this`sweeper, this`lastSweep
      ensures Valid() && Does(cfg, old(View()), SweepPending, View())
      ensures KeptPending(cfg, old(pending), old(arcs), old(sweeper).now, pending)
    {
      hide Inv, StalePending, SweptArcs;
      SweepKeepsPending(cfg, View());
      StepKeepsInv(cfg, View(), SweepPending);
      var swept := sweeper.now;
      var gone := StaleEntries(swept);
      ForgetRecords(gone, swept);
      pending := map sid | sid in pending && sid !in gone :: pending[sid];
      sweeper := Asleep;
      lastSweep := swept;
      assert View() == Step(cfg, old(View()), SweepPending);
    }
  }
}

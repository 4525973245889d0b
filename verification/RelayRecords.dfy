/** The records in the tables are the sessions of module RelayPipe: whatever the handlers, the tasks and
    the sweeper do to a record is a run of its pipe, so what module RelayDelivery proves of such runs
    holds of every session of the server. */
module RelayRecords {
  import opened Common
  import D = RelayDelivery
  import P = RelayPipe
  import opened RelaySafety
  import opened RelayTable

  /** The events of record `k`'s two tasks in a run of the server. */
  function TaskEvents(es: seq<Event>, k: nat): seq<P.Event> {
    if es == [] then [] else (if es[0].Task? && es[0].k == k then [es[0].e] else []) + TaskEvents(es[1..], k)
  }

  lemma SentFirst(e: P.Event, es: seq<P.Event>)
    ensures P.SentByA([e] + es) == (if e.CreatorReads? then P.DataOf(e.a) else []) + P.SentByA(es)
    ensures P.SentByB([e] + es) == (if e.JoinerReads? then P.DataOf(e.b) else []) + P.SentByB(es)
  {
    hide P.DataOf;
    assert ([e] + es)[1..] == es;
  }

  lemma {:induction false} SentTwice(es: seq<P.Event>, fs: seq<P.Event>)
    ensures P.SentByA(es + fs) == P.SentByA(es) + P.SentByA(fs)
    ensures P.SentByB(es + fs) == P.SentByB(es) + P.SentByB(fs)
    decreases |es|, 1
  {
    if es == [] {
      assert es + fs == fs;
    } else {
      SentOneMore(es[0], es[1..], fs);
      assert es == [es[0]] + es[1..];
    }
  }

  lemma {:induction false} SentOneMore(e: P.Event, es: seq<P.Event>, fs: seq<P.Event>)
    ensures P.SentByA(([e] + es) + fs) == P.SentByA([e] + es) + P.SentByA(fs)
    ensures P.SentByB(([e] + es) + fs) == P.SentByB([e] + es) + P.SentByB(fs)
    decreases |es| + 1, 0
  {
    hide P.DataOf, P.SentByA, P.SentByB;
    SentTwice(es, fs);
    SentFirst(e, es);
    SentFirst(e, es + fs);
    Regroup([e], es, fs);
    Regroup(if e.CreatorReads? then P.DataOf(e.a) else [], P.SentByA(es), P.SentByA(fs));
    Regroup(if e.JoinerReads? then P.DataOf(e.b) else [], P.SentByB(es), P.SentByB(fs));
  }

  /** The pipe run `es` leads from `p` to `q`, and the sockets yielded in it what they did in `tasks`. */
  ghost predicate Relays(p: P.Pipe, es: seq<P.Event>, q: P.Pipe, tasks: seq<P.Event>) {
    P.Reaches(p, es, q) && P.SentByA(es) == P.SentByA(tasks) && P.SentByB(es) == P.SentByB(tasks)
  }

  lemma RelaysNothing(p: P.Pipe)
    ensures Relays(p, [], p, [])
  {}

  lemma RelaysThen(p: P.Pipe, es: seq<P.Event>, q: P.Pipe, tasks: seq<P.Event>, fs: seq<P.Event>, r: P.Pipe,
                   later: seq<P.Event>)
    requires Relays(p, es, q, tasks) && Relays(q, fs, r, later)
    ensures Relays(p, es + fs, r, tasks + later)
  {
    hide P.Reaches, P.SentByA, P.SentByB;
    P.ReachesChain(p, es, q, fs, r);
    SentTwice(es, fs);
    SentTwice(tasks, later);
  }

  /** One event of the handlers or the sweeper. */
  lemma RelaysOne(p: P.Pipe, e: P.Event)
    requires P.Enabled(p, e)
    ensures Relays(p, [e], P.Step(p, e), if P.OfTask(e) then [e] else [])
  {
    hide P.Step, P.Enabled, P.DataOf;
    assert [e][1..] == [];
    assert P.Reaches(P.Step(p, e), [], P.Step(p, e));
  }

  lemma ForgetRelays(a: Arc) returns (es: seq<P.Event>)
    ensures Relays(a.pipe, es, Forget(a).pipe, [])
  {
    if P.Table in a.pipe.holders {
      es := [P.Unpublish];
      RelaysOne(a.pipe, P.Unpublish);
    } else {
      es := [];
      assert a.pipe.holders - {P.Table} == a.pipe.holders;
      RelaysNothing(a.pipe);
    }
  }

  lemma UnlistedRelays(s: State, sid: string, k: nat) returns (es: seq<P.Event>)
    requires k < |s.arcs|
    ensures |Unlisted(s, sid).arcs| == |s.arcs| && Relays(s.arcs[k].pipe, es, Unlisted(s, sid).arcs[k].pipe, [])
  {
    hide Relays, Forget;
    if sid in s.pending && s.pending[sid] == k {
      es := ForgetRelays(s.arcs[k]);
    } else {
      es := [];
      RelaysNothing(s.arcs[k].pipe);
    }
  }

  lemma PublishRelays(s: State, h: nat, k: nat) returns (es: seq<P.Event>)
    requires h < |s.arcs| && k < |s.arcs| && s.arcs[h].pipe == P.NEW_PIPE
    ensures |PublishArc(s, h).arcs| == |s.arcs| && Relays(s.arcs[k].pipe, es, PublishArc(s, h).arcs[k].pipe, [])
  {
    hide Relays, Unlisted;
    es := UnlistedRelays(s, s.arcs[h].sid, k);
    if k == h {
      es := [P.Publish];
      RelaysOne(P.NEW_PIPE, P.Publish);
    }
  }

  lemma TaskRelays(cfg: Config, s: State, h: nat, e: P.Event, k: nat) returns (es: seq<P.Event>)
    requires Enabled(cfg, s, Task(h, e)) && k < |s.arcs|
    ensures |RunTask(cfg, s, h, e).arcs| == |s.arcs|
    ensures Relays(s.arcs[k].pipe, es, RunTask(cfg, s, h, e).arcs[k].pipe, if k == h then [e] else [])
  {
    hide Relays, Unlisted, P.Step, P.Enabled;
    var a := s.arcs[h];
    var deadline := if e.CreatorStarts? then s.now + cfg.timeout else a.deadline;
    var t := s.(arcs := s.arcs[h := a.(pipe := P.Step(a.pipe, e), deadline := deadline)]);
    if k == h {
      es := [e];
      RelaysOne(a.pipe, e);
    } else {
      es := [];
      RelaysNothing(s.arcs[k].pipe);
    }
    if e.CreatorWithdraws? {
      var fs := UnlistedRelays(t, a.sid, k);
      RelaysThen(s.arcs[k].pipe, es, t.arcs[k].pipe, if k == h then [e] else [], fs, Unlisted(t, a.sid).arcs[k].pipe,
                 []);
      es := es + fs;
      assert (if k == h then [e] else []) + [] == if k == h then [e] else [];
    }
  }

  lemma AdmitRelays(s: State, sid: string, token: string, k: nat) returns (es: seq<P.Event>)
    requires Inv(s) && sid in s.pending && s.pending[sid] == k
    ensures k < |s.arcs| && Relays(s.arcs[k].pipe, es, Admitted(s.arcs[k].pipe), [])
  {
    assert InTable(s.arcs[k]);
    es := [P.Admit];
    RelaysOne(s.arcs[k].pipe, P.Admit);
  }

  lemma SweepRelays(cfg: Config, s: State, now: Instant, k: nat) returns (es: seq<P.Event>)
    requires k < |s.arcs|
    ensures Relays(s.arcs[k].pipe, es, SweptArcs(cfg, s, now)[k].pipe, [])
  {
    hide Relays, Forget, StalePending;
    if exists sid :: sid in s.pending && s.pending[sid] == k && StalePending(cfg, s, now, sid) {
      es := ForgetRelays(s.arcs[k]);
    } else {
      es := [];
      RelaysNothing(s.arcs[k].pipe);
    }
  }

  /** One event of the server is a run of each record's pipe. */
  lemma StepRelays(cfg: Config, s: State, e: Event, k: nat) returns (es: seq<P.Event>)
    requires Inv(s) && Enabled(cfg, s, e) && k < |s.arcs|
    ensures k < |Step(cfg, s, e).arcs|
    ensures Relays(s.arcs[k].pipe, es, Step(cfg, s, e).arcs[k].pipe, if e.Task? && e.k == k then [e.e] else [])
  {
    hide Relays, PublishArc, RunTask, SweptArcs, Admitted, Stale, StalePending, P.Enabled, P.Step, InitOk, LeftInit,
        TableOk, P.Inv;
    RelaysNothing(s.arcs[k].pipe);
    es := [];
    match e
    case InsertPending(h) => es := PublishRelays(s, h, k);
    case Task(h, f) => es := TaskRelays(cfg, s, h, f, k);
    case AdmitJoiner(sid, token) =>
      if k == s.pending[sid] {
        es := AdmitRelays(s, sid, token, k);
      }
    case SweepPending => es := SweepRelays(cfg, s, s.sweeper.now, k);
    case _ =>
  }

  /** The pipe of record `k`, before there is one as it will be built. */
  function PipeOf(arcs: seq<Arc>, k: nat): P.Pipe {
    if k < |arcs| then arcs[k].pipe else P.NEW_PIPE
  }

  lemma NewRecord(cfg: Config, s: State, e: Event, k: nat)
    requires Enabled(cfg, s, e) && |s.arcs| <= k
    ensures PipeOf(Step(cfg, s, e).arcs, k) == P.NEW_PIPE
    ensures !(e.Task? && e.k == k)
  {
    hide InitMovesOn, PendingMovesOn, SameSessions, SameClock;
    StepMovesOn(cfg, s, e);
    if !e.CloneInit? {
      hide Step;
    }
  }

  lemma StepOfRecord(cfg: Config, s: State, e: Event, k: nat) returns (es: seq<P.Event>)
    requires Inv(s) && Enabled(cfg, s, e)
    ensures Relays(PipeOf(s.arcs, k), es, PipeOf(Step(cfg, s, e).arcs, k), if e.Task? && e.k == k then [e.e] else [])
  {
    hide Step, Relays, Enabled, Inv;
    if k < |s.arcs| {
      es := StepRelays(cfg, s, e, k);
    } else {
      NewRecord(cfg, s, e, k);
      es := [];
      RelaysNothing(P.NEW_PIPE);
    }
  }

  lemma {:induction false} RunOfRecord(sched: Schedule, cfg: Config, before: State, es: seq<Event>, after: State,
                                       k: nat)
    returns (fs: seq<P.Event>)
    requires Inv(before) && Reaches(sched, cfg, before, es, after)
    ensures Relays(PipeOf(before.arcs, k), fs, PipeOf(after.arcs, k), TaskEvents(es, k))
    decreases |es|
  {
    hide Inv, Step, Enabled, Allows, Relays, PipeOf;
    if es == [] {
      fs := [];
      RelaysNothing(PipeOf(before.arcs, k));
    } else {
      var next := Step(cfg, before, es[0]);
      StepKeepsInv(cfg, before, es[0]);
      var first := StepOfRecord(cfg, before, es[0], k);
      var rest := RunOfRecord(sched, cfg, next, es[1..], after, k);
      RelaysThen(PipeOf(before.arcs, k), first, PipeOf(next.arcs, k),
                 if es[0].Task? && es[0].k == k then [es[0].e] else [], rest, PipeOf(after.arcs, k),
                 TaskEvents(es[1..], k));
      fs := first + rest;
    }
  }

  /** In every run of the server, under any races, each record has come to where it is by a run of its
      pipe, and the sockets of that run yielded what the record's own did. */
  lemma EveryRecordIsASession(sched: Schedule, cfg: Config, es: seq<Event>, s: State, k: nat)
    requires Reaches(sched, cfg, START, es, s) && k < |s.arcs|
    ensures exists fs ::
              P.Reaches(P.NEW_PIPE, fs, s.arcs[k].pipe)
              && P.SentByA(fs) == P.SentByA(TaskEvents(es, k)) && P.SentByB(fs) == P.SentByB(TaskEvents(es, k))
  {
    StartInv();
    hide Inv, Reaches;
    var fs := RunOfRecord(sched, cfg, START, es, s, k);
    assert P.Reaches(P.NEW_PIPE, fs, s.arcs[k].pipe);
  }

  /** What a session of the server has done with its frames: of what A's socket yielded, B has a prefix,
      and as long as B can receive the rest is in hand, queued, buffered or, if A withdrew, discarded;
      of what B's socket yielded, A has a prefix, and as long as A can receive the rest is in hand or
      queued. */
  lemma EverySessionConserves(sched: Schedule, cfg: Config, es: seq<Event>, s: State, k: nat)
    requires Reaches(sched, cfg, START, es, s) && k < |s.arcs|
    ensures var p, tasks := s.arcs[k].pipe, TaskEvents(es, k);
            p.deliveredB <= P.SentByA(tasks) && p.deliveredA <= P.SentByB(tasks)
            && (!p.joiner.Gone? ==>
                  P.SentByA(tasks) == p.deliveredB + P.HeldForB(p) + p.aToB + p.preBuffer + p.discarded)
            && (!p.creator.Stopped? ==> P.SentByB(tasks) == p.deliveredA + P.HeldForA(p) + p.bToA)
  {
    hide Reaches;
    EveryRecordIsASession(sched, cfg, es, s, k);
    var fs :| P.Reaches(P.NEW_PIPE, fs, s.arcs[k].pipe)
              && P.SentByA(fs) == P.SentByA(TaskEvents(es, k)) && P.SentByB(fs) == P.SentByB(TaskEvents(es, k));
    hide P.Reaches, P.SentByA, P.SentByB;
    D.DeliveredIsPrefix(fs, s.arcs[k].pipe);
    D.ConservedUnlessAbandoned(fs, s.arcs[k].pipe);
  }
}

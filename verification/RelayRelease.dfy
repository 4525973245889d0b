/** A variant of the relay for which the closing rule of DESIGN.md:184 holds: the shared record
    gives its senders to the two tasks, so that a channel closes when the task that writes to it
    has ended. Everything else is as in RelayPipe. */
module RelayRelease {
  import opened RelayDelivery
  import opened RelayPipe

  predicate MayHappen(p: Pipe, e: Event) {
    match e
    case JoinerReceives => p.joiner.Running? && p.joiner.held == [] && (p.aToB != [] || p.creator == Stopped)
    case CreatorReceives => p.creator == Live([]) && (p.bToA != [] || p.joiner.Gone?)
    case _ => Enabled(p, e)
  }

  /** A receive on a closed and empty channel ends the task. */
  function Next(p: Pipe, e: Event): Pipe
    requires MayHappen(p, e)
  {
    if e == JoinerReceives && p.aToB == [] then StopJoiner(p)
    else if e == CreatorReceives && p.bToA == [] then StopCreator(p)
    else Step(p, e)
  }

  ghost predicate Runs(before: Pipe, es: seq<Event>, after: Pipe)
    decreases |es|
  {
    if es == [] then before == after
    else MayHappen(before, es[0]) && Runs(Next(before, es[0]), es[1..], after)
  }

  lemma NextKeepsInv(p: Pipe, e: Event)
    requires Inv(p) && MayHappen(p, e)
    ensures Inv(Next(p, e))
  {
    hide Inv, Step, StopJoiner, StopCreator;
    if e == JoinerReceives && p.aToB == [] {
      KeepsStopJoiner(p);
    } else if e == CreatorReceives && p.bToA == [] {
      KeepsStopCreator(p);
    } else {
      StepKeepsInv(p, e);
    }
  }

  lemma {:induction false} RunKeepsInv(before: Pipe, es: seq<Event>, after: Pipe)
    requires Inv(before) && Runs(before, es, after)
    ensures Inv(after)
    decreases |es|
  {
    hide Inv, Next, MayHappen;
    if es != [] {
      NextKeepsInv(before, es[0]);
      RunKeepsInv(Next(before, es[0]), es[1..], after);
    }
  }

  lemma SameStep(p: Pipe, e: Event)
    requires Inv(p) && Enabled(p, e)
    ensures MayHappen(p, e) && Next(p, e) == Step(p, e)
  {
    hide FlowAToB, FlowBToA, Quiet, Step;
  }

  /** Whatever the relay does, the variant can do: it only adds the closings. */
  lemma {:induction false} EveryRunIsARun(before: Pipe, es: seq<Event>, after: Pipe)
    requires Inv(before) && Reaches(before, es, after)
    ensures Runs(before, es, after)
    decreases |es|
  {
    hide Inv, Step, Enabled, Next, MayHappen;
    if es != [] {
      SameStep(before, es[0]);
      StepKeepsInv(before, es[0]);
      EveryRunIsARun(Step(before, es[0]), es[1..], after);
    }
  }

  lemma {:induction false} RunThenOne(before: Pipe, es: seq<Event>, mid: Pipe, e: Event)
    requires Runs(before, es, mid) && MayHappen(mid, e)
    ensures Runs(before, es + [e], Next(mid, e))
    decreases |es|
  {
    hide Next, MayHappen;
    if es == [] {
      assert [e][1..] == [] && es + [e] == [e];
    } else {
      RunThenOne(Next(before, es[0]), es[1..], mid, e);
      assert (es + [e])[1..] == es[1..] + [e];
    }
  }

  lemma HeldIsOne(p: Pipe)
    requires Inv(p)
    ensures |HeldForB(p)| <= 1 && |HeldForA(p)| <= 1
  {
    hide Quiet, Rendezvous, References;
  }

  /** The rule, for B: once A has left, B's task can be brought to its end with everything that was
      on its way delivered first. */
  lemma CreatorLeavingClosesTheJoiner(es: seq<Event>, p: Pipe)
    requires Runs(NEW_PIPE, es, p) && p.joiner.Running? && p.creator == Stopped
    ensures Runs(p, Drain(p.joiner.held, |p.aToB|) + [JoinerReceives], StopJoiner(Drained(p)))
    ensures StopJoiner(Drained(p)).joiner.Gone?
    ensures StopJoiner(Drained(p)).deliveredB == p.deliveredB + p.joiner.held + p.aToB
  {
    hide Inv, Reaches, Runs;
    NewPipeInv();
    RunKeepsInv(NEW_PIPE, es, p);
    HeldIsOne(p);
    DrainDelivers(p);
    EveryRunIsARun(p, Drain(p.joiner.held, |p.aToB|), Drained(p));
    RunThenOne(p, Drain(p.joiner.held, |p.aToB|), Drained(p), JoinerReceives);
  }

  /** The creator with its wake-up behind it. */
  function Noticed(p: Pipe): Pipe {
    if p.creator == Waiting then p.(permit := false, creator := Flushing) else p
  }

  function WakingRun(p: Pipe): seq<Event> {
    (if p.creator == Waiting then [CreatorNotified] else []) + FlushEvents(|p.preBuffer|)
  }

  function ClosingRun(p: Pipe): seq<Event> {
    WakingRun(p) + DrainToA([], |p.bToA|) + [CreatorReceives]
  }

  lemma GoneLeavesAPermit(p: Pipe)
    requires Inv(p) && p.joiner.Gone? && p.creator == Waiting
    ensures p.permit
  {
    hide FlowAToB, FlowBToA, Quiet, References;
  }

  /** ... and for A in phase 2. */
  lemma JoinerLeavingClosesTheCreator(es: seq<Event>, p: Pipe)
    requires Runs(NEW_PIPE, es, p) && p.creator.Live? && p.joiner.Gone?
    ensures Runs(p, DrainToA(p.creator.held, |p.bToA|) + [CreatorReceives], StopCreator(DrainedToA(p)))
    ensures StopCreator(DrainedToA(p)).creator == Stopped
    ensures StopCreator(DrainedToA(p)).deliveredA == p.deliveredA + p.creator.held + p.bToA
  {
    hide Inv, Reaches, Runs;
    NewPipeInv();
    RunKeepsInv(NEW_PIPE, es, p);
    HeldIsOne(p);
    DrainDeliversToA(p);
    EveryRunIsARun(p, DrainToA(p.creator.held, |p.bToA|), DrainedToA(p));
    RunThenOne(p, DrainToA(p.creator.held, |p.bToA|), DrainedToA(p), CreatorReceives);
  }

  /** A creator still waiting, or flushing, whose joiner has come and gone: it wakes up, drops its
      buffer into the closed channel, and ends with everything B sent delivered first. */
  lemma JoinerLeavingClosesTheWaitingCreator(es: seq<Event>, p: Pipe)
    requires Runs(NEW_PIPE, es, p) && p.creator in {Waiting, Flushing} && p.joiner.Gone?
    ensures Runs(p, ClosingRun(p), StopCreator(DrainedToA(Flushed(Noticed(p)))))
    ensures StopCreator(DrainedToA(Flushed(Noticed(p)))).creator == Stopped
    ensures StopCreator(DrainedToA(Flushed(Noticed(p)))).deliveredA == p.deliveredA + p.bToA
  {
    hide Inv, Reaches, Runs;
    NewPipeInv();
    RunKeepsInv(NEW_PIPE, es, p);
    if p.creator == Waiting {
      GoneLeavesAPermit(p);
    }
    var q := Flushed(Noticed(p));
    FlushDelivers(Noticed(p));
    DrainDeliversToA(q);
    if p.creator == Waiting {
      NoticeStep(p);
      ReachesChain(p, [CreatorNotified], Noticed(p), FlushEvents(|p.preBuffer|), q);
    }
    assert p.creator == Flushing ==> WakingRun(p) == FlushEvents(|p.preBuffer|);
    ReachesChain(p, WakingRun(p), q, DrainToA([], |p.bToA|), DrainedToA(q));
    EveryRunIsARun(p, WakingRun(p) + DrainToA([], |p.bToA|), DrainedToA(q));
    RunThenOne(p, WakingRun(p) + DrainToA([], |p.bToA|), DrainedToA(q), CreatorReceives);
    assert p.deliveredA + [] + p.bToA == p.deliveredA + p.bToA;
  }

  lemma JoinerReceiveContinues(p: Pipe)
    requires Enabled(p, JoinerReceives) && p.aToB != []
    ensures Step(p, JoinerReceives).joiner.Running?
  {}

  lemma NobodyElseTakes(p: Pipe, n: nat)
    requires Inv(p) && p.joiner.Running?
    ensures !Enabled(p, JoinerTakes(n))
  {
    hide FlowAToB, FlowBToA, Quiet;
  }

  /** And only then: an event ends the joiner's task exactly when its own socket does, or when A has
      left and nothing is on its way any more. */
  lemma JoinerEndsIffSocketOrPeer(es: seq<Event>, p: Pipe, e: Event)
    requires Runs(NEW_PIPE, es, p) && p.joiner.Running? && MayHappen(p, e)
    ensures Next(p, e).joiner.Gone? <==>
            e == JoinerSinks(false) || (e.JoinerReads? && Ends(e.b))
            || (e == JoinerReceives && p.aToB == [] && p.creator == Stopped)
  {
    hide Inv, Runs, Step, Reaches, CreatorRead, JoinerRead;
    NewPipeInv();
    RunKeepsInv(NEW_PIPE, es, p);
    match e
    case JoinerReads(i) => JoinerReadEnds(p, i);
    case JoinerSinks(ok) => JoinerSinkEnds(p, ok);
    case JoinerReceives =>
      if p.aToB != [] {
        JoinerReceiveContinues(p);
      }
    case JoinerTakes(n) => NobodyElseTakes(p, n);
    case CreatorReceives =>
      if p.bToA != [] {
        OthersLeaveTheJoiner(p, e);
      }
    case _ => OthersLeaveTheJoiner(p, e);
  }

  lemma CreatorReceiveContinues(p: Pipe)
    requires Enabled(p, CreatorReceives) && p.bToA != []
    ensures Step(p, CreatorReceives).creator.Live?
  {}

  /** ... and the creator's task in phase 2 exactly when its own socket does, or when B has gone and
      nothing is on its way any more. */
  lemma CreatorEndsIffSocketOrPeer(es: seq<Event>, p: Pipe, e: Event)
    requires Runs(NEW_PIPE, es, p) && p.creator.Live? && MayHappen(p, e)
    ensures Next(p, e).creator.Stopped? <==>
            e == CreatorSinks(false) || (e.CreatorReads? && Ends(e.a))
            || (e == CreatorReceives && p.bToA == [] && p.joiner.Gone?)
  {
    hide Inv, Runs, Step, Reaches, CreatorRead, JoinerRead;
    match e
    case CreatorReads(i) => CreatorReadEnds(p, i);
    case CreatorSinks(ok) => CreatorSinkEnds(p, ok);
    case CreatorReceives =>
      if p.bToA != [] {
        CreatorReceiveContinues(p);
      }
    case JoinerReceives =>
      if p.aToB != [] {
        OthersLeaveTheCreator(p, e);
      }
    case _ => OthersLeaveTheCreator(p, e);
  }
}

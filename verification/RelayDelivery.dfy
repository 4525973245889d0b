/** What a relay session delivers: which frames can be lost and when, that both tasks find their
    channels, what ends a task, and that nothing but a socket stands between a queue and its reader. */
module RelayDelivery {
  import opened RelayPipe

  // ---------------------------------------------------------------------------
  // Who touches what

  predicate OfCreator(e: Event) {
    e.CreatorNeverRuns? || e.CreatorStarts? || e.CreatorReads? || e.DeadlinePasses? || e.CreatorWithdraws?
    || e.CreatorNotified? || e.FlushOne? || e.FlushDone? || e.CreatorReceives? || e.CreatorSinks?
  }

  lemma CreatorLeavesJoinerAlone(p: Pipe, e: Event)
    requires Enabled(p, e) && OfCreator(e)
    ensures Step(p, e).joiner == p.joiner
  {
    hide SendersAToB, SendersBToA, StopCreator, CreatorRead, SendAToB;
    match e
    case CreatorNeverRuns => assert Step(p, e).joiner == p.joiner;
    case CreatorStarts => assert Step(p, e).joiner == p.joiner;
    case CreatorReads(_) => assert Step(p, e).joiner == p.joiner;
    case DeadlinePasses => assert Step(p, e).joiner == p.joiner;
    case CreatorWithdraws => assert Step(p, e).joiner == p.joiner;
    case CreatorNotified => assert Step(p, e).joiner == p.joiner;
    case FlushOne => assert Step(p, e).joiner == p.joiner;
    case FlushDone => assert Step(p, e).joiner == p.joiner;
    case CreatorReceives => assert Step(p, e).joiner == p.joiner;
    case CreatorSinks(_) => assert Step(p, e).joiner == p.joiner;
  }

  lemma JoinerLeavesCreatorAlone(p: Pipe, e: Event)
    requires Enabled(p, e) && OfTask(e) && !OfCreator(e)
    ensures Step(p, e).creator == p.creator && Step(p, e).discarded == p.discarded
  {
    hide SendersAToB, SendersBToA, StopJoiner, JoinerRead, SendBToA;
    match e
    case JoinerNeverRuns(_) => assert Step(p, e).creator == p.creator;
    case JoinerTakes(_) => assert Step(p, e).creator == p.creator;
    case JoinerNotifies => assert Step(p, e).creator == p.creator;
    case JoinerReads(_) => assert Step(p, e).creator == p.creator;
    case JoinerReceives => assert Step(p, e).creator == p.creator;
    case JoinerSinks(_) => assert Step(p, e).creator == p.creator;
  }

  lemma AbsentJoinerLeaves(p: Pipe, n: nat)
    requires Enabled(p, JoinerNeverRuns(n))
    ensures Step(p, JoinerNeverRuns(n)).joiner == p.joiner
  {}

  lemma TableLeavesTasksAlone(p: Pipe, e: Event)
    requires Enabled(p, e) && !OfTask(e)
    ensures Step(p, e).creator == p.creator && Step(p, e).joiner == p.joiner && Step(p, e).discarded == p.discarded
  {}

  // ---------------------------------------------------------------------------
  // Rendezvous

  lemma TakesSucceed(p: Pipe)
    requires Inv(p)
    ensures Enabled(p, CreatorStarts) ==> p.slotBToA && Step(p, CreatorStarts).creator == Waiting
    ensures forall n :: Enabled(p, JoinerTakes(n)) ==>
              n == 0 && p.slotAToB && p.joiner == Absent && Step(p, JoinerTakes(n)).joiner == Attached(0)
    ensures p.admitted <= 1
  {
    hide FlowAToB, FlowBToA, Quiet;
  }

  /** Both tasks find the receiver they come for, and only one joiner ever comes. */
  lemma BothTakesSucceed(es: seq<Event>, p: Pipe)
    requires Reaches(NEW_PIPE, es, p)
    ensures Enabled(p, CreatorStarts) ==> p.slotBToA && Step(p, CreatorStarts).creator == Waiting
    ensures forall n :: Enabled(p, JoinerTakes(n)) ==>
              n == 0 && p.slotAToB && p.joiner == Absent && Step(p, JoinerTakes(n)).joiner == Attached(0)
    ensures p.admitted <= 1
  {
    hide Inv, Reaches, Step, Enabled;
    ReachableInv(es, p);
    TakesSucceed(p);
  }

  /** The creator passes to phase 2 only after a joiner has taken the receiver, and a wake-up is
      never lost: from a joiner's notification on, the creator has used it, or has ended, or the
      permit is there for it, be it started yet or not. */
  lemma WakeUpIsNeverLost(es: seq<Event>, p: Pipe)
    requires Reaches(NEW_PIPE, es, p)
    ensures p.creator == Flushing || p.creator.Live? ==> !p.slotAToB
    ensures p.joiner.Running? || p.joiner.Gone? ==> p.permit || p.creator in {Flushing, Stopped} || p.creator.Live?
    ensures p.creator == Waiting && (p.joiner.Running? || p.joiner.Gone?) ==> Enabled(p, CreatorNotified)
  {
    ReachableInv(es, p);
  }

  lemma ReceiveYields(p: Pipe)
    requires Inv(p)
    ensures p.joiner.Running? ==> SendersAToB(p) >= 1
    ensures p.creator.Live? ==> SendersBToA(p) >= 1
    ensures Enabled(p, JoinerReceives) ==> p.aToB != [] && Step(p, JoinerReceives).joiner == Running(0, [p.aToB[0]])
    ensures Enabled(p, CreatorReceives) ==> p.bToA != [] && Step(p, CreatorReceives).creator == Live([p.bToA[0]])
  {
    hide FlowAToB, FlowBToA, Quiet, Rendezvous, StopCreator, StopJoiner;
  }

  /** A running task's channel never closes: the task that reads it keeps the shared record, and
      with it a sender, alive. A receive always yields a frame. */
  lemma ReceiveAlwaysYieldsAFrame(es: seq<Event>, p: Pipe)
    requires Reaches(NEW_PIPE, es, p)
    ensures p.joiner.Running? ==> SendersAToB(p) >= 1
    ensures p.creator.Live? ==> SendersBToA(p) >= 1
    ensures Enabled(p, JoinerReceives) ==> p.aToB != [] && Step(p, JoinerReceives).joiner == Running(0, [p.aToB[0]])
    ensures Enabled(p, CreatorReceives) ==> p.bToA != [] && Step(p, CreatorReceives).creator == Live([p.bToA[0]])
  {
    hide Inv, Reaches, Step, Enabled, SendersAToB, SendersBToA;
    ReachableInv(es, p);
    ReceiveYields(p);
  }

  // ---------------------------------------------------------------------------
  // Conservation

  /** Whatever is dropped on the way, each side has received a prefix of what the other sent. */
  lemma DeliveredIsPrefix(es: seq<Event>, p: Pipe)
    requires Reaches(NEW_PIPE, es, p)
    ensures p.deliveredB <= SentByA(es) && p.deliveredA <= SentByB(es)
  {
    ReachableInv(es, p);
    AcceptedIsSent(es, p);
  }

  /** Event `i` of the run is the creator leaving while its buffer has not been flushed. */
  ghost predicate Abandons(before: Pipe, es: seq<Event>, i: nat, mid: Pipe) {
    i < |es| && Reaches(before, es[..i], mid) && es[i] == CreatorWithdraws && mid.preBuffer != []
  }

  lemma BufferIsEmptyElsewhere(p: Pipe)
    requires Inv(p) && p.creator !in {Waiting, Withdrawing, Flushing}
    ensures p.preBuffer == []
  {
    hide FlowBToA, Quiet, Rendezvous, References;
  }

  lemma ReadDiscardsNothing(p: Pipe, i: Incoming)
    requires p.discarded == [] && (p.creator == Waiting || p.preBuffer == [])
    ensures CreatorRead(p, i).discarded == []
  {
    hide SendAToB;
  }

  lemma OthersDiscardNothing(p: Pipe, e: Event)
    requires Enabled(p, e) && (e.DeadlinePasses? || e.CreatorNotified? || e.FlushOne? || e.FlushDone?)
    ensures Step(p, e).discarded == p.discarded
  {
    hide SendAToB;
  }

  lemma ReadStep(p: Pipe, i: Incoming)
    requires Enabled(p, CreatorReads(i))
    ensures Step(p, CreatorReads(i)) == CreatorRead(p, i)
  {
    hide CreatorRead;
  }

  lemma JoinerReadStep(p: Pipe, i: Incoming)
    requires Enabled(p, JoinerReads(i))
    ensures Step(p, JoinerReads(i)) == JoinerRead(p, i)
  {
    hide JoinerRead;
  }

  lemma WithdrawalDiscards(p: Pipe)
    requires Enabled(p, CreatorWithdraws)
    ensures Step(p, CreatorWithdraws).discarded == p.preBuffer && Step(p, CreatorWithdraws).creator == Stopped
  {}

  lemma EmptyBufferDiscardsNothing(p: Pipe, e: Event)
    requires Enabled(p, e) && (e.CreatorNeverRuns? || e.CreatorStarts? || e.CreatorReceives? || e.CreatorSinks?)
    requires p.preBuffer == p.discarded == []
    ensures Step(p, e).discarded == []
  {
    hide SendersAToB, SendersBToA;
  }

  lemma CreatorDiscards(p: Pipe, e: Event)
    requires Inv(p) && Enabled(p, e) && OfCreator(e) && p.discarded == []
    ensures Step(p, e).discarded == if e == CreatorWithdraws then p.preBuffer else []
  {
    hide Inv, Step, CreatorRead, SendersAToB, SendersBToA;
    if p.creator !in {Waiting, Withdrawing, Flushing} {
      BufferIsEmptyElsewhere(p);
    }
    match e
    case CreatorReads(i) =>
      ReadDiscardsNothing(p, i);
      ReadStep(p, i);
    case CreatorWithdraws => WithdrawalDiscards(p);
    case CreatorNeverRuns => EmptyBufferDiscardsNothing(p, e);
    case CreatorStarts => EmptyBufferDiscardsNothing(p, e);
    case CreatorReceives => EmptyBufferDiscardsNothing(p, e);
    case CreatorSinks(_) => EmptyBufferDiscardsNothing(p, e);
    case _ => OthersDiscardNothing(p, e);
  }

  /** The only event that discards anything is a creator's withdrawal with a buffer. */
  lemma OnlyWithdrawalDiscards(p: Pipe, e: Event)
    requires Inv(p) && Enabled(p, e) && p.discarded == []
    ensures Step(p, e).discarded == if e == CreatorWithdraws then p.preBuffer else []
  {
    hide Inv, Step, Enabled, CreatorRead;
    if !OfTask(e) {
      TableLeavesTasksAlone(p, e);
    } else if !OfCreator(e) {
      JoinerLeavesCreatorAlone(p, e);
    } else {
      CreatorDiscards(p, e);
    }
  }

  lemma StoppedStays(p: Pipe, e: Event)
    requires Inv(p) && p.creator == Stopped && Enabled(p, e)
    ensures Step(p, e).creator == Stopped && Step(p, e).discarded == p.discarded
  {
    hide FlowAToB, FlowBToA, Quiet, SendersAToB, SendersBToA;
  }

  lemma {:induction false} StoppedRun(before: Pipe, es: seq<Event>, after: Pipe)
    requires Inv(before) && before.creator == Stopped && Reaches(before, es, after)
    ensures after.creator == Stopped && after.discarded == before.discarded && after.preBuffer == []
    decreases |es|
  {
    if es == [] {
      assert FlowAToB(before);
    } else {
      hide Inv, Step, Enabled;
      StoppedStays(before, es[0]);
      StepKeepsInv(before, es[0]);
      StoppedRun(Step(before, es[0]), es[1..], after);
    }
  }

  lemma AbandonsNow(before: Pipe, es: seq<Event>, mid: Pipe)
    ensures Abandons(before, es, 0, mid) <==>
            es != [] && mid == before && es[0] == CreatorWithdraws && before.preBuffer != []
  {}

  lemma AbandonsLater(before: Pipe, es: seq<Event>, i: nat, mid: Pipe)
    requires es != [] && Enabled(before, es[0]) && i > 0
    ensures Abandons(before, es, i, mid) <==> Abandons(Step(before, es[0]), es[1..], i - 1, mid)
  {
    hide Step, Enabled;
    if i < |es| {
      assert es[..i][1..] == es[1..][..i - 1] && es[..i][0] == es[0];
    }
  }

  lemma StoppedAbandonsNothing(before: Pipe, es: seq<Event>, i: nat, mid: Pipe)
    requires Inv(before) && before.creator == Stopped
    ensures !Abandons(before, es, i, mid)
  {
    hide Inv, Reaches;
    if i < |es| && Reaches(before, es[..i], mid) {
      StoppedRun(before, es[..i], mid);
    }
  }

  lemma NoEventAbandons(before: Pipe, i: nat, mid: Pipe)
    ensures !Abandons(before, [], i, mid)
  {}

  lemma AbandonedBuffer(before: Pipe, es: seq<Event>, i: nat, mid: Pipe)
    requires Abandons(before, es, i, mid)
    ensures mid.preBuffer != []
  {}

  /** Something was discarded exactly if the run has such a withdrawal, and then it is the buffer
      of that moment. */
  lemma {:induction false} DiscardedIffAbandoned(before: Pipe, es: seq<Event>, after: Pipe)
    requires Inv(before) && before.discarded == [] && Reaches(before, es, after)
    ensures after.discarded != [] <==> exists i, mid :: Abandons(before, es, i, mid)
    ensures forall i, mid :: Abandons(before, es, i, mid) ==> after.discarded == mid.preBuffer
    decreases |es|
  {
    hide Inv, Step, Enabled, Abandons;
    AbandonsNow(before, es, before);
    if es == [] {
      forall i: nat, mid
        ensures !Abandons(before, es, i, mid)
      {
        NoEventAbandons(before, i, mid);
      }
    } else {
      var next := Step(before, es[0]);
      StepKeepsInv(before, es[0]);
      OnlyWithdrawalDiscards(before, es[0]);
      if next.discarded != [] {
        WithdrawalDiscards(before);
        StoppedRun(next, es[1..], after);
      } else {
        DiscardedIffAbandoned(next, es[1..], after);
        if after.discarded != [] {
          var i: nat, mid :| Abandons(next, es[1..], i, mid);
          AbandonsLater(before, es, i + 1, mid);
        }
      }
      forall i: nat, mid | Abandons(before, es, i, mid)
        ensures after.discarded == mid.preBuffer && after.discarded != []
      {
        AbandonsNow(before, es, mid);
        if i > 0 {
          AbandonsLater(before, es, i, mid);
          if next.discarded != [] {
            StoppedAbandonsNothing(next, es[1..], i - 1, mid);
          } else {
            AbandonedBuffer(next, es[1..], i - 1, mid);
          }
        }
      }
    }
  }

  lemma FlowFacts(p: Pipe)
    requires Inv(p)
    ensures !p.joiner.Gone? ==>
              p.acceptedA == p.deliveredB + HeldForB(p) + p.aToB + p.preBuffer + p.discarded
    ensures !p.creator.Stopped? ==> p.acceptedB == p.deliveredA + HeldForA(p) + p.bToA
  {
    hide Quiet, Rendezvous, References;
  }

  lemma WholeIffNothingMore<T>(s: seq<T>, t: seq<T>)
    ensures s + t == s <==> t == []
  {
    assert |s + t| == |s| + |t|;
  }

  /** Conservation: while B's side can still receive, every data frame A's socket yielded is, in
      order, delivered, in hand, queued, waiting for the flush or discarded, and while A's side can,
      every one B's socket yielded is delivered, in hand or queued. Nothing is discarded, and so
      nothing lost, exactly if the creator never left with a buffer that had not been flushed. */
  lemma ConservedUnlessAbandoned(es: seq<Event>, p: Pipe)
    requires Reaches(NEW_PIPE, es, p)
    ensures !p.joiner.Gone? ==>
              SentByA(es) == p.deliveredB + HeldForB(p) + p.aToB + p.preBuffer + p.discarded
    ensures !p.creator.Stopped? ==> SentByB(es) == p.deliveredA + HeldForA(p) + p.bToA
    ensures p.discarded == [] <==> forall i, mid :: !Abandons(NEW_PIPE, es, i, mid)
    ensures !p.joiner.Gone? ==>
              (SentByA(es) == p.deliveredB + HeldForB(p) + p.aToB + p.preBuffer <==>
               forall i, mid :: !Abandons(NEW_PIPE, es, i, mid))
    ensures forall i, mid :: Abandons(NEW_PIPE, es, i, mid) ==> p.discarded == mid.preBuffer
  {
    AcceptedIsSent(es, p);
    hide Reaches, Abandons, Inv;
    ReachableInv(es, p);
    NewPipeInv();
    DiscardedIffAbandoned(NEW_PIPE, es, p);
    FlowFacts(p);
    WholeIffNothingMore(p.deliveredB + HeldForB(p) + p.aToB + p.preBuffer, p.discarded);
  }

  // The stages of a run that loses a frame

  const WAITING_PIPE :=
    NEW_PIPE.(holders := {Table, CreatorTask}, creator := Waiting, slotBToA := false, txCreator := true)

  function Buffered(m: WsMsg): Pipe {
    WAITING_PIPE.(preBuffer := [m], acceptedA := [m],
                  holders := {CreatorTask, JoinerTask(0)}, admitted := 1, ready := {0})
  }

  function Noticed(m: WsMsg): Pipe {
    Buffered(m).(slotAToB := false, ready := {}, joiner := Running(0, []), permit := true, txJoiner := true)
  }

  function Missed(m: WsMsg): Pipe {
    Noticed(m).(creator := Stopped, txCreator := false, preBuffer := [], discarded := [m], holders := {JoinerTask(0)})
  }

  lemma CreatorAppears()
    ensures Reaches(NEW_PIPE, [Publish, CreatorStarts], WAITING_PIPE)
  {
    ReachesTwo(NEW_PIPE, Publish, CreatorStarts);
  }

  lemma FrameIsBuffered(m: WsMsg)
    requires DataMsg(m)
    ensures Reaches(WAITING_PIPE, [CreatorReads(Frame(m)), Admit], Buffered(m))
  {
    ReachesTwo(WAITING_PIPE, CreatorReads(Frame(m)), Admit);
  }

  lemma JoinerAppears(m: WsMsg)
    ensures Reaches(Buffered(m), [JoinerTakes(0), JoinerNotifies], Noticed(m))
  {
    ReachesTwo(Buffered(m), JoinerTakes(0), JoinerNotifies);
  }

  lemma CreatorLeaves(m: WsMsg)
    ensures Reaches(Noticed(m), [CreatorReads(Frame(Close)), CreatorWithdraws], Missed(m))
  {
    ReachesTwo(Noticed(m), CreatorReads(Frame(Close)), CreatorWithdraws);
  }

  /** A frame buffered for a joiner that has already arrived is lost when the creator closes
      before it looks at the wake-up. */
  lemma ArrivedJoinerMayMissTheBuffer(m: WsMsg)
    requires DataMsg(m)
    ensures exists es, p ::
      Reaches(NEW_PIPE, es, p) && p.joiner == Running(0, []) && p.acceptedA == [m] && p.discarded == [m]
  {
    var buffered, noticed := [CreatorReads(Frame(m)), Admit], [JoinerTakes(0), JoinerNotifies];
    var left := [CreatorReads(Frame(Close)), CreatorWithdraws];
    CreatorAppears();
    FrameIsBuffered(m);
    JoinerAppears(m);
    CreatorLeaves(m);
    ReachesChain(NEW_PIPE, [Publish, CreatorStarts], WAITING_PIPE, buffered, Buffered(m));
    ReachesChain(NEW_PIPE, [Publish, CreatorStarts] + buffered, Buffered(m), noticed, Noticed(m));
    ReachesChain(NEW_PIPE, [Publish, CreatorStarts] + buffered + noticed, Noticed(m), left, Missed(m));
  }

  // ---------------------------------------------------------------------------
  // What ends a task

  /** An input that ends a loop: the socket's end or error, a pong or a close frame. */
  predicate Ends(i: Incoming) {
    i in {Ended, Frame(Pong), Frame(Close)}
  }

  lemma JoinerReadEnds(p: Pipe, i: Incoming)
    requires p.joiner.Running? && Enabled(p, JoinerReads(i))
    ensures Step(p, JoinerReads(i)).joiner.Gone? <==> Ends(i)
  {}

  lemma JoinerSinkEnds(p: Pipe, ok: bool)
    requires p.joiner.Running? && Enabled(p, JoinerSinks(ok))
    ensures Step(p, JoinerSinks(ok)).joiner.Gone? <==> !ok
  {}

  lemma OthersLeaveTheJoiner(p: Pipe, e: Event)
    requires Enabled(p, e) && p.joiner.Running? && !e.JoinerReads? && !e.JoinerSinks? && !e.JoinerReceives?
    requires !e.JoinerTakes?
    ensures Step(p, e).joiner == p.joiner
  {
    hide Step;
    if e.JoinerNeverRuns? {
      AbsentJoinerLeaves(p, e.k);
    } else if OfTask(e) {
      CreatorLeavesJoinerAlone(p, e);
    } else {
      TableLeavesTasksAlone(p, e);
    }
  }

  /** The joiner's task ends in an event exactly when its own socket ends it, by a failed write
      or by what it reads. The creator leaving is not among the causes, against what
      DESIGN.md:184 promises. */
  lemma OnlyItsOwnSocketEndsTheJoiner(es: seq<Event>, p: Pipe, e: Event)
    requires Reaches(NEW_PIPE, es, p) && p.joiner.Running? && Enabled(p, e)
    ensures Step(p, e).joiner.Gone? <==> e == JoinerSinks(false) || (e.JoinerReads? && Ends(e.b))
  {
    ReceiveAlwaysYieldsAFrame(es, p);
    BothTakesSucceed(es, p);
    hide Step, Enabled, Reaches, SendersAToB, SendersBToA;
    match e
    case JoinerReads(i) => JoinerReadEnds(p, i);
    case JoinerSinks(ok) => JoinerSinkEnds(p, ok);
    case JoinerReceives =>
    case JoinerTakes(_) =>
    case _ => OthersLeaveTheJoiner(p, e);
  }

  lemma CreatorReadEnds(p: Pipe, i: Incoming)
    requires p.creator.Live? && Enabled(p, CreatorReads(i))
    ensures Step(p, CreatorReads(i)).creator.Stopped? <==> Ends(i)
  {}

  lemma CreatorSinkEnds(p: Pipe, ok: bool)
    requires p.creator.Live? && Enabled(p, CreatorSinks(ok))
    ensures Step(p, CreatorSinks(ok)).creator.Stopped? <==> !ok
  {}

  lemma OthersLeaveTheCreator(p: Pipe, e: Event)
    requires Enabled(p, e) && p.creator.Live? && !e.CreatorReads? && !e.CreatorSinks? && !e.CreatorReceives?
    ensures Step(p, e).creator == p.creator
  {
    hide Step;
    if OfTask(e) {
      JoinerLeavesCreatorAlone(p, e);
    } else {
      TableLeavesTasksAlone(p, e);
    }
  }

  /** ... and likewise for the creator's task in phase 2. */
  lemma OnlyItsOwnSocketEndsTheCreator(es: seq<Event>, p: Pipe, e: Event)
    requires Reaches(NEW_PIPE, es, p) && p.creator.Live? && Enabled(p, e)
    ensures Step(p, e).creator.Stopped? <==> e == CreatorSinks(false) || (e.CreatorReads? && Ends(e.a))
  {
    ReceiveAlwaysYieldsAFrame(es, p);
    hide Step, Enabled, Reaches, SendersAToB, SendersBToA;
    match e
    case CreatorReads(i) => CreatorReadEnds(p, i);
    case CreatorSinks(ok) => CreatorSinkEnds(p, ok);
    case CreatorReceives =>
    case _ => OthersLeaveTheCreator(p, e);
  }

  lemma WaitingReadEnds(p: Pipe, i: Incoming)
    requires p.creator == Waiting && Enabled(p, CreatorReads(i))
    ensures Step(p, CreatorReads(i)).creator == if i in {Ended, Frame(Close)} then Withdrawing else Waiting
  {}

  lemma OthersLeaveTheWaiting(p: Pipe, e: Event)
    requires Inv(p) && Enabled(p, e) && p.creator == Waiting && !e.CreatorReads?
    requires e != CreatorNotified && e != DeadlinePasses
    ensures Step(p, e).creator == Waiting
  {
    hide Step, Inv;
    if !OfTask(e) {
      TableLeavesTasksAlone(p, e);
    } else if !OfCreator(e) {
      JoinerLeavesCreatorAlone(p, e);
    }
  }

  /** A waiting creator goes on to the flush exactly when it takes up a permit, and withdraws exactly
      when its deadline passes or its socket ends or yields a close frame; pongs do not matter here. */
  lemma WhatEndsTheWaiting(es: seq<Event>, p: Pipe, e: Event)
    requires Reaches(NEW_PIPE, es, p) && p.creator == Waiting && Enabled(p, e)
    ensures Step(p, e).creator == if e == CreatorNotified then Flushing
                                  else if e == DeadlinePasses || e in {CreatorReads(Ended), CreatorReads(Frame(Close))}
                                  then Withdrawing else Waiting
  {
    ReachableInv(es, p);
    hide Inv, Reaches, CreatorRead;
    if e.CreatorReads? {
      hide Step;
      WaitingReadEnds(p, e.a);
    } else if e != CreatorNotified && e != DeadlinePasses {
      hide Step;
      OthersLeaveTheWaiting(p, e);
    }
  }

  // ---------------------------------------------------------------------------
  // Draining

  /** The joiner writes out what it holds, then receives and writes the rest of its queue. */
  function Drain(held: seq<WsMsg>, queued: nat): seq<Event>
    decreases |held| + queued
  {
    if held != [] then [JoinerSinks(true)] + Drain([], queued)
    else if queued == 0 then []
    else [JoinerReceives, JoinerSinks(true)] + Drain([], queued - 1)
  }

  /** What the queue will look like once the joiner has drained it. */
  function Drained(p: Pipe): Pipe {
    p.(aToB := [], joiner := if p.joiner.Running? then Running(p.joiner.n, []) else p.joiner,
       deliveredB := p.deliveredB + HeldForB(p) + p.aToB)
  }

  lemma DrainNothing(p: Pipe)
    requires p.joiner.Running? && p.joiner.held == [] && p.aToB == []
    ensures Drained(p) == p
  {}

  lemma DrainHeld(p: Pipe)
    requires p.joiner.Running? && |p.joiner.held| == 1
    ensures Enabled(p, JoinerSinks(true))
    ensures var q := Step(p, JoinerSinks(true));
            q.joiner == Running(p.joiner.n, []) && q.aToB == p.aToB && Drained(q) == Drained(p)
  {}

  lemma DrainOne(p: Pipe)
    requires p.joiner.Running? && p.joiner.held == [] && p.aToB != []
    ensures Enabled(p, JoinerReceives)
    ensures var q := Step(p, JoinerReceives);
            Enabled(q, JoinerSinks(true))
            && var r := Step(q, JoinerSinks(true));
            r == p.(aToB := p.aToB[1..], deliveredB := p.deliveredB + [p.aToB[0]]) && Drained(r) == Drained(p)
  {
    MoveHead(p.deliveredB, p.aToB);
  }

  /** Nothing stands between the queue and B but B's own socket: if every write succeeds, the
      queue reaches B in full and in order, even after the creator has left. */
  lemma {:induction false} DrainDelivers(p: Pipe)
    requires p.joiner.Running? && |p.joiner.held| <= 1
    ensures Reaches(p, Drain(p.joiner.held, |p.aToB|), Drained(p))
    decreases |p.joiner.held| + 2 * |p.aToB|
  {
    hide Step, Enabled, Drained;
    if p.joiner.held != [] {
      DrainHeld(p);
      DrainDelivers(Step(p, JoinerSinks(true)));
      assert Drain(p.joiner.held, |p.aToB|)[1..] == Drain([], |p.aToB|);
    } else if p.aToB != [] {
      DrainOne(p);
      var q := Step(p, JoinerReceives);
      DrainDelivers(Step(q, JoinerSinks(true)));
      var es := Drain([], |p.aToB|);
      assert es[1..] == [JoinerSinks(true)] + Drain([], |p.aToB| - 1) && es[0] == JoinerReceives;
      assert es[1..][1..] == Drain([], |p.aToB| - 1);
      assert Reaches(q, es[1..], Drained(p));
    } else {
      DrainNothing(p);
    }
  }

  /** The same for the creator's task in phase 2 and its own queue. */
  function DrainToA(held: seq<WsMsg>, queued: nat): seq<Event>
    decreases |held| + queued
  {
    if held != [] then [CreatorSinks(true)] + DrainToA([], queued)
    else if queued == 0 then []
    else [CreatorReceives, CreatorSinks(true)] + DrainToA([], queued - 1)
  }

  function DrainedToA(p: Pipe): Pipe {
    p.(bToA := [], creator := if p.creator.Live? then Live([]) else p.creator,
       deliveredA := p.deliveredA + HeldForA(p) + p.bToA)
  }

  lemma DrainHeldToA(p: Pipe)
    requires p.creator.Live? && |p.creator.held| == 1
    ensures Enabled(p, CreatorSinks(true))
    ensures var q := Step(p, CreatorSinks(true));
            q.creator == Live([]) && q.bToA == p.bToA && DrainedToA(q) == DrainedToA(p)
  {}

  lemma DrainOneToA(p: Pipe)
    requires p.creator == Live([]) && p.bToA != []
    ensures Enabled(p, CreatorReceives)
    ensures var q := Step(p, CreatorReceives);
            Enabled(q, CreatorSinks(true))
            && var r := Step(q, CreatorSinks(true));
            r == p.(bToA := p.bToA[1..], deliveredA := p.deliveredA + [p.bToA[0]]) && DrainedToA(r) == DrainedToA(p)
  {
    MoveHead(p.deliveredA, p.bToA);
  }

  lemma DrainNothingToA(p: Pipe)
    requires p.creator == Live([]) && p.bToA == []
    ensures DrainedToA(p) == p
  {}

  lemma {:induction false} DrainDeliversToA(p: Pipe)
    requires p.creator.Live? && |p.creator.held| <= 1
    ensures Reaches(p, DrainToA(p.creator.held, |p.bToA|), DrainedToA(p))
    decreases |p.creator.held| + 2 * |p.bToA|
  {
    hide Step, Enabled, DrainedToA;
    if p.creator.held != [] {
      DrainHeldToA(p);
      DrainDeliversToA(Step(p, CreatorSinks(true)));
      assert DrainToA(p.creator.held, |p.bToA|)[1..] == DrainToA([], |p.bToA|);
    } else if p.bToA != [] {
      DrainOneToA(p);
      var q := Step(p, CreatorReceives);
      DrainDeliversToA(Step(q, CreatorSinks(true)));
      var es := DrainToA([], |p.bToA|);
      assert es[1..] == [CreatorSinks(true)] + DrainToA([], |p.bToA| - 1) && es[0] == CreatorReceives;
      assert es[1..][1..] == DrainToA([], |p.bToA| - 1);
      assert Reaches(q, es[1..], DrainedToA(p));
    } else {
      DrainNothingToA(p);
    }
  }

  /** In phase 2 the creator's socket is all that stands between A and everything B has sent. */
  lemma LiveCreatorReceivesEverything(es: seq<Event>, p: Pipe)
    requires Reaches(NEW_PIPE, es, p) && p.creator.Live?
    ensures Reaches(p, DrainToA(p.creator.held, |p.bToA|), DrainedToA(p)) && DrainedToA(p).deliveredA == SentByB(es)
  {
    ReachableInv(es, p);
    AcceptedIsSent(es, p);
    DrainDeliversToA(p);
  }

  // ---------------------------------------------------------------------------
  // From the wake-up to the last frame

  function FlushEvents(buffered: nat): seq<Event> {
    seq(buffered, _ => FlushOne) + [FlushDone]
  }

  /** The buffer is in the channel, or nowhere if B has already gone. */
  function Flushed(p: Pipe): Pipe {
    p.(preBuffer := [], aToB := if p.joiner.Gone? then p.aToB else p.aToB + p.preBuffer, creator := Live([]))
  }

  lemma FlushStep(p: Pipe)
    requires p.creator == Flushing && p.preBuffer != []
    ensures Enabled(p, FlushOne)
    ensures var q := Step(p, FlushOne);
            q.creator == Flushing && q.joiner == p.joiner && q.preBuffer == p.preBuffer[1..] && Flushed(q) == Flushed(p)
  {
    MoveHead(p.aToB, p.preBuffer);
  }

  lemma FlushEnd(p: Pipe)
    requires p.creator == Flushing && p.preBuffer == []
    ensures Enabled(p, FlushDone) && Step(p, FlushDone) == Flushed(p)
  {
    assert p.aToB + [] == p.aToB;
  }

  lemma {:induction false} FlushDelivers(p: Pipe)
    requires p.creator == Flushing
    ensures Reaches(p, FlushEvents(|p.preBuffer|), Flushed(p))
    decreases |p.preBuffer|
  {
    hide Step, Enabled, Flushed;
    var es := FlushEvents(|p.preBuffer|);
    if p.preBuffer == [] {
      FlushEnd(p);
      assert es == [FlushDone] && es[1..] == [];
    } else {
      FlushStep(p);
      FlushDelivers(Step(p, FlushOne));
      assert es[1..] == FlushEvents(|p.preBuffer| - 1) && es[0] == FlushOne;
    }
  }

  /** How a session in which both sides are still there comes to rest: the wake-up if it is still
      to come, the flush if it has not been made, and the draining. */
  function Completion(p: Pipe): seq<Event> {
    var drain := Drain(HeldForB(p), |p.aToB| + |p.preBuffer|);
    if p.creator == Waiting then [CreatorNotified] + (FlushEvents(|p.preBuffer|) + drain)
    else if p.creator == Flushing then FlushEvents(|p.preBuffer|) + drain
    else drain
  }

  function Completed(p: Pipe): Pipe {
    Drained(if p.creator == Waiting then Flushed(p.(permit := false, creator := Flushing))
            else if p.creator == Flushing then Flushed(p) else p)
  }

  lemma RunningFacts(p: Pipe)
    requires Inv(p) && p.joiner.Running? && (p.creator in {Waiting, Flushing} || p.creator.Live?)
    ensures p.discarded == [] && |p.joiner.held| <= 1 && (p.creator == Waiting ==> p.permit)
    ensures p.acceptedA == p.deliveredB + HeldForB(p) + p.aToB + p.preBuffer
    ensures p.creator.Live? ==> p.preBuffer == []
  {
    hide FlowBToA, Quiet, References;
  }

  lemma NoticeStep(p: Pipe)
    requires p.creator == Waiting && p.permit
    ensures Reaches(p, [CreatorNotified], p.(permit := false, creator := Flushing))
  {
    assert [CreatorNotified][1..] == [];
    assert Step(p, CreatorNotified) == p.(permit := false, creator := Flushing);
  }

  lemma CompletedDelivers(p: Pipe)
    requires p.acceptedA == p.deliveredB + HeldForB(p) + p.aToB + p.preBuffer
    requires p.joiner.Running? && (p.creator in {Waiting, Flushing} || p.preBuffer == [])
    ensures Completed(p).deliveredB == p.acceptedA == Completed(p).acceptedA
  {
    assert p.deliveredB + HeldForB(p) + (p.aToB + p.preBuffer) == p.deliveredB + HeldForB(p) + p.aToB + p.preBuffer;
  }

  lemma FlushedFacts(p: Pipe)
    requires p.joiner.Running?
    ensures var q := Flushed(p);
            q.joiner == p.joiner && HeldForB(q) == HeldForB(p) && |q.aToB| == |p.aToB| + |p.preBuffer|
  {}

  lemma FlushingSessionDelivers(p: Pipe)
    requires p.creator == Flushing && p.joiner.Running? && |p.joiner.held| <= 1
    ensures Reaches(p, FlushEvents(|p.preBuffer|) + Drain(HeldForB(p), |p.aToB| + |p.preBuffer|), Drained(Flushed(p)))
  {
    hide Reaches, Drain, Drained, Flushed, FlushEvents;
    FlushedFacts(p);
    FlushDelivers(p);
    DrainDelivers(Flushed(p));
    ReachesChain(p, FlushEvents(|p.preBuffer|), Flushed(p), Drain(HeldForB(p), |p.aToB| + |p.preBuffer|),
                 Drained(Flushed(p)));
  }

  lemma WaitingSessionDelivers(p: Pipe)
    requires p.creator == Waiting && p.permit && p.joiner.Running? && |p.joiner.held| <= 1
    ensures Reaches(p, [CreatorNotified] + (FlushEvents(|p.preBuffer|) + Drain(HeldForB(p), |p.aToB| + |p.preBuffer|)),
                    Drained(Flushed(p.(permit := false, creator := Flushing))))
  {
    hide Reaches, Drain, Drained, Flushed, FlushEvents;
    var q := p.(permit := false, creator := Flushing);
    NoticeStep(p);
    FlushingSessionDelivers(q);
    ReachesChain(p, [CreatorNotified], q, FlushEvents(|p.preBuffer|) + Drain(HeldForB(p), |p.aToB| + |p.preBuffer|),
                 Drained(Flushed(q)));
  }

  lemma CompletionReaches(p: Pipe)
    requires p.joiner.Running? && |p.joiner.held| <= 1 && (p.creator == Waiting ==> p.permit)
    requires p.creator in {Waiting, Flushing} || p.preBuffer == []
    ensures Reaches(p, Completion(p), Completed(p))
  {
    hide Reaches, Drain, Drained, Flushed, FlushEvents;
    if p.creator == Waiting {
      WaitingSessionDelivers(p);
    } else if p.creator == Flushing {
      FlushingSessionDelivers(p);
    } else {
      DrainDelivers(p);
    }
  }

  /** Whatever the stage, a session whose joiner is running and whose creator has not left can
      always be brought to where B has exactly what A sent: no frame is stuck or lost for good. */
  lemma RunningSessionDelivers(es: seq<Event>, p: Pipe)
    requires Reaches(NEW_PIPE, es, p) && p.joiner.Running?
    requires p.creator in {Waiting, Flushing} || p.creator.Live?
    ensures Reaches(p, Completion(p), Completed(p))
    ensures Completed(p).deliveredB == SentByA(es) == SentByA(es + Completion(p))
  {
    hide Inv, Reaches, Completion, Completed, SentByA;
    ReachableInv(es, p);
    AcceptedIsSent(es, p);
    RunningFacts(p);
    CompletionReaches(p);
    CompletedDelivers(p);
    ReachesChain(NEW_PIPE, es, p, Completion(p), Completed(p));
    AcceptedIsSent(es + Completion(p), Completed(p));
  }

  /** Once the buffer is flushed, B can be brought to exactly what A sent, even after A has left. */
  lemma FlushedSessionDelivers(es: seq<Event>, p: Pipe)
    requires Reaches(NEW_PIPE, es, p) && p.joiner.Running? && p.preBuffer == p.discarded == []
    ensures Reaches(p, Drain(p.joiner.held, |p.aToB|), Drained(p)) && Drained(p).deliveredB == SentByA(es)
  {
    ReachableInv(es, p);
    AcceptedIsSent(es, p);
    DrainDelivers(p);
  }
}

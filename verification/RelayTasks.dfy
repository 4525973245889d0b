/** The tasks `creator_ws` and `joiner_ws` of src/relay.rs as methods on the shared record they
    update, one method for each arm of their loops. Each is proved to be one event of module
    RelayPipe that keeps its invariant; `Flush`, which is a loop of its own, is a run of them. */
module RelayTasks {
  import opened RelayDelivery
  import opened RelayPipe

  lemma NotifiedHasJoiner(p: Pipe)
    requires Inv(p) && p.permit
    ensures !p.slotAToB
  {
    hide FlowAToB, FlowBToA, Quiet, References;
  }

  lemma DeliveredSoFar(p: Pipe)
    requires Inv(p)
    ensures p.deliveredA <= p.acceptedB && p.deliveredB <= p.acceptedA
  {
    hide Quiet, Rendezvous, References;
  }

  lemma FlushedConserves(p: Pipe)
    requires Inv(p) && p.creator.Live? && !p.joiner.Gone?
    ensures p.acceptedA == p.deliveredB + HeldForB(p) + p.aToB
  {
    hide FlowBToA, Quiet, Rendezvous, References;
  }

  lemma OnlyOneIsReady(p: Pipe, n: nat)
    requires Inv(p) && n in p.ready
    ensures p.ready == {n} && p.joiner == Absent && p.slotAToB && Table !in p.holders
  {
    hide FlowAToB, FlowBToA, Quiet;
  }

  lemma HoldsOne(p: Pipe)
    requires Inv(p)
    ensures p.creator.Live? ==> |p.creator.held| <= 1
    ensures p.joiner.Running? ==> |p.joiner.held| <= 1
  {
    hide Quiet, Rendezvous, References;
  }

  lemma WaitingReadEffect(p: Pipe, i: Incoming)
    requires p.creator == Waiting
    ensures var q := CreatorRead(p, i);
            q.preBuffer == p.preBuffer + DataOf(i) && q.acceptedA == p.acceptedA + DataOf(i)
            && q.creator == if i in {Ended, Frame(Close)} then Withdrawing else Waiting
  {
    hide StopCreator, SendAToB;
  }

  lemma WaitingReadCases(p: Pipe, i: Incoming)
    requires p.creator == Waiting
    ensures CreatorRead(p, i) == if i.Frame? && DataMsg(i.msg)
                                 then p.(preBuffer := p.preBuffer + [i.msg], acceptedA := p.acceptedA + [i.msg])
                                 else if i == Ended || i == Frame(Close) then p.(creator := Withdrawing) else p
  {
    hide StopCreator, SendAToB;
  }

  lemma StopFields(p: Pipe)
    ensures var q := StopCreator(p); q.acceptedA == p.acceptedA && q.aToB == p.aToB && q.creator == Stopped
    ensures p.joiner.Running? ==>
              var q := StopJoiner(p); q.acceptedB == p.acceptedB && q.bToA == p.bToA && q.joiner == Gone
  {}

  lemma SendFields(p: Pipe, m: WsMsg)
    ensures var q := SendAToB(p, m);
            q.acceptedA == p.acceptedA && q.aToB == if p.joiner.Gone? then p.aToB else p.aToB + [m]
    ensures var q := SendBToA(p, m);
            q.acceptedB == p.acceptedB && q.bToA == if p.creator.Stopped? then p.bToA else p.bToA + [m]
  {}

  lemma LiveReadEffect(p: Pipe, i: Incoming)
    requires p.creator == Live([])
    ensures var q := CreatorRead(p, i);
            q.acceptedA == p.acceptedA + DataOf(i)
            && q.aToB == (if p.joiner.Gone? then p.aToB else p.aToB + DataOf(i))
            && q.creator == if i in {Ended, Frame(Pong), Frame(Close)} then Stopped else Live([])
  {
    hide StopCreator, SendAToB;
    StopFields(p);
    if i.Frame? {
      SendFields(p.(acceptedA := p.acceptedA + [i.msg]), i.msg);
    }
  }

  lemma JoinerReadEffect(p: Pipe, i: Incoming)
    requires p.joiner.Running?
    ensures var q := JoinerRead(p, i);
            q.acceptedB == p.acceptedB + DataOf(i)
            && q.bToA == (if p.creator.Stopped? then p.bToA else p.bToA + DataOf(i))
            && q.joiner == if i in {Ended, Frame(Pong), Frame(Close)} then Gone else p.joiner
  {
    hide StopJoiner, SendBToA;
    StopFields(p);
    if i.Frame? {
      SendFields(p.(acceptedB := p.acceptedB + [i.msg]), i.msg);
    }
  }

  lemma SinkSteps(p: Pipe, ok: bool)
    ensures Enabled(p, CreatorSinks(ok)) ==>
              Step(p, CreatorSinks(ok)) == if ok then p.(creator := Live([]),
                                                         deliveredA := p.deliveredA + p.creator.held)
                                           else StopCreator(p)
    ensures Enabled(p, JoinerSinks(ok)) ==>
              Step(p, JoinerSinks(ok)) == if ok then p.(joiner := Running(p.joiner.n, []),
                                                        deliveredB := p.deliveredB + p.joiner.held)
                                          else StopJoiner(p)
  {
    hide StopCreator, StopJoiner;
  }

  lemma TakeSteps(p: Pipe, n: nat)
    ensures Enabled(p, JoinerTakes(n)) && p.slotAToB ==>
              Step(p, JoinerTakes(n)) == p.(ready := p.ready - {n}, slotAToB := false, joiner := Attached(n))
    ensures Enabled(p, JoinerNotifies) ==>
              Step(p, JoinerNotifies) == p.(permit := true, joiner := Running(p.joiner.n, []), txJoiner := true)
  {}

  class PendingRelay {
    var holders: set<Holder>
    ghost var admitted: nat
    var ready: set<nat>
    var permit: bool
    var slotAToB: bool
    var aToB: seq<WsMsg>
    var slotBToA: bool
    var bToA: seq<WsMsg>
    var creator: Creator
    var txCreator: bool
    var preBuffer: seq<WsMsg>
    ghost var discarded: seq<WsMsg>
    var joiner: Joiner
    var txJoiner: bool
    ghost var acceptedA: seq<WsMsg>
    ghost var deliveredB: seq<WsMsg>
    ghost var acceptedB: seq<WsMsg>
    ghost var deliveredA: seq<WsMsg>

    ghost function View(): Pipe
      reads this
    {
      Pipe(holders, admitted, ready, permit, slotAToB, aToB, slotBToA, bToA, creator, txCreator,
           preBuffer, discarded, joiner, txJoiner, acceptedA, deliveredB, acceptedB, deliveredA)
    }

    /** Conservation, rendezvous and references, as module RelayPipe states them. */
    ghost predicate Valid()
      reads this
    {
      Inv(View())
    }

    constructor ()
      ensures View() == NEW_PIPE && Valid()
    {
      holders, admitted, ready, permit := {Handler}, 0, {}, false;
      slotAToB, aToB, slotBToA, bToA := true, [], true, [];
      creator, txCreator, preBuffer, discarded := Unstarted, false, [], [];
      joiner, txJoiner := Absent, false;
      acceptedA, deliveredB, acceptedB, deliveredA := [], [], [], [];
      new;
      NewPipeInv();
    }

    // -------------------------------------------------------------------------
    // creator_ws

    /** The locals of the creator's task go out of scope. */
    method DropCreator()
      modifies this`creator, this`txCreator, this`bToA, this`discarded, this`preBuffer, this`holders
      ensures View() == StopCreator(old(View()))
    {
      DropBuffer();
      creator := Stopped;
      txCreator := false;
      bToA := [];
      holders := holders - {CreatorTask};
    }

    method DropBuffer()
      modifies this`discarded, this`preBuffer
      ensures View() == old(View()).(discarded := old(preBuffer), preBuffer := [])
    {
      discarded := preBuffer;
      preBuffer := [];
    }

    /** The upgrade fails and the task is dropped before it has run. */
    method CreatorDropped()
      requires Valid() && creator == Unstarted && CreatorTask in holders
      modifies this`creator, this`txCreator, this`bToA, this`discarded, this`preBuffer, this`holders
      ensures Valid() && View() == Step(old(View()), CreatorNeverRuns)
      ensures creator == Stopped && (Table in holders <==> old(Table in holders))
    {
      hide Inv;
      StepKeepsInv(View(), CreatorNeverRuns);
      DropCreator();
    }

    method StartCreator()
      requires Valid() && creator == Unstarted && CreatorTask in holders
      modifies this`creator, this`txCreator, this`slotBToA, this`bToA, this`discarded, this`preBuffer, this`holders
      ensures Valid() && View() == Step(old(View()), CreatorStarts)
      ensures creator == Waiting && !slotBToA && txCreator
    {
      hide Inv;
      ghost var before := View();
      if !slotBToA {
        DropCreator();
      } else {
        slotBToA := false;
        txCreator := true;
        creator := Waiting;
      }
      StepKeepsInv(before, CreatorStarts);
      TakesSucceed(before);
    }

    method BufferFrame(m: WsMsg)
      modifies this`preBuffer, this`acceptedA
      ensures View() == old(View()).(preBuffer := old(preBuffer) + [m], acceptedA := old(acceptedA) + [m])
    {
      preBuffer := preBuffer + [m];
      acceptedA := acceptedA + [m];
    }

    /** Phase 1, the arm of the socket. */
    method WaitingRead(i: Incoming)
      requires Valid() && creator == Waiting
      modifies this`preBuffer, this`acceptedA, this`creator
      ensures Valid() && View() == Step(old(View()), CreatorReads(i))
      ensures preBuffer == old(preBuffer) + DataOf(i) && acceptedA == old(acceptedA) + DataOf(i)
      ensures creator == if i in {Ended, Frame(Close)} then Withdrawing else Waiting
    {
      hide Inv, Step, DataOf, CreatorRead;
      ghost var before := View();
      ReadStep(before, i);
      WaitingReadCases(before, i);
      WaitingReadEffect(before, i);
      if i.Frame? && DataMsg(i.msg) {
        BufferFrame(i.msg);
      } else if i == Ended || i == Frame(Close) {
        creator := Withdrawing;
      }
      StepKeepsInv(before, CreatorReads(i));
    }

    /** Phase 1, the arm of the deadline. */
    method DeadlinePassed()
      requires Valid() && creator == Waiting
      modifies this`creator
      ensures Valid() && View() == Step(old(View()), DeadlinePasses)
      ensures creator == Withdrawing
    {
      hide Inv;
      StepKeepsInv(View(), DeadlinePasses);
      creator := Withdrawing;
    }

    /** The creator leaves phase 1; its session's table entry is removed by the server. */
    method Withdraw()
      requires Valid() && creator == Withdrawing
      modifies this`creator, this`txCreator, this`bToA, this`discarded, this`preBuffer, this`holders
      ensures Valid() && View() == Step(old(View()), CreatorWithdraws)
      ensures creator == Stopped && !txCreator && CreatorTask !in holders && discarded == old(preBuffer)
    {
      hide Inv;
      StepKeepsInv(View(), CreatorWithdraws);
      DropCreator();
    }

    /** Phase 1, the arm of the wake-up. */
    method Notified()
      requires Valid() && creator == Waiting && permit
      modifies this`permit, this`creator
      ensures Valid() && View() == Step(old(View()), CreatorNotified)
      ensures creator == Flushing && !permit && !slotAToB
    {
      hide Inv;
      ghost var before := View();
      permit := false;
      creator := Flushing;
      StepKeepsInv(before, CreatorNotified);
      NotifiedHasJoiner(before);
    }

    method SendToB(m: WsMsg)
      modifies this`aToB
      ensures View() == SendAToB(old(View()), m)
    {
      if !joiner.Gone? {
        aToB := aToB + [m];
      }
    }

    /** One round of the flush. */
    method FlushNext()
      requires Valid() && creator == Flushing && preBuffer != []
      modifies this`aToB, this`preBuffer
      ensures Valid() && View() == Step(old(View()), FlushOne)
      ensures preBuffer == old(preBuffer)[1..]
      ensures aToB == if joiner.Gone? then old(aToB) else old(aToB) + [old(preBuffer)[0]]
    {
      hide Inv;
      ghost var before := View();
      var m := preBuffer[0];
      preBuffer := preBuffer[1..];
      SendToB(m);
      StepKeepsInv(before, FlushOne);
    }

    /** The flush between the phases: the buffer goes to the channel in order, or nowhere if the
        joiner has already gone. */
    method Flush()
      requires Valid() && creator == Flushing
      modifies this`aToB, this`preBuffer, this`creator
      ensures Valid() && creator == Live([]) && preBuffer == []
      ensures !joiner.Gone? ==> acceptedA == deliveredB + HeldForB(View()) + aToB
      ensures aToB == if joiner.Gone? then old(aToB) else old(aToB) + old(preBuffer)
      ensures Reaches(old(View()), FlushEvents(|old(preBuffer)|), View())
    {
      hide Inv, Step, Reaches;
      ghost var start, flushed := View(), 0;
      assert seq(0, _ => FlushOne) == [];
      NoEvents(start);
      while preBuffer != []
        invariant Valid() && creator == Flushing && flushed <= |start.preBuffer|
        invariant preBuffer == start.preBuffer[flushed..]
        invariant aToB == if joiner.Gone? then start.aToB else start.aToB + start.preBuffer[..flushed]
        invariant Reaches(start, seq(flushed, _ => FlushOne), View())
        decreases |preBuffer|
      {
        ghost var before := View();
        FlushNext();
        ReachesOneMore(start, seq(flushed, _ => FlushOne), before, FlushOne);
        assert seq(flushed, _ => FlushOne) + [FlushOne] == seq(flushed + 1, _ => FlushOne);
        flushed := flushed + 1;
      }
      EndFlush(start, flushed);
      if !joiner.Gone? {
        FlushedConserves(View());
      }
    }

    method EndFlush(ghost start: Pipe, ghost flushed: nat)
      requires Valid() && Enabled(View(), FlushDone) && Reaches(start, seq(flushed, _ => FlushOne), View())
      modifies this`creator
      ensures Valid() && creator == Live([])
      ensures Reaches(start, FlushEvents(flushed), View())
    {
      hide Inv, Reaches;
      ReachesOneMore(start, seq(flushed, _ => FlushOne), View(), FlushDone);
      StepKeepsInv(View(), FlushDone);
      creator := Live([]);
    }

    method ForwardToB(m: WsMsg)
      modifies this`acceptedA, this`aToB
      ensures View() == SendAToB(old(View()).(acceptedA := old(acceptedA) + [m]), m)
    {
      acceptedA := acceptedA + [m];
      SendToB(m);
    }

    /** Phase 2, the arm of the socket. */
    method LiveRead(i: Incoming)
      requires Valid() && creator == Live([])
      modifies this`acceptedA, this`aToB, this`creator, this`txCreator, this`bToA, this`discarded
      modifies this`preBuffer, this`holders
      ensures Valid() && View() == Step(old(View()), CreatorReads(i))
      ensures acceptedA == old(acceptedA) + DataOf(i)
      ensures aToB == if joiner.Gone? then old(aToB) else old(aToB) + DataOf(i)
      ensures creator == if i in {Ended, Frame(Pong), Frame(Close)} then Stopped else Live([])
    {
      hide Inv, Step, DataOf, StopCreator, SendAToB;
      ghost var before := View();
      ReadStep(before, i);
      LiveReadEffect(before, i);
      if i.Frame? && DataMsg(i.msg) {
        ForwardToB(i.msg);
      } else if i != Frame(Ping) {
        DropCreator();
      }
      StepKeepsInv(before, CreatorReads(i));
    }

    /** Phase 2, the arm of the channel: the receive ... */
    method ReceiveFromB()
      requires Valid() && creator == Live([]) && (bToA != [] || SendersBToA(View()) == 0)
      modifies this`creator, this`txCreator, this`bToA, this`discarded, this`preBuffer, this`holders
      ensures Valid() && View() == Step(old(View()), CreatorReceives)
      ensures old(bToA) != [] && creator == Live([old(bToA)[0]]) && bToA == old(bToA)[1..]
    {
      hide Inv;
      ghost var before := View();
      if bToA != [] {
        creator := Live([bToA[0]]);
        bToA := bToA[1..];
      } else {
        DropCreator();
      }
      StepKeepsInv(before, CreatorReceives);
      ReceiveYields(before);
    }

    /** ... and the write of what was received. */
    method WriteToA(ok: bool) returns (written: WsMsg)
      requires Valid() && creator.Live? && creator.held != []
      modifies this`deliveredA, this`creator, this`txCreator, this`bToA, this`discarded, this`preBuffer, this`holders
      ensures Valid() && View() == Step(old(View()), CreatorSinks(ok))
      ensures old(creator) == Live([written]) && deliveredA <= acceptedB
      ensures deliveredA == (if ok then old(deliveredA) + [written] else old(deliveredA))
      ensures creator == if ok then Live([]) else Stopped
    {
      HoldsOne(View());
      hide Inv, Step, StopCreator;
      SinkSteps(View(), ok);
      ghost var before := View();
      written := creator.held[0];
      if ok {
        deliveredA := deliveredA + creator.held;
        creator := Live([]);
      } else {
        DropCreator();
      }
      StepKeepsInv(before, CreatorSinks(ok));
      DeliveredSoFar(View());
    }

    // -------------------------------------------------------------------------
    // joiner_ws

    method DropJoiner()
      requires joiner.Running?
      modifies this`joiner, this`txJoiner, this`aToB, this`holders
      ensures View() == StopJoiner(old(View()))
    {
      holders := holders - {JoinerTask(joiner.n)};
      joiner := Gone;
      txJoiner := false;
      aToB := [];
    }

    /** The upgrade fails and the task is dropped before it has run: its session has no joiner any
        more, and the receiver stays where it is. */
    method JoinerDropped(n: nat)
      requires Valid() && n in ready
      modifies this`ready, this`holders
      ensures Valid() && View() == Step(old(View()), JoinerNeverRuns(n))
      ensures slotAToB && joiner == Absent && ready == {} && Table !in holders
    {
      OnlyOneIsReady(View(), n);
      hide Inv;
      StepKeepsInv(View(), JoinerNeverRuns(n));
      ready := ready - {n};
      holders := holders - {JoinerTask(n)};
    }

    method JoinerTake(n: nat)
      requires Valid() && n in ready
      modifies this`ready, this`slotAToB, this`joiner, this`holders
      ensures Valid() && View() == Step(old(View()), JoinerTakes(n))
      ensures joiner == Attached(n) && !slotAToB && n !in ready
    {
      hide Inv, SendersAToB, SendersBToA, StopCreator, StopJoiner, CreatorRead, JoinerRead, SendAToB;
      ghost var before := View();
      ready := ready - {n};
      if !slotAToB {
        holders := holders - {JoinerTask(n)};
      } else {
        slotAToB := false;
        joiner := Attached(n);
      }
      StepKeepsInv(before, JoinerTakes(n));
      TakesSucceed(before);
    }

    method NotifyCreator()
      requires Valid() && joiner.Attached?
      modifies this`permit, this`joiner, this`txJoiner
      ensures Valid() && View() == Step(old(View()), JoinerNotifies)
      ensures permit && txJoiner && joiner == Running(old(joiner).n, [])
    {
      hide Inv, Step;
      TakeSteps(View(), joiner.n);
      ghost var before := View();
      permit := true;
      txJoiner := true;
      joiner := Running(joiner.n, []);
      StepKeepsInv(before, JoinerNotifies);
    }

    method JoinerSocket(i: Incoming)
      requires Valid() && joiner.Running? && joiner.held == []
      modifies this`acceptedB, this`bToA, this`joiner, this`txJoiner, this`aToB, this`holders
      ensures Valid() && View() == Step(old(View()), JoinerReads(i))
      ensures acceptedB == old(acceptedB) + DataOf(i)
      ensures bToA == if creator.Stopped? then old(bToA) else old(bToA) + DataOf(i)
      ensures joiner == if i in {Ended, Frame(Pong), Frame(Close)} then Gone else old(joiner)
    {
      hide Inv, Step, DataOf, StopJoiner;
      ghost var before := View();
      JoinerReadStep(before, i);
      JoinerReadEffect(before, i);
      if i.Frame? && DataMsg(i.msg) {
        acceptedB := acceptedB + [i.msg];
        if !creator.Stopped? {
          bToA := bToA + [i.msg];
        }
      } else if i != Frame(Ping) {
        DropJoiner();
      }
      StepKeepsInv(before, JoinerReads(i));
    }

    method ReceiveFromA()
      requires Valid() && joiner.Running? && joiner.held == [] && (aToB != [] || SendersAToB(View()) == 0)
      modifies this`joiner, this`txJoiner, this`aToB, this`holders
      ensures Valid() && View() == Step(old(View()), JoinerReceives)
      ensures old(aToB) != [] && joiner == Running(0, [old(aToB)[0]]) && aToB == old(aToB)[1..]
    {
      hide Inv;
      ghost var before := View();
      if aToB != [] {
        joiner := Running(joiner.n, [aToB[0]]);
        aToB := aToB[1..];
      } else {
        DropJoiner();
      }
      StepKeepsInv(before, JoinerReceives);
      ReceiveYields(before);
    }

    method WriteToB(ok: bool) returns (written: WsMsg)
      requires Valid() && joiner.Running? && joiner.held != []
      modifies this`deliveredB, this`joiner, this`txJoiner, this`aToB, this`holders
      ensures Valid() && View() == Step(old(View()), JoinerSinks(ok))
      ensures old(joiner).Running? && old(joiner).held == [written] && deliveredB <= acceptedA
      ensures deliveredB == (if ok then old(deliveredB) + [written] else old(deliveredB))
      ensures joiner == if ok then Running(old(joiner).n, []) else Gone
    {
      HoldsOne(View());
      hide Inv, Step, StopJoiner;
      SinkSteps(View(), ok);
      ghost var before := View();
      written := joiner.held[0];
      if ok {
        deliveredB := deliveredB + joiner.held;
        joiner := Running(joiner.n, []);
      } else {
        DropJoiner();
      }
      StepKeepsInv(before, JoinerSinks(ok));
      DeliveredSoFar(View());
    }
  }
}

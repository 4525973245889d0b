/** One relay session once its creator has connected: the `PendingRelay` of src/state.rs with the
    tasks `creator_ws` and `joiner_ws` of src/relay.rs.

    Every lock, channel operation, socket read and socket write of the two tasks is one event.
    `accepted` are the data frames read from a socket, `delivered` those written to the other one. */
module RelayPipe {
  import opened Common

  datatype WsMsg = Text(body: string) | Binary(body: string) | Ping | Pong | Close

  predicate DataMsg(m: WsMsg) {
    m.Text? || m.Binary?
  }

  /** What a socket yields: a frame, or its end or an error. */
  datatype Incoming = Frame(msg: WsMsg) | Ended

  /** Who holds a reference to the session's shared record. */
  datatype Holder = Handler | Table | CreatorTask | JoinerTask(n: nat)

  /** `held` is the frame taken from a channel whose write to the socket is in progress. */
  datatype Creator = Unstarted | Waiting | Withdrawing | Flushing | Live(held: seq<WsMsg>) | Stopped
  datatype Joiner = Absent | Attached(n: nat) | Running(n: nat, held: seq<WsMsg>) | Gone

  /** `slotAToB` and `slotBToA` say whether the receivers are still in the shared record,
      `txCreator` and `txJoiner` whether a task's own clone of a sender is alive. */
  datatype Pipe = Pipe(
    holders: set<Holder>, admitted: nat, ready: set<nat>, permit: bool,
    slotAToB: bool, aToB: seq<WsMsg>, slotBToA: bool, bToA: seq<WsMsg>,
    creator: Creator, txCreator: bool, preBuffer: seq<WsMsg>, discarded: seq<WsMsg>,
    joiner: Joiner, txJoiner: bool,
    acceptedA: seq<WsMsg>, deliveredB: seq<WsMsg>, acceptedB: seq<WsMsg>, deliveredA: seq<WsMsg>)

  /** The record as the upgrade handler builds it. */
  const NEW_PIPE := Pipe({Handler}, 0, {}, false, true, [], true, [],
                         Unstarted, false, [], [], Absent, false, [], [], [], [])

  function HeldForB(p: Pipe): seq<WsMsg> {
    if p.joiner.Running? then p.joiner.held else []
  }

  function HeldForA(p: Pipe): seq<WsMsg> {
    if p.creator.Live? then p.creator.held else []
  }

  /** Living senders of each channel: the one in the shared record, and a task's clone. */
  function SendersAToB(p: Pipe): nat {
    (if p.holders != {} then 1 else 0) + if p.txCreator then 1 else 0
  }

  function SendersBToA(p: Pipe): nat {
    (if p.holders != {} then 1 else 0) + if p.txJoiner then 1 else 0
  }

  datatype Event =
    | Publish | Unpublish | Admit
    | CreatorNeverRuns | JoinerNeverRuns(k: nat)
    | CreatorStarts | CreatorReads(a: Incoming) | DeadlinePasses | CreatorWithdraws
    | CreatorNotified | FlushOne | FlushDone | CreatorReceives | CreatorSinks(okA: bool)
    | JoinerTakes(n: nat) | JoinerNotifies | JoinerReads(b: Incoming) | JoinerReceives | JoinerSinks(okB: bool)

  predicate Enabled(p: Pipe, e: Event) {
    match e
    case Publish => Handler in p.holders
    case Unpublish => Table in p.holders
    case Admit => Table in p.holders
    case CreatorNeverRuns => p.creator == Unstarted && CreatorTask in p.holders
    case JoinerNeverRuns(n) => n in p.ready
    case CreatorStarts => p.creator == Unstarted && CreatorTask in p.holders
    case CreatorReads(_) => p.creator == Waiting || p.creator == Live([])
    case DeadlinePasses => p.creator == Waiting
    case CreatorWithdraws => p.creator == Withdrawing
    case CreatorNotified => p.creator == Waiting && p.permit
    case FlushOne => p.creator == Flushing && p.preBuffer != []
    case FlushDone => p.creator == Flushing && p.preBuffer == []
    case CreatorReceives => p.creator == Live([]) && (p.bToA != [] || SendersBToA(p) == 0)
    case CreatorSinks(_) => p.creator.Live? && p.creator.held != []
    case JoinerTakes(n) => n in p.ready
    case JoinerNotifies => p.joiner.Attached?
    case JoinerReads(_) => p.joiner.Running? && p.joiner.held == []
    case JoinerReceives => p.joiner.Running? && p.joiner.held == [] && (p.aToB != [] || SendersAToB(p) == 0)
    case JoinerSinks(_) => p.joiner.Running? && p.joiner.held != []
  }

  /** Sending to a receiver that was dropped loses the frame. */
  function SendAToB(p: Pipe, m: WsMsg): (q: Pipe)
    ensures q.joiner == p.joiner && q.creator == p.creator && q.discarded == p.discarded
    ensures q.holders == p.holders && q.admitted == p.admitted
  {
    if p.joiner.Gone? then p else p.(aToB := p.aToB + [m])
  }

  function SendBToA(p: Pipe, m: WsMsg): (q: Pipe)
    ensures q.joiner == p.joiner && q.creator == p.creator && q.discarded == p.discarded
    ensures q.holders == p.holders && q.admitted == p.admitted
  {
    if p.creator.Stopped? then p else p.(bToA := p.bToA + [m])
  }

  /** The creator's task returns and drops what it owns. */
  function StopCreator(p: Pipe): (q: Pipe)
    ensures q.joiner == p.joiner
    ensures q.holders == p.holders - {CreatorTask} && q.admitted == p.admitted
  {
    p.(creator := Stopped, txCreator := false, bToA := [],
       preBuffer := [], discarded := p.preBuffer, holders := p.holders - {CreatorTask})
  }

  function StopJoiner(p: Pipe): (q: Pipe)
    requires p.joiner.Running?
    ensures q.creator == p.creator && q.discarded == p.discarded
    ensures q.holders == p.holders - {JoinerTask(p.joiner.n)} && q.admitted == p.admitted
  {
    p.(joiner := Gone, txJoiner := false, aToB := [], holders := p.holders - {JoinerTask(p.joiner.n)})
  }

  function CreatorRead(p: Pipe, i: Incoming): (q: Pipe)
    ensures q.joiner == p.joiner && q.admitted == p.admitted
    ensures q.holders == p.holders || q.holders == p.holders - {CreatorTask}
  {
    if p.creator == Waiting then
      if i == Ended || i == Frame(Close) then p.(creator := Withdrawing)
      else if DataMsg(i.msg) then p.(preBuffer := p.preBuffer + [i.msg], acceptedA := p.acceptedA + [i.msg])
      else p
    else
      if i.Frame? && DataMsg(i.msg) then SendAToB(p.(acceptedA := p.acceptedA + [i.msg]), i.msg)
      else if i == Frame(Ping) then p
      else StopCreator(p)
  }

  function JoinerRead(p: Pipe, i: Incoming): (q: Pipe)
    requires p.joiner.Running?
    ensures q.creator == p.creator && q.admitted == p.admitted && q.discarded == p.discarded
    ensures q.holders == p.holders || q.holders == p.holders - {JoinerTask(p.joiner.n)}
  {
    if i.Frame? && DataMsg(i.msg) then SendBToA(p.(acceptedB := p.acceptedB + [i.msg]), i.msg)
    else if i == Frame(Ping) then p
    else StopJoiner(p)
  }

  /** The events of the two tasks, as opposed to those of the handlers and the sweeper. */
  predicate OfTask(e: Event) {
    !e.Publish? && !e.Unpublish? && !e.Admit?
  }

  /** Tasks neither enter nor leave the table. */
  function Step(p: Pipe, e: Event): (q: Pipe)
    requires Enabled(p, e)
    ensures OfTask(e) ==> (Table in q.holders <==> Table in p.holders)
    ensures OfTask(e) ==> (Handler in q.holders <==> Handler in p.holders)
    ensures OfTask(e) ==> q.admitted == p.admitted
  {
    match e
    case Publish => p.(holders := p.holders - {Handler} + {Table, CreatorTask})
    case Unpublish => p.(holders := p.holders - {Table})
    case Admit =>
      p.(holders := p.holders - {Table} + {JoinerTask(p.admitted)},
         ready := p.ready + {p.admitted}, admitted := p.admitted + 1)
    case CreatorNeverRuns => StopCreator(p)
    case JoinerNeverRuns(n) => p.(ready := p.ready - {n}, holders := p.holders - {JoinerTask(n)})
    case CreatorStarts =>
      if p.slotBToA then p.(creator := Waiting, slotBToA := false, txCreator := true)
      else StopCreator(p)
    case CreatorReads(i) => CreatorRead(p, i)
    case DeadlinePasses => p.(creator := Withdrawing)
    case CreatorWithdraws => StopCreator(p)
    case CreatorNotified => p.(permit := false, creator := Flushing)
    case FlushOne => SendAToB(p.(preBuffer := p.preBuffer[1..]), p.preBuffer[0])
    case FlushDone => p.(creator := Live([]))
    case CreatorReceives =>
      if p.bToA != [] then p.(creator := Live([p.bToA[0]]), bToA := p.bToA[1..]) else StopCreator(p)
    case CreatorSinks(ok) =>
      if ok then p.(creator := Live([]), deliveredA := p.deliveredA + p.creator.held) else StopCreator(p)
    case JoinerTakes(n) =>
      if p.slotAToB then p.(ready := p.ready - {n}, slotAToB := false, joiner := Attached(n))
      else p.(ready := p.ready - {n}, holders := p.holders - {JoinerTask(n)})
    case JoinerNotifies => p.(permit := true, joiner := Running(p.joiner.n, []), txJoiner := true)
    case JoinerReads(i) => JoinerRead(p, i)
    case JoinerReceives =>
      if p.aToB != [] then p.(joiner := Running(p.joiner.n, [p.aToB[0]]), aToB := p.aToB[1..]) else StopJoiner(p)
    case JoinerSinks(ok) =>
      if ok then p.(joiner := Running(p.joiner.n, []), deliveredB := p.deliveredB + p.joiner.held) else StopJoiner(p)
  }

  ghost predicate Reaches(before: Pipe, es: seq<Event>, after: Pipe)
    decreases |es|
  {
    if es == [] then before == after
    else Enabled(before, es[0]) && Reaches(Step(before, es[0]), es[1..], after)
  }

  // ---------------------------------------------------------------------------
  // Invariants

  /** Frames from A are delivered, in B's hands, queued, waiting for the flush or, if A left
      while waiting, discarded: in this order and none twice. */
  ghost predicate FlowAToB(p: Pipe) {
    p.deliveredB <= p.acceptedA && |HeldForB(p)| <= 1
    && (!p.joiner.Gone? ==> p.acceptedA == p.deliveredB + HeldForB(p) + p.aToB + p.preBuffer + p.discarded)
    && (p.preBuffer != [] ==> p.creator in {Waiting, Withdrawing, Flushing})
    && (p.discarded != [] ==> p.creator == Stopped)
  }

  ghost predicate FlowBToA(p: Pipe) {
    p.deliveredA <= p.acceptedB && |HeldForA(p)| <= 1
    && (!p.creator.Stopped? ==> p.acceptedB == p.deliveredA + HeldForA(p) + p.bToA)
  }

  /** Before the wake-up nothing has been sent to B. */
  ghost predicate Quiet(p: Pipe) {
    p.creator in {Unstarted, Waiting, Withdrawing} ==> p.aToB == [] && HeldForB(p) == [] && p.deliveredB == []
  }

  ghost predicate Rendezvous(p: Pipe) {
    (p.slotAToB <==> p.joiner == Absent)
    && (p.creator == Unstarted ==> p.slotBToA)
    && (p.slotBToA ==> p.creator in {Unstarted, Stopped})
    && (p.permit ==> p.joiner.Running? || p.joiner.Gone?)
    && (p.joiner.Running? || p.joiner.Gone? ==> p.permit || p.creator in {Flushing, Stopped} || p.creator.Live?)
    && (p.creator == Flushing || p.creator.Live? ==> p.joiner.Running? || p.joiner.Gone?)
  }

  /** The record is admitted to once at most, and living tasks keep their references. */
  ghost predicate References(p: Pipe) {
    (Handler in p.holders ==> p.creator == Unstarted && p.holders == {Handler} && p.admitted == 0)
    && (Table in p.holders ==> p.admitted == 0)
    && p.admitted <= 1
    && (p.admitted == 0 ==> p.ready == {} && p.joiner == Absent)
    && (p.admitted == 1 ==> p.ready == {} || (p.ready == {0} && p.joiner == Absent))
    && (0 in p.ready ==> JoinerTask(0) in p.holders)
    && (p.joiner.Attached? || p.joiner.Running? ==> p.joiner.n == 0 && JoinerTask(0) in p.holders)
    && (p.creator == Unstarted ==> Handler in p.holders || CreatorTask in p.holders)
    && (p.creator != Unstarted && p.creator != Stopped ==> CreatorTask in p.holders)
  }

  ghost predicate Inv(p: Pipe) {
    FlowAToB(p) && FlowBToA(p) && Quiet(p) && Rendezvous(p) && References(p)
  }

  lemma NewPipeInv()
    ensures Inv(NEW_PIPE)
  {}

  lemma MoveHead<T>(left: seq<T>, from: seq<T>)
    requires from != []
    ensures left + [from[0]] + from[1..] == left + from
  {
    assert from == [from[0]] + from[1..];
  }

  // One lemma for each event

  lemma KeepsPublish(p: Pipe)
    requires Inv(p) && Enabled(p, Publish)
    ensures Inv(Step(p, Publish))
  {}

  lemma KeepsUnpublish(p: Pipe)
    requires Inv(p) && Enabled(p, Unpublish)
    ensures Inv(Step(p, Unpublish))
  {}

  lemma KeepsAdmit(p: Pipe)
    requires Inv(p) && Enabled(p, Admit)
    ensures Inv(Step(p, Admit))
  {}

  lemma KeepsCreatorNeverRuns(p: Pipe)
    requires Inv(p) && Enabled(p, CreatorNeverRuns)
    ensures Inv(Step(p, CreatorNeverRuns))
  {}

  lemma KeepsJoinerNeverRuns(p: Pipe, n: nat)
    requires Inv(p) && Enabled(p, JoinerNeverRuns(n))
    ensures Inv(Step(p, JoinerNeverRuns(n)))
  {}

  lemma KeepsCreatorStarts(p: Pipe)
    requires Inv(p) && Enabled(p, CreatorStarts)
    ensures Inv(Step(p, CreatorStarts))
  {}

  lemma KeepsWaitingData(p: Pipe, m: WsMsg)
    requires Inv(p) && p.creator == Waiting && DataMsg(m)
    ensures Inv(CreatorRead(p, Frame(m)))
  {
    if !p.joiner.Gone? {
      assert p.acceptedA + [m] == p.deliveredB + HeldForB(p) + p.aToB + (p.preBuffer + [m]) + p.discarded;
    }
  }

  lemma KeepsWithdrawing(p: Pipe)
    requires Inv(p) && p.creator == Waiting
    ensures Inv(p.(creator := Withdrawing))
  {}

  lemma KeepsLiveData(p: Pipe, m: WsMsg)
    requires Inv(p) && p.creator == Live([]) && DataMsg(m)
    ensures Inv(CreatorRead(p, Frame(m)))
  {
    if !p.joiner.Gone? {
      assert p.acceptedA + [m] == p.deliveredB + HeldForB(p) + (p.aToB + [m]) + p.preBuffer + p.discarded;
    }
  }

  lemma KeepsStopCreator(p: Pipe)
    requires Inv(p) && p.creator == Live([])
    ensures Inv(StopCreator(p))
  {}

  lemma KeepsDeadlinePasses(p: Pipe)
    requires Inv(p) && Enabled(p, DeadlinePasses)
    ensures Inv(Step(p, DeadlinePasses))
  {}

  lemma KeepsCreatorWithdraws(p: Pipe)
    requires Inv(p) && Enabled(p, CreatorWithdraws)
    ensures Inv(Step(p, CreatorWithdraws))
  {}

  lemma KeepsCreatorNotified(p: Pipe)
    requires Inv(p) && Enabled(p, CreatorNotified)
    ensures Inv(Step(p, CreatorNotified))
  {}

  lemma KeepsFlushOne(p: Pipe)
    requires Inv(p) && Enabled(p, FlushOne)
    ensures Inv(Step(p, FlushOne))
  {
    if !p.joiner.Gone? {
      var sent := p.deliveredB + HeldForB(p) + p.aToB;
      assert p.deliveredB + HeldForB(p) + (p.aToB + [p.preBuffer[0]]) == sent + [p.preBuffer[0]];
      MoveHead(sent, p.preBuffer);
    }
  }

  lemma KeepsFlushDone(p: Pipe)
    requires Inv(p) && Enabled(p, FlushDone)
    ensures Inv(Step(p, FlushDone))
  {}

  lemma KeepsCreatorReceives(p: Pipe)
    requires Inv(p) && Enabled(p, CreatorReceives)
    ensures Inv(Step(p, CreatorReceives))
  {
    if p.bToA != [] {
      assert p.deliveredA + HeldForA(p) == p.deliveredA;
      MoveHead(p.deliveredA, p.bToA);
    }
  }

  lemma KeepsCreatorSinks(p: Pipe, ok: bool)
    requires Inv(p) && Enabled(p, CreatorSinks(ok))
    ensures Inv(Step(p, CreatorSinks(ok)))
  {
    assert ok ==> p.deliveredA + p.creator.held + [] == p.deliveredA + p.creator.held;
  }

  lemma KeepsJoinerTakes(p: Pipe, n: nat)
    requires Inv(p) && Enabled(p, JoinerTakes(n))
    ensures Inv(Step(p, JoinerTakes(n)))
  {}

  lemma KeepsJoinerNotifies(p: Pipe)
    requires Inv(p) && Enabled(p, JoinerNotifies)
    ensures Inv(Step(p, JoinerNotifies))
  {}

  lemma FlowAToBIgnoresB(p: Pipe, q: Pipe)
    requires q == p.(acceptedB := q.acceptedB, bToA := q.bToA)
    requires FlowAToB(p) && Quiet(p)
    ensures FlowAToB(q) && Quiet(q)
  {}

  lemma KeepsJoinerData(p: Pipe, m: WsMsg)
    requires Inv(p) && p.joiner.Running? && p.joiner.held == [] && DataMsg(m)
    ensures Inv(JoinerRead(p, Frame(m)))
  {
    hide FlowAToB, Quiet;
    if p.creator == Stopped {
      assert JoinerRead(p, Frame(m)) == p.(acceptedB := p.acceptedB + [m]);
    } else {
      assert p.acceptedB + [m] == p.deliveredA + HeldForA(p) + (p.bToA + [m]);
    }
    FlowAToBIgnoresB(p, JoinerRead(p, Frame(m)));
  }

  lemma KeepsStopJoiner(p: Pipe)
    requires Inv(p) && p.joiner.Running?
    ensures Inv(StopJoiner(p))
  {}

  lemma KeepsJoinerReceives(p: Pipe)
    requires Inv(p) && Enabled(p, JoinerReceives)
    ensures Inv(Step(p, JoinerReceives))
  {
    if p.aToB != [] {
      assert p.deliveredB + HeldForB(p) == p.deliveredB;
      MoveHead(p.deliveredB, p.aToB);
    }
  }

  lemma KeepsJoinerSinks(p: Pipe, ok: bool)
    requires Inv(p) && Enabled(p, JoinerSinks(ok))
    ensures Inv(Step(p, JoinerSinks(ok)))
  {
    assert ok ==> p.deliveredB + p.joiner.held + [] == p.deliveredB + p.joiner.held;
  }

  /** Every event, of either task and in any order, keeps the invariant. */
  lemma StepKeepsInv(p: Pipe, e: Event)
    requires Inv(p) && Enabled(p, e)
    ensures Inv(Step(p, e))
  {
    hide Inv, StopCreator, StopJoiner, SendAToB, SendBToA;
    match e
    case Publish => KeepsPublish(p);
    case Unpublish => KeepsUnpublish(p);
    case Admit => KeepsAdmit(p);
    case CreatorNeverRuns => KeepsCreatorNeverRuns(p);
    case JoinerNeverRuns(n) => KeepsJoinerNeverRuns(p, n);
    case CreatorStarts => KeepsCreatorStarts(p);
    case CreatorReads(i) =>
      if p.creator == Waiting {
        if i == Ended || i == Frame(Close) {
          KeepsWithdrawing(p);
        } else if DataMsg(i.msg) {
          KeepsWaitingData(p, i.msg);
        }
      } else if i.Frame? && DataMsg(i.msg) {
        KeepsLiveData(p, i.msg);
      } else if i != Frame(Ping) {
        KeepsStopCreator(p);
      }
    case DeadlinePasses => KeepsDeadlinePasses(p);
    case CreatorWithdraws => KeepsCreatorWithdraws(p);
    case CreatorNotified => KeepsCreatorNotified(p);
    case FlushOne => KeepsFlushOne(p);
    case FlushDone => KeepsFlushDone(p);
    case CreatorReceives => KeepsCreatorReceives(p);
    case CreatorSinks(ok) => KeepsCreatorSinks(p, ok);
    case JoinerTakes(n) => KeepsJoinerTakes(p, n);
    case JoinerNotifies => KeepsJoinerNotifies(p);
    case JoinerReads(i) =>
      if i.Frame? && DataMsg(i.msg) {
        KeepsJoinerData(p, i.msg);
      } else if i != Frame(Ping) {
        KeepsStopJoiner(p);
      }
    case JoinerReceives => KeepsJoinerReceives(p);
    case JoinerSinks(ok) => KeepsJoinerSinks(p, ok);
  }

  lemma {:induction false} RunKeepsInv(before: Pipe, es: seq<Event>, after: Pipe)
    requires Inv(before) && Reaches(before, es, after)
    ensures Inv(after)
    decreases |es|
  {
    hide Inv, Step, Enabled;
    if es != [] {
      StepKeepsInv(before, es[0]);
      RunKeepsInv(Step(before, es[0]), es[1..], after);
    }
  }

  lemma ReachableInv(es: seq<Event>, p: Pipe)
    requires Reaches(NEW_PIPE, es, p)
    ensures Inv(p)
  {
    NewPipeInv();
    hide Inv, Reaches;
    RunKeepsInv(NEW_PIPE, es, p);
  }

  // ---------------------------------------------------------------------------
  // Runs

  lemma NoEvents(p: Pipe)
    ensures Reaches(p, [], p)
  {}

  lemma ReachesTwo(p: Pipe, e: Event, f: Event)
    requires Enabled(p, e) && Enabled(Step(p, e), f)
    ensures Reaches(p, [e, f], Step(Step(p, e), f))
  {
    hide Step, Enabled;
    assert [e, f][1..] == [f] && [f][1..] == [];
    assert Reaches(Step(p, e), [f], Step(Step(p, e), f));
  }

  lemma {:induction false} ReachesChain(p: Pipe, es: seq<Event>, q: Pipe, fs: seq<Event>, r: Pipe)
    requires Reaches(p, es, q) && Reaches(q, fs, r)
    ensures Reaches(p, es + fs, r)
    decreases |es|
  {
    hide Step, Enabled;
    if es == [] {
      assert es + fs == fs;
    } else {
      ReachesChain(Step(p, es[0]), es[1..], q, fs, r);
      assert (es + fs)[1..] == es[1..] + fs;
    }
  }

  lemma ReachesOneMore(p: Pipe, es: seq<Event>, q: Pipe, e: Event)
    requires Reaches(p, es, q) && Enabled(q, e)
    ensures Reaches(p, es + [e], Step(q, e))
  {
    hide Step, Enabled;
    assert [e][1..] == [] && Reaches(q, [e], Step(q, e));
    ReachesChain(p, es, q, [e], Step(q, e));
  }

  // ---------------------------------------------------------------------------
  // What the sockets yielded, by the events alone

  /** The frame that is to be relayed, if this is one: a text or a binary frame, nothing else. */
  function DataOf(i: Incoming): seq<WsMsg> {
    match i
    case Frame(Text(body)) => [Text(body)]
    case Frame(Binary(body)) => [Binary(body)]
    case _ => []
  }

  /** The data frames that A's socket yielded, in order. */
  function SentByA(es: seq<Event>): seq<WsMsg> {
    if es == [] then [] else (if es[0].CreatorReads? then DataOf(es[0].a) else []) + SentByA(es[1..])
  }

  function SentByB(es: seq<Event>): seq<WsMsg> {
    if es == [] then [] else (if es[0].JoinerReads? then DataOf(es[0].b) else []) + SentByB(es[1..])
  }

  lemma StopsAcceptNothing(p: Pipe)
    ensures StopCreator(p).acceptedA == p.acceptedA && StopCreator(p).acceptedB == p.acceptedB
    ensures p.joiner.Running? ==> StopJoiner(p).acceptedA == p.acceptedA && StopJoiner(p).acceptedB == p.acceptedB
  {}

  lemma SendAcceptsNothing(p: Pipe, m: WsMsg)
    ensures SendAToB(p, m).acceptedA == p.acceptedA && SendAToB(p, m).acceptedB == p.acceptedB
  {}

  lemma CreatorReadAccepts(p: Pipe, i: Incoming)
    requires p.creator == Waiting || p.creator == Live([])
    ensures CreatorRead(p, i).acceptedA == p.acceptedA + DataOf(i) && CreatorRead(p, i).acceptedB == p.acceptedB
  {
    hide StopCreator, SendAToB;
    StopsAcceptNothing(p);
    if i.Frame? {
      SendAcceptsNothing(p.(acceptedA := p.acceptedA + [i.msg]), i.msg);
    }
  }

  lemma JoinerReadAccepts(p: Pipe, i: Incoming)
    requires p.joiner.Running?
    ensures JoinerRead(p, i).acceptedB == p.acceptedB + DataOf(i) && JoinerRead(p, i).acceptedA == p.acceptedA
  {}

  lemma HandlersAcceptNothing(p: Pipe, e: Event)
    requires Enabled(p, e) && !OfTask(e)
    ensures Step(p, e).acceptedA == p.acceptedA && Step(p, e).acceptedB == p.acceptedB
  {}

  lemma CreatorAcceptsNothing(p: Pipe, e: Event)
    requires Enabled(p, e)
    requires e.CreatorNeverRuns? || e.CreatorStarts? || e.CreatorWithdraws? || e.CreatorReceives? || e.CreatorSinks?
    ensures Step(p, e).acceptedA == p.acceptedA && Step(p, e).acceptedB == p.acceptedB
  {
    hide SendersAToB, SendersBToA, StopCreator;
    StopsAcceptNothing(p);
  }

  lemma PhasesAcceptNothing(p: Pipe, e: Event)
    requires Enabled(p, e) && (e.DeadlinePasses? || e.CreatorNotified? || e.FlushOne? || e.FlushDone?)
    ensures Step(p, e).acceptedA == p.acceptedA && Step(p, e).acceptedB == p.acceptedB
  {
    hide SendAToB;
    if e.FlushOne? {
      SendAcceptsNothing(p.(preBuffer := p.preBuffer[1..]), p.preBuffer[0]);
    }
  }

  lemma JoinerAcceptsNothing(p: Pipe, e: Event)
    requires Enabled(p, e)
    requires e.JoinerNeverRuns? || e.JoinerTakes? || e.JoinerNotifies? || e.JoinerReceives? || e.JoinerSinks?
    ensures Step(p, e).acceptedA == p.acceptedA && Step(p, e).acceptedB == p.acceptedB
  {
    hide SendersAToB, SendersBToA, StopJoiner;
    StopsAcceptNothing(p);
  }

  lemma OthersAcceptNothing(p: Pipe, e: Event)
    requires Enabled(p, e) && !e.CreatorReads? && !e.JoinerReads?
    ensures Step(p, e).acceptedA == p.acceptedA && Step(p, e).acceptedB == p.acceptedB
  {
    hide Step, Enabled;
    if !OfTask(e) {
      HandlersAcceptNothing(p, e);
    } else if e.DeadlinePasses? || e.CreatorNotified? || e.FlushOne? || e.FlushDone? {
      PhasesAcceptNothing(p, e);
    } else if e.JoinerNeverRuns? || e.JoinerTakes? || e.JoinerNotifies? || e.JoinerReceives? || e.JoinerSinks? {
      JoinerAcceptsNothing(p, e);
    } else {
      CreatorAcceptsNothing(p, e);
    }
  }

  lemma StepAccepts(p: Pipe, e: Event)
    requires Enabled(p, e)
    ensures Step(p, e).acceptedA == p.acceptedA + if e.CreatorReads? then DataOf(e.a) else []
    ensures Step(p, e).acceptedB == p.acceptedB + if e.JoinerReads? then DataOf(e.b) else []
  {
    hide CreatorRead, JoinerRead, DataOf;
    if e.CreatorReads? {
      CreatorReadAccepts(p, e.a);
    } else if e.JoinerReads? {
      JoinerReadAccepts(p, e.b);
    } else {
      hide Step;
      OthersAcceptNothing(p, e);
    }
  }

  /** What the record counts as accepted is what the two sockets yielded. */
  lemma {:induction false} RunAccepts(before: Pipe, es: seq<Event>, after: Pipe)
    requires Reaches(before, es, after)
    ensures after.acceptedA == before.acceptedA + SentByA(es)
    ensures after.acceptedB == before.acceptedB + SentByB(es)
    decreases |es|
  {
    hide Step, Enabled, DataOf;
    if es != [] {
      StepAccepts(before, es[0]);
      RunAccepts(Step(before, es[0]), es[1..], after);
      Regroup(before.acceptedA, if es[0].CreatorReads? then DataOf(es[0].a) else [], SentByA(es[1..]));
      Regroup(before.acceptedB, if es[0].JoinerReads? then DataOf(es[0].b) else [], SentByB(es[1..]));
    }
  }

  /** Every data frame a socket yields is accepted, and nothing else is. */
  lemma AcceptedIsSent(es: seq<Event>, p: Pipe)
    requires Reaches(NEW_PIPE, es, p)
    ensures p.acceptedA == SentByA(es) && p.acceptedB == SentByB(es)
  {
    hide Reaches;
    RunAccepts(NEW_PIPE, es, p);
  }
}

/** How a client and its session slot drift apart and come together again, shown on calls of the
    client itself. */
module Scenarios {
  import opened Errors
  import opened Compound
  import opened Runs
  import opened Wire
  import opened Locks
  import opened Progress
  import opened Sessions

  /** A client that sends an application compound at once: connected, nothing to recover. */
  ghost predicate SendsAtOnce(client: Client, ops: seq<Operation>)
    reads client, client.rpc, client.world, client.locks
  {
    && client.Valid() && Application(client.clientId, ops)
    && !client.rpc.interrupted && !client.recoveryPending
    && !(client.lease.Some? && client.world.leaseFailures(client.world.clock))
    && |ops| + 1 <= client.maxOperations && (client.AnyLost() ==> ReleasesState(ops))
  }

  /** What becomes of the next application compound. */
  ghost function NextMove(client: Client): Move
    reads client`lease, client.world`clock
  {
    client.world.script(client.world.clock + if client.lease.Some? then 1 else 0)
  }

  lemma GarbledDelivery(sum: Summary, session: nat, seqid: nat, ops: seq<Operation>, move: Move)
    requires session in sum.slots && SlotOk(sum.slots[session]) && !sum.slots[session].behind
    requires sum.slots[session].accepted < WRAP - 1 && seqid == SlotAfter(Counted(sum.slots[session]))
    requires move.Answer? && move.executed > 0
    requires !WellShaped(TagName(Foreground), OpCodes([Sequence(session, seqid)] + ops), move.response)
    ensures var d := DeliveryNow(sum, session, seqid, ops, move);
            && d.result == Failure(Protocol) && !d.poisons && Calm(ops, d.result)
            && d.sent.Some? && Misses(d.sent.value) && d.sent.value.tag == Foreground
            && d.sent.value.executed == (if move.executed <= |ops| + 1 then move.executed else |ops| + 1)
            && d.sent.value.ops == [Sequence(session, seqid)] + ops
            && session in Next(sum, d.sent.value).slots
            && Next(sum, d.sent.value).slots[session]
               == sum.slots[session].(accepted := sum.slots[session].accepted + 1, behind := true)
  {
    SlotVerdict(sum.slots[session].accepted, false);
    ShapeCheckAcceptsExactlyWellShaped(TagName(Foreground), OpCodes([Sequence(session, seqid)] + ops), move.response);
    hide SlotAfter, ServerExpects, ValidateShape, WellShaped;
  }

  /** How a client in good order falls behind: the reply to an accepted request does not decode. The
      caller is told of a protocol error, the session stays in use, and the server counted up. */
  method FallBehind(client: Client, ops: seq<Operation>) returns (r: Result<CompoundResponse>)
    requires SendsAtOnce(client, ops)
    requires client.sessionId in client.world.sum.slots && !client.world.sum.slots[client.sessionId].behind
    requires client.world.sum.slots[client.sessionId].accepted < WRAP - 1
    requires NextMove(client).Answer? && NextMove(client).executed > 0
    requires !WellShaped(TagName(Foreground), OpCodes([Sequence(client.sessionId, client.sequenceId)] + ops),
                         NextMove(client).response)
    modifies client, client.rpc`interrupted, client.world`clock, client.world`trace, client.world`sum, client.world`lost
    modifies client.locks
    ensures client.Valid() && r == Failure(Protocol)
    ensures !client.recoveryPending && client.rpc == old(client.rpc) && !client.rpc.interrupted
    ensures client.world.clock == old(client.world.clock) + 1 + (if old(client.lease).Some? then 1 else 0)
    ensures client.lease == old(client.lease) && client.locks == old(client.locks)
    ensures client.clientId == old(client.clientId) && client.maxOperations == old(client.maxOperations)
    ensures client.sessionId == old(client.sessionId) && client.sessionId in client.world.sum.slots
    ensures client.world.sum.slots[client.sessionId] ==
            var slot := old(client.world.sum.slots[client.sessionId]);
            slot.(accepted := slot.accepted + 1, behind := true)
    ensures |client.world.trace| == |old(client.world.trace)| + 1 && old(client.world.trace) <= client.world.trace
    ensures var e, wanted := client.world.trace[|old(client.world.trace)|], old(NextMove(client)).executed;
            && e.ops == [Sequence(old(client.sessionId), old(client.sequenceId))] + ops && e.reply == Garbled
            && e.executed == if wanted <= |ops| + 1 then wanted else |ops| + 1
  {
    hide Run, Fold, Foregrounds, Application, WellShaped, OnlyLastTakesEffect, EachAtMostOnce, CallLog, OwnProgress;
    hide Calm, DeliveryNow, Next, SlotAfter, Counted;
    GarbledDelivery(client.world.sum, client.sessionId, client.sequenceId, ops, NextMove(client));
    ghost var mine, stale;
    r, mine, stale := client.CompoundStatus(ops);
  }

  lemma RetriedDelivery(sum: Summary, session: nat, seqid: nat, ops: seq<Operation>, move: Move)
    requires session in sum.slots && SlotOk(sum.slots[session]) && sum.slots[session].behind
    requires seqid == SlotAfter(Counted(sum.slots[session]))
    requires move.Answer? && WellShaped(TagName(Foreground), OpCodes([Sequence(session, seqid)] + ops), move.response)
    ensures var d := DeliveryNow(sum, session, seqid, ops, move);
            && d.result == Success(move.response) && !d.poisons
            && d.sent == Some(Sent(Foreground, [Sequence(session, seqid)] + ops, sum.slots[session].client, 0,
                                   Answered(move.response)))
            && session in Next(sum, d.sent.value).slots
            && Next(sum, d.sent.value).slots[session].accepted == sum.slots[session].accepted
            && (Next(sum, d.sent.value).slots[session].behind <==> !SequenceSucceeded(move.response))
  {
    SlotVerdict(sum.slots[session].accepted, true);
    ShapeCheckAcceptsExactlyWellShaped(TagName(Foreground), OpCodes([Sequence(session, seqid)] + ops), move.response);
    hide SlotAfter, ServerExpects, ValidateShape, WellShaped, SequenceSucceeded, CompletionAccepted;
  }

  /** What a client that is behind makes of the next answer: it hands it to the caller although
      nothing was done for it, and catches up if SEQUENCE was answered OK. */
  method AskWhileBehind(client: Client, ops: seq<Operation>) returns (r: Result<CompoundResponse>)
    requires SendsAtOnce(client, ops)
    requires client.sessionId in client.world.sum.slots && client.world.sum.slots[client.sessionId].behind
    requires NextMove(client).Answer? && Calm(ops, Success(NextMove(client).response))
    requires WellShaped(TagName(Foreground), OpCodes([Sequence(client.sessionId, client.sequenceId)] + ops),
                        NextMove(client).response)
    modifies client, client.rpc`interrupted, client.world`clock, client.world`trace, client.world`sum, client.world`lost
    modifies client.locks
    ensures client.Valid() && r == Success(old(NextMove(client)).response)
    ensures client.sessionId == old(client.sessionId) && client.sessionId in client.world.sum.slots
    ensures client.world.sum.slots[client.sessionId].accepted == old(client.world.sum.slots[client.sessionId].accepted)
    ensures client.world.sum.slots[client.sessionId].behind <==> !SequenceSucceeded(r.value)
    ensures |client.world.trace| == |old(client.world.trace)| + 1 && old(client.world.trace) <= client.world.trace
    ensures var e := client.world.trace[|old(client.world.trace)|];
            && e.ops == [Sequence(old(client.sessionId), old(client.sequenceId))] + ops
            && e.executed == 0 && e.reply == Answered(r.value)
  {
    hide Run, Fold, Foregrounds, Application, WellShaped, OnlyLastTakesEffect, EachAtMostOnce, CallLog, OwnProgress;
    hide Calm, DeliveryNow, Next, SlotAfter, Counted, SequenceSucceeded;
    RetriedDelivery(client.world.sum, client.sessionId, client.sequenceId, ops, NextMove(client));
    ghost var mine, stale;
    r, mine, stale := client.CompoundStatus(ops);
  }

  const RETRY_UNCACHED_REP := Other(10068)
  const FIRST := [PutFh(3), SetAttr]
  const SECOND := [PutFh(4), SetAttr]

  /** The reply cache of a slot: the request was seen before, its reply was not kept. */
  const UNCACHED := CompoundResponse(
    TagName(Foreground), RETRY_UNCACHED_REP,
    [OperationResult(OP_SEQUENCE, Ok, SequenceValue(false, false)), OperationResult(22, RETRY_UNCACHED_REP, NoValue)])

  /** A server that answers the reply of one request in a way that does not decode. */
  function Script(t: nat): Move {
    match t
    case 0 => Answer(CompoundResponse(TagName(Setup), Ok, [OperationResult(OP_EXCHANGE_ID, Ok, ExchangeValue(7))]), 1)
    case 1 => Answer(CompoundResponse(TagName(Setup), Ok, [OperationResult(43, Ok, SessionValue(9, 16, true))]), 1)
    case 2 => Answer(CompoundResponse(TagName(Recovery(None)), Ok,
                                      [OperationResult(OP_SEQUENCE, Ok, SequenceValue(false, false)),
                                       OperationResult(58, Ok, NoValue)]), 2)
    case 3 => Answer(CompoundResponse("", Ok, []), 3)
    case _ => Answer(UNCACHED, 0)
  }

  function Exchanged(): Sent {
    Sent(Setup, [ExchangeId], 0, 1, Answered(Script(0).response))
  }

  function Created(): Sent {
    Sent(Setup, [CreateSession(7)], 0, 1, Answered(Script(1).response))
  }

  function Declared(): Sent {
    Sent(Recovery(None), [Sequence(9, 1), ReclaimComplete], 7, 2, Answered(Script(2).response))
  }

  lemma AnswerIsDelivered(sum: Summary, e: Sent, executed: nat)
    requires ServerOk(sum, e) && e.reply.Answered?
    ensures Deliver(sum, e.tag, e.ops, Answer(e.reply.response, executed)).sent == Some(e)
    ensures !Deliver(sum, e.tag, e.ops, Answer(e.reply.response, executed)).poisons
  {
    ShapeCheckAcceptsExactlyWellShaped(TagName(e.tag), OpCodes(e.ops), e.reply.response);
    hide ValidateShape, WellShaped;
  }

  const EXCHANGED := START.(current := 7)
  const CREATED := EXCHANGED.(slots := map[9 := Slot(7, 0, false, false, false)])

  lemma IdIsDelivered()
    ensures Deliver(START, Setup, [ExchangeId], Script(0)).sent == Some(Exchanged())
    ensures !Deliver(START, Setup, [ExchangeId], Script(0)).poisons
    ensures Next(START, Exchanged()) == EXCHANGED
  {
    assert ServerOk(START, Exchanged());
    hide ServerOk, Deliver;
    AnswerIsDelivered(START, Exchanged(), 1);
  }

  lemma SessionIsDelivered()
    ensures Deliver(EXCHANGED, Setup, [CreateSession(7)], Script(1)).sent == Some(Created())
    ensures !Deliver(EXCHANGED, Setup, [CreateSession(7)], Script(1)).poisons
    ensures Next(EXCHANGED, Created()) == CREATED
  {
    assert ServerOk(EXCHANGED, Created());
    hide ServerOk, Deliver;
    AnswerIsDelivered(EXCHANGED, Created(), 1);
  }

  lemma CompletionIsDelivered()
    ensures Deliver(CREATED, Recovery(None), [Sequence(9, 1)] + [ReclaimComplete], Script(2)).sent == Some(Declared())
    ensures !Deliver(CREATED, Recovery(None), [Sequence(9, 1)] + [ReclaimComplete], Script(2)).poisons
  {
    assert [Sequence(9, 1)] + [ReclaimComplete] == [Sequence(9, 1), ReclaimComplete];
    assert ServerOk(CREATED, Declared());
    hide ServerOk, Deliver;
    AnswerIsDelivered(CREATED, Declared(), 2);
  }

  lemma CompletionCounts()
    ensures Next(CREATED, Declared()).slots == map[9 := Slot(7, 1, false, false, true)]
    ensures var s := Next(CREATED, Declared());
            s.current == 7 && s.completing == {7} && s.released == {} && s.lost == {}
  {
    hide OpensOf, LocksOf, VouchesOf, FindingsOf;
  }

  lemma CompletionMaySend()
    ensures 9 in CREATED.slots && CREATED.slots[9] == Slot(7, 0, false, false, false)
    ensures MaySend(CREATED, 7, Recovery(None), [ReclaimComplete])
  {
    PlainMaySend(CREATED, 7, Recovery(None), [ReclaimComplete]);
  }

  /** A session with that server. */
  method OpenSession() returns (client: Client)
    ensures fresh(client) && fresh(client.rpc) && fresh(client.world) && client.rpc.world == client.world
    ensures client.SessionOk() && client.locks == [] && client.lease.None? && !client.recoveryPending
            && !client.rpc.interrupted
    ensures client.world.Valid() && client.world.script == Script && client.world.clock == 2
    ensures client.world.sum == CREATED && |client.world.trace| == 2
    ensures (client.clientId, client.sessionId, client.maxOperations, client.sequenceId) == (7, 9, 16, 1)
  {
    hide *;
    var world := new World(Script, _ => false);
    var rpc := new Rpc(world);
    IdIsDelivered();
    OutsideIsClientOk(START, [ExchangeId]);
    var _ := rpc.RawCompound(Setup, [ExchangeId]);
    SessionIsDelivered();
    OutsideIsClientOk(EXCHANGED, [CreateSession(7)]);
    var _ := rpc.RawCompound(Setup, [CreateSession(7)]);
    client := new Client(rpc, Builder(1, 0, false), 7, 9, 1, 16);
    CompletionMaySend();
    client.StartsInStep();
  }

  /** A client right after connecting to that server. */
  method Connected() returns (client: Client)
    ensures fresh(client) && fresh(client.rpc) && fresh(client.world)
    ensures client.Valid() && client.locks == [] && client.lease.None? && !client.recoveryPending
            && !client.rpc.interrupted
    ensures client.world.script == Script && client.world.clock == 3 && |client.world.trace| == 3
    ensures (client.clientId, client.sessionId, client.maxOperations) == (7, 9, 16)
    ensures 9 in client.world.sum.slots && client.world.sum.slots[9] == Slot(7, 1, false, false, true)
  {
    hide *;
    client := OpenSession();
    CompletionIsDelivered();
    CompletionCounts();
    CompletionMaySend();
    var _, _ := client.SendSequenced(Recovery(None), [ReclaimComplete]);
    client.FirstIsValid();
  }

  lemma RequestsAreApplication()
    ensures Application(7, FIRST) && Application(7, SECOND)
    ensures |FIRST| == 2 && |SECOND| == 2 && WRAP > 3 && Script(3).Answer? && Script(3).executed == 3
            && Script(4) == Answer(UNCACHED, 0)
    ensures !WellShaped(TagName(Foreground), OpCodes([Sequence(9, 2)] + FIRST), Script(3).response)
    ensures WellShaped(TagName(Foreground), OpCodes([Sequence(9, 2)] + SECOND), UNCACHED)
    ensures Calm(SECOND, Success(UNCACHED)) && SequenceSucceeded(UNCACHED)
  {
  }

  lemma IsReady(client: Client, ops: seq<Operation>, seqid: nat)
    requires client.Valid() && Application(client.clientId, ops) && client.locks == [] && client.lease.None?
    requires !client.rpc.interrupted && !client.recoveryPending && |ops| + 1 <= client.maxOperations
    requires client.sessionId in client.world.sum.slots
    requires var slot := client.world.sum.slots[client.sessionId];
             slot.accepted > 0 && seqid == slot.accepted + (if slot.behind then 0 else 1) < WRAP
    ensures SendsAtOnce(client, ops) && client.sequenceId == seqid
    ensures NextMove(client) == client.world.script(client.world.clock)
  {
    hide Run, Fold;
  }

  /** Such runs exist. An application sends two requests. The server does the first, whose reply
      does not decode; it takes the second for a retry and does not do it, and the caller gets the
      status the server has for a retry. From then on client and slot agree again. */
  method TwoRequests() returns (client: Client, first: Result<CompoundResponse>, second: Result<CompoundResponse>)
    ensures client.Valid() && |client.world.trace| == 5
    ensures var e := client.world.trace[3];
            first == Failure(Protocol) && e.ops == [Sequence(9, 2)] + FIRST && e.executed == 3
    ensures var e := client.world.trace[4];
            second == Success(UNCACHED) && e.ops == [Sequence(9, 2)] + SECOND && e.executed == 0
    ensures Behind(client.world.trace[..4], 9) && !Behind(client.world.trace, 9)
  {
    hide *;
    client := Connected();
    RequestsAreApplication();
    IsReady(client, FIRST, 2);
    first := FallBehind(client, FIRST);
    ghost var trace := client.world.trace;
    client.IsRun();
    SlotMeansTrace(trace, 9);
    IsReady(client, SECOND, 2);
    second := AskWhileBehind(client, SECOND);
    client.IsRun();
    SlotMeansTrace(client.world.trace, 9);
    assert client.world.trace[..4] == trace;
  }
}

/** The server, the network between it and the client, and the RPC connection. Both are
    adversaries: a script decides, request by request, what is executed and what comes back. */
module Wire {
  import opened Errors
  import opened Compound
  import opened Runs

  /** What happens to one request: it never leaves, its reply is lost after part of it was
      done, the RPC layer rejects it, or an answer arrives. */
  datatype Move =
    | NotSent(kind: IoKind)
    | Lose(cause: Error, executed: nat)
    | Refuse(cause: Error)
    | Answer(response: CompoundResponse, executed: nat)

  datatype Delivery = Delivery(sent: Option<Sent>, result: Result<CompoundResponse>, poisons: bool)

  function ClientOf(sum: Summary, ops: seq<Operation>): nat {
    if Sequenced(ops) && ops[0].session in sum.slots then sum.slots[ops[0].session].client else 0
  }

  /** As many operations as wanted, none behind a SEQUENCE the slot does not expect. */
  function Doable(sum: Summary, ops: seq<Operation>, wanted: nat): nat {
    if Sequenced(ops)
       && !(ops[0].session in sum.slots && ops[0].seqid == ServerExpects(sum.slots[ops[0].session].accepted))
    then 0
    else if wanted <= |ops| then wanted else |ops|
  }

  function LoseRequest(sum: Summary, tag: Tag, ops: seq<Operation>, cause: Error, executed: nat): Delivery {
    Delivery(Some(Sent(tag, ops, ClientOf(sum, ops), Doable(sum, ops, executed), Lost)),
             Failure(OutcomeUnknown(cause)), true)
  }

  /** The exchange as the client sees it. An answer that breaks the assumptions on the
      server does not occur; it counts as a lost reply. */
  function Deliver(sum: Summary, tag: Tag, ops: seq<Operation>, move: Move): Delivery {
    match move
    case NotSent(_) => Delivery(None, Failure(Xdr), false)
    case Lose(cause, executed) => LoseRequest(sum, tag, ops, cause, executed)
    case Refuse(cause) =>
      var error := if cause.RpcAcceptedError? || cause.RpcProgramMismatch? then cause else RpcDenied;
      Delivery(Some(Sent(tag, ops, ClientOf(sum, ops), 0, Denied)), Failure(error), false)
    case Answer(response, executed) =>
      if ValidateShape(TagName(tag), OpCodes(ops), response).Failure? then
        Delivery(Some(Sent(tag, ops, ClientOf(sum, ops), Doable(sum, ops, executed), Garbled)), Failure(Protocol),
                 false)
      else
        var done := if Retries(sum, ops) then 0 else LeadingOk(response.results);
        var sent := Sent(tag, ops, ClientOf(sum, ops), done, Answered(response));
        if ServerOk(sum, sent) then Delivery(Some(sent), Success(response), false)
        else LoseRequest(sum, tag, ops, Protocol, 0)
  }

  /** Every exchange the script can produce is one the assumptions on the server allow, and
      the client is told of an answer exactly when one was recorded. */
  lemma DeliveryIsServerOk(sum: Summary, tag: Tag, ops: seq<Operation>, move: Move)
    ensures var d := Deliver(sum, tag, ops, move);
            && (d.sent.Some? ==> ServerOk(sum, d.sent.value) && d.sent.value.tag == tag && d.sent.value.ops == ops)
            && (d.result.Success? ==> d.sent.Some? && d.sent.value.reply == Answered(d.result.value))
            && (d.sent.Some? && d.sent.value.reply.Answered? ==> d.result == Success(d.sent.value.reply.response))
            && (d.poisons <==> d.sent.Some? && d.sent.value.reply.Lost?)
            && (d.poisons ==> d.result.Failure? && d.result.error.OutcomeUnknown?)
            && (d.result.Failure? ==> !d.result.error.NfsV4?)
            && (!d.poisons && d.result.Failure? ==> !d.result.error.IsTransportFailure() && !d.result.error.LockLost?)
  {
  }

  /** And it can produce every exchange they allow. */
  lemma EveryExchangeOccurs(sum: Summary, e: Sent) returns (move: Move)
    requires ServerOk(sum, e)
    ensures Deliver(sum, e.tag, e.ops, move).sent == Some(e)
  {
    match e.reply {
      case Lost => move := Lose(Protocol, e.executed);
      case Denied => move := Refuse(RpcDenied);
      case Garbled => move := Answer(CompoundResponse(TagName(e.tag) + "?", Ok, []), e.executed);
      case Answered(response) =>
        move := Answer(response, 0);
        ShapeCheckAcceptsExactlyWellShaped(TagName(e.tag), OpCodes(e.ops), response);
    }
  }

  /** The part of a summary that only grows. */
  predicate Grew(a: Summary, b: Summary) {
    && a.current <= b.current
    && a.completing <= b.completing
    && a.opens <= b.opens && a.locks <= b.locks && a.vouched <= b.vouched && a.findings <= b.findings
    && a.released <= b.released && a.lost <= b.lost
    && (forall s :: s in a.slots ==> s in b.slots && b.slots[s].client == a.slots[s].client)
  }

  predicate SameSlotsExcept(a: Summary, b: Summary, session: nat) {
    forall s :: s in a.slots && s != session ==> s in b.slots && b.slots[s] == a.slots[s]
  }

  lemma NextGrows(sum: Summary, e: Sent)
    requires ServerOk(sum, e)
    ensures Grew(sum, Next(sum, e))
    ensures SameSlotsExcept(sum, Next(sum, e), if Sequenced(e.ops) then e.ops[0].session else 0)
    ensures !Sequenced(e.ops) ==> forall s :: s in sum.slots ==> Next(sum, e).slots[s] == sum.slots[s]
  {
  }

  class World {
    const script: nat -> Move
    const leaseFailures: nat -> bool
    var clock: nat
    var trace: seq<Sent>
    var sum: Summary
    var lost: set<nat>
    var nextOwner: nat

    /** `lost` names the locks given up so far, by open owner. */
    ghost predicate Valid()
      reads `trace, `sum, `lost
    {
      Run(trace) && sum == Fold(trace) && lost == sum.lost
    }

    constructor (script: nat -> Move, leaseFailures: nat -> bool)
      ensures Valid() && trace == [] && sum == START && clock == 0
      ensures this.script == script && this.leaseFailures == leaseFailures
    {
      this.script, this.leaseFailures := script, leaseFailures;
      clock, nextOwner := 0, 0;
      trace, sum, lost := [], START, {};
    }

    lemma IsRun()
      requires Valid()
      ensures Run(trace)
    {
    }

    /** Whether the heartbeat thread is found dead or unhealthy at this moment. */
    method PollLease() returns (failed: bool)
      modifies `clock
      ensures failed == leaseFailures(old(clock)) && clock == old(clock) + 1
    {
      failed := leaseFailures(clock);
      clock := clock + 1;
    }

    /** A process-unique opaque owner id. */
    method FreshOwner() returns (owner: nat)
      modifies `nextOwner
      ensures owner == old(nextOwner) && nextOwner == old(nextOwner) + 1
    {
      owner := nextOwner;
      nextOwner := nextOwner + 1;
    }

    /** Records that a registered lock is given up for a reason the server reported. */
    method MarkLosing(lock: LockState)
      requires Valid() && lock.lost.Some? && LossFound(sum, lock, lock.lost.value)
      modifies `trace, `sum, `lost
      ensures Valid()
      ensures trace == old(trace) + [Sent(Losing(lock), [], 0, 0, Denied)]
      ensures sum == old(sum).(lost := old(sum).lost + {lock.openOwner})
      ensures lost == old(lost) + {lock.openOwner}
    {
      hide Run, Fold, LossFound;
      var mark := Sent(Losing(lock), [], 0, 0, Denied);
      RunExtends(trace, mark);
      trace := trace + [mark];
      sum := Next(sum, mark);
      lost := lost + {lock.openOwner};
    }

    /** Records that `unlock` accepted a token. */
    method MarkUnlocking(openOwner: nat)
      requires Valid()
      modifies `trace, `sum
      ensures Valid()
      ensures trace == old(trace) + [Sent(Unlocking(openOwner), [], 0, 0, Denied)]
      ensures sum == old(sum).(released := old(sum).released + {openOwner})
    {
      hide Run, Fold;
      var mark := Sent(Unlocking(openOwner), [], 0, 0, Denied);
      RunExtends(trace, mark);
      trace := trace + [mark];
      sum := Next(sum, mark);
    }
  }

  /** One TCP connection carrying RPCs; `interrupted` poisons it for good. */
  class Rpc {
    const world: World
    var interrupted: bool

    constructor (world: World)
      ensures this.world == world && !interrupted
    {
      this.world := world;
      interrupted := false;
    }

    /** Opens a connection, or fails with an I/O error. */
    static method Connect(world: World) returns (r: Result<Rpc>)
      modifies world`clock
      ensures r.Success? ==> fresh(r.value) && r.value.world == world && !r.value.interrupted
      ensures r.Failure? ==> r.error.Io?
    {
      var move := world.script(world.clock);
      world.clock := world.clock + 1;
      if move.NotSent? {
        return Failure(Io(move.kind));
      }
      var rpc := new Rpc(world);
      return Success(rpc);
    }

    /** Sends one COMPOUND and decodes its reply. */
    method RawCompound(tag: Tag, ops: seq<Operation>) returns (r: Result<CompoundResponse>)
      requires world.Valid() && !tag.Losing?
      requires !interrupted ==> ClientOk(world.sum, tag, ops)
      modifies `interrupted, world`clock, world`trace, world`sum
      ensures world.Valid()
      ensures old(interrupted) ==>
                && r == Failure(RpcConnectionInvalid) && interrupted && world.clock == old(world.clock)
                && world.trace == old(world.trace) && world.sum == old(world.sum)
      ensures !old(interrupted) ==>
                var d := Deliver(old(world.sum), tag, ops, world.script(old(world.clock)));
                && r == d.result && interrupted == d.poisons && world.clock == old(world.clock) + 1
                && (if d.sent.Some? then
                      && world.trace == old(world.trace) + [d.sent.value]
                      && world.sum == Next(old(world.sum), d.sent.value)
                    else
                      world.trace == old(world.trace) && world.sum == old(world.sum))
    {
      hide Run, Fold, ClientOk, ServerOk, NextSlots, OpensOf, LocksOf, VouchesOf, FindingsOf, NewClient;
      if interrupted {
        return Failure(RpcConnectionInvalid);
      }
      var d := Deliver(world.sum, tag, ops, world.script(world.clock));
      world.clock := world.clock + 1;
      if d.sent.Some? {
        DeliveryIsServerOk(world.sum, tag, ops, world.script(old(world.clock)));
        RunExtends(world.trace, d.sent.value);
        world.trace := world.trace + [d.sent.value];
        world.sum := Next(world.sum, d.sent.value);
      }
      interrupted := d.poisons;
      return d.result;
    }
  }
}

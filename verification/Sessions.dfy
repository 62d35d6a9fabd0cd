/** The NFSv4 session client: sequenced sending, session recovery with lock reclaim, and the
    lock registry (src/v4/blocking.rs). */
module Sessions {
  import opened Errors
  import opened Compound
  import opened Runs
  import opened Wire
  import opened Locks
  import opened Progress

  datatype Builder = Builder(maxMinor: nat, maxRetries: nat, automaticLease: bool)

  class Client {
    const world: World
    const builder: Builder
    var rpc: Rpc
    var locks: seq<LockCell>
    var recoveryPending: bool
    var lease: Option<nat>
    var clientId: nat
    var sessionId: nat
    var sequenceId: nat
    var openSeqid: nat
    var maxOperations: nat
    var hasFsinfo: bool

    constructor (rpc: Rpc, builder: Builder, clientId: nat, sessionId: nat, sequenceId: nat, maxOperations: nat)
      ensures this.world == rpc.world && this.rpc == rpc && this.builder == builder
      ensures this.clientId == clientId && this.sessionId == sessionId && this.sequenceId == sequenceId
      ensures this.maxOperations == maxOperations
      ensures locks == [] && !recoveryPending && lease.None? && openSeqid == 1 && !hasFsinfo
    {
      this.world, this.rpc := rpc.world, rpc;
      this.builder := builder;
      this.clientId, this.sessionId, this.sequenceId := clientId, sessionId, sequenceId;
      this.maxOperations := maxOperations;
      locks, recoveryPending, lease, openSeqid, hasFsinfo := [], false, None, 1, false;
    }

    /** The client and its session agree: same client id, and on a live connection the next
        sequence id is the slot's. */
    ghost predicate SessionOk()
      reads `rpc, `clientId, `sessionId, `sequenceId, rpc`interrupted, world`trace, world`sum, world`lost
    {
      && rpc.world == world && world.Valid()
      && sessionId in world.sum.slots
      && var slot := world.sum.slots[sessionId];
      && slot.client == clientId
      && SlotOk(slot)
      && (!rpc.interrupted ==> !slot.poisoned && sequenceId == SlotAfter(Counted(slot)))
    }

    ghost predicate DistinctCells()
      reads `locks
    {
      Distinct(locks)
    }

    /** The lock with this open owner is registered as lost. */
    predicate KnownLost(owner: nat)
      reads `locks, locks
    {
      exists i :: 0 <= i < |locks| && locks[i].state.openOwner == owner && locks[i].state.lost.Some?
    }

    /** The registry and the run agree on which locks were given up and not unlocked since. */
    ghost predicate LossesMarked()
      reads `locks, world`sum, world`lost, locks
    {
      && (forall i :: 0 <= i < |locks| && locks[i].state.lost.Some? ==> locks[i].state.openOwner in world.lost)
      && (forall owner :: owner in world.lost ==> owner in world.sum.released || KnownLost(owner))
    }

    /** Registered cells are distinct, stand for distinct unreleased locks, and each lock not
        known to be lost is one the server granted. */
    ghost predicate RegistryOk()
      reads `locks, world`sum, world`lost, world`nextOwner, locks
    {
      && DistinctCells() && LossesMarked()
      && (forall i, j :: 0 <= i < j < |locks| ==> locks[i].state.openOwner != locks[j].state.openOwner)
      && (forall i :: 0 <= i < |locks| ==>
            && LockOk(world.sum, locks[i].state)
            && locks[i].state.openOwner < world.nextOwner
            && locks[i].state.openOwner !in world.sum.released)
    }

    predicate MayRetry(retry: nat): (r: bool)
      ensures r <==> retry < builder.maxRetries
    {
      retry < builder.maxRetries
    }

    /** Prepends SEQUENCE, exchanges one compound, and counts the slot up when the server
        accepted it. */
    method SendSequenced(tag: Tag, ops: seq<Operation>) returns (r: Result<CompoundResponse>, ghost sent: Option<Sent>)
      requires SessionOk() && MaySend(world.sum, clientId, tag, ops) && (tag.Foreground? || tag.Recovery?)
      requires tag.Foreground? ==>
                 world.sum.slots[sessionId].completed && ReclaimComplete !in ops && GateOpen(world.sum, ops)
      modifies this`sequenceId, rpc`interrupted, world`clock, world`trace, world`sum
      ensures world.Valid() && SessionOk() && sessionId in world.sum.slots
      ensures sent.None? ==> world.trace == old(world.trace) && world.sum == old(world.sum) && r.Failure?
      ensures sent.Some? ==>
                && ServerOk(old(world.sum), sent.value)
                && sent.value.tag == tag
                && sent.value.ops == [Sequence(sessionId, old(sequenceId))] + ops
                && world.trace == old(world.trace) + [sent.value]
                && world.sum == Next(old(world.sum), sent.value)
                && (sent.value.reply.Lost? ==> r.Failure? && r.error.OutcomeUnknown?)
      ensures r.Success? ==> sent.Some? && sent.value.reply == Answered(r.value) && !rpc.interrupted
      ensures r.Failure? && sent.Some? ==> !sent.value.reply.Answered?
      ensures r.Failure? && r.error.IsTransportFailure() ==> rpc.interrupted
      ensures r.Failure? ==> !r.error.LockLost? && !r.error.NfsV4?
      ensures old(world.clock) <= world.clock
      ensures !old(rpc.interrupted) ==>
                && world.clock == old(world.clock) + 1 &&
                var d := Deliver(old(world.sum), tag, [Sequence(sessionId, old(sequenceId))] + ops,
                                 world.script(old(world.clock)));
                && r == d.result && sent == d.sent && rpc.interrupted == d.poisons
                && After(d, old(world.trace), old(world.sum), world.trace, world.sum)
    {
      hide Run, Fold, ClientOk, ServerOk, MaySend, Next, Deliver, SlotAfter, Counted, SequenceSucceeded, GateOpen;
      hide SlotOk;
      var compound := [Sequence(sessionId, sequenceId)] + ops;
      if !rpc.interrupted {
        SequencedIsClientOk(world.sum, tag, sessionId, ops);
      }
      ghost var move := world.script(world.clock);
      r := rpc.RawCompound(tag, compound);
      sent := None;
      if !old(rpc.interrupted) {
        DeliveryIsServerOk(old(world.sum), tag, compound, move);
        sent := Deliver(old(world.sum), tag, compound, move).sent;
        if sent.Some? {
          SlotStep(old(world.sum), sent.value, sessionId);
        }
        NextSeqidAdvancesSlot(Counted(old(world.sum).slots[sessionId]));
      }
      if r.Success? && SequenceSucceeded(r.value) {
        sequenceId := NextSeqid(sequenceId);
      }
    }

    lemma SlotIsKnown()
      requires SessionOk()
      ensures world.Valid() && sessionId in world.sum.slots && world.sum.slots[sessionId].client == clientId
    {
    }

    /** Sends a recovery compound, waiting out DELAY and GRACE; never starts another recovery. */
    method RecoveryCompound(subject: Option<nat>, ops: seq<Operation>) returns (r: Result<CompoundResponse>)
      requires SessionOk() && MaySend(world.sum, clientId, Recovery(subject), ops)
      modifies this`sequenceId, rpc`interrupted, world`clock, world`trace, world`sum
      ensures SessionOk()
      ensures Steps(old(world.trace), old(world.sum), world.trace, world.sum, sessionId)
      ensures world.sum.completing == old(world.sum).completing
              || (ReclaimComplete in ops && world.sum.completing == old(world.sum).completing + {clientId})
      ensures r.Success? ==>
                && !rpc.interrupted && |old(world.trace)| < |world.trace| && |ops| + 1 <= maxOperations
                && exists e :: LastSent(world.trace, world.sum, e, sessionId, clientId, ops, r.value, subject)
      ensures r.Failure? ==> !r.error.LockLost? && !r.error.NfsV4?
      ensures !old(rpc.interrupted) && |ops| + 1 <= maxOperations ==>
                Tried(world.trace, |old(world.trace)|, ops) || Unsent(world.script, old(world.clock), world.clock)
      ensures old(world.clock) <= world.clock && OnlyAbout(old(world.trace), world.trace, subject)
    {
      hide *;
      StepsReflexive(world.trace, world.sum, sessionId);
      OnlyAboutReflexive(world.trace, subject);
      if |ops| + 1 > maxOperations {
        return Failure(Protocol);
      }
      var retry := 0;
      while true
        invariant SessionOk() && MaySend(world.sum, clientId, Recovery(subject), ops)
        invariant Steps(old(world.trace), old(world.sum), world.trace, world.sum, sessionId)
        invariant world.sum.completing == old(world.sum).completing
                  || (ReclaimComplete in ops && world.sum.completing == old(world.sum).completing + {clientId})
        invariant old(world.clock) <= world.clock && OnlyAbout(old(world.trace), world.trace, subject)
        invariant (retry == 0 && rpc.interrupted == old(rpc.interrupted)) || Tried(world.trace, |old(world.trace)|, ops)
        decreases builder.maxRetries - retry
      {
        ghost var trace, sum, seqid, clock := world.trace, world.sum, sequenceId, world.clock;
        SlotIsKnown();
        OnlyNotSentIsUnsent(sum, Recovery(subject), [Sequence(sessionId, seqid)] + ops, world.script(clock));
        ghost var sent;
        r, sent := SendSequenced(Recovery(subject), ops);
        if world.script(clock).NotSent? && clock < world.clock {
          UnsentNow(world.script, old(world.clock), world.clock, clock);
        }
        if sent.Some? {
          StepsPrefix(old(world.trace), old(world.sum), trace, sum, sessionId);
          OnlyAboutExtends(old(world.trace), trace, sent.value, subject);
          TriedNow(trace, sent.value, sessionId, seqid, ops);
          TriedStays(world.trace, world.trace, |trace|, |old(world.trace)|, ops);
          RecoverySent(trace, sum, sent.value, sessionId, clientId, seqid, ops, subject);
          StepsCompose(old(world.trace), old(world.sum), trace, sum, world.trace, world.sum, sessionId);
        }
        if r.Failure? {
          return;
        }
        if AllowsDelayedRetry(ops, r.value, 1) && MayRetry(retry) {
          retry := retry + 1;
        } else {
          return;
        }
      }
    }

    /** Asks the server whether both stateids of a lock survived. */
    method CheckRecoveredLock(lock: LockState) returns (r: Result<()>)
      requires SessionOk()
      modifies this`sequenceId, rpc`interrupted, world`clock, world`trace, world`sum
      ensures SessionOk() && OnlyAbout(old(world.trace), world.trace, Some(lock.openOwner))
      ensures Steps(old(world.trace), old(world.sum), world.trace, world.sum, sessionId)
      ensures world.sum.completing == old(world.sum).completing
      ensures r.Success? ==> Vouch(sessionId, lock.openStateid, lock.lockStateid) in world.sum.vouched
      ensures r.Failure? ==> !r.error.LockLost? && (r.error.NfsV4? ==> LossFound(world.sum, lock, r.error.status))
    {
      hide *;
      var ops := [TestStateIds([lock.openStateid, lock.lockStateid])];
      RecoveryAsks(lock, clientId, 0, 0);
      TestMaySend(world.sum, clientId, Recovery(Some(lock.openOwner)), [lock.openStateid, lock.lockStateid]);
      var response :- RecoveryCompound(Some(lock.openOwner), ops);
      ghost var e :| LastSent(world.trace, world.sum, e, sessionId, clientId, ops, response, Some(lock.openOwner));
      LastSentIsFound(world.trace, world.sum, e, sessionId, clientId, ops, response, lock.openOwner);
      StatusErrorsAreFound(world.sum, lock, ops, response, 0, 2);
      var _ :- EnsureOk(response);
      var statuses :- ResponseTestStateIds(response, 2);
      for i := 0 to 2
        invariant forall k :: 0 <= k < i ==> statuses[k].Ok?
      {
        if !statuses[i].Ok? {
          return Failure(NfsV4(OP_TEST_STATEID, statuses[i]));
        }
      }
      assert statuses == [Ok, Ok];
      TestedIsVouched(world.trace, world.sum, e, sessionId, clientId, lock, response);
      return Success(());
    }

    method AdvanceOpenSeqid()
      modifies this`openSeqid
    {
      openSeqid := if openSeqid + 1 < WRAP then openSeqid + 1 else 1;
    }

    /** Reclaims the OPEN of a tracked lock and hands back a delegation it did not ask for. */
    method ReclaimOpen(lock: LockState) returns (r: Result<StateId>)
      requires SessionOk()
      requires clientId !in world.sum.completing && lock.openOwner !in world.sum.released
      modifies this`sequenceId, this`openSeqid, rpc`interrupted, world`clock, world`trace, world`sum
      ensures SessionOk() && OnlyAbout(old(world.trace), world.trace, Some(lock.openOwner))
      ensures Steps(old(world.trace), old(world.sum), world.trace, world.sum, sessionId)
      ensures world.sum.completing == old(world.sum).completing
      ensures r.Success? ==> OpenGrant(clientId, lock.openOwner, r.value) in world.sum.opens
      ensures r.Failure? ==> !r.error.LockLost? && (r.error.NfsV4? ==> LossFound(world.sum, lock, r.error.status))
    {
      hide *;
      var subject := Some(lock.openOwner);
      var ops := [PutFh(lock.handle), Open(clientId, lock.openOwner, true)];
      RecoveryAsks(lock, clientId, 0, 0);
      ReclaimMaySend(world.sum, clientId, lock.openOwner, lock.handle, ops[1]);
      var response :- RecoveryCompound(subject, ops);
      ghost var e :| LastSent(world.trace, world.sum, e, sessionId, clientId, ops, response, subject);
      LastSentIsFound(world.trace, world.sum, e, sessionId, clientId, ops, response, lock.openOwner);
      StatusErrorsAreFound(world.sum, lock, ops, response, 0, 0);
      if ConsumedOwnerSeqid(response, OP_OPEN) {
        AdvanceOpenSeqid();
      }
      var _ :- EnsureOk(response);
      var open :- ResponseOpen(response);
      ReclaimedOpen(world.trace, world.sum, e, sessionId, clientId, lock.handle, lock.openOwner, response);
      var delegation :- ValidateOpenResult(open);
      if delegation.Some? {
        ghost var trace, sum := world.trace, world.sum;
        ops := [PutFh(lock.handle), DelegReturn(delegation.value)];
        RecoveryAsks(lock, clientId, 0, delegation.value);
        DelegReturnMaySend(world.sum, clientId, Recovery(subject), lock.handle, delegation.value);
        var returned := RecoveryCompound(subject, ops);
        OnlyAboutCompose(old(world.trace), trace, world.trace, subject);
        StepsGrow(trace, sum, world.trace, world.sum, sessionId);
        StepsCompose(old(world.trace), old(world.sum), trace, sum, world.trace, world.sum, sessionId);
        var response :- returned;
        ghost var e :| LastSent(world.trace, world.sum, e, sessionId, clientId, ops, response, subject);
        LastSentIsFound(world.trace, world.sum, e, sessionId, clientId, ops, response, lock.openOwner);
        StatusErrorsAreFound(world.sum, lock, ops, response, 0, 0);
        var _ :- EnsureOk(response);
      }
      return Success(open.stateid);
    }

    /** Reclaims the byte range itself on a reclaimed OPEN, closing that OPEN when refused. */
    method ReclaimRange(lock: LockState, openStateid: StateId) returns (r: Result<StateId>)
      requires SessionOk()
      requires clientId !in world.sum.completing && lock.openOwner !in world.sum.released
      requires OpenGrant(clientId, lock.openOwner, openStateid) in world.sum.opens
      modifies this`sequenceId, this`openSeqid, rpc`interrupted, world`clock, world`trace, world`sum
      ensures SessionOk() && OnlyAbout(old(world.trace), world.trace, Some(lock.openOwner))
      ensures Steps(old(world.trace), old(world.sum), world.trace, world.sum, sessionId)
      ensures world.sum.completing == old(world.sum).completing
      ensures r.Success? ==>
                && GrantOf(lock.(clientId := clientId, lockStateid := r.value)) in world.sum.locks
                && Vouch(sessionId, openStateid, r.value) in world.sum.vouched
      ensures r.Failure? && r.error.NfsV4? ==>
                TriedToClose(world.trace, |old(world.trace)|, lock.handle, openStateid)
                || Unsent(world.script, old(world.clock), world.clock)
      ensures r.Failure? ==> !r.error.LockLost? && (r.error.NfsV4? ==> LossFound(world.sum, lock, r.error.status))
    {
      hide *;
      var subject := Some(lock.openOwner);
      var ops := [PutFh(lock.handle),
                  Lock(clientId, lock.owner, true, lock.lockType, lock.offset, lock.length, openStateid)];
      RecoveryAsks(lock, clientId, openStateid, 0);
      ReclaimMaySend(world.sum, clientId, lock.openOwner, lock.handle, ops[1]);
      var response :- RecoveryCompound(subject, ops);
      ghost var e :| LastSent(world.trace, world.sum, e, sessionId, clientId, ops, response, subject);
      LastSentIsFound(world.trace, world.sum, e, sessionId, clientId, ops, response, lock.openOwner);
      StatusErrorsAreFound(world.sum, lock, ops, response, OP_LOCK, 0);
      if ConsumedOwnerSeqid(response, OP_LOCK) {
        AdvanceOpenSeqid();
      }
      r := if EnsureOk(response).Failure? then Failure(EnsureOk(response).error)
           else ResponseStateId(response, OP_LOCK);
      if r.Success? {
        GrantIs(lock.(clientId := clientId, lockStateid := r.value));
        ReclaimedRange(world.trace, world.sum, e, sessionId, clientId, lock.handle, ops[1], response, lock.openOwner);
      } else {
        ghost var trace, sum, clock := world.trace, world.sum, world.clock;
        ops := [PutFh(lock.handle), Close(openSeqid, openStateid)];
        CloseMaySend(world.sum, clientId, Recovery(subject), lock.handle, openSeqid, openStateid);
        var _ := RecoveryCompound(subject, ops);
        OnlyAboutCompose(old(world.trace), trace, world.trace, subject);
        if Tried(world.trace, |trace|, ops) {
          TriedIsClosing(world.trace, |trace|, |old(world.trace)|, lock.handle, openSeqid, openStateid);
        } else {
          UnsentWithin(world.script, clock, world.clock, old(world.clock), world.clock);
        }
        StepsGrow(trace, sum, world.trace, world.sum, sessionId);
        StepsCompose(old(world.trace), old(world.sum), trace, sum, world.trace, world.sum, sessionId);
        if r.error.NfsV4? {
          LossStays(sum, world.sum, lock, r.error.status);
        }
        AdvanceOpenSeqid();
      }
    }

    /** Reclaims the OPEN and the LOCK of one tracked lock under the session's client id. */
    method ReclaimLock(lock: LockState) returns (r: Result<LockState>)
      requires SessionOk()
      requires clientId !in world.sum.completing && lock.openOwner !in world.sum.released
      modifies this`sequenceId, this`openSeqid, rpc`interrupted, world`clock, world`trace, world`sum
      ensures SessionOk() && OnlyAbout(old(world.trace), world.trace, Some(lock.openOwner))
      ensures Steps(old(world.trace), old(world.sum), world.trace, world.sum, sessionId)
      ensures world.sum.completing == old(world.sum).completing
      ensures r.Success? ==>
                && SameLock(lock, r.value) && r.value.lost == lock.lost && r.value.clientId == clientId
                && Held(world.sum, r.value)
                && Vouch(sessionId, r.value.openStateid, r.value.lockStateid) in world.sum.vouched
      ensures r.Failure? ==> !r.error.LockLost? && (r.error.NfsV4? ==> LossFound(world.sum, lock, r.error.status))
    {
      hide Run, Fold, Steps, SessionOk, OnlyAbout;
      var open :- ReclaimOpen(lock);
      ghost var trace, sum := world.trace, world.sum;
      StepsGrow(old(world.trace), old(world.sum), trace, sum, sessionId);
      var ranged := ReclaimRange(lock, open);
      OnlyAboutCompose(old(world.trace), trace, world.trace, Some(lock.openOwner));
      StepsGrow(trace, sum, world.trace, world.sum, sessionId);
      StepsCompose(old(world.trace), old(world.sum), trace, sum, world.trace, world.sum, sessionId);
      var granted :- ranged;
      return Success(lock.(clientId := clientId, openStateid := open, lockStateid := granted, lockSeqid := 2));
    }

    /** Brings every tracked lock over to this new session: confirms those that belong to its
        client id, reclaims the others, and marks as lost those the server will not restore.
        Each entry is settled before the next, so an interruption keeps what was achieved. */
    method RestoreLocks() returns (r: Result<()>)
      requires world.Valid() && SessionOk() && RegistryOk() && clientId == world.sum.current
      modifies this`sequenceId, this`openSeqid, rpc`interrupted, world`clock, world`trace, world`sum, world`lost, locks
      ensures world.Valid() && SessionOk() && RegistryOk()
      ensures Steps(old(world.trace), old(world.sum), world.trace, world.sum, sessionId)
      ensures world.sum.completing == old(world.sum).completing
      ensures forall i :: 0 <= i < |locks| ==> SameLock(old(locks[i].state), locks[i].state)
      ensures r.Success? ==> forall i :: 0 <= i < |locks| ==> Confirmed(world.sum, clientId, sessionId, locks[i].state)
      ensures r.Failure? ==> SettledInPart(world.trace, |old(world.trace)|, old(StatesOf(locks)), StatesOf(locks),
                                           world.sum, clientId, sessionId)
      ensures NotDeclared(world.trace, |old(world.trace)|)
      ensures r.Failure? ==> !r.error.LockLost?
    {
      hide *;
      var index := 0;
      StepsReflexive(world.trace, world.sum, sessionId);
      forall i | 0 <= i < |locks| ensures !AskedAbout(world.trace, |world.trace|, locks[i].state.openOwner) {
        NotAskedYet(world.trace, locks[i].state.openOwner);
      }
      NotDeclaredYet(world.trace);
      while index < |locks|
        invariant 0 <= index <= |locks|
        invariant world.Valid() && SessionOk() && RegistryOk() && clientId == world.sum.current
        invariant Steps(old(world.trace), old(world.sum), world.trace, world.sum, sessionId)
        invariant world.sum.completing == old(world.sum).completing
        invariant forall i :: 0 <= i < index ==> SameLock(old(locks[i].state), locks[i].state)
        invariant forall i :: index <= i < |locks| ==> old(locks[i].state) == locks[i].state
        invariant forall i :: 0 <= i < index ==> Confirmed(world.sum, clientId, sessionId, locks[i].state)
        invariant NotDeclared(world.trace, |old(world.trace)|)
        invariant forall i :: index <= i < |locks| ==>
                    !AskedAbout(world.trace, |old(world.trace)|, locks[i].state.openOwner)
      {
        ghost var trace, sum := world.trace, world.sum;
        OwnersDiffer();
        r := RestoreLock(index);
        NotDeclaredStays(trace, world.trace, |old(world.trace)|, old(locks[index].state).openOwner);
        forall i | index < i < |locks| ensures !AskedAbout(world.trace, |old(world.trace)|, locks[i].state.openOwner) {
          OthersNotAsked(trace, world.trace, |old(world.trace)|, Some(old(locks[index].state).openOwner),
                         locks[i].state.openOwner);
        }
        StepsGrow(trace, sum, world.trace, world.sum, sessionId);
        StepsCompose(old(world.trace), old(world.sum), trace, sum, world.trace, world.sum, sessionId);
        forall i | 0 <= i < index ensures Confirmed(world.sum, clientId, sessionId, locks[i].state) {
          ConfirmedStays(sum, world.sum, clientId, sessionId, locks[i].state);
        }
        if r.Failure? {
          forall i | index <= i < |locks| ensures SameLock(locks[i].state, locks[i].state) {
            SameLockReflexive(locks[i].state);
          }
          SettledAt(world.trace, |old(world.trace)|, old(StatesOf(locks)), StatesOf(locks), world.sum,
                    clientId, sessionId, index);
          return;
        }
        index := index + 1;
      }
      return Success(());
    }

    /** Settles one registry entry. */
    method RestoreLock(index: nat) returns (r: Result<()>)
      requires SessionOk() && RegistryOk() && clientId == world.sum.current && index < |locks|
      modifies this`sequenceId, this`openSeqid, rpc`interrupted, world`clock, world`trace, world`sum, world`lost
      modifies locks[index]
      ensures world.Valid() && SessionOk() && RegistryOk()
      ensures OnlyAbout(old(world.trace), world.trace, Some(old(locks[index].state).openOwner))
      ensures forall i :: 0 <= i < |locks| && i != index ==> locks[i].state == old(locks[i].state)
      ensures Steps(old(world.trace), old(world.sum), world.trace, world.sum, sessionId)
      ensures world.sum.completing == old(world.sum).completing
      ensures SameLock(old(locks[index].state), locks[index].state)
      ensures r.Success? ==> Confirmed(world.sum, clientId, sessionId, locks[index].state)
      ensures r.Failure? ==> locks[index].state == old(locks[index].state) && !r.error.LockLost?
    {
      hide *;
      var lock := locks[index].state;
      SameLockReflexive(lock);
      EntryIsOk(index);
      var restored;
      r, restored := RestoredState(lock);
      SlotIsKnown();
      ghost var trace, sum := world.trace, world.sum;
      StepsGrow(old(world.trace), old(world.sum), trace, sum, sessionId);
      if r.Failure? {
        RegistryStays();
        return;
      }
      if lock.lost.None? && restored.lost.Some? {
        LostIsFound(sum, restored);
        label settled:
        world.MarkLosing(restored);
        MarkIsStep(trace, sum, world.trace[|trace|], sessionId);
        OnlyAboutExtends(old(world.trace), trace, world.trace[|trace|], Some(lock.openOwner));
        SessionStays@settled();
        StepsCompose(old(world.trace), old(world.sum), trace, sum, world.trace, world.sum, sessionId);
        MarkKeepsOthers(sum, world.sum, clientId, sessionId, restored);
      }
      locks[index].state := restored;
      StepsGrow(old(world.trace), old(world.sum), world.trace, world.sum, sessionId);
      RegistrySettles(index);
    }

    lemma OwnersDiffer()
      requires RegistryOk()
      ensures forall i, j :: 0 <= i < j < |locks| ==> locks[i].state.openOwner != locks[j].state.openOwner
    {
    }

    lemma EntryIsOk(index: nat)
      requires RegistryOk() && index < |locks|
      ensures LockOk(world.sum, locks[index].state) && locks[index].state.openOwner !in world.sum.released
      ensures forall i :: 0 <= i < |locks| && i != index ==> locks[i] != locks[index]
    {
    }

    /** Settling one entry keeps the registry in order. */
    twostate lemma RegistrySettles(index: nat)
      requires old(RegistryOk()) && locks == old(locks) && index < |locks|
      requires forall i :: 0 <= i < |locks| && i != index ==> locks[i].state == old(locks[i].state)
      requires SameLock(old(locks[index].state), locks[index].state) && LockOk(world.sum, locks[index].state)
      requires world.nextOwner == old(world.nextOwner) && world.sum.completing == old(world.sum).completing
      requires old(world.sum).opens <= world.sum.opens && old(world.sum).locks <= world.sum.locks
      requires old(world.sum).findings <= world.sum.findings
      requires old(world.sum).current <= world.sum.current && old(world.sum).released == world.sum.released
      requires world.lost == if old(locks[index].state).lost.None? && locks[index].state.lost.Some?
                             then old(world.lost) + {locks[index].state.openOwner} else old(world.lost)
      ensures RegistryOk()
    {
      hide LockOk;
      forall i | 0 <= i < |locks| && i != index ensures LockOk(world.sum, locks[i].state) {
        LockOkStays(old(world.sum), world.sum, locks[i].state);
      }
      forall owner | owner in world.lost ensures owner in world.sum.released || KnownLost(owner) {
        if owner in old(world.lost) && old(KnownLost(owner)) {
          var i :| 0 <= i < |locks| && old(locks[i].state).openOwner == owner && old(locks[i].state).lost.Some?;
          assert locks[i].state.openOwner == owner && locks[i].state.lost.Some?;
        }
      }
    }

    /** The new state of one lock, or the error that interrupts recovery. */
    method RestoredState(lock: LockState) returns (r: Result<()>, state: LockState)
      requires SessionOk() && clientId == world.sum.current
      requires LockOk(world.sum, lock) && lock.openOwner !in world.sum.released
      modifies this`sequenceId, this`openSeqid, rpc`interrupted, world`clock, world`trace, world`sum
      ensures SessionOk() && OnlyAbout(old(world.trace), world.trace, Some(lock.openOwner))
      ensures Steps(old(world.trace), old(world.sum), world.trace, world.sum, sessionId)
      ensures world.sum.completing == old(world.sum).completing
      ensures SameLock(lock, state) && state.openOwner == lock.openOwner
      ensures r.Success? ==> LockOk(world.sum, state) && Confirmed(world.sum, clientId, sessionId, state)
      ensures r.Failure? ==> !r.error.LockLost?
    {
      hide Run, Fold, Foregrounds, OnlyAbout;
      OnlyAboutReflexive(world.trace, Some(lock.openOwner));
      state := lock;
      if state.lost.Some? {
        return Success(()), state;
      }
      var recovered;
      if state.clientId == clientId {
        var checked := CheckRecoveredLock(state);
        recovered := if checked.Success? then Success(state) else Failure(checked.error);
      } else {
        recovered := ReclaimLock(state);
      }
      match recovered {
        case Success(restored) =>
          return Success(()), restored;
        case Failure(error) =>
          if error.NfsV4? && (error.status.IndicatesLostState() || error.status.Stale? || error.status.FhExpired?
                              || error.status.BadHandle? || error.status.NoEnt?) {
            LossOfLost(world.sum, lock, Some(error.status), error.status);
            return Success(()), state.(lost := Some(error.status));
          }
          return Failure(error), state;
      }
    }

    /** Declares reclaim complete on this session. */
    method CompleteReclaim() returns (r: Result<()>)
      requires SessionOk()
      modifies this`sequenceId, rpc`interrupted, world`clock, world`trace, world`sum
      ensures world.Valid() && SessionOk() && sessionId in world.sum.slots
      ensures Steps(old(world.trace), old(world.sum), world.trace, world.sum, sessionId)
      ensures world.sum.completing == old(world.sum).completing
              || world.sum.completing == old(world.sum).completing + {clientId}
      ensures r.Success? ==> world.sum.slots[sessionId].completed && !rpc.interrupted
      ensures r.Failure? ==> !r.error.LockLost?
    {
      hide Run, Fold, Steps, MaySend, OpensOf, LocksOf, VouchesOf;
      PlainMaySend(world.sum, clientId, Recovery(None), [ReclaimComplete]);
      var response :- RecoveryCompound(None, [ReclaimComplete]);
      ghost var e :| LastSent(world.trace, world.sum, e, sessionId, clientId, [ReclaimComplete], response, None);
      assert e.ops[1] == ReclaimComplete;
      r := EnsureReclaimComplete(response);
    }

    /** A compound outside any session, waiting out DELAY and GRACE. */
    static method SetupCompound(rpc: Rpc, maxRetries: nat, ops: seq<Operation>)
      returns (r: Result<CompoundResponse>, ghost before: Summary, ghost sent: Option<Sent>)
      requires rpc.world.Valid() && Outside(ops)
      modifies rpc`interrupted, rpc.world`clock, rpc.world`trace, rpc.world`sum
      ensures rpc.world.Valid()
      ensures Rebuilding(old(rpc.world.trace), old(rpc.world.sum), rpc.world.trace, rpc.world.sum)
      ensures rpc.world.sum.completing == old(rpc.world.sum).completing
      ensures !ops[0].ExchangeId? ==> rpc.world.sum.current == old(rpc.world.sum).current
      ensures r.Success? ==>
                && sent.Some? && ServerOk(before, sent.value)
                && sent.value.ops == ops && sent.value.reply == Answered(r.value)
                && Grew(old(rpc.world.sum), before) && rpc.world.sum == Next(before, sent.value) && !rpc.interrupted
                && |old(rpc.world.trace)| < |rpc.world.trace| && rpc.world.trace[|rpc.world.trace| - 1] == sent.value
      ensures rpc.world.sum.slots.Keys ==
              old(rpc.world.sum).slots.Keys
              + (if r.Success? && NewSession(sent.value).Some? then {NewSession(sent.value).value} else {})
      ensures OnlySetup(old(rpc.world.trace), rpc.world.trace)
      ensures !old(rpc.interrupted) ==>
                SentOutside(rpc.world.trace, |old(rpc.world.trace)|, ops)
                || rpc.world.script(old(rpc.world.clock)).NotSent?
      ensures r.Failure? ==> !r.error.LockLost?
    {
      hide Run, Fold, Rebuilding, Next, ServerOk, Deliver, NewSession, AllowsDelayedRetry, OnlySetup, SentOutside;
      var retry := 0;
      OnlySetupReflexive(rpc.world.trace);
      RebuildingReflexive(rpc.world.trace, rpc.world.sum);
      while true
        invariant rpc.world.Valid()
        invariant Rebuilding(old(rpc.world.trace), old(rpc.world.sum), rpc.world.trace, rpc.world.sum)
        invariant rpc.world.sum.completing == old(rpc.world.sum).completing
        invariant !ops[0].ExchangeId? ==> rpc.world.sum.current == old(rpc.world.sum).current
        invariant rpc.world.sum.slots.Keys == old(rpc.world.sum).slots.Keys
        invariant OnlySetup(old(rpc.world.trace), rpc.world.trace)
        invariant (retry == 0 && rpc.interrupted == old(rpc.interrupted) && rpc.world.clock == old(rpc.world.clock))
                  || SentOutside(rpc.world.trace, |old(rpc.world.trace)|, ops)
        decreases maxRetries - retry
      {
        OnlyNotSentIsUnsent(rpc.world.sum, Setup, ops, rpc.world.script(rpc.world.clock));
        ghost var trace, interrupted, move := rpc.world.trace, rpc.interrupted, rpc.world.script(rpc.world.clock);
        before, sent := rpc.world.sum, None;
        r := rpc.RawCompound(Setup, ops);
        if !interrupted {
          DeliveryIsServerOk(before, Setup, ops, move);
          sent := Deliver(before, Setup, ops, move).sent;
          if sent.Some? {
            OutsideIsRebuilding(trace, before, sent.value);
            OutsideSlots(before, sent.value);
            OnlySetupExtends(old(rpc.world.trace), trace, sent.value);
            RebuildingPrefix(old(rpc.world.trace), old(rpc.world.sum), trace, before);
            SentOutsideNow(trace, sent.value, |old(rpc.world.trace)|);
            RebuildingGrows(old(rpc.world.trace), old(rpc.world.sum), trace, before);
            RebuildingCompose(old(rpc.world.trace), old(rpc.world.sum), trace, before, rpc.world.trace, rpc.world.sum);
          }
        }
        if r.Failure? || !AllowsDelayedRetry(ops, r.value, 0) || retry >= maxRetries {
          return;
        }
        retry := retry + 1;
      }
    }

    /** EXCHANGE_ID and CREATE_SESSION: a new session for the newest client id. */
    static method CreateNewSession(rpc: Rpc, maxRetries: nat) returns (r: Result<Value>, clientId: nat)
      requires rpc.world.Valid()
      modifies rpc`interrupted, rpc.world`clock, rpc.world`trace, rpc.world`sum
      ensures rpc.world.Valid()
      ensures Rebuilding(old(rpc.world.trace), old(rpc.world.sum), rpc.world.trace, rpc.world.sum)
      ensures rpc.world.sum.completing == old(rpc.world.sum).completing
      ensures r.Success? ==>
                && !rpc.interrupted && r.value.SessionValue?
                && clientId == rpc.world.sum.current
                && r.value.session !in old(rpc.world.sum).slots
                && r.value.session in rpc.world.sum.slots
                && rpc.world.sum.slots[r.value.session] == Slot(clientId, 0, false, false, false)
      ensures rpc.world.sum.slots.Keys == old(rpc.world.sum).slots.Keys + (if r.Success? then {r.value.session} else {})
      ensures OnlySetup(old(rpc.world.trace), rpc.world.trace)
      ensures r.Failure? ==> !r.error.LockLost?
    {
      hide Run, Fold, Rebuilding, Steps, EnsureOk, ServerOk, AllowsDelayedRetry, OnlySetup;
      clientId := 0;
      ghost var before, sent;
      var exchanged;
      exchanged, before, sent := SetupCompound(rpc, maxRetries, [ExchangeId]);
      if exchanged.Failure? || EnsureOk(exchanged.value).Failure? || ResponseExchangeId(exchanged.value).Failure? {
        r := if exchanged.Failure? then Failure(exchanged.error)
             else if EnsureOk(exchanged.value).Failure? then Failure(EnsureOk(exchanged.value).error)
             else Failure(Protocol);
        return;
      }
      clientId := ResponseExchangeId(exchanged.value).value;
      assert NewClient(sent.value) == Some(clientId);
      ghost var trace, sum := rpc.world.trace, rpc.world.sum;
      var made;
      made, before, sent := SetupCompound(rpc, maxRetries, [CreateSession(clientId)]);
      OnlySetupCompose(old(rpc.world.trace), trace, rpc.world.trace);
      RebuildingCompose(old(rpc.world.trace), old(rpc.world.sum), trace, sum, rpc.world.trace, rpc.world.sum);
      RebuildingGrows(old(rpc.world.trace), old(rpc.world.sum), trace, sum);
      if made.Success? {
        OutsideSlots(before, sent.value);
      }
      if made.Failure? || EnsureOk(made.value).Failure? {
        r := if made.Failure? then Failure(made.error) else Failure(EnsureOk(made.value).error);
        return;
      }
      r := ResponseCreateSession(made.value);
      if r.Success? {
        SessionIsNew(before, sent.value, clientId, r.value.session);
      }
    }

    /** Builds a client on a new session, declaring reclaim complete right away on a first
        connection; a session that turns out unusable is destroyed again. */
    static method ConnectSessionMinor(world: World, builder: Builder, completeReclaim: bool)
      returns (r: Result<Client>)
      requires world.Valid()
      modifies world`clock, world`trace, world`sum
      ensures world.Valid()
      ensures Rebuilding(old(world.trace), old(world.sum), world.trace, world.sum)
      ensures world.sum.completing == old(world.sum).completing
              || (completeReclaim && world.sum.completing == old(world.sum).completing + {world.sum.current})
      ensures r.Success? ==> r.value.NewlyBuilt(world, builder, old(world.sum)) && fresh(r.value) && fresh(r.value.rpc)
      ensures r.Success? && completeReclaim ==> world.sum.slots[r.value.sessionId].completed
      ensures r.Success? ==> NoneLeft(old(world.trace), old(world.sum), world.trace, world.sum, {r.value.sessionId})
      ensures r.Failure? && !r.error.Cleanup? ==> NoneLeft(old(world.trace), old(world.sum), world.trace, world.sum, {})
      ensures !completeReclaim ==> OnlySetup(old(world.trace), world.trace)
      ensures r.Failure? ==> !r.error.LockLost?
    {
      hide Run, Fold, Rebuilding, Steps, EnsureOk, ServerOk, Next, Destroyed, NewSession, OnlySetup;
      OnlySetupReflexive(world.trace);
      RebuildingReflexive(world.trace, world.sum);
      var rpc :- Rpc.Connect(world);
      var created, clientId := CreateNewSession(rpc, builder.maxRetries);
      var session :- created;
      var client := new Client(rpc, builder, clientId, session.session, 1,
                               if session.maxOperations < 128 then session.maxOperations else 128);
      ghost var trace, sum := world.trace, world.sum;
      var outcome := Success(());
      if !session.channelUsable || session.maxOperations == 0 {
        outcome := Failure(Protocol);
      } else if completeReclaim {
        outcome := client.CompleteReclaim();
        StepsGrow(trace, sum, world.trace, world.sum, session.session);
        RebuildingThenSteps(old(world.trace), old(world.sum), trace, sum, world.trace, world.sum, session.session);
      }
      if outcome.Failure? {
        trace, sum := world.trace, world.sum;
        var error := CleanUpSetup(rpc, session.session, outcome.error);
        if !completeReclaim {
          OnlySetupCompose(old(world.trace), trace, world.trace);
        }
        RebuildingCompose(old(world.trace), old(world.sum), trace, sum, world.trace, world.sum);
        RebuildingPrefix(old(world.trace), old(world.sum), trace, sum);
        if !error.Cleanup? {
          DestroyedStays(world.trace, world.trace, |trace|, |old(world.trace)|, session.session);
        }
        return Failure(error);
      }
      return Success(client);
    }

    /** Destroys a session that is of no use, attaching a failure to do so to the error. */
    static method CleanUpSetup(rpc: Rpc, session: nat, error: Error) returns (r: Error)
      requires rpc.world.Valid()
      modifies rpc`interrupted, rpc.world`clock, rpc.world`trace, rpc.world`sum
      ensures rpc.world.Valid() && OnlySetup(old(rpc.world.trace), rpc.world.trace)
      ensures Rebuilding(old(rpc.world.trace), old(rpc.world.sum), rpc.world.trace, rpc.world.sum)
      ensures rpc.world.sum.completing == old(rpc.world.sum).completing
      ensures rpc.world.sum.current == old(rpc.world.sum).current
      ensures rpc.world.sum.slots.Keys == old(rpc.world.sum).slots.Keys
      ensures r.Cleanup? || (r == error && Destroyed(rpc.world.trace, |old(rpc.world.trace)|, session))
    {
      hide Run, Fold, Rebuilding, EnsureOk, ServerOk, Next, Destroyed, NewSession, OnlySetup;
      ghost var before, sent;
      var destroyed;
      destroyed, before, sent := SetupCompound(rpc, 0, [DestroySession(session)]);
      if destroyed.Success? {
        IsDestroyed(rpc.world.trace, |old(rpc.world.trace)|, sent.value, session);
        OutsideSlots(before, sent.value);
      }
      return CleanupError(error, if destroyed.Failure? then Failure(destroyed.error) else EnsureOk(destroyed.value));
    }

    /** A freshly built session of the newest client id, not there before, at sequence id 1
        or past its RECLAIM_COMPLETE. */
    ghost predicate NewlyBuilt(world: World, builder: Builder, before: Summary)
      reads this, rpc, world
    {
      && this.world == world && this.builder == builder
      && SessionOk() && !rpc.interrupted
      && clientId == world.sum.current
      && sessionId !in before.slots
      && locks == [] && lease.None? && !recoveryPending
    }

    lemma BuiltMeans(world: World, builder: Builder, before: Summary)
      requires NewlyBuilt(world, builder, before)
      ensures this.world == world && SessionOk() && clientId == world.sum.current && sessionId !in before.slots
    {
    }

    /** Tries the minor versions from the newest down to 1. */
    static method ConnectSession(world: World, builder: Builder, completeReclaim: bool)
      returns (r: Result<Client>)
      requires world.Valid()
      modifies world`clock, world`trace, world`sum
      ensures world.Valid()
      ensures Rebuilding(old(world.trace), old(world.sum), world.trace, world.sum)
      ensures !completeReclaim ==> world.sum.completing == old(world.sum).completing
      ensures forall k :: k in world.sum.completing ==> k in old(world.sum).completing || k <= world.sum.current
      ensures r.Success? ==> r.value.NewlyBuilt(world, builder, old(world.sum)) && fresh(r.value) && fresh(r.value.rpc)
      ensures r.Success? && completeReclaim ==> world.sum.slots[r.value.sessionId].completed
      ensures r.Success? ==> NoneLeft(old(world.trace), old(world.sum), world.trace, world.sum, {r.value.sessionId})
      ensures r.Failure? && !r.error.Cleanup? ==> NoneLeft(old(world.trace), old(world.sum), world.trace, world.sum, {})
      ensures !completeReclaim ==> OnlySetup(old(world.trace), world.trace)
      ensures r.Failure? ==> !r.error.LockLost?
    {
      hide Run, Fold, Rebuilding, Destroyed, OnlySetup;
      RebuildingReflexive(world.trace, world.sum);
      OnlySetupReflexive(world.trace);
      r := Failure(Protocol);
      var minor := builder.maxMinor;
      while minor >= 1
        invariant world.Valid()
        invariant Rebuilding(old(world.trace), old(world.sum), world.trace, world.sum)
        invariant !completeReclaim ==> world.sum.completing == old(world.sum).completing
        invariant forall k :: k in world.sum.completing ==> k in old(world.sum).completing || k <= world.sum.current
        invariant r.Failure? && !r.error.LockLost?
        invariant NoneLeft(old(world.trace), old(world.sum), world.trace, world.sum, {})
        invariant !completeReclaim ==> OnlySetup(old(world.trace), world.trace)
      {
        ghost var trace, sum := world.trace, world.sum;
        r := ConnectSessionMinor(world, builder, completeReclaim);
        RebuildingGrows(old(world.trace), old(world.sum), trace, sum);
        RebuildingGrows(trace, sum, world.trace, world.sum);
        RebuildingCompose(old(world.trace), old(world.sum), trace, sum, world.trace, world.sum);
        if !completeReclaim {
          OnlySetupCompose(old(world.trace), trace, world.trace);
        }
        RebuildingPrefix(old(world.trace), old(world.sum), trace, sum);
        RebuildingPrefix(trace, sum, world.trace, world.sum);
        if r.Success? || !r.error.Cleanup? {
          NoneLeftCompose(old(world.trace), old(world.sum), trace, sum, world.trace, world.sum,
                          if r.Success? then {r.value.sessionId} else {});
        }
        if r.Success? || !(r.error.NfsV4? && r.error.status.MinorVersionMismatch?) {
          return;
        }
        minor := minor - 1;
      }
    }

    /** Ends the heartbeat and destroys its session, which the server may have dropped already. */
    method StopLeaseRenewal() returns (r: Result<()>)
      requires world.Valid() && rpc.world == world
      modifies `lease, rpc`interrupted, world`clock, world`trace, world`sum
      ensures world.Valid() && lease.None?
      ensures Rebuilding(old(world.trace), old(world.sum), world.trace, world.sum)
      ensures world.sum.completing == old(world.sum).completing && world.sum.current == old(world.sum).current
      ensures OnlySetup(old(world.trace), world.trace)
      ensures old(rpc.interrupted) ==> rpc.interrupted
      ensures r.Success? && old(lease).Some? ==> Gone(world.trace, |old(world.trace)|, old(lease).value)
    {
      hide Run, Fold, Rebuilding, OnlySetup, EnsureOk;
      RebuildingReflexive(world.trace, world.sum);
      OnlySetupReflexive(world.trace);
      if lease.None? {
        return Success(());
      }
      var session := lease.value;
      lease := None;
      if rpc.interrupted {
        return Failure(RpcConnectionInvalid);
      }
      ghost var before, sent;
      var destroyed;
      destroyed, before, sent := SetupCompound(rpc, 0, [DestroySession(session)]);
      if destroyed.Failure? {
        return Failure(destroyed.error);
      }
      if destroyed.value.status.BadSession? || destroyed.value.status.DeadSession? {
        return Success(());
      }
      return EnsureOk(destroyed.value);
    }

    /** Starts a heartbeat on a second session, which must carry the same client id. */
    method StartLeaseRenewal() returns (r: Result<()>)
      requires world.Valid()
      modifies `lease, world`clock, world`trace, world`sum
      ensures world.Valid()
      ensures Rebuilding(old(world.trace), old(world.sum), world.trace, world.sum)
      ensures world.sum.completing == old(world.sum).completing
      ensures r.Failure? ==> !r.error.LockLost? && lease == old(lease)
      ensures r.Success? && !builder.automaticLease ==> lease == old(lease)
      ensures r.Success? && builder.automaticLease ==>
                lease.Some? && lease.value in world.sum.slots && world.sum.slots[lease.value].client == clientId
    {
      hide Run, Fold, Rebuilding;
      RebuildingReflexive(world.trace, world.sum);
      if !builder.automaticLease {
        return Success(());
      }
      if !hasFsinfo {
        return Failure(Protocol);
      }
      var keeper :- ConnectSession(world, builder.(automaticLease := false), false);
      if keeper.clientId != clientId {
        ghost var trace, sum := world.trace, world.sum;
        var _, _, _ := SetupCompound(keeper.rpc, 0, [DestroySession(keeper.sessionId)]);
        RebuildingCompose(old(world.trace), old(world.sum), trace, sum, world.trace, world.sum);
        return Failure(NfsV4(OP_EXCHANGE_ID, StaleClientId));
      }
      lease := Some(keeper.sessionId);
      return Success(());
    }

    /** Whole-client invariant. The session in use had its RECLAIM_COMPLETE accepted, and unless
        a recovery is pending every tracked lock is lost or confirmed on that session. */
    ghost predicate Valid()
      reads `rpc, `locks, `recoveryPending, `clientId, `sessionId, `sequenceId
      reads rpc`interrupted, world`trace, world`sum, world`lost, world`nextOwner, locks
    {
      && world.Valid() && rpc.world == world && DistinctCells()
      && SessionOk() && RegistryOk()
      && sessionId in world.sum.slots && world.sum.slots[sessionId].client == clientId
      && world.sum.slots[sessionId].completed
      && (forall owner :: owner in world.sum.released ==> owner < world.nextOwner)
      && (forall k :: k in world.sum.completing ==> k <= world.sum.current)
      && (!recoveryPending ==> Recovered())
    }

    ghost predicate Recovered()
      reads `clientId, `sessionId, `locks, world`sum, locks
    {
      && (forall k :: k in world.sum.completing ==> k <= clientId)
      && (forall i :: 0 <= i < |locks| ==> Confirmed(world.sum, clientId, sessionId, locks[i].state))
    }

    /** The loss of any tracked lock is an error for everyone. */
    method EnsureValid() returns (r: Result<()>)
      ensures r.Success? <==> !AnyLost()
      ensures r.Failure? ==> r.error.LockLost?
    {
      for i := 0 to |locks|
        invariant forall k :: 0 <= k < i ==> locks[k].state.lost.None?
      {
        if locks[i].state.lost.Some? {
          return Failure(LockLost(locks[i].state.lost.value));
        }
      }
      return Success(());
    }

    predicate AnyLost()
      reads `locks, locks
    {
      exists i :: 0 <= i < |locks| && locks[i].state.lost.Some?
    }

    /** Queries the supported attributes and, when any of the limits is among them, the limits. */
    method RefreshRecoveredFsinfo() returns (r: Result<()>)
      requires SessionOk()
      modifies this`sequenceId, this`hasFsinfo, rpc`interrupted, world`clock, world`trace, world`sum
      ensures world.Valid() && SessionOk() && sessionId in world.sum.slots
      ensures Steps(old(world.trace), old(world.sum), world.trace, world.sum, sessionId)
      ensures world.sum.completing == old(world.sum).completing
      ensures r.Failure? ==> !r.error.LockLost?
    {
      hide Run, Fold, Steps, MaySend, EnsureOk, Find;
      PlainMaySend(world.sum, clientId, Recovery(None), [PutRootFh, GetAttr]);
      var response :- RecoveryCompound(None, [PutRootFh, GetAttr]);
      var _ :- EnsureOk(response);
      ghost var trace, sum := world.trace, world.sum;
      var supported := Find(response, OpCode(GetAttr));
      if supported.Some? && !supported.value.value.NoValue? {
        PlainMaySend(world.sum, clientId, Recovery(None), [PutRootFh, GetAttr]);
        var limits := RecoveryCompound(None, [PutRootFh, GetAttr]);
        StepsCompose(old(world.trace), old(world.sum), trace, sum, world.trace, world.sum, sessionId);
        var attributes :- limits;
        var _ :- EnsureOk(attributes);
      }
      hasFsinfo := true;
      return Success(());
    }

    /** Declares reclaim complete, then refreshes the file system limits. `trace0` and `sum0` stand
        for the start of the recovery. */
    method CompleteAndRefresh(refreshFsinfo: bool, ghost trace0: seq<Sent>, ghost sum0: Summary)
      returns (r: Result<()>)
      requires SessionOk() && RegistryOk() && clientId == world.sum.current
      requires forall i :: 0 <= i < |locks| ==> Confirmed(world.sum, clientId, sessionId, locks[i].state)
      requires forall k :: k in world.sum.completing ==> k <= world.sum.current
      requires Rebuilding(trace0, sum0, world.trace, world.sum) && sessionId !in sum0.slots
      modifies this`sequenceId, this`hasFsinfo, rpc`interrupted, world`clock, world`trace, world`sum
      ensures world.Valid() && SessionOk() && RegistryOk() && sessionId in world.sum.slots
      ensures Rebuilding(trace0, sum0, world.trace, world.sum)
      ensures forall i :: 0 <= i < |locks| ==> Confirmed(world.sum, clientId, sessionId, locks[i].state)
      ensures forall k :: k in world.sum.completing ==> k <= clientId
      ensures clientId == world.sum.current
      ensures r.Success? ==> world.sum.slots[sessionId].completed
      ensures r.Failure? ==> !r.error.LockLost?
    {
      hide *;
      ghost var trace, sum := world.trace, world.sum;
      r := CompleteReclaim();
      StepsGrow(trace, sum, world.trace, world.sum, sessionId);
      RebuildingThenSteps(trace0, sum0, trace, sum, world.trace, world.sum, sessionId);
      ConfirmedStay();
      RegistryStays();
      if r.Success? && refreshFsinfo {
        trace, sum := world.trace, world.sum;
        r := RefreshRecoveredFsinfo();
        StepsGrow(trace, sum, world.trace, world.sum, sessionId);
        StepsKeepCompleted(trace, sum, world.trace, world.sum, sessionId);
        RebuildingThenSteps(trace0, sum0, trace, sum, world.trace, world.sum, sessionId);
        ConfirmedStay();
        RegistryStays();
      }
    }

    /** Declares reclaim complete, refreshes the file system limits, and restarts the heartbeat. */
    method FinishRecovery(refreshFsinfo: bool, ghost trace0: seq<Sent>, ghost sum0: Summary) returns (r: Result<()>)
      requires SessionOk() && RegistryOk() && clientId == world.sum.current
      requires forall i :: 0 <= i < |locks| ==> Confirmed(world.sum, clientId, sessionId, locks[i].state)
      requires forall k :: k in world.sum.completing ==> k <= world.sum.current
      requires Rebuilding(trace0, sum0, world.trace, world.sum) && sessionId !in sum0.slots
      modifies this`sequenceId, this`hasFsinfo, this`lease, rpc`interrupted, world`clock, world`trace, world`sum
      ensures world.Valid() && SessionOk() && RegistryOk()
      ensures Rebuilding(trace0, sum0, world.trace, world.sum)
      ensures forall i :: 0 <= i < |locks| ==> Confirmed(world.sum, clientId, sessionId, locks[i].state)
      ensures forall k :: k in world.sum.completing ==> k <= clientId
      ensures clientId <= world.sum.current
      ensures r.Success? ==> world.sum.slots[sessionId].completed
      ensures r.Failure? ==> !r.error.LockLost?
    {
      hide *;
      r := CompleteAndRefresh(refreshFsinfo, trace0, sum0);
      if r.Success? {
        ghost var trace, sum := world.trace, world.sum;
        label completed:
        r := StartLeaseRenewal();
        RebuildingKeeps(trace, sum, world.trace, world.sum, sessionId);
        RebuildingCompose(trace0, sum0, trace, sum, world.trace, world.sum);
        SessionStays@completed();
        ConfirmedStay@completed();
        RegistryStays@completed();
      }
    }

    /** What was confirmed stays confirmed, and under the newest id that declared reclaim complete. */
    twostate lemma ConfirmedStay()
      requires locks == old(locks) && clientId == old(clientId) && sessionId == old(sessionId)
      requires forall i :: 0 <= i < |locks| ==>
                 locks[i].state == old(locks[i].state)
                 && Confirmed(old(world.sum), clientId, sessionId, old(locks[i].state))
      requires old(world.sum).vouched <= world.sum.vouched && forall k :: k in world.sum.completing ==> k <= clientId
      ensures forall i :: 0 <= i < |locks| ==> Confirmed(world.sum, clientId, sessionId, locks[i].state)
      ensures forall i, k :: 0 <= i < |locks| && locks[i].state.lost.None? && k in world.sum.completing ==>
                k <= locks[i].state.clientId
    {
    }

    /** Connects a new session, retrying transport failures as often as the policy allows. */
    method Reconnect() returns (r: Result<Client>)
      requires world.Valid()
      modifies world`clock, world`trace, world`sum
      ensures world.Valid()
      ensures Rebuilding(old(world.trace), old(world.sum), world.trace, world.sum)
      ensures world.sum.completing == old(world.sum).completing
      ensures r.Success? ==> r.value.NewlyBuilt(world, builder, old(world.sum)) && fresh(r.value) && fresh(r.value.rpc)
      ensures r.Success? ==> NoneLeft(old(world.trace), old(world.sum), world.trace, world.sum, {r.value.sessionId})
      ensures r.Failure? && !r.error.Cleanup? ==> NoneLeft(old(world.trace), old(world.sum), world.trace, world.sum, {})
      ensures OnlySetup(old(world.trace), world.trace)
      ensures r.Failure? ==> !r.error.LockLost?
    {
      hide Run, Fold, Rebuilding, Destroyed, OnlySetup;
      RebuildingReflexive(world.trace, world.sum);
      OnlySetupReflexive(world.trace);
      var retry := 0;
      while true
        invariant world.Valid()
        invariant Rebuilding(old(world.trace), old(world.sum), world.trace, world.sum)
        invariant world.sum.completing == old(world.sum).completing
        invariant NoneLeft(old(world.trace), old(world.sum), world.trace, world.sum, {})
        invariant OnlySetup(old(world.trace), world.trace)
        decreases builder.maxRetries - retry
      {
        ghost var trace, sum := world.trace, world.sum;
        r := ConnectSession(world, builder, false);
        RebuildingGrows(old(world.trace), old(world.sum), trace, sum);
        RebuildingCompose(old(world.trace), old(world.sum), trace, sum, world.trace, world.sum);
        OnlySetupCompose(old(world.trace), trace, world.trace);
        RebuildingPrefix(old(world.trace), old(world.sum), trace, sum);
        RebuildingPrefix(trace, sum, world.trace, world.sum);
        if r.Success? || !r.error.Cleanup? {
          NoneLeftCompose(old(world.trace), old(world.sum), trace, sum, world.trace, world.sum,
                          if r.Success? then {r.value.sessionId} else {});
        }
        if r.Success? || !r.error.IsTransportFailure() || !MayRetry(retry) {
          return;
        }
        retry := retry + 1;
      }
    }

    /** Building other sessions leaves this one as it was. */
    twostate lemma SessionStays()
      requires old(SessionOk()) && world.Valid()
      requires rpc == old(rpc) && clientId == old(clientId) && sessionId == old(sessionId)
               && sequenceId == old(sequenceId)
      requires old(rpc.interrupted) ==> rpc.interrupted
      requires Rebuilding(old(world.trace), old(world.sum), world.trace, world.sum)
      ensures SessionOk() && sessionId in world.sum.slots && sessionId in old(world.sum.slots)
      ensures world.sum.slots[sessionId] == old(world.sum.slots[sessionId])
              && world.sum.slots[sessionId].client == clientId
    {
      hide Run, Fold;
    }

    /** Neither does it disturb the registry, as long as no lock is left behind a completed reclaim. */
    twostate lemma RegistryStays()
      requires old(RegistryOk()) && locks == old(locks)
      requires forall i :: 0 <= i < |locks| ==> locks[i].state == old(locks[i].state)
      requires world.nextOwner == old(world.nextOwner) && world.lost == old(world.lost)
      requires old(world.sum).opens <= world.sum.opens && old(world.sum).locks <= world.sum.locks
      requires old(world.sum).findings <= world.sum.findings
      requires old(world.sum).current <= world.sum.current && old(world.sum).released == world.sum.released
      requires world.sum.completing <= old(world.sum).completing
               || forall i, k :: 0 <= i < |locks| && locks[i].state.lost.None? && k in world.sum.completing ==>
                    k <= locks[i].state.clientId
      ensures RegistryOk()
    {
    }

    lemma SharedSession(other: Client)
      requires other.world == world && other.rpc == rpc && other.clientId == clientId
      requires other.sessionId == sessionId && other.sequenceId == sequenceId && other.SessionOk()
      ensures SessionOk() && sessionId in world.sum.slots && world.sum.slots[sessionId].client == clientId
    {
    }

    lemma SharedRecovered(other: Client)
      requires other.world == world && other.clientId == clientId && other.sessionId == sessionId
      requires other.locks == locks && other.Recovered()
      ensures Recovered()
    {
    }

    lemma SharedRegistry(other: Client)
      requires other.world == world && other.locks == locks && other.RegistryOk()
      ensures RegistryOk()
    {
    }

    /** Ends the heartbeat and connects the session that is to take over, sharing this client's
        lock cells. */
    method ConnectReplacement() returns (r: Result<Client>)
      requires Valid() && recoveryPending
      modifies this`lease, rpc`interrupted, world`clock, world`trace, world`sum
      ensures world.Valid() && SessionOk() && RegistryOk() && (old(rpc.interrupted) ==> rpc.interrupted)
      ensures sessionId in world.sum.slots && world.sum.slots[sessionId] == old(world.sum.slots[sessionId])
      ensures Rebuilding(old(world.trace), old(world.sum), world.trace, world.sum)
      ensures world.sum.completing == old(world.sum).completing && old(world.sum).current <= world.sum.current
      ensures world.sum.released == old(world.sum).released
      ensures r.Success? ==>
                var c := r.value;
                && fresh(c) && fresh(c.rpc) && c.world == world && c.locks == locks
                && c.SessionOk() && c.RegistryOk() && c.clientId == world.sum.current
                && c.sessionId !in old(world.sum).slots
      ensures OnlySetup(old(world.trace), world.trace)
      ensures r.Failure? ==> !r.error.LockLost?
    {
      hide *;
      InSession();
      IsRun();
      var _ := StopLeaseRenewal();
      ghost var trace, sum := world.trace, world.sum;
      var connected := Reconnect();
      OnlySetupCompose(old(world.trace), trace, world.trace);
      RebuildingCompose(old(world.trace), old(world.sum), trace, sum, world.trace, world.sum);
      InOldSession();
      SessionStays();
      RebuildingKeeps(old(world.trace), old(world.sum), world.trace, world.sum, sessionId);
      RegistryStays();
      var rebuilt :- connected;
      rebuilt.BuiltMeans(world, builder, sum);
      RebuildingOld(old(world.trace), old(world.sum), trace, sum, rebuilt.sessionId);
      ShareLocks(rebuilt);
      return Success(rebuilt);
    }

    /** The rebuilt client works on the very same lock cells. */
    method ShareLocks(rebuilt: Client)
      requires rebuilt != this && rebuilt.world == world && RegistryOk()
      modifies rebuilt`locks, rebuilt`openSeqid
      ensures rebuilt.locks == locks && rebuilt.RegistryOk()
    {
      hide Run, Fold, RegistryOk;
      rebuilt.locks := locks;
      if rebuilt.clientId == clientId {
        rebuilt.openSeqid := openSeqid;
      }
      rebuilt.SharedRegistry(this);
    }

    /** What a newly connected session does before it takes over: it restores the locks and
        declares reclaim complete. `trace0` and `sum0` stand for the start of the recovery. */
    method PrepareTakeover(refreshFsinfo: bool, ghost trace0: seq<Sent>, ghost sum0: Summary) returns (r: Result<()>)
      requires SessionOk() && RegistryOk() && clientId == world.sum.current
      requires forall k :: k in world.sum.completing ==> k <= world.sum.current
      requires Rebuilding(trace0, sum0, world.trace, world.sum) && sessionId !in sum0.slots
      requires OnlySetup(trace0, world.trace)
      modifies this`sequenceId, this`openSeqid, this`hasFsinfo, this`lease, rpc`interrupted
      modifies world`clock, world`trace, world`sum, world`lost, locks
      ensures world.Valid() && SessionOk() && RegistryOk() && sessionId in world.sum.slots
      ensures Rebuilding(trace0, sum0, world.trace, world.sum)
      ensures forall i :: 0 <= i < |locks| ==> SameLock(old(locks[i].state), locks[i].state)
      ensures forall k :: k in world.sum.completing ==> k <= world.sum.current
      ensures r.Success? ==> world.sum.slots[sessionId].completed && Recovered()
      ensures r.Failure? ==>
                !r.error.LockLost? && SettledOn(world.trace, |trace0|, old(StatesOf(locks)), StatesOf(locks), world.sum,
                                                clientId, sessionId)
    {
      hide *;
      ghost var trace, sum := world.trace, world.sum;
      SlotIsKnown();
      r := RestoreLocks();
      StepsGrow(trace, sum, world.trace, world.sum, sessionId);
      RebuildingThenSteps(trace0, sum0, trace, sum, world.trace, world.sum, sessionId);
      SlotIsKnown();
      if r.Failure? {
        StepsPrefix(trace, sum, world.trace, world.sum, sessionId);
        SettledSince(trace0, trace, world.trace, old(StatesOf(locks)), StatesOf(locks), world.sum, clientId, sessionId);
        return;
      }
      r := FinishRecovery(refreshFsinfo, trace0, sum0);
      SlotIsKnown();
      if r.Failure? {
        AllSettled(world.trace, |trace0|, old(StatesOf(locks)), StatesOf(locks), world.sum, clientId, sessionId);
        return;
      }
      IsRecovered();
    }

    /** The part of recovery before the new session takes over. */
    method BuildReplacement() returns (r: Result<Client>)
      requires Valid() && recoveryPending
      modifies this`lease, rpc`interrupted, world`clock, world`trace, world`sum, world`lost, locks
      ensures Valid() && rpc.world == world
      ensures Rebuilding(old(world.trace), old(world.sum), world.trace, world.sum)
      ensures forall i :: 0 <= i < |locks| ==> SameLock(old(locks[i].state), locks[i].state)
      ensures r.Success? ==>
                var c := r.value;
                && fresh(c) && fresh(c.rpc) && c.world == world && c.locks == locks
                && c.SessionOk() && world.sum.slots[c.sessionId].completed && c.Recovered()
                && c.sessionId !in old(world.sum).slots
      ensures r.Failure? ==>
                !r.error.LockLost? && KeepsSettled(old(world.trace), old(world.sum), world.trace, world.sum,
                                                   old(StatesOf(locks)), StatesOf(locks))
    {
      hide *;
      forall i | 0 <= i < |locks| ensures SameLock(locks[i].state, locks[i].state) {
        SameLockReflexive(locks[i].state);
      }
      CompletingIsOld();
      var connected := ConnectReplacement();
      if connected.Failure? {
        NothingSettled(old(world.trace), old(world.sum), world.trace, world.sum, StatesOf(locks));
        PendingStays();
        return Failure(connected.error);
      }
      var rebuilt := connected.value;
      var prepared := rebuilt.PrepareTakeover(hasFsinfo, old(world.trace), old(world.sum));
      InOldSession();
      SessionStays();
      SharedRegistry(rebuilt);
      PendingStays();
      rebuilt.SlotIsKnown();
      if prepared.Failure? {
        IsSettled(old(world.trace), old(world.sum), world.trace, world.sum, old(StatesOf(locks)), StatesOf(locks),
                  rebuilt.clientId, rebuilt.sessionId);
        return Failure(prepared.error);
      }
      return Success(rebuilt);
    }

    lemma CompletingIsOld()
      requires Valid()
      ensures forall k :: k in world.sum.completing ==> k <= world.sum.current
    {
    }

    twostate lemma InOldSession()
      requires old(Valid())
      ensures old(SessionOk()) && old(RegistryOk()) && old(sessionId in world.sum.slots)
    {
    }

    lemma IsRecovered()
      requires forall i :: 0 <= i < |locks| ==> Confirmed(world.sum, clientId, sessionId, locks[i].state)
      requires forall k :: k in world.sum.completing ==> k <= clientId
      ensures Recovered()
    {
    }

    /** With a recovery pending, building another session leaves a client in good order. */
    twostate lemma PendingStays()
      requires old(Valid()) && recoveryPending && world.Valid() && SessionOk() && RegistryOk()
      requires rpc == old(rpc) && locks == old(locks) && clientId == old(clientId) && sessionId == old(sessionId)
      requires world.nextOwner == old(world.nextOwner)
               && Rebuilding(old(world.trace), old(world.sum), world.trace, world.sum)
      requires forall k :: k in world.sum.completing ==> k <= world.sum.current
      ensures Valid() && rpc.world == world
    {
      hide Run, Fold, Foregrounds, Recovered;
    }

    /** Adopts every field of the rebuilt client, which shares this one's locks. */
    method Adopt(rebuilt: Client)
      requires Valid() && rebuilt != this && rebuilt.world == world && rebuilt.locks == locks
      requires rebuilt.SessionOk() && world.sum.slots[rebuilt.sessionId].completed && rebuilt.Recovered()
      modifies this
      ensures Valid() && !recoveryPending
      ensures locks == old(locks) && rpc == rebuilt.rpc && sessionId == rebuilt.sessionId
    {
      hide Run, Fold, SessionOk, RegistryOk, Recovered;
      rpc, clientId, sessionId, sequenceId :=
        rebuilt.rpc, rebuilt.clientId, rebuilt.sessionId, rebuilt.sequenceId;
      recoveryPending := false;
      SharedSession(rebuilt);
      SharedRecovered(rebuilt);
      AdoptLimits(rebuilt);
    }

    method AdoptLimits(rebuilt: Client)
      modifies `lease, `openSeqid, `maxOperations, `hasFsinfo
      ensures lease == rebuilt.lease && openSeqid == rebuilt.openSeqid
      ensures maxOperations == rebuilt.maxOperations && hasFsinfo == rebuilt.hasFsinfo
    {
      lease, openSeqid, maxOperations, hasFsinfo :=
        rebuilt.lease, rebuilt.openSeqid, rebuilt.maxOperations, rebuilt.hasFsinfo;
    }

    /** Destroys a session this client no longer uses, on the connection it was used on. */
    method Abandon(oldRpc: Rpc, session: nat)
      requires Valid() && oldRpc != rpc && oldRpc.world == world
      modifies oldRpc`interrupted, world`clock, world`trace, world`sum
      ensures Valid()
      ensures Rebuilding(old(world.trace), old(world.sum), world.trace, world.sum)
      ensures !old(oldRpc.interrupted) ==>
                SentOutside(world.trace, |old(world.trace)|, [DestroySession(session)])
                || world.script(old(world.clock)).NotSent?
    {
      hide Run, Fold, Rebuilding, SessionOk, RegistryOk, SentOutside;
      RebuildingReflexive(world.trace, world.sum);
      if !oldRpc.interrupted {
        var _, _, _ := SetupCompound(oldRpc, 0, [DestroySession(session)]);
        RebuildingGrows(old(world.trace), old(world.sum), world.trace, world.sum);
        SessionStays();
        RegistryStays();
      }
    }

    /** Rebuilds the session: a new one is connected, every tracked lock is confirmed, reclaimed
        or marked lost on it, and only after its RECLAIM_COMPLETE was accepted does it replace
        the old one. Until then the recovery stays pending, keeping each lock settled so far. */
    method RecoverSession() returns (r: Result<()>)
      requires Valid()
      modifies this, rpc`interrupted, world`clock, world`trace, world`sum, world`lost, locks
      ensures Valid() && locks == old(locks) && (rpc == old(rpc) || fresh(rpc))
      ensures Rebuilding(old(world.trace), old(world.sum), world.trace, world.sum)
      ensures forall i :: 0 <= i < |locks| ==> SameLock(old(locks[i].state), locks[i].state)
      ensures r.Success? ==> !recoveryPending && !AnyLost() && sessionId !in old(world.sum).slots
      ensures r.Failure? ==>
                || (recoveryPending && sessionId == old(sessionId) && clientId == old(clientId) && !r.error.LockLost?
                    && KeepsSettled(old(world.trace), old(world.sum), world.trace, world.sum,
                                    old(StatesOf(locks)), StatesOf(locks)))
                || (!recoveryPending && AnyLost() && sessionId !in old(world.sum).slots && r.error.LockLost?)
    {
      hide Run, Fold, Rebuilding, SameLock, SessionOk, RegistryOk, Recovered;
      recoveryPending := true;
      var rebuilt :- BuildReplacement();
      ghost var trace, sum := world.trace, world.sum;
      var oldRpc, oldSession := rpc, sessionId;
      Adopt(rebuilt);
      Abandon(oldRpc, oldSession);
      RebuildingCompose(old(world.trace), old(world.sum), trace, sum, world.trace, world.sum);
      r := EnsureValid();
    }

    /** Sending on the own session keeps the client valid, also when locks turn out lost. */
    twostate lemma ValidStays()
      requires old(Valid()) && SessionOk() && locks == old(locks) && rpc == old(rpc)
      requires clientId == old(clientId) && sessionId == old(sessionId) && recoveryPending == old(recoveryPending)
      requires world.nextOwner == old(world.nextOwner)
      requires Grew(old(world.sum), world.sum) && world.sum.slots[sessionId].completed
      requires world.sum.released == old(world.sum.released) && world.sum.completing == old(world.sum.completing)
      requires forall owner :: owner in world.lost ==> owner in old(world.lost) || KnownLost(owner)
      requires old(world.lost) <= world.lost
      requires forall i :: 0 <= i < |locks| ==>
                 locks[i].state == old(locks[i].state)
                 || (locks[i].state.lost.Some? && LockOk(world.sum, locks[i].state)
                     && SameLock(old(locks[i].state), locks[i].state) && locks[i].state.openOwner in world.lost)
      ensures Valid()
    {
      hide Run, Fold;
    }

    /** Marks one lock as lost when the server no longer knows one of its stateids. */
    method CheckRevokedLock(index: nat) returns (r: Result<()>)
      requires Valid() && index < |locks|
      modifies this`sequenceId, rpc`interrupted, world`clock, world`trace, world`sum, world`lost, locks[index]
      ensures Valid()
      ensures Steps(old(world.trace), old(world.sum), world.trace, world.sum, sessionId)
      ensures SameLock(old(locks[index].state), locks[index].state)
      ensures r.Failure? ==> !r.error.LockLost?
      ensures r.Success? && locks[index].state.lost.None? ==>
                TestedSince(world.trace, |old(world.trace)|, locks[index].state)
    {
      hide *;
      StepsReflexive(world.trace, world.sum, sessionId);
      var lock := locks[index].state;
      SameLockReflexive(lock);
      if lock.lost.Some? {
        return Success(());
      }
      InSession();
      var ids := [lock.openStateid, lock.lockStateid];
      TestMaySend(world.sum, clientId, Recovery(Some(lock.openOwner)), ids);
      var tested := RecoveryCompound(Some(lock.openOwner), [TestStateIds(ids)]);
      StepsValid();
      var response :- tested;
      ghost var e :| LastSent(world.trace, world.sum, e, sessionId, clientId, [TestStateIds(ids)], response,
                              Some(lock.openOwner));
      LastSentIsFound(world.trace, world.sum, e, sessionId, clientId, [TestStateIds(ids)], response, lock.openOwner);
      RecoveryAsks(lock, clientId, 0, 0);
      StatusErrorsAreFound(world.sum, lock, [TestStateIds(ids)], response, 0, 2);
      var _ :- EnsureOk(response);
      var statuses :- ResponseTestStateIds(response, 2);
      if statuses == [Ok, Ok] {
        TestedNow(world.trace, |old(world.trace)|, world.sum, e, sessionId, clientId, lock, response);
      }
      for k := 0 to 2
        invariant Valid() && SameLock(lock, locks[index].state)
        invariant locks[index].state == lock.(lost := locks[index].state.lost)
        invariant forall i :: 0 <= i < 2 ==> LossFound(world.sum, lock, statuses[i])
        invariant locks[index].state.lost.None? ==> locks[index].state == lock
        invariant locks[index].state.lost.None? ==> forall i :: 0 <= i < k ==> statuses[i].Ok?
        invariant locks[index].state.lost.None? && statuses == [Ok, Ok] ==>
                  TestedSince(world.trace, |old(world.trace)|, lock)
        invariant Steps(old(world.trace), old(world.sum), world.trace, world.sum, sessionId)
      {
        if !statuses[k].Ok? {
          ghost var trace, sum := world.trace, world.sum;
          label found:
          LossOfLost(world.sum, lock, locks[index].state.lost, statuses[k]);
          LoseLock(index, statuses[k], ids[k]);
          StepsGrow(trace, sum, world.trace, world.sum, sessionId);
          SameLockTransitive(lock, old@found(locks[index].state), locks[index].state);
          forall i | 0 <= i < 2 ensures LossFound(world.sum, lock, statuses[i]) {
            LossStays(sum, world.sum, lock, statuses[i]);
          }
          StepsCompose(old(world.trace), old(world.sum), trace, sum, world.trace, world.sum, sessionId);
        }
      }
      assert locks[index].state.lost.None? ==> statuses == [Ok, Ok];
      return Success(());
    }

    /** Keeps the status the server gave as the reason of the loss, and frees the revoked stateid
        so that the server need not go on announcing it. */
    method LoseLock(index: nat, status: Status, id: StateId)
      requires Valid() && index < |locks| && LossFound(world.sum, locks[index].state, status)
      modifies this`sequenceId, rpc`interrupted, world`clock, world`trace, world`sum, world`lost, locks[index]
      ensures Valid() && Steps(old(world.trace), old(world.sum), world.trace, world.sum, sessionId)
      ensures locks[index].state == old(locks[index].state).(lost := Some(status))
      ensures SameLock(old(locks[index].state), locks[index].state)
      ensures !old(rpc.interrupted) && 2 <= maxOperations ==>
                Tried(world.trace, |old(world.trace)|, [FreeStateId(id)])
                || Unsent(world.script, old(world.clock), world.clock)
    {
      hide *;
      InSession();
      var lost := locks[index].state.(lost := Some(status));
      LossOfLost(world.sum, locks[index].state, Some(status), status);
      LossIsOk(world.sum, world.sum, locks[index].state, status);
      world.MarkLosing(lost);
      locks[index].state := lost;
      ghost var trace, sum := world.trace, world.sum;
      MarkIsStep(old(world.trace), old(world.sum), trace[|trace| - 1], sessionId);
      SessionStays();
      var subject := Some(lost.openOwner);
      FreeMaySend(world.sum, clientId, Recovery(subject), id);
      var _ := RecoveryCompound(subject, [FreeStateId(id)]);
      if Tried(world.trace, |trace|, [FreeStateId(id)]) {
        TriedStays(world.trace, world.trace, |trace|, |old(world.trace)|, [FreeStateId(id)]);
      }
      StepsCompose(old(world.trace), old(world.sum), trace, sum, world.trace, world.sum, sessionId);
      StepsGrow(old(world.trace), old(world.sum), world.trace, world.sum, sessionId);
      LossIsOk(old(world.sum), world.sum, old(locks[index].state), status);
      IsKnownLost(index);
      StepsValid();
    }

    lemma IsKnownLost(index: nat)
      requires index < |locks| && locks[index].state.lost.Some?
      ensures KnownLost(locks[index].state.openOwner)
    {
    }

    twostate lemma StepsValid()
      requires old(Valid()) && SessionOk() && locks == old(locks) && rpc == old(rpc)
      requires clientId == old(clientId) && sessionId == old(sessionId) && recoveryPending == old(recoveryPending)
      requires world.nextOwner == old(world.nextOwner)
      requires Steps(old(world.trace), old(world.sum), world.trace, world.sum, sessionId)
      requires world.sum.completing == old(world.sum.completing)
      requires forall owner :: owner in world.lost ==> owner in old(world.lost) || KnownLost(owner)
      requires old(world.lost) <= world.lost
      requires forall i :: 0 <= i < |locks| ==>
                 locks[i].state == old(locks[i].state)
                 || (locks[i].state.lost.Some? && LockOk(world.sum, locks[i].state)
                     && SameLock(old(locks[i].state), locks[i].state) && locks[i].state.openOwner in world.lost)
      ensures Valid()
    {
      hide Run, Fold;
      ValidStays();
    }

    /** Looks for revoked state among the tracked locks after the server announced revocation. */
    method CheckRevokedLocks() returns (r: Result<()>)
      requires Valid()
      modifies this`sequenceId, rpc`interrupted, world`clock, world`trace, world`sum, world`lost, locks
      ensures Valid()
      ensures Steps(old(world.trace), old(world.sum), world.trace, world.sum, sessionId)
      ensures forall i :: 0 <= i < |locks| ==> SameLock(old(locks[i].state), locks[i].state)
      ensures r.Failure? ==> !r.error.LockLost?
      ensures r.Success? ==> forall i :: 0 <= i < |locks| ==>
                locks[i].state.lost.Some? || TestedSince(world.trace, |old(world.trace)|, locks[i].state)
    {
      hide Run, Fold, Steps, SameLock, SessionOk, RegistryOk, Recovered, TestedSince;
      StepsReflexive(world.trace, world.sum, sessionId);
      forall i | 0 <= i < |locks| ensures SameLock(locks[i].state, locks[i].state) {
        SameLockReflexive(locks[i].state);
      }
      for index := 0 to |locks|
        invariant Valid()
        invariant Steps(old(world.trace), old(world.sum), world.trace, world.sum, sessionId)
        invariant forall i :: 0 <= i < |locks| ==> SameLock(old(locks[i].state), locks[i].state)
        invariant forall i :: index <= i < |locks| ==> locks[i].state == old(locks[i].state)
        invariant forall i :: 0 <= i < index ==>
                  locks[i].state.lost.Some? || TestedSince(world.trace, |old(world.trace)|, locks[i].state)
      {
        ghost var trace, sum := world.trace, world.sum;
        assert DistinctCells();
        r := CheckRevokedLock(index);
        StepsPrefix(old(world.trace), old(world.sum), trace, sum, sessionId);
        StepsPrefix(trace, sum, world.trace, world.sum, sessionId);
        forall i | 0 <= i < index && locks[i].state.lost.None?
          ensures TestedSince(world.trace, |old(world.trace)|, locks[i].state)
        {
          TestedStays(trace, world.trace, |old(world.trace)|, |old(world.trace)|, locks[i].state);
        }
        if r.Success? && locks[index].state.lost.None? {
          TestedStays(world.trace, world.trace, |trace|, |old(world.trace)|, locks[index].state);
        }
        StepsCompose(old(world.trace), old(world.sum), trace, sum, world.trace, world.sum, sessionId);
        if r.Failure? {
          return;
        }
      }
      return Success(());
    }

    /** Since a point of the trace, every tracked lock was confirmed by the server or found lost. */
    ghost predicate Checked(since: nat)
      reads `locks, locks, world`trace
    {
      forall i :: 0 <= i < |locks| ==> locks[i].state.lost.Some? || TestedSince(world.trace, since, locks[i].state)
    }

    lemma CheckedSince(from: nat, since: nat)
      requires Checked(from) && since <= from
      ensures Checked(since)
    {
      hide TestedSince;
      forall i | 0 <= i < |locks| && locks[i].state.lost.None? ensures TestedSince(world.trace, since, locks[i].state) {
        TestedStays(world.trace, world.trace, from, since, locks[i].state);
      }
    }

    /** Puts one application compound on the wire. */
    method SendForeground(ops: seq<Operation>) returns (r: Result<CompoundResponse>, ghost sent: Option<Sent>)
      requires Valid() && Application(clientId, ops) && (AnyLost() ==> ReleasesState(ops))
      modifies this`sequenceId, rpc`interrupted, world`clock, world`trace, world`sum
      ensures Valid() && sessionId in old(world.sum).slots
      ensures OwnProgress(old(world.trace), old(world.sum), world.trace, world.sum, Listed(sent))
      ensures sent.None? ==> r.Failure? && world.trace == old(world.trace)
      ensures sent.Some? ==> IsSendOf(sent.value, sessionId, clientId, ops)
      ensures sent.Some? ==> OpensOf(sent.value) <= world.sum.opens && LocksOf(sent.value) <= world.sum.locks
                             && VouchesOf(sent.value) <= world.sum.vouched
      ensures sent.Some? && sent.value.reply.Lost? ==> r.Failure? && r.error.OutcomeUnknown?
      ensures if r.Success? then sent.Some? && sent.value.reply == Answered(r.value)
              else sent.Some? ==> !sent.value.reply.Answered?
      ensures r.Failure? ==> !r.error.LockLost?
      ensures !old(rpc.interrupted) ==>
                var d := DeliveryNow(old(world.sum), sessionId, old(sequenceId), ops, world.script(old(world.clock)));
                && r == d.result && sent == d.sent && rpc.interrupted == d.poisons
                && world.clock == old(world.clock) + 1
                && After(d, old(world.trace), old(world.sum), world.trace, world.sum)
    {
      hide *;
      InSession();
      GrewReflexive(world.sum);
      ProgressReflexive(world.trace, world.sum);
      ApplicationMaySend(world.sum, clientId, ops);
      ApplicationDoesNotComplete(clientId, ops);
      GateOpens(ops);
      DeliveryNowIs(world.sum, sessionId, sequenceId, ops, world.script(world.clock));
      ListedIs(None);
      r, sent := SendSequenced(Foreground, ops);
      if sent.Some? {
        ForegroundSent(old(world.trace), old(world.sum), sent.value, sessionId, clientId, old(sequenceId), ops);
        ListedIs(sent);
      }
      ValidStays();
    }

    /** While the registry knows of no lost lock, every lock given up in the run was unlocked. */
    lemma GateOpens(ops: seq<Operation>)
      requires Valid() && (AnyLost() ==> ReleasesState(ops))
      ensures GateOpen(world.sum, ops)
    {
      hide Run, Fold, SessionOk, LockOk, Recovered, ReleasesState;
      if !AnyLost() {
        forall owner | owner in world.sum.lost ensures owner in world.sum.released {
          assert !KnownLost(owner);
        }
      }
    }

    method MarkPending()
      requires Valid()
      modifies `recoveryPending
      ensures Valid() && recoveryPending
    {
      hide Run, Fold, SessionOk, RegistryOk, Recovered;
      recoveryPending := true;
    }

    /** Recovers in the middle of a call; the compound is replayed only if that cannot do harm. */
    method RecoverInCall(ops: seq<Operation>) returns (r: Result<()>, replay: bool)
      requires Valid() && Application(clientId, ops)
      modifies this, rpc`interrupted, world`clock, world`trace, world`sum, world`lost, locks
      ensures Valid() && locks == old(locks) && (rpc == old(rpc) || fresh(rpc))
      ensures forall i :: 0 <= i < |locks| ==> SameLock(old(locks[i].state), locks[i].state)
      ensures OwnProgress(old(world.trace), old(world.sum), world.trace, world.sum, [])
      ensures replay <==> r.Success? && CanReplay(ops)
      ensures replay ==> Application(clientId, ops) && !AnyLost() && !recoveryPending
      ensures recoveryPending || sessionId !in old(world.sum).slots
      ensures r.Success? ==> !recoveryPending && sessionId !in old(world.sum).slots
    {
      hide Run, Fold, Foregrounds, Rebuilding, SameLock, SessionOk, RegistryOk, Recovered, Application, CanReplay;
      r := RecoverSession();
      RebuildingIsProgress(old(world.trace), old(world.sum), world.trace, world.sum);
      replay := r.Success? && CanReplay(ops);
      if replay {
        ReplayableUnderAnyClient(ops, old(clientId), clientId);
      }
    }

    /** One sending of an application compound and the decision that follows it. */
    method OneTurn(ops: seq<Operation>, recovered: bool, mayDelay: bool) returns (t: Turn, ghost sent: Option<Sent>)
      requires Valid() && Application(clientId, ops) && (AnyLost() ==> ReleasesState(ops))
      modifies this, rpc`interrupted, world`clock, world`trace, world`sum, world`lost, locks
      ensures Valid() && locks == old(locks) && (rpc == old(rpc) || fresh(rpc))
      ensures forall i :: 0 <= i < |locks| ==> SameLock(old(locks[i].state), locks[i].state)
      ensures OwnProgress(old(world.trace), old(world.sum), world.trace, world.sum, Listed(sent))
      ensures sent.Some? ==> IsSendOf(sent.value, old(sessionId), old(clientId), ops)
      ensures t.Delayed? ==>
                && mayDelay && sessionId == old(sessionId) && clientId == old(clientId)
                && sent.Some? && sent.value.reply.Answered?
                && recoveryPending == old(recoveryPending) && (AnyLost() ==> ReleasesState(ops))
      ensures t.Replay? ==> !recovered && CanReplay(ops) && Application(clientId, ops) && !AnyLost() && !recoveryPending
      ensures t.Replay? ==> sessionId !in old(world.sum).slots
      ensures !t.Finished? ==> LeftNoEffect(sent, ops)
      ensures t.Finished? && t.result.Success? ==>
                && sent.Some? && sent.value.reply == Answered(t.result.value)
                && sessionId == old(sessionId) && clientId == old(clientId) && recoveryPending == old(recoveryPending)
                && OpensOf(sent.value) <= world.sum.opens && LocksOf(sent.value) <= world.sum.locks
                && VouchesOf(sent.value) <= world.sum.vouched
      ensures sent.Some? && sent.value.reply.Lost? ==>
                t.Replay? || (t.Finished? && t.result.Failure? && t.result.error.IsOutcomeUnknown())
      ensures t.Finished? && t.result.Failure? ==> NoDoneAnswer(sent, ops)
      ensures t.Finished? && t.result.Success? ==>
                && (AnyLost() ==> ReleasesState(ops)) && Final(ops, t.result.value, recovered, mayDelay)
                && (RevokedLockStatus(t.result.value).Some? ==> Checked(|old(world.trace)|))
      ensures !old(rpc.interrupted) ==>
                var d := DeliveryNow(old(world.sum), old(sessionId), old(sequenceId), ops,
                                     world.script(old(world.clock)));
                Calm(ops, d.result) ==>
                  && t == Finished(d.result) && sent == d.sent
                  && After(d, old(world.trace), old(world.sum), world.trace, world.sum)
                  && rpc == old(rpc) && rpc.interrupted == d.poisons && world.clock == old(world.clock) + 1
                  && (sessionId, clientId, maxOperations, recoveryPending, lease)
                     == old((sessionId, clientId, maxOperations, recoveryPending, lease))
    {
      hide *;
      forall i | 0 <= i < |locks| ensures SameLock(locks[i].state, locks[i].state) {
        SameLockReflexive(locks[i].state);
      }
      var r;
      r, sent := SendForeground(ops);
      ghost var trace, sum := world.trace, world.sum;
      if r.Failure? {
        CalmFailure(r, ops);
        NoAnswerNothingDone(sent, ops);
        if r.error.IsTransportFailure() && !recovered {
          MarkPending();
          var recovery, replay := RecoverInCall(ops);
          ProgressGrows(old(world.trace), old(world.sum), trace, sum, Listed(sent), sessionId);
          ProgressThenQuiet(old(world.trace), old(world.sum), trace, sum, world.trace, world.sum, Listed(sent));
          UnknownStaysUnknown(r.error, recovery);
          if recovery.Failure? {
            return Finished(Failure(Cleanup(r.error, recovery.error))), sent;
          }
          if replay {
            ReplayLeavesNoEffect(sent, ops);
            return Replay, sent;
          }
        }
        return Finished(r), sent;
      }
      t := AfterAnswer(ops, r.value, recovered, mayDelay, sent.value, old(sessionId), old(clientId));
      ProgressGrows(trace, sum, world.trace, world.sum, [], sessionId);
      ProgressPrefix(old(world.trace), old(world.sum), trace, sum, Listed(sent));
      if t.Finished? && t.result.Success? && RevokedLockStatus(r.value).Some? {
        CheckedSince(|trace|, |old(world.trace)|);
      }
      if t.Finished? && t.result.Failure? {
        AnswerNothingDone(sent.value, r.value, ops);
      }
      ProgressGrows(old(world.trace), old(world.sum), trace, sum, Listed(sent), sessionId);
      ProgressThenQuiet(old(world.trace), old(world.sum), trace, sum, world.trace, world.sum, Listed(sent));
    }

    /** What an answered application compound leads to. */
    method AfterAnswer(ops: seq<Operation>, response: CompoundResponse, recovered: bool, mayDelay: bool,
                       ghost e: Sent, ghost session: nat, ghost client: nat)
      returns (t: Turn)
      requires Valid() && Application(clientId, ops) && (AnyLost() ==> ReleasesState(ops))
      requires IsSendOf(e, session, client, ops) && e.reply == Answered(response)
      modifies this, rpc`interrupted, world`clock, world`trace, world`sum, world`lost, locks
      ensures Valid() && locks == old(locks) && (rpc == old(rpc) || fresh(rpc))
      ensures forall i :: 0 <= i < |locks| ==> SameLock(old(locks[i].state), locks[i].state)
      ensures OwnProgress(old(world.trace), old(world.sum), world.trace, world.sum, [])
      ensures t.Delayed? || (t.Finished? && t.result.Success?) ==>
                && sessionId == old(sessionId) && clientId == old(clientId) && recoveryPending == old(recoveryPending)
                && (AnyLost() ==> ReleasesState(ops))
      ensures t.Delayed? ==> mayDelay
      ensures t.Replay? ==> !recovered && CanReplay(ops) && Application(clientId, ops) && !AnyLost() && !recoveryPending
      ensures t.Replay? ==> sessionId !in old(world.sum).slots
      ensures !t.Finished? ==> LeftNoEffect(Some(e), ops)
      ensures t.Finished? && t.result.Success? ==>
                t.result.value == response && Final(ops, response, recovered, mayDelay)
      ensures RequiresRecovery(response) && !recovered && RevokedLockStatus(response).None? ==>
                recoveryPending || sessionId !in old(world.sum).slots
      ensures t.Finished? && t.result.Failure? && RevokedLockStatus(response).None? ==> LeftNoEffect(Some(e), ops)
      ensures Calm(ops, Success(response)) ==>
                && t == Finished(Success(response))
                && (world.trace, world.sum, world.clock) == old((world.trace, world.sum, world.clock))
                && (rpc, rpc.interrupted) == old((rpc, rpc.interrupted))
                && (sessionId, clientId, maxOperations, recoveryPending, lease)
                   == old((sessionId, clientId, maxOperations, recoveryPending, lease))
      ensures RevokedLockStatus(response).Some? && t.Finished? && t.result.Success? ==> Checked(|old(world.trace)|)
    {
      hide TestedSince;
      hide Run, Fold, Foregrounds, Steps, SameLock, SessionOk, RegistryOk, Recovered, Application, CanReplay;
      FinalMeans(ops, response, recovered, mayDelay);
      hide Final, ReleasesState, IsSendOf, OwnProgress, RequiresRecovery, AllowsDelayedRetry, LeftNoEffect;
      hide OpensOf, LocksOf, VouchesOf;
      StepsReflexive(world.trace, world.sum, sessionId);
      forall i | 0 <= i < |locks| ensures SameLock(locks[i].state, locks[i].state) {
        SameLockReflexive(locks[i].state);
      }
      if RevokedLockStatus(response).Some? {
        var checked := CheckRevokedLocks();
        StepsAreProgress(old(world.trace), old(world.sum), world.trace, world.sum, sessionId);
        if checked.Failure? {
          return Finished(Failure(checked.error));
        }
        if !ReleasesState(ops) {
          var valid := EnsureValid();
          if valid.Failure? {
            return Finished(Failure(valid.error));
          }
        }
      }
      StepsAreProgress(old(world.trace), old(world.sum), world.trace, world.sum, sessionId);
      if RequiresRecovery(response) && !recovered {
        SessionErrorLeavesNoEffect(e, session, client, ops);
        ghost var trace, sum := world.trace, world.sum;
        label answered:
        var recovery, replay := RecoverInCall(ops);
        ProgressGrows(old(world.trace), old(world.sum), trace, sum, [], sessionId);
        ProgressThenQuiet(old(world.trace), old(world.sum), trace, sum, world.trace, world.sum, []);
        forall i | 0 <= i < |locks| ensures SameLock(old(locks[i].state), locks[i].state) {
          SameLockTransitive(old(locks[i].state), old@answered(locks[i].state), locks[i].state);
        }
        if recovery.Failure? {
          return Finished(Failure(recovery.error));
        }
        if !replay {
          return Finished(Failure(SessionRecoveryError(response)));
        }
        return Replay;
      }
      if AllowsDelayedRetry(ops, response, 1) && mayDelay {
        DelayLeavesNoEffect(e, session, client, ops);
        return Delayed;
      }
      return Finished(Success(response));
    }

    /** Sends an application compound, waiting out DELAY and GRACE and recovering the session at
        most once. `mine` is what went on the wire for it, `stale` whether a recovery was due
        before anything could be sent. */
    method CompoundStatus(ops: seq<Operation>)
      returns (r: Result<CompoundResponse>, ghost mine: seq<Sent>, ghost stale: bool)
      requires Valid() && Application(clientId, ops)
      modifies this, rpc`interrupted, world`clock, world`trace, world`sum, world`lost, locks
      ensures Valid() && locks == old(locks) && (rpc == old(rpc) || fresh(rpc))
      ensures forall i :: 0 <= i < |locks| ==> SameLock(old(locks[i].state), locks[i].state)
      ensures OwnProgress(old(world.trace), old(world.sum), world.trace, world.sum, mine)
      // bounded sending, at most one sending with an effect
      ensures |mine| <= builder.maxRetries + 2 && OnlyLastTakesEffect(mine, ops) && EachAtMostOnce(mine, ops)
      // a compound that may not be replayed stays on the session it was built for
      ensures CallLog(mine, ops, old(sessionId), old(clientId), old(world.sum))
      // an error after an answer means that nothing was done, or that the answer announced revocation
      ensures r.Failure? ==> NothingDone(mine, ops)
      // if that one's reply is lost, the caller is told that its outcome is unknown
      ensures EndsLost(mine) && !CanReplay(ops) ==> r.Failure? && r.error.IsOutcomeUnknown()
      ensures r.Success? ==> EndsAnswered(mine, r.value, sessionId, clientId, world.sum) && !recoveryPending
      ensures r.Success? && !CanReplay(ops) ==> sessionId == old(sessionId) && clientId == old(clientId)
      // an answer is handed over only when it asks for nothing more: no recovery on that session, no
      // retry within the policy, no look at the tracked locks
      ensures r.Success? && RequiresRecovery(r.value) ==> CanReplay(ops) && sessionId !in old(world.sum).slots
      ensures r.Success? && AllowsDelayedRetry(ops, r.value, 1) ==> |mine| > builder.maxRetries
      ensures r.Success? && RevokedLockStatus(r.value).Some? ==> Checked(|old(world.trace)|)
      // with a recovery due, nothing leaves before it succeeded, and only what may be replayed
      ensures old(recoveryPending) ==> stale
      ensures old(lease).Some? && world.leaseFailures(old(world.clock)) && mine != [] ==> stale
      ensures stale ==> forall e :: e in mine ==> OffSessions(e, old(world.sum))
      ensures stale && !CanReplay(ops) ==> mine == [] && r.Failure?
      // a lost lock stops everything but state release, also when its loss is found meanwhile
      ensures old(AnyLost()) && !ReleasesState(ops) ==> mine == [] && r.Failure?
      ensures r.Success? && !ReleasesState(ops) ==> !AnyLost()
      // and a client in good order hands a plain outcome to its caller, after one exchange
      ensures !old(rpc.interrupted || recoveryPending || (lease.Some? && world.leaseFailures(world.clock)))
              && |ops| + 1 <= old(maxOperations) && (old(AnyLost()) ==> ReleasesState(ops)) ==>
                var d := DeliveryNow(old(world.sum), old(sessionId), old(sequenceId), ops,
                                     world.script(old(world.clock) + if old(lease).Some? then 1 else 0));
                Calm(ops, d.result) ==>
                  && r == d.result && mine == Listed(d.sent)
                  && After(d, old(world.trace), old(world.sum), world.trace, world.sum)
                  && rpc == old(rpc) && rpc.interrupted == d.poisons
                  && world.clock == old(world.clock) + 1 + (if old(lease).Some? then 1 else 0)
                  && (sessionId, clientId, maxOperations, lease) == old((sessionId, clientId, maxOperations, lease))
                  && !recoveryPending
    {
      hide *;
      r, mine, stale := Failure(Protocol), [], recoveryPending;
      CallLogEmpty(ops, sessionId, clientId, world.sum);
      OnlyLastMeansOnce([], ops);
      NoAnswerNothingDone(None, ops);
      LogGrows([], None);
      ProgressReflexive(world.trace, world.sum);
      forall i | 0 <= i < |locks| ensures SameLock(locks[i].state, locks[i].state) {
        SameLockReflexive(locks[i].state);
      }
      if |ops| + 1 > maxOperations {
        return;
      }
      var ready;
      ready, stale := PrepareToSend(ops);
      if ready.Failure? {
        return Failure(ready.error), [], stale;
      }
      ghost var trace, sum := world.trace, world.sum;
      ProgressGrows(old(world.trace), old(world.sum), trace, sum, [], 0);
      LossPersists();
      label sending:
      r, mine := SendUntilDone(ops);
      OnlyLastMeansOnce(mine, ops);
      ProgressPrefix(old(world.trace), old(world.sum), trace, sum, []);
      if r.Success? && RevokedLockStatus(r.value).Some? {
        CheckedSince(|trace|, |old(world.trace)|);
      }
      CallLogAfterRecovery(mine, ops, old@sending(sessionId), old@sending(clientId), sum, old(sessionId), old(clientId),
                           old(world.sum), stale);
      forall i | 0 <= i < |locks| ensures SameLock(old(locks[i].state), locks[i].state) {
        SameLockTransitive(old(locks[i].state), old@sending(locks[i].state), locks[i].state);
      }
      ProgressCompose(old(world.trace), old(world.sum), trace, sum, world.trace, world.sum, [], mine);
      assert [] + mine == mine;
    }

    /** A loss is never taken back. */
    twostate lemma LossPersists()
      requires locks == old(locks) && forall i :: 0 <= i < |locks| ==> SameLock(old(locks[i].state), locks[i].state)
      ensures old(AnyLost()) ==> AnyLost()
    {
      if old(AnyLost()) {
        var i :| 0 <= i < |locks| && old(locks[i].state).lost.Some?;
        assert locks[i].state.lost.Some?;
      }
    }

    /** Recovers first when that is due, then refuses everything but state release while a tracked
        lock is lost. */
    method PrepareToSend(ops: seq<Operation>) returns (r: Result<()>, ghost stale: bool)
      requires Valid() && Application(clientId, ops)
      modifies this, rpc`interrupted, world`clock, world`trace, world`sum, world`lost, locks
      ensures Valid() && locks == old(locks) && (rpc == old(rpc) || fresh(rpc))
      ensures forall i :: 0 <= i < |locks| ==> SameLock(old(locks[i].state), locks[i].state)
      ensures OwnProgress(old(world.trace), old(world.sum), world.trace, world.sum, [])
      ensures old(recoveryPending) || (old(lease).Some? && world.leaseFailures(old(world.clock))) ==> stale
      ensures r.Success? ==> Application(clientId, ops) && !recoveryPending && (AnyLost() ==> ReleasesState(ops))
      ensures r.Success? ==> if stale then CanReplay(ops) && sessionId !in old(world.sum).slots
                             else sessionId == old(sessionId) && clientId == old(clientId)
      ensures !old(recoveryPending) && !(old(lease).Some? && world.leaseFailures(old(world.clock))) ==>
                && !stale && (r.Success? <==> ReleasesState(ops) || !AnyLost()) && old(AnyLost()) == AnyLost()
                && rpc == old(rpc) && rpc.interrupted == old(rpc.interrupted) && sequenceId == old(sequenceId)
                && world.trace == old(world.trace) && (maxOperations, lease) == old((maxOperations, lease))
                && sessionId == old(sessionId) && clientId == old(clientId)
                && world.sum == old(world.sum) && world.clock == old(world.clock) + (if old(lease).Some? then 1 else 0)
    {
      hide *;
      ProgressReflexive(world.trace, world.sum);
      forall i | 0 <= i < |locks| ensures SameLock(locks[i].state, locks[i].state) {
        SameLockReflexive(locks[i].state);
      }
      if lease.Some? {
        var failed := world.PollLease();
        if failed {
          MarkPending();
        }
      }
      stale := recoveryPending;
      if recoveryPending {
        var recovery, replay := RecoverInCall(ops);
        if recovery.Failure? {
          return Failure(recovery.error), stale;
        }
        if !replay {
          return Failure(NfsV4(OP_SEQUENCE, BadSession)), stale;
        }
      }
      r := Success(());
      if !ReleasesState(ops) {
        r := EnsureValid();
      }
    }

    /** The sending loop. */
    method SendUntilDone(ops: seq<Operation>) returns (r: Result<CompoundResponse>, ghost mine: seq<Sent>)
      requires Valid() && Application(clientId, ops) && !recoveryPending && (AnyLost() ==> ReleasesState(ops))
      modifies this, rpc`interrupted, world`clock, world`trace, world`sum, world`lost, locks
      ensures Valid() && locks == old(locks) && (rpc == old(rpc) || fresh(rpc))
      ensures forall i :: 0 <= i < |locks| ==> SameLock(old(locks[i].state), locks[i].state)
      ensures OwnProgress(old(world.trace), old(world.sum), world.trace, world.sum, mine)
      ensures |mine| <= builder.maxRetries + 2 && OnlyLastTakesEffect(mine, ops)
      ensures CallLog(mine, ops, old(sessionId), old(clientId), old(world.sum))
      ensures EndsLost(mine) && !CanReplay(ops) ==> r.Failure? && r.error.IsOutcomeUnknown()
      ensures r.Success? ==> EndsAnswered(mine, r.value, sessionId, clientId, world.sum) && !recoveryPending
      ensures r.Success? && !CanReplay(ops) ==> sessionId == old(sessionId) && clientId == old(clientId)
      ensures r.Failure? ==> NothingDone(mine, ops)
      ensures r.Success? ==> (AnyLost() ==> ReleasesState(ops))
      ensures r.Success? && RequiresRecovery(r.value) ==> CanReplay(ops) && sessionId !in old(world.sum).slots
      ensures r.Success? && AllowsDelayedRetry(ops, r.value, 1) ==> |mine| > builder.maxRetries
      ensures r.Success? && RevokedLockStatus(r.value).Some? ==> Checked(|old(world.trace)|)
      ensures !old(rpc.interrupted) ==>
                var d := DeliveryNow(old(world.sum), old(sessionId), old(sequenceId), ops,
                                     world.script(old(world.clock)));
                Calm(ops, d.result) ==>
                  && r == d.result && mine == Listed(d.sent)
                  && After(d, old(world.trace), old(world.sum), world.trace, world.sum)
                  && rpc == old(rpc) && rpc.interrupted == d.poisons && world.clock == old(world.clock) + 1
                  && (sessionId, clientId, maxOperations, lease) == old((sessionId, clientId, maxOperations, lease))
                  && !recoveryPending
    {
      hide *;
      mine := [];
      CallLogEmpty(ops, sessionId, clientId, world.sum);
      LogGrows([], None);
      ProgressReflexive(world.trace, world.sum);
      forall i | 0 <= i < |locks| ensures SameLock(locks[i].state, locks[i].state) {
        SameLockReflexive(locks[i].state);
      }
      var retry, recovered := 0, false;
      ghost var d := DeliveryNow(world.sum, sessionId, sequenceId, ops, world.script(world.clock));
      ghost var calm := !rpc.interrupted && Calm(ops, d.result);
      while true
        invariant Valid() && locks == old(locks) && (rpc == old(rpc) || fresh(rpc))
        invariant calm ==>
                  retry == 0 && !recovered && mine == []
                  && (rpc, maxOperations, lease) == old((rpc, maxOperations, lease))
        invariant calm ==> (world.trace, world.sum, world.clock, sequenceId, rpc.interrupted)
                           == old((world.trace, world.sum, world.clock, sequenceId, rpc.interrupted))
        invariant Application(clientId, ops) && !recoveryPending && (AnyLost() ==> ReleasesState(ops))
        invariant forall i :: 0 <= i < |locks| ==> SameLock(old(locks[i].state), locks[i].state)
        invariant OwnProgress(old(world.trace), old(world.sum), world.trace, world.sum, mine)
        invariant retry <= builder.maxRetries && retry <= |mine| <= retry + (if recovered then 1 else 0)
        invariant CallLog(mine, ops, old(sessionId), old(clientId), old(world.sum)) && Quiet(mine, ops)
        invariant recovered ==> CanReplay(ops) && sessionId !in old(world.sum).slots
        invariant EndsLost(mine) ==> recovered
        invariant !recovered ==> sessionId == old(sessionId) && clientId == old(clientId)
        decreases builder.maxRetries - retry, !recovered
      {
        ghost var trace, sum, before := world.trace, world.sum, mine;
        label turn:
        var t;
        ghost var sent;
        t, sent := OneTurn(ops, recovered, MayRetry(retry));
        mine := before + Listed(sent);
        assert before == [] ==> mine == Listed(sent);
        CallLogExtends(before, ops, old(sessionId), old(clientId), old(world.sum), sent, old@turn(sessionId),
                       old@turn(clientId));
        QuietExtends(before, ops, sent);
        LogGrows(before, sent);
        if t.Finished? && t.result.Failure? {
          NothingDoneExtends(before, ops, sent);
        }
        if t.Finished? && t.result.Success? {
          FinalMeans(ops, t.result.value, recovered, MayRetry(retry));
          ProgressPrefix(old(world.trace), old(world.sum), trace, sum, before);
          if RevokedLockStatus(t.result.value).Some? {
            CheckedSince(|trace|, |old(world.trace)|);
          }
          LogEndsAnswered(before, sent, sessionId, clientId, ops, t.result.value, world.sum);
        }
        ProgressGrows(old(world.trace), old(world.sum), trace, sum, before, sessionId);
        ProgressCompose(old(world.trace), old(world.sum), trace, sum, world.trace, world.sum, before, Listed(sent));
        forall i | 0 <= i < |locks| ensures SameLock(old(locks[i].state), locks[i].state) {
          SameLockTransitive(old(locks[i].state), old@turn(locks[i].state), locks[i].state);
        }
        match t {
          case Finished(result) =>
            return result, mine;
          case Delayed =>
            retry := retry + 1;
          case Replay =>
            recovered := true;
        }
      }
    }

    ghost function Now(): (r: Moment)
      reads `locks, locks, world`trace, world`sum
      ensures r.trace == world.trace && r.sum == world.sum && |r.locks| == |locks|
      ensures forall i :: 0 <= i < |locks| ==> r.locks[i] == locks[i].state
    {
      Moment(world.trace, world.sum, StatesOf(locks))
    }

    static ghost function StatesOf(cells: seq<LockCell>): (r: seq<LockState>)
      reads cells
      ensures |r| == |cells|
      ensures forall i :: 0 <= i < |cells| ==> r[i] == cells[i].state
    {
      if cells == [] then [] else StatesOf(cells[..|cells| - 1]) + [cells[|cells| - 1].state]
    }

    /** One application request of an operation that began at `start`. */
    method Exchange(ops: seq<Operation>, ghost start: Moment) returns (r: Result<CompoundResponse>)
      requires Valid() && Application(clientId, ops) && Carried(start, Now())
      modifies this, rpc`interrupted, world`clock, world`trace, world`sum, world`lost, locks
      ensures Valid() && locks == old(locks) && (rpc == old(rpc) || fresh(rpc))
      ensures Carried(start, Now()) && Carried(old(Now()), Now())
      ensures r.Success? ==> !recoveryPending && exists e :: Granting(e, sessionId, clientId, ops, r.value, world.sum)
      ensures r.Success? ==> Asked(world.trace, |old(world.trace)|, ops, r.value) && |start.trace| <= |old(world.trace)|
      ensures r.Success? && !CanReplay(ops) ==> sessionId == old(sessionId) && clientId == old(clientId)
    {
      hide Run, Fold, Foregrounds, SameLock, SessionOk, RegistryOk, Recovered, Application, CanReplay, Grew;
      hide OpensOf, LocksOf, VouchesOf, OnlyLastTakesEffect;
      ghost var mine, stale;
      r, mine, stale := CompoundStatus(ops);
      CarriedCompose(start, old(Now()), Now());
      if r.Success? {
        assert mine[|mine| - 1] in mine;
        assert Granting(mine[|mine| - 1], sessionId, clientId, ops, r.value, world.sum);
        MineIsAsked(old(world.trace), old(world.sum), world.trace, world.sum, mine, ops, r.value, old(sessionId),
                    old(clientId), old(world.sum));
      }
    }

    /** A requested recovery within an operation that began at `start`. */
    method Reconnected(ghost start: Moment) returns (r: Result<()>)
      requires Valid() && Carried(start, Now())
      modifies this, rpc`interrupted, world`clock, world`trace, world`sum, world`lost, locks
      ensures Valid() && locks == old(locks) && (rpc == old(rpc) || fresh(rpc))
      ensures Carried(start, Now())
      ensures r.Success? ==> !recoveryPending
    {
      hide Run, Fold, Foregrounds, SameLock, SessionOk, RegistryOk, Recovered;
      r := RecoverSession();
      CarriedCompose(start, old(Now()), Now());
    }

    /** Closes the open file whose handle the prefix selects. */
    method CloseFile(prefix: seq<Operation>, stateid: StateId, ghost start: Moment) returns (r: Result<()>)
      requires Valid() && Carried(start, Now())
      requires forall op :: op in prefix ==> Plain(op) && op != ReclaimComplete
      modifies this, rpc`interrupted, world`clock, world`trace, world`sum, world`lost, locks
      ensures Valid() && locks == old(locks) && (rpc == old(rpc) || fresh(rpc))
      ensures Carried(start, Now())
      ensures r.Success? ==> Closed(world.trace, |start.trace|, prefix, stateid)
    {
      hide *;
      var retry, recovered := 0, false;
      while true
        invariant Valid() && locks == old(locks) && (rpc == old(rpc) || fresh(rpc))
        invariant Carried(start, Now())
        decreases builder.maxRetries - retry, !recovered
      {
        CloseIsApplication(clientId, prefix, openSeqid, stateid);
        ghost var from := |world.trace|;
        var seqid := openSeqid;
        var answered := Exchange(prefix + [Close(seqid, stateid)], start);
        if answered.Failure? {
          if answered.error.IsSessionRecoverable() && !recovered {
            recovered := true;
            continue;
          }
          return Failure(answered.error);
        }
        AskedIsClosed(world.trace, from, |start.trace|, prefix, seqid, stateid, answered.value);
        if ConsumedOwnerSeqid(answered.value, OP_CLOSE) {
          AdvanceOpenSeqid();
        }
        if HasDelayedStatus(answered.value, OP_CLOSE) && MayRetry(retry) {
          retry := retry + 1;
          continue;
        }
        if OperationRequiresRecovery(answered.value, OP_CLOSE) && !recovered {
          var recovery := Reconnected(start);
          return if recovery.Failure? then recovery
                 else if EnsureOk(answered.value).Failure? then EnsureOk(answered.value) else Failure(Protocol);
        }
        return EnsureOk(answered.value);
      }
    }

    /** OPENs a file, starting over after a session recovery, and returns its handle and open stateid. */
    method OpenFile(depth: nat, openOwner: nat, ghost start: Moment) returns (r: Result<(nat, StateId)>)
      requires Valid() && Carried(start, Now())
      modifies this, rpc`interrupted, world`clock, world`trace, world`sum, world`lost, locks
      ensures Valid() && locks == old(locks) && (rpc == old(rpc) || fresh(rpc))
      ensures Carried(start, Now())
      ensures r.Success? ==> !recoveryPending && OpenGrant(clientId, openOwner, r.value.1) in world.sum.opens
    {
      hide *;
      var retry, recovered := 0, false;
      while true
        invariant Valid() && locks == old(locks) && (rpc == old(rpc) || fresh(rpc))
        invariant Carried(start, Now())
        decreases builder.maxRetries - retry, !recovered
      {
        OpenIsApplication(clientId, depth, openOwner);
        var answered := Exchange(OpenCompound(clientId, depth, openOwner), start);
        if answered.Failure? {
          if answered.error.IsSessionRecoverable() && !recovered {
            recovered := true;
            continue;
          }
          return Failure(answered.error);
        }
        var response := answered.value;
        ghost var e :| Granting(e, sessionId, clientId, OpenCompound(clientId, depth, openOwner), response, world.sum);
        if ConsumedOwnerSeqid(response, OP_OPEN) {
          AdvanceOpenSeqid();
        }
        if HasDelayedStatus(response, OP_OPEN) && MayRetry(retry) {
          retry := retry + 1;
          continue;
        }
        if OperationRequiresRecovery(response, OP_OPEN) && !recovered {
          var recovery := Reconnected(start);
          if recovery.Failure? {
            return Failure(recovery.error);
          }
          recovered := true;
          continue;
        }
        if ResponseOpen(response).Success? {
          OpenCompoundIsGranted(e, sessionId, clientId, depth, openOwner, response, world.sum);
        }
        r := FinishOpen(depth, openOwner, response, start);
        return;
      }
    }

    /** What follows an answered OPEN: every failure from here on closes the file again, and a
        delegation that was not asked for is returned. */
    method FinishOpen(depth: nat, ghost openOwner: nat, response: CompoundResponse, ghost start: Moment)
      returns (r: Result<(nat, StateId)>)
      requires Valid() && Carried(start, Now()) && !recoveryPending
      requires ResponseOpen(response).Success? ==>
                 OpenGrant(clientId, openOwner, ResponseOpen(response).value.stateid) in world.sum.opens
      modifies this, rpc`interrupted, world`clock, world`trace, world`sum, world`lost, locks
      ensures Valid() && locks == old(locks) && (rpc == old(rpc) || fresh(rpc))
      ensures Carried(start, Now())
      ensures r.Success? ==> !recoveryPending && OpenGrant(clientId, openOwner, r.value.1) in world.sum.opens
      ensures r.Failure? && ResponseOpen(response).Success? && !r.error.Cleanup? ==>
                ClosedAgain(world.trace, |start.trace|, depth, ResponseOpen(response).value.stateid)
      ensures r.Success? && ResponseOpen(response).Success? && ResponseOpen(response).value.delegation.Some? ==>
                Returned(world.trace, |start.trace|, r.value.0, ResponseOpen(response).value.delegation.value)
    {
      hide *;
      var checked, opening, handle := EnsureOk(response), ResponseOpen(response), ResponseHandle(response);
      if checked.Failure? {
        if opening.Failure? {
          return Failure(checked.error);
        }
        var closed := CloseFile(PathTo(depth + 1), opening.value.stateid, start);
        IsClosedAgain(world.trace, |start.trace|, depth, 0, opening.value.stateid, checked.error, closed);
        return Failure(CleanupError(checked.error, closed));
      }
      if opening.Failure? {
        return Failure(opening.error);
      }
      if handle.Failure? {
        var closed := CloseFile(PathTo(depth + 1), opening.value.stateid, start);
        IsClosedAgain(world.trace, |start.trace|, depth, 0, opening.value.stateid, handle.error, closed);
        return Failure(CleanupError(handle.error, closed));
      }
      var kept := KeepOpen(handle.value, opening.value, start);
      if kept.Failure? {
        HandleIsPlain(handle.value);
        var closed := CloseFile([PutFh(handle.value)], opening.value.stateid, start);
        IsClosedAgain(world.trace, |start.trace|, depth, handle.value, opening.value.stateid, kept.error, closed);
        return Failure(CleanupError(kept.error, closed));
      }
      return Success((handle.value, opening.value.stateid));
    }

    /** Refuses an OPEN that wants confirmation and returns an unwanted delegation. */
    method KeepOpen(handle: nat, open: Value, ghost start: Moment) returns (r: Result<()>)
      requires Valid() && Carried(start, Now()) && !recoveryPending && open.OpenValue?
      modifies this, rpc`interrupted, world`clock, world`trace, world`sum, world`lost, locks
      ensures Valid() && locks == old(locks) && (rpc == old(rpc) || fresh(rpc))
      ensures Carried(start, Now()) && old(world.sum).opens <= world.sum.opens
      ensures r.Success? ==> !recoveryPending && clientId == old(clientId)
      ensures r.Success? ==> !open.confirm
      ensures r.Success? && open.delegation.Some? ==>
                Returned(world.trace, |start.trace|, handle, open.delegation.value)
    {
      hide *;
      var delegation := ValidateOpenResult(open);
      if delegation.Failure? {
        return Failure(delegation.error);
      }
      if delegation.value.None? {
        return Success(());
      }
      var op := DelegReturn(delegation.value.value);
      OnHandleIsApplication(clientId, handle, op);
      var answered := Exchange([PutFh(handle), op], start);
      CarriedGrows(old(Now()), Now());
      if answered.Failure? {
        return Failure(answered.error);
      }
      AskedIsReturned(world.trace, |old(world.trace)|, |start.trace|, handle, delegation.value.value, answered.value);
      return EnsureOk(answered.value);
    }

    /** LOCKs a range of an open file for a new lock owner; the delayed LOCK itself is repeated
        with advanced seqids. */
    method LockOpened(file: (nat, StateId), lockType: LockType, offset: nat, length: nat, owner: nat,
                      ghost start: Moment)
      returns (r: Result<(StateId, nat)>)
      requires Valid() && Carried(start, Now())
      modifies this, rpc`interrupted, world`clock, world`trace, world`sum, world`lost, locks
      ensures Valid() && locks == old(locks) && (rpc == old(rpc) || fresh(rpc))
      ensures Carried(start, Now()) && old(world.sum).opens <= world.sum.opens
      ensures r.Success? ==>
                && !recoveryPending && clientId == old(clientId)
                && LockGrant(clientId, file.0, owner, lockType, offset, length, r.value.0) in world.sum.locks
                && Vouch(sessionId, file.1, r.value.0) in world.sum.vouched
    {
      hide *;
      CarriedReflexive(Now());
      var retry, lockSeqid := 0, 1;
      while true
        invariant Valid() && locks == old(locks) && (rpc == old(rpc) || fresh(rpc))
        invariant Carried(start, Now()) && Carried(old(Now()), Now()) && clientId == old(clientId)
        decreases builder.maxRetries - retry
      {
        var op := Lock(clientId, owner, false, lockType, offset, length, file.1);
        OnHandleIsApplication(clientId, file.0, op);
        label sending:
        var answered := Exchange([PutFh(file.0), op], start);
        CarriedCompose(old(Now()), old@sending(Now()), Now());
        CarriedGrows(old(Now()), Now());
        if answered.Failure? {
          return Failure(answered.error);
        }
        var response := answered.value;
        ghost var e :| Granting(e, sessionId, clientId, [PutFh(file.0), op], response, world.sum);
        if ConsumedOwnerSeqid(response, OP_LOCK) {
          AdvanceOpenSeqid();
          lockSeqid := if lockSeqid + 1 < WRAP then lockSeqid + 1 else 1;
        }
        if HasDelayedStatus(response, OP_LOCK) && MayRetry(retry) {
          retry := retry + 1;
          continue;
        }
        var granted := ResponseStateId(response, OP_LOCK);
        if granted.Failure? {
          return Failure(granted.error);
        }
        LockCompoundIsGranted(e, sessionId, clientId, file.0, op, response, world.sum);
        return Success((granted.value, lockSeqid));
      }
    }

    /** LOCKs a range of an open file, and closes the file again when that fails. */
    method LockOrClose(file: (nat, StateId), lockType: LockType, offset: nat, length: nat, owner: nat,
                       ghost start: Moment)
      returns (r: Result<(StateId, nat)>)
      requires Valid() && Carried(start, Now())
      modifies this, rpc`interrupted, world`clock, world`trace, world`sum, world`lost, locks
      ensures Valid() && locks == old(locks) && (rpc == old(rpc) || fresh(rpc))
      ensures Carried(start, Now())
      ensures r.Success? ==>
                && !recoveryPending && clientId == old(clientId) && old(world.sum).opens <= world.sum.opens
                && LockGrant(clientId, file.0, owner, lockType, offset, length, r.value.0) in world.sum.locks
                && Vouch(sessionId, file.1, r.value.0) in world.sum.vouched
      ensures r.Failure? && !r.error.Cleanup? ==> Closed(world.trace, |start.trace|, [PutFh(file.0)], file.1)
    {
      hide *;
      r := LockOpened(file, lockType, offset, length, owner, start);
      if r.Failure? {
        HandleIsPlain(file.0);
        var closed := CloseFile([PutFh(file.0)], file.1, start);
        CleanupIsNamed(r.error, closed);
        return Failure(CleanupError(r.error, closed));
      }
    }

    /** A fresh open owner. */
    method TakeOwner() returns (owner: nat)
      requires Valid()
      modifies world`nextOwner
      ensures Valid() && owner < world.nextOwner && Unused(owner, Now())
    {
      hide Run, Fold, SessionOk;
      owner := world.FreshOwner();
    }

    twostate lemma RegistryWith(new cell: LockCell)
      requires old(RegistryOk()) && old(Recovered()) && locks == old(locks) + [cell] && cell !in old(locks)
      requires forall i :: 0 <= i < |old(locks)| ==> old(locks)[i].state == old(locks[i].state)
      requires world.sum == old(world.sum) && world.nextOwner == old(world.nextOwner) && world.lost == old(world.lost)
      requires cell.state.lost.None? && clientId == old(clientId) && sessionId == old(sessionId)
      requires LockOk(world.sum, cell.state) && Confirmed(world.sum, clientId, sessionId, cell.state)
      requires cell.state.openOwner < world.nextOwner && cell.state.openOwner !in world.sum.released
      requires forall i :: 0 <= i < |old(locks)| ==> old(locks)[i].state.openOwner != cell.state.openOwner
      ensures RegistryOk() && Recovered()
    {
      hide LockOk, Confirmed, Run, Fold;
      forall owner | owner in world.lost ensures owner in world.sum.released || KnownLost(owner) {
        if old(KnownLost(owner)) {
          var i :| 0 <= i < |old(locks)| && old(locks[i].state).openOwner == owner && old(locks[i].state).lost.Some?;
          assert locks[i] == old(locks)[i];
        }
      }
    }

    /** Enters a lock the server granted on the current session into the registry. */
    method Register(lock: LockState) returns (cell: LockCell)
      requires Valid() && !recoveryPending && lock.lost.None? && lock.clientId == clientId
      requires Held(world.sum, lock) && Vouch(sessionId, lock.openStateid, lock.lockStateid) in world.sum.vouched
      requires lock.openOwner < world.nextOwner && Unused(lock.openOwner, Now())
      modifies `locks
      ensures Valid() && fresh(cell) && cell.state == lock && locks == old(locks) + [cell]
    {
      hide Run, Fold, SessionOk, RegistryOk;
      GrantedIsOk(lock);
      cell := new LockCell(lock);
      locks := locks + [cell];
      RegistryWith(cell);
      hide Recovered;
    }

    lemma GrantedIsOk(lock: LockState)
      requires Valid() && !recoveryPending && lock.clientId == clientId && lock.lost.None? && Held(world.sum, lock)
      requires Vouch(sessionId, lock.openStateid, lock.lockStateid) in world.sum.vouched
      ensures LockOk(world.sum, lock) && Confirmed(world.sum, clientId, sessionId, lock)
    {
      hide Run, Fold, RegistryOk;
      CompletedIsCompleting(world.trace, sessionId);
    }

    /** Opens a file and locks a range of it. The token stands for exactly the range asked for,
        held by this client under a fresh open owner; a failure leaves the registry alone. */
    method LockWithOwner(depth: nat, lockType: LockType, offset: nat, length: nat, owner: nat)
      returns (r: Result<LockCell>)
      requires Valid()
      modifies this, rpc`interrupted, world`clock, world`trace, world`sum, world`lost, world`nextOwner, locks
      ensures Valid() && (rpc == old(rpc) || fresh(rpc))
      ensures r.Failure? ==> locks == old(locks)
      ensures r.Success? ==>
                && fresh(r.value) && locks == old(locks) + [r.value]
                && var lock := r.value.state;
                && (lock.lockType, lock.offset, lock.length, lock.owner) == (lockType, offset, length, owner)
                && lock.lost.None? && lock.clientId == clientId && Held(world.sum, lock)
      ensures forall i :: 0 <= i < |old(locks)| ==> SameLock(old(locks[i].state), old(locks)[i].state)
      ensures world.sum.released == old(world.sum).released
    {
      hide *;
      var openOwner := TakeOwner();
      ghost var start := Now();
      CarriedReflexive(start);
      var opening := OpenFile(depth, openOwner, start);
      CarriedKeeps(start, Now());
      if opening.Failure? {
        return Failure(opening.error);
      }
      var file := opening.value;
      var locking := LockOrClose(file, lockType, offset, length, owner, start);
      CarriedKeeps(start, Now());
      if locking.Failure? {
        return Failure(locking.error);
      }
      UnusedStays(openOwner, start, Now());
      var lock := LockState(clientId, openOwner, file.0, file.1, locking.value.0, locking.value.1, lockType, offset,
                            length, owner, None);
      GrantIs(lock);
      HeldBy(world.sum, lock);
      var cell := Register(lock);
      return Success(cell);
    }

    twostate lemma LossesWithout(cell: LockCell)
      requires old(LossesMarked()) && cell in old(locks) && locks == Without(old(locks), cell)
      requires forall i :: 0 <= i < |old(locks)| ==> old(locks)[i].state == old(locks[i].state)
      requires world.sum.released == old(world.sum).released + {cell.state.openOwner} && world.lost == old(world.lost)
      ensures LossesMarked()
    {
      hide Without;
      forall i | 0 <= i < |locks| && locks[i].state.lost.Some? ensures locks[i].state.openOwner in world.lost {
        var k :| 0 <= k < |old(locks)| && old(locks)[k] == locks[i];
      }
      forall owner | owner in world.lost ensures owner in world.sum.released || KnownLost(owner) {
        if old(KnownLost(owner)) {
          var k :| 0 <= k < |old(locks)| && old(locks[k].state).openOwner == owner && old(locks[k].state).lost.Some?;
          if old(locks)[k] != cell {
            var i :| 0 <= i < |locks| && locks[i] == old(locks)[k];
          }
        }
      }
    }

    /** A registry without one token, which is released, is as good as it was. */
    twostate lemma RegistryWithout(cell: LockCell)
      requires old(RegistryOk()) && cell in old(locks) && locks == Without(old(locks), cell)
      requires forall i :: 0 <= i < |old(locks)| ==> old(locks)[i].state == old(locks[i].state)
      requires world.sum == old(world.sum).(released := old(world.sum).released + {cell.state.openOwner})
      requires world.nextOwner == old(world.nextOwner) && world.lost == old(world.lost)
      requires clientId == old(clientId) && sessionId == old(sessionId)
      ensures RegistryOk()
      ensures old(Recovered()) ==> Recovered()
      ensures cell.state.openOwner < world.nextOwner
    {
      hide LockOk, Confirmed, Without, Run, Fold, LossesMarked;
      WithoutStaysDistinct(old(locks), cell);
      forall i | 0 <= i < |locks|
        ensures locks[i].state.openOwner < world.nextOwner && locks[i].state.openOwner !in world.sum.released
        ensures LockOk(old(world.sum), locks[i].state)
        ensures old(Recovered()) ==> Confirmed(old(world.sum), clientId, sessionId, locks[i].state)
      {
        var k :| 0 <= k < |old(locks)| && old(locks)[k] == locks[i];
      }
      forall i, j | 0 <= i < j < |locks| ensures locks[i].state.openOwner != locks[j].state.openOwner {
        var a :| 0 <= a < |old(locks)| && old(locks)[a] == locks[i];
        var b :| 0 <= b < |old(locks)| && old(locks)[b] == locks[j];
      }
      LossesWithout(cell);
      forall i | 0 <= i < |locks|
        ensures LockOk(world.sum, locks[i].state)
        ensures old(Recovered()) ==> Confirmed(world.sum, clientId, sessionId, locks[i].state)
      {
        MarkKeepsOthers(old(world.sum), world.sum, clientId, sessionId, locks[i].state);
      }
    }

    /** Drops a token from the registry for good; nothing after this reclaims it. */
    method Forget(cell: LockCell)
      requires Valid() && cell in locks
      modifies `locks, world`trace, world`sum
      ensures Valid() && locks == Without(old(locks), cell)
      ensures world.trace == old(world.trace) + [Sent(Unlocking(cell.state.openOwner), [], 0, 0, Denied)]
      ensures world.sum.released == old(world.sum).released + {cell.state.openOwner}
    {
      hide Run, Fold, RegistryOk, Recovered;
      WithoutStaysDistinct(locks, cell);
      world.MarkUnlocking(cell.state.openOwner);
      locks := Without(locks, cell);
      RegistryWithout(cell);
    }

    /** Sends LOCKU, repeating it with an advanced seqid while it is delayed. */
    method UnlockOpened(lock: LockState, ghost start: Moment) returns (r: Result<StateId>)
      requires Valid() && Carried(start, Now())
      modifies this, rpc`interrupted, world`clock, world`trace, world`sum, world`lost, locks
      ensures Valid() && locks == old(locks) && (rpc == old(rpc) || fresh(rpc))
      ensures Carried(start, Now())
      ensures r.Success? ==> Unlocked(world.trace, |start.trace|, lock, r.value)
    {
      hide *;
      var retry := 0;
      while true
        invariant Valid() && locks == old(locks) && (rpc == old(rpc) || fresh(rpc))
        invariant Carried(start, Now())
        decreases builder.maxRetries - retry
      {
        OnHandleIsApplication(clientId, lock.handle, LockUnlock(lock.lockStateid));
        ghost var from := |world.trace|;
        var answered := Exchange([PutFh(lock.handle), LockUnlock(lock.lockStateid)], start);
        if answered.Failure? {
          return Failure(answered.error);
        }
        AskedIsUnlocked(world.trace, from, |start.trace|, lock, answered.value);
        if HasDelayedStatus(answered.value, OP_LOCKU) && MayRetry(retry) {
          retry := retry + 1;
        } else {
          return ResponseStateId(answered.value, OP_LOCKU);
        }
      }
    }

    /** LOCKU, FREE_STATEID and RELEASE_LOCKOWNER, each only after the one before succeeded. */
    method ReleaseRange(lock: LockState, ghost start: Moment) returns (r: Result<()>)
      requires Valid() && Carried(start, Now())
      modifies this, rpc`interrupted, world`clock, world`trace, world`sum, world`lost, locks
      ensures Valid() && locks == old(locks) && (rpc == old(rpc) || fresh(rpc))
      ensures Carried(start, Now())
      ensures r.Success? ==> RangeReleased(world.trace, |start.trace|, lock)
    {
      hide *;
      var unlocked := UnlockOpened(lock, start);
      if unlocked.Failure? {
        return Failure(unlocked.error);
      }
      ReleaseIsApplication(clientId, FreeStateId(unlocked.value));
      label freeing:
      ghost var before := world.trace;
      var freed := Exchange([FreeStateId(unlocked.value)], start);
      CarriedTrace(old@freeing(Now()), Now());
      UnlockedStays(before, world.trace, |start.trace|, lock, unlocked.value);
      if freed.Failure? {
        return Failure(freed.error);
      }
      AskedIsFreed(world.trace, |before|, |start.trace|, unlocked.value, freed.value);
      if EnsureOk(freed.value).Failure? {
        return EnsureOk(freed.value);
      }
      before := world.trace;
      label releasing:
      ReleaseIsApplication(clientId, ReleaseLockOwner(clientId, lock.owner));
      var released := Exchange([ReleaseLockOwner(clientId, lock.owner)], start);
      CarriedTrace(old@releasing(Now()), Now());
      UnlockedStays(before, world.trace, |start.trace|, lock, unlocked.value);
      FreedStays(before, world.trace, |start.trace|, unlocked.value);
      if released.Failure? {
        return Failure(released.error);
      }
      AskedIsOwnerReleased(world.trace, |before|, |start.trace|, old@releasing(clientId), lock.owner, released.value);
      r := ResponseReleaseLockOwner(released.value);
      if r.Success? {
        RangeIsReleased(world.trace, |start.trace|, lock, unlocked.value);
      }
    }

    lemma InSession()
      requires Valid()
      ensures SessionOk() && sessionId in world.sum.slots && rpc.world == world
      ensures world.sum.slots[sessionId].client == clientId && world.sum.slots[sessionId].completed
    {
    }

    /** Gives up the server state of a lock that was lost, without looking at the outcome. */
    method CloseLost(lock: LockState, ghost start: Moment)
      requires Valid() && Carried(start, Now())
      modifies this`sequenceId, this`openSeqid, rpc`interrupted, world`clock, world`trace, world`sum
      ensures Valid() && Carried(start, Now())
      ensures !old(rpc.interrupted) && 3 <= maxOperations ==>
                TriedToClose(world.trace, |old(world.trace)|, lock.handle, lock.openStateid)
                || Unsent(world.script, old(world.clock), world.clock)
    {
      hide *;
      InSession();
      var ops := [PutFh(lock.handle), Close(openSeqid, lock.openStateid)];
      CloseMaySend(world.sum, clientId, Recovery(None), lock.handle, openSeqid, lock.openStateid);
      var _ := RecoveryCompound(None, ops);
      if Tried(world.trace, |old(world.trace)|, ops) {
        TriedIsClosing(world.trace, |old(world.trace)|, |old(world.trace)|, lock.handle, openSeqid, lock.openStateid);
      }
      StepsValid();
      AdvanceOpenSeqid();
      StepsCarry(old(Now()), Now(), sessionId);
      CarriedCompose(start, old(Now()), Now());
    }

    /** Releases a lock. Its token is dropped before anything is sent and whatever happens after,
        so an unknown or used token is refused and no later recovery reclaims the range; every
        other tracked lock is kept. */
    method Unlock(cell: LockCell) returns (r: Result<()>)
      requires Valid()
      modifies this, rpc`interrupted, world`clock, world`trace, world`sum, world`lost, locks
      ensures Valid() && (rpc == old(rpc) || fresh(rpc))
      ensures cell !in old(locks) ==>
                r == Failure(Protocol) && locks == old(locks) && world.trace == old(world.trace)
                && world.sum == old(world.sum)
      ensures cell in old(locks) ==>
                && locks == Without(old(locks), cell)
                && old(world.trace) + [Sent(Unlocking(old(cell.state.openOwner)), [], 0, 0, Denied)] <= world.trace
                && world.sum.released == old(world.sum).released + {old(cell.state.openOwner)}
                && (old(cell.state.lost).Some? ==> r == Failure(LockLost(old(cell.state.lost).value)))
                && (r.Success? ==> Released(world.trace, |old(world.trace)|, old(cell.state)))
      ensures forall i :: 0 <= i < |old(locks)| ==> SameLock(old(locks[i].state), old(locks)[i].state)
    {
      hide *;
      forall i | 0 <= i < |locks| ensures SameLock(locks[i].state, locks[i].state) {
        SameLockReflexive(locks[i].state);
      }
      if cell !in locks {
        return Failure(Protocol);
      }
      var lock := cell.state;
      Forget(cell);
      ghost var start := Now();
      CarriedReflexive(start);
      r := ReleaseLock(lock, start);
      CarriedKeeps(start, Now());
      CarriedTrace(start, Now());
      if r.Success? {
        ReleasedSince(world.trace, |start.trace|, |old(world.trace)|, lock);
      }
      WithoutKeepsOthers(old(locks), cell);
    }

    /** What unlocking sends once the token is gone. */
    method ReleaseLock(lock: LockState, ghost start: Moment) returns (r: Result<()>)
      requires Valid() && Carried(start, Now())
      modifies this, rpc`interrupted, world`clock, world`trace, world`sum, world`lost, locks
      ensures Valid() && locks == old(locks) && (rpc == old(rpc) || fresh(rpc))
      ensures Carried(start, Now())
      ensures lock.lost.Some? ==> r == Failure(LockLost(lock.lost.value))
      ensures r.Success? ==> Released(world.trace, |start.trace|, lock)
    {
      hide *;
      if lock.lost.Some? {
        if lock.clientId == clientId {
          CloseLost(lock, start);
        }
        return Failure(LockLost(lock.lost.value));
      }
      r := ReleaseRange(lock, start);
      ghost var before, middle := world.trace, Now();
      CarriedReflexive(middle);
      CarriedTrace(start, middle);
      HandleIsPlain(lock.handle);
      var closed := CloseFile([PutFh(lock.handle)], lock.openStateid, middle);
      CarriedTrace(middle, Now());
      CarriedCompose(start, middle, Now());
      if r.Success? && closed.Success? {
        ClosedSince(world.trace, |before|, |start.trace|, [PutFh(lock.handle)], lock.openStateid);
        RangeReleasedStays(before, world.trace, |start.trace|, |start.trace|, lock);
        IsReleased(world.trace, |start.trace|, lock);
      }
      if r.Failure? {
        return Failure(CleanupError(r.error, closed));
      }
      return closed;
    }

    /** A lock the client tracks and does not report as lost is one the server granted, to the
        client id in use once no recovery is due, and confirmed on the session in use. The LOCK
        behind it was done unless the client was behind on its session. */
    lemma TrackedLocksAreHeld(index: nat)
      requires Valid() && index < |locks| && locks[index].state.lost.None?
      ensures var lock := locks[index].state;
              && (exists j :: 0 <= j < |world.trace| && GivesLock(world.trace, j, lock))
              && (exists e :: e in world.trace && GrantsOpen(e, lock))
              && (!recoveryPending ==>
                    lock.clientId == clientId && exists e :: e in world.trace && Vouches(e, sessionId, lock))
    {
      hide Run, Fold, OpensOf, LocksOf, VouchesOf, SessionOk, Behind;
      GrantsComeFromTrace(world.trace);
      var lock := locks[index].state;
      var e :| e in world.trace && GrantsLock(e, lock);
      var j :| 0 <= j < |world.trace| && world.trace[j] == e;
      GrantIsOfThree(e, lock);
      if Sequenced(e.ops) {
        GrantIsGiven(world.trace, j);
      }
      assert GivesLock(world.trace, j, lock);
      var open :| open in world.trace && OpenGrant(lock.clientId, lock.openOwner, lock.openStateid) in OpensOf(open);
      assert GrantsOpen(open, lock);
      if !recoveryPending {
        var vouch :| vouch in world.trace && Vouch(sessionId, lock.openStateid, lock.lockStateid) in VouchesOf(vouch);
        assert Vouches(vouch, sessionId, lock);
      }
    }

    /** The gate is the registry: the client knows of a lost lock if and only if its run gave one up
        that was not unlocked since. */
    lemma GateIsRegistry()
      requires Valid()
      ensures AnyLost() <==> exists i :: 0 <= i < |world.trace| && GivenUp(world.trace, i)
    {
      hide Run, Fold, SessionOk, Recovered, LockOk, GivenUp;
      GivenUpMeansSummary(world.trace);
      if AnyLost() {
        var i :| 0 <= i < |locks| && locks[i].state.lost.Some?;
        assert locks[i].state.openOwner in world.sum.lost && locks[i].state.openOwner !in world.sum.released;
      } else {
        forall owner | owner in world.sum.lost ensures owner in world.sum.released {
          assert !KnownLost(owner);
        }
      }
    }

    /** No silent loss: a lock is only reported as lost after the server answered a compound that
        asks about that very lock with the status the client keeps as the reason. */
    lemma LossIsReported(index: nat)
      requires Valid() && index < |locks| && locks[index].state.lost.Some?
      ensures exists e :: e in world.trace && AnswersLoss(e, locks[index].state)
    {
      hide Run, Fold, OpensOf, LocksOf, VouchesOf, SessionOk, Reports, AsksAbout;
      GrantsComeFromTrace(world.trace);
      var lock := locks[index].state;
      var f :| f in world.sum.findings && f.openOwner == lock.openOwner && AsksAbout(f.ops, lock)
               && Reports(f.response, lock.lost.value);
      var e :| e in world.trace && f in FindingsOf(e);
      assert AnswersLoss(e, lock);
    }

    /** Looks up the file system limits of a new client. */
    method RefreshRootFsinfo(ghost start: Moment) returns (r: Result<()>)
      requires Valid() && Carried(start, Now())
      modifies this, rpc`interrupted, world`clock, world`trace, world`sum, world`lost, locks
      ensures Valid() && locks == old(locks) && (rpc == old(rpc) || fresh(rpc))
      ensures Carried(start, Now())
    {
      hide *;
      LimitsAreApplication(clientId);
      var supported := Exchange([PutRootFh, GetAttr], start);
      if supported.Failure? {
        return Failure(supported.error);
      }
      if EnsureOk(supported.value).Failure? {
        return EnsureOk(supported.value);
      }
      var attributes := Find(supported.value, OpCode(GetAttr));
      if attributes.Some? && !attributes.value.value.NoValue? {
        LimitsAreApplication(clientId);
        var limits := Exchange([PutRootFh, GetAttr], start);
        if limits.Failure? {
          return Failure(limits.error);
        }
        if EnsureOk(limits.value).Failure? {
          return EnsureOk(limits.value);
        }
      }
      hasFsinfo := true;
      return Success(());
    }

    /** Starts the heartbeat of a client in use. */
    method KeepLease() returns (r: Result<()>)
      requires Valid()
      modifies `lease, world`clock, world`trace, world`sum
      ensures Valid() && old(world.trace) <= world.trace
    {
      hide Run, Fold, Rebuilding, SessionOk, RegistryOk;
      r := StartLeaseRenewal();
      RebuildingPrefix(old(world.trace), old(world.sum), world.trace, world.sum);
      RebuildingGrows(old(world.trace), old(world.sum), world.trace, world.sum);
      SessionStays();
      RegistryStays();
    }

    /** Ends the heartbeat and destroys the session. */
    method Shutdown() returns (r: Result<()>)
      requires Valid()
      modifies `lease, rpc`interrupted, world`clock, world`trace, world`sum
      ensures world.Valid() && Rebuilding(old(world.trace), old(world.sum), world.trace, world.sum)
      ensures r.Success? ==> Destroyed(world.trace, |old(world.trace)|, sessionId)
      ensures r.Success? && old(lease).Some? ==> Gone(world.trace, |old(world.trace)|, old(lease).value)
    {
      hide Run, Fold, Rebuilding, SessionOk, RegistryOk, Recovered, Destroyed, Gone, EnsureOk, ServerOk, Next;
      var stopped := StopLeaseRenewal();
      ghost var trace, sum := world.trace, world.sum;
      RebuildingPrefix(old(world.trace), old(world.sum), trace, sum);
      if stopped.Failure? {
        return stopped;
      }
      if rpc.interrupted {
        return Failure(RpcConnectionInvalid);
      }
      ghost var before, sent;
      var destroyed;
      destroyed, before, sent := SetupCompound(rpc, 0, [DestroySession(sessionId)]);
      RebuildingPrefix(trace, sum, world.trace, world.sum);
      RebuildingCompose(old(world.trace), old(world.sum), trace, sum, world.trace, world.sum);
      if old(lease).Some? {
        GoneStays(trace, world.trace, |old(world.trace)|, old(lease).value);
      }
      if destroyed.Success? {
        IsDestroyed(world.trace, |old(world.trace)|, sent.value, sessionId);
      }
      return if destroyed.Failure? then Failure(destroyed.error) else EnsureOk(destroyed.value);
    }

    /** Looks up the limits and starts the heartbeat of a new client, or gives its session up. */
    method Equip() returns (r: Result<()>)
      requires Valid() && locks == []
      modifies this, rpc`interrupted, world`clock, world`trace, world`sum, world`lost
      ensures world.Valid() && (rpc == old(rpc) || fresh(rpc))
      ensures r.Success? ==> Valid() && locks == []
      ensures Established(world.sum, sessionId)
      ensures r.Failure? && !r.error.Cleanup? ==> Destroyed(world.trace, |old(world.trace)|, sessionId)
    {
      hide *;
      ghost var start := Now();
      CarriedReflexive(start);
      r := RefreshRootFsinfo(start);
      CarriedTrace(start, Now());
      if r.Success? {
        r := KeepLease();
      }
      IsRun();
      InSession();
      IsEstablished(world.sum, sessionId);
      if r.Failure? {
        ghost var trace, sum := world.trace, world.sum;
        var ended := Shutdown();
        RebuildingKeeps(trace, sum, world.trace, world.sum, sessionId);
        IsEstablished(world.sum, sessionId);
        CleanupIsNamed(r.error, ended);
        if ended.Success? {
          DestroyedStays(world.trace, world.trace, |trace|, |old(world.trace)|, sessionId);
        }
        return Failure(CleanupError(r.error, ended));
      }
    }

    /** Connects a client: a session with its RECLAIM_COMPLETE accepted, the file system limits,
        and the heartbeat. */
    static method Connect(world: World, builder: Builder) returns (r: Result<Client>, ghost client: Option<Client>)
      requires world.Valid() && world.trace == []
      modifies world`clock, world`trace, world`sum, world`lost
      ensures world.Valid()
      ensures r.Success? ==> client == Some(r.value) && r.value.Valid() && r.value.locks == []
      ensures client.Some? ==> fresh(client.value) && fresh(client.value.rpc) && client.value.world == world
      ensures client.Some? ==> Established(world.sum, client.value.sessionId)
      ensures r.Failure? && !r.error.Cleanup? ==>
                if client.None? then NoneLeft([], START, world.trace, world.sum, {})
                else Destroyed(world.trace, 0, client.value.sessionId)
    {
      hide Run, Foregrounds, Rebuilding, Destroyed, NoneLeft;
      client := None;
      var connected :- ConnectSession(world, builder, true);
      client := Some(connected);
      RebuildingGrows(old(world.trace), old(world.sum), world.trace, world.sum);
      connected.FirstIsValid();
      ghost var trace := world.trace;
      var equipped := connected.Equip();
      if equipped.Failure? {
        if !equipped.error.Cleanup? {
          DestroyedStays(world.trace, world.trace, |trace|, 0, connected.sessionId);
        }
        return Failure(equipped.error), client;
      }
      return Success(connected), client;
    }

    lemma IsRun()
      requires Valid()
      ensures world.Valid() && Run(world.trace) && world.sum == Fold(world.trace)
    {
    }

    lemma StartsInStep()
      requires rpc.world == world && world.Valid() && sessionId in world.sum.slots && sequenceId == 1
      requires world.sum.slots[sessionId] == Slot(clientId, 0, false, false, false)
      ensures SessionOk()
    {
    }

    lemma FirstIsValid()
      requires SessionOk() && locks == [] && !recoveryPending && clientId == world.sum.current
      requires world.sum.slots[sessionId].completed && world.sum.released == {} && world.sum.lost == {}
      requires forall k :: k in world.sum.completing ==> k <= world.sum.current
      ensures Valid()
    {
      hide Run, Fold;
    }
  }

  /** What an application can ask of a client. A request is built for the client id in use. */
  datatype Command =
    | Request(build: nat -> seq<Operation>)
    | Rebuild
    | LockRange(depth: nat, lockType: LockType, offset: nat, length: nat, owner: nat)
    | UnlockRange(index: nat)

  /** Every sequence of calls, against every server, network and heartbeat behaviour, is a run, and
      leaves a connected client in good order; the theorems of `Runs` and of `Client` apply to it. */
  method UseClient(script: nat -> Move, leaseFailures: nat -> bool, builder: Builder, commands: seq<Command>)
    returns (world: World, r: Result<Client>, ghost given: Option<Client>)
    ensures Run(world.trace) && world.script == script && world.leaseFailures == leaseFailures
    ensures r.Success? ==> r.value.Valid() && r.value.world == world
    ensures r.Failure? && given.Some? ==> Established(world.sum, given.value.sessionId)
    ensures r.Failure? && !r.error.Cleanup? ==>
              if given.None? then NoneLeft([], START, world.trace, world.sum, {})
              else Destroyed(world.trace, 0, given.value.sessionId)
  {
    hide *;
    world := new World(script, leaseFailures);
    r, given := Client.Connect(world, builder);
    if r.Failure? {
      world.IsRun();
      return;
    }
    var client := r.value;
    var tokens: seq<LockCell> := [];
    for i := 0 to |commands|
      invariant client.Valid() && client.world == world && fresh(client) && fresh(client.rpc) && fresh(world)
      invariant forall k :: 0 <= k < |client.locks| ==> fresh(client.locks[k])
    {
      tokens := Obey(client, commands[i], tokens);
    }
    client.IsRun();
  }

  method Obey(client: Client, command: Command, tokens: seq<LockCell>) returns (r: seq<LockCell>)
    requires client.Valid()
    modifies client, client.rpc`interrupted
    modifies client.world`clock, client.world`trace, client.world`sum, client.world`lost, client.world`nextOwner
    modifies client.locks
    ensures client.Valid() && (client.rpc == old(client.rpc) || fresh(client.rpc))
    ensures forall k :: 0 <= k < |client.locks| ==> client.locks[k] in old(client.locks) || fresh(client.locks[k])
  {
    hide *;
    r := tokens;
    match command {
      case Request(build) =>
        if Application(client.clientId, build(client.clientId)) {
          var _, _, _ := client.CompoundStatus(build(client.clientId));
        }
      case Rebuild =>
        var _ := client.RecoverSession();
      case LockRange(depth, lockType, offset, length, owner) =>
        var locked := client.LockWithOwner(depth, lockType, offset, length, owner);
        if locked.Success? {
          r := r + [locked.value];
        }
      case UnlockRange(index) =>
        if index < |tokens| {
          var _ := client.Unlock(tokens[index]);
        }
    }
  }
}

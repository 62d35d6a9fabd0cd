/** What may be sent, and what sending leaves behind: the relations between two moments of a run
    that the client's operations are specified by. */
module Progress {
  import opened Errors
  import opened Compound
  import opened Runs
  import opened Wire
  import opened Locks

  /** What the three senders must know of a compound before putting SEQUENCE in front of it. */
  predicate MaySend(sum: Summary, clientId: nat, tag: Tag, ops: seq<Operation>) {
    && (forall op :: op in ops ==> !op.Sequence? && NamesClient(op, clientId))
    && (Reclaims(ops) ==>
          && ReclaimComplete !in ops
          && clientId !in sum.completing
          && tag.Recovery? && tag.subject.Some? && tag.subject.value !in sum.released
          && forall op :: op in ops ==> ReclaimIsFor(sum, clientId, tag.subject.value, op))
  }

  /** Nothing but state release passes while a lock given up was not unlocked. */
  predicate GateOpen(sum: Summary, ops: seq<Operation>) {
    sum.lost <= sum.released || ReleasesState(ops)
  }

  predicate Plain(op: Operation) {
    !(op.Sequence? || op.Open? || op.Lock? || op.LockTest? || op.ReleaseLockOwner? || op.DelegPurge?)
  }

  lemma PlainMaySend(sum: Summary, clientId: nat, tag: Tag, ops: seq<Operation>)
    requires forall op :: op in ops ==> Plain(op)
    ensures MaySend(sum, clientId, tag, ops) && !Reclaims(ops)
  {
  }

  lemma TestMaySend(sum: Summary, clientId: nat, tag: Tag, ids: seq<StateId>)
    ensures MaySend(sum, clientId, tag, [TestStateIds(ids)])
  {
  }

  lemma FreeMaySend(sum: Summary, clientId: nat, tag: Tag, id: StateId)
    ensures MaySend(sum, clientId, tag, [FreeStateId(id)])
  {
  }

  lemma CloseMaySend(sum: Summary, clientId: nat, tag: Tag, handle: nat, seqid: nat, stateid: StateId)
    ensures MaySend(sum, clientId, tag, [PutFh(handle), Close(seqid, stateid)])
  {
  }

  lemma DelegReturnMaySend(sum: Summary, clientId: nat, tag: Tag, handle: nat, stateid: StateId)
    ensures MaySend(sum, clientId, tag, [PutFh(handle), DelegReturn(stateid)])
  {
  }

  lemma ReclaimMaySend(sum: Summary, clientId: nat, openOwner: nat, handle: nat, op: Operation)
    requires clientId !in sum.completing && openOwner !in sum.released
    requires op == Open(clientId, openOwner, true)
             || (op.Lock? && op.clientId == clientId && OpenGrant(clientId, openOwner, op.openStateid) in sum.opens)
    ensures MaySend(sum, clientId, Recovery(Some(openOwner)), [PutFh(handle), op])
  {
  }

  lemma OpenIsGranted(e: Sent, session: nat, client: nat, handle: nat, openOwner: nat)
    requires exists seqid :: e.ops == [Sequence(session, seqid)] + [PutFh(handle), Open(client, openOwner, true)]
    requires e.reply.Answered? && ResponseOpen(e.reply.response).Success?
    ensures OpensOf(e) == {OpenGrant(e.client, openOwner, ResponseOpen(e.reply.response).value.stateid)}
  {
    assert e.ops[2] == Open(client, openOwner, true);
    assert e.ops[1..][1..] == [Open(client, openOwner, true)];
    assert FirstOpen(e.ops) == FirstOpen(e.ops[1..]) == FirstOpen(e.ops[1..][1..]);
  }

  predicate GrantsLock(e: Sent, lock: LockState) {
    GrantOf(lock) in LocksOf(e)
  }

  /** This compound was answered with the lock, and the server did all of it unless the client was
      behind on its session. */
  predicate GivesLock(trace: seq<Sent>, j: nat, lock: LockState)
    requires j < |trace|
  {
    && GrantsLock(trace[j], lock)
    && (Sequenced(trace[j].ops) && !Behind(trace[..j], trace[j].ops[0].session) ==> trace[j].executed == |trace[j].ops|)
  }

  predicate GrantsOpen(e: Sent, lock: LockState) {
    OpenGrant(lock.clientId, lock.openOwner, lock.openStateid) in OpensOf(e)
  }

  predicate Vouches(e: Sent, session: nat, lock: LockState) {
    Vouch(session, lock.openStateid, lock.lockStateid) in VouchesOf(e)
  }

  lemma GrantIsOfThree(e: Sent, lock: LockState)
    requires GrantsLock(e, lock)
    ensures |e.ops| == 3 && LocksOf(e) != {}
  {
  }

  lemma LockIsGranted(e: Sent, session: nat, handle: nat, op: Operation)
    requires exists seqid :: e.ops == [Sequence(session, seqid)] + [PutFh(handle), op]
    requires op.Lock? && e.reply.Answered? && ResponseStateId(e.reply.response, OP_LOCK).Success?
    ensures var stateid := ResponseStateId(e.reply.response, OP_LOCK).value;
            && LockGrant(e.client, handle, op.lockOwner, op.lockType, op.offset, op.length, stateid) in LocksOf(e)
            && Vouch(session, op.openStateid, stateid) in VouchesOf(e)
  {
  }

  lemma TestIsVouched(e: Sent, session: nat, open: StateId, lock: StateId)
    requires exists seqid :: e.ops == [Sequence(session, seqid)] + [TestStateIds([open, lock])]
    requires e.reply.Answered? && ResponseTestStateIds(e.reply.response, 2) == Success([Ok, Ok])
    ensures Vouch(session, open, lock) in VouchesOf(e)
  {
  }

  /** A compound that may be sent may be sent again. */
  lemma MaySendStays(a: Summary, b: Summary, clientId: nat, tag: Tag, ops: seq<Operation>)
    requires MaySend(a, clientId, tag, ops) && Grew(a, b) && b.released == a.released
    requires ReclaimComplete !in ops ==> b.completing == a.completing
    ensures MaySend(b, clientId, tag, ops)
  {
  }

  lemma SequenceIsNeutral(sum: Summary, session: nat, seqid: nat, client: nat, owner: nat)
    ensures var op := Sequence(session, seqid);
            NamesClient(op, client) && !ReclaimsState(op) && ReclaimIsFor(sum, client, owner, op)
            && op != ReclaimComplete
  {
  }

  lemma SequencedIsClientOk(sum: Summary, tag: Tag, session: nat, ops: seq<Operation>)
    requires session in sum.slots && !sum.slots[session].poisoned && (tag.Foreground? || tag.Recovery?)
    requires MaySend(sum, sum.slots[session].client, tag, ops)
    requires tag.Foreground? ==> sum.slots[session].completed && ReclaimComplete !in ops && GateOpen(sum, ops)
    ensures ClientOk(sum, tag, [Sequence(session, SlotAfter(Counted(sum.slots[session])))] + ops)
    ensures Completes([Sequence(session, SlotAfter(Counted(sum.slots[session])))] + ops) <==> ReclaimComplete in ops
  {
    hide NamesClient, ReclaimIsFor, ReclaimsState, ReleasesState;
    var slot := sum.slots[session];
    var seqid := SlotAfter(Counted(slot));
    var full := [Sequence(session, seqid)] + ops;
    assert full[1..] == ops && Sequenced(full);
    SequenceIsNeutral(sum, session, seqid, slot.client, 0);
    assert Reclaims(full) ==> Reclaims(ops);
    if Reclaims(ops) {
      SequenceIsNeutral(sum, session, seqid, slot.client, tag.subject.value);
    }
  }

  /** A slot within the 32-bit wrap, on which a client that is behind missed an accepted request. */
  predicate SlotOk(slot: Slot) {
    slot.accepted < WRAP && (slot.behind ==> slot.accepted > 0)
  }

  /** One exchange moves the slot and the client's counter together. */
  lemma SlotStep(sum: Summary, e: Sent, session: nat)
    requires ServerOk(sum, e) && Sequenced(e.ops) && e.ops[0].session == session && session in sum.slots
    requires !sum.slots[session].poisoned && SlotOk(sum.slots[session])
    requires e.ops[0].seqid == SlotAfter(Counted(sum.slots[session]))
    ensures session in Next(sum, e).slots
    ensures var slot, slot' := sum.slots[session], Next(sum, e).slots[session];
            && slot' == NextSlot(slot, e)
            && SlotOk(slot')
            && slot'.client == slot.client && (slot.completed ==> slot'.completed)
            && (slot'.poisoned <==> e.reply.Lost?)
            && (!e.reply.Lost? ==>
                  Counted(slot') == Counted(slot) + if CountsUp(e) then 1 else 0)
  {
    hide SlotAfter, ServerExpects, LeadingOk, WellShaped, SequenceSucceeded, OpensOf, LocksOf, VouchesOf, FindingsOf;
    var slot := sum.slots[session];
    SlotVerdict(slot.accepted, slot.behind);
    if e.reply.Answered? {
      SequenceSucceededMeansAccepted(TagName(e.tag), e.ops, e.reply.response);
    }
  }

  /** What recovery sending on one session leaves behind. */
  predicate Steps(t0: seq<Sent>, s0: Summary, t1: seq<Sent>, s1: Summary, session: nat) {
    && t0 <= t1
    && Foregrounds(t1) == Foregrounds(t0)
    && Grew(s0, s1) && SameSlotsExcept(s0, s1, session)
    && s1.current == s0.current && s1.released == s0.released && s1.slots.Keys == s0.slots.Keys
    && (session in s0.slots && s0.slots[session].completed ==> session in s1.slots && s1.slots[session].completed)
  }

  lemma StepsReflexive(t: seq<Sent>, s: Summary, session: nat)
    ensures Steps(t, s, t, s, session)
  {
  }

  lemma StepsCompose(t0: seq<Sent>, s0: Summary, t1: seq<Sent>, s1: Summary, t2: seq<Sent>, s2: Summary, session: nat)
    requires Steps(t0, s0, t1, s1, session) && Steps(t1, s1, t2, s2, session)
    ensures Steps(t0, s0, t2, s2, session)
  {
    hide Foregrounds;
  }

  lemma StepsGrow(t0: seq<Sent>, s0: Summary, t1: seq<Sent>, s1: Summary, session: nat)
    requires Steps(t0, s0, t1, s1, session)
    ensures s0.opens <= s1.opens && s0.locks <= s1.locks && s0.vouched <= s1.vouched && s0.findings <= s1.findings
    ensures s1.current == s0.current && s1.released == s0.released && s1.slots.Keys == s0.slots.Keys
  {
  }

  lemma StepsPrefix(t0: seq<Sent>, s0: Summary, t1: seq<Sent>, s1: Summary, session: nat)
    requires Steps(t0, s0, t1, s1, session)
    ensures t0 <= t1
  {
  }

  lemma StepsKeepCompleted(t0: seq<Sent>, s0: Summary, t1: seq<Sent>, s1: Summary, session: nat)
    requires Steps(t0, s0, t1, s1, session) && session in s0.slots && s0.slots[session].completed
    ensures session in s1.slots && s1.slots[session].completed
  {
  }

  lemma SentIsStep(t: seq<Sent>, s: Summary, e: Sent, session: nat)
    requires ServerOk(s, e) && session in s.slots && OnSession(e, session) && e.tag.Recovery?
    ensures Steps(t, s, t + [e], Next(s, e), session)
    ensures e.client == s.slots[session].client
    ensures OpensOf(e) <= Next(s, e).opens && LocksOf(e) <= Next(s, e).locks && VouchesOf(e) <= Next(s, e).vouched
    ensures FindingsOf(e) <= Next(s, e).findings
    ensures session in Next(s, e).slots && (CompletionAccepted(e) ==> Next(s, e).slots[session].completed)
    ensures Next(s, e).completing == if Completes(e.ops) then s.completing + {s.slots[session].client} else s.completing
  {
    hide Foregrounds, OpensOf, LocksOf, VouchesOf;
    NextGrows(s, e);
    ForegroundsExtends(t, e);
  }

  /** Giving up a lock sends nothing. */
  lemma MarkIsStep(t: seq<Sent>, s: Summary, e: Sent, session: nat)
    requires e.tag.Losing? && e.ops == [] && !e.reply.Answered?
    ensures Next(s, e) == s.(lost := s.lost + {e.tag.lock.openOwner})
    ensures Steps(t, s, t + [e], Next(s, e), session) && Rebuilding(t, s, t + [e], Next(s, e))
  {
    hide Foregrounds;
    ForegroundsExtends(t, e);
  }

  lemma GrewReflexive(s: Summary)
    ensures Grew(s, s)
  {
  }

  lemma ForegroundIsStep(t: seq<Sent>, s: Summary, e: Sent, session: nat)
    requires ServerOk(s, e) && session in s.slots && OnSession(e, session) && e.tag.Foreground? && !Completes(e.ops)
    ensures Foregrounds(t + [e]) == Foregrounds(t) + [e]
    ensures Grew(s, Next(s, e)) && SameSlotsExcept(s, Next(s, e), session)
    ensures Next(s, e).current == s.current && Next(s, e).released == s.released
            && Next(s, e).completing == s.completing
    ensures e.client == s.slots[session].client
    ensures OpensOf(e) <= Next(s, e).opens && LocksOf(e) <= Next(s, e).locks && VouchesOf(e) <= Next(s, e).vouched
    ensures session in Next(s, e).slots && (s.slots[session].completed ==> Next(s, e).slots[session].completed)
  {
    hide Foregrounds, OpensOf, LocksOf, VouchesOf;
    NextGrows(s, e);
    ForegroundsExtends(t, e);
  }

  /** What one sending of an application compound leaves behind. */
  lemma ForegroundSent(t: seq<Sent>, s: Summary, e: Sent, session: nat, client: nat, seqid: nat, ops: seq<Operation>)
    requires ServerOk(s, e) && session in s.slots && s.slots[session].client == client && s.slots[session].completed
    requires e.tag.Foreground? && e.ops == [Sequence(session, seqid)] + ops && Application(client, ops)
    ensures IsSendOf(e, session, client, ops) && OwnProgress(t, s, t + [e], Next(s, e), [e])
    ensures Grew(s, Next(s, e)) && session in Next(s, e).slots && Next(s, e).slots[session].completed
    ensures Next(s, e).released == s.released && Next(s, e).completing == s.completing
    ensures OpensOf(e) <= Next(s, e).opens && LocksOf(e) <= Next(s, e).locks && VouchesOf(e) <= Next(s, e).vouched
  {
    hide Foregrounds, Next, ServerOk, Application, WellShaped, OpensOf, LocksOf, VouchesOf, Grew, SameSlotsExcept;
    ApplicationDoesNotComplete(client, ops);
    assert OnSession(e, session) && e.ops[1..] == ops;
    ForegroundIsStep(t, s, e, session);
    if e.reply.Answered? {
      DoneIsReported(s, e);
    }
  }

  /** Compounds the application may ask for: the SEQUENCE, the reclaims and RECLAIM_COMPLETE
      are the client's own, and client ids are those of the client that builds them. */
  predicate Application(clientId: nat, ops: seq<Operation>) {
    && ReclaimComplete !in ops
    && forall op :: op in ops ==> !op.Sequence? && !ReclaimsState(op) && NamesClient(op, clientId)
  }

  lemma CloseIsApplication(clientId: nat, prefix: seq<Operation>, seqid: nat, stateid: StateId)
    requires forall op :: op in prefix ==> Plain(op) && op != ReclaimComplete
    ensures Application(clientId, prefix + [Close(seqid, stateid)])
  {
  }

  /** The path of a file `depth` directories below the root, and the OPEN of that file. */
  function PathTo(depth: nat): (ops: seq<Operation>)
    ensures forall op :: op in ops ==> Plain(op) && op != ReclaimComplete
  {
    [PutRootFh] + seq(depth, _ => Lookup)
  }

  function OpenCompound(clientId: nat, depth: nat, openOwner: nat): seq<Operation> {
    PathTo(depth) + [Open(clientId, openOwner, false), GetFh]
  }

  lemma OpenIsApplication(clientId: nat, depth: nat, openOwner: nat)
    ensures Application(clientId, OpenCompound(clientId, depth, openOwner))
    ensures !CanReplay(OpenCompound(clientId, depth, openOwner))
  {
    assert Open(clientId, openOwner, false) in OpenCompound(clientId, depth, openOwner);
  }

  lemma {:induction false} FirstOpenBehind(prefix: seq<Operation>, open: Operation, rest: seq<Operation>)
    requires open.Open? && forall op :: op in prefix ==> !op.Open?
    ensures FirstOpen(prefix + [open] + rest) == Some(open)
  {
    if prefix == [] {
      assert (prefix + [open] + rest)[0] == open;
    } else {
      FirstOpenBehind(prefix[1..], open, rest);
      assert (prefix + [open] + rest)[1..] == prefix[1..] + [open] + rest;
    }
  }

  lemma OpenCompoundIsGranted(e: Sent, session: nat, client: nat, depth: nat, openOwner: nat,
                              response: CompoundResponse, sum: Summary)
    requires Granting(e, session, client, OpenCompound(client, depth, openOwner), response, sum)
    requires ResponseOpen(response).Success?
    ensures OpenGrant(client, openOwner, ResponseOpen(response).value.stateid) in sum.opens
  {
    hide ResponseOpen, LocksOf, VouchesOf;
    var open := Open(client, openOwner, false);
    var prefix := [e.ops[0]] + PathTo(depth);
    assert e.ops == prefix + [open] + [GetFh];
    FirstOpenBehind(prefix, open, [GetFh]);
  }

  lemma LockCompoundIsGranted(e: Sent, session: nat, client: nat, handle: nat, op: Operation,
                              response: CompoundResponse, sum: Summary)
    requires Granting(e, session, client, [PutFh(handle), op], response, sum)
    requires op.Lock? && ResponseStateId(response, OP_LOCK).Success?
    ensures var stateid := ResponseStateId(response, OP_LOCK).value;
            && LockGrant(client, handle, op.lockOwner, op.lockType, op.offset, op.length, stateid) in sum.locks
            && Vouch(session, op.openStateid, stateid) in sum.vouched
  {
    hide ResponseStateId, OpensOf;
    assert e.ops == [e.ops[0]] + [PutFh(handle), op];
  }

  lemma HandleIsPlain(handle: nat)
    ensures forall op :: op in [PutFh(handle)] ==> Plain(op) && op != ReclaimComplete
  {
  }

  lemma HeldBy(sum: Summary, lock: LockState)
    requires OpenGrant(lock.clientId, lock.openOwner, lock.openStateid) in sum.opens
    requires GrantOf(lock) in sum.locks
    ensures Held(sum, lock)
  {
  }

  /** Single operations behind a PUTFH, none of them replayable. */
  lemma OnHandleIsApplication(clientId: nat, handle: nat, op: Operation)
    requires op.DelegReturn? || op.LockUnlock? || (op.Lock? && !op.reclaim && op.clientId == clientId)
    ensures Application(clientId, [PutFh(handle), op]) && !CanReplay([PutFh(handle), op])
  {
    assert op in [PutFh(handle), op];
  }

  lemma ReleaseIsApplication(clientId: nat, op: Operation)
    requires op.FreeStateId? || (op.ReleaseLockOwner? && op.clientId == clientId)
    ensures Application(clientId, [op])
  {
  }

  /** What a new open owner was distinct from, it stays distinct from. */
  predicate Unused(owner: nat, a: Moment) {
    owner !in a.sum.released && forall i :: 0 <= i < |a.locks| ==> a.locks[i].openOwner != owner
  }

  lemma UnusedStays(owner: nat, a: Moment, b: Moment)
    requires Unused(owner, a) && Carried(a, b)
    ensures Unused(owner, b)
  {
  }

  lemma LimitsAreApplication(clientId: nat)
    ensures Application(clientId, [PutRootFh, GetAttr])
  {
  }

  lemma ApplicationMaySend(sum: Summary, clientId: nat, ops: seq<Operation>)
    requires Application(clientId, ops)
    ensures MaySend(sum, clientId, Foreground, ops)
  {
  }

  lemma ApplicationDoesNotComplete(clientId: nat, ops: seq<Operation>)
    requires Application(clientId, ops)
    ensures ReclaimComplete !in ops
    ensures forall session, seqid :: !Completes([Sequence(session, seqid)] + ops)
  {
  }

  /** `e` is one sending of an application compound on this session; nothing is done beyond what
      an answer to it reports as done. */
  predicate IsSendOf(e: Sent, session: nat, client: nat, ops: seq<Operation>) {
    && e.tag.Foreground? && OnSession(e, session) && e.ops[1..] == ops && e.client == client
    && (e.reply.Answered? ==>
          && WellShaped(TagName(e.tag), OpCodes(e.ops), e.reply.response)
          && e.executed <= LeadingOk(e.reply.response.results))
  }

  lemma DoneIsReported(sum: Summary, e: Sent)
    requires ServerOk(sum, e) && e.reply.Answered?
    ensures WellShaped(TagName(e.tag), OpCodes(e.ops), e.reply.response)
    ensures e.executed <= LeadingOk(e.reply.response.results)
  {
  }

  /** What becomes of an application compound sent now. */
  function DeliveryNow(sum: Summary, session: nat, seqid: nat, ops: seq<Operation>, move: Move): Delivery {
    Deliver(sum, Foreground, [Sequence(session, seqid)] + ops, move)
  }

  lemma DeliveryNowIs(sum: Summary, session: nat, seqid: nat, ops: seq<Operation>, move: Move)
    ensures DeliveryNow(sum, session, seqid, ops, move)
            == Deliver(sum, Foreground, [Sequence(session, seqid)] + ops, move)
  {
  }

  /** The run after one exchange. */
  predicate After(d: Delivery, t0: seq<Sent>, s0: Summary, t1: seq<Sent>, s1: Summary) {
    if d.sent.Some? then t1 == t0 + [d.sent.value] && s1 == Next(s0, d.sent.value) else t1 == t0 && s1 == s0
  }

  /** An outcome that asks for nothing but to be handed to the caller. */
  predicate Calm(ops: seq<Operation>, r: Result<CompoundResponse>) {
    if r.Success? then
      RevokedLockStatus(r.value).None? && !RequiresRecovery(r.value) && !AllowsDelayedRetry(ops, r.value, 1)
    else !r.error.IsTransportFailure()
  }

  /** An answer handed to the caller asks for no further turn. */
  predicate Final(ops: seq<Operation>, response: CompoundResponse, recovered: bool, mayDelay: bool) {
    && (RequiresRecovery(response) ==> recovered)
    && (AllowsDelayedRetry(ops, response, 1) ==> !mayDelay)
  }

  lemma FinalMeans(ops: seq<Operation>, response: CompoundResponse, recovered: bool, mayDelay: bool)
    ensures Final(ops, response, recovered, mayDelay) <==>
              (RequiresRecovery(response) ==> recovered) && (AllowsDelayedRetry(ops, response, 1) ==> !mayDelay)
  {
  }

  lemma UnknownStaysUnknown(error: Error, recovery: Result<()>)
    ensures recovery.Failure? && error.OutcomeUnknown? ==> Cleanup(error, recovery.error).IsOutcomeUnknown()
  {
  }

  lemma CalmFailure(r: Result<CompoundResponse>, ops: seq<Operation>)
    requires r.Failure?
    ensures Calm(ops, r) <==> !r.error.IsTransportFailure()
    ensures r.error.OutcomeUnknown? ==> r.error.IsOutcomeUnknown()
  {
  }

  /** What became of one sending: the caller's result, or another turn. */
  datatype Turn = Finished(result: Result<CompoundResponse>) | Delayed | Replay

  predicate LeftNoEffect(sent: Option<Sent>, ops: seq<Operation>) {
    sent.Some? && sent.value.executed > 0 ==> EffectFree(ops, sent.value.executed - 1)
  }

  lemma ReplayLeavesNoEffect(sent: Option<Sent>, ops: seq<Operation>)
    requires CanReplay(ops)
    ensures LeftNoEffect(sent, ops)
  {
    hide CanReplay, EffectFree;
    if sent.Some? && sent.value.executed > 0 {
      ReplayIsEffectFree(ops, sent.value.executed - 1);
    }
  }

  lemma DelayLeavesNoEffect(e: Sent, session: nat, client: nat, ops: seq<Operation>)
    requires IsSendOf(e, session, client, ops) && e.reply.Answered?
    requires AllowsDelayedRetry(ops, e.reply.response, 1)
    ensures LeftNoEffect(Some(e), ops)
  {
    hide AllowsDelayedRetry, WellShaped, LeadingOk, Mutates;
    assert e.ops == [e.ops[0]] + ops;
    DelayedRetryIsEffectFree(TagName(e.tag), [e.ops[0]], ops, e.reply.response);
  }

  lemma SessionErrorLeavesNoEffect(e: Sent, session: nat, client: nat, ops: seq<Operation>)
    requires IsSendOf(e, session, client, ops) && e.reply.Answered? && RequiresRecovery(e.reply.response)
    ensures LeftNoEffect(Some(e), ops)
  {
    hide WellShaped, LeadingOk, EffectFree, RequiresRecovery;
    SessionErrorIsEffectFree(TagName(e.tag), e.ops, e.reply.response);
  }

  function Listed(sent: Option<Sent>): seq<Sent> {
    if sent.Some? then [sent.value] else []
  }

  lemma ListedIs(sent: Option<Sent>)
    ensures Listed(sent) == if sent.Some? then [sent.value] else []
  {
  }

  /** Progress of one client: `added` is what the application sent meanwhile. */
  predicate OwnProgress(t0: seq<Sent>, s0: Summary, t1: seq<Sent>, s1: Summary, added: seq<Sent>) {
    && t0 <= t1
    && Foregrounds(t1) == Foregrounds(t0) + added
    && Grew(s0, s1) && s1.released == s0.released
  }

  lemma ProgressReflexive(t: seq<Sent>, s: Summary)
    ensures OwnProgress(t, s, t, s, [])
  {
  }

  lemma ProgressCompose(t0: seq<Sent>, s0: Summary, t1: seq<Sent>, s1: Summary, t2: seq<Sent>, s2: Summary,
                        a: seq<Sent>, b: seq<Sent>)
    requires OwnProgress(t0, s0, t1, s1, a) && OwnProgress(t1, s1, t2, s2, b)
    ensures OwnProgress(t0, s0, t2, s2, a + b)
  {
    hide Foregrounds;
  }

  lemma ProgressThenQuiet(t0: seq<Sent>, s0: Summary, t1: seq<Sent>, s1: Summary, t2: seq<Sent>, s2: Summary,
                          a: seq<Sent>)
    requires OwnProgress(t0, s0, t1, s1, a) && OwnProgress(t1, s1, t2, s2, [])
    ensures OwnProgress(t0, s0, t2, s2, a)
  {
    hide Foregrounds;
  }

  lemma RebuildingIsProgress(t0: seq<Sent>, s0: Summary, t1: seq<Sent>, s1: Summary)
    requires Rebuilding(t0, s0, t1, s1)
    ensures OwnProgress(t0, s0, t1, s1, [])
  {
    hide Foregrounds;
  }

  lemma StepsAreProgress(t0: seq<Sent>, s0: Summary, t1: seq<Sent>, s1: Summary, session: nat)
    requires Steps(t0, s0, t1, s1, session)
    ensures OwnProgress(t0, s0, t1, s1, [])
  {
    hide Foregrounds;
  }

  lemma ProgressPrefix(t0: seq<Sent>, s0: Summary, t1: seq<Sent>, s1: Summary, a: seq<Sent>)
    requires OwnProgress(t0, s0, t1, s1, a)
    ensures t0 <= t1
  {
  }

  lemma ProgressGrows(t0: seq<Sent>, s0: Summary, t1: seq<Sent>, s1: Summary, a: seq<Sent>, session: nat)
    requires OwnProgress(t0, s0, t1, s1, a)
    ensures session in s0.slots ==> session in s1.slots
    ensures forall x :: x in s0.slots ==> x in s1.slots
    ensures s0.opens <= s1.opens && s0.locks <= s1.locks && s0.vouched <= s1.vouched && s0.findings <= s1.findings
            && s1.released == s0.released
  {
  }

  /** What one call put on the wire: sendings of its compound, on the session it started with or
      on one built later, and the former only if the compound may not be replayed. */
  predicate CallLog(mine: seq<Sent>, ops: seq<Operation>, session: nat, client: nat, before: Summary) {
    && (forall e :: e in mine ==> e.tag.Foreground? && Sequenced(e.ops) && e.ops[1..] == ops)
    && (forall e :: e in mine ==> OnSession(e, session) || OffSessions(e, before))
    && (!CanReplay(ops) ==> forall e :: e in mine ==> OnSession(e, session) && e.client == client)
  }

  predicate OffSessions(e: Sent, before: Summary) {
    Sequenced(e.ops) && e.ops[0].session !in before.slots
  }

  lemma CallLogEmpty(ops: seq<Operation>, session: nat, client: nat, before: Summary)
    ensures CallLog([], ops, session, client, before) && Quiet([], ops) && OnlyLastTakesEffect([], ops)
  {
  }

  lemma CallLogExtends(mine: seq<Sent>, ops: seq<Operation>, session: nat, client: nat, before: Summary,
                       sent: Option<Sent>, s: nat, c: nat)
    requires CallLog(mine, ops, session, client, before)
    requires sent.Some? ==> IsSendOf(sent.value, s, c, ops)
    requires (s == session && c == client) || (s !in before.slots && CanReplay(ops))
    ensures CallLog(mine + Listed(sent), ops, session, client, before)
  {
    hide CanReplay, WellShaped;
  }

  /** The log of the sending part, seen from the start of the call. */
  lemma CallLogAfterRecovery(mine: seq<Sent>, ops: seq<Operation>, s: nat, c: nat, sum: Summary,
                             session: nat, client: nat, before: Summary, stale: bool)
    requires CallLog(mine, ops, s, c, sum) && forall x :: x in before.slots ==> x in sum.slots
    requires if stale then CanReplay(ops) && s !in before.slots else s == session && c == client
    ensures CallLog(mine, ops, session, client, before)
    ensures stale ==> forall e :: e in mine ==> OffSessions(e, before)
  {
    hide CanReplay;
  }

  predicate Quiet(mine: seq<Sent>, ops: seq<Operation>) {
    forall e :: e in mine ==> LeftNoEffect(Some(e), ops)
  }

  lemma QuietExtends(mine: seq<Sent>, ops: seq<Operation>, sent: Option<Sent>)
    requires Quiet(mine, ops)
    ensures OnlyLastTakesEffect(mine + Listed(sent), ops)
    ensures LeftNoEffect(sent, ops) ==> Quiet(mine + Listed(sent), ops)
  {
    hide EffectFree;
    forall k | 0 <= k < |mine + Listed(sent)| - 1 ensures LeftNoEffect(Some((mine + Listed(sent))[k]), ops) {
      assert (mine + Listed(sent))[k] == mine[k] && mine[k] in mine;
    }
  }

  /** The last sending, if it was answered without announcing revocation, left no effect. */
  predicate NothingDone(mine: seq<Sent>, ops: seq<Operation>) {
    mine != [] ==> NoDoneAnswer(Some(mine[|mine| - 1]), ops)
  }

  predicate NoDoneAnswer(sent: Option<Sent>, ops: seq<Operation>) {
    sent.Some? && sent.value.reply.Answered? && RevokedLockStatus(sent.value.reply.response).None? ==>
      LeftNoEffect(sent, ops)
  }

  lemma NoAnswerNothingDone(sent: Option<Sent>, ops: seq<Operation>)
    ensures sent.None? || !sent.value.reply.Answered? || LeftNoEffect(sent, ops) ==> NoDoneAnswer(sent, ops)
    ensures NothingDone([], ops)
  {
  }

  lemma AnswerNothingDone(e: Sent, response: CompoundResponse, ops: seq<Operation>)
    requires e.reply == Answered(response) && (RevokedLockStatus(response).None? ==> LeftNoEffect(Some(e), ops))
    ensures NoDoneAnswer(Some(e), ops)
  {
  }

  lemma NothingDoneExtends(mine: seq<Sent>, ops: seq<Operation>, sent: Option<Sent>)
    requires Quiet(mine, ops) && NoDoneAnswer(sent, ops)
    ensures NothingDone(mine + Listed(sent), ops)
  {
    hide EffectFree;
    if sent.None? && mine != [] {
      assert mine + Listed(sent) == mine && mine[|mine| - 1] in mine;
    }
  }

  /** The call ends with an answer on the client's session, and what it granted is on record. */
  predicate EndsAnswered(mine: seq<Sent>, response: CompoundResponse, session: nat, client: nat, sum: Summary) {
    && mine != []
    && var last := mine[|mine| - 1];
    && last.reply == Answered(response) && OnSession(last, session) && last.client == client
    && OpensOf(last) <= sum.opens && LocksOf(last) <= sum.locks && VouchesOf(last) <= sum.vouched
  }

  predicate EndsLost(mine: seq<Sent>) {
    mine != [] && mine[|mine| - 1].reply.Lost?
  }

  /** The run and the tracked locks at one moment. */
  datatype Moment = Moment(trace: seq<Sent>, sum: Summary, locks: seq<LockState>)

  lemma LogGrows(before: seq<Sent>, sent: Option<Sent>)
    ensures |before + Listed(sent)| == |before| + (if sent.Some? then 1 else 0) && !EndsLost([])
    ensures EndsLost(before + Listed(sent)) ==> if sent.Some? then sent.value.reply.Lost? else EndsLost(before)
  {
  }

  lemma LogEndsAnswered(before: seq<Sent>, sent: Option<Sent>, session: nat, client: nat, ops: seq<Operation>,
                        response: CompoundResponse, sum: Summary)
    requires sent.Some? && sent.value.reply == Answered(response) && IsSendOf(sent.value, session, client, ops)
    requires OpensOf(sent.value) <= sum.opens && LocksOf(sent.value) <= sum.locks
             && VouchesOf(sent.value) <= sum.vouched
    ensures EndsAnswered(before + Listed(sent), response, session, client, sum)
  {
    hide OpensOf, LocksOf, VouchesOf, WellShaped;
  }

  /** Nothing is forgotten: the trace and what it established only grow, nothing is released, and
      every tracked lock is still the same lock. */
  predicate Carried(a: Moment, b: Moment) {
    && a.trace <= b.trace && Grew(a.sum, b.sum) && b.sum.released == a.sum.released
    && |a.locks| == |b.locks| && forall i :: 0 <= i < |a.locks| ==> SameLock(a.locks[i], b.locks[i])
  }

  lemma CarriedReflexive(a: Moment)
    ensures Carried(a, a)
  {
  }

  lemma CarriedCompose(a: Moment, b: Moment, c: Moment)
    requires Carried(a, b) && Carried(b, c)
    ensures Carried(a, c)
  {
  }

  lemma StepsCarry(a: Moment, b: Moment, session: nat)
    requires Steps(a.trace, a.sum, b.trace, b.sum, session)
    requires |a.locks| == |b.locks| && forall i :: 0 <= i < |a.locks| ==> a.locks[i] == b.locks[i]
    ensures Carried(a, b)
  {
    hide Foregrounds;
  }

  lemma CarriedTrace(a: Moment, b: Moment)
    requires Carried(a, b)
    ensures a.trace <= b.trace
  {
  }

  lemma CarriedKeeps(a: Moment, b: Moment)
    requires Carried(a, b)
    ensures b.sum.released == a.sum.released && |a.locks| == |b.locks|
    ensures forall i :: 0 <= i < |a.locks| ==> SameLock(a.locks[i], b.locks[i])
  {
  }

  lemma CarriedGrows(a: Moment, b: Moment)
    requires Carried(a, b)
    ensures a.sum.opens <= b.sum.opens && a.sum.locks <= b.sum.locks && a.sum.vouched <= b.sum.vouched
    ensures b.sum.released == a.sum.released
  {
  }

  /** An answered application compound whose grants are on record. */
  ghost predicate Granting(e: Sent, session: nat, client: nat, ops: seq<Operation>, response: CompoundResponse,
                           sum: Summary)
  {
    && OnSession(e, session) && e.ops[1..] == ops && e.client == client && e.reply == Answered(response)
    && OpensOf(e) <= sum.opens && LocksOf(e) <= sum.locks && VouchesOf(e) <= sum.vouched
  }

  lemma MineIsAsked(t0: seq<Sent>, s0: Summary, t1: seq<Sent>, s1: Summary, mine: seq<Sent>, ops: seq<Operation>,
                    response: CompoundResponse, session: nat, client: nat, before: Summary)
    requires OwnProgress(t0, s0, t1, s1, mine) && CallLog(mine, ops, session, client, before)
    requires mine != [] && mine[|mine| - 1].reply == Answered(response)
    ensures Asked(t1, |t0|, ops, response)
  {
    hide Foregrounds, Grew, CanReplay;
    var e := mine[|mine| - 1];
    AddedIsNew(t0, t1, mine, e);
    var i :| |t0| <= i < |t1| && t1[i] == e;
  }

  /** The server unlocked the range of a lock and left this stateid. */
  ghost predicate Unlocked(trace: seq<Sent>, since: nat, lock: LockState, left: StateId) {
    exists response :: Asked(trace, since, [PutFh(lock.handle), LockUnlock(lock.lockStateid)], response)
                       && ResponseStateId(response, OP_LOCKU) == Success(left)
  }

  /** The server freed a stateid. */
  ghost predicate Freed(trace: seq<Sent>, since: nat, stateid: StateId) {
    exists response :: Asked(trace, since, [FreeStateId(stateid)], response) && response.status.Ok?
  }

  /** The server closed the open file whose handle the prefix selects. */
  ghost predicate Closed(trace: seq<Sent>, since: nat, prefix: seq<Operation>, stateid: StateId) {
    exists seqid, response :: Asked(trace, since, prefix + [Close(seqid, stateid)], response) && response.status.Ok?
  }

  lemma ClosedSince(trace: seq<Sent>, from: nat, since: nat, prefix: seq<Operation>, stateid: StateId)
    requires Closed(trace, from, prefix, stateid) && since <= from
    ensures Closed(trace, since, prefix, stateid)
  {
    hide Asked;
    var seqid, response :| Asked(trace, from, prefix + [Close(seqid, stateid)], response) && response.status.Ok?;
    AskedStays(trace, trace, from, since, prefix + [Close(seqid, stateid)], response);
  }

  /** The file just opened was closed again, by path or by handle. */
  ghost predicate ClosedAgain(trace: seq<Sent>, since: nat, depth: nat, stateid: StateId) {
    || Closed(trace, since, PathTo(depth + 1), stateid)
    || exists handle :: Closed(trace, since, [PutFh(handle)], stateid)
  }

  lemma CleanupIsNamed(error: Error, cleanup: Result<()>)
    ensures cleanup.Failure? ==> CleanupError(error, cleanup).Cleanup?
  {
  }

  lemma IsClosedAgain(trace: seq<Sent>, since: nat, depth: nat, handle: nat, stateid: StateId, error: Error,
                      closed: Result<()>)
    requires closed.Success? ==>
               Closed(trace, since, PathTo(depth + 1), stateid) || Closed(trace, since, [PutFh(handle)], stateid)
    ensures CleanupError(error, closed).Cleanup? || ClosedAgain(trace, since, depth, stateid)
  {
    hide Closed;
  }

  /** The server took back a delegation. */
  ghost predicate Returned(trace: seq<Sent>, since: nat, handle: nat, delegation: StateId) {
    exists response :: Asked(trace, since, [PutFh(handle), DelegReturn(delegation)], response) && response.status.Ok?
  }

  lemma AskedIsReturned(trace: seq<Sent>, from: nat, since: nat, handle: nat, delegation: StateId,
                        response: CompoundResponse)
    requires Asked(trace, from, [PutFh(handle), DelegReturn(delegation)], response) && since <= from
    ensures EnsureOk(response).Success? ==> Returned(trace, since, handle, delegation)
  {
    hide Asked;
    AskedStays(trace, trace, from, since, [PutFh(handle), DelegReturn(delegation)], response);
  }

  /** The server forgot a lock owner, or still needs it for other locks. */
  ghost predicate OwnerReleased(trace: seq<Sent>, since: nat, owner: nat) {
    exists client, response :: Asked(trace, since, [ReleaseLockOwner(client, owner)], response)
                               && ResponseReleaseLockOwner(response).Success?
  }

  lemma AskedIsOwnerReleased(trace: seq<Sent>, from: nat, since: nat, client: nat, owner: nat,
                             response: CompoundResponse)
    requires Asked(trace, from, [ReleaseLockOwner(client, owner)], response) && since <= from
    ensures ResponseReleaseLockOwner(response).Success? ==> OwnerReleased(trace, since, owner)
  {
    hide Asked, ResponseReleaseLockOwner;
    AskedStays(trace, trace, from, since, [ReleaseLockOwner(client, owner)], response);
  }

  /** The range of a lock is given back: unlocked, its stateid freed and its owner released. */
  ghost predicate RangeReleased(trace: seq<Sent>, since: nat, lock: LockState) {
    && (exists left :: Unlocked(trace, since, lock, left) && Freed(trace, since, left))
    && OwnerReleased(trace, since, lock.owner)
  }

  lemma RangeIsReleased(trace: seq<Sent>, since: nat, lock: LockState, left: StateId)
    requires Unlocked(trace, since, lock, left) && Freed(trace, since, left) && OwnerReleased(trace, since, lock.owner)
    ensures RangeReleased(trace, since, lock)
  {
    hide Unlocked, Freed, OwnerReleased;
  }

  lemma RangeReleasedStays(a: seq<Sent>, b: seq<Sent>, from: nat, since: nat, lock: LockState)
    requires RangeReleased(a, from, lock) && a <= b && since <= from
    ensures RangeReleased(b, since, lock)
  {
    hide Asked, ResponseStateId, ResponseReleaseLockOwner;
    var left: StateId :| Unlocked(a, from, lock, left) && Freed(a, from, left);
    var unlock :| Asked(a, from, [PutFh(lock.handle), LockUnlock(lock.lockStateid)], unlock)
                  && ResponseStateId(unlock, OP_LOCKU) == Success(left);
    AskedStays(a, b, from, since, [PutFh(lock.handle), LockUnlock(lock.lockStateid)], unlock);
    var free :| Asked(a, from, [FreeStateId(left)], free) && free.status.Ok?;
    AskedStays(a, b, from, since, [FreeStateId(left)], free);
    var client, release :| Asked(a, from, [ReleaseLockOwner(client, lock.owner)], release)
                           && ResponseReleaseLockOwner(release).Success?;
    AskedStays(a, b, from, since, [ReleaseLockOwner(client, lock.owner)], release);
    RangeIsReleased(b, since, lock, left);
  }

  /** A lock is given back: its range, and its file closed. */
  ghost predicate Released(trace: seq<Sent>, since: nat, lock: LockState) {
    RangeReleased(trace, since, lock) && Closed(trace, since, [PutFh(lock.handle)], lock.openStateid)
  }

  lemma IsReleased(trace: seq<Sent>, since: nat, lock: LockState)
    requires RangeReleased(trace, since, lock) && Closed(trace, since, [PutFh(lock.handle)], lock.openStateid)
    ensures Released(trace, since, lock)
  {
  }

  lemma ReleasedSince(trace: seq<Sent>, from: nat, since: nat, lock: LockState)
    requires Released(trace, from, lock) && since <= from
    ensures Released(trace, since, lock)
  {
    hide RangeReleased, Closed;
    RangeReleasedStays(trace, trace, from, since, lock);
    ClosedSince(trace, from, since, [PutFh(lock.handle)], lock.openStateid);
  }

  lemma UnlockedStays(a: seq<Sent>, b: seq<Sent>, since: nat, lock: LockState, left: StateId)
    requires Unlocked(a, since, lock, left) && a <= b
    ensures Unlocked(b, since, lock, left)
  {
    hide Asked, ResponseStateId;
    var response :| Asked(a, since, [PutFh(lock.handle), LockUnlock(lock.lockStateid)], response)
                    && ResponseStateId(response, OP_LOCKU) == Success(left);
    AskedStays(a, b, since, since, [PutFh(lock.handle), LockUnlock(lock.lockStateid)], response);
  }

  lemma FreedStays(a: seq<Sent>, b: seq<Sent>, since: nat, stateid: StateId)
    requires Freed(a, since, stateid) && a <= b
    ensures Freed(b, since, stateid)
  {
    hide Asked;
    var response :| Asked(a, since, [FreeStateId(stateid)], response) && response.status.Ok?;
    AskedStays(a, b, since, since, [FreeStateId(stateid)], response);
  }

  lemma AskedIsUnlocked(trace: seq<Sent>, from: nat, since: nat, lock: LockState, response: CompoundResponse)
    requires Asked(trace, from, [PutFh(lock.handle), LockUnlock(lock.lockStateid)], response) && since <= from
    ensures ResponseStateId(response, OP_LOCKU).Success? ==>
              Unlocked(trace, since, lock, ResponseStateId(response, OP_LOCKU).value)
  {
    hide Asked, ResponseStateId;
    AskedStays(trace, trace, from, since, [PutFh(lock.handle), LockUnlock(lock.lockStateid)], response);
  }

  lemma AskedIsFreed(trace: seq<Sent>, from: nat, since: nat, stateid: StateId, response: CompoundResponse)
    requires Asked(trace, from, [FreeStateId(stateid)], response) && since <= from
    ensures EnsureOk(response).Success? ==> Freed(trace, since, stateid)
  {
    hide Asked;
    AskedStays(trace, trace, from, since, [FreeStateId(stateid)], response);
  }

  lemma AskedIsClosed(trace: seq<Sent>, from: nat, since: nat, prefix: seq<Operation>, seqid: nat, stateid: StateId,
                      response: CompoundResponse)
    requires Asked(trace, from, prefix + [Close(seqid, stateid)], response) && since <= from
    ensures EnsureOk(response).Success? ==> Closed(trace, since, prefix, stateid)
  {
    hide Asked;
    AskedStays(trace, trace, from, since, prefix + [Close(seqid, stateid)], response);
  }

  /** What may be replayed mentions no client id, so it stays valid under a new one. */
  lemma ReplayableUnderAnyClient(ops: seq<Operation>, a: nat, b: nat)
    requires CanReplay(ops) && Application(a, ops)
    ensures Application(b, ops)
  {
  }

  /** What building and recovering sessions leaves behind: nothing the application sent, and
      no session that existed before was touched. */
  predicate Rebuilding(t0: seq<Sent>, s0: Summary, t1: seq<Sent>, s1: Summary) {
    && t0 <= t1
    && Foregrounds(t1) == Foregrounds(t0)
    && Grew(s0, s1)
    && s1.released == s0.released
    && (forall s :: s in s0.slots ==> s1.slots[s] == s0.slots[s])
  }

  lemma RebuildingReflexive(t: seq<Sent>, s: Summary)
    ensures Rebuilding(t, s, t, s)
  {
  }

  lemma RebuildingPrefix(t0: seq<Sent>, s0: Summary, t1: seq<Sent>, s1: Summary)
    requires Rebuilding(t0, s0, t1, s1)
    ensures t0 <= t1
  {
  }

  lemma RebuildingGrows(t0: seq<Sent>, s0: Summary, t1: seq<Sent>, s1: Summary)
    requires Rebuilding(t0, s0, t1, s1)
    ensures Grew(s0, s1) && s1.released == s0.released
  {
  }

  lemma RebuildingKeeps(t0: seq<Sent>, s0: Summary, t1: seq<Sent>, s1: Summary, session: nat)
    requires Rebuilding(t0, s0, t1, s1) && session in s0.slots
    ensures session in s1.slots && s1.slots[session] == s0.slots[session]
    ensures s0.opens <= s1.opens && s0.locks <= s1.locks && s0.vouched <= s1.vouched && s0.findings <= s1.findings
    ensures s0.current <= s1.current && s1.released == s0.released
  {
  }

  lemma RebuildingOld(t0: seq<Sent>, s0: Summary, t1: seq<Sent>, s1: Summary, session: nat)
    requires Rebuilding(t0, s0, t1, s1) && session !in s1.slots
    ensures session !in s0.slots
  {
  }

  lemma RebuildingCompose(t0: seq<Sent>, s0: Summary, t1: seq<Sent>, s1: Summary, t2: seq<Sent>, s2: Summary)
    requires Rebuilding(t0, s0, t1, s1) && Rebuilding(t1, s1, t2, s2)
    ensures Rebuilding(t0, s0, t2, s2)
  {
    hide Foregrounds;
  }

  lemma RebuildingThenSteps(t0: seq<Sent>, s0: Summary, t1: seq<Sent>, s1: Summary, t2: seq<Sent>, s2: Summary,
                            session: nat)
    requires Rebuilding(t0, s0, t1, s1) && Steps(t1, s1, t2, s2, session) && session !in s0.slots
    ensures Rebuilding(t0, s0, t2, s2)
  {
    hide Foregrounds;
  }

  /** A compound outside any session. */
  predicate Outside(ops: seq<Operation>) {
    |ops| == 1 && (ops[0].ExchangeId? || ops[0].CreateSession? || ops[0].DestroySession?)
  }

  /** Since a point of the trace, this compound went out outside any session. */
  predicate SentOutside(trace: seq<Sent>, since: nat, ops: seq<Operation>) {
    exists i :: since <= i < |trace| && trace[i].ops == ops
  }

  lemma SentOutsideNow(t: seq<Sent>, e: Sent, since: nat)
    requires since <= |t|
    ensures SentOutside(t + [e], since, e.ops)
  {
    assert (t + [e])[|t|] == e;
  }

  lemma OutsideIsClientOk(sum: Summary, ops: seq<Operation>)
    requires Outside(ops)
    ensures ClientOk(sum, Setup, ops)
  {
  }

  lemma OutsideIsRebuilding(t: seq<Sent>, s: Summary, e: Sent)
    requires ServerOk(s, e) && Outside(e.ops) && e.tag.Setup?
    ensures Rebuilding(t, s, t + [e], Next(s, e))
    ensures Next(s, e).completing == s.completing
    ensures !e.ops[0].ExchangeId? ==> Next(s, e).current == s.current
  {
    hide Foregrounds, OpensOf, LocksOf, VouchesOf;
    NextGrows(s, e);
    ForegroundsExtends(t, e);
  }

  /** The server answered the destruction of a session with OK. */
  predicate Destroyed(trace: seq<Sent>, since: nat, session: nat) {
    exists i :: since <= i < |trace| && trace[i].ops == [DestroySession(session)]
                && trace[i].reply.Answered? && trace[i].reply.response.status.Ok?
  }

  lemma DestroyedStays(a: seq<Sent>, b: seq<Sent>, from: nat, since: nat, session: nat)
    requires Destroyed(a, from, session) && a <= b && since <= from
    ensures Destroyed(b, since, session)
  {
    var i :| from <= i < |a| && a[i].ops == [DestroySession(session)] && a[i].reply.Answered?
             && a[i].reply.response.status.Ok?;
    assert b[i] == a[i];
  }

  /** The server destroyed a session or answered that it does not know it any more. */
  predicate Gone(trace: seq<Sent>, since: nat, session: nat) {
    exists i :: since <= i < |trace| && trace[i].ops == [DestroySession(session)] && trace[i].reply.Answered?
                && var status := trace[i].reply.response.status; status.Ok? || status.BadSession? || status.DeadSession?
  }

  lemma GoneStays(a: seq<Sent>, b: seq<Sent>, since: nat, session: nat)
    requires Gone(a, since, session) && a <= b
    ensures Gone(b, since, session)
  {
    var i :| since <= i < |a| && a[i].ops == [DestroySession(session)] && a[i].reply.Answered?
             && var status := a[i].reply.response.status; status.Ok? || status.BadSession? || status.DeadSession?;
    assert b[i] == a[i];
  }

  lemma IsDestroyed(trace: seq<Sent>, since: nat, e: Sent, session: nat)
    requires since < |trace| && trace[|trace| - 1] == e && e.ops == [DestroySession(session)] && e.reply.Answered?
    ensures EnsureOk(e.reply.response).Success? ==> Destroyed(trace, since, session)
  {
  }

  /** A session the server made and on which it accepted a RECLAIM_COMPLETE. */
  predicate Established(sum: Summary, session: nat) {
    session in sum.slots && sum.slots[session].completed
  }

  lemma IsEstablished(sum: Summary, session: nat)
    requires session in sum.slots && sum.slots[session].completed
    ensures Established(sum, session)
  {
  }

  /** Every session made since, but the kept ones, was destroyed again. */
  predicate NoneLeft(t0: seq<Sent>, s0: Summary, t1: seq<Sent>, s1: Summary, kept: set<nat>) {
    forall s :: s in s1.slots && s !in s0.slots && s !in kept ==> Destroyed(t1, |t0|, s)
  }

  lemma NoneLeftCompose(t0: seq<Sent>, s0: Summary, t1: seq<Sent>, s1: Summary, t2: seq<Sent>, s2: Summary,
                        kept: set<nat>)
    requires NoneLeft(t0, s0, t1, s1, {}) && NoneLeft(t1, s1, t2, s2, kept) && t0 <= t1 <= t2
    ensures NoneLeft(t0, s0, t2, s2, kept)
  {
    hide Destroyed;
    forall s | s in s2.slots && s !in s0.slots && s !in kept ensures Destroyed(t2, |t0|, s) {
      if s in s1.slots {
        DestroyedStays(t1, t2, |t0|, |t0|, s);
      } else {
        DestroyedStays(t2, t2, |t1|, |t0|, s);
      }
    }
  }

  /** Only an answered CREATE_SESSION that is not delayed makes a session. */
  lemma OutsideSlots(s: Summary, e: Sent)
    requires ServerOk(s, e) && Outside(e.ops)
    ensures Next(s, e).slots.Keys == s.slots.Keys + (if NewSession(e).Some? then {NewSession(e).value} else {})
    ensures NewSession(e).Some? ==>
              && e.ops[0].CreateSession? && e.reply.Answered? && !AllowsDelayedRetry(e.ops, e.reply.response, 0)
              && EnsureOk(e.reply.response).Success?
              && ResponseCreateSession(e.reply.response).Success?
              && ResponseCreateSession(e.reply.response).value.session == NewSession(e).value
  {
    if NewSession(e).Some? {
      assert Next(s, e).slots == s.slots[NewSession(e).value := Slot(e.ops[0].forClient, 0, false, false, false)];
    }
  }

  lemma SessionIsNew(before: Summary, e: Sent, clientId: nat, session: nat)
    requires ServerOk(before, e) && e.ops == [CreateSession(clientId)]
    requires e.reply.Answered? && ResponseCreateSession(e.reply.response).Success?
    requires ResponseCreateSession(e.reply.response).value.session == session
    ensures session !in before.slots
    ensures session in Next(before, e).slots && Next(before, e).slots[session] == Slot(clientId, 0, false, false, false)
  {
  }

  /** The client id or the session an answered setup compound hands out. */
  function ResponseExchangeId(response: CompoundResponse): (r: Result<nat>)
    ensures r.Failure? ==> r.error.Protocol?
  {
    if |response.results| == 1 && response.results[0].status.Ok? && response.results[0].value.ExchangeValue?
    then Success(response.results[0].value.clientId) else Failure(Protocol)
  }

  function ResponseCreateSession(response: CompoundResponse): (r: Result<Value>)
    ensures r.Success? ==> r.value.SessionValue?
    ensures r.Failure? ==> r.error.Protocol?
  {
    if |response.results| == 1 && response.results[0].status.Ok? && response.results[0].value.SessionValue?
    then Success(response.results[0].value) else Failure(Protocol)
  }

  /** A status error the client draws from the answer to a recovery compound is on record. */
  lemma StatusErrorsAreFound(sum: Summary, lock: LockState, ops: seq<Operation>, response: CompoundResponse,
                             code: nat, count: nat)
    requires Finding(lock.openOwner, ops, response) in sum.findings && AsksAbout(ops, lock)
    ensures EnsureOk(response).Failure? && EnsureOk(response).error.NfsV4? ==>
              LossFound(sum, lock, EnsureOk(response).error.status)
    ensures ResponseOpen(response).Failure? && ResponseOpen(response).error.NfsV4? ==>
              LossFound(sum, lock, ResponseOpen(response).error.status)
    ensures ResponseStateId(response, code).Failure? && ResponseStateId(response, code).error.NfsV4? ==>
              LossFound(sum, lock, ResponseStateId(response, code).error.status)
    ensures var tested := ResponseTestStateIds(response, count);
            if tested.Success? then forall i :: 0 <= i < count ==> LossFound(sum, lock, tested.value[i])
            else tested.error.NfsV4? ==> LossFound(sum, lock, tested.error.status)
  {
    hide Reports, AsksAbout, EnsureOk, ResponseOpen, ResponseStateId, ResponseTestStateIds;
    ErrorsAreReported(response, code, count);
  }

  /** Since a point of the trace, this compound went out on some session. */
  predicate Tried(trace: seq<Sent>, since: nat, ops: seq<Operation>) {
    exists i :: since <= i < |trace| && Sequenced(trace[i].ops) && trace[i].ops[1..] == ops
  }

  predicate TriedToClose(trace: seq<Sent>, since: nat, handle: nat, stateid: StateId) {
    exists i :: since <= i < |trace| && Sequenced(trace[i].ops) && |trace[i].ops| == 3
                && trace[i].ops[1] == PutFh(handle) && trace[i].ops[2].Close? && trace[i].ops[2].stateid == stateid
  }

  lemma TriedNow(t: seq<Sent>, e: Sent, session: nat, seqid: nat, ops: seq<Operation>)
    requires e.ops == [Sequence(session, seqid)] + ops
    ensures Tried(t + [e], |t|, ops)
  {
    assert (t + [e])[|t|] == e && e.ops[1..] == ops;
  }

  lemma TriedStays(a: seq<Sent>, b: seq<Sent>, from: nat, since: nat, ops: seq<Operation>)
    requires Tried(a, from, ops) && a <= b && since <= from
    ensures Tried(b, since, ops)
  {
    var i :| from <= i < |a| && Sequenced(a[i].ops) && a[i].ops[1..] == ops;
    assert b[i] == a[i];
  }

  lemma TriedIsClosing(trace: seq<Sent>, from: nat, since: nat, handle: nat, seqid: nat, stateid: StateId)
    requires Tried(trace, from, [PutFh(handle), Close(seqid, stateid)]) && since <= from
    ensures TriedToClose(trace, since, handle, stateid)
  {
    var i :| from <= i < |trace| && Sequenced(trace[i].ops)
             && trace[i].ops[1..] == [PutFh(handle), Close(seqid, stateid)];
    assert trace[i].ops == [trace[i].ops[0]] + [PutFh(handle), Close(seqid, stateid)];
  }

  /** Meanwhile a request did not get out at all. */
  ghost predicate Unsent(script: nat -> Move, from: nat, to: nat) {
    exists t :: from <= t < to && script(t).NotSent?
  }

  lemma UnsentNow(script: nat -> Move, from: nat, to: nat, t: nat)
    requires from <= t < to && script(t).NotSent?
    ensures Unsent(script, from, to)
  {
  }

  lemma UnsentWithin(script: nat -> Move, a: nat, b: nat, from: nat, to: nat)
    requires Unsent(script, a, b) && from <= a && b <= to
    ensures Unsent(script, from, to)
  {
  }

  lemma OnlyNotSentIsUnsent(sum: Summary, tag: Tag, ops: seq<Operation>, move: Move)
    ensures Deliver(sum, tag, ops, move).sent.None? ==> move.NotSent?
  {
  }

  /** The run ends with `e`, answered by `response`. */
  ghost predicate LastSent(trace: seq<Sent>, sum: Summary, e: Sent, session: nat, client: nat, ops: seq<Operation>,
                           response: CompoundResponse, subject: Option<nat>)
  {
    && e.tag == Recovery(subject) && (subject.Some? ==> Finding(subject.value, ops, response) in sum.findings)
    && trace != [] && trace[|trace| - 1] == e
    && (exists seqid :: e.ops == [Sequence(session, seqid)] + ops)
    && e.client == client && e.reply == Answered(response)
    && OpensOf(e) <= sum.opens && LocksOf(e) <= sum.locks && VouchesOf(e) <= sum.vouched
    && (CompletionAccepted(e) ==> session in sum.slots && sum.slots[session].completed)
  }

  /** What one sending of a recovery compound leaves behind. */
  lemma RecoverySent(t: seq<Sent>, s: Summary, e: Sent, session: nat, client: nat, seqid: nat, ops: seq<Operation>,
                     subject: Option<nat>)
    requires ServerOk(s, e) && session in s.slots && s.slots[session].client == client
    requires e.tag == Recovery(subject) && e.ops == [Sequence(session, seqid)] + ops
    requires MaySend(s, client, Recovery(subject), ops)
    ensures Steps(t, s, t + [e], Next(s, e), session) && MaySend(Next(s, e), client, Recovery(subject), ops)
    ensures Next(s, e).completing == s.completing
            || (ReclaimComplete in ops && Next(s, e).completing == s.completing + {client})
    ensures e.reply.Answered? ==> LastSent(t + [e], Next(s, e), e, session, client, ops, e.reply.response, subject)
  {
    hide Foregrounds, Next, ServerOk, MaySend, OpensOf, LocksOf, VouchesOf;
    assert e.ops[1..] == ops;
    SentIsStep(t, s, e, session);
    MaySendStays(s, Next(s, e), client, Recovery(subject), ops);
  }

  lemma LastSentIsFound(trace: seq<Sent>, sum: Summary, e: Sent, session: nat, client: nat, ops: seq<Operation>,
                        response: CompoundResponse, owner: nat)
    requires LastSent(trace, sum, e, session, client, ops, response, Some(owner))
    ensures Finding(owner, ops, response) in sum.findings
  {
  }

  lemma ReclaimedOpen(trace: seq<Sent>, sum: Summary, e: Sent, session: nat, client: nat, handle: nat, openOwner: nat,
                      response: CompoundResponse)
    requires LastSent(trace, sum, e, session, client, [PutFh(handle), Open(client, openOwner, true)], response,
                      Some(openOwner))
    requires ResponseOpen(response).Success?
    ensures OpenGrant(client, openOwner, ResponseOpen(response).value.stateid) in sum.opens
  {
    hide OpensOf, LocksOf, VouchesOf, ResponseOpen;
    OpenIsGranted(e, session, client, handle, openOwner);
  }

  lemma ReclaimedRange(trace: seq<Sent>, sum: Summary, e: Sent, session: nat, client: nat, handle: nat, op: Operation,
                       response: CompoundResponse, openOwner: nat)
    requires LastSent(trace, sum, e, session, client, [PutFh(handle), op], response, Some(openOwner))
    requires op.Lock? && ResponseStateId(response, OP_LOCK).Success?
    ensures var stateid := ResponseStateId(response, OP_LOCK).value;
            && LockGrant(client, handle, op.lockOwner, op.lockType, op.offset, op.length, stateid) in sum.locks
            && Vouch(session, op.openStateid, stateid) in sum.vouched
  {
    hide OpensOf, LocksOf, VouchesOf, ResponseStateId;
    LockIsGranted(e, session, handle, op);
  }

  lemma TestedIsVouched(trace: seq<Sent>, sum: Summary, e: Sent, session: nat, client: nat, lock: LockState,
                        response: CompoundResponse)
    requires LastSent(trace, sum, e, session, client, [TestStateIds([lock.openStateid, lock.lockStateid])], response,
                      Some(lock.openOwner))
    requires ResponseTestStateIds(response, 2) == Success([Ok, Ok])
    ensures Vouch(session, lock.openStateid, lock.lockStateid) in sum.vouched
  {
    hide OpensOf, LocksOf, VouchesOf, ResponseTestStateIds;
    TestIsVouched(e, session, lock.openStateid, lock.lockStateid);
  }

  /** Since a point of the trace, the server confirmed both stateids of a lock. */
  predicate TestedSince(trace: seq<Sent>, since: nat, lock: LockState) {
    exists i :: since <= i < |trace| && trace[i].tag == Recovery(Some(lock.openOwner)) && Sequenced(trace[i].ops)
                && trace[i].ops[1..] == [TestStateIds([lock.openStateid, lock.lockStateid])]
                && trace[i].reply.Answered? && ResponseTestStateIds(trace[i].reply.response, 2) == Success([Ok, Ok])
  }

  lemma TestedStays(a: seq<Sent>, b: seq<Sent>, from: nat, since: nat, lock: LockState)
    requires TestedSince(a, from, lock) && a <= b && since <= from
    ensures TestedSince(b, since, lock)
  {
    hide ResponseTestStateIds;
    var i :| from <= i < |a| && a[i].tag == Recovery(Some(lock.openOwner)) && Sequenced(a[i].ops)
             && a[i].ops[1..] == [TestStateIds([lock.openStateid, lock.lockStateid])]
             && a[i].reply.Answered? && ResponseTestStateIds(a[i].reply.response, 2) == Success([Ok, Ok]);
    assert b[i] == a[i];
  }

  lemma TestedNow(trace: seq<Sent>, since: nat, sum: Summary, e: Sent, session: nat, client: nat, lock: LockState,
                  response: CompoundResponse)
    requires LastSent(trace, sum, e, session, client, [TestStateIds([lock.openStateid, lock.lockStateid])], response,
                      Some(lock.openOwner))
    requires since < |trace| && ResponseTestStateIds(response, 2) == Success([Ok, Ok])
    ensures TestedSince(trace, since, lock)
  {
    hide ResponseTestStateIds, OpensOf, LocksOf, VouchesOf;
    assert trace[|trace| - 1] == e;
    assert e.ops[1..] == [TestStateIds([lock.openStateid, lock.lockStateid])];
  }
}

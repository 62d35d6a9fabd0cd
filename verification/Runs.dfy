/** Whole runs of one NFSv4 client against one server, as the trace of COMPOUNDs that
    reached the wire, and the laws every such trace obeys.

    `ServerOk` is what the model assumes of the server and the network, `ClientOk` what the
    client guarantees about each compound it sends; the theorems at the end are about
    every trace built from the two. */
module Runs {
  import opened Errors
  import opened Compound

  // ---- Slot sequence ids (RFC 8881, section 2.10.6.1) -----------------------------

  const WRAP: nat := 0x1_0000_0000

  /** The client's increment: `wrapping_add(1).max(1)` on a 32-bit value. */
  function NextSeqid(id: nat): nat
    requires id < WRAP
  {
    if id == WRAP - 1 then 1 else id + 1
  }

  /** The id a client starting at 1 holds after `n` increments. */
  function SlotAfter(n: nat): (id: nat)
    ensures 1 <= id < WRAP
  {
    1 + n % (WRAP - 1)
  }

  lemma NextSeqidAdvancesSlot(n: nat)
    ensures NextSeqid(SlotAfter(n)) == SlotAfter(n + 1)
  {
    var m := WRAP - 1;
    assert n == n / m * m + n % m;
    if n % m == m - 1 {
      assert n + 1 == (n / m + 1) * m;
      assert (n + 1) % m == 0;
    } else {
      assert n + 1 == n / m * m + (n % m + 1);
      assert (n + 1) % m == n % m + 1;
    }
  }

  /** The id the server expects after accepting `n` requests on a slot. */
  function ServerExpects(n: nat): nat {
    (n + 1) % WRAP
  }

  /** Both sides count alike up to the 32-bit wrap, where the client skips 0 and the server
      does not; a client that is one increment behind names the id accepted last instead. */
  lemma SlotVerdict(accepted: nat, behind: bool)
    requires accepted < WRAP && (behind ==> accepted > 0)
    ensures var id := SlotAfter(accepted - if behind then 1 else 0);
            && (id == ServerExpects(accepted) <==> !behind && accepted < WRAP - 1)
            && (accepted > 0 ==> (id == ServerExpects(accepted - 1) <==> behind))
  {
  }

  // ---- What was sent ------------------------------------------------------------------

  /** A byte-range lock as the client tracks it (src/v4/client.rs:520-598); `lost` is the
      status that made the client give it up. */
  datatype LockState = LockState(
    clientId: nat, openOwner: nat, handle: nat, openStateid: StateId, lockStateid: StateId, lockSeqid: nat,
    lockType: LockType, offset: nat, length: nat, owner: nat, lost: Option<Status>)

  /** Which of the client's senders a compound came from. A recovery compound remembers which
      registered lock, named by its unique open owner, it is about. Two marks stand for moments at
      which nothing is sent: `unlock` accepts the token with that open owner, and the client
      gives up a registered lock. */
  datatype Tag =
    | Foreground | Recovery(subject: Option<nat>) | Setup
    | Unlocking(openOwner: nat) | Losing(lock: LockState)

  function TagName(tag: Tag): string {
    match tag
    case Foreground => "nfs-rs-v4"
    case Recovery(_) => "nfs-rs-recovery"
    case Setup => "session-setup"
    case Unlocking(_) => ""
    case Losing(_) => ""
  }

  /** How the exchange ended for the client: no reply, a reply that did not decode, an RPC
      level rejection, or an answer. */
  datatype Reply = Lost | Garbled | Denied | Answered(response: CompoundResponse)

  /** One compound on the wire; `executed` is how many of its operations the server did. */
  datatype Sent = Sent(tag: Tag, ops: seq<Operation>, client: nat, executed: nat, reply: Reply)

  predicate Sequenced(ops: seq<Operation>) {
    ops != [] && ops[0].Sequence?
  }

  predicate OnSession(e: Sent, session: nat) {
    Sequenced(e.ops) && e.ops[0].session == session
  }

  predicate Completes(ops: seq<Operation>) {
    Sequenced(ops) && ReclaimComplete in ops
  }

  predicate ReclaimsState(op: Operation) {
    (op.Open? && op.reclaim) || (op.Lock? && op.reclaim)
  }

  predicate Reclaims(ops: seq<Operation>) {
    exists op :: op in ops && ReclaimsState(op)
  }

  predicate CompletionAccepted(e: Sent) {
    Completes(e.ops) && e.reply.Answered? && EnsureReclaimComplete(e.reply.response).Success?
  }

  predicate NamesClient(op: Operation, client: nat) {
    (op.Open? || op.Lock? || op.LockTest? || op.ReleaseLockOwner? || op.DelegPurge?) ==> op.clientId == client
  }

  /** What the client asks about one of its locks when the server may have dropped it: whether
      both stateids are known, the reclaim of its OPEN and of its range, and the return of a
      delegation that came with the OPEN. */
  predicate AsksAbout(ops: seq<Operation>, lock: LockState) {
    || ops == [TestStateIds([lock.openStateid, lock.lockStateid])]
    || (|ops| == 2 && ops[0] == PutFh(lock.handle) &&
        match ops[1]
        case Open(_, openOwner, reclaim) => reclaim && openOwner == lock.openOwner
        case Lock(_, owner, reclaim, lockType, offset, length, _) =>
          reclaim && (owner, lockType, offset, length) == (lock.owner, lock.lockType, lock.offset, lock.length)
        case DelegReturn(_) => true
        case _ => false)
  }

  // ---- What the server has granted ------------------------------------------------

  datatype OpenGrant = OpenGrant(client: nat, openOwner: nat, stateid: StateId)
  datatype LockGrant = LockGrant(client: nat, handle: nat, lockOwner: nat, lockType: LockType,
                                 offset: nat, length: nat, stateid: StateId)
  /** The server granted or confirmed this pair of stateids on this session. */
  datatype Vouch = Vouch(session: nat, openStateid: StateId, lockStateid: StateId)

  /** What the server answered to the operations of a recovery compound about one lock. */
  datatype Finding = Finding(openOwner: nat, ops: seq<Operation>, response: CompoundResponse)

  function FirstOpen(ops: seq<Operation>): Option<Operation> {
    if ops == [] then None else if ops[0].Open? then Some(ops[0]) else FirstOpen(ops[1..])
  }

  function OpensOf(e: Sent): set<OpenGrant> {
    match (e.reply, FirstOpen(e.ops))
    case (Answered(response), Some(Open(_, owner, _))) =>
      var open := ResponseOpen(response);
      if open.Success? then {OpenGrant(e.client, owner, open.value.stateid)} else {}
    case _ => {}
  }

  function LocksOf(e: Sent): set<LockGrant> {
    if e.reply.Answered? && |e.ops| == 3 && e.ops[1].PutFh? && e.ops[2].Lock? then
      var lock := e.ops[2];
      var granted := ResponseStateId(e.reply.response, OP_LOCK);
      if granted.Success? then
        {LockGrant(e.client, e.ops[1].handle, lock.lockOwner, lock.lockType, lock.offset, lock.length, granted.value)}
      else {}
    else {}
  }

  function VouchesOf(e: Sent): set<Vouch> {
    if !e.reply.Answered? || !Sequenced(e.ops) then {}
    else if |e.ops| == 3 && e.ops[2].Lock? then
      var granted := ResponseStateId(e.reply.response, OP_LOCK);
      if granted.Success? then {Vouch(e.ops[0].session, e.ops[2].openStateid, granted.value)} else {}
    else if |e.ops| == 2 && e.ops[1].TestStateIds? && |e.ops[1].stateids| == 2 then
      var statuses := ResponseTestStateIds(e.reply.response, 2);
      if statuses.Success? && statuses.value == [Ok, Ok] then
        {Vouch(e.ops[0].session, e.ops[1].stateids[0], e.ops[1].stateids[1])}
      else {}
    else {}
  }

  function FindingsOf(e: Sent): set<Finding> {
    if e.tag.Recovery? && e.tag.subject.Some? && e.reply.Answered? && Sequenced(e.ops)
    then {Finding(e.tag.subject.value, e.ops[1..], e.reply.response)} else {}
  }

  /** A client id or session id the reply hands out. */
  function NewClient(e: Sent): Option<nat> {
    match e.reply
    case Answered(CompoundResponse(_, _, results)) =>
      if e.ops == [ExchangeId] && |results| == 1 && results[0].status.Ok? && results[0].value.ExchangeValue?
      then Some(results[0].value.clientId) else None
    case _ => None
  }

  function NewSession(e: Sent): Option<nat> {
    match e.reply
    case Answered(CompoundResponse(_, _, results)) =>
      if |e.ops| == 1 && e.ops[0].CreateSession? && |results| == 1 && results[0].status.Ok?
         && results[0].value.SessionValue?
      then Some(results[0].value.session) else None
    case _ => None
  }

  // ---- State folded from the trace ---------------------------------------------

  /** A session slot: its client id, the SEQUENCEs accepted on it, whether the client is one
      increment behind, whether a reply on it was lost, and whether a RECLAIM_COMPLETE on it
      was answered as accepted. */
  datatype Slot = Slot(client: nat, accepted: nat, behind: bool, poisoned: bool, completed: bool)

  /** The client counts its sequence id up. */
  predicate CountsUp(e: Sent) {
    e.reply.Answered? && SequenceSucceeded(e.reply.response)
  }

  /** The server counts up and the client does not: an accepted request whose reply does not decode. */
  predicate Misses(e: Sent) {
    e.reply.Garbled? && e.executed > 0
  }

  datatype Summary = Summary(
    slots: map<nat, Slot>,
    current: nat,
    completing: set<nat>,
    opens: set<OpenGrant>,
    locks: set<LockGrant>,
    vouched: set<Vouch>,
    findings: set<Finding>,
    released: set<nat>,
    lost: set<nat>)

  const START := Summary(map[], 0, {}, {}, {}, {}, {}, {}, {})

  function NextSlot(slot: Slot, e: Sent): Slot {
    Slot(slot.client,
         slot.accepted + (if e.executed > 0 then 1 else 0),
         !CountsUp(e) && (slot.behind || Misses(e)),
         slot.poisoned || e.reply.Lost?,
         slot.completed || CompletionAccepted(e))
  }

  function NextSlots(slots: map<nat, Slot>, e: Sent): map<nat, Slot> {
    if Sequenced(e.ops) then
      var s := e.ops[0].session;
      if s in slots then slots[s := NextSlot(slots[s], e)] else slots
    else match NewSession(e)
      case Some(s) =>
        if e.ops[0].CreateSession? then slots[s := Slot(e.ops[0].forClient, 0, false, false, false)] else slots
      case None => slots
  }

  function Next(sum: Summary, e: Sent): Summary {
    Summary(
      NextSlots(sum.slots, e),
      if NewClient(e).Some? then NewClient(e).value else sum.current,
      if Completes(e.ops) then sum.completing + {e.client} else sum.completing,
      sum.opens + OpensOf(e),
      sum.locks + LocksOf(e),
      sum.vouched + VouchesOf(e),
      sum.findings + FindingsOf(e),
      if e.tag.Unlocking? then sum.released + {e.tag.openOwner} else sum.released,
      if e.tag.Losing? then sum.lost + {e.tag.lock.openOwner} else sum.lost)
  }

  function Fold(trace: seq<Sent>): Summary {
    if trace == [] then START else Next(Fold(trace[..|trace| - 1]), trace[|trace| - 1])
  }

  // ---- The two parties -------------------------------------------------------------

  /** The id accepted last on a slot: a request that names it again is taken for a retry. */
  predicate Retries(sum: Summary, ops: seq<Operation>) {
    && Sequenced(ops) && ops[0].session in sum.slots
    && var slot := sum.slots[ops[0].session];
    && slot.accepted > 0 && ops[0].seqid == ServerExpects(slot.accepted - 1)
  }

  /** Assumed of server and network. An operation is done only under a SEQUENCE with the expected
      id. An answer tells what was done, unless the request was taken for a retry: then it comes
      from the reply cache of the slot and nothing is done (RFC 8881, section 2.10.6.1). A request
      rejected by the RPC layer was not done. Client ids are never reissued and session ids are new. */
  predicate ServerOk(sum: Summary, e: Sent) {
    && e.executed <= |e.ops|
    && (if Sequenced(e.ops) then
          var s := e.ops[0].session;
          if s in sum.slots then
            e.client == sum.slots[s].client
            && (e.executed > 0 ==> e.ops[0].seqid == ServerExpects(sum.slots[s].accepted))
          else e.client == 0 && e.executed == 0
        else e.client == 0)
    && (e.reply.Denied? ==> e.executed == 0)
    && (e.reply.Answered? ==>
          && WellShaped(TagName(e.tag), OpCodes(e.ops), e.reply.response)
          && e.executed == if Retries(sum, e.ops) then 0 else LeadingOk(e.reply.response.results))
    && (NewClient(e).Some? ==> NewClient(e).value >= sum.current && NewClient(e).value > 0)
    && (NewSession(e).Some? ==> NewSession(e).value !in sum.slots)
  }

  /** How far the client's counter stands. */
  function Counted(slot: Slot): nat {
    if slot.behind && slot.accepted > 0 then slot.accepted - 1 else slot.accepted
  }

  /** The server answered what the client asked about this lock with this status. */
  ghost predicate LossFound(sum: Summary, lock: LockState, status: Status) {
    exists f :: f in sum.findings && f.openOwner == lock.openOwner && AsksAbout(f.ops, lock)
                && Reports(f.response, status)
  }

  /** A reclaiming OPEN carries the lock's own open owner; a reclaiming LOCK builds on an
      open stateid the server gave to that owner under this client id. */
  predicate ReclaimIsFor(sum: Summary, client: nat, openOwner: nat, op: Operation) {
    && (op.Open? && op.reclaim ==> op.openOwner == openOwner)
    && (op.Lock? && op.reclaim ==> OpenGrant(client, openOwner, op.openStateid) in sum.opens)
  }

  /** Guaranteed by the client about a compound it is about to send, or about a mark. */
  ghost predicate ClientOk(sum: Summary, tag: Tag, ops: seq<Operation>) {
    if Sequenced(ops) then
      && (tag.Foreground? || tag.Recovery?)
      && ops[0].session in sum.slots
      && var slot := sum.slots[ops[0].session];
      && !slot.poisoned
      && ops[0].seqid == SlotAfter(Counted(slot))
      && (forall op :: op in ops ==> NamesClient(op, slot.client))
      && (Reclaims(ops) ==>
            && slot.client !in sum.completing
            && tag.Recovery? && tag.subject.Some? && tag.subject.value !in sum.released
            && forall op :: op in ops ==> ReclaimIsFor(sum, slot.client, tag.subject.value, op))
      && (tag.Foreground? ==>
            && slot.completed
            && !Completes(ops)
            && (sum.lost <= sum.released || ReleasesState(ops[1..])))
    else
      && !Reclaims(ops) && !tag.Foreground?
      && (tag.Unlocking? || tag.Losing? ==> ops == [])
      && (tag.Losing? ==> tag.lock.lost.Some? && LossFound(sum, tag.lock, tag.lock.lost.value))
  }

  ghost predicate Run(trace: seq<Sent>) {
    trace != [] ==>
      var init := trace[..|trace| - 1];
      var last := trace[|trace| - 1];
      Run(init) && ServerOk(Fold(init), last) && ClientOk(Fold(init), last.tag, last.ops)
  }

  lemma RunExtends(trace: seq<Sent>, e: Sent)
    requires Run(trace) && ServerOk(Fold(trace), e) && ClientOk(Fold(trace), e.tag, e.ops)
    ensures Run(trace + [e]) && Fold(trace + [e]) == Next(Fold(trace), e)
  {
    assert (trace + [e])[..|trace|] == trace;
  }

  lemma RunStep(trace: seq<Sent>)
    requires Run(trace) && trace != []
    ensures var init, last := trace[..|trace| - 1], trace[|trace| - 1];
            && Run(init) && Fold(trace) == Next(Fold(init), last)
            && ServerOk(Fold(init), last) && ClientOk(Fold(init), last.tag, last.ops)
  {
  }

  lemma {:induction false} RunAt(trace: seq<Sent>, j: nat)
    requires Run(trace) && j < |trace|
    ensures Run(trace[..j])
    ensures ServerOk(Fold(trace[..j]), trace[j]) && ClientOk(Fold(trace[..j]), trace[j].tag, trace[j].ops)
  {
    hide *;
    var init := trace[..|trace| - 1];
    RunStep(trace);
    if j < |trace| - 1 {
      RunAt(init, j);
      assert init[..j] == trace[..j];
    }
  }

  // ---- The fold against the trace itself -------------------------------------------

  /** SEQUENCEs accepted on a session. */
  function Accepted(trace: seq<Sent>, session: nat): nat {
    if trace == [] then 0
    else
      var last := trace[|trace| - 1];
      Accepted(trace[..|trace| - 1], session) + (if OnSession(last, session) && last.executed > 0 then 1 else 0)
  }

  /** The client is one increment behind on a session: an accepted request on it came back
      undecodable, and no SEQUENCE on it was answered OK since. */
  predicate Behind(trace: seq<Sent>, session: nat) {
    exists i :: 0 <= i < |trace| && OnSession(trace[i], session) && Misses(trace[i])
                && forall k :: i < k < |trace| && OnSession(trace[k], session) ==> !CountsUp(trace[k])
  }

  predicate LostOn(trace: seq<Sent>, session: nat) {
    exists i :: 0 <= i < |trace| && OnSession(trace[i], session) && trace[i].reply.Lost?
  }

  predicate CompletedOn(trace: seq<Sent>, session: nat) {
    exists i :: 0 <= i < |trace| && OnSession(trace[i], session) && CompletionAccepted(trace[i])
  }

  predicate CompletionSentFor(trace: seq<Sent>, client: nat) {
    exists i :: 0 <= i < |trace| && Completes(trace[i].ops) && trace[i].client == client
  }

  /** What the last compound adds to each of these. */
  lemma LastStep(trace: seq<Sent>, session: nat, client: nat)
    requires trace != []
    ensures var init, last := trace[..|trace| - 1], trace[|trace| - 1];
            var on := OnSession(last, session);
            && (Behind(trace, session) <==>
                !(on && CountsUp(last)) && (Behind(init, session) || (on && Misses(last))))
            && (LostOn(trace, session) <==> LostOn(init, session) || (on && last.reply.Lost?))
            && (CompletedOn(trace, session) <==> CompletedOn(init, session) || (on && CompletionAccepted(last)))
            && (CompletionSentFor(trace, client) <==>
                CompletionSentFor(init, client) || (Completes(last.ops) && last.client == client))
  {
    var init := trace[..|trace| - 1];
    assert forall i :: 0 <= i < |init| ==> init[i] == trace[i];
    if Behind(init, session) && !(OnSession(trace[|init|], session) && CountsUp(trace[|init|])) {
      var i :| 0 <= i < |init| && OnSession(init[i], session) && Misses(init[i])
               && forall k :: i < k < |init| && OnSession(init[k], session) ==> !CountsUp(init[k]);
      assert OnSession(trace[i], session) && Misses(trace[i]);
    }
  }

  lemma EmptyTrace(session: nat)
    ensures Fold([]) == START && !Behind([], session) && !LostOn([], session) && !CompletedOn([], session)
  {
  }

  /** What one exchange does to one slot. */
  lemma SlotChange(sum: Summary, e: Sent, session: nat)
    requires ServerOk(sum, e) && ClientOk(sum, e.tag, e.ops)
    ensures var slots := Next(sum, e).slots;
            if session in sum.slots then
              && session in slots
              && slots[session] == if OnSession(e, session) then NextSlot(sum.slots[session], e) else sum.slots[session]
            else
              && !OnSession(e, session)
              && (session in slots ==> exists client :: slots[session] == Slot(client, 0, false, false, false))
  {
  }

  /** The folded slot of a session says what the trace says. */
  lemma {:induction false} SlotMeansTrace(trace: seq<Sent>, session: nat)
    requires Run(trace)
    ensures if session in Fold(trace).slots then
              var slot := Fold(trace).slots[session];
              && slot.accepted == Accepted(trace, session)
              && (slot.behind <==> Behind(trace, session)) && (slot.behind ==> slot.accepted > 0)
              && (slot.poisoned <==> LostOn(trace, session))
              && (slot.completed <==> CompletedOn(trace, session))
            else
              && Accepted(trace, session) == 0 && !Behind(trace, session)
              && !LostOn(trace, session) && !CompletedOn(trace, session)
  {
    hide Run, Fold, Next, ServerOk, ClientOk, Behind, LostOn, CompletedOn, CompletionSentFor, CompletionAccepted;
    hide CountsUp;
    if trace != [] {
      RunStep(trace);
      SlotMeansTrace(trace[..|trace| - 1], session);
      LastStep(trace, session, 0);
      SlotChange(Fold(trace[..|trace| - 1]), trace[|trace| - 1], session);
    } else {
      EmptyTrace(session);
    }
  }

  lemma {:induction false} CompletingMeansTrace(trace: seq<Sent>, client: nat)
    requires Run(trace)
    ensures client in Fold(trace).completing <==> CompletionSentFor(trace, client)
  {
    if trace != [] {
      CompletingMeansTrace(trace[..|trace| - 1], client);
      LastStep(trace, 0, client);
    }
  }

  /** A session with an accepted RECLAIM_COMPLETE belongs to an id whose completion was sent. */
  lemma {:induction false} CompletedIsCompleting(trace: seq<Sent>, session: nat)
    requires Run(trace) && session in Fold(trace).slots && Fold(trace).slots[session].completed
    ensures Fold(trace).slots[session].client in Fold(trace).completing
  {
    var n := |trace| - 1;
    var before := Fold(trace[..n]);
    if session in before.slots && before.slots[session].completed {
      CompletedIsCompleting(trace[..n], session);
    }
  }

  /** Behind every recorded grant stands an answered compound that granted it. */
  lemma {:induction false} GrantsComeFromTrace(trace: seq<Sent>)
    ensures forall g :: g in Fold(trace).opens ==> exists e :: e in trace && g in OpensOf(e)
    ensures forall g :: g in Fold(trace).locks ==> exists e :: e in trace && g in LocksOf(e)
    ensures forall g :: g in Fold(trace).vouched ==> exists e :: e in trace && g in VouchesOf(e)
    ensures forall g :: g in Fold(trace).findings ==> exists e :: e in trace && g in FindingsOf(e)
  {
    if trace != [] {
      var init, last := trace[..|trace| - 1], trace[|trace| - 1];
      GrantsComeFromTrace(init);
      assert trace == init + [last];
      assert forall e :: e in init ==> e in trace;
      assert last in trace;
    }
  }

  // ---- Theorems over whole runs ------------------------------------------------------

  /** Reclaim ordering (RFC 8881, sections 8.4.2.1 and 18.51): once RECLAIM_COMPLETE went
      out for a client id, whatever became of it, nothing is reclaimed under that id. */
  lemma ReclaimOrdering(trace: seq<Sent>, i: nat, j: nat)
    requires Run(trace) && i < j < |trace|
    requires Completes(trace[i].ops) && Reclaims(trace[j].ops)
    ensures trace[i].client != trace[j].client
  {
    hide Run, Fold;
    RunAt(trace, j);
    assert trace[..j][i] == trace[i];
    CompletingMeansTrace(trace[..j], trace[i].client);
  }

  /** No application compound travels on a session whose RECLAIM_COMPLETE was not accepted
      earlier on that same session. */
  lemma ForegroundFollowsCompletion(trace: seq<Sent>, j: nat)
    requires Run(trace) && j < |trace| && trace[j].tag.Foreground?
    ensures Sequenced(trace[j].ops)
    ensures exists i :: 0 <= i < j && OnSession(trace[i], trace[j].ops[0].session) && CompletionAccepted(trace[i])
  {
    hide Run, Fold;
    RunAt(trace, j);
    var session := trace[j].ops[0].session;
    SlotMeansTrace(trace[..j], session);
    var i :| 0 <= i < j && OnSession(trace[..j][i], session) && CompletionAccepted(trace[..j][i]);
    assert trace[i] == trace[..j][i];
  }

  /** Accepted requests on one slot never outrun the 32-bit wrap. */
  lemma {:induction false} AcceptedBelowWrap(trace: seq<Sent>, session: nat)
    requires Run(trace)
    ensures Accepted(trace, session) < WRAP
  {
    hide Run, Fold, Next, ServerOk, ClientOk, LostOn, CompletedOn;
    if trace != [] {
      var n := |trace| - 1;
      RunStep(trace);
      AcceptedBelowWrap(trace[..n], session);
      SlotMeansTrace(trace[..n], session);
      if OnSession(trace[n], session) {
        SlotUse(Fold(trace[..n]), trace[n]);
      }
    }
  }

  /** The sequence id a compound uses, against its slot. */
  lemma SlotUse(sum: Summary, e: Sent)
    requires ServerOk(sum, e) && ClientOk(sum, e.tag, e.ops) && Sequenced(e.ops)
    ensures e.ops[0].session in sum.slots
    ensures var slot := sum.slots[e.ops[0].session];
            && !slot.poisoned && e.ops[0].seqid == SlotAfter(Counted(slot))
            && (e.executed > 0 ==> e.ops[0].seqid == ServerExpects(slot.accepted))
            && (e.reply.Answered? && !(slot.accepted > 0 && e.ops[0].seqid == ServerExpects(slot.accepted - 1)) ==>
                  e.executed == LeadingOk(e.reply.response.results))
  {
  }

  /** The sequence id of a compound, and whether it was done, in terms of the trace before it. */
  lemma SequenceIdSent(trace: seq<Sent>, j: nat)
    requires Run(trace) && j < |trace| && Sequenced(trace[j].ops)
    ensures var session := trace[j].ops[0].session;
            var accepted, behind := Accepted(trace[..j], session), Behind(trace[..j], session);
            && accepted < WRAP && (behind ==> accepted > 0)
            && !LostOn(trace[..j], session)
            && trace[j].ops[0].seqid == SlotAfter(accepted - if behind then 1 else 0)
            && (trace[j].executed > 0 ==> trace[j].ops[0].seqid == ServerExpects(accepted))
            && (trace[j].reply.Answered? && !(accepted > 0 && trace[j].ops[0].seqid == ServerExpects(accepted - 1)) ==>
                  trace[j].executed == LeadingOk(trace[j].reply.response.results))
  {
    hide Run, Fold, ServerOk, ClientOk, Behind, LostOn, CompletedOn, Accepted, SlotAfter, ServerExpects, LeadingOk;
    RunAt(trace, j);
    SlotMeansTrace(trace[..j], trace[j].ops[0].session);
    AcceptedBelowWrap(trace[..j], trace[j].ops[0].session);
    SlotUse(Fold(trace[..j]), trace[j]);
  }

  /** Slot agreement: a session is not used again once a reply on it was lost, and every
      SEQUENCE names the id the server's slot expects, short of the 32-bit wrap, if and only if
      no missed increment is still to be made up. Otherwise it names the id accepted last. */
  lemma SlotAgreement(trace: seq<Sent>, j: nat)
    requires Run(trace) && j < |trace| && Sequenced(trace[j].ops)
    ensures var session, seqid := trace[j].ops[0].session, trace[j].ops[0].seqid;
            var accepted := Accepted(trace[..j], session);
            && !LostOn(trace[..j], session)
            && (accepted < WRAP - 1 ==> (seqid == ServerExpects(accepted) <==> !Behind(trace[..j], session)))
            && (accepted > 0 ==> (seqid == ServerExpects(accepted - 1) <==> Behind(trace[..j], session)))
  {
    hide Run, Fold, Accepted, Behind, LostOn, SlotAfter, ServerExpects;
    var session := trace[j].ops[0].session;
    SequenceIdSent(trace, j);
    SlotVerdict(Accepted(trace[..j], session), Behind(trace[..j], session));
  }

  /** Whether an answer can be believed: what is reported as done was done by this very request if
      and only if the client was not behind on the session, or nothing is reported as done. A
      request sent while behind is never done, whatever its answer says. */
  lemma AnswerTellsTruth(trace: seq<Sent>, j: nat)
    requires Run(trace) && j < |trace| && Sequenced(trace[j].ops)
    ensures var behind := Behind(trace[..j], trace[j].ops[0].session);
            && (behind ==> trace[j].executed == 0)
            && (trace[j].reply.Answered? ==>
                  var reported := LeadingOk(trace[j].reply.response.results);
                  trace[j].executed == reported <==> !behind || reported == 0)
  {
    hide Run, Fold, Accepted, Behind, LostOn, SlotAfter, ServerExpects, LeadingOk;
    var session := trace[j].ops[0].session;
    SequenceIdSent(trace, j);
    SlotVerdict(Accepted(trace[..j], session), Behind(trace[..j], session));
  }

  /** A lock the server granted in an answer is one it gave to this very request, if and only if the
      client was not behind on the session. */
  lemma GrantIsGiven(trace: seq<Sent>, j: nat)
    requires Run(trace) && j < |trace| && Sequenced(trace[j].ops) && LocksOf(trace[j]) != {}
    ensures trace[j].executed == |trace[j].ops| <==> !Behind(trace[..j], trace[j].ops[0].session)
  {
    hide Run, Fold, Behind;
    RunAt(trace, j);
    AnswerTellsTruth(trace, j);
    var results := trace[j].reply.response.results;
    var k := Position(results, (r: OperationResult) => r.code == OP_LOCK);
    assert OpCodes(trace[j].ops)[k] == OpCode(trace[j].ops[k]);
    assert k == 2 && LeadingOk(results) == 3;
  }

  /** How the client falls behind and catches up: exactly by an undecodable reply to an accepted
      request, and exactly by the next answer with SEQUENCE OK. It is never more than one
      increment behind. */
  lemma BehindChanges(trace: seq<Sent>, j: nat)
    requires Run(trace) && j < |trace| && Sequenced(trace[j].ops)
    ensures var session := trace[j].ops[0].session;
            && (!Behind(trace[..j], session) ==> (Behind(trace[..j + 1], session) <==> Misses(trace[j])))
            && (Behind(trace[..j], session) ==>
                  && (!Behind(trace[..j + 1], session) <==> CountsUp(trace[j]))
                  && Accepted(trace[..j + 1], session) == Accepted(trace[..j], session))
  {
    hide Run, Fold, Behind, LostOn, CompletedOn, SequenceSucceeded, LeadingOk;
    var session := trace[j].ops[0].session;
    var next := trace[..j + 1];
    assert next[..j] == trace[..j] && next[j] == trace[j];
    LastStep(next, session, 0);
    AnswerTellsTruth(trace, j);
  }

  lemma {:induction false} LostMeansTrace(trace: seq<Sent>, owner: nat)
    ensures owner in Fold(trace).lost <==>
              exists i :: 0 <= i < |trace| && trace[i].tag.Losing? && trace[i].tag.lock.openOwner == owner
    ensures owner in Fold(trace).released <==> exists i :: 0 <= i < |trace| && trace[i].tag == Unlocking(owner)
  {
    hide NextSlots, OpensOf, LocksOf, VouchesOf, FindingsOf, NewClient;
    if trace != [] {
      var n := |trace| - 1;
      LostMeansTrace(trace[..n], owner);
      assert forall i :: 0 <= i < n ==> trace[..n][i] == trace[i];
    }
  }

  /** A registered lock was given up and has not been unlocked since. */
  predicate GivenUp(trace: seq<Sent>, i: nat) {
    i < |trace| && trace[i].tag.Losing?
    && forall k :: 0 <= k < |trace| ==> trace[k].tag != Unlocking(trace[i].tag.lock.openOwner)
  }

  lemma GivenUpMeansSummary(trace: seq<Sent>)
    ensures Fold(trace).lost <= Fold(trace).released <==> forall i :: 0 <= i < |trace| ==> !GivenUp(trace, i)
  {
    hide Fold;
    var lost, released := Fold(trace).lost, Fold(trace).released;
    if lost <= released {
      forall i | 0 <= i < |trace| ensures !GivenUp(trace, i) {
        if trace[i].tag.Losing? {
          LostMeansTrace(trace, trace[i].tag.lock.openOwner);
        }
      }
    } else {
      var owner :| owner in lost && owner !in released;
      LostMeansTrace(trace, owner);
      var i :| 0 <= i < |trace| && trace[i].tag.Losing? && trace[i].tag.lock.openOwner == owner;
      assert GivenUp(trace, i);
    }
  }

  /** Lost-lock gate: from the moment the client gives up a registered lock until the application
      unlocks that very lock, the application sends nothing but pure state release. */
  lemma LostLockGate(trace: seq<Sent>, i: nat, j: nat)
    requires Run(trace) && j < |trace| && trace[j].tag.Foreground? && GivenUp(trace[..j], i)
    ensures Sequenced(trace[j].ops) && ReleasesState(trace[j].ops[1..])
  {
    hide Run, Fold, ReleasesState;
    RunAt(trace, j);
    GivenUpMeansSummary(trace[..j]);
  }

  /** No silent loss: before the client gives up a lock, the server answered a compound that asks
      about this very lock, and the answer reports the status the client keeps as the reason. */
  lemma LossIsFound(trace: seq<Sent>, j: nat)
    requires Run(trace) && j < |trace| && trace[j].tag.Losing?
    ensures trace[j].tag.lock.lost.Some? && exists i :: 0 <= i < j && AnswersLoss(trace[i], trace[j].tag.lock)
  {
    hide Run, Fold, AsksAbout, Reports;
    RunAt(trace, j);
    var lock := trace[j].tag.lock;
    GrantsComeFromTrace(trace[..j]);
    var f :| f in Fold(trace[..j]).findings && f.openOwner == lock.openOwner && AsksAbout(f.ops, lock)
             && Reports(f.response, lock.lost.value);
    var e :| e in trace[..j] && f in FindingsOf(e);
    var i :| 0 <= i < j && trace[..j][i] == e;
    assert AnswersLoss(trace[i], lock);
  }

  /** An answered recovery compound that asks about this lock and reports the status it was lost with. */
  predicate AnswersLoss(e: Sent, lock: LockState) {
    && e.tag == Recovery(Some(lock.openOwner)) && Sequenced(e.ops) && AsksAbout(e.ops[1..], lock)
    && e.reply.Answered? && lock.lost.Some? && Reports(e.reply.response, lock.lost.value)
  }

  /** Every OPEN, LOCK, LOCKT and RELEASE_LOCKOWNER names the client id its session belongs to. */
  lemma OperationsNameTheirClient(trace: seq<Sent>, j: nat, op: Operation)
    requires Run(trace) && j < |trace| && Sequenced(trace[j].ops) && op in trace[j].ops
    ensures NamesClient(op, trace[j].client)
  {
    hide Run, Fold;
    RunAt(trace, j);
  }

  /** A released lock is never reclaimed: after `unlock` accepted its token no OPEN of its owner is
      reclaimed, and no LOCK on an open stateid that the server gave to its owner. */
  lemma ReleasedIsNeverReclaimed(trace: seq<Sent>, i: nat, j: nat, op: Operation)
    requires Run(trace) && i < j < |trace|
    requires trace[i].tag.Unlocking? && op in trace[j].ops && ReclaimsState(op)
    ensures trace[j].tag.Recovery? && trace[j].tag.subject.Some? && trace[j].tag.subject.value != trace[i].tag.openOwner
    ensures op.Open? ==> op.openOwner != trace[i].tag.openOwner
    ensures op.Lock? ==>
              exists k, owner :: 0 <= k < j && owner != trace[i].tag.openOwner
                                 && OpenGrant(trace[j].client, owner, op.openStateid) in OpensOf(trace[k])
  {
    hide Run, Fold, OpensOf;
    RunAt(trace, j);
    assert trace[..j][i] == trace[i] && Reclaims(trace[j].ops);
    LostMeansTrace(trace[..j], trace[i].tag.openOwner);
    if op.Lock? {
      LockReclaimFollowsOpen(trace, j, op);
    }
  }

  /** A LOCK is reclaimed only on an OPEN the server answered for the same lock, under the
      same client id, earlier in the run. */
  lemma LockReclaimFollowsOpen(trace: seq<Sent>, j: nat, op: Operation)
    requires Run(trace) && j < |trace| && op in trace[j].ops && op.Lock? && op.reclaim
    ensures trace[j].tag.Recovery? && trace[j].tag.subject.Some?
    ensures exists i :: 0 <= i < j
                        && OpenGrant(trace[j].client, trace[j].tag.subject.value, op.openStateid) in OpensOf(trace[i])
  {
    hide Run, Fold;
    RunAt(trace, j);
    GrantsComeFromTrace(trace[..j]);
    var grant := OpenGrant(trace[j].client, trace[j].tag.subject.value, op.openStateid);
    assert ReclaimsState(op);
    var e :| e in trace[..j] && grant in OpensOf(e);
    var i :| 0 <= i < j && trace[..j][i] == e;
    assert trace[i] == e;
  }

  // ---- At-most-once execution -----------------------------------------------------------

  function Foregrounds(trace: seq<Sent>): seq<Sent> {
    if trace == [] then []
    else
      var last := trace[|trace| - 1];
      Foregrounds(trace[..|trace| - 1]) + (if last.tag.Foreground? then [last] else [])
  }

  lemma ForegroundsExtends(trace: seq<Sent>, e: Sent)
    ensures Foregrounds(trace + [e]) == Foregrounds(trace) + (if e.tag.Foreground? then [e] else [])
  {
    assert (trace + [e])[..|trace|] == trace;
  }

  lemma ForegroundsNone(trace: seq<Sent>)
    ensures Foregrounds([]) == [] && trace + [] == trace && Foregrounds(trace) + [] == Foregrounds(trace)
  {
  }

  lemma {:induction false} ForegroundsConcat(a: seq<Sent>, b: seq<Sent>)
    ensures Foregrounds(a + b) == Foregrounds(a) + Foregrounds(b)
  {
    hide *;
    ForegroundsNone(a);
    if b != [] {
      var front, last := b[..|b| - 1], b[|b| - 1];
      assert b == front + [last];
      ForegroundsConcat(a, front);
      ForegroundsExtends(front, last);
      ForegroundsExtends(a + front, last);
      assert a + b == (a + front) + [last];
    }
  }

  lemma {:induction false} ForegroundsAreSent(trace: seq<Sent>, e: Sent)
    requires e in Foregrounds(trace)
    ensures e in trace
  {
    if trace != [] && e != trace[|trace| - 1] {
      ForegroundsAreSent(trace[..|trace| - 1], e);
    }
  }

  lemma SamePrefix(a: seq<Sent>, b: seq<Sent>, c: seq<Sent>)
    requires a + b == a + c
    ensures b == c
  {
    assert b == (a + b)[|a|..] && c == (a + c)[|a|..];
  }

  /** What the application sent since is in the part of the trace that was added since. */
  lemma AddedIsNew(before: seq<Sent>, after: seq<Sent>, added: seq<Sent>, e: Sent)
    requires before <= after && Foregrounds(after) == Foregrounds(before) + added && e in added
    ensures exists i :: |before| <= i < |after| && after[i] == e
  {
    hide *;
    var rest := after[|before|..];
    assert after == before + rest;
    ForegroundsConcat(before, rest);
    SamePrefix(Foregrounds(before), added, Foregrounds(rest));
    ForegroundsAreSent(rest, e);
    var i :| 0 <= i < |rest| && rest[i] == e;
    assert after[|before| + i] == e;
  }

  /** Since a point of the trace, the application sent this compound and got this answer. */
  predicate Asked(trace: seq<Sent>, since: nat, ops: seq<Operation>, response: CompoundResponse) {
    exists i :: since <= i < |trace| && trace[i].tag.Foreground? && Sequenced(trace[i].ops)
                && trace[i].ops[1..] == ops && trace[i].reply == Answered(response)
  }

  lemma AskedStays(a: seq<Sent>, b: seq<Sent>, from: nat, since: nat, ops: seq<Operation>, response: CompoundResponse)
    requires Asked(a, from, ops, response) && a <= b && since <= from
    ensures Asked(b, since, ops, response)
  {
    var i :| from <= i < |a| && a[i].tag.Foreground? && Sequenced(a[i].ops) && a[i].ops[1..] == ops
             && a[i].reply == Answered(response);
    assert b[i] == a[i];
  }

  /** How often operation `i` behind the SEQUENCE took effect. */
  function Times(sends: seq<Sent>, i: nat): nat {
    if sends == [] then 0
    else Times(sends[..|sends| - 1], i) + (if sends[|sends| - 1].executed > i + 1 then 1 else 0)
  }

  /** All sends of one compound but the last left the server unchanged. */
  predicate OnlyLastTakesEffect(sends: seq<Sent>, ops: seq<Operation>) {
    forall k :: 0 <= k < |sends| - 1 && sends[k].executed > 0 ==> EffectFree(ops, sends[k].executed - 1)
  }

  lemma {:induction false} NoEffectYet(sends: seq<Sent>, ops: seq<Operation>, i: nat)
    requires i < |ops| && Mutates(ops[i])
    requires forall k :: 0 <= k < |sends| && sends[k].executed > 0 ==> EffectFree(ops, sends[k].executed - 1)
    ensures Times(sends, i) == 0
  {
    if sends != [] {
      NoEffectYet(sends[..|sends| - 1], ops, i);
    }
  }

  lemma AtMostOnce(sends: seq<Sent>, ops: seq<Operation>, i: nat)
    requires OnlyLastTakesEffect(sends, ops)
    requires i < |ops| && Mutates(ops[i])
    ensures Times(sends, i) <= 1
  {
    if sends != [] {
      NoEffectYet(sends[..|sends| - 1], ops, i);
    }
  }

  /** No mutating operation of the compound took effect twice. */
  ghost predicate EachAtMostOnce(sends: seq<Sent>, ops: seq<Operation>) {
    forall i :: 0 <= i < |ops| && Mutates(ops[i]) ==> Times(sends, i) <= 1
  }

  lemma OnlyLastMeansOnce(sends: seq<Sent>, ops: seq<Operation>)
    requires OnlyLastTakesEffect(sends, ops)
    ensures EachAtMostOnce(sends, ops)
  {
    hide OnlyLastTakesEffect, Mutates, Times;
    forall i | 0 <= i < |ops| && Mutates(ops[i]) ensures Times(sends, i) <= 1 {
      AtMostOnce(sends, ops, i);
    }
  }
}

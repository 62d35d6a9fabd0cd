/** NFSv4 COMPOUND requests and replies, and the tables that decide when one may be
    sent again (src/v4/client.rs:10-425, src/v4/proto.rs). */
module Compound {
  import opened Errors

  type StateId = nat
  const ANONYMOUS: StateId := 0

  datatype LockType = ReadLock | WriteLock

  /** One operation. Arguments appear where the client's decisions or the run
      properties depend on them; opaque ids are modelled as numbers. */
  datatype Operation =
    | Sequence(session: nat, seqid: nat)
    | ExchangeId | CreateSession(forClient: nat) | DestroySession(destroyed: nat) | DestroyClientId(clientId: nat)
    | BindConnToSession | BackchannelCtl | SetSsv | ReclaimComplete
    | SetClientId | SetClientIdConfirm | Renew
    | PutRootFh | PutPubFh | PutFh(handle: nat) | SaveFh | RestoreFh | GetFh
    | Lookup | Lookupp | Access | GetAttr | ReadDir | ReadLink | SecInfo | SecInfoNoName | Verify | NVerify
    | Read(stateid: StateId) | ReadPlus | Seek | Write | WriteSame | Commit | Allocate | Deallocate
    | Copy | CopyNotify | Clone | IoAdvise | OffloadCancel | OffloadStatus
    | SetAttr | Create | Remove | Link | Rename
    | Open(clientId: nat, openOwner: nat, reclaim: bool)
    | OpenAttr | OpenConfirm | OpenDowngrade | Close(openSeqid: nat, stateid: StateId)
    | Lock(clientId: nat, lockOwner: nat, reclaim: bool, lockType: LockType, offset: nat, length: nat,
           openStateid: StateId)
    | LockTest(clientId: nat) | LockUnlock(stateid: StateId) | FreeStateId(stateid: StateId)
    | ReleaseLockOwner(clientId: nat, lockOwner: nat) | TestStateIds(stateids: seq<StateId>)
    | DelegReturn(stateid: StateId) | DelegPurge(clientId: nat) | WantDelegation | GetDirDelegation
    | GetDeviceInfo | GetDeviceList | LayoutGet | LayoutCommit | LayoutReturn | LayoutError | LayoutStats

  const ILLEGAL: nat := 10044
  const COMPOUND: nat := 0

  /** Operation numbers of RFC 7530, RFC 8881 and RFC 7862. */
  function OpCode(op: Operation): nat {
    match op
    case Access => 3 case Close(_, _) => 4 case Commit => 5 case Create => 6
    case DelegPurge(_) => 7 case DelegReturn(_) => 8 case GetAttr => 9 case GetFh => 10
    case Link => 11 case Lock(_, _, _, _, _, _, _) => 12 case LockTest(_) => 13 case LockUnlock(_) => 14
    case Lookup => 15 case Lookupp => 16 case NVerify => 17 case Open(_, _, _) => 18
    case OpenAttr => 19 case OpenConfirm => 20 case OpenDowngrade => 21 case PutFh(_) => 22
    case PutPubFh => 23 case PutRootFh => 24 case Read(_) => 25 case ReadDir => 26
    case ReadLink => 27 case Remove => 28 case Rename => 29 case Renew => 30
    case RestoreFh => 31 case SaveFh => 32 case SecInfo => 33 case SetAttr => 34
    case SetClientId => 35 case SetClientIdConfirm => 36 case Verify => 37 case Write => 38
    case ReleaseLockOwner(_, _) => 39 case BackchannelCtl => 40 case BindConnToSession => 41
    case ExchangeId => 42 case CreateSession(_) => 43 case DestroySession(_) => 44 case FreeStateId(_) => 45
    case GetDirDelegation => 46 case GetDeviceInfo => 47 case GetDeviceList => 48 case LayoutCommit => 49
    case LayoutGet => 50 case LayoutReturn => 51 case SecInfoNoName => 52 case Sequence(_, _) => 53
    case SetSsv => 54 case TestStateIds(_) => 55 case WantDelegation => 56 case DestroyClientId(_) => 57
    case ReclaimComplete => 58 case Allocate => 59 case Copy => 60 case CopyNotify => 61
    case Deallocate => 62 case IoAdvise => 63 case LayoutError => 64 case LayoutStats => 65
    case OffloadCancel => 66 case OffloadStatus => 67 case ReadPlus => 68 case Seek => 69
    case WriteSame => 70 case Clone => 71
  }

  const OP_LOCK: nat := 12
  const OP_LOCKU: nat := 14
  const OP_CLOSE: nat := 4
  const OP_OPEN: nat := 18
  const OP_GETFH: nat := 10
  const OP_RELEASE_LOCKOWNER: nat := 39
  const OP_SEQUENCE: nat := 53
  const OP_TEST_STATEID: nat := 55
  const OP_EXCHANGE_ID: nat := 42

  // ---- Replies ---------------------------------------------------------------

  /** The part of a successful result the client reads. */
  datatype Value =
    | NoValue
    | SequenceValue(adminRevoked: bool, expiredRevoked: bool)
    | ExchangeValue(clientId: nat)
    | SessionValue(session: nat, maxOperations: nat, channelUsable: bool)
    | OpenValue(stateid: StateId, confirm: bool, delegation: Option<StateId>)
    | StateValue(stateid: StateId)
    | HandleValue(handle: nat)
    | StatusesValue(statuses: seq<Status>)

  datatype OperationResult = OperationResult(code: nat, status: Status, value: Value)

  datatype CompoundResponse = CompoundResponse(tag: string, status: Status, results: seq<OperationResult>)

  /** Index of the first result satisfying `p`, or the number of results when none does. */
  function Position(results: seq<OperationResult>, p: OperationResult -> bool): (k: nat)
    ensures k <= |results|
    ensures forall i :: 0 <= i < k ==> !p(results[i])
    ensures k < |results| ==> p(results[k])
  {
    if results == [] || p(results[0]) then 0 else 1 + Position(results[1..], p)
  }

  /** How many operations, counted from the front, the reply reports as done. */
  function LeadingOk(results: seq<OperationResult>): (k: nat)
    ensures k <= |results|
    ensures forall i :: 0 <= i < k ==> results[i].status.Ok?
    ensures k < |results| ==> !results[k].status.Ok?
  {
    Position(results, (r: OperationResult) => !r.status.Ok?)
  }

  predicate ResultMatches(result: OperationResult, expected: nat) {
    result.code == expected || (result.code == ILLEGAL && result.status.OpIllegal?)
  }

  function OpCodes(ops: seq<Operation>): (codes: seq<nat>)
    ensures |codes| == |ops|
    ensures forall i :: 0 <= i < |ops| ==> codes[i] == OpCode(ops[i])
  {
    seq(|ops|, i requires 0 <= i < |ops| => OpCode(ops[i]))
  }

  /** The shape check every decoded reply passes before anyone looks at it, test by
      test in the order the client makes them. */
  function ValidateShape(tag: string, expected: seq<nat>, response: CompoundResponse): Result<()> {
    var results := response.results;
    if response.tag != tag || |results| > |expected| then Failure(Protocol)
    else if exists i :: 0 <= i < |results| && !ResultMatches(results[i], expected[i]) then Failure(Protocol)
    else if response.status.Ok? && |results| != |expected| then Failure(Protocol)
    else
      var failed := LeadingOk(results);
      if response.status.Ok? then
        if failed < |results| then Failure(Protocol) else Success(())
      else if failed < |results| then
        if failed + 1 != |results| || results[failed].status != response.status then Failure(Protocol)
        else Success(())
      else if results != [] then Failure(Protocol)
      else Success(())
  }

  /** What a COMPOUND reply looks like: results for the operations attempted, in
      order, all done but possibly the last, whose failure is the compound's status. */
  predicate WellShaped(tag: string, expected: seq<nat>, response: CompoundResponse) {
    var results := response.results;
    && response.tag == tag
    && |results| <= |expected|
    && (forall i :: 0 <= i < |results| ==> ResultMatches(results[i], expected[i]))
    && (forall i :: 0 <= i < |results| - 1 ==> results[i].status.Ok?)
    && (response.status.Ok? ==> |results| == |expected|)
    && (results != [] ==> results[|results| - 1].status == response.status)
  }

  lemma ShapeCheckAcceptsExactlyWellShaped(tag: string, expected: seq<nat>, response: CompoundResponse)
    ensures ValidateShape(tag, expected, response).Success? <==> WellShaped(tag, expected, response)
  {
  }

  predicate SequenceSucceeded(response: CompoundResponse) {
    response.results != [] && response.results[0].code == OP_SEQUENCE && response.results[0].status.Ok?
  }

  /** State revocation announced in the SEQUENCE status flags. */
  function RevokedLockStatus(response: CompoundResponse): Option<Status> {
    if response.results == [] || response.results[0].code != OP_SEQUENCE then None
    else match response.results[0].value
      case SequenceValue(admin, expired) =>
        if admin then Some(AdminRevoked) else if expired then Some(Expired) else None
      case _ => None
  }

  predicate RequiresRecovery(response: CompoundResponse) {
    if response.results == [] then response.status.RequiresSessionRecovery()
    else response.results[0].code == OP_SEQUENCE && response.results[0].status.RequiresSessionRecovery()
  }

  function SessionRecoveryError(response: CompoundResponse): Error {
    if response.results == [] then NfsV4(COMPOUND, response.status)
    else NfsV4(response.results[0].code, response.results[0].status)
  }

  function EnsureOk(response: CompoundResponse): (r: Result<()>)
    ensures r.Success? <==> response.status.Ok?
    ensures r.Failure? ==> r.error.NfsV4?
  {
    if response.status.Ok? then Success(())
    else if response.results != [] then
      var last := response.results[|response.results| - 1];
      Failure(NfsV4(last.code, last.status))
    else Failure(NfsV4(COMPOUND, response.status))
  }

  function EnsureReclaimComplete(response: CompoundResponse): Result<()> {
    if response.status.CompleteAlready?
       || (response.results != [] && response.results[|response.results| - 1].status.CompleteAlready?)
    then Success(())
    else EnsureOk(response)
  }

  /** First result of the given operation, as the `response_*` selectors find it. */
  function Find(response: CompoundResponse, code: nat): Option<OperationResult> {
    var k := Position(response.results, (r: OperationResult) => r.code == code);
    if k < |response.results| then Some(response.results[k]) else None
  }

  function ResponseOpen(response: CompoundResponse): (r: Result<Value>)
    ensures r.Success? ==> r.value.OpenValue?
    ensures r.Failure? ==> r.error.NfsV4? || r.error.Protocol?
  {
    match Find(response, OP_OPEN)
    case Some(OperationResult(_, Ok, OpenValue(s, c, d))) => Success(OpenValue(s, c, d))
    case Some(r) => Failure(NfsV4(OP_OPEN, r.status))
    case None => Failure(Protocol)
  }

  function ResponseHandle(response: CompoundResponse): (r: Result<nat>)
    ensures r.Failure? ==> r.error.NfsV4? || r.error.Protocol?
  {
    match Find(response, OP_GETFH)
    case Some(OperationResult(_, Ok, HandleValue(h))) => Success(h)
    case Some(r) => Failure(NfsV4(OP_GETFH, r.status))
    case None => Failure(Protocol)
  }

  /** The stateid of a LOCK or LOCKU result. */
  function ResponseStateId(response: CompoundResponse, code: nat): (r: Result<StateId>)
    ensures r.Failure? ==> r.error.NfsV4? || r.error.Protocol?
  {
    match Find(response, code)
    case Some(OperationResult(_, Ok, StateValue(s))) => Success(s)
    case Some(r) => if r.status.Ok? then Failure(Protocol) else Failure(NfsV4(code, r.status))
    case None => Failure(Protocol)
  }

  /** A lock owner that still holds locks elsewhere is no error. */
  function ResponseReleaseLockOwner(response: CompoundResponse): (r: Result<()>)
    ensures r.Failure? ==> r.error.NfsV4? || r.error.Protocol?
  {
    match Find(response, OP_RELEASE_LOCKOWNER)
    case Some(r) =>
      if r.status.Ok? || r.status.LocksHeld? then Success(()) else Failure(NfsV4(OP_RELEASE_LOCKOWNER, r.status))
    case None => Failure(Protocol)
  }

  function ResponseTestStateIds(response: CompoundResponse, count: nat): (r: Result<seq<Status>>)
    ensures r.Success? ==> |r.value| == count
    ensures r.Failure? ==> r.error.NfsV4? || r.error.Protocol?
  {
    match Find(response, OP_TEST_STATEID)
    case Some(OperationResult(_, Ok, StatusesValue(statuses))) =>
      if |statuses| == count then Success(statuses) else Failure(Protocol)
    case Some(r) => if r.status.Ok? then Failure(Protocol) else Failure(NfsV4(OP_TEST_STATEID, r.status))
    case None => Failure(Protocol)
  }

  function ValidateOpenResult(open: Value): (r: Result<Option<StateId>>)
    requires open.OpenValue?
    ensures r.Failure? ==> r.error.Protocol?
    ensures r.Success? ==> !open.confirm && r.value == open.delegation
  {
    if open.confirm then Failure(Protocol) else Success(open.delegation)
  }

  /** The reply reports this status, of the compound, of an operation, or of a tested stateid. */
  predicate Reports(response: CompoundResponse, status: Status) {
    || response.status == status
    || exists r :: r in response.results
                   && (r.status == status || (r.value.StatusesValue? && status in r.value.statuses))
  }

  /** Every status error the client draws from a reply stands in the reply. */
  lemma ErrorsAreReported(response: CompoundResponse, code: nat, count: nat)
    ensures EnsureOk(response).Failure? && EnsureOk(response).error.NfsV4? ==>
              Reports(response, EnsureOk(response).error.status)
    ensures ResponseOpen(response).Failure? && ResponseOpen(response).error.NfsV4? ==>
              Reports(response, ResponseOpen(response).error.status)
    ensures ResponseStateId(response, code).Failure? && ResponseStateId(response, code).error.NfsV4? ==>
              Reports(response, ResponseStateId(response, code).error.status)
    ensures var tested := ResponseTestStateIds(response, count);
            if tested.Success? then forall i :: 0 <= i < count ==> Reports(response, tested.value[i])
            else tested.error.NfsV4? ==> Reports(response, tested.error.status)
  {
  }

  predicate SeqidConsumes(status: Status) {
    !(status.BadSeqId? || status.BadStateId? || status.BadXdr? || status.Moved? || status.NoFileHandle?
      || status.Resource? || status.StaleClientId? || status.StaleStateId?)
  }

  predicate ConsumedOwnerSeqid(response: CompoundResponse, code: nat) {
    exists r :: r in response.results && r.code == code && SeqidConsumes(r.status)
  }

  predicate HasDelayedStatus(response: CompoundResponse, code: nat) {
    exists r :: r in response.results && r.code == code && r.status.IsRetryable()
  }

  predicate OperationRequiresRecovery(response: CompoundResponse, code: nat) {
    exists r :: r in response.results && r.code == code && r.status.RequiresSessionRecovery()
  }

  // ---- When a compound may be sent again ---------------------------------------

  /** Read-only operations that consume no client state: safe on a new session. */
  predicate ReplayableAfterRecovery(op: Operation) {
    op.PutRootFh? || op.PutPubFh? || op.PutFh? || op.Lookup? || op.Lookupp? || op.Access? || op.SecInfo?
    || op.SecInfoNoName? || op.NVerify? || op.GetFh? || op.GetAttr? || op.ReadDir? || op.ReadLink? || op.Verify?
    || op.SaveFh? || op.RestoreFh? || op.TestStateIds? || (op.Read? && op.stateid == ANONYMOUS)
  }

  /** Operations that may have succeeded in front of the one that was delayed. */
  predicate ReplayableInPrefix(op: Operation) {
    op.PutRootFh? || op.PutPubFh? || op.PutFh? || op.Lookup? || op.Lookupp? || op.Access? || op.SecInfo?
    || op.SecInfoNoName? || op.NVerify? || op.GetFh? || op.GetAttr? || op.Read? || op.ReadDir? || op.ReadLink?
    || op.ReadPlus? || op.Seek? || op.Verify? || op.SaveFh? || op.RestoreFh? || op.LockTest? || op.TestStateIds?
    || op.GetDeviceInfo? || op.GetDeviceList? || op.OffloadStatus?
  }

  /** Owner-sequenced operations advance their seqid even when delayed. */
  predicate RetryableWhenDelayed(op: Operation) {
    !(op.Open? || op.OpenConfirm? || op.Close? || op.Lock? || op.LockUnlock? || op.OpenDowngrade? || op.Sequence?)
  }

  predicate CanReplay(ops: seq<Operation>) {
    forall op :: op in ops ==> ReplayableAfterRecovery(op)
  }

  /** Operations an application may still send while one of its locks is lost. */
  predicate ReleasesState(ops: seq<Operation>) {
    && ops != []
    && forall op :: op in ops ==>
         op.PutFh? || op.Close? || op.LockUnlock? || op.FreeStateId? || op.ReleaseLockOwner?
  }

  function FirstDelayed(response: CompoundResponse): Option<nat> {
    if response.results == [] then
      if response.status.IsRetryable() then Some(0) else None
    else
      var k := Position(response.results, (r: OperationResult) => r.status.IsRetryable());
      if k < |response.results| then Some(k) else None
  }

  /** `leading` is the number of results in front of `ops`: 1 behind a SEQUENCE, else 0. */
  predicate AllowsDelayedRetry(ops: seq<Operation>, response: CompoundResponse, leading: nat) {
    match FirstDelayed(response)
    case None => false
    case Some(k) =>
      k < leading
      || (&& k - leading < |ops|
          && (forall op :: op in ops[..k - leading] ==> ReplayableInPrefix(op))
          && RetryableWhenDelayed(ops[k - leading]))
  }

  /** Operations that change files, attributes, names, or open, lock, delegation,
      layout, session or client state on the server, listed from the standards and
      not from the client's tables. Executing one twice is what must not happen. */
  predicate Mutates(op: Operation) {
    op.Write? || op.WriteSame? || op.Commit? || op.Allocate? || op.Deallocate? || op.Copy? || op.CopyNotify?
    || op.Clone? || op.IoAdvise? || op.OffloadCancel? || op.SetAttr? || op.Create? || op.Remove? || op.Link?
    || op.Rename? || op.Open? || op.OpenAttr? || op.OpenConfirm? || op.OpenDowngrade? || op.Close? || op.Lock?
    || op.LockUnlock? || op.FreeStateId? || op.ReleaseLockOwner? || op.DelegReturn? || op.DelegPurge?
    || op.WantDelegation? || op.GetDirDelegation? || op.LayoutGet? || op.LayoutCommit? || op.LayoutReturn?
    || op.LayoutError? || op.LayoutStats? || op.Sequence? || op.ExchangeId? || op.CreateSession?
    || op.DestroySession? || op.DestroyClientId? || op.BindConnToSession? || op.BackchannelCtl? || op.SetSsv?
    || op.ReclaimComplete? || op.SetClientId? || op.SetClientIdConfirm? || op.Renew?
  }

  /** None of the first `done` of these operations changed anything. */
  predicate EffectFree(ops: seq<Operation>, done: nat) {
    forall i :: 0 <= i < |ops| && i < done ==> !Mutates(ops[i])
  }

  /** The client's two replay tables hold read-only operations only. */
  lemma ReplayTablesAreReadOnly(op: Operation)
    requires ReplayableInPrefix(op) || ReplayableAfterRecovery(op)
    ensures !Mutates(op)
  {
  }

  /** A reply that the client answers by sending the same compound again after a
      delay reports no mutating operation as done. */
  lemma DelayedRetryIsEffectFree(tag: string, head: seq<Operation>, ops: seq<Operation>, response: CompoundResponse)
    requires |head| <= 1
    requires WellShaped(tag, OpCodes(head + ops), response)
    requires AllowsDelayedRetry(ops, response, |head|)
    ensures EffectFree(ops, if LeadingOk(response.results) < |head| then 0 else LeadingOk(response.results) - |head|)
  {
    hide Mutates, ReplayableInPrefix;
    var k := FirstDelayed(response).value;
    var done := LeadingOk(response.results);
    assert done <= k;
    if |head| <= k {
      forall i | 0 <= i < |ops| && i < done - |head| ensures !Mutates(ops[i]) {
        var prefix := ops[..k - |head|];
        assert prefix[i] == ops[i];
        ReplayTablesAreReadOnly(prefix[i]);
      }
    }
  }

  /** A reply that makes the client rebuild its session reports nothing as done. */
  lemma SessionErrorIsEffectFree(tag: string, ops: seq<Operation>, response: CompoundResponse)
    requires ops != [] && ops[0].Sequence?
    requires WellShaped(tag, OpCodes(ops), response)
    requires RequiresRecovery(response)
    ensures LeadingOk(response.results) == 0
  {
  }

  /** A compound the client is willing to replay on another session changes nothing,
      however often it runs. */
  lemma ReplayIsEffectFree(ops: seq<Operation>, done: nat)
    requires CanReplay(ops)
    ensures EffectFree(ops, done)
  {
    hide Mutates, ReplayableAfterRecovery;
    forall i | 0 <= i < |ops| && i < done ensures !Mutates(ops[i]) {
      ReplayTablesAreReadOnly(ops[i]);
    }
  }

  /** The client advances its slot exactly when the server accepted the SEQUENCE. */
  lemma SequenceSucceededMeansAccepted(tag: string, ops: seq<Operation>, response: CompoundResponse)
    requires ops != [] && ops[0].Sequence?
    requires WellShaped(tag, OpCodes(ops), response)
    ensures SequenceSucceeded(response) <==> LeadingOk(response.results) >= 1
  {
  }
}

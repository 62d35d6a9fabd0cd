/** The lease heartbeat: a worker thread that renews until it is told to stop or a renewal fails,
    and the owner that watches and stops it, step by step in every interleaving
    (src/v4/lease.rs:28-80). */
module Lease {
  /** Where the worker is: about to lock the stop flag, asleep on the condition variable, holding
      the lock again, past the check, inside `renew`, reporting a failure, or finished. */
  datatype Worker = Locking | Asleep | Awake | Leaving | Renewing | Failing | Ended

  /** Where the owner is: using the lease, about to set the flag in order to stop or to drop it,
      waiting for the thread to end, or done. */
  datatype Owner = Using | Stopping | Dropping | Joining | Stopped | Dropped

  datatype State = State(
    stop: bool, health: bool, panicked: bool, worker: Worker, owner: Owner,
    renewals: nat, lateRenewals: nat)

  const START := State(false, false, false, Locking, Using, 0, 0)

  datatype Action =
    | Lock            // the worker takes the lock and looks at the flag
    | Wake            // it wakes up with the lock: notified, or the interval is over
    | Check           // it looks at the flag once more and leaves the lock
    | StartRenewal
    | Renewed | RenewalFails | Panic
    | Report
    | CallStop | CallDrop
    | SetFlag
    | Join

  /** The worker keeps the lock only while it is awake with it. */
  predicate LockFree(s: State) {
    !s.worker.Awake?
  }

  function Do(s: State, a: Action): (r: State) {
    match a
    case Lock => if s.worker.Locking? then s.(worker := if s.stop then Awake else Asleep) else s
    case Wake => if s.worker.Asleep? then s.(worker := Awake) else s
    case Check => if s.worker.Awake? then s.(worker := if s.stop then Ended else Leaving) else s
    case StartRenewal =>
      if s.worker.Leaving? then
        s.(worker := Renewing, renewals := s.renewals + 1, lateRenewals := s.lateRenewals + if s.stop then 1 else 0)
      else s
    case Renewed => if s.worker.Renewing? then s.(worker := Locking) else s
    case RenewalFails => if s.worker.Renewing? then s.(worker := Failing) else s
    case Panic => if s.worker.Renewing? then s.(worker := Ended, panicked := true) else s
    case Report => if s.worker.Failing? then s.(worker := Ended, health := true) else s
    case CallStop => if s.owner.Using? then s.(owner := Stopping) else s
    case CallDrop => if s.owner.Using? then s.(owner := Dropping) else s
    case SetFlag =>
      if LockFree(s) && s.owner.Stopping? then s.(stop := true, owner := Joining)
      else if LockFree(s) && s.owner.Dropping? then s.(stop := true, owner := Dropped)
      else s
    case Join => if s.owner.Joining? && s.worker.Ended? then s.(owner := Stopped) else s
  }

  /** What the owner sees: the health flag, or a thread that is no longer running. */
  predicate Failed(s: State) {
    s.health || s.worker.Ended?
  }

  function After(s: State, actions: seq<Action>): State
    decreases |actions|
  {
    if actions == [] then s else After(Do(s, actions[0]), actions[1..])
  }

  ghost predicate Reachable(s: State) {
    exists actions :: s == After(START, actions)
  }

  /** What every interleaving keeps. */
  predicate Inv(s: State) {
    && (s.stop <==> s.owner.Joining? || s.owner.Stopped? || s.owner.Dropped?)
    && (s.owner.Stopped? ==> s.worker.Ended?)
    && (s.worker.Ended? ==> s.stop || s.health || s.panicked)
    && (s.health || s.panicked ==> s.worker.Ended?)
    && (s.stop && s.worker.Leaving? ==> s.lateRenewals == 0)
    && s.lateRenewals <= 1
    && (!s.stop ==> s.lateRenewals == 0)
  }

  lemma InvHolds(s: State, a: Action)
    requires Inv(s)
    ensures Inv(Do(s, a))
  {
  }

  lemma {:induction false} InvAfter(s: State, actions: seq<Action>)
    requires Inv(s)
    ensures Inv(After(s, actions))
    decreases |actions|
  {
    if actions != [] {
      InvHolds(s, actions[0]);
      InvAfter(Do(s, actions[0]), actions[1..]);
    }
  }

  lemma ReachableIsInv(s: State)
    requires Reachable(s)
    ensures Inv(s)
  {
    var actions :| s == After(START, actions);
    InvAfter(START, actions);
  }

  /** Once `stop` has returned, nothing the threads do starts another renewal, so a session that
      is destroyed after that is never renewed on. */
  lemma {:induction false} NoRenewalAfterStop(s: State, actions: seq<Action>)
    requires Inv(s) && s.owner.Stopped?
    ensures After(s, actions) == s
    decreases |actions|
  {
    if actions != [] {
      assert Do(s, actions[0]) == s;
      NoRenewalAfterStop(s, actions[1..]);
    }
  }

  /** Between the request to stop and its return at most one renewal starts. */
  lemma AtMostOneLateRenewal(s: State)
    requires Reachable(s)
    ensures s.lateRenewals <= 1
  {
    ReachableIsInv(s);
  }

  /** A worker that ended without being stopped is noticed, and had a reason: a renewal that
      failed or panicked. While a healthy worker runs nobody sees a failure. */
  lemma DeadWorkerIsNoticed(s: State)
    requires Reachable(s) && !s.stop
    ensures Failed(s) <==> s.health || s.panicked
    ensures s.worker.Ended? <==> s.health || s.panicked
  {
    ReachableIsInv(s);
  }

  /** How many steps of its own a worker that was told to stop still takes at most. */
  function Left(w: Worker): nat {
    match w
    case Leaving => 5 case Renewing => 4 case Locking => 3 case Asleep => 3
    case Awake => 1 case Failing => 1 case Ended => 0
  }

  function WorkerSteps(s: State): set<Action> {
    match s.worker
    case Locking => {Lock} case Asleep => {Wake} case Awake => {Check} case Leaving => {StartRenewal}
    case Renewing => {Renewed, RenewalFails, Panic} case Failing => {Report} case Ended => {}
  }

  /** `stop` returns: told to stop, a worker that has not ended always has a step to take, whatever
      the owner does, every one of its steps brings it closer to the end, and no other step takes it
      further away; when it has ended, the owner's wait is over. */
  lemma StopReturns(s: State, a: Action)
    requires Inv(s) && s.stop
    ensures !s.worker.Ended? ==> WorkerSteps(s) != {}
    ensures a in WorkerSteps(s) ==> Left(Do(s, a).worker) < Left(s.worker)
    ensures a !in WorkerSteps(s) ==> Do(s, a).worker == s.worker
    ensures s.worker.Ended? && s.owner.Joining? ==> Do(s, Join).owner.Stopped?
  {
  }

  function CountWorkerSteps(s: State, actions: seq<Action>): nat
    decreases |actions|
  {
    if actions == [] then 0
    else (if actions[0] in WorkerSteps(s) then 1 else 0) + CountWorkerSteps(Do(s, actions[0]), actions[1..])
  }

  /** Whatever the schedule, a worker told to stop takes at most five more steps, and has ended
      once it took as many as it had left. */
  lemma {:induction false} StoppedWorkerEnds(s: State, actions: seq<Action>)
    requires Inv(s) && s.stop
    ensures CountWorkerSteps(s, actions) + Left(After(s, actions).worker) <= Left(s.worker) <= 5
    ensures CountWorkerSteps(s, actions) == Left(s.worker) ==> After(s, actions).worker.Ended?
    decreases |actions|
  {
    if actions != [] {
      StopReturns(s, actions[0]);
      InvHolds(s, actions[0]);
      StoppedWorkerEnds(Do(s, actions[0]), actions[1..]);
    }
  }
}

/** Byte-range locks the client tracks (src/v4/client.rs:520-598). */
module Locks {
  import opened Errors
  import opened Compound
  import opened Runs

  /** The shared cell behind a lock token and its registry entry. */
  class LockCell {
    var state: LockState

    constructor (state: LockState)
      ensures this.state == state
    {
      this.state := state;
    }
  }

  /** The lock itself is the same; a loss is never taken back. */
  predicate SameLock(a: LockState, b: LockState) {
    && b == a.(clientId := b.clientId, openStateid := b.openStateid, lockStateid := b.lockStateid,
               lockSeqid := b.lockSeqid, lost := b.lost)
    && (a.lost.Some? ==> b.lost.Some?)
  }

  lemma SameLockTransitive(a: LockState, b: LockState, c: LockState)
    requires SameLock(a, b) && SameLock(b, c)
    ensures SameLock(a, c)
  {
  }

  lemma SameLockReflexive(lock: LockState)
    ensures SameLock(lock, lock)
  {
  }

  /** What the server hands out when it grants this range to this client id. */
  function GrantOf(lock: LockState): LockGrant {
    LockGrant(lock.clientId, lock.handle, lock.owner, lock.lockType, lock.offset, lock.length, lock.lockStateid)
  }

  lemma GrantIs(lock: LockState)
    ensures GrantOf(lock) == LockGrant(lock.clientId, lock.handle, lock.owner, lock.lockType, lock.offset, lock.length,
                                       lock.lockStateid)
  {
  }

  /** The server granted exactly this open and this range to this client id. */
  predicate Held(sum: Summary, lock: LockState) {
    && OpenGrant(lock.clientId, lock.openOwner, lock.openStateid) in sum.opens
    && GrantOf(lock) in sum.locks
  }

  /** A tracked lock not known to be lost was granted under an id no older than any id whose
      reclaim was declared complete; a lost one was reported as lost. */
  ghost predicate LockOk(sum: Summary, lock: LockState) {
    if lock.lost.None? then
      && Held(sum, lock)
      && lock.clientId <= sum.current
      && forall k :: k in sum.completing ==> k <= lock.clientId
    else
      LossFound(sum, lock, lock.lost.value)
  }

  lemma LockOkStays(a: Summary, b: Summary, lock: LockState)
    requires LockOk(a, lock) && a.findings <= b.findings
    requires a.opens <= b.opens && a.locks <= b.locks && a.current <= b.current && a.completing == b.completing
    ensures LockOk(b, lock)
  {
  }

  lemma LossStays(a: Summary, b: Summary, lock: LockState, status: Status)
    requires LossFound(a, lock, status) && a.findings <= b.findings
    ensures LossFound(b, lock, status)
  {
  }

  /** What the server reports about a lock does not depend on what the client made of it. */
  lemma LossOfLost(sum: Summary, lock: LockState, lost: Option<Status>, status: Status)
    requires LossFound(sum, lock, status)
    ensures LossFound(sum, lock.(lost := lost), status)
  {
    hide Reports;
    var f :| f in sum.findings && f.openOwner == lock.openOwner && AsksAbout(f.ops, lock)
             && Reports(f.response, status);
    assert AsksAbout(f.ops, lock.(lost := lost));
  }

  lemma LostIsFound(sum: Summary, lock: LockState)
    requires LockOk(sum, lock) && lock.lost.Some?
    ensures LossFound(sum, lock, lock.lost.value)
  {
  }

  /** The four compounds that ask about a lock. */
  lemma RecoveryAsks(lock: LockState, client: nat, openStateid: StateId, delegation: StateId)
    ensures AsksAbout([TestStateIds([lock.openStateid, lock.lockStateid])], lock)
    ensures AsksAbout([PutFh(lock.handle), Open(client, lock.openOwner, true)], lock)
    ensures AsksAbout([PutFh(lock.handle),
                       Lock(client, lock.owner, true, lock.lockType, lock.offset, lock.length, openStateid)], lock)
    ensures AsksAbout([PutFh(lock.handle), DelegReturn(delegation)], lock)
  {
  }

  lemma LossIsOk(a: Summary, b: Summary, lock: LockState, status: Status)
    requires LossFound(a, lock, status) && a.findings <= b.findings
    ensures LockOk(b, lock.(lost := Some(status))) && SameLock(lock, lock.(lost := Some(status)))
  {
    LossStays(a, b, lock, status);
    LossOfLost(b, lock, Some(status), status);
  }

  /** The registry without one cell. */
  function Without(cells: seq<LockCell>, cell: LockCell): (r: seq<LockCell>)
    ensures |r| <= |cells|
    ensures forall i :: 0 <= i < |r| ==> r[i] in cells && r[i] != cell
    ensures forall i :: 0 <= i < |cells| && cells[i] != cell ==> cells[i] in r
  {
    if cells == [] then []
    else if cells[0] == cell then Without(cells[1..], cell)
    else [cells[0]] + Without(cells[1..], cell)
  }

  predicate Distinct(cells: seq<LockCell>) {
    forall i, j :: 0 <= i < j < |cells| ==> cells[i] != cells[j]
  }

  lemma {:induction false} WithoutStaysDistinct(cells: seq<LockCell>, cell: LockCell)
    requires Distinct(cells)
    ensures Distinct(Without(cells, cell))
  {
    if cells != [] {
      var rest := cells[1..];
      WithoutStaysDistinct(rest, cell);
      assert cells[0] !in rest;
    }
  }

  /** Removing a cell removes only that cell. */
  lemma WithoutKeepsOthers(cells: seq<LockCell>, cell: LockCell)
    ensures forall i :: 0 <= i < |cells| ==> cells[i] == cell || cells[i] in Without(cells, cell)
  {
  }

  /** Marking some lock as released or lost takes nothing from another one. */
  lemma MarkKeepsOthers(a: Summary, b: Summary, clientId: nat, session: nat, lock: LockState)
    requires b == a.(released := b.released, lost := b.lost)
    ensures LockOk(a, lock) ==> LockOk(b, lock)
    ensures Confirmed(a, clientId, session, lock) ==> Confirmed(b, clientId, session, lock)
  {
  }

  /** Confirmed for the session in use: the server granted or vouched for both stateids on it. */
  predicate Confirmed(sum: Summary, clientId: nat, session: nat, lock: LockState) {
    lock.lost.None? ==>
      lock.clientId == clientId && Vouch(session, lock.openStateid, lock.lockStateid) in sum.vouched
  }

  /** Since a point of the trace, the client asked the server about the lock with this open owner. */
  predicate AskedAbout(trace: seq<Sent>, since: nat, openOwner: nat) {
    exists j :: since <= j < |trace| && trace[j].tag == Recovery(Some(openOwner))
  }

  /** What recovery sent between two moments is about one lock, or about none. */
  predicate OnlyAbout(t0: seq<Sent>, t1: seq<Sent>, subject: Option<nat>) {
    t0 <= t1 && forall j :: |t0| <= j < |t1| && t1[j].tag.Recovery? ==> t1[j].tag.subject == subject
  }

  lemma OnlyAboutExtends(t0: seq<Sent>, t1: seq<Sent>, e: Sent, subject: Option<nat>)
    requires OnlyAbout(t0, t1, subject) && (e.tag.Recovery? ==> e.tag.subject == subject)
    ensures OnlyAbout(t0, t1 + [e], subject)
  {
  }

  lemma OnlyAboutReflexive(t: seq<Sent>, subject: Option<nat>)
    ensures OnlyAbout(t, t, subject)
  {
  }

  lemma OnlyAboutCompose(t0: seq<Sent>, t1: seq<Sent>, t2: seq<Sent>, subject: Option<nat>)
    requires OnlyAbout(t0, t1, subject) && OnlyAbout(t1, t2, subject)
    ensures OnlyAbout(t0, t2, subject)
  {
  }

  lemma OthersNotAsked(t0: seq<Sent>, t1: seq<Sent>, since: nat, subject: Option<nat>, other: nat)
    requires OnlyAbout(t0, t1, subject) && subject != Some(other) && !AskedAbout(t0, since, other)
    ensures !AskedAbout(t1, since, other)
  {
    forall j | since <= j < |t1| ensures t1[j].tag != Recovery(Some(other)) {
      if j < |t0| {
        assert t1[j] == t0[j];
      }
    }
  }

  lemma NotAskedYet(trace: seq<Sent>, openOwner: nat)
    ensures !AskedAbout(trace, |trace|, openOwner)
  {
  }

  /** Settling the locks one after the other got as far as lock `k`: those before it are lost or
      confirmed on the session, it and those behind it are as they were, and those behind it
      have not been asked about. */
  predicate SettledUpTo(trace: seq<Sent>, since: nat, before: seq<LockState>, after: seq<LockState>, sum: Summary,
                        client: nat, session: nat, k: nat)
  {
    && |before| == |after| && k <= |after|
    && (forall i :: 0 <= i < k ==> Confirmed(sum, client, session, after[i]))
    && (forall i :: k <= i < |after| ==> after[i] == before[i])
    && (forall i :: k < i < |after| ==> !AskedAbout(trace, since, after[i].openOwner))
  }

  /** Settling stopped at one of the locks. */
  ghost predicate SettledInPart(trace: seq<Sent>, since: nat, before: seq<LockState>, after: seq<LockState>,
                                sum: Summary, client: nat, session: nat)
  {
    exists k: nat :: k < |after| && SettledUpTo(trace, since, before, after, sum, client, session, k)
  }

  /** Nothing was sent that is about no lock, as RECLAIM_COMPLETE is. */
  predicate NotDeclared(trace: seq<Sent>, since: nat) {
    forall j :: since <= j < |trace| ==> trace[j].tag != Recovery(None)
  }

  lemma NotDeclaredYet(trace: seq<Sent>)
    ensures NotDeclared(trace, |trace|)
  {
  }

  lemma NotDeclaredStays(t0: seq<Sent>, t1: seq<Sent>, since: nat, subject: nat)
    requires NotDeclared(t0, since) && OnlyAbout(t0, t1, Some(subject))
    ensures NotDeclared(t1, since)
  {
    forall j | since <= j < |t1| ensures t1[j].tag != Recovery(None) {
      if j < |t0| {
        assert t1[j] == t0[j];
      }
    }
  }

  /** Each lock finished is kept on this session, and all were finished before anything else
      was sent on it. */
  ghost predicate SettledOn(trace: seq<Sent>, since: nat, before: seq<LockState>, after: seq<LockState>,
                            sum: Summary, client: nat, session: nat)
  {
    || SettledUpTo(trace, since, before, after, sum, client, session, |after|)
    || (SettledInPart(trace, since, before, after, sum, client, session) && NotDeclared(trace, since))
  }

  /** A recovery that began at the end of `trace0` and stopped part way did not get as far as the
      locks, or keeps each lock it finished on one session that is new since then. */
  ghost predicate KeepsSettled(trace0: seq<Sent>, start: Summary, trace: seq<Sent>, sum: Summary,
                               before: seq<LockState>, after: seq<LockState>)
  {
    || (after == before && OnlySetup(trace0, trace))
    || exists client, session ::
         && session !in start.slots && session in sum.slots && sum.slots[session].client == client
         && SettledOn(trace, |trace0|, before, after, sum, client, session)
  }

  /** Only compounds outside any session were sent. */
  predicate OnlySetup(t0: seq<Sent>, t1: seq<Sent>) {
    t0 <= t1 && forall j :: |t0| <= j < |t1| ==> t1[j].tag.Setup?
  }

  lemma OnlySetupReflexive(t: seq<Sent>)
    ensures OnlySetup(t, t)
  {
  }

  lemma OnlySetupExtends(t0: seq<Sent>, t1: seq<Sent>, e: Sent)
    requires OnlySetup(t0, t1) && e.tag.Setup?
    ensures OnlySetup(t0, t1 + [e])
  {
  }

  lemma OnlySetupCompose(t0: seq<Sent>, t1: seq<Sent>, t2: seq<Sent>)
    requires OnlySetup(t0, t1) && OnlySetup(t1, t2)
    ensures OnlySetup(t0, t2)
  {
  }

  lemma SettledAt(trace: seq<Sent>, since: nat, before: seq<LockState>, after: seq<LockState>, sum: Summary,
                  client: nat, session: nat, k: nat)
    requires |before| == |after| && k < |after|
    requires forall i :: 0 <= i < k ==> Confirmed(sum, client, session, after[i])
    requires forall i :: k <= i < |after| ==> after[i] == before[i]
    requires forall i :: k < i < |after| ==> !AskedAbout(trace, since, after[i].openOwner)
    ensures SettledInPart(trace, since, before, after, sum, client, session)
  {
    hide Confirmed, AskedAbout;
    assert SettledUpTo(trace, since, before, after, sum, client, session, k);
  }

  lemma ConfirmedStays(a: Summary, b: Summary, client: nat, session: nat, lock: LockState)
    requires Confirmed(a, client, session, lock) && a.vouched <= b.vouched
    ensures Confirmed(b, client, session, lock)
  {
  }

  lemma NothingSettled(trace0: seq<Sent>, start: Summary, trace: seq<Sent>, sum: Summary, states: seq<LockState>)
    requires OnlySetup(trace0, trace)
    ensures KeepsSettled(trace0, start, trace, sum, states, states)
  {
  }

  lemma AllSettled(trace: seq<Sent>, since: nat, before: seq<LockState>, after: seq<LockState>, sum: Summary,
                   client: nat, session: nat)
    requires |before| == |after| && forall i :: 0 <= i < |after| ==> Confirmed(sum, client, session, after[i])
    ensures SettledOn(trace, since, before, after, sum, client, session)
  {
    hide Confirmed, SettledInPart, NotDeclared;
  }

  /** Before the session was connected nothing was asked about any lock. */
  lemma SettledSince(trace0: seq<Sent>, trace1: seq<Sent>, trace: seq<Sent>, before: seq<LockState>,
                     after: seq<LockState>, sum: Summary, client: nat, session: nat)
    requires OnlySetup(trace0, trace1) && trace1 <= trace && NotDeclared(trace, |trace1|)
    requires SettledInPart(trace, |trace1|, before, after, sum, client, session)
    ensures SettledOn(trace, |trace0|, before, after, sum, client, session)
  {
    hide Confirmed;
    var k: nat :| k < |after| && SettledUpTo(trace, |trace1|, before, after, sum, client, session, k);
    assert forall j :: |trace0| <= j < |trace1| ==> trace[j] == trace1[j] && trace[j].tag.Setup?;
    forall i | k < i < |after| ensures !AskedAbout(trace, |trace0|, after[i].openOwner) {
      forall j | |trace0| <= j < |trace| ensures trace[j].tag != Recovery(Some(after[i].openOwner)) {
        if j >= |trace1| {
          assert !AskedAbout(trace, |trace1|, after[i].openOwner);
        }
      }
    }
    assert SettledUpTo(trace, |trace0|, before, after, sum, client, session, k);
  }

  lemma IsSettled(trace0: seq<Sent>, start: Summary, trace: seq<Sent>, sum: Summary, before: seq<LockState>,
                  after: seq<LockState>, client: nat, session: nat)
    requires SettledOn(trace, |trace0|, before, after, sum, client, session)
    requires session !in start.slots && session in sum.slots && sum.slots[session].client == client
    ensures KeepsSettled(trace0, start, trace, sum, before, after)
  {
    hide SettledOn;
  }
}

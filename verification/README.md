# A model of an NFS client

The project models the parts of a Rust NFS client whose correctness is hard to see from the
code: the NFSv4 session client with its recovery and lock reclaim, the RPC connection under it,
the lease heartbeat beside it, and the NFSv3 file operations over servers that crash, lose replies
and cut transfers short. Servers and networks are adversaries: a script decides request by request
what is executed and what comes back, and every theorem is for all scripts.

| file | what it models |
|---|---|
| `Errors.dfy` | the error value and its recursive classifiers |
| `Compound.dfy` | COMPOUND operations and replies, the shape check, the replay and retry tables |
| `Runs.dfy` | whole runs as traces of compounds; what is assumed of the server (`ServerOk`), what the client guarantees (`ClientOk`), and the theorems about every run |
| `Wire.dfy` | the scripted server and the connection as the session client sees it |
| `Locks.dfy` | the locks a client tracks and what the server has said about them |
| `Progress.dfy` | what may be sent, and the relations between two moments of a run |
| `Sessions.dfy` | the session client: sending, recovery, reclaim, opening, locking, unlocking |
| `Scenarios.dfy` | how a client and its session slot drift apart and come together again |
| `Lease.dfy` | the heartbeat thread and its owner, in every interleaving |
| `Xdr.dfy`, `Credentials.dfy` | the XDR codec and AUTH_SYS credentials |
| `Records.dfy` | record marking, reply decoding, and calls with failures and cancellation |
| `Transfer.dfy` | writing with COMMIT under crashes, reading, copying, transfer sizes |
| `Paths.dfy`, `Trees.dfy` | path strings and recursive removal |
| `Replace.dfy` | atomic replacement of a file |
| `Listing.dfy` | directory listing by cookies |

How a run is put together: `World` holds the trace of everything that reached the wire and its
fold, the `Summary`. `Client` is a class with the source's fields; lock tokens and the registry
share `LockCell` objects, and a recovery hands the same cells to the session that takes over.
`Client.Valid` is the invariant of the whole client, kept by every operation on every path;
`UseClient` shows that every sequence of calls produces a `Run`, so that the theorems of `Runs`
apply to it. A tag on each compound says which sender it came from; a recovery compound's tag names
the lock it is about by its unique open owner, `ClientOk` ties that name to the operations of a
reclaim, and a loss counts as reported only by a compound whose operations ask about that lock
(`AsksAbout`). Two kinds of entries in the trace are marks at which nothing is sent: the client gives
up a lock, and `unlock` accepts a token. `Client.Valid` ties both to the registry.

Assumed of the server: an operation is done only behind an accepted SEQUENCE with the expected id. A
reply that decodes and has the right shape tells the truth about what was done, except that a
request which names the id accepted last is taken for a retry: it is not done, and what is answered
comes from the reply cache of the slot (sections 2.10.6.1 and 18.46.3 of RFC 8881) and may report
anything. DELAY, GRACE and a failed SEQUENCE mean "not done", and so does a rejection by the RPC layer.
Client ids are not reissued and session ids are new. Nothing is assumed about which requests and
replies get through.

What the proofs brought to light:

- A COMPOUND reply that does not decode, or fails the shape check, is reported as a protocol error
  while connection and session stay in use (`Scenarios.FallBehind`). If the server had accepted the
  request, the client is one increment behind: the next request, whatever it is, names a used-up
  sequence id, is taken for a retry and is not done, and its caller gets the answer the server has
  for the retry (`Scenarios.AskWhileBehind`; `Scenarios.TwoRequests` is such a run). As all requests
  ask the server not to keep their replies (src/v4/blocking.rs:855, 3581), that answer is normally
  SEQUENCE OK followed by NFS4ERR_RETRY_UNCACHED_REP, after which client and slot agree again. Sequence
  ids agree, and answers can be believed, exactly while no increment is missing
  (`Runs.SlotAgreement`, `Runs.AnswerTellsTruth`).
- Past 2^32 - 1 requests the client's id skips 0 and the server's does not (`Runs.SlotVerdict`).
- A lost reply to a compound that may not be replayed is always reported as an unknown outcome
  (`CompoundStatus`). For a replayable compound it need not be: the replay can end with another
  error, which does no harm since nothing was changed.
- The NFSv4 read loop takes an empty answer for the end of the file. That is right for every
  transfer size but 0 (`Reader.ReadOpenedToEnd`), and negotiation never yields 0
  (`NegotiatedSizeIsUsable`).
- The temporary file of `write_atomic` stays behind, with no removal tried, if the server created it and the
  reply was lost; unless a removal was tried and failed, in no other case (`Replace.Volume.WriteAtomic`).
- A directory entry with an empty name would lead `remove_all` back to the same directory
  (`Paths.EmptyNameIsTheDirectory`); whatever the name, it never leads outside it
  (`Paths.JoinStaysInside`).

## Model

| member | source | states |
|---|---|---|
| `Runs.ReclaimOrdering` | src/v4/blocking.rs:652-712 | in every run, interrupted recoveries included, once a RECLAIM_COMPLETE went out for a client id nothing is reclaimed under that id any more |
| `Runs.ForegroundFollowsCompletion` | src/v4/blocking.rs:701-712 | in every run, an application compound travels on a session only after a RECLAIM_COMPLETE was accepted on that same session |
| `Runs.SlotAgreement` | src/v4/blocking.rs:3574-3602 | in every run, a session is not sequenced on again after a lost reply; below the 32-bit wrap the client's sequence id is the one the server's slot expects if and only if no missed increment is still to be made up, and otherwise it is the id accepted last |
| `Runs.AnswerTellsTruth` | src/v4/blocking.rs:3574-3602 | in every run, what an answer reports as done was done by this very request if and only if the client was not behind on the session or nothing is reported as done; a request sent while behind is never done |
| `Runs.BehindChanges` | src/v4/blocking.rs:859-861 | the client falls behind exactly by an undecodable reply to an accepted request, catches up exactly by the next answer with SEQUENCE OK, and is never more than one increment behind |
| `Runs.GrantIsGiven` | src/v4/blocking.rs:3574-3602 | an answer that grants a lock comes from a LOCK the server did for this request if and only if the client was not behind |
| `Runs.SequenceIdSent` | src/v4/blocking.rs:846-871 | the sequence id of every compound of all three senders, as a function of the requests accepted on its session and of whether an increment was missed and not made up |
| `Runs.SlotVerdict` | src/v4/blocking.rs:859-861 | client and server count alike exactly up to the wrap, where the client skips 0 and the server does not; one increment behind, the client names the id accepted last |
| `Runs.NextSeqidAdvancesSlot` | src/v4/blocking.rs:859-861 | the client's `wrapping_add(1).max(1)` steps through the ids a slot starting at 1 goes through |
| `Runs.AcceptedBelowWrap` | src/v4/blocking.rs:859-861 | no run gets more than 2^32 - 1 requests accepted on one slot |
| `Runs.LostLockGate` | src/v4/blocking.rs:3569-3571 | in every run, from the moment the client gives up a registered lock until the application unlocks that lock, the application sends nothing but pure state release |
| `Runs.LossIsFound` | src/v4/blocking.rs:685-697 | in every run, before the client gives up a lock the server answered a compound that asks about this very lock (both stateids, the reclaim of its OPEN or range, or the return of its delegation), and the answer reports the status kept as the reason |
| `Runs.OperationsNameTheirClient` | src/v4/blocking.rs:3552-3627 | in every run, each OPEN, LOCK, LOCKT and RELEASE_LOCKOWNER names the client id of the session it travels on |
| `Runs.ReleasedIsNeverReclaimed` | src/v4/blocking.rs:1084-1088 | in every run, after `unlock` accepted a token no OPEN of its owner is reclaimed, and every reclaiming LOCK builds on an open stateid the server gave to another owner |
| `Runs.LockReclaimFollowsOpen` | src/v4/blocking.rs:775-819 | in every run, a reclaiming LOCK builds on an open stateid the server granted earlier for the same lock under the same client id |
| `Runs.AtMostOnce` | src/v4/blocking.rs:3572-3626 | sends of one compound of which only the last may have had an effect execute each mutating operation at most once |
| `Runs.SlotMeansTrace` | src/v4/blocking.rs:846-871 | the folded slot state says of the trace what was accepted, whether an increment is missing, whether a reply was lost and whether the completion was answered as accepted |
| `Runs.CompletingMeansTrace` | src/v4/blocking.rs:701-704 | the folded set of completing client ids is exactly the ids a RECLAIM_COMPLETE was sent for |
| `Runs.CompletedIsCompleting` | src/v4/blocking.rs:701-704 | a session whose RECLAIM_COMPLETE was accepted belongs to an id whose completion was sent |
| `Runs.GrantsComeFromTrace` | src/v4/blocking.rs:775-843 | behind every recorded grant, confirmation and finding stands an answered compound of the trace |
| `Compound.ShapeCheckAcceptsExactlyWellShaped` | src/v4/client.rs:146-218 | the reply check, test by test, accepts exactly the replies a COMPOUND can have: results in order, all done but possibly the last, whose status is the compound's |
| `Compound.ReplayTablesAreReadOnly` | src/v4/client.rs:246-396 | both replay tables hold only operations that change nothing on the server, against a list of mutating operations drawn up from the standards |
| `Compound.DelayedRetryIsEffectFree` | src/v4/client.rs:51-84 | a reply answered by sending the compound again reports no mutating operation as done |
| `Compound.SessionErrorIsEffectFree` | src/v4/client.rs:86-91 | a reply that makes the client rebuild its session reports nothing as done |
| `Compound.ReplayIsEffectFree` | src/v4/client.rs:226-230 | a compound the client replays on another session changes nothing, however much of it runs |
| `Compound.SequenceSucceededMeansAccepted` | src/v4/client.rs:10-15 | the client counts its slot up exactly when the server accepted the SEQUENCE |
| `Compound.ErrorsAreReported` | src/v4/client.rs:916-929 | every status error drawn from a reply stands in that reply |
| `Errors.CleanupKeepsVerdict` | src/error.rs:120-152 | a failed cleanup attached to an error changes neither whether its outcome is unknown nor whether it may be retried, and hides no lost state or broken session |
| `Errors.UnknownOutcomeIsNotRetryable` | src/error.rs:206-217 | however deeply nested, an error that may hide an executed request is never offered for retry |
| `Wire.DeliveryIsServerOk` | src/v4/blocking.rs:4709-4747 | every exchange of the scripted server meets the stated assumptions, answers from the slot's reply cache included; the client is told of an answer exactly when one was recorded, and exactly a lost reply poisons the connection |
| `Wire.EveryExchangeOccurs` | src/v4/blocking.rs:4709-4747 | conversely, every exchange the assumptions allow is one a script can produce, so the theorems are about all of them |
| `Wire.Rpc.RawCompound` | src/v4/blocking.rs:4709-4747 | sends one COMPOUND that extends the run; on a poisoned connection nothing leaves |
| `Wire.World.MarkUnlocking` | src/v4/blocking.rs:1085-1088 | records the moment a token is given up; the run goes on with that owner released |
| `Wire.World.MarkLosing` | src/v4/blocking.rs:694-697 | records the moment a lock is given up, which needs an answer that reports the reason |
| `Sessions.Client.SendSequenced` | src/v4/blocking.rs:849-861 | prepends SEQUENCE, exchanges, and counts the slot up exactly on acceptance, keeping client and slot in agreement |
| `Sessions.Client.RecoveryCompound` | src/v4/blocking.rs:845-871 | recovery sending waits out delays, never starts a recovery, touches only its own session, and adds nothing of the application's |
| `Sessions.Client.CheckRecoveredLock` | src/v4/blocking.rs:760-773 | Ok means the server confirmed both stateids on this session; a status error is one the server gave for this lock; nothing is asked about another lock |
| `Sessions.Client.ReclaimOpen` | src/v4/blocking.rs:775-801 | Ok means the server granted the OPEN to the lock's own owner under this client id |
| `Sessions.Client.ReclaimRange` | src/v4/blocking.rs:802-843 | Ok means the server granted exactly the lock's range on that OPEN; after a refusal a CLOSE of that OPEN went out, unless a request did not get out at all |
| `Sessions.Client.ReclaimLock` | src/v4/blocking.rs:775-843 | the reclaimed state is the same lock, held under the new client id and vouched for on this session |
| `Sessions.Client.RestoredState` | src/v4/blocking.rs:676-696 | a lock comes out confirmed, reclaimed, or lost for a status the server gave when asked about it; any other error interrupts |
| `Sessions.Client.RestoreLock` | src/v4/blocking.rs:676-699 | settles one entry and no other, asking about no other lock; a loss is marked in the run; an interruption leaves the entry untouched |
| `Sessions.Client.RestoreLocks` | src/v4/blocking.rs:675-700 | every tracked lock stays the same lock; Ok means each is lost or confirmed on this session; after an interruption at one lock those before it are so settled, it and those behind it are as they were, and those behind it have not been asked about; nothing but what is about a lock is sent |
| `Sessions.Client.CompleteReclaim` | src/v4/blocking.rs:701-704 | Ok means the RECLAIM_COMPLETE was accepted on this session |
| `Sessions.Client.RefreshRecoveredFsinfo` | src/v4/blocking.rs:714-737 | limits are read again by recovery compounds on the own session only |
| `Sessions.Client.CompleteAndRefresh` | src/v4/blocking.rs:701-707 | Ok means the RECLAIM_COMPLETE was accepted on this session; registry and confirmations are kept, on an error too |
| `Sessions.Client.FinishRecovery` | src/v4/blocking.rs:701-708 | after the completion and the limits the heartbeat; Ok means the completion was accepted on this session, and registry and confirmations are kept, on an error too |
| `Sessions.Client.SetupCompound` | src/v4/blocking.rs:4749-4768 | session-less sending leaves every existing session as it was |
| `Sessions.Client.CreateNewSession` | src/v4/blocking.rs:3693-3728 | Ok yields a session that did not exist before, at sequence id 1, for the newest client id; no other session is made |
| `Sessions.Client.ConnectSessionMinor` | src/v4/blocking.rs:3675-3803 | a client on a new, usable session, completed if asked for; a session made on the way to an error was destroyed, or the error says that its cleanup failed |
| `Sessions.Client.CleanUpSetup` | src/v4/blocking.rs:4808-4835 | the session was destroyed and the error is as it was, or the error says that the cleanup failed |
| `Sessions.Client.ConnectSession` | src/v4/blocking.rs:3648-3673 | a client on a new session, or an error; no session made on the way is left behind unless the error says that its cleanup failed |
| `Sessions.Client.StopLeaseRenewal` | src/v4/blocking.rs:3467-3480 | ends the heartbeat and disturbs no other session; Ok means the server destroyed its session or no longer knew it |
| `Sessions.Client.StartLeaseRenewal` | src/v4/blocking.rs:3482-3508 | Ok with a heartbeat asked for means its session carries the same client id; reclaim is not declared complete and no other session is touched |
| `Sessions.Client.Reconnect` | src/v4/blocking.rs:656-669 | ends; a new session with reclaim undeclared, or an error, and no session made on the way is left behind unless its cleanup failed |
| `Sessions.Client.ConnectReplacement` | src/v4/blocking.rs:655-674 | the replacement shares the lock cells of the client it replaces |
| `Sessions.Client.PrepareTakeover` | src/v4/blocking.rs:671-708 | the new session restores the locks and then declares reclaim complete; interrupted at a lock, it keeps those before it on this session and its client id; interrupted after anything else was sent, it keeps all of them |
| `Sessions.Client.BuildReplacement` | src/v4/blocking.rs:652-708 | a replacement is handed over only with all locks settled and its reclaim declared complete; otherwise each lock finished so far is kept |
| `Sessions.Client.Adopt` | src/v4/blocking.rs:709-709 | the client becomes the rebuilt one and is recovered |
| `Sessions.Client.Abandon` | src/v4/blocking.rs:710-710 | on a usable connection DESTROY_SESSION for the old session went out, unless the request did not get out at all; neither the new session nor the locks are disturbed |
| `Sessions.Client.RecoverSession` | src/v4/blocking.rs:652-712 | keeps the whole-client invariant and the number and identity of all tokens; Ok means a new session with every lock confirmed; an interruption leaves the recovery pending on the old session and keeps each lock finished so far on the session it was finished on; a lost lock is an error on the new session |
| `Sessions.Client.EnsureValid` | src/v4/client.rs:590-597 | succeeds exactly when no tracked lock is lost |
| `Sessions.Client.CheckRevokedLock` | src/v4/blocking.rs:739-757 | a lock that is not marked lost was confirmed by the server since the announcement; a loss carries a status the server gave for one of its stateids |
| `Sessions.Client.CheckRevokedLocks` | src/v4/blocking.rs:739-758 | Ok means each tracked lock is lost or was confirmed by the server since the announcement; none is dropped, and no loss is taken back |
| `Sessions.Client.LoseLock` | src/v4/blocking.rs:750-754 | keeps the status the server gave as the reason of the loss and marks the loss in the run, changing no other entry; on a usable connection FREE_STATEID went out unless the request did not get out at all |
| `Sessions.Client.SendForeground` | src/v4/blocking.rs:3574-3585 | exactly one exchange of one application compound on the wire; needs the loss gate open, which is a property of the run |
| `Sessions.Client.RecoverInCall` | src/v4/blocking.rs:3587-3598 | recovery in the middle of a call leaves a new session or a pending recovery; what may be replayed names no client id and so stays valid |
| `Sessions.Client.OneTurn` | src/v4/blocking.rs:3574-3625 | one sending and the decision after it: another turn only if the sending changed nothing, an unknown outcome reported as such |
| `Sessions.Client.AfterAnswer` | src/v4/blocking.rs:3600-3625 | revocation first, then session errors, then delays, else the answer; a session error is met by a recovery, and an answer that announces revocation is handed over only after every tracked lock was confirmed or found lost |
| `Sessions.Client.PrepareToSend` | src/v4/blocking.rs:3552-3571 | a due recovery comes first and only what may be replayed goes on; a lost lock stops everything but state release |
| `Sessions.Client.SendUntilDone` | src/v4/blocking.rs:3572-3626 | the retry loop: bounded sends, all but the last without effect |
| `Sessions.Client.CompoundStatus` | src/v4/blocking.rs:3552-3627 | at most max_retries + 2 sends, of which only the last may have an effect, so no mutating operation takes effect twice; an error after an answer means that nothing was done or that the answer announced revocation; on the session that was current unless replayable; a lost reply to anything not replayable is reported as unknown; with a recovery due nothing leaves on an old session; with a lock lost nothing but state release leaves, and Ok for anything else means that no lock is lost; an answer is handed over only when it asks for no recovery of its session, no retry within the policy and no look at the tracked locks; a plain outcome, an undecodable reply included, is handed over after exactly one exchange |
| `Sessions.Client.Exchange` | src/v4/blocking.rs:3546-3550 | one request of a larger operation: what an answer grants is on record for the session and client id in use |
| `Sessions.Client.CloseFile` | src/v4/blocking.rs:4636-4686 | Ok means the server closed this open file; the invariant and every lock are kept on every path |
| `Sessions.Client.OpenFile` | src/v4/blocking.rs:3897-3987 | Ok means the server granted the OPEN to this owner under the client id in use, with no recovery due |
| `Sessions.Client.FinishOpen` | src/v4/blocking.rs:3953-3985 | after an error the OPEN was closed again, or the error says that its cleanup failed; Ok means a delegation that came with it was returned |
| `Sessions.Client.KeepOpen` | src/v4/blocking.rs:3969-3985 | Ok means no confirmation was wanted and the server took back the delegation that came with the OPEN, under the same client id |
| `Sessions.Client.LockOpened` | src/v4/blocking.rs:4288-4330 | Ok means the server granted exactly this range on this OPEN, under an unchanged client id |
| `Sessions.Client.LockOrClose` | src/v4/blocking.rs:1058-1080 | LOCK on an open file; after an error the file was closed again, or the error says that its cleanup failed |
| `Sessions.Client.LockWithOwner` | src/v4/blocking.rs:1043-1081 | Ok registers a token for exactly the range asked for, held by the client id in use; an error leaves the registry alone; other tokens are kept |
| `Sessions.Client.Register` | src/v4/client.rs:549-559 | a granted lock joins the registry and the invariant goes on |
| `Sessions.Client.Forget` | src/v4/client.rs:585-588 | the token and only the token leaves the registry, and the run goes on with exactly the release of its owner |
| `Sessions.Client.Unlock` | src/v4/blocking.rs:1084-1115 | a foreign or used token is refused without a byte sent; otherwise the run goes on with the release of its owner, before anything is sent, and the token is gone whatever happens after; Ok means the server unlocked the range, freed its stateid and closed the file; a lost lock is reported as lost; every other lock is kept |
| `Sessions.Client.ReleaseLock` | src/v4/blocking.rs:1089-1115 | what is sent after the token is gone; Ok means the server gave up range, stateid, owner and open file |
| `Sessions.Client.ReleaseRange` | src/v4/blocking.rs:1106-1112 | LOCKU, FREE_STATEID and RELEASE_LOCKOWNER, each after the one before; Ok means the server unlocked the range, freed the stateid it left and released the owner, or still needs it |
| `Sessions.Client.UnlockOpened` | src/v4/blocking.rs:4332-4358 | LOCKU, repeated while delayed; Ok means the server unlocked this lock's range |
| `Sessions.Client.CloseLost` | src/v4/blocking.rs:1090-1099 | on a usable connection the CLOSE for a lost lock went out unless the request did not get out at all; the client stays in good order |
| `Sessions.Client.TrackedLocksAreHeld` | src/v4/blocking.rs:1043-1081 | a lock not reported as lost was granted by the server, open and range, by a LOCK it did unless the client was behind on that session, and unless a recovery is due under the client id in use and vouched for on the session in use |
| `Sessions.Client.GateIsRegistry` | src/v4/client.rs:590-597 | the registry holds a lost lock if and only if the run gave up a lock that was not unlocked since, so the gate of the runs is the gate the client tests |
| `Sessions.Client.LossIsReported` | src/v4/blocking.rs:685-697 | no silent loss: a lock is reported lost only after the server answered a compound that asks about that very lock with the status kept as the reason |
| `Sessions.Client.Connect` | src/v4/blocking.rs:3629-3646 | a connected client is in good order; after an error whose cleanup did not fail, either no session made is left, or a client was connected and the session it used last was destroyed |
| `Sessions.Client.Equip` | src/v4/blocking.rs:3631-3644 | limits and heartbeat of a new client; after an error the session it then used was destroyed, or the error says that its cleanup failed |
| `Sessions.Client.Shutdown` | src/v4/blocking.rs:3519-3527 | Ok means the server destroyed the session, and that of the heartbeat is gone |
| `Sessions.UseClient` | src/v4/blocking.rs:3552-3627 | every sequence of calls against every server, network and heartbeat behaviour is a run and leaves a connected client in good order, so all theorems about runs and clients hold of it; if connecting fails, as `Connect` says |
| `Progress.ReplayLeavesNoEffect` | src/v4/client.rs:226-230 | a replayable compound left no effect, whatever became of it |
| `Progress.SequencedIsClientOk` | src/v4/blocking.rs:3574-3583 | a compound that may be sent, behind the client's own SEQUENCE, keeps all guarantees about runs |
| `Scenarios.FallBehind` | src/v4/blocking.rs:4730-4746 | a client in good order gets an undecodable reply to an accepted request: the caller is told of a protocol error, no recovery is started, the connection and the session stay in use, and the server has counted up where the client has not |
| `Scenarios.AskWhileBehind` | src/v4/blocking.rs:859-861 | the next request of such a client is not done, yet its caller gets whatever answer comes; the client catches up if and only if SEQUENCE was answered OK |
| `Scenarios.TwoRequests` | src/v4/blocking.rs:3574-3602 | such runs exist: of two application requests the server does the first, whose reply does not decode, and not the second, which names the same sequence id and is answered as a retry; after that client and slot agree again |
| `Locks.WithoutStaysDistinct` | src/v4/client.rs:585-588 | removing a token leaves a registry of distinct cells |
| `Lease.NoRenewalAfterStop` | src/v4/lease.rs:72-79 | once `stop` returned, no interleaving starts another renewal, so destroying the session afterwards never races a heartbeat |
| `Lease.AtMostOneLateRenewal` | src/v4/lease.rs:40-54 | between the request to stop and its return at most one renewal starts |
| `Lease.DeadWorkerIsNoticed` | src/v4/lease.rs:64-70 | unstopped, the owner sees a failure exactly when a renewal failed or panicked, and then the worker has ended |
| `Lease.StoppedWorkerEnds` | src/v4/lease.rs:40-79 | told to stop, a worker takes at most five more steps under every schedule, so `stop` returns |
| `Lease.StopReturns` | src/v4/lease.rs:72-79 | a worker told to stop always has a step to take and each brings it closer to its end |
| `Lease.InvHolds` | src/v4/lease.rs:28-80 | what every step of every interleaving keeps |
| `Records.ParseInvertsMarking` | src/rpc.rs:243-280 | reading inverts every legal fragmentation of a payload within the limit and stops right behind it, whatever follows |
| `Records.ParsedIsMarked` | src/rpc.rs:243-280 | conversely, whatever is accepted as a record is a legal fragmentation of it |
| `Records.ReadIsWhatWasSent` | src/rpc.rs:243-280 | a record read where one was sent is that record, whatever the size limit |
| `Records.ReplyRoundTrip` | src/rpc.rs:324-359 | decoding a successful reply with the right xid gives its payload back |
| `Records.DecodeReply` | src/rpc.rs:324-408 | a payload comes only from a reply that carries the call's xid |
| `Records.XidIsFresh` | src/rpc.rs:216-222 | an xid is never 0 and comes back only after every other one was used |
| `Records.Connection.WriteRecord` | src/rpc.rs:224-241 | Ok means exactly one whole record was added to what was written |
| `Records.Connection.ReadRecord` | src/rpc.rs:243-280 | stops on every stream, even an endless one; Ok means the record the specification finds, and the cursor right behind it |
| `Records.Connection.Call` | src/rpc.rs:181-214 | a poisoned connection writes and reads nothing; every end before a whole reply, a dropped future included, leaves it poisoned with the outcome unknown; unpoisoned it is at a record boundary with nothing outstanding, and with a peer that answers in order the reply is the one to this call |
| `Records.Converse` | src/tokio_rpc.rs:51-87 | over whole conversations with failures and cancellation anywhere, each result is the reply to exactly its call and no two calls share a reply; up to the first poisoning exactly the answered calls stand on the wire as whole records, the poisoning call adds at most its own beginning, and nothing is written after it |
| `Xdr.RoundTrip` | src/xdr/decode.rs:89-142 | decoding what was encoded returns the value and consumes exactly its bytes, for all nested strings, opaques, arrays and optionals, whatever stands around them |
| `Xdr.DecodedFits` | src/xdr/decode.rs:89-171 | whatever is accepted is a value of the type within its limits, and as many bytes were consumed as its encoding has |
| `Xdr.EncodingIsAligned` | src/xdr/encode.rs:79-126 | every encoding is a whole number of 4-byte units |
| `Xdr.BigEndianRoundTrip` | src/xdr/encode.rs:48-51 | network byte order reads back |
| `Xdr.FromBigEndianRoundTrip` | src/xdr/decode.rs:51-54 | every byte string of a width is the network form of its number |
| `Xdr.Encoder.Write` | src/xdr/encode.rs:79-126 | writing succeeds exactly for values within their limits and appends their encoding |
| `Xdr.Encoder.WriteArray` | src/xdr/encode.rs:97-103 | arrays, element by element |
| `Xdr.Decoder.Read` | src/xdr/decode.rs:89-171 | reading moves the cursor as the specification does and fails when it does |
| `Xdr.Decoder.ReadArray` | src/xdr/decode.rs:118-125 | array reading, also the failing one, is the specification's |
| `Xdr.ToBytes` | src/xdr/encode.rs:130-134 | a whole message is its encoding, and exists exactly within the limits |
| `Xdr.FromBytes` | src/xdr/decode.rs:174-180 | a whole message with nothing left over; reads back everything that was written |
| `Credentials.NormalizeGroups` | src/rpc.rs:490-502 | the loop computes the first 16 first occurrences |
| `Credentials.NormalizedGroups` | src/rpc.rs:490-502 | no primary group, no duplicate, at most 16, order of first appearance, and nothing dropped for any other reason |
| `Credentials.NormalizingIsIdempotent` | src/rpc.rs:490-502 | normalizing twice is normalizing once |
| `Credentials.NormalizedNameLen` | src/rpc.rs:514-524 | the last character boundary within 255 bytes |
| `Credentials.SentName` | src/rpc.rs:504-512 | the name itself when short enough, else its longest valid UTF-8 beginning, at most three bytes short of 255 |
| `Credentials.CutIsUtf8` | src/rpc.rs:504-512 | cutting valid UTF-8 at a boundary leaves valid UTF-8 |
| `Credentials.EncodeAuthSys` | src/rpc.rs:122-135 | encoding never fails, however oversized the credential, carries the normalized fields, and takes at most 340 bytes |
| `Credentials.EncodeOpaqueAuth` | src/rpc.rs:46-59 | the flavor with the very body of the credential, so the 400-byte limit of an RPC credential is never exceeded |
| `Transfer.Nfs3.WriteAll` | src/v3/blocking.rs:1533-1568 | Ok for DATA_SYNC or FILE_SYNC means every byte is in place in the durable contents, whatever short writes, weaker promises and crashes came between; Ok for UNSTABLE means so of the visible contents unless the server crashed; nothing else is disturbed, also on error |
| `Transfer.Nfs3.WriteChunk` | src/v3/blocking.rs:1540-1563 | one chunk lands as durably as asked for, or an error is returned |
| `Transfer.Nfs3.Write` | src/v3/blocking.rs:1543-1546 | the assumptions about WRITE: what it reports as taken is there, and durable if it says so |
| `Transfer.Nfs3.CommitRange` | src/v3/blocking.rs:1556-1563 | COMMIT makes durable what the running server instance has of the range |
| `Transfer.Nfs3.Request` | src/v3/proto.rs:1320-1334 | a request put off is sent again at most max_retries times, and ends as the last sending is answered |
| `Transfer.LandedStays` | src/v3/blocking.rs:1533-1568 | what a finished chunk made durable outlives every crash and every later chunk |
| `Transfer.Reader.ReadToEnd` | src/v3/blocking.rs:1420-1446 | ends against every server; Ok from one that serves an unchanging file in any pieces is exactly the file |
| `Transfer.Reader.ReadRange` | src/v3/blocking.rs:1497-1531 | Ok is exactly the range, cut at the end of the file |
| `Transfer.Reader.ReadOpenedToEnd` | src/v4/blocking.rs:1263-1277 | the NFSv4 loop returns the file exactly when the transfer size is not 0, and nothing otherwise |
| `Transfer.NegotiatedSizeIsUsable` | src/v4/blocking.rs:3813-3837 | negotiated NFSv4 transfer sizes are at least 1, fit the channel with its headroom, and respect configuration and server limits |
| `Transfer.CopyHandles` | src/v3/blocking.rs:1599-1629 | Ok means the target is the source, durable if asked for, and the count its length |
| `Paths.NormalizePath` | src/v3/client.rs:122-142 | the loop computes the names of a path and reports the first thing wrong with it |
| `Paths.JoinWalks` | src/v3/client.rs:144-152 | a joined path goes through the parent's names and then the name's pieces |
| `Paths.JoinStaysInside` | src/v3/client.rs:144-152 | whatever bytes an entry name holds, the joined path is refused or stays at or below the parent |
| `Paths.JoinChild` | src/v3/client.rs:144-152 | joining an entry's name is exactly one step down |
| `Paths.EmptyNameIsTheDirectory` | src/v3/client.rs:144-152 | an entry without a name would be the directory itself |
| `Paths.SiblingPath` | src/v3/client.rs:154-166 | the temporary path lies in the target's own directory |
| `Trees.Share.RemoveAll` | src/v3/blocking.rs:1119-1158 | with a server that lists truthfully it ends on every tree; Ok means exactly the subtree is gone, and is the answer when nothing goes wrong; after any error nothing outside the subtree is missing |
| `Trees.Share.RemoveSome` | src/v3/blocking.rs:1119-1158 | after any number of steps against any server, whatever it lists, nothing outside the subtree is missing and every task left is about the subtree |
| `Trees.Share.RemoveNext` | src/v3/blocking.rs:1131-1155 | one task removes nothing outside the subtree and pushes no task outside it, whatever is listed; with truthful listings it keeps the account of what is left and brings the end closer |
| `Trees.Share.Expand` | src/v3/blocking.rs:1138-1148 | a directory is replaced by its removal below visits to its children, none of them outside the subtree |
| `Trees.Share.PushChildren` | src/v3/blocking.rs:1141-1148 | every path pushed is joined to the directory; from a truthful listing each child is pushed once, leaving out the directory and its parent |
| `Trees.DropIsEmpty` | src/v3/blocking.rs:1153-1153 | RMDIR only meets empty directories |
| `Trees.JobDone` | src/v3/blocking.rs:1149-1153 | a finished task leaves the account of the rest intact |
| `Trees.JobExpands` | src/v3/blocking.rs:1138-1148 | expanding a directory leaves the account of what is left intact, nothing twice and nothing forgotten |
| `Replace.Volume.WriteAtomic` | src/v3/blocking.rs:608-628 | whatever fails, whichever reply is lost and however often the server crashes, at every moment the target is the file it was or holds exactly the new data, durably if that was asked for; Ok means the data; no other name changes; a file that already had the temporary name is left alone; after Ok, or an error that does not speak of a failed clean-up, the temporary name is there if and only if the CREATE was done and its reply lost |
| `Replace.CrashLeavesOldOrNew` | src/v3/blocking.rs:608-628 | so a crash at any of these moments leaves the target with its old contents or the data, all of it durable, if the old contents were durable and the data were not written UNSTABLE |
| `Replace.Volume.FillAndRename` | src/v3/blocking.rs:617-621 | the target changes in one step, from the old file to one that holds the data |
| `Replace.Volume.CreateGuarded` | src/v3/blocking.rs:911-935 | a new, empty file under the temporary name, known to be the client's own exactly when the name was free and the CREATE was done and answered; an existing file is untouched |
| `Replace.Volume.WriteHandle` | src/v3/blocking.rs:1533-1568 | only the new file is written; Ok means it holds exactly the data, durably if that was asked for, whatever crashes came between |
| `Replace.Volume.Ask` | src/v3/proto.rs:1320-1334 | one request about names: served exactly by the verdict on its last sending; every file meanwhile only goes through crashes |
| `Listing.Lister.ReadDir` | src/v3/blocking.rs:1224-1255 | against every server at most max_entries + 1 batches and max_entries entries; an unchanging directory comes back whole, each entry once and in order, exactly if it is within the limit |
| `Listing.Lister.FetchBatch` | src/v3/blocking.rs:1231-1241 | READDIRPLUS, or READDIR where that is not supported |
| `Listing.BatchExtends` | src/v3/client.rs:211-232 | the cookie of the last entry leads on to the next, and never back to the same place |

## Left out

- Sessions.Client.ConnectSession: the minor version is not part of a compound in the model, so the order in which versions are tried is not stated.
- Sessions.Client.Reconnect: how often a transport failure is retried is not stated; that it ends is.
- Sessions.Client.RecoverSession: says what a recovery leaves behind, not when one succeeds; that depends on a long cooperative exchange with the server.
- Sessions.Client.Exchange, and the operations built on it: owner seqids are passed along but not accounted for; OPEN, LOCK and LOCKU carry them on the wire, the model's operations do not.
- Sessions.Client.OpenFile: only opening an existing file, as locking does; creating files, named attributes and removing a half-made file are not modelled.
- Sessions.Client.ConnectSessionMinor: compounds outside a session share one tag, and the first RECLAIM_COMPLETE is sent like the later ones; the source uses its own tag strings there.
- Sessions.Client.RefreshRecoveredFsinfo: which attributes are asked for and how they are parsed; only whether limits were obtained.
- Sessions.Client.StartLeaseRenewal: the heartbeat's own SEQUENCE traffic is not part of the trace; what the owner sees of it is a script, and the thread itself is `Lease`.
- Wire.Rpc.RawCompound: abstracts `Records.Connection.Call`, whose outcomes it names: not sent, lost, refused, answered.
- Transfer.Nfs3.WriteAll: one file and one writer; DATA_SYNC and FILE_SYNC differ in metadata only, which is not modelled. The NFSv4 write loop is the same algorithm.
- Replace.Volume.WriteAtomic: the temporary name is assumed to differ from the target's; the LOOKUPs that resolve a path are not requests of their own.
- Trees.Share.RemoveAll: the tree is changed by nobody else, and for it to end listings are truthful; `Trees.Share.RemoveSome` is about every server.
- Xdr.DecodedFits: the content of padding bytes is not looked at, as in the source, so decoding is not injective.
- Other clients of the server, sharing reservations and conflicts between lock owners.
- Time: delays, back-off and timeouts appear as retry counts and as failures at any point.
- The tokio NFSv3 and NFSv4 clients, which mirror the blocking ones; only cancellation of a call is modelled.
- pNFS, delegation requests, copy offload, named attributes, SECINFO, MOUNT and the portmapper: selection from one result or plumbing, which would add easy members only.
- `list_devices_limited`, and the atomic copies of NFSv3 and NFSv4.

/** Moving file contents over NFSv3: chunked WRITE with COMMIT, and the read and copy loops
    (src/v3/blocking.rs:1420-1629; sections 3.3.6, 3.3.7 and 3.3.21 of RFC 1813). */
module Transfer {
  import opened Errors
  import opened Xdr

  datatype StableHow = Unstable | DataSync | FileSync {
    function Rank(): nat {
      match this case Unstable => 0 case DataSync => 1 case FileSync => 2
    }

    predicate Satisfies(requested: StableHow) {
      Rank() >= requested.Rank()
    }
  }

  const OFFSETS: nat := U64

  function AdvanceOffset(offset: nat, amount: nat): (r: Result<nat>)
    ensures r.Success? <==> offset + amount < OFFSETS
    ensures r.Success? ==> r.value == offset + amount
  {
    if offset + amount < OFFSETS then Success(offset + amount) else Failure(Protocol)
  }

  // ---- A file on a server that may crash ---------------------------------------------------

  /** `data` stands at `offset`. */
  predicate Has(file: bytes, offset: nat, data: bytes) {
    data != [] ==> offset + |data| <= |file| && file[offset..offset + |data|] == data
  }

  lemma HasConcat(file: bytes, offset: nat, a: bytes, b: bytes)
    requires Has(file, offset, a) && Has(file, offset + |a|, b)
    ensures Has(file, offset, a + b)
  {
    var n := offset + |a|;
    if a != [] && b != [] {
      assert file[offset..n + |b|] == file[offset..n] + file[n..n + |b|];
    }
  }

  /** A write; a gap before it reads as zeros. */
  function Patch(file: bytes, offset: nat, data: bytes): (r: bytes)
    ensures Has(r, offset, data)
    ensures |r| <= |file| || |r| <= offset + |data|
    ensures |file| <= |r| && forall p :: 0 <= p < |file| && !(offset <= p < offset + |data|) ==> r[p] == file[p]
  {
    seq(if data != [] && |file| < offset + |data| then offset + |data| else |file|,
        p requires 0 <= p =>
          if offset <= p < offset + |data| then data[p - offset] else if p < |file| then file[p] else 0)
  }

  /** What a crash leaves: some of what was not yet durable may have made it, byte by byte. */
  function Survivors(durable: bytes, live: bytes, saved: nat -> bool, grew: bool): (r: bytes)
    ensures |durable| <= |r| && (|r| <= |live| || |r| <= |durable|)
    ensures forall p :: 0 <= p < |durable| && p < |live| && live[p] == durable[p] ==> r[p] == durable[p]
  {
    seq(if grew && |live| > |durable| then |live| else |durable|,
        p requires 0 <= p => if p < |live| && saved(p) then live[p] else if p < |durable| then durable[p] else 0)
  }

  /** The range of the current contents, made durable. */
  function Flushed(live: bytes, durable: bytes, offset: nat, count: nat): (r: bytes)
    requires |durable| <= |live|
    ensures |durable| <= |r| <= |live|
    ensures forall p :: 0 <= p < |durable| && !(offset <= p < offset + count) ==> r[p] == durable[p]
    ensures forall p :: offset <= p < offset + count && p < |live| ==> p < |r| && r[p] == live[p]
  {
    seq(if offset + count <= |durable| then |durable| else if offset + count <= |live| then offset + count else |live|,
        p requires 0 <= p =>
          if offset <= p < offset + count && p < |live| then live[p] else if p < |durable| then durable[p] else 0)
  }

  /** The file as readers see it, the part of it that outlives a crash, and the verifier of the
      server instance, new after every crash. */
  datatype Disk = Disk(live: bytes, durable: bytes, verifier: nat)

  predicate DiskOk(disk: Disk) {
    |disk.durable| <= |disk.live|
  }

  datatype Crash = NoCrash | Crashes(saved: nat -> bool, grew: bool)

  function Suffer(disk: Disk, crash: Crash): Disk {
    match crash
    case NoCrash => disk
    case Crashes(saved, grew) =>
      var left := Survivors(disk.durable, disk.live, saved, grew);
      Disk(left, left, disk.verifier + 1)
  }

  function Commit(disk: Disk, offset: nat, count: nat): Disk
    requires DiskOk(disk)
  {
    disk.(durable := Flushed(disk.live, disk.durable, offset, count))
  }

  /** What outlives a step that writes only between `lo` and `hi`: where both views of the file
      agree they keep agreeing on the same byte, and without a crash everything seen stays. */
  predicate Kept(a: Disk, b: Disk, lo: nat, hi: nat) {
    && DiskOk(a) && DiskOk(b) && |a.durable| <= |b.durable| && a.verifier <= b.verifier
    && (|b.live| <= |a.live| || |b.live| <= hi)
    && (forall p :: 0 <= p < |a.durable| && !(lo <= p < hi) && a.live[p] == a.durable[p] ==>
          b.live[p] == a.durable[p] && b.durable[p] == a.durable[p])
    && (b.verifier == a.verifier ==>
          && |a.live| <= |b.live|
          && forall p :: 0 <= p < |a.live| && !(lo <= p < hi) ==> b.live[p] == a.live[p])
  }

  lemma KeptReflexive(a: Disk, lo: nat, hi: nat)
    requires DiskOk(a)
    ensures Kept(a, a, lo, hi)
  {
  }

  lemma KeptCompose(a: Disk, b: Disk, c: Disk, lo: nat, hi: nat)
    requires Kept(a, b, lo, hi) && Kept(b, c, lo, hi)
    ensures Kept(a, c, lo, hi) && a.verifier <= b.verifier <= c.verifier && DiskOk(c)
  {
  }

  lemma KeptWiden(a: Disk, b: Disk, lo: nat, hi: nat, lo': nat, hi': nat)
    requires Kept(a, b, lo, hi) && (hi == 0 || (lo' <= lo && hi <= hi'))
    ensures Kept(a, b, lo', hi') && DiskOk(b)
  {
  }

  lemma SufferKeeps(disk: Disk, crash: Crash)
    requires DiskOk(disk)
    ensures Kept(disk, Suffer(disk, crash), 0, 0)
  {
  }

  lemma PatchKeeps(disk: Disk, offset: nat, data: bytes, hi: nat)
    requires DiskOk(disk) && offset + |data| <= hi
    ensures Kept(disk, disk.(live := Patch(disk.live, offset, data)), offset, hi)
  {
    hide Patch;
  }

  lemma CommitKeeps(disk: Disk, offset: nat, count: nat)
    requires DiskOk(disk)
    ensures Kept(disk, Commit(disk, offset, count), 0, 0)
  {
    hide Flushed;
    var r := Commit(disk, offset, count).durable;
    forall p | 0 <= p < |disk.durable| && disk.live[p] == disk.durable[p] ensures r[p] == disk.durable[p] {
      if offset <= p < offset + count {
        assert r[p] == disk.live[p];
      }
    }
  }

  lemma CommitHas(disk: Disk, offset: nat, data: bytes)
    requires DiskOk(disk) && Has(disk.live, offset, data)
    ensures Has(Commit(disk, offset, |data|).durable, offset, data)
  {
    hide Flushed;
    var r := Commit(disk, offset, |data|).durable;
    if data != [] {
      assert disk.live[offset + |data| - 1] == disk.live[offset..offset + |data|][|data| - 1];
      forall k | 0 <= k < |data| ensures r[offset + k] == data[k] {
        assert disk.live[offset..offset + |data|][k] == data[k];
      }
      assert r[offset..offset + |data|] == data;
    }
  }

  // ---- Writing ------------------------------------------------------------------------------------

  /** How far a write got: durable when asked for, visible when nothing crashed. */
  predicate Landed(disk: Disk, offset: nat, done: bytes, stable: StableHow, noCrash: bool) {
    && (!stable.Unstable? ==> Has(disk.durable, offset, done) && Has(disk.live, offset, done))
    && (noCrash ==> Has(disk.live, offset, done))
  }

  lemma LandedNothing(disk: Disk, offset: nat, stable: StableHow)
    ensures Landed(disk, offset, [], stable, true)
  {
  }

  lemma LandedMeans(disk: Disk, offset: nat, done: bytes, stable: StableHow, noCrash: bool)
    requires Landed(disk, offset, done, stable, noCrash)
    ensures !stable.Unstable? ==> Has(disk.durable, offset, done) && Has(disk.live, offset, done)
    ensures noCrash ==> Has(disk.live, offset, done)
  {
  }

  lemma LandedStays(a: Disk, b: Disk, offset: nat, done: bytes, stable: StableHow, lo: nat, hi: nat, start: nat)
    requires Kept(a, b, lo, hi) && start <= a.verifier && (lo == hi || offset + |done| <= lo)
    requires Landed(a, offset, done, stable, a.verifier == start)
    ensures Landed(b, offset, done, stable, b.verifier == start)
  {
    if !stable.Unstable? {
      forall k | 0 <= k < |done| ensures b.durable[offset + k] == b.live[offset + k] == done[k] {
        assert a.durable[offset..offset + |done|][k] == done[k] && a.live[offset..offset + |done|][k] == done[k];
      }
    } else if b.verifier == start {
      HasStays(a, b, offset, done, lo, hi);
    }
  }

  lemma HasStays(a: Disk, b: Disk, offset: nat, data: bytes, lo: nat, hi: nat)
    requires Kept(a, b, lo, hi) && (lo == hi || offset + |data| <= lo) && Has(a.live, offset, data)
    ensures b.verifier == a.verifier ==> Has(b.live, offset, data)
  {
    if b.verifier == a.verifier {
      forall k | 0 <= k < |data| ensures b.live[offset + k] == data[k] {
        assert a.live[offset..offset + |data|][k] == data[k];
      }
    }
  }

  lemma LandedExtends(disk: Disk, offset: nat, done: bytes, taken: bytes, stable: StableHow, noCrash: bool)
    requires Landed(disk, offset, done, stable, noCrash)
    requires noCrash || !stable.Unstable? ==> Has(disk.live, offset + |done|, taken)
    requires !stable.Unstable? ==> Has(disk.durable, offset + |done|, taken)
    ensures Landed(disk, offset, done + taken, stable, noCrash)
  {
    hide Has;
    if !stable.Unstable? {
      HasConcat(disk.durable, offset, done, taken);
    }
    if !stable.Unstable? || noCrash {
      HasConcat(disk.live, offset, done, taken);
    }
  }

  /** What becomes of one request: it is lost, put off, refused, or carried out; in the last case
      the reply may still be lost, and a WRITE may take fewer bytes and promise less than asked, or
      boast of more bytes than it was given. */
  datatype Fate =
    | LostRequest
    | TryLater
    | Refused(status: NfsStatus3)
    | Served(count: nat, boast: nat, committed: StableHow, replied: bool)

  /** The server may crash and restart before each request. */
  datatype Move = Move(crash: Crash, fate: Fate)

  /** What a request ends with that is sent again while it is put off, at most `left` times. */
  function Verdict(script: nat -> Move, t: nat, left: nat): Fate
    decreases left
  {
    if script(t).fate.TryLater? && left > 0 then Verdict(script, t + 1, left - 1) else script(t).fate
  }

  lemma VerdictStep(script: nat -> Move, t: nat, left: nat)
    ensures Verdict(script, t, left) ==
            if script(t).fate.TryLater? && left > 0 then Verdict(script, t + 1, left - 1) else script(t).fate
  {
  }

  /** The file at one moment. */
  datatype Moment = Moment(clock: nat, disk: Disk)

  datatype WriteReply = WriteReply(count: nat, committed: StableHow, verifier: nat)

  /** One file on a server, and the client's connection to it. */
  class Nfs3 {
    const script: nat -> Move
    const maxRetries: nat
    const writeSize: nat
    var clock: nat
    var disk: Disk
    ghost var log: seq<Moment>

    ghost predicate Valid()
      reads `disk, `log
    {
      0 < writeSize && DiskOk(disk) && forall k :: 0 <= k < |log| ==> DiskOk(log[k].disk)
    }

    constructor (script: nat -> Move, maxRetries: nat, writeSize: nat, clock: nat, disk: Disk)
      requires 0 < writeSize && DiskOk(disk)
      ensures Valid() && this.clock == clock && this.disk == disk && log == []
      ensures this.script == script && this.maxRetries == maxRetries
    {
      this.script, this.maxRetries, this.writeSize := script, maxRetries, writeSize;
      this.clock, this.disk, log := clock, disk, [];
    }

    /** The file turns into this. */
    method Become(next: Disk)
      requires Valid() && DiskOk(next)
      modifies `disk, `log
      ensures Valid() && disk == next && log == old(log) + [Moment(clock, next)]
    {
      disk := next;
      log := log + [Moment(clock, next)];
    }

    /** Nothing goes wrong: no crash, and every request is served at once and truthfully. */
    ghost predicate Smooth() {
      forall t :: script(t).crash.NoCrash? && script(t).fate.Served? && script(t).fate.replied
                  && script(t).fate.count > 0 && script(t).fate.boast == 0
    }

    /** One request up to the point where the server starts on it, sent again while it is put off. */
    method Request() returns (r: Result<Fate>)
      requires Valid()
      modifies `clock, `disk, `log
      ensures r.Success? ==> r.value.Served?
      ensures var verdict := Verdict(script, old(clock), maxRetries);
              if verdict.Served? then r == Success(verdict) else r.Failure? && !r.error.Cleanup?
      ensures Smooth() ==> r.Success? && r.value == script(old(clock)).fate && disk == old(disk)
      ensures Valid() && Kept(old(disk), disk, 0, 0)
      ensures old(clock) < clock <= old(clock) + maxRetries + 1 && old(log) <= log
    {
      hide Kept, Verdict;
      var retry := 0;
      KeptReflexive(disk, 0, 0);
      while true
        invariant Valid() && Kept(old(disk), disk, 0, 0) && retry <= maxRetries && clock == old(clock) + retry
        invariant old(log) <= log
        invariant Verdict(script, clock, maxRetries - retry) == Verdict(script, old(clock), maxRetries)
        invariant Smooth() ==> retry == 0 && disk == old(disk)
        decreases maxRetries - retry
      {
        VerdictStep(script, clock, maxRetries - retry);
        var move := script(clock);
        clock := clock + 1;
        SufferKeeps(disk, move.crash);
        KeptCompose(old(disk), disk, Suffer(disk, move.crash), 0, 0);
        Become(Suffer(disk, move.crash));
        match move.fate {
          case LostRequest =>
            return Failure(OutcomeUnknown(Io(TimedOut)));
          case TryLater =>
            if retry >= maxRetries {
              return Failure(Nfs(Jukebox));
            }
            retry := retry + 1;
          case Refused(status) =>
            return Failure(Nfs(status));
          case Served(_, _, _, _) =>
            return Success(move.fate);
        }
      }
    }

    /** WRITE. The bytes it reports as taken are in the file, durably if it says so. */
    method Write(offset: nat, data: bytes) returns (r: Result<WriteReply>)
      requires Valid()
      modifies `clock, `disk, `log
      ensures old(log) <= log && old(clock) <= clock && (r.Failure? ==> !r.error.Cleanup?)
      ensures Valid() && Kept(old(disk), disk, offset, offset + |data|)
      ensures r.Success? && r.value.count <= |data| ==>
                && r.value.verifier == disk.verifier
                && Has(disk.live, offset, data[..r.value.count])
                && (!r.value.committed.Unstable? ==> Has(disk.durable, offset, data[..r.value.count]))
      ensures Smooth() ==>
                r.Success? && (data != [] ==> 0 < r.value.count <= |data|) && disk.verifier == old(disk.verifier)
    {
      hide Kept, Has, Patch, Flushed;
      var hi := offset + |data|;
      var served := Request();
      KeptWiden(old(disk), disk, 0, 0, offset, hi);
      if served.Failure? {
        return Failure(served.error);
      }
      var Served(count, boast, committed, replied) := served.value;
      var taken := data[..if count <= |data| then count else |data|];
      PatchKeeps(disk, offset, taken, hi);
      KeptCompose(old(disk), disk, disk.(live := Patch(disk.live, offset, taken)), offset, hi);
      Become(disk.(live := Patch(disk.live, offset, taken)));
      if !committed.Unstable? {
        CommitKeeps(disk, offset, |taken|);
        CommitHas(disk, offset, taken);
        KeptWiden(disk, Commit(disk, offset, |taken|), 0, 0, offset, hi);
        KeptCompose(old(disk), disk, Commit(disk, offset, |taken|), offset, hi);
        Become(Commit(disk, offset, |taken|));
      }
      if !replied {
        return Failure(OutcomeUnknown(Io(TimedOut)));
      }
      return Success(WriteReply(if boast == 0 then |taken| else |data| + boast, committed, disk.verifier));
    }

    /** COMMIT. It makes durable what the current server instance has of the range. */
    method CommitRange(offset: nat, count: nat, ghost data: bytes) returns (r: Result<nat>)
      requires Valid() && |data| == count
      modifies `clock, `disk, `log
      ensures old(log) <= log && old(clock) <= clock && (r.Failure? ==> !r.error.Cleanup?)
      ensures Valid() && Kept(old(disk), disk, 0, 0)
      ensures r.Success? ==>
                r.value == disk.verifier && (Has(disk.live, offset, data) ==> Has(disk.durable, offset, data))
      ensures Smooth() ==> r.Success? && disk.verifier == old(disk.verifier)
    {
      hide Kept, Has, Flushed;
      var served := Request();
      if served.Failure? {
        return Failure(served.error);
      }
      CommitKeeps(disk, offset, count);
      KeptCompose(old(disk), disk, Commit(disk, offset, count), 0, 0);
      if Has(disk.live, offset, data) {
        CommitHas(disk, offset, data);
      }
      Become(Commit(disk, offset, count));
      if !served.value.replied {
        return Failure(OutcomeUnknown(Io(TimedOut)));
      }
      return Success(disk.verifier);
    }

    /** Writes the next chunk and makes it as durable as asked for; `start` is the file before the
        whole write, `done` what stands at `offset` already. */
    method WriteChunk(offset: nat, chunk: bytes, stable: StableHow, ghost start: Disk, ghost base: nat,
                      ghost done: bytes, ghost hi: nat)
      returns (r: Result<nat>)
      requires Valid() && chunk != [] && offset == base + |done| && offset + |chunk| <= hi
      requires Kept(start, disk, base, hi) && Landed(disk, base, done, stable, disk.verifier == start.verifier)
      modifies `clock, `disk, `log
      ensures old(log) <= log && old(clock) <= clock && (r.Failure? ==> !r.error.Cleanup?)
      ensures Valid() && Kept(start, disk, base, hi)
      ensures r.Success? ==>
                0 < r.value <= |chunk|
                && Landed(disk, base, done + chunk[..r.value], stable, disk.verifier == start.verifier)
      ensures Smooth() ==> r.Success? && disk.verifier == old(disk.verifier)
    {
      hide Kept, Landed, Has;
      KeptOrder(start, disk, base, hi);
      var wrote := Write(offset, chunk);
      LandedStays(old(disk), disk, base, done, stable, offset, offset + |chunk|, start.verifier);
      KeptWiden(old(disk), disk, offset, offset + |chunk|, base, hi);
      KeptCompose(start, old(disk), disk, base, hi);
      if wrote.Failure? {
        return Failure(wrote.error);
      }
      var written := wrote.value;
      if written.count == 0 || written.count > |chunk| {
        return Failure(Protocol);
      }
      var taken := chunk[..written.count];
      if !written.committed.Satisfies(stable) {
        ghost var before := disk;
        var committed := CommitRange(offset, written.count, taken);
        LandedStays(before, disk, base, done, stable, 0, 0, start.verifier);
        HasStays(before, disk, offset, taken, 0, 0);
        KeptWiden(before, disk, 0, 0, base, hi);
        KeptCompose(start, before, disk, base, hi);
        if committed.Failure? {
          return Failure(committed.error);
        }
        if committed.value != written.verifier {
          return Failure(Protocol);
        }
      }
      LandedExtends(disk, base, done, taken, stable, disk.verifier == start.verifier);
      return Success(written.count);
    }

    /** Writes all of `data`. Ok with a stability beyond UNSTABLE means every byte is in its place
        in the durable contents, whatever short writes, weaker promises and crashes came between;
        Ok with UNSTABLE means so of the current contents unless the server crashed meanwhile.
        Nothing outside the range is disturbed, also on error. */
    method WriteAll(offset: nat, data: bytes, stable: StableHow) returns (r: Result<()>)
      requires Valid() && offset < OFFSETS
      modifies `clock, `disk, `log
      ensures old(log) <= log && old(clock) <= clock && (r.Failure? ==> !r.error.Cleanup?)
      ensures Valid() && Kept(old(disk), disk, offset, offset + |data|)
      ensures r.Success? && !stable.Unstable? ==> Has(disk.durable, offset, data) && Has(disk.live, offset, data)
      ensures r.Success? && disk.verifier == old(disk.verifier) ==> Has(disk.live, offset, data)
      ensures Smooth() && offset + |data| < OFFSETS ==> r.Success?
    {
      hide Kept, Landed, Has;
      var at, rest := offset, data;
      LandedNothing(disk, offset, stable);
      KeptReflexive(disk, offset, offset + |data|);
      while rest != []
        invariant Valid() && offset <= at <= offset + |data| && at < OFFSETS && rest == data[at - offset..]
        invariant Kept(old(disk), disk, offset, offset + |data|) && old(log) <= log && old(clock) <= clock
        invariant Landed(disk, offset, data[..at - offset], stable, disk.verifier == old(disk.verifier))
        decreases |rest|
      {
        ghost var done := data[..at - offset];
        var chunk := rest[..if |rest| <= writeSize then |rest| else writeSize];
        var written := WriteChunk(at, chunk, stable, old(disk), offset, done, offset + |data|);
        if written.Failure? {
          return Failure(written.error);
        }
        assert data[..at - offset + written.value] == done + chunk[..written.value];
        if AdvanceOffset(at, written.value).Failure? {
          return Failure(Protocol);
        }
        at, rest := at + written.value, rest[written.value..];
      }
      assert data[..|data|] == data;
      LandedMeans(disk, offset, data, stable, disk.verifier == old(disk.verifier));
      return Success(());
    }
  }

  lemma KeptOrder(a: Disk, b: Disk, lo: nat, hi: nat)
    requires Kept(a, b, lo, hi)
    ensures a.verifier <= b.verifier
  {
  }

  // ---- Reading ------------------------------------------------------------------------------------

  datatype ReadReply = ReadReply(data: bytes, eof: bool)

  /** The part of a file a READ may return. */
  function Slice(file: bytes, offset: nat, count: nat): bytes {
    if offset >= |file| then [] else if offset + count <= |file| then file[offset..offset + count] else file[offset..]
  }

  /** A truthful reply: some of what stands there, and no end of file before the end. */
  predicate Truthful(file: bytes, offset: nat, reply: ReadReply) {
    && reply.data == Slice(file, offset, |reply.data|)
    && (reply.eof ==> offset + |reply.data| >= |file|)
  }

  /** A server, as its replies to every READ at every time: any at all, errors included. */
  type Replies = (nat, nat, nat) -> Result<ReadReply>

  ghost predicate Serves(replies: Replies, file: bytes) {
    forall t: nat, offset: nat, count: nat ::
      replies(t, offset, count).Success? ==> Truthful(file, offset, replies(t, offset, count).value)
  }

  /** A server that serves the file and answers every READ, short of the end with something. */
  ghost predicate Delivers(replies: Replies, file: bytes) {
    && Serves(replies, file)
    && forall t: nat, offset: nat, count: nat ::
         replies(t, offset, count).Success?
         && |replies(t, offset, count).value.data| <= count
         && (count > 0 && replies(t, offset, count).value.data == [] ==> replies(t, offset, count).value.eof)
  }

  class Reader {
    const replies: Replies
    const readSize: nat
    var clock: nat

    constructor (replies: Replies, readSize: nat)
      requires 0 < readSize
      ensures this.replies == replies && this.readSize == readSize
    {
      this.replies, this.readSize, clock := replies, readSize, 0;
    }

    /** One READ whose answer is not longer than asked for, and not empty before the end. */
    method Read(offset: nat, count: nat, ghost file: bytes) returns (r: Result<ReadReply>)
      requires 0 < count
      modifies `clock
      ensures r.Success? ==> |r.value.data| <= count && (r.value.data == [] ==> r.value.eof)
      ensures r.Success? && Serves(replies, file) ==> Truthful(file, offset, r.value)
      ensures Delivers(replies, file) ==> r.Success?
    {
      var reply :- replies(clock, offset, count);
      clock := clock + 1;
      if |reply.data| > count || (reply.data == [] && !reply.eof) {
        return Failure(Protocol);
      }
      return Success(reply);
    }

    /** Reads a whole file. Against any server at all it ends, since offsets only grow; if the
        server serves one unchanging file, in whatever pieces, Ok means exactly that file. */
    method ReadToEnd(ghost file: bytes) returns (r: Result<bytes>)
      requires 0 < readSize
      modifies `clock
      ensures r.Success? && Serves(replies, file) ==> r.value == file
      ensures Delivers(replies, file) && |file| < OFFSETS ==> r.Success?
    {
      var offset, out := 0, [];
      while true
        invariant offset == |out| < OFFSETS
        invariant Serves(replies, file) ==> out <= file
        decreases OFFSETS - offset
      {
        var chunk :- Read(offset, readSize, file);
        if Serves(replies, file) {
          SliceExtends(file, out, chunk.data);
        }
        if chunk.data == [] {
          return Success(out);
        }
        offset :- AdvanceOffset(offset, |chunk.data|);
        out := out + chunk.data;
        if chunk.eof {
          return Success(out);
        }
      }
    }

    /** The NFSv4 loop stops at the first empty answer; its reply check lets one pass before the
        end of the file only when nothing was asked for. So with a size of 0 it would return
        nothing for any file, and with every other size it returns the file. */
    method ReadOpenedToEnd(size: nat, ghost file: bytes) returns (r: Result<bytes>)
      modifies `clock
      ensures r.Success? && Serves(replies, file) ==> (r.value == file <==> size > 0 || file == [])
      ensures Delivers(replies, file) && |file| < OFFSETS ==> r.Success?
    {
      var offset, out := 0, [];
      while true
        invariant offset == |out| < OFFSETS && (size == 0 ==> out == [])
        invariant Serves(replies, file) ==> out <= file
        decreases OFFSETS - offset
      {
        var chunk :- ReadAt(offset, size, file);
        if Serves(replies, file) {
          SliceExtends(file, out, chunk.data);
        }
        if chunk.data == [] {
          return Success(out);
        }
        offset :- AdvanceOffset(offset, |chunk.data|);
        out := out + chunk.data;
        if chunk.eof {
          return Success(out);
        }
      }
    }

    method ReadAt(offset: nat, count: nat, ghost file: bytes) returns (r: Result<ReadReply>)
      modifies `clock
      ensures r.Success? ==> |r.value.data| <= count && (count > 0 && r.value.data == [] ==> r.value.eof)
      ensures r.Success? && Serves(replies, file) ==> Truthful(file, offset, r.value)
      ensures Delivers(replies, file) ==> r.Success?
    {
      var reply :- replies(clock, offset, count);
      clock := clock + 1;
      if |reply.data| > count || (count > 0 && reply.data == [] && !reply.eof) {
        return Failure(Protocol);
      }
      return Success(reply);
    }

    /** Reads a range, which the end of the file cuts short. */
    method ReadRange(start: nat, count: nat, ghost file: bytes) returns (r: Result<bytes>)
      requires 0 < readSize && start < OFFSETS
      modifies `clock
      ensures r.Success? && Serves(replies, file) ==> r.value == Slice(file, start, count)
      ensures Delivers(replies, file) && |file| < OFFSETS ==> r.Success?
    {
      var offset, remaining, out := start, count, [];
      while remaining > 0
        invariant offset == start + |out| < OFFSETS && |out| + remaining == count && 0 <= remaining
        invariant Serves(replies, file) ==> out == Slice(file, start, |out|)
        decreases remaining
      {
        var request := if readSize < remaining then readSize else remaining;
        var chunk :- Read(offset, request, file);
        if Serves(replies, file) {
          RangeExtends(file, start, out, chunk.data);
        }
        if chunk.data == [] {
          return Success(out);
        }
        offset :- AdvanceOffset(offset, |chunk.data|);
        out, remaining := out + chunk.data, remaining - |chunk.data|;
        if chunk.eof {
          return Success(out);
        }
      }
      return Success(out);
    }
  }

  // ---- NFSv4 reads and their sizes ------------------------------------------------------------

  const HEADROOM: nat := 4096
  const MAX_IO: nat := 64 * 1024 * 1024

  /** What a configured size must be (checked when a client is built). */
  predicate ValidTransferSize(size: nat) {
    1 <= size <= MAX_IO
  }

  /** What a session channel must leave (checked when a session is created). */
  predicate UsableChannel(size: nat) {
    size > HEADROOM
  }

  function PayloadLimit(channel: nat): nat {
    var payload := if channel < HEADROOM then 0 else channel - HEADROOM;
    if payload <= MAX_IO then payload else MAX_IO
  }

  function ClampIoSize(serverMax: Option<nat>, limit: nat): nat {
    match serverMax
    case None => limit
    case Some(max) =>
      if max == 0 then limit
      else
        var least := if limit <= max then limit else max;
        if least >= 1 then least else 1
  }

  function NegotiatedSize(configured: nat, channel: nat, serverMax: Option<nat>): nat {
    var limit := PayloadLimit(channel);
    ClampIoSize(serverMax, if configured <= limit then configured else limit)
  }

  /** Whatever the server advertises, a negotiated size is at least 1, fits the channel with its
      headroom, and exceeds neither the configuration nor a limit the server named. */
  lemma NegotiatedSizeIsUsable(configured: nat, channel: nat, serverMax: Option<nat>)
    requires ValidTransferSize(configured) && UsableChannel(channel)
    ensures var size := NegotiatedSize(configured, channel, serverMax);
            && ValidTransferSize(size) && size <= configured && size + HEADROOM <= channel
            && (serverMax.Some? && serverMax.value > 0 ==> size <= serverMax.value)
  {
  }

  lemma SliceExtends(file: bytes, out: bytes, data: bytes)
    requires out <= file && data == Slice(file, |out|, |data|)
    ensures out + data <= file
    ensures |out| + |data| >= |file| ==> out + data == file
  {
  }

  lemma RangeExtends(file: bytes, start: nat, out: bytes, data: bytes)
    requires out == Slice(file, start, |out|) && data == Slice(file, start + |out|, |data|)
    ensures out + data == Slice(file, start, |out + data|)
    ensures forall count :: start + |out| + |data| >= |file| && count >= |out + data| ==>
              Slice(file, start, count) == out + data
  {
  }

  /** Copies a file, chunk by chunk, to a file that was empty. Ok means the copy is the file,
      durable if asked for and visible if the target's server did not crash, and the count is its
      length. */
  method CopyHandles(source: Reader, target: Nfs3, stable: StableHow, ghost file: bytes) returns (r: Result<nat>)
    requires target.Valid() && 0 < source.readSize && target.disk.live == []
    modifies source`clock, target`clock, target`disk, target`log
    ensures target.Valid()
    ensures r.Success? && Serves(source.replies, file) ==>
              && r.value == |file|
              && (!stable.Unstable? ==> target.disk.durable == target.disk.live == file)
              && (target.disk.verifier == old(target.disk.verifier) ==> target.disk.live == file)
    ensures target.Smooth() && Delivers(source.replies, file) && |file| < OFFSETS ==> r.Success?
  {
    hide Kept, Landed, Has, Slice;
    var offset := 0;
    ghost var copied: bytes := [];
    ghost var start := target.disk;
    LandedNothing(start, 0, stable);
    KeptReflexive(start, 0, 0);
    while true
      invariant target.Valid() && offset == |copied| < OFFSETS
      invariant Kept(start, target.disk, 0, offset)
      invariant Landed(target.disk, 0, copied, stable, target.disk.verifier == start.verifier)
      invariant Serves(source.replies, file) ==> copied <= file
      decreases OFFSETS - offset
    {
      var chunk :- source.Read(offset, source.readSize, file);
      if Serves(source.replies, file) {
        SliceExtends(file, copied, chunk.data);
      }
      if chunk.data == [] {
        CopyIsWhole(start, target.disk, copied, stable);
        return Success(offset);
      }
      ghost var before := target.disk;
      var _ :- target.WriteAll(offset, chunk.data, stable);
      KeptOrder(start, before, 0, offset);
      KeptOrder(before, target.disk, offset, offset + |chunk.data|);
      LandedStays(before, target.disk, 0, copied, stable, offset, offset + |chunk.data|, start.verifier);
      KeptWiden(before, target.disk, offset, offset + |chunk.data|, 0, offset + |chunk.data|);
      KeptWiden(start, before, 0, offset, 0, offset + |chunk.data|);
      KeptCompose(start, before, target.disk, 0, offset + |chunk.data|);
      LandedExtends(target.disk, 0, copied, chunk.data, stable, target.disk.verifier == start.verifier);
      offset :- AdvanceOffset(offset, |chunk.data|);
      copied := copied + chunk.data;
      if chunk.eof {
        CopyIsWhole(start, target.disk, copied, stable);
        return Success(offset);
      }
    }
  }

  lemma CopyIsWhole(start: Disk, disk: Disk, copied: bytes, stable: StableHow)
    requires start.live == [] && Kept(start, disk, 0, |copied|)
    requires Landed(disk, 0, copied, stable, disk.verifier == start.verifier)
    ensures !stable.Unstable? ==> disk.durable == disk.live == copied
    ensures disk.verifier == start.verifier ==> disk.live == copied
  {
  }
}

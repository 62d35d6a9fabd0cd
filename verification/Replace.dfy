/** Atomic replacement of a file: write a temporary sibling, then rename it over the target, on a
    server that may crash before every request (src/v3/blocking.rs:608-628, 911-949;
    src/v3/client.rs:154-166). */
module Replace {
  import opened Errors
  import opened Xdr
  import opened Paths
  import opened Transfer
  import Trees

  type Path = Trees.Path

  /** Which file each name leads to, and the files. Names are durable as soon as they change
      (section 4.8 of RFC 1813). */
  datatype Snapshot = Snapshot(names: map<Path, nat>, files: map<nat, Disk>)

  /** A file just created; its verifier counts the crashes since. */
  const EMPTY := Disk([], [], 0)

  function Shown(s: Snapshot, p: Path): Option<Disk> {
    if p in s.names && s.names[p] in s.files then Some(s.files[s.names[p]]) else None
  }

  predicate Closed(s: Snapshot) {
    && (forall p :: p in s.names ==> s.names[p] in s.files)
    && (forall i :: i in s.files ==> DiskOk(s.files[i]))
  }

  // ---- Files nobody writes to -----------------------------------------------------------

  /** A file after the crashes of a stretch of time. */
  function Aged(disk: Disk, script: nat -> Move, from: nat, end: nat): Disk
    decreases end
  {
    if end <= from then disk else Suffer(Aged(disk, script, from, end - 1), script(end - 1).crash)
  }

  lemma {:induction false} AgedKeeps(disk: Disk, script: nat -> Move, from: nat, end: nat)
    requires DiskOk(disk)
    ensures Kept(disk, Aged(disk, script, from, end), 0, 0) && DiskOk(Aged(disk, script, from, end))
    decreases end
  {
    hide Kept;
    if end <= from {
      KeptReflexive(disk, 0, 0);
    } else {
      var before := Aged(disk, script, from, end - 1);
      AgedKeeps(disk, script, from, end - 1);
      SufferKeeps(before, script(end - 1).crash);
      KeptCompose(disk, before, Aged(disk, script, from, end), 0, 0);
    }
  }

  /** All files at a later moment, of which at most one was written. */
  function Later(s: Snapshot, script: nat -> Move, from: nat, written: Option<nat>, m: Moment): Snapshot {
    s.(files := map i | i in s.files :: if written == Some(i) then m.disk else Aged(s.files[i], script, from, m.clock))
  }

  /** The same names and files, of which at most one was written. */
  predicate Older(a: Snapshot, b: Snapshot, written: Option<nat>) {
    && b.names == a.names && b.files.Keys == a.files.Keys && Closed(b)
    && forall i :: i in a.files && written != Some(i) ==> Kept(a.files[i], b.files[i], 0, 0)
  }

  ghost function Passed(s: Snapshot, script: nat -> Move, from: nat, written: Option<nat>,
                        log: seq<Moment>): (r: seq<Snapshot>)
    ensures |r| == |log| && forall k :: 0 <= k < |log| ==> r[k] == Later(s, script, from, written, log[k])
  {
    seq(|log|, k requires 0 <= k < |log| => Later(s, script, from, written, log[k]))
  }

  lemma LaterIsOlder(s: Snapshot, script: nat -> Move, from: nat, written: Option<nat>, m: Moment)
    requires Closed(s) && DiskOk(m.disk)
    ensures Older(s, Later(s, script, from, written, m), written)
  {
    hide Aged, Kept;
    forall i | i in s.files
      ensures var aged := Aged(s.files[i], script, from, m.clock); Kept(s.files[i], aged, 0, 0) && DiskOk(aged)
    {
      AgedKeeps(s.files[i], script, from, m.clock);
    }
  }

  // ---- What a name shows ------------------------------------------------------------------

  /** The file that stood there, after crashes at most. */
  predicate Old(before: Option<Disk>, now: Option<Disk>) {
    if before.None? then now.None? else now.Some? && Kept(before.value, now.value, 0, 0)
  }

  /** A file that holds exactly the data: for good if that was asked for, else until a crash. */
  predicate Full(disk: Disk, data: bytes, stable: StableHow) {
    && (!stable.Unstable? ==> disk.live == disk.durable == data)
    && (disk.verifier == 0 ==> disk.live == data)
  }

  predicate New(now: Option<Disk>, data: bytes, stable: StableHow) {
    now.Some? && Full(now.value, data, stable)
  }

  lemma FullStays(a: Disk, b: Disk, data: bytes, stable: StableHow)
    requires Full(a, data, stable) && Kept(a, b, 0, 0)
    ensures Full(b, data, stable)
  {
    if !stable.Unstable? {
      SettledStays(a, b);
    } else if b.verifier == 0 {
      assert b.live == a.live;
    }
  }

  /** What was durable in full outlives every crash. */
  lemma SettledStays(a: Disk, b: Disk)
    requires a.live == a.durable && Kept(a, b, 0, 0)
    ensures b.live == b.durable == a.live
  {
    assert |b.live| == |b.durable| == |a.live|;
    assert forall p :: 0 <= p < |a.live| ==> b.live[p] == a.durable[p] && b.durable[p] == a.durable[p];
  }

  /** At every moment since, the target is the old file or holds the data. */
  predicate OldOrNew(history: seq<Snapshot>, from: nat, target: Path, before: Option<Disk>, data: bytes,
                     stable: StableHow)
  {
    forall k :: from <= k < |history| ==>
      Old(before, Shown(history[k], target)) || New(Shown(history[k], target), data, stable)
  }

  /** So a crash at any moment leaves the old contents or the data, if the old contents were durable
      and durable data was asked for. */
  lemma CrashLeavesOldOrNew(history: seq<Snapshot>, from: nat, target: Path, before: Disk, data: bytes,
                            stable: StableHow, k: nat, crash: Crash)
    requires OldOrNew(history, from, target, Some(before), data, stable) && from <= k < |history| && Closed(history[k])
    requires before.live == before.durable && !stable.Unstable?
    ensures Shown(history[k], target).Some?
    ensures var left := Suffer(Shown(history[k], target).value, crash);
            left.live == left.durable && (left.live == before.live || left.live == data)
  {
    hide Kept, OldOrNew;
    OldOrNewAt(history, from, target, Some(before), data, stable, k);
    var disk := Shown(history[k], target).value;
    SufferKeeps(disk, crash);
    if Old(Some(before), Some(disk)) {
      SettledStays(before, disk);
      SettledStays(disk, Suffer(disk, crash));
    } else {
      FullStays(disk, Suffer(disk, crash), data, stable);
    }
  }

  lemma OldOrNewAt(history: seq<Snapshot>, from: nat, target: Path, before: Option<Disk>, data: bytes,
                   stable: StableHow, k: nat)
    requires OldOrNew(history, from, target, before, data, stable) && from <= k < |history|
    ensures Old(before, Shown(history[k], target)) || New(Shown(history[k], target), data, stable)
  {
  }

  class Volume {
    const script: nat -> Move
    const handles: nat -> bool
    const maxRetries: nat
    const writeSize: nat
    var clock: nat
    var now: Snapshot
    ghost var history: seq<Snapshot>

    ghost predicate Valid()
      reads `now, `history
    {
      0 < writeSize && Closed(now) && history != [] && history[|history| - 1] == now
    }

    constructor (script: nat -> Move, handles: nat -> bool, maxRetries: nat, writeSize: nat, now: Snapshot)
      requires 0 < writeSize && Closed(now)
      ensures Valid() && this.now == now
    {
      this.script, this.handles, this.maxRetries, this.writeSize := script, handles, maxRetries, writeSize;
      this.now, clock, history := now, 0, [now];
    }

    /** Nothing goes wrong. */
    ghost predicate Smooth() {
      forall t :: script(t).crash.NoCrash? && script(t).fate.Served? && script(t).fate.replied
                  && script(t).fate.count > 0 && script(t).fate.boast == 0
    }

    /** The server carries out one change. */
    method Become(next: Snapshot)
      requires Valid() && Closed(next)
      modifies `now, `history
      ensures Valid() && now == next && history == old(history) + [next]
    {
      now := next;
      history := history + [next];
    }

    /** Time passes as a connection saw it; at most one file was written over that connection. */
    method Elapse(link: Nfs3, written: Option<nat>)
      requires Valid() && link.Valid() && link.script == script && clock <= link.clock
      requires written.Some? ==> written.value in now.files
      modifies `clock, `now, `history
      ensures Valid() && clock == link.clock && old(history) <= history
      ensures forall k :: |old(history)| <= k < |history| ==> Older(old(now), history[k], written)
      ensures Older(old(now), now, written)
      ensures written.Some? ==> written.value in now.files && now.files[written.value] == link.disk
    {
      hide Older;
      ghost var passed := Passed(now, script, clock, written, link.log);
      var next := Later(now, script, clock, written, Moment(link.clock, link.disk));
      forall k | 0 <= k < |passed| ensures Older(now, passed[k], written) {
        LaterIsOlder(now, script, clock, written, link.log[k]);
      }
      LaterIsOlder(now, script, clock, written, Moment(link.clock, link.disk));
      OlderMeans(now, next, written);
      history := history + passed;
      now, clock := next, link.clock;
      history := history + [now];
    }

    /** One request about names, sent again while it is put off. */
    method Ask() returns (r: Result<bool>)
      requires Valid()
      modifies `clock, `now, `history
      ensures Valid() && old(history) <= history
      ensures forall k :: |old(history)| <= k < |history| ==> Older(old(now), history[k], None)
      ensures Older(old(now), now, None)
      ensures var verdict := Verdict(script, old(clock), maxRetries);
              if verdict.Served? then r == Success(verdict.replied) else r.Failure? && !r.error.Cleanup?
      ensures Smooth() ==> r == Success(true)
    {
      hide Older, Verdict;
      var link := new Nfs3(script, maxRetries, writeSize, clock, EMPTY);
      var served := link.Request();
      Elapse(link, None);
      r := if served.Success? then Success(served.value.replied) else Failure(served.error);
    }

    /** A guarded CREATE; `created` is set as soon as the client knows the file is its own. */
    method CreateGuarded(path: bytes, ghost p: Path) returns (r: Result<nat>, created: bool)
      requires Valid() && Normalize(path) == Success(p)
      modifies `clock, `now, `history
      ensures Valid() && old(history) <= history
      ensures forall k :: |old(history)| <= k < |history| ==> OthersOld(old(now), history[k], p)
      ensures OthersOld(old(now), now, p)
      ensures p in old(now).names ==> Older(old(now), now, None)
      ensures var verdict := Verdict(script, old(clock), maxRetries);
              && (created <==> p !in old(now).names && verdict.Served? && verdict.replied)
              && (p !in old(now).names && !created ==> (p in now.names <==> verdict.Served?))
      ensures created ==> p in now.names && Staged(old(now), now, p, now.names[p]) && now.files[now.names[p]].live == []
      ensures r.Success? ==> created && r.value == now.names[p]
      ensures r.Failure? ==> !r.error.Cleanup?
      ensures Smooth() && p !in old(now).names ==> r.Success?
    {
      hide Normalize, Older, OthersOld, Staged, Kept, Verdict;
      created := false;
      var names := NormalizePath(path);
      var served := Ask();
      ghost var asked, seen := now, history;
      OlderMeans(old(now), asked, None);
      OlderHistory(old(history), history, old(now), p);
      OlderIsOld(old(now), asked, p);
      if served.Failure? {
        return Failure(served.error), created;
      }
      if names.value in now.names {
        return Failure(if served.value then Nfs(Exist3) else OutcomeUnknown(Io(TimedOut))), created;
      }
      var inode := NewInode(now.files);
      Become(Snapshot(now.names[names.value := inode], now.files[inode := EMPTY]));
      CreatedIsStaged(old(now), asked, now, p, inode);
      StagedIsOld(old(now), now, p, inode);
      if !served.value {
        return Failure(OutcomeUnknown(Io(TimedOut))), created;
      }
      created := true;
      if handles(clock) {
        return Success(inode), created;
      }
      ghost var made, before := now, history;
      var lookup := Ask();
      OlderStagedHistory(before, history, old(now), made, p, inode);
      OlderStaged(old(now), made, now, p, inode, None);
      OlderEmpty(made, now, inode);
      StagedIsOld(old(now), now, p, inode);
      if lookup.Failure? {
        return Failure(lookup.error), created;
      }
      if !lookup.value {
        return Failure(OutcomeUnknown(Io(TimedOut))), created;
      }
      return Success(now.names[names.value]), created;
    }

    /** Writes a new file from the start. */
    method WriteHandle(inode: nat, data: bytes, stable: StableHow) returns (r: Result<()>)
      requires Valid() && inode in now.files && now.files[inode].live == []
      modifies `clock, `now, `history
      ensures Valid() && old(history) <= history
      ensures forall k :: |old(history)| <= k < |history| ==> Older(old(now), history[k], Some(inode))
      ensures Older(old(now), now, Some(inode)) && inode in now.files
      ensures r.Success? ==> Full(now.files[inode], data, stable)
      ensures r.Failure? ==> !r.error.Cleanup?
      ensures Smooth() && |data| < OFFSETS ==> r.Success?
    {
      hide Older, Kept, Has;
      var link := new Nfs3(script, maxRetries, writeSize, clock, now.files[inode]);
      r := link.WriteAll(0, data, stable);
      if r.Success? {
        WrittenIsFull(now.files[inode], link.disk, data, stable);
      }
      Elapse(link, Some(inode));
    }

    /** RENAME, replacing what the new name led to. */
    method Rename(from: bytes, to: bytes, ghost p: Path, ghost q: Path) returns (r: Result<()>)
      requires Valid() && Normalize(from) == Success(p) && Normalize(to) == Success(q) && p != q
      modifies `clock, `now, `history
      ensures Valid() && old(history) <= history
      ensures forall k :: |old(history)| <= k < |history| ==>
                Older(old(now), history[k], None) || Swapped(old(now), history[k], p, q)
      ensures Older(old(now), now, None) || Swapped(old(now), now, p, q)
      ensures r.Success? ==> Swapped(old(now), now, p, q)
      ensures r.Failure? ==> !r.error.Cleanup?
      ensures Smooth() && p in old(now).names ==> r.Success?
    {
      hide Normalize, Older, Swapped, Verdict;
      var source := NormalizePath(from);
      var target := NormalizePath(to);
      var served := Ask();
      ghost var asked := now;
      OlderMeans(old(now), asked, None);
      if served.Failure? {
        return Failure(served.error);
      }
      if source.value !in now.names {
        return Failure(if served.value then Nfs(NoEnt3) else OutcomeUnknown(Io(TimedOut)));
      }
      var next := Snapshot((now.names - {source.value})[target.value := now.names[source.value]], now.files);
      RenameSwaps(old(now), asked, next, p, q);
      Become(next);
      if !served.value {
        return Failure(OutcomeUnknown(Io(TimedOut)));
      }
      return Success(());
    }

    /** REMOVE. */
    method Remove(path: bytes, ghost p: Path) returns (r: Result<()>)
      requires Valid() && Normalize(path) == Success(p)
      modifies `clock, `now, `history
      ensures Valid() && old(history) <= history
      ensures forall k :: |old(history)| <= k < |history| ==> OthersOld(old(now), history[k], p)
      ensures OthersOld(old(now), now, p)
      ensures now.names == old(now).names || now.names == old(now).names - {p}
      ensures r.Success? ==> p !in now.names
    {
      hide Normalize, Older, OthersOld, Verdict;
      var names := NormalizePath(path);
      var served := Ask();
      ghost var asked := now;
      OlderMeans(old(now), asked, None);
      OlderHistory(old(history), history, old(now), p);
      OlderIsOld(old(now), asked, p);
      if served.Failure? {
        return Failure(served.error);
      }
      if names.value !in now.names {
        return Failure(if served.value then Nfs(NoEnt3) else OutcomeUnknown(Io(TimedOut)));
      }
      Become(now.(names := now.names - {names.value}));
      DropIsOld(old(now), asked, now, p);
      if !served.value {
        return Failure(OutcomeUnknown(Io(TimedOut)));
      }
      return Success(());
    }

    /** Fills the temporary file and renames it over the target. */
    method FillAndRename(handle: nat, from: bytes, to: bytes, data: bytes, stable: StableHow,
                         ghost temp: Path, ghost target: Path, ghost start: Snapshot, ghost since: nat)
      returns (r: Result<()>)
      requires Valid() && Normalize(from) == Success(temp) && Normalize(to) == Success(target) && temp != target
      requires Closed(start) && Staged(start, now, temp, handle) && now.files[handle].live == []
      requires OldOrNew(history, since, target, Shown(start, target), data, stable)
      modifies `clock, `now, `history
      ensures Valid() && old(history) <= history
      ensures OldOrNew(history, since, target, Shown(start, target), data, stable)
      ensures if r.Success? then Renamed(start, now, temp, target, data, stable)
              else Staged(start, now, temp, handle) || Renamed(start, now, temp, target, data, stable)
      ensures r.Failure? ==> !r.error.Cleanup?
      ensures Smooth() && |data| < OFFSETS ==> r.Success?
    {
      hide Normalize, Older, Staged, Renamed, Swapped, OldOrNew, Old, New, Full, Shown;
      StagedNames(start, now, temp, handle);
      ghost var made, before := now, history;
      var written := WriteHandle(handle, data, stable);
      OlderStaged(start, made, now, temp, handle, Some(handle));
      FillHistory(before, history, start, made, temp, handle, target, since, data, stable);
      if written.Failure? {
        return written;
      }
      ghost var filled, seen := now, history;
      StagedNames(start, filled, temp, handle);
      r := Rename(from, to, temp, target);
      RenameHistory(seen, history, start, filled, temp, handle, target, since, data, stable);
      RenameEnds(start, filled, now, temp, handle, target, data, stable);
    }

    /** Replaces a file by way of a temporary sibling. Whatever fails, whichever reply is lost and
        however often the server crashes, at every moment the target is the file it was before or
        holds exactly the new data; Ok means the data. No other name changes but the temporary
        one. A file of that name which is not the client's own is left alone. The client's own is gone
        again after Ok and after an error that does not speak of a failed clean-up, unless the
        reply to its CREATE was lost: then it stays. */
    method WriteAtomic(path: bytes, data: bytes, tempName: Name, stable: StableHow) returns (r: Result<()>)
      requires Valid() && PlainName(tempName)
      requires Normalize(path).Success? && Normalize(path).value != [] ==>
                 Normalize(path).value[|Normalize(path).value| - 1] != tempName
      modifies `clock, `now, `history
      ensures Valid() && old(history) <= history
      ensures Normalize(path).Failure? || Normalize(path).value == [] ==> r.Failure? && now == old(now)
      ensures Normalize(path).Success? && Normalize(path).value != [] ==>
                var target := Normalize(path).value;
                var temp := target[..|target| - 1] + [tempName];
                var create := Verdict(script, old(clock), maxRetries);
                && OldOrNew(history, |old(history)|, target, Shown(old(now), target), data, stable)
                && (r.Success? ==> New(Shown(now, target), data, stable))
                && (forall q :: q != target && q != temp ==> Old(Shown(old(now), q), Shown(now, q)))
                && (temp in old(now).names ==> r.Failure? && Older(old(now), now, None))
                && (temp !in old(now).names && (r.Success? || !r.error.Cleanup?) ==>
                      (temp in now.names <==> create.Served? && !create.replied))
                && (temp !in old(now).names && create.Served? && !create.replied ==>
                      r.Failure? && !r.error.Cleanup? && temp in now.names)
                && (Smooth() && temp !in old(now).names && |data| < OFFSETS ==> r.Success?)
    {
      hide Normalize, OldOrNew, OthersOld, Staged, Renamed, Shown, Older, Old, New, Full, Verdict;
      var names := NormalizePath(path);
      var sibling := SiblingPath(path, tempName);
      if sibling.Failure? {
        return Failure(sibling.error);
      }
      ghost var target := names.value;
      ghost var temp := target[..|target| - 1] + [tempName];
      assert temp != target by {
        assert temp[|target| - 1] == tempName;
      }
      ghost var start, since := now, |history|;
      var made, own := CreateGuarded(sibling.value, temp);
      OthersOldHistory(old(history), history, start, temp, target, data, stable);
      OthersOldIsFair(start, now, temp, target, data, stable);
      if made.Failure? {
        r := Failure(made.error);
      } else {
        r := FillAndRename(made.value, sibling.value, path, data, stable, temp, target, start, since);
        FilledIsFair(start, now, temp, target, made.value, data, stable);
      }
      if r.Failure? && own {
        ghost var seen, left := history, now;
        var removed := Remove(sibling.value, temp);
        RemoveHistory(seen, history, start, left, temp, target, since, data, stable);
        RemoveIsFair(start, left, now, temp, target, data, stable);
        r := Failure(CleanupError(r.error, removed));
      }
      FairMeans(start, now, temp, target, data, stable);
    }
  }

  // ---- Staging -------------------------------------------------------------------------------

  /** Every other name shows the file it showed. */
  ghost predicate OthersOld(a: Snapshot, b: Snapshot, p: Path) {
    forall q :: q != p ==> Old(Shown(a, q), Shown(b, q))
  }

  /** The temporary name leads to a new file; all else is as it was. */
  predicate Staged(start: Snapshot, s: Snapshot, temp: Path, handle: nat) {
    && temp !in start.names && handle !in start.files && Closed(s)
    && s.names == start.names[temp := handle] && s.files.Keys == start.files.Keys + {handle}
    && forall i :: i in start.files ==> Kept(start.files[i], s.files[i], 0, 0)
  }

  /** One name was moved over another. */
  predicate Swapped(a: Snapshot, b: Snapshot, p: Path, q: Path) {
    && p in a.names && b.names == (a.names - {p})[q := a.names[p]]
    && b.files.Keys == a.files.Keys && Closed(b)
    && forall i :: i in a.files ==> Kept(a.files[i], b.files[i], 0, 0)
  }

  /** The target holds the data, the temporary name is gone, all else is as it was. */
  ghost predicate Renamed(start: Snapshot, s: Snapshot, temp: Path, target: Path, data: bytes, stable: StableHow) {
    && New(Shown(s, target), data, stable) && temp !in s.names
    && forall q :: q != target && q != temp ==> Old(Shown(start, q), Shown(s, q))
  }

  /** Names other than the temporary one show the file they showed, or the target the new data. */
  ghost predicate Fair(start: Snapshot, s: Snapshot, temp: Path, target: Path, data: bytes, stable: StableHow) {
    && (Old(Shown(start, target), Shown(s, target)) || New(Shown(s, target), data, stable))
    && forall q :: q != target && q != temp ==> Old(Shown(start, q), Shown(s, q))
  }

  lemma OlderMeans(a: Snapshot, b: Snapshot, written: Option<nat>)
    requires Older(a, b, written)
    ensures Closed(b) && b.names == a.names && b.files.Keys == a.files.Keys
  {
  }

  lemma OldComposes(a: Option<Disk>, b: Option<Disk>, c: Option<Disk>)
    requires Old(a, b) && Old(b, c)
    ensures Old(a, c)
  {
    hide Kept;
    if a.Some? {
      KeptCompose(a.value, b.value, c.value, 0, 0);
    }
  }

  lemma NewStays(a: Option<Disk>, b: Option<Disk>, data: bytes, stable: StableHow)
    requires New(a, data, stable) && Old(a, b)
    ensures New(b, data, stable)
  {
    hide Kept, Full;
    FullStays(a.value, b.value, data, stable);
  }

  lemma OlderIsOld(a: Snapshot, b: Snapshot, p: Path)
    requires Closed(a) && Older(a, b, None)
    ensures OthersOld(a, b, p) && Old(Shown(a, p), Shown(b, p))
  {
    hide Kept;
  }

  lemma OlderHistory(before: seq<Snapshot>, history: seq<Snapshot>, a: Snapshot, p: Path)
    requires Closed(a) && forall k :: |before| <= k < |history| ==> Older(a, history[k], None)
    ensures forall k :: |before| <= k < |history| ==> OthersOld(a, history[k], p)
  {
    hide Older, OthersOld;
    forall k | |before| <= k < |history| ensures OthersOld(a, history[k], p) {
      OlderIsOld(a, history[k], p);
    }
  }

  lemma CreatedIsStaged(start: Snapshot, asked: Snapshot, s: Snapshot, temp: Path, handle: nat)
    requires Closed(start) && Older(start, asked, None) && temp !in asked.names && handle !in asked.files
    requires s == Snapshot(asked.names[temp := handle], asked.files[handle := EMPTY])
    ensures Staged(start, s, temp, handle) && s.files[handle].live == []
  {
    hide Kept;
  }

  lemma StagedShows(start: Snapshot, s: Snapshot, temp: Path, handle: nat, q: Path)
    requires Closed(start) && Staged(start, s, temp, handle) && q != temp
    ensures Old(Shown(start, q), Shown(s, q))
  {
    hide Kept;
  }

  lemma StagedIsOld(start: Snapshot, s: Snapshot, temp: Path, handle: nat)
    requires Closed(start) && Staged(start, s, temp, handle)
    ensures OthersOld(start, s, temp) && temp in s.names && s.names[temp] == handle && temp !in start.names
  {
    hide Old, Shown;
    forall q | q != temp ensures Old(Shown(start, q), Shown(s, q)) {
      StagedShows(start, s, temp, handle, q);
    }
  }

  lemma StagedNames(start: Snapshot, s: Snapshot, temp: Path, handle: nat)
    requires Staged(start, s, temp, handle)
    ensures temp in s.names && s.names[temp] == handle && handle in s.files && Closed(s)
  {
  }

  lemma OlderStaged(start: Snapshot, a: Snapshot, b: Snapshot, temp: Path, handle: nat, written: Option<nat>)
    requires Staged(start, a, temp, handle) && Older(a, b, written) && (written == None || written == Some(handle))
    ensures Staged(start, b, temp, handle)
  {
    hide Kept;
    forall i | i in start.files ensures Kept(start.files[i], b.files[i], 0, 0) {
      KeptCompose(start.files[i], a.files[i], b.files[i], 0, 0);
    }
  }

  lemma OlderStagedHistory(before: seq<Snapshot>, history: seq<Snapshot>, start: Snapshot, a: Snapshot, temp: Path,
                           handle: nat)
    requires Closed(start) && Staged(start, a, temp, handle)
    requires forall k :: |before| <= k < |history| ==> Older(a, history[k], None)
    ensures forall k :: |before| <= k < |history| ==> OthersOld(start, history[k], temp)
  {
    hide Older, OthersOld, Staged;
    forall k | |before| <= k < |history| ensures OthersOld(start, history[k], temp) {
      OlderStaged(start, a, history[k], temp, handle, None);
      StagedIsOld(start, history[k], temp, handle);
    }
  }

  lemma OlderEmpty(a: Snapshot, b: Snapshot, inode: nat)
    requires Older(a, b, None) && inode in a.files && a.files[inode].live == []
    ensures inode in b.files && b.files[inode].live == []
  {
  }

  lemma WrittenIsFull(start: Disk, disk: Disk, data: bytes, stable: StableHow)
    requires start.live == [] && Kept(start, disk, 0, |data|)
    requires !stable.Unstable? ==> Has(disk.durable, 0, data) && Has(disk.live, 0, data)
    requires disk.verifier == start.verifier ==> Has(disk.live, 0, data)
    ensures Full(disk, data, stable)
  {
    assert Landed(disk, 0, data, stable, disk.verifier == start.verifier);
    KeptOrder(start, disk, 0, |data|);
    CopyIsWhole(start, disk, data, stable);
  }

  lemma RenameSwaps(a: Snapshot, asked: Snapshot, b: Snapshot, p: Path, q: Path)
    requires Older(a, asked, None) && p in asked.names && p != q
    requires b == Snapshot((asked.names - {p})[q := asked.names[p]], asked.files)
    ensures Swapped(a, b, p, q) && Closed(b)
  {
    hide Kept;
  }

  lemma DropIsOld(a: Snapshot, asked: Snapshot, b: Snapshot, p: Path)
    requires Closed(a) && Older(a, asked, None) && b == asked.(names := asked.names - {p})
    ensures OthersOld(a, b, p)
  {
    hide Kept;
  }

  lemma SwappedIsRenamed(start: Snapshot, a: Snapshot, b: Snapshot, temp: Path, handle: nat, target: Path, data: bytes,
                         stable: StableHow)
    requires Closed(start) && Staged(start, a, temp, handle) && Full(a.files[handle], data, stable) && temp != target
    requires Swapped(a, b, temp, target)
    ensures Renamed(start, b, temp, target, data, stable)
  {
    hide Kept, Full;
    FullStays(a.files[handle], b.files[handle], data, stable);
    forall q | q != target && q != temp ensures Old(Shown(start, q), Shown(b, q)) {
      StagedShows(start, a, temp, handle, q);
      SwappedShows(a, b, temp, target, q);
      OldComposes(Shown(start, q), Shown(a, q), Shown(b, q));
    }
  }

  lemma SwappedShows(a: Snapshot, b: Snapshot, p: Path, q: Path, other: Path)
    requires Closed(a) && Swapped(a, b, p, q) && other != p && other != q
    ensures Old(Shown(a, other), Shown(b, other))
  {
    hide Kept;
  }

  // ---- The history -------------------------------------------------------------------------------

  lemma HistoryJoins(a: seq<Snapshot>, b: seq<Snapshot>, since: nat, target: Path, before: Option<Disk>, data: bytes,
                     stable: StableHow)
    requires a <= b && OldOrNew(a, since, target, before, data, stable)
    requires OldOrNew(b, |a|, target, before, data, stable)
    ensures OldOrNew(b, since, target, before, data, stable)
  {
    hide Old, New, Shown;
    forall k | since <= k < |b|
      ensures Old(before, Shown(b[k], target)) || New(Shown(b[k], target), data, stable)
    {
      if k < |a| {
        assert b[k] == a[k];
      }
    }
  }

  lemma FillHistory(before: seq<Snapshot>, history: seq<Snapshot>, start: Snapshot, made: Snapshot, temp: Path,
                    handle: nat, target: Path, since: nat, data: bytes, stable: StableHow)
    requires Closed(start) && Staged(start, made, temp, handle) && temp != target && before <= history
    requires OldOrNew(before, since, target, Shown(start, target), data, stable)
    requires forall k :: |before| <= k < |history| ==> Older(made, history[k], Some(handle))
    ensures OldOrNew(history, since, target, Shown(start, target), data, stable)
  {
    hide Old, New, Shown, Older, Staged;
    forall k | |before| <= k < |history| ensures Old(Shown(start, target), Shown(history[k], target)) {
      OlderStaged(start, made, history[k], temp, handle, Some(handle));
      StagedShows(start, history[k], temp, handle, target);
    }
    HistoryJoins(before, history, since, target, Shown(start, target), data, stable);
  }

  lemma RenameHistory(before: seq<Snapshot>, history: seq<Snapshot>, start: Snapshot, filled: Snapshot, temp: Path,
                      handle: nat, target: Path, since: nat, data: bytes, stable: StableHow)
    requires Closed(start) && Staged(start, filled, temp, handle) && temp != target && before <= history
    requires handle in filled.files && Full(filled.files[handle], data, stable)
    requires OldOrNew(before, since, target, Shown(start, target), data, stable)
    requires forall k :: |before| <= k < |history| ==>
               Older(filled, history[k], None) || Swapped(filled, history[k], temp, target)
    ensures OldOrNew(history, since, target, Shown(start, target), data, stable)
  {
    hide Old, New, Shown, Older, Staged, Swapped, Full;
    forall k | |before| <= k < |history|
      ensures Old(Shown(start, target), Shown(history[k], target)) || New(Shown(history[k], target), data, stable)
    {
      RenameEnds(start, filled, history[k], temp, handle, target, data, stable);
      FilledIsFair(start, history[k], temp, target, handle, data, stable);
      FairMeans(start, history[k], temp, target, data, stable);
    }
    HistoryJoins(before, history, since, target, Shown(start, target), data, stable);
  }

  lemma RenameEnds(start: Snapshot, filled: Snapshot, s: Snapshot, temp: Path, handle: nat, target: Path, data: bytes,
                   stable: StableHow)
    requires Closed(start) && Staged(start, filled, temp, handle) && temp != target
    requires handle in filled.files && Full(filled.files[handle], data, stable)
    requires Older(filled, s, None) || Swapped(filled, s, temp, target)
    ensures Older(filled, s, None) ==> Staged(start, s, temp, handle)
    ensures Swapped(filled, s, temp, target) ==> Renamed(start, s, temp, target, data, stable)
  {
    hide Older, Staged, Swapped, Full, Renamed;
    if Older(filled, s, None) {
      OlderStaged(start, filled, s, temp, handle, None);
    }
    if Swapped(filled, s, temp, target) {
      SwappedIsRenamed(start, filled, s, temp, handle, target, data, stable);
    }
  }

  lemma OthersOldHistory(before: seq<Snapshot>, history: seq<Snapshot>, start: Snapshot, temp: Path, target: Path,
                         data: bytes, stable: StableHow)
    requires target != temp && forall k :: |before| <= k < |history| ==> OthersOld(start, history[k], temp)
    ensures OldOrNew(history, |before|, target, Shown(start, target), data, stable)
  {
    hide Old, New, Shown;
  }

  lemma OthersOldIsFair(start: Snapshot, s: Snapshot, temp: Path, target: Path, data: bytes, stable: StableHow)
    requires target != temp && OthersOld(start, s, temp)
    ensures Fair(start, s, temp, target, data, stable)
  {
    hide Old, New, Shown;
  }

  lemma FilledIsFair(start: Snapshot, s: Snapshot, temp: Path, target: Path, handle: nat, data: bytes,
                     stable: StableHow)
    requires target != temp && Closed(start)
    requires Staged(start, s, temp, handle) || Renamed(start, s, temp, target, data, stable)
    ensures Fair(start, s, temp, target, data, stable)
    ensures Renamed(start, s, temp, target, data, stable) ==> New(Shown(s, target), data, stable) && temp !in s.names
  {
    hide Old, New, Shown, Staged;
    if Staged(start, s, temp, handle) {
      StagedIsOld(start, s, temp, handle);
    }
  }

  lemma RemoveIsFair(start: Snapshot, a: Snapshot, b: Snapshot, temp: Path, target: Path, data: bytes,
                     stable: StableHow)
    requires target != temp && Fair(start, a, temp, target, data, stable) && OthersOld(a, b, temp)
    ensures Fair(start, b, temp, target, data, stable)
  {
    hide Old, New, Shown;
    forall q | q != temp && Old(Shown(start, q), Shown(a, q)) ensures Old(Shown(start, q), Shown(b, q)) {
      OldComposes(Shown(start, q), Shown(a, q), Shown(b, q));
    }
    if New(Shown(a, target), data, stable) {
      NewStays(Shown(a, target), Shown(b, target), data, stable);
    }
  }

  lemma RemoveHistory(before: seq<Snapshot>, history: seq<Snapshot>, start: Snapshot, left: Snapshot, temp: Path,
                      target: Path, since: nat, data: bytes, stable: StableHow)
    requires target != temp && before <= history && Fair(start, left, temp, target, data, stable)
    requires OldOrNew(before, since, target, Shown(start, target), data, stable)
    requires forall k :: |before| <= k < |history| ==> OthersOld(left, history[k], temp)
    ensures OldOrNew(history, since, target, Shown(start, target), data, stable)
  {
    hide Old, New, Shown, OthersOld, Fair;
    forall k | |before| <= k < |history|
      ensures Old(Shown(start, target), Shown(history[k], target)) || New(Shown(history[k], target), data, stable)
    {
      RemoveIsFair(start, left, history[k], temp, target, data, stable);
      FairMeans(start, history[k], temp, target, data, stable);
    }
    HistoryJoins(before, history, since, target, Shown(start, target), data, stable);
  }

  lemma FairMeans(start: Snapshot, s: Snapshot, temp: Path, target: Path, data: bytes, stable: StableHow)
    requires Fair(start, s, temp, target, data, stable)
    ensures Old(Shown(start, target), Shown(s, target)) || New(Shown(s, target), data, stable)
    ensures forall q :: q != target && q != temp ==> Old(Shown(start, q), Shown(s, q))
  {
    hide Old, New, Shown;
  }

  /** A file number not in use. */
  method NewInode(files: map<nat, Disk>) returns (inode: nat)
    ensures inode !in files
  {
    inode := 0;
    var left := files.Keys;
    while left != {}
      invariant left <= files.Keys && forall i :: i in files && i !in left ==> i < inode
      decreases |left|
    {
      var i :| i in left;
      left := left - {i};
      if i >= inode {
        inode := i + 1;
      }
    }
  }
}

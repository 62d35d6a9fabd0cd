/** Reading a directory in batches by cookie (src/v3/blocking.rs:1224-1255,
    src/v3/client.rs:179-232; sections 3.3.16 and 3.3.17 of RFC 1813). */
module Listing {
  import opened Errors
  import opened Xdr
  import opened Paths

  datatype Item = Item(name: Name, fileid: nat, cookie: nat)
  datatype Batch = Batch(items: seq<Item>, eof: bool, verf: nat)
  datatype Cursor = Cursor(cookie: nat, verf: nat)

  /** A server, as its answer to every READDIRPLUS and READDIR at every time: any at all. */
  type Server = (nat, bool, Cursor) -> Result<Batch>

  function AppendEntries(out: seq<Item>, batch: Batch, max: nat): (r: Result<seq<Item>>)
    ensures r.Success? <==> |out| + |batch.items| <= max
    ensures r.Success? ==> r.value == out + batch.items
  {
    if |out| + |batch.items| > max then Failure(Protocol) else Success(out + batch.items)
  }

  function NextCursor(batch: Batch, previous: nat): Result<Option<Cursor>> {
    if batch.eof then Success(None)
    else if batch.items == [] then Failure(Protocol)
    else
      var last := batch.items[|batch.items| - 1];
      if last.cookie == previous then Failure(Protocol) else Success(Some(Cursor(last.cookie, batch.verf)))
  }

  // ---- A directory that does not change -------------------------------------------------------

  predicate IsDirectory(dir: seq<Item>) {
    && (forall i :: 0 <= i < |dir| ==> dir[i].cookie != 0)
    && (forall i, j :: 0 <= i < j < |dir| ==> dir[i].cookie != dir[j].cookie)
  }

  /** The cursor stands in front of entry `i`. */
  predicate StandsAt(dir: seq<Item>, cookie: nat, i: nat) {
    i <= |dir| && cookie == if i == 0 then 0 else dir[i - 1].cookie
  }

  /** A truthful batch: the next few entries, and the end only at the end. */
  predicate Continues(dir: seq<Item>, i: nat, batch: Batch) {
    && i + |batch.items| <= |dir|
    && batch.items == dir[i..i + |batch.items|]
    && (batch.eof ==> i + |batch.items| == |dir|)
  }

  ghost predicate Serves(server: Server, dir: seq<Item>) {
    forall t: nat, plus: bool, cursor: Cursor, i: nat ::
      StandsAt(dir, cursor.cookie, i) && server(t, plus, cursor).Success? ==>
        Continues(dir, i, server(t, plus, cursor).value)
  }

  /** Such a server that also answers every request, and short of the end with something. */
  ghost predicate Delivers(server: Server, dir: seq<Item>) {
    && Serves(server, dir)
    && forall t: nat, plus: bool, cursor: Cursor ::
         server(t, plus, cursor).Success?
         && (server(t, plus, cursor).value.items == [] ==> server(t, plus, cursor).value.eof)
  }

  class Lister {
    const server: Server
    var clock: nat

    constructor (server: Server)
      ensures this.server == server && clock == 0
    {
      this.server, clock := server, 0;
    }

    /** READDIRPLUS, or READDIR where that is not supported. */
    method FetchBatch(cursor: Cursor, ghost dir: seq<Item>, ghost i: nat) returns (r: Result<Batch>)
      modifies `clock
      ensures old(clock) < clock <= old(clock) + 2
      ensures r.Success? && Serves(server, dir) && StandsAt(dir, cursor.cookie, i) ==> Continues(dir, i, r.value)
      ensures Delivers(server, dir) ==> r.Success? && (r.value.items == [] ==> r.value.eof)
    {
      r := server(clock, true, cursor);
      clock := clock + 1;
      if r.Failure? && r.error == Nfs(NotSupported3) {
        r := server(clock, false, cursor);
        clock := clock + 1;
      }
    }

    /** Lists a directory. Against any server, even one whose cookies run in circles, it ends after
        at most `max` + 1 batches with at most `max` entries; an unchanging directory is returned
        whole, each entry once and in order, and is returned if it is within the limit and the
        server answers. */
    method ReadDir(max: nat, ghost dir: seq<Item>) returns (r: Result<seq<Item>>)
      requires IsDirectory(dir)
      modifies `clock
      ensures clock <= old(clock) + 2 * (max + 1)
      ensures r.Success? ==> |r.value| <= max
      ensures r.Success? && Serves(server, dir) ==> r.value == dir
      ensures Delivers(server, dir) ==> (r.Success? <==> |dir| <= max)
    {
      var entries, cursor := [], Cursor(0, 0);
      ghost var batches := 0;
      while true
        invariant |entries| <= max && batches <= |entries| && clock <= old(clock) + 2 * batches
        invariant Serves(server, dir) ==> entries <= dir && StandsAt(dir, cursor.cookie, |entries|)
        decreases max - |entries|
      {
        var batch :- FetchBatch(cursor, dir, |entries|);
        batches := batches + 1;
        if Serves(server, dir) {
          BatchExtends(dir, entries, cursor.cookie, batch);
        }
        entries :- AppendEntries(entries, batch, max);
        var next :- NextCursor(batch, cursor.cookie);
        if next.None? {
          return Success(entries);
        }
        cursor := next.value;
      }
    }
  }

  lemma BatchExtends(dir: seq<Item>, entries: seq<Item>, cookie: nat, batch: Batch)
    requires IsDirectory(dir) && entries <= dir && StandsAt(dir, cookie, |entries|) && Continues(dir, |entries|, batch)
    ensures entries + batch.items <= dir
    ensures batch.eof ==> entries + batch.items == dir
    ensures batch.items != [] ==>
              var last := batch.items[|batch.items| - 1].cookie;
              StandsAt(dir, last, |entries| + |batch.items|) && last != cookie
  {
    var n := |entries|;
    if batch.items != [] {
      assert batch.items[|batch.items| - 1] == dir[n + |batch.items| - 1];
    }
  }
}

/** Record marking over a byte stream (section 11 of RFC 5531), RPC calls on one connection, and
    what a timeout, an error or a cancelled future may leave behind (src/rpc.rs, src/tokio_rpc.rs). */
module Records {
  import opened Errors
  import opened Xdr

  const LAST: nat := 0x8000_0000

  /** Bytes `pos..pos + n` of an endless stream. */
  function Window(stream: nat -> byte, pos: nat, n: nat): (r: bytes)
    ensures |r| == n && forall i :: 0 <= i < n ==> r[i] == stream(pos + i)
  {
    seq(n, i requires 0 <= i < n => stream(pos + i))
  }

  predicate Holds(stream: nat -> byte, pos: nat, s: bytes) {
    Window(stream, pos, |s|) == s
  }

  lemma HoldsConcat(stream: nat -> byte, pos: nat, a: bytes, b: bytes)
    ensures Holds(stream, pos, a + b) <==> Holds(stream, pos, a) && Holds(stream, pos + |a|, b)
  {
    var w := Window(stream, pos, |a + b|);
    assert w == Window(stream, pos, |a|) + Window(stream, pos + |a|, |b|);
    if w == a + b {
      assert w[..|a|] == a && w[|a|..] == b;
    }
  }

  // ---- Records --------------------------------------------------------------------------------

  /** A fragment on the wire: the length with the top bit for the last one, then the data. */
  function Fragment(data: bytes, last: bool): bytes
    requires |data| < LAST
  {
    BigEndian(|data| + if last then LAST else 0, 4) + data
  }

  /** A record in one fragment, or nothing if it is too long for that. */
  function Framed(payload: bytes): bytes {
    if |payload| < LAST then Fragment(payload, true) else []
  }

  /** How a sender may cut a record: at least one fragment, only the last one may be empty, and
      each length fits 31 bits. */
  predicate Legal(cut: seq<bytes>) {
    && cut != []
    && (forall i :: 0 <= i < |cut| ==> |cut[i]| < LAST)
    && (forall i :: 0 <= i < |cut| - 1 ==> cut[i] != [])
  }

  function Join(cut: seq<bytes>): bytes {
    if cut == [] then [] else cut[0] + Join(cut[1..])
  }

  function Marked(cut: seq<bytes>): bytes
    requires Legal(cut)
  {
    if |cut| == 1 then Fragment(cut[0], true) else Fragment(cut[0], false) + Marked(cut[1..])
  }

  datatype Parsed = Whole(record: bytes, end: nat) | Bad(error: Error)

  /** What reading a record from the stream yields. The measure is what the limit leaves: every
      fragment but the last must bring something. */
  function Parse(stream: nat -> byte, pos: nat, gathered: bytes, max: nat): (r: Parsed)
    requires |gathered| <= max
    ensures r.Whole? ==> pos + 4 <= r.end && gathered <= r.record && |r.record| <= max
    decreases max - |gathered|
  {
    var header := FromBigEndian(Window(stream, pos, 4));
    var last, len := header >= LAST, header % LAST;
    if len == 0 && !last then Bad(Protocol)
    else if |gathered| + len > max then Bad(RpcRecordTooLarge)
    else
      var record := gathered + Window(stream, pos + 4, len);
      if last then Whole(record, pos + 4 + len) else Parse(stream, pos + 4 + len, record, max)
  }

  lemma HeaderRoundTrip(len: nat, last: bool)
    requires len < LAST
    ensures var header := FromBigEndian(BigEndian(len + if last then LAST else 0, 4));
            (header >= LAST <==> last) && header % LAST == len
  {
    hide BigEndian, FromBigEndian, Power;
    Widths();
    BigEndianRoundTrip(len + if last then LAST else 0, 4);
  }

  /** Reading inverts every legal way to cut a payload within the limit, and stops right behind
      it, whatever follows in the stream. */
  lemma {:induction false} ParseInvertsMarking(stream: nat -> byte, pos: nat, gathered: bytes, cut: seq<bytes>,
                                               max: nat)
    requires Legal(cut) && Holds(stream, pos, Marked(cut)) && |gathered| + |Join(cut)| <= max
    ensures Parse(stream, pos, gathered, max) == Whole(gathered + Join(cut), pos + |Marked(cut)|)
    decreases |cut|
  {
    hide BigEndian, FromBigEndian, Holds;
    var data, last := cut[0], |cut| == 1;
    var header := BigEndian(|data| + if last then LAST else 0, 4);
    HeaderRoundTrip(|data|, last);
    if last {
      assert Join(cut) == data + Join([]) == data;
    } else {
      HoldsConcat(stream, pos, Fragment(data, false), Marked(cut[1..]));
    }
    HoldsConcat(stream, pos, header, data);
    HoldsIsWindow(stream, pos, header);
    HoldsIsWindow(stream, pos + 4, data);
    if !last {
      ParseInvertsMarking(stream, pos + 4 + |data|, gathered + data, cut[1..], max);
      assert (gathered + data) + Join(cut[1..]) == gathered + Join(cut);
    }
  }

  lemma HoldsIsWindow(stream: nat -> byte, pos: nat, s: bytes)
    ensures Holds(stream, pos, s) <==> Window(stream, pos, |s|) == s
  {
  }

  /** The other way round: whatever is accepted as a record is a legal cut of it. */
  lemma {:induction false} ParsedIsMarked(stream: nat -> byte, pos: nat, gathered: bytes, max: nat)
    returns (cut: seq<bytes>)
    requires |gathered| <= max && Parse(stream, pos, gathered, max).Whole?
    ensures Legal(cut) && Holds(stream, pos, Marked(cut))
    ensures Parse(stream, pos, gathered, max) == Whole(gathered + Join(cut), pos + |Marked(cut)|)
    decreases max - |gathered|
  {
    hide BigEndian, FromBigEndian, Holds;
    var raw := Window(stream, pos, 4);
    var header := FromBigEndian(raw);
    var last, len := header >= LAST, header % LAST;
    var data := Window(stream, pos + 4, len);
    assert header == len + (if last then LAST else 0) by {
      Widths();
      FromBigEndianRoundTrip(raw);
    }
    assert raw == BigEndian(len + if last then LAST else 0, 4) by { FromBigEndianRoundTrip(raw); }
    HoldsIsWindow(stream, pos, raw);
    HoldsIsWindow(stream, pos + 4, data);
    HoldsConcat(stream, pos, raw, data);
    if last {
      cut := [data];
      assert Join(cut) == data + Join([]) == data;
    } else {
      var rest := ParsedIsMarked(stream, pos + 4 + len, gathered + data, max);
      cut := [data] + rest;
      assert cut[1..] == rest;
      HoldsConcat(stream, pos, Fragment(data, false), Marked(rest));
      assert (gathered + data) + Join(rest) == gathered + Join(cut);
    }
  }

  /** A larger limit accepts no other records. */
  lemma {:induction false} ParseUnderLargerLimit(stream: nat -> byte, pos: nat, gathered: bytes, max: nat, larger: nat)
    requires |gathered| <= max <= larger && Parse(stream, pos, gathered, max).Whole?
    ensures Parse(stream, pos, gathered, larger) == Parse(stream, pos, gathered, max)
    decreases max - |gathered|
  {
    hide FromBigEndian;
    var header := FromBigEndian(Window(stream, pos, 4));
    if header < LAST {
      ParseUnderLargerLimit(stream, pos + 4 + header % LAST, gathered + Window(stream, pos + 4, header % LAST), max,
                            larger);
    }
  }

  /** So a record that is read where one was sent is that record. */
  lemma ReadIsWhatWasSent(stream: nat -> byte, pos: nat, cut: seq<bytes>, max: nat)
    requires Legal(cut) && Holds(stream, pos, Marked(cut)) && Parse(stream, pos, [], max).Whole?
    ensures Parse(stream, pos, [], max) == Whole(Join(cut), pos + |Marked(cut)|)
  {
    hide Parse, Marked, Legal, Holds;
    var larger := max + |Join(cut)|;
    ParseUnderLargerLimit(stream, pos, [], max, larger);
    ParseInvertsMarking(stream, pos, [], cut, larger);
    assert [] + Join(cut) == Join(cut);
  }

  // ---- Replies --------------------------------------------------------------------------------

  function Lift<T>(r: Outcome<T>): Result<T> {
    if r.Done? then Success(r.value) else Failure(Xdr)
  }

  function Consumed(reply: bytes, pos: nat, verdict: Error): Result<bytes> {
    if pos == |reply| then Failure(verdict) else Failure(Xdr)
  }

  const VERIFIER: Shape := Pair(Word, Opaque(400))

  /** The payload of a reply to the call with this xid. */
  function DecodeReply(xid: nat, reply: bytes): (r: Result<bytes>)
    ensures r.Success? ==> |reply| >= 4 && FromBigEndian(reply[..4]) == xid
    ensures r.Failure? ==> !r.error.OutcomeUnknown? && !r.error.RpcConnectionInvalid?
  {
    var id :- Lift(DecodeWord(reply, 0));
    if id.0 != xid then Failure(RpcMismatch)
    else
      var kind :- Lift(DecodeWord(reply, 4));
      if kind.0 != 1 then Failure(RpcUnexpectedMessageType)
      else
        var verdict :- Lift(DecodeWord(reply, 8));
        if verdict.0 == 0 then DecodeAccepted(reply)
        else if verdict.0 == 1 then DecodeDenied(reply)
        else Consumed(reply, 12, RpcDenied)
  }

  function DecodeAccepted(reply: bytes): Result<bytes>
    requires 12 <= |reply|
  {
    var verifier :- Lift(Decode(VERIFIER, reply, 12));
    var stat :- Lift(DecodeWord(reply, verifier.1));
    if stat.0 == 0 then Success(reply[stat.1..])
    else if stat.0 == 2 then
      var low :- Lift(DecodeWord(reply, stat.1));
      var high :- Lift(DecodeWord(reply, low.1));
      Consumed(reply, high.1, RpcProgramMismatch)
    else Consumed(reply, stat.1, RpcAcceptedError)
  }

  function DecodeDenied(reply: bytes): Result<bytes>
    requires 12 <= |reply|
  {
    var stat :- Lift(DecodeWord(reply, 12));
    if stat.0 == 0 then
      var low :- Lift(DecodeWord(reply, 16));
      var high :- Lift(DecodeWord(reply, 20));
      Consumed(reply, high.1, RpcProgramMismatch)
    else if stat.0 == 1 then
      var auth :- Lift(DecodeWord(reply, 16));
      Consumed(reply, auth.1, RpcDenied)
    else Consumed(reply, 16, RpcDenied)
  }

  /** An accepted, successful reply as RFC 5531 lays it out. */
  function SuccessReply(xid: nat, verifier: Datum, payload: bytes): bytes
    requires Typed(VERIFIER, verifier)
  {
    BigEndian(xid, 4) + (BigEndian(1, 4) + (BigEndian(0, 4)
    + (Encoding(VERIFIER, verifier) + (BigEndian(0, 4) + payload))))
  }

  /** Decoding such a reply gives its payload back. */
  lemma ReplyRoundTrip(xid: nat, verifier: Datum, payload: bytes)
    requires xid < U32 && Typed(VERIFIER, verifier) && Fits(VERIFIER, verifier)
    ensures DecodeReply(xid, SuccessReply(xid, verifier, payload)) == Success(payload)
  {
    hide BigEndian, Encoding, Decode, DecodeWord, At;
    var reply := SuccessReply(xid, verifier, payload);
    var tail := BigEndian(0, 4) + payload;
    var accepted := Encoding(VERIFIER, verifier) + tail;
    WholeIsAt(reply);
    AtConcat(reply, 0, BigEndian(xid, 4), BigEndian(1, 4) + (BigEndian(0, 4) + accepted));
    AtConcat(reply, 4, BigEndian(1, 4), BigEndian(0, 4) + accepted);
    AtConcat(reply, 8, BigEndian(0, 4), accepted);
    AtConcat(reply, 12, Encoding(VERIFIER, verifier), tail);
    var end := 12 + |Encoding(VERIFIER, verifier)|;
    AtConcat(reply, end, BigEndian(0, 4), payload);
    WordRoundTrip(reply, 0, xid);
    WordRoundTrip(reply, 4, 1);
    WordRoundTrip(reply, 8, 0);
    RoundTrip(VERIFIER, verifier, reply, 12);
    WordRoundTrip(reply, end, 0);
    RestIsAt(reply, end + 4, payload);
  }

  lemma WholeIsAt(s: bytes)
    ensures At(s, 0, s)
  {
  }

  lemma RestIsAt(input: bytes, pos: nat, s: bytes)
    requires At(input, pos, s) && |input| == pos + |s|
    ensures input[pos..] == s
  {
  }

  // ---- Calls ------------------------------------------------------------------------------------

  /** What happens at one point where the client waits for the network: the transfer completes,
      breaks off, or the waiting future is dropped; `partial` bytes had moved by then. */
  datatype Event = Fine | Breaks(kind: IoKind, partial: nat) | Dropped(partial: nat)

  /** How an operation ends: with a result, or without one because its future was dropped. */
  datatype Ending<T> = Returned(result: Result<T>) | Gone

  function NextXid(xid: nat): (r: nat)
    requires xid < U32
    ensures 1 <= r < U32
  {
    if xid + 1 == U32 then 1 else xid + 1
  }

  function XidAfter(xid: nat, n: nat): (r: nat)
    requires xid < U32
    ensures r < U32
  {
    if n == 0 then xid else NextXid(XidAfter(xid, n - 1))
  }

  /** An xid comes back only after every other one was used. */
  lemma {:induction false} XidIsFresh(xid: nat, n: nat)
    requires 1 <= xid < U32
    ensures 1 <= XidAfter(xid, n)
    ensures n < U32 - 1 ==> XidAfter(xid, n) == (if xid + n < U32 then xid + n else xid + n - (U32 - 1))
    ensures 0 < n < U32 - 1 ==> XidAfter(xid, n) != xid
  {
    if n > 0 {
      XidIsFresh(xid, n - 1);
    }
  }

  /** The header of a call in front of its encoded credential and arguments. */
  function CallMessage(xid: nat, program: nat, version: nat, procedure: nat, rest: bytes): bytes {
    BigEndian(xid, 4) + BigEndian(0, 4) + BigEndian(2, 4)
    + BigEndian(program, 4) + BigEndian(version, 4) + BigEndian(procedure, 4) + rest
  }

  /** The requests a connection wrote, record after record. */
  function Wire(requests: seq<bytes>): bytes
    requires forall r :: r in requests ==> |r| < LAST
  {
    if requests == [] then [] else Wire(requests[..|requests| - 1]) + Fragment(requests[|requests| - 1], true)
  }

  /** Where the `k`th reply of a peer starts that cuts its replies like this. */
  function ReplyStart(replies: nat -> seq<bytes>, k: nat): nat
    requires forall i :: Legal(replies(i))
  {
    if k == 0 then 0 else ReplyStart(replies, k - 1) + |Marked(replies(k - 1))|
  }

  /** The peer answers in order: its replies follow one another on the stream. */
  ghost predicate AnswersInOrder(stream: nat -> byte, replies: nat -> seq<bytes>) {
    && (forall i :: Legal(replies(i)))
    && forall k :: Holds(stream, ReplyStart(replies, k), Marked(replies(k)))
  }

  lemma NextReplyIsRead(stream: nat -> byte, replies: nat -> seq<bytes>, k: nat, max: nat)
    requires AnswersInOrder(stream, replies) && Parse(stream, ReplyStart(replies, k), [], max).Whole?
    ensures Parse(stream, ReplyStart(replies, k), [], max) == Whole(Join(replies(k)), ReplyStart(replies, k + 1))
  {
    hide Parse, Marked, Legal, Holds, Join;
    ReadIsWhatWasSent(stream, ReplyStart(replies, k), replies(k), max);
  }

  class Connection {
    const incoming: nat -> byte
    const events: nat -> Event
    const maxRecordSize: nat
    var clock: nat
    var position: nat
    var written: bytes
    var xid: nat
    var interrupted: bool
    ghost var requests: seq<bytes>

    /** On a connection in use everything written is whole requests. A poisoned one wrote at most
        the beginning of one more. */
    ghost predicate Valid()
      reads this
    {
      && xid < U32
      && (forall r :: r in requests ==> |r| < LAST)
      && Wire(requests) <= written
      && (!interrupted ==> written == Wire(requests))
    }

    /** With a peer that answers in order, as many replies were read as requests were written. */
    ghost predicate InStep(replies: nat -> seq<bytes>)
      reads this
    {
      AnswersInOrder(incoming, replies) && (!interrupted ==> position == ReplyStart(replies, |requests|))
    }

    constructor (incoming: nat -> byte, events: nat -> Event, maxRecordSize: nat, xid: nat)
      requires xid < U32
      ensures Valid() && !interrupted && requests == [] && this.incoming == incoming
      ensures forall replies :: AnswersInOrder(incoming, replies) ==> InStep(replies)
    {
      this.incoming, this.events, this.maxRecordSize, this.xid := incoming, events, maxRecordSize, xid;
      clock, position, written, interrupted, requests := 0, 0, [], false, [];
    }

    /** From now on nothing goes wrong on the network. */
    ghost predicate Smooth()
      reads `clock
    {
      forall t :: t >= clock ==> events(t).Fine?
    }

    method ReadExact(n: nat) returns (r: Ending<bytes>)
      modifies `clock, `position
      ensures clock == old(clock) + 1 && old(position) <= position <= old(position) + n
      ensures events(old(clock)).Fine? ==>
                r == Returned(Success(Window(incoming, old(position), n))) && position == old(position) + n
      ensures events(old(clock)).Breaks? ==> r == Returned(Failure(Io(events(old(clock)).kind)))
      ensures events(old(clock)).Dropped? ==> r == Gone
    {
      var event := events(clock);
      clock := clock + 1;
      match event {
        case Fine =>
          r := Returned(Success(Window(incoming, position, n)));
          position := position + n;
        case Breaks(kind, partial) =>
          r := Returned(Failure(Io(kind)));
          position := position + if partial < n then partial else n;
        case Dropped(partial) =>
          r := Gone;
          position := position + if partial < n then partial else n;
      }
    }

    method WriteAll(data: bytes) returns (r: Ending<()>)
      modifies `clock, `written
      ensures clock == old(clock) + 1 && old(written) <= written <= old(written) + data
      ensures events(old(clock)).Fine? ==> r.Returned? && r.result.Success?
      ensures r.Returned? && r.result.Success? ==> written == old(written) + data
      ensures r.Returned? && r.result.Failure? ==> r.result.error.Io?
    {
      var event := events(clock);
      clock := clock + 1;
      match event {
        case Fine =>
          r := Returned(Success(()));
          written := written + data;
        case Breaks(kind, partial) =>
          r := Returned(Failure(Io(kind)));
          written := written + data[..if partial < |data| then partial else |data|];
        case Dropped(partial) =>
          r := Gone;
          written := written + data[..if partial < |data| then partial else |data|];
      }
    }

    /** Sends one record in one fragment. */
    method WriteRecord(payload: bytes) returns (r: Ending<()>)
      modifies `clock, `written
      ensures old(written) <= written <= old(written) + Framed(payload) && clock >= old(clock)
      ensures old(Smooth()) && |payload| < LAST ==> r.Returned? && r.result.Success?
      ensures r.Returned? && r.result.Success? ==>
                |payload| < LAST && written == old(written) + Fragment(payload, true)
      ensures r.Returned? && r.result.Failure? ==> r.result.error.Io? || r.result.error.RpcRecordTooLarge?
    {
      hide BigEndian;
      if |payload| >= LAST {
        return Returned(Failure(RpcRecordTooLarge));
      }
      var header := BigEndian(|payload| + LAST, 4);
      r := WriteAll(header);
      if r.Gone? || r.result.Failure? {
        return;
      }
      r := WriteAll(payload);
      if r.Gone? || r.result.Failure? {
        return;
      }
      r := WriteAll([]);
    }

    /** Reads one record, fragment by fragment, from any stream: an accepted record is what
        `Parse` finds, and the cursor stands right behind it. */
    method ReadRecord() returns (r: Ending<bytes>)
      modifies `clock, `position
      ensures r.Returned? && r.result.Success? ==>
                Parse(incoming, old(position), [], maxRecordSize) == Whole(r.result.value, position)
      ensures r.Returned? && r.result.Failure? ==>
                r.result.error.Io? || Parse(incoming, old(position), [], maxRecordSize) == Bad(r.result.error)
      ensures old(Smooth()) ==> r.Returned? && (r.result.Failure? ==> !r.result.error.Io?)
    {
      hide FromBigEndian;
      var record := [];
      while true
        invariant |record| <= maxRecordSize && clock >= old(clock)
        invariant Parse(incoming, position, record, maxRecordSize) == Parse(incoming, old(position), [], maxRecordSize)
        decreases maxRecordSize - |record|
      {
        var header := ReadExact(4);
        if header.Gone? || header.result.Failure? {
          return header;
        }
        var word := FromBigEndian(header.result.value);
        var last, len := word >= LAST, word % LAST;
        if len == 0 && !last {
          return Returned(Failure(Protocol));
        }
        if |record| + len > maxRecordSize {
          return Returned(Failure(RpcRecordTooLarge));
        }
        var fragment := ReadExact(len);
        if fragment.Gone? || fragment.result.Failure? {
          return fragment;
        }
        record := record + fragment.result.value;
        if last {
          return Returned(Success(record));
        }
      }
    }

    /** One call. A poisoned connection neither writes nor reads. Otherwise the connection is
        poisoned until a whole reply to exactly this call was read: every way to end before that,
        a dropped future included, leaves it poisoned, and a caller that gets an error then is told
        that the outcome is unknown. With a peer that answers in order, the reply read is the one
        to the request just written. */
    method Call(program: nat, version: nat, procedure: nat, rest: Outcome<bytes>, ghost replies: nat -> seq<bytes>)
      returns (r: Ending<bytes>)
      requires Valid() && program < U32 && version < U32 && procedure < U32
      modifies this
      ensures Valid() && (old(InStep(replies)) ==> InStep(replies))
      ensures old(interrupted) ==>
                && r == Returned(Failure(RpcConnectionInvalid)) && interrupted
                && (written, position, requests) == old((written, position, requests))
      ensures !old(interrupted) && rest.Failed? ==>
                && r == Returned(Failure(Xdr)) && !interrupted
                && (written, position, requests) == old((written, position, requests))
      ensures !old(interrupted) && rest.Done? ==>
                && xid == NextXid(old(xid))
                && if interrupted then
                     && requests == old(requests)
                     && old(written) <= written
                     && written <= old(written) + Framed(CallMessage(xid, program, version, procedure, rest.value))
                     && (r.Gone? || (r.result.Failure? && r.result.error.OutcomeUnknown?))
                   else
                     && requests == old(requests) + [CallMessage(xid, program, version, procedure, rest.value)]
                     && r.Returned?
                     && Parse(incoming, old(position), [], maxRecordSize).Whole?
                     && Parse(incoming, old(position), [], maxRecordSize).end == position
                     && DecodeReply(xid, Parse(incoming, old(position), [], maxRecordSize).record) == r.result
                     && (old(InStep(replies)) ==> DecodeReply(xid, Join(replies(|old(requests)|))) == r.result)
      ensures !old(interrupted) && rest.Done? && old(Smooth()) ==>
                var parsed := Parse(incoming, old(position), [], maxRecordSize);
                (|CallMessage(xid, program, version, procedure, rest.value)| < LAST && parsed.Whole?
                 && DecodeReply(xid, parsed.record).Success?) ==> r == Returned(DecodeReply(xid, parsed.record))
    {
      hide BigEndian, FromBigEndian, Parse, DecodeReply, Join, Legal, Marked, Fragment, Wire, CallMessage, Holds;
      hide AnswersInOrder, ReplyStart, Framed;
      if interrupted {
        return Returned(Failure(RpcConnectionInvalid));
      }
      xid := NextXid(xid);
      if rest.Failed? {
        return Returned(Failure(Xdr));
      }
      var request := CallMessage(xid, program, version, procedure, rest.value);
      interrupted := true;
      var wrote := WriteRecord(request);
      if wrote.Gone? {
        return Gone;
      }
      if wrote.result.Failure? {
        return Returned(Failure(OutcomeUnknown(wrote.result.error)));
      }
      WireExtends(requests, request);
      var reply := ReadRecord();
      if reply.Gone? {
        return Gone;
      }
      if reply.result.Failure? {
        return Returned(Failure(OutcomeUnknown(reply.result.error)));
      }
      var payload := DecodeReply(xid, reply.result.value);
      if payload.Failure?
         && !(payload.error.RpcDenied? || payload.error.RpcAcceptedError? || payload.error.RpcProgramMismatch?) {
        return Returned(Failure(OutcomeUnknown(payload.error)));
      }
      interrupted := false;
      requests := requests + [request];
      if old(InStep(replies)) {
        NextReplyIsRead(incoming, replies, |old(requests)|, maxRecordSize);
      }
      return Returned(payload);
    }
  }

  lemma WireExtends(requests: seq<bytes>, request: bytes)
    requires |request| < LAST && forall r :: r in requests ==> |r| < LAST
    ensures forall r :: r in requests + [request] ==> |r| < LAST
    ensures Wire(requests + [request]) == Wire(requests) + Fragment(request, true)
  {
    hide Fragment;
    assert (requests + [request])[..|requests|] == requests;
  }

  datatype Request = Request(program: nat, version: nat, procedure: nat, rest: Outcome<bytes>)

  predicate Poisons(r: Ending<bytes>) {
    r.Gone? || (r.result.Failure? && (r.result.error.OutcomeUnknown? || r.result.error.RpcConnectionInvalid?))
  }

  /** `result` is what reply number `k` says to request number `k`, which is this call. */
  ghost predicate Answers(result: Result<bytes>, call: Request, requests: seq<bytes>, replies: nat -> seq<bytes>,
                          k: nat)
  {
    && k < |requests| && call.rest.Done?
    && exists xid: nat :: xid < U32
         && requests[k] == CallMessage(xid, call.program, call.version, call.procedure, call.rest.value)
         && DecodeReply(xid, Join(replies(k))) == result
  }

  /** This call went out and its reply came back whole. */
  predicate Answered(r: Ending<bytes>, call: Request) {
    !Poisons(r) && call.rest.Done?
  }

  /** Every answered call has its own reply, in order; the first poisoning is the end of writing. */
  ghost predicate Told(calls: seq<Request>, results: seq<Ending<bytes>>, numbers: seq<nat>, wrote: seq<bytes>,
                       requests: seq<bytes>, replies: nat -> seq<bytes>)
  {
    && |results| == |numbers| == |wrote| <= |calls|
    && (forall i :: 0 <= i < |results| && Answered(results[i], calls[i]) ==>
          Answers(results[i].result, calls[i], requests, replies, numbers[i]))
    && (forall i, j :: 0 <= i < j < |results| && Answered(results[i], calls[i]) && Answered(results[j], calls[j]) ==>
          numbers[i] < numbers[j])
    && (forall i, j :: 0 <= i < j < |results| && Poisons(results[i]) ==>
          results[j] == Returned(Failure(RpcConnectionInvalid)) && wrote[j] == wrote[i])
  }

  /** The first `n` results leave the connection usable. */
  predicate Clean(results: seq<Ending<bytes>>, n: nat) {
    forall k :: 0 <= k < n && k < |results| ==> !Poisons(results[k])
  }

  /** The first `n` requests as whole records. */
  function Sent(requests: seq<bytes>, n: nat): bytes {
    if n <= |requests| && (forall r :: r in requests[..n] ==> |r| < LAST) then Wire(requests[..n]) else []
  }

  lemma SentStays(a: seq<bytes>, b: seq<bytes>, n: nat)
    requires a <= b && n <= |a|
    ensures Sent(b, n) == Sent(a, n)
  {
    hide Wire;
    assert b[..n] == a[..n];
  }

  lemma SentAll(requests: seq<bytes>)
    requires forall r :: r in requests ==> |r| < LAST
    ensures Sent(requests, |requests|) == Wire(requests)
  {
    hide Wire;
    assert requests[..|requests|] == requests;
  }

  /** What was written is the first `n` requests. */
  predicate WholeRequests(written: bytes, requests: seq<bytes>, n: nat) {
    n <= |requests| && written == Sent(requests, n)
  }

  /** And at most the beginning of one more, which is this call. */
  ghost predicate CutShort(written: bytes, requests: seq<bytes>, n: nat, call: Request) {
    && n <= |requests| && call.rest.Done? && Sent(requests, n) <= written
    && exists xid: nat :: xid < U32
         && written <= Sent(requests, n)
                       + Framed(CallMessage(xid, call.program, call.version, call.procedure, call.rest.value))
  }

  /** What had been written after each call, up to the one that poisoned the connection. */
  ghost predicate Accounted(calls: seq<Request>, results: seq<Ending<bytes>>, numbers: seq<nat>, wrote: seq<bytes>,
                            requests: seq<bytes>)
  {
    && |results| == |numbers| == |wrote| <= |calls|
    && forall i :: 0 <= i < |results| && Clean(results, i) ==>
         if Poisons(results[i]) then CutShort(wrote[i], requests, numbers[i], calls[i])
         else WholeRequests(wrote[i], requests, numbers[i] + if Answered(results[i], calls[i]) then 1 else 0)
  }

  /** A whole conversation with a peer that answers in order: every result that is not an error
      of this side's own is the reply to exactly that call, no two calls share a reply, and after
      the first poisoning nothing is written any more; `wrote` is what had been written after each. */
  method Converse(c: Connection, calls: seq<Request>, ghost replies: nat -> seq<bytes>)
    returns (results: seq<Ending<bytes>>, ghost numbers: seq<nat>, ghost wrote: seq<bytes>)
    requires c.Valid() && c.InStep(replies) && c.requests == []
    requires forall q :: q in calls ==> q.program < U32 && q.version < U32 && q.procedure < U32
    modifies c
    ensures |results| == |calls| && Told(calls, results, numbers, wrote, c.requests, replies)
    ensures !old(c.interrupted) ==> Accounted(calls, results, numbers, wrote, c.requests)
    ensures calls != [] ==> wrote[|calls| - 1] == c.written
  {
    hide CallMessage, DecodeReply, Join, Parse, Wire, AnswersInOrder, ReplyStart, Answers, Told, Accounted;
    hide Framed, Sent, WholeRequests, CutShort;
    results, numbers, wrote := [], [], [];
    ToldNothing(calls, c.requests, replies);
    for i := 0 to |calls|
      invariant c.Valid() && c.InStep(replies)
      invariant |results| == |wrote| == i && Told(calls, results, numbers, wrote, c.requests, replies)
      invariant i > 0 ==> wrote[i - 1] == c.written
      invariant forall k :: 0 <= k < i && Poisons(results[k]) ==> c.interrupted && wrote[k] == c.written
      invariant !old(c.interrupted) ==> Accounted(calls, results, numbers, wrote, c.requests)
      invariant !old(c.interrupted) && Clean(results, i) ==> !c.interrupted
    {
      var call := calls[i];
      ghost var before, clean := c.requests, Clean(results, i);
      var r := c.Call(call.program, call.version, call.procedure, call.rest, replies);
      if Answered(r, call) {
        AnswersLast(r.result, call, before, c.xid, replies);
      }
      if !old(c.interrupted) {
        if clean {
          WrittenAfter(c.written, before, c.requests, r, call, c.xid);
        }
        AccountedOneMore(calls, results, numbers, wrote, before, r, c.requests, c.written);
      }
      ToldOneMore(calls, results, numbers, wrote, before, replies, r, c.requests, c.written);
      results, numbers, wrote := results + [r], numbers + [|before|], wrote + [c.written];
    }
  }

  lemma ToldNothing(calls: seq<Request>, requests: seq<bytes>, replies: nat -> seq<bytes>)
    ensures Told(calls, [], [], [], requests, replies) && Accounted(calls, [], [], [], requests)
  {
  }

  /** What one call on a usable connection leaves behind. */
  lemma WrittenAfter(written: bytes, before: seq<bytes>, after: seq<bytes>, r: Ending<bytes>, call: Request, xid: nat)
    requires xid < U32 && before <= after && forall q :: q in after ==> |q| < LAST
    requires forall q :: q in before ==> |q| < LAST
    requires if Poisons(r) then
               && call.rest.Done? && Wire(before) <= written
               && written <= Wire(before)
                             + Framed(CallMessage(xid, call.program, call.version, call.procedure, call.rest.value))
             else written == Wire(after) && |after| == |before| + if Answered(r, call) then 1 else 0
    ensures if Poisons(r) then CutShort(written, after, |before|, call)
            else WholeRequests(written, after, |before| + if Answered(r, call) then 1 else 0)
  {
    hide Wire, Framed, CallMessage, Sent, Poisons;
    SentAll(before);
    SentAll(after);
    SentStays(before, after, |before|);
  }

  lemma AccountedOneMore(calls: seq<Request>, results: seq<Ending<bytes>>, numbers: seq<nat>, wrote: seq<bytes>,
                         before: seq<bytes>, r: Ending<bytes>, after: seq<bytes>, written: bytes)
    requires Accounted(calls, results, numbers, wrote, before) && |results| < |calls| && before <= after
    requires Clean(results, |results|) ==>
               if Poisons(r) then CutShort(written, after, |before|, calls[|results|])
               else WholeRequests(written, after, |before| + if Answered(r, calls[|results|]) then 1 else 0)
    ensures Accounted(calls, results + [r], numbers + [|before|], wrote + [written], after)
  {
    hide Poisons, Answered, Sent, Framed, CallMessage;
    var more := results + [r];
    forall i | 0 <= i < |more| && Clean(more, i) ensures Clean(results, i) {
      forall k | 0 <= k < i && k < |results| ensures !Poisons(results[k]) {
        assert more[k] == results[k];
      }
    }
    forall i | 0 <= i < |results| && Clean(results, i)
      ensures if Poisons(results[i]) then CutShort(wrote[i], after, numbers[i], calls[i])
              else WholeRequests(wrote[i], after, numbers[i] + if Answered(results[i], calls[i]) then 1 else 0)
    {
      SentStays(before, after, if Poisons(results[i]) then numbers[i]
                               else numbers[i] + if Answered(results[i], calls[i]) then 1 else 0);
    }
  }

  lemma ToldOneMore(calls: seq<Request>, results: seq<Ending<bytes>>, numbers: seq<nat>, wrote: seq<bytes>,
                    before: seq<bytes>, replies: nat -> seq<bytes>, r: Ending<bytes>, after: seq<bytes>, written: bytes)
    requires Told(calls, results, numbers, wrote, before, replies) && |results| < |calls| && before <= after
    requires Answered(r, calls[|results|]) ==> Answers(r.result, calls[|results|], after, replies, |before|)
    requires forall k :: 0 <= k < |results| && Poisons(results[k]) ==>
               r == Returned(Failure(RpcConnectionInvalid)) && wrote[k] == written
    ensures Told(calls, results + [r], numbers + [|before|], wrote + [written], after, replies)
  {
    hide Answers;
    forall i | 0 <= i < |results| && Answered(results[i], calls[i])
      ensures Answers(results[i].result, calls[i], after, replies, numbers[i]) && numbers[i] < |before|
    {
      AnswersStay(results[i].result, calls[i], before, after, replies, numbers[i]);
    }
  }

  lemma AnswersStay(result: Result<bytes>, call: Request, a: seq<bytes>, b: seq<bytes>, replies: nat -> seq<bytes>,
                    k: nat)
    requires Answers(result, call, a, replies, k) && a <= b
    ensures Answers(result, call, b, replies, k) && k < |a|
  {
    hide CallMessage, DecodeReply, Join;
  }

  lemma AnswersLast(result: Result<bytes>, call: Request, before: seq<bytes>, xid: nat, replies: nat -> seq<bytes>)
    requires xid < U32 && call.rest.Done? && DecodeReply(xid, Join(replies(|before|))) == result
    ensures var request := CallMessage(xid, call.program, call.version, call.procedure, call.rest.value);
            Answers(result, call, before + [request], replies, |before|)
  {
    hide CallMessage, DecodeReply, Join;
  }
}

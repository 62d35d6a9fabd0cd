/** AUTH_SYS credentials: normalized to the limits of the wire format, so that encoding one
    never fails (src/rpc.rs:30-135, 490-524; section 8.2 and Appendix A of RFC 5531). */
module Credentials {
  import opened Xdr

  const MACHINE_NAME_MAX: nat := 255
  const MAX_GROUPS: nat := 16
  const BODY_MAX: nat := 400
  const AUTH_NONE: nat := 0
  const AUTH_SYS: nat := 1

  type u32 = x: nat | x < U32

  datatype AuthSys = AuthSys(stamp: u32, machineName: bytes, uid: u32, gid: u32, gids: seq<u32>)
  datatype Auth = NoAuth | Sys(auth: AuthSys)

  // ---- Auxiliary groups ------------------------------------------------------------------------

  /** The groups other than the primary one, each where it first appears. */
  function Firsts(primary: u32, groups: seq<u32>): seq<u32> {
    if groups == [] then []
    else
      var front, last := Firsts(primary, groups[..|groups| - 1]), groups[|groups| - 1];
      if last == primary || last in front then front else front + [last]
  }

  /** No more than the wire format carries. */
  function Kept(s: seq<u32>): (r: seq<u32>)
    ensures |r| <= MAX_GROUPS
  {
    if |s| <= MAX_GROUPS then s else s[..MAX_GROUPS]
  }

  function Normalized(primary: u32, groups: seq<u32>): seq<u32> {
    Kept(Firsts(primary, groups))
  }

  lemma FirstsStep(primary: u32, groups: seq<u32>, i: nat)
    requires i < |groups|
    ensures var front, g := Firsts(primary, groups[..i]), groups[i];
            Firsts(primary, groups[..i + 1]) == if g == primary || g in front then front else front + [g]
  {
    assert groups[..i + 1][..i] == groups[..i];
  }

  lemma {:induction false} FirstsGrow(primary: u32, groups: seq<u32>, i: nat)
    requires i <= |groups|
    ensures Firsts(primary, groups[..i]) <= Firsts(primary, groups)
    decreases |groups| - i
  {
    if i == |groups| {
      assert groups[..i] == groups;
    } else {
      FirstsStep(primary, groups, i);
      FirstsGrow(primary, groups, i + 1);
    }
  }

  method NormalizeGroups(primary: u32, groups: seq<u32>) returns (normalized: seq<u32>)
    ensures normalized == Normalized(primary, groups)
  {
    hide Firsts;
    normalized := [];
    assert Firsts(primary, groups[..0]) == [] by { NoGroups(primary); }
    for i := 0 to |groups|
      invariant normalized == Firsts(primary, groups[..i]) && |normalized| < MAX_GROUPS
    {
      FirstsStep(primary, groups, i);
      if groups[i] == primary || groups[i] in normalized {
        continue;
      }
      normalized := normalized + [groups[i]];
      if |normalized| == MAX_GROUPS {
        FirstsGrow(primary, groups, i + 1);
        return;
      }
    }
    assert groups[..|groups|] == groups;
  }

  lemma NoGroups(primary: u32)
    ensures Firsts(primary, []) == []
  {
  }

  function FirstIndex(groups: seq<u32>, g: u32): (i: nat)
    requires g in groups
    ensures i < |groups| && groups[i] == g && forall j :: 0 <= j < i ==> groups[j] != g
  {
    if groups[0] == g then 0 else 1 + FirstIndex(groups[1..], g)
  }

  lemma FirstIndexIs(groups: seq<u32>, g: u32, i: nat)
    requires i < |groups| && groups[i] == g && forall j :: 0 <= j < i ==> groups[j] != g
    ensures FirstIndex(groups, g) == i
  {
    hide FirstIndex;
  }

  /** In the order of first appearance, hence nothing twice. */
  predicate InOrder(groups: seq<u32>, r: seq<u32>)
    requires forall i :: 0 <= i < |r| ==> r[i] in groups
  {
    forall i, j :: 0 <= i < j < |r| ==> FirstIndex(groups, r[i]) < FirstIndex(groups, r[j])
  }

  lemma InOrderExtends(groups: seq<u32>, last: u32, r: seq<u32>)
    requires forall i :: 0 <= i < |r| ==> r[i] in groups
    requires InOrder(groups, r)
    ensures InOrder(groups + [last], r) && (last !in groups ==> InOrder(groups + [last], r + [last]))
  {
    var all := groups + [last];
    forall g | g in groups ensures FirstIndex(all, g) == FirstIndex(groups, g) {
      FirstIndexIs(all, g, FirstIndex(groups, g));
    }
    if last !in groups {
      FirstIndexIs(all, last, |groups|);
    }
  }

  /** `Firsts` in terms of the groups themselves: exactly the groups other than the primary one,
      in the order of their first appearance, hence none twice. */
  lemma {:induction false} FirstsAreFirst(primary: u32, groups: seq<u32>)
    ensures forall g :: g in Firsts(primary, groups) <==> g in groups && g != primary
    ensures InOrder(groups, Firsts(primary, groups))
  {
    if groups != [] {
      var n := |groups| - 1;
      FirstsAreFirst(primary, groups[..n]);
      assert groups == groups[..n] + [groups[n]];
      InOrderExtends(groups[..n], groups[n], Firsts(primary, groups[..n]));
    }
  }

  /** What normalization keeps: no primary group, nothing twice, at most 16, in order of first
      appearance; and it drops a group only for one of these reasons. */
  lemma NormalizedGroups(primary: u32, groups: seq<u32>)
    ensures var r := Normalized(primary, groups);
            && |r| <= MAX_GROUPS
            && (forall g :: g in r ==> g in groups && g != primary)
            && InOrder(groups, r)
            && (forall i, j :: 0 <= i < j < |r| ==> r[i] != r[j])
            && (forall g :: g in groups && g != primary && g !in r ==> |r| == MAX_GROUPS && InOrder(groups, r + [g]))
  {
    hide Firsts, FirstIndex;
    FirstsAreFirst(primary, groups);
    var all, r := Firsts(primary, groups), Normalized(primary, groups);
    assert forall i :: 0 <= i < |r| ==> r[i] == all[i] && all[i] in all;
    forall g | g in groups && g != primary && g !in r ensures |r| == MAX_GROUPS && InOrder(groups, r + [g]) {
      var k :| 0 <= k < |all| && all[k] == g;
      assert k >= |r|;
    }
  }

  /** Clean groups are left as they are. */
  lemma {:induction false} CleanStays(primary: u32, groups: seq<u32>)
    requires primary !in groups && forall i, j :: 0 <= i < j < |groups| ==> groups[i] != groups[j]
    ensures Firsts(primary, groups) == groups
  {
    if groups != [] {
      CleanStays(primary, groups[..|groups| - 1]);
      assert groups == groups[..|groups| - 1] + [groups[|groups| - 1]];
    }
  }

  lemma NormalizingIsIdempotent(primary: u32, groups: seq<u32>)
    ensures Normalized(primary, Normalized(primary, groups)) == Normalized(primary, groups)
  {
    NormalizedGroups(primary, groups);
    CleanStays(primary, Normalized(primary, groups));
  }

  // ---- The machine name ------------------------------------------------------------------------

  predicate Continuation(b: byte) {
    0x80 <= b < 0xC0
  }

  /** Length of the UTF-8 character a byte starts, 0 for a byte that starts none. */
  function CharLen(b: byte): nat {
    if b < 0x80 then 1
    else if 0xC2 <= b < 0xE0 then 2
    else if 0xE0 <= b < 0xF0 then 3
    else if 0xF0 <= b < 0xF5 then 4
    else 0
  }

  /** The second byte excludes overlong forms, surrogates and numbers beyond Unicode. */
  predicate SecondByte(first: byte, second: byte) {
    && Continuation(second)
    && (first == 0xE0 ==> second >= 0xA0) && (first == 0xED ==> second < 0xA0)
    && (first == 0xF0 ==> second >= 0x90) && (first == 0xF4 ==> second < 0x90)
  }

  predicate StartsChar(s: bytes)
    requires s != []
  {
    var k := CharLen(s[0]);
    && 1 <= k <= |s|
    && (k > 1 ==> SecondByte(s[0], s[1]))
    && forall i :: 1 <= i < k ==> Continuation(s[i])
  }

  predicate Utf8(s: bytes) {
    s != [] ==> StartsChar(s) && Utf8(s[CharLen(s[0])..])
  }

  /** Whether a string may be cut here. */
  predicate Boundary(s: bytes, i: nat) {
    i == 0 || i == |s| || (i < |s| && !Continuation(s[i]))
  }

  method NormalizedNameLen(name: bytes) returns (len: nat)
    requires Utf8(name)
    ensures len <= |name| && len <= MACHINE_NAME_MAX && Boundary(name, len)
    ensures forall k :: len < k <= |name| && k <= MACHINE_NAME_MAX ==> !Boundary(name, k)
  {
    if |name| <= MACHINE_NAME_MAX {
      return |name|;
    }
    len := MACHINE_NAME_MAX;
    while !Boundary(name, len)
      decreases len
      invariant len <= MACHINE_NAME_MAX
      invariant forall k :: len < k <= |name| && k <= MACHINE_NAME_MAX ==> !Boundary(name, k)
    {
      len := len - 1;
    }
  }

  /** Cutting valid UTF-8 at a boundary leaves valid UTF-8. */
  lemma {:induction false} CutIsUtf8(s: bytes, len: nat)
    requires Utf8(s) && len <= |s| && Boundary(s, len)
    ensures Utf8(s[..len])
  {
    if len > 0 {
      var k := CharLen(s[0]);
      assert k <= len;
      CutIsUtf8(s[k..], len - k);
      assert s[k..][..len - k] == s[..len][k..];
    }
  }

  /** Boundaries are never more than 4 bytes apart, so little is cut off. */
  lemma {:induction false} BoundaryNearby(s: bytes, i: nat)
    requires Utf8(s) && i <= |s|
    ensures exists k :: 0 <= k <= i && i < k + 4 && Boundary(s, k)
  {
    if i == 0 {
      assert Boundary(s, 0);
    } else {
      var n := CharLen(s[0]);
      if i < n {
        assert Boundary(s, 0);
      } else {
        BoundaryNearby(s[n..], i - n);
        var k :| 0 <= k <= i - n && i - n < k + 4 && Boundary(s[n..], k);
        if k == 0 {
          NextIsBoundary(s);
          assert Boundary(s, n);
        } else {
          assert Boundary(s, n + k);
        }
      }
    }
  }

  lemma NextIsBoundary(s: bytes)
    requires s != [] && Utf8(s)
    ensures Boundary(s, CharLen(s[0]))
  {
    var rest := s[CharLen(s[0])..];
    if rest != [] {
      assert StartsChar(rest);
    }
  }

  /** The name that is sent: itself when short enough, else the longest valid UTF-8 beginning of
      at most 255 bytes, which loses at most three bytes to the character it would split. */
  ghost predicate IsSentName(name: bytes, sent: bytes) {
    && sent <= name && Utf8(sent) && |sent| <= MACHINE_NAME_MAX
    && (|name| <= MACHINE_NAME_MAX ==> sent == name)
    && (|name| > MACHINE_NAME_MAX ==> MACHINE_NAME_MAX - 3 <= |sent|)
  }

  method SentName(name: bytes) returns (sent: bytes)
    requires Utf8(name)
    ensures IsSentName(name, sent)
  {
    var len := NormalizedNameLen(name);
    CutIsUtf8(name, len);
    if |name| > MACHINE_NAME_MAX {
      BoundaryNearby(name, MACHINE_NAME_MAX);
    } else {
      assert Boundary(name, |name|);
    }
    return name[..len];
  }

  // ---- On the wire -------------------------------------------------------------------------------

  const GROUPS: Shape := List(Word, MAX_GROUPS)
  const OWNER: Shape := Pair(Word, Pair(Word, GROUPS))
  const BODY: Shape := Pair(Word, Pair(Opaque(MACHINE_NAME_MAX), OWNER))

  function Numbers(words: seq<u32>): (r: seq<Datum>)
    ensures |r| == |words| && forall i :: 0 <= i < |r| ==> r[i] == Number(words[i])
  {
    seq(|words|, i requires 0 <= i < |words| => Number(words[i]))
  }

  function Owner(uid: u32, gid: u32, gids: seq<u32>): (v: Datum)
    ensures Typed(OWNER, v)
    ensures Fits(OWNER, v) <==> |gids| <= MAX_GROUPS
  {
    assert Typed(GROUPS, Items(Numbers(gids)));
    assert Typed(Pair(Word, GROUPS), Both(Number(gid), Items(Numbers(gids))));
    assert Fits(GROUPS, Items(Numbers(gids))) <==> |gids| <= MAX_GROUPS;
    assert Fits(Pair(Word, GROUPS), Both(Number(gid), Items(Numbers(gids)))) <==> |gids| <= MAX_GROUPS;
    Both(Number(uid), Both(Number(gid), Items(Numbers(gids))))
  }

  function Body(stamp: u32, name: bytes, owner: Datum): (v: Datum)
    requires Typed(OWNER, owner)
    ensures Typed(BODY, v)
    ensures Fits(BODY, v) <==> |name| <= MACHINE_NAME_MAX && Fits(OWNER, owner)
  {
    assert Typed(Pair(Opaque(MACHINE_NAME_MAX), OWNER), Both(Blob(name), owner));
    assert Fits(Pair(Opaque(MACHINE_NAME_MAX), OWNER), Both(Blob(name), owner))
           <==> |name| <= MACHINE_NAME_MAX && Fits(OWNER, owner);
    Both(Number(stamp), Both(Blob(name), owner))
  }

  lemma {:induction false} WordsTake(words: seq<Datum>)
    requires forall x :: x in words ==> Typed(Word, x)
    ensures |EncodingAll(Word, words)| == 4 * |words|
  {
    if words != [] {
      WordsTake(words[..|words| - 1]);
    }
  }

  lemma OwnerTakes(uid: u32, gid: u32, gids: seq<u32>)
    requires |gids| <= MAX_GROUPS
    ensures |Encoding(OWNER, Owner(uid, gid, gids))| <= 76
  {
    hide BigEndian;
    WordsTake(Numbers(gids));
    assert |Encoding(GROUPS, Items(Numbers(gids)))| <= 68;
    assert |Encoding(Pair(Word, GROUPS), Both(Number(gid), Items(Numbers(gids))))| <= 72;
  }

  lemma BodyTakes(stamp: u32, name: bytes, owner: Datum)
    requires |name| <= MACHINE_NAME_MAX && Typed(OWNER, owner) && |Encoding(OWNER, owner)| <= 76
    ensures |Encoding(BODY, Body(stamp, name, owner))| <= 340
  {
    hide BigEndian;
    assert |Padded(name)| <= 256;
    assert |Encoding(Opaque(MACHINE_NAME_MAX), Blob(name))| <= 260;
  }

  /** Encoding a credential cannot fail, however long its name and its group list are; the body
      holds its normalized name and groups and is well below the 400 bytes an RPC allows. */
  method EncodeAuthSys(auth: AuthSys) returns (body: bytes, ghost sent: bytes)
    requires Utf8(auth.machineName)
    ensures IsSentName(auth.machineName, sent)
    ensures body == Encoding(BODY, Body(auth.stamp, sent, Owner(auth.uid, auth.gid, Normalized(auth.gid, auth.gids))))
    ensures |body| <= 340
  {
    hide Encoding, EncodingAll, Normalized, Utf8, BigEndian;
    var gids := NormalizeGroups(auth.gid, auth.gids);
    var name := SentName(auth.machineName);
    sent := name;
    var owner := Owner(auth.uid, auth.gid, gids);
    NormalizedGroups(auth.gid, auth.gids);
    OwnerTakes(auth.uid, auth.gid, gids);
    BodyTakes(auth.stamp, name, owner);
    var encoded := ToBytes(BODY, Body(auth.stamp, name, owner));
    body := encoded.value;
  }

  /** The flavor and the body, as an RPC header carries them; `sent` is the machine name in it. */
  method EncodeOpaqueAuth(auth: Auth, encoder: Encoder) returns (r: Outcome<()>, ghost sent: bytes)
    requires auth.Sys? ==> Utf8(auth.auth.machineName)
    modifies encoder
    ensures r.Done?
    ensures auth.NoAuth? ==> encoder.buffer == old(encoder.buffer) + HeaderAuth(auth, [])
    ensures auth.Sys? ==>
              && IsSentName(auth.auth.machineName, sent)
              && var gids := Normalized(auth.auth.gid, auth.auth.gids);
              var body := Encoding(BODY, Body(auth.auth.stamp, sent, Owner(auth.auth.uid, auth.auth.gid, gids)));
              |body| <= 340 && encoder.buffer == old(encoder.buffer) + HeaderAuth(auth, body)
  {
    hide Encoding, Normalized, Utf8, BigEndian, Body, IsSentName;
    if auth.NoAuth? {
      sent := [];
      encoder.WriteWord(AUTH_NONE);
      r := encoder.WriteOpaque([], BODY_MAX);
      assert encoder.buffer == old(encoder.buffer) + HeaderAuth(auth, []);
    } else {
      var body;
      body, sent := EncodeAuthSys(auth.auth);
      encoder.WriteWord(AUTH_SYS);
      r := encoder.WriteOpaque(body, BODY_MAX);
      assert encoder.buffer == old(encoder.buffer) + HeaderAuth(auth, body);
    }
  }

  function HeaderAuth(auth: Auth, body: bytes): bytes {
    BigEndian(if auth.NoAuth? then AUTH_NONE else AUTH_SYS, 4) + (BigEndian(|body|, 4) + Padded(body))
  }
}

/** Path strings of the NFSv3 client: splitting, normalizing and joining
    (src/v3/client.rs:122-166). Strings are byte sequences. */
module Paths {
  import opened Errors
  import opened Xdr

  const SLASH: byte := 0x2F
  const DOT: byte := 0x2E
  const MAX_NAME_BYTES: nat := 1024 * 1024

  type Name = bytes

  const HERE: Name := [DOT]
  const UP: Name := [DOT, DOT]

  /** A name a directory entry can have. */
  predicate PlainName(name: Name) {
    name != [] && SLASH !in name && name != HERE && name != UP && |name| <= MAX_NAME_BYTES
  }

  function FirstSlash(s: bytes): (i: nat)
    ensures i <= |s| && SLASH !in s[..i] && (i < |s| ==> s[i] == SLASH)
  {
    if s == [] || s[0] == SLASH then 0 else 1 + FirstSlash(s[1..])
  }

  /** The pieces between slashes. */
  function Split(s: bytes): (parts: seq<bytes>)
    ensures parts != []
  {
    var i := FirstSlash(s);
    if i == |s| then [s] else [s[..i]] + Split(s[i + 1..])
  }

  lemma {:induction false} SplitAt(s: bytes, i: nat)
    requires i < |s| && s[i] == SLASH && SLASH !in s[..i]
    ensures Split(s) == [s[..i]] + Split(s[i + 1..])
  {
    FirstSlashIs(s, i);
  }

  lemma {:induction false} SplitNone(s: bytes)
    requires SLASH !in s
    ensures Split(s) == [s]
  {
  }

  lemma {:induction false} SplitConcat(a: bytes, b: bytes)
    ensures Split(a + [SLASH] + b) == Split(a) + Split(b)
    decreases |a|
  {
    hide Split, FirstSlash;
    var s := a + [SLASH] + b;
    var i := FirstSlash(a);
    assert s[..i] == a[..i] && s[i] == SLASH;
    SplitAt(s, i);
    if i == |a| {
      assert s[i + 1..] == b && a[..i] == a;
      SplitNone(a);
    } else {
      SplitAt(a, i);
      SplitConcat(a[i + 1..], b);
      assert s[i + 1..] == a[i + 1..] + [SLASH] + b;
    }
  }

  lemma {:induction false} FirstSlashIs(s: bytes, i: nat)
    requires i < |s| && s[i] == SLASH && SLASH !in s[..i]
    ensures FirstSlash(s) == i
  {
    if i > 0 {
      assert s[..i][0] == s[0];
      assert s[1..][..i - 1] == s[..i][1..];
      FirstSlashIs(s[1..], i - 1);
    }
  }

  /** One piece after the others. */
  function Step(components: seq<Name>, part: bytes): Result<seq<Name>> {
    if part == [] || part == HERE then Success(components)
    else if part == UP then Failure(InvalidPath)
    else if |part| > MAX_NAME_BYTES then Failure(NameTooLong)
    else Success(components + [part])
  }

  function Walk(parts: seq<bytes>): Result<seq<Name>> {
    if parts == [] then Success([])
    else
      var components :- Walk(parts[..|parts| - 1]);
      Step(components, parts[|parts| - 1])
  }

  lemma {:induction false} WalkConcat(a: seq<bytes>, b: seq<bytes>)
    requires Walk(a).Success?
    ensures Walk(a + b) == if Walk(b).Success? then Success(Walk(a).value + Walk(b).value) else Walk(b)
  {
    if b == [] {
      assert a + b == a && Walk(a).value + [] == Walk(a).value;
    } else {
      var front := b[..|b| - 1];
      WalkConcat(a, front);
      assert (a + b)[..|a + b| - 1] == a + front;
      if Walk(b).Success? {
        assert (Walk(a).value + Walk(front).value) + [b[|b| - 1]] == Walk(a).value + (Walk(front).value + [b[|b| - 1]]);
      }
    }
  }

  lemma {:induction false} WalkFailsEarly(a: seq<bytes>, b: seq<bytes>)
    requires Walk(a).Failure?
    ensures Walk(a + b) == Walk(a)
  {
    if b == [] {
      assert a + b == a;
    } else {
      WalkFailsEarly(a, b[..|b| - 1]);
      assert (a + b)[..|a + b| - 1] == a + b[..|b| - 1];
    }
  }

  /** The names a path goes through. */
  function Normalize(path: bytes): Result<seq<Name>> {
    if path == [] then Failure(InvalidPath) else Walk(Split(path))
  }

  method NormalizePath(path: bytes) returns (r: Result<seq<Name>>)
    ensures r == Normalize(path)
  {
    if path == [] {
      return Failure(InvalidPath);
    }
    var components: seq<Name> := [];
    var parts := Split(path);
    for i := 0 to |parts|
      invariant Walk(parts[..i]) == Success(components)
    {
      assert parts[..i + 1][..i] == parts[..i];
      var stepped := Step(components, parts[i]);
      if stepped.Failure? {
        WalkFailsEarly(parts[..i + 1], parts[i + 1..]);
        assert parts == parts[..i + 1] + parts[i + 1..];
        return Failure(stepped.error);
      }
      components := stepped.value;
    }
    assert parts[..|parts|] == parts;
    return Success(components);
  }

  /** Names are what they should be, wherever a path came from. */
  lemma {:induction false} WalkGivesPlainNames(parts: seq<bytes>)
    requires Walk(parts).Success? && forall p :: p in parts ==> SLASH !in p
    ensures forall n :: n in Walk(parts).value ==> PlainName(n)
  {
    if parts != [] {
      WalkGivesPlainNames(parts[..|parts| - 1]);
    }
  }

  function TrimSlashes(s: bytes): (r: bytes)
    ensures r <= s
  {
    if s != [] && s[|s| - 1] == SLASH then TrimSlashes(s[..|s| - 1]) else s
  }

  function JoinPath(parent: bytes, name: bytes): bytes {
    if parent == [SLASH] then [SLASH] + name
    else if parent == [] then name
    else TrimSlashes(parent) + [SLASH] + name
  }

  /** Trailing slashes do not matter. */
  lemma {:induction false} TrimKeepsWalk(s: bytes)
    ensures Walk(Split(TrimSlashes(s))) == Walk(Split(s))
  {
    hide Walk, Split;
    if s != [] && s[|s| - 1] == SLASH {
      var front := s[..|s| - 1];
      TrimKeepsWalk(front);
      assert s == front + [SLASH] + [];
      SplitConcat(front, []);
      SplitNone([]);
      EmptyPart();
      if Walk(Split(front)).Success? {
        WalkConcat(Split(front), [[]]);
        assert Walk(Split(front)).value + [] == Walk(Split(front)).value;
      } else {
        WalkFailsEarly(Split(front), [[]]);
      }
    }
  }

  lemma EmptyPart()
    ensures Walk([[]]) == Success([])
  {
    var parts: seq<bytes> := [[]];
    assert parts[..0] == [];
  }

  /** Joining a name to a path goes through the path's names and then through the pieces of the
      name, so it fails or stays at or below the path, whatever bytes the name holds. */
  lemma JoinWalks(parent: bytes, name: bytes)
    requires Normalize(parent).Success?
    ensures Normalize(JoinPath(parent, name)) ==
            if Walk(Split(name)).Success? then Success(Normalize(parent).value + Walk(Split(name)).value)
            else Walk(Split(name))
  {
    hide Walk, Split;
    var trimmed := TrimSlashes(parent);
    TrimKeepsWalk(parent);
    SplitConcat(trimmed, name);
    WalkConcat(Split(trimmed), Split(name));
    if parent == [SLASH] {
      assert trimmed == TrimSlashes([]) == [];
      assert trimmed + [SLASH] + name == [SLASH] + name;
    }
  }

  lemma JoinStaysInside(parent: bytes, name: bytes)
    requires Normalize(parent).Success? && Normalize(JoinPath(parent, name)).Success?
    ensures Normalize(parent).value <= Normalize(JoinPath(parent, name)).value
  {
    hide Normalize, Walk;
    JoinWalks(parent, name);
  }

  /** Joining an entry's name is one step down. */
  lemma JoinChild(parent: bytes, name: Name)
    requires Normalize(parent).Success? && PlainName(name)
    ensures Normalize(JoinPath(parent, name)) == Success(Normalize(parent).value + [name])
  {
    hide Normalize;
    JoinWalks(parent, name);
    SplitNone(name);
    var parts := [name];
    assert parts[..0] == [];
    assert Walk(parts) == Success([] + parts);
    assert [] + parts == parts;
  }

  /** An entry without a name would be the directory itself. */
  lemma EmptyNameIsTheDirectory(parent: bytes)
    requires Normalize(parent).Success?
    ensures Normalize(JoinPath(parent, [])) == Normalize(parent)
  {
    hide Normalize;
    JoinWalks(parent, []);
    assert Split([]) == [[]];
    EmptyPart();
    assert Normalize(parent).value + [] == Normalize(parent).value;
  }

  /** The path of a sibling: the parent's names, joined again from the root. */
  method SiblingPath(path: bytes, name: Name) returns (r: Result<bytes>)
    requires PlainName(name)
    ensures r.Success? <==> Normalize(path).Success? && Normalize(path).value != []
    ensures r.Success? ==>
              Normalize(r.value) == Success(Normalize(path).value[..|Normalize(path).value| - 1] + [name])
  {
    hide Normalize;
    var components := NormalizePath(path);
    if components.Failure? {
      return Failure(components.error);
    }
    if components.value == [] {
      return Failure(InvalidPath);
    }
    NormalizedIsPlain(path);
    var names := components.value[..|components.value| - 1];
    var parent: bytes := [SLASH];
    RootHasNoNames();
    for i := 0 to |names|
      invariant Normalize(parent) == Success(names[..i])
    {
      JoinChild(parent, names[i]);
      parent := JoinPath(parent, names[i]);
      assert names[..i + 1] == names[..i] + [names[i]];
    }
    JoinChild(parent, name);
    assert names[..|names|] == names;
    return Success(JoinPath(parent, name));
  }

  lemma RootHasNoNames()
    ensures Normalize([SLASH]) == Success([])
  {
    assert [SLASH] == [] + [SLASH] + [];
    SplitConcat([], []);
    assert Split([]) == [[]];
    EmptyPart();
    WalkConcat([[]], [[]]);
  }

  lemma {:induction false} SplitHasNoSlashes(s: bytes)
    ensures forall p :: p in Split(s) ==> SLASH !in p
  {
    var i := FirstSlash(s);
    if i < |s| {
      SplitHasNoSlashes(s[i + 1..]);
    } else {
      assert s[..i] == s;
    }
  }

  lemma NormalizedIsPlain(path: bytes)
    requires Normalize(path).Success?
    ensures forall i :: 0 <= i < |Normalize(path).value| ==> PlainName(Normalize(path).value[i])
  {
    SplitHasNoSlashes(path);
    WalkGivesPlainNames(Split(path));
  }
}

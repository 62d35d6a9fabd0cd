/** Recursive removal in a tree of names, with an explicit stack (src/v3/blocking.rs:1119-1158). */
module Trees {
  import opened Errors
  import opened Xdr
  import opened Paths

  type Path = seq<Name>

  datatype Node = Leaf(inode: nat) | Dir

  predicate Below(top: Path, p: Path) {
    top <= p
  }

  predicate StrictlyBelow(top: Path, p: Path) {
    top < p
  }

  function Parent(p: Path): Path
    requires p != []
  {
    p[..|p| - 1]
  }

  /** Every name stands in a directory. */
  ghost predicate IsTree(nodes: map<Path, Node>) {
    && [] in nodes && nodes[[]].Dir?
    && forall p :: p in nodes && p != [] ==>
         Parent(p) in nodes && nodes[Parent(p)].Dir? && PlainName(p[|p| - 1])
  }

  lemma {:induction false} AncestorIsDir(nodes: map<Path, Node>, top: Path, p: Path)
    requires IsTree(nodes) && p in nodes && StrictlyBelow(top, p)
    ensures top in nodes && nodes[top].Dir?
    decreases |p|
  {
    if Parent(p) != top {
      assert top <= Parent(p);
      AncestorIsDir(nodes, top, Parent(p));
    }
  }

  /** The name by which a directory leads to something below it. */
  lemma {:induction false} StepTowards(nodes: map<Path, Node>, top: Path, p: Path)
    requires IsTree(nodes) && p in nodes && StrictlyBelow(top, p)
    ensures top + [p[|top|]] in nodes && Below(top + [p[|top|]], p)
    decreases |p|
  {
    hide PlainName;
    var child := top + [p[|top|]];
    assert p[..|top|] == top;
    assert child == p[..|top| + 1];
    if p != child {
      assert top < Parent(p) && Parent(p)[|top|] == p[|top|];
      StepTowards(nodes, top, Parent(p));
    }
  }

  predicate Childless(nodes: map<Path, Node>, top: Path) {
    forall p :: p in nodes ==> !StrictlyBelow(top, p)
  }

  lemma WithoutChildlessIsTree(nodes: map<Path, Node>, top: Path)
    requires IsTree(nodes) && top in nodes && top != [] && Childless(nodes, top)
    ensures IsTree(nodes - {top})
  {
    forall p | p in nodes - {top} && p != [] ensures Parent(p) in nodes - {top} {
      assert Parent(p) < p;
    }
  }

  lemma LeafIsChildless(nodes: map<Path, Node>, top: Path)
    requires IsTree(nodes) && top in nodes && nodes[top].Leaf?
    ensures Childless(nodes, top)
  {
    forall p | p in nodes ensures !StrictlyBelow(top, p) {
      if StrictlyBelow(top, p) {
        AncestorIsDir(nodes, top, p);
        assert false;
      }
    }
  }

  /** The path leads to something other than the root. */
  predicate Leads(path: bytes, nodes: map<Path, Node>) {
    Normalize(path).Success? && Normalize(path).value != [] && Normalize(path).value in nodes
  }

  lemma LeadsMeans(path: bytes, nodes: map<Path, Node>)
    ensures Leads(path, nodes) ==>
              Normalize(path).Success? && Normalize(path).value != [] && Normalize(path).value in nodes
  {
  }

  datatype Kind = FileKind | DirKind
  datatype Entry = Entry(name: Name, kind: Option<Kind>)

  function KindOf(node: Node): Kind {
    if node.Dir? then DirKind else FileKind
  }

  /** A truthful listing: each child once, in any order, possibly with "." and "..", and
      the kind where it is given. */
  predicate Lists(nodes: map<Path, Node>, dir: Path, entries: seq<Entry>) {
    && (forall e :: e in entries && e.name != HERE && e.name != UP ==>
          dir + [e.name] in nodes && (e.kind.Some? ==> e.kind.value == KindOf(nodes[dir + [e.name]])))
    && (forall i, j :: 0 <= i < j < |entries| ==> entries[i].name != entries[j].name)
    && (forall p :: p in nodes && p != [] && Parent(p) == dir ==> exists e :: e in entries && e.name == p[|p| - 1])
  }

  /** What goes wrong with a request: nothing, it is refused, or its reply is lost before or
      after it was carried out. */
  datatype Fault = Fine | Refused(status: NfsStatus3) | LostBefore | LostAfter

  class Share {
    const faults: nat -> Fault
    const listings: (nat, map<Path, Node>, Path) -> seq<Entry>
    var clock: nat
    var nodes: map<Path, Node>

    constructor (faults: nat -> Fault, listings: (nat, map<Path, Node>, Path) -> seq<Entry>, nodes: map<Path, Node>)
      requires IsTree(nodes)
      ensures this.nodes == nodes && this.faults == faults && this.listings == listings
    {
      this.faults, this.listings, this.nodes, clock := faults, listings, nodes, 0;
    }

    /** Every listing is truthful. */
    ghost predicate Truthful() {
      forall t: nat, m: map<Path, Node>, p: Path :: p in m && m[p].Dir? ==> Lists(m, p, listings(t, m, p))
    }

    /** Nothing goes wrong and every listing is truthful. */
    ghost predicate Smooth() {
      (forall t :: faults(t).Fine?) && Truthful()
    }

    method NextFault() returns (fault: Fault)
      modifies `clock
      ensures fault == faults(old(clock))
    {
      fault := faults(clock);
      clock := clock + 1;
    }

    function Problem(fault: Fault): (e: Error)
      requires !fault.Fine?
    {
      if fault.Refused? then Nfs(fault.status) else OutcomeUnknown(Io(TimedOut))
    }

    method Metadata(path: bytes) returns (r: Result<Kind>)
      modifies `clock
      ensures r.Success? ==>
                && Normalize(path).Success? && Normalize(path).value in nodes
                && r.value == KindOf(nodes[Normalize(path).value])
      ensures Smooth() && Normalize(path).Success? && Normalize(path).value in nodes ==> r.Success?
    {
      hide Normalize;
      var p :- NormalizePath(path);
      var fault := NextFault();
      if !fault.Fine? {
        return Failure(Problem(fault));
      }
      if p !in nodes {
        return Failure(Nfs(NoEnt3));
      }
      return Success(KindOf(nodes[p]));
    }

    /** The entries of a directory, as the server lists them. */
    method ReadDir(path: bytes) returns (r: Result<seq<Entry>>)
      modifies `clock
      ensures r.Success? ==> Normalize(path).Success?
      ensures r.Success? && Truthful() ==> Lists(nodes, Normalize(path).value, r.value)
      ensures Smooth() && Normalize(path).Success? && Normalize(path).value in nodes ==>
                (nodes[Normalize(path).value].Dir? ==> r.Success?)
    {
      hide Normalize;
      var p :- NormalizePath(path);
      var entries := listings(clock, nodes, p);
      var fault := NextFault();
      if !fault.Fine? {
        return Failure(Problem(fault));
      }
      if p !in nodes {
        return Failure(Nfs(NoEnt3));
      }
      if nodes[p].Leaf? {
        return Failure(Nfs(NotDir3));
      }
      return Success(entries);
    }

    /** REMOVE. */
    method Remove(path: bytes) returns (r: Result<()>)
      requires IsTree(nodes)
      modifies `clock, `nodes
      ensures IsTree(nodes)
      ensures nodes == old(nodes) || (Normalize(path).Success? && nodes == old(nodes) - {Normalize(path).value})
      ensures r.Success? ==> Normalize(path).Success? && nodes == old(nodes) - {Normalize(path).value}
      ensures Smooth() && Leads(path, old(nodes)) && old(nodes)[Normalize(path).value].Leaf? ==> r.Success?
    {
      hide Normalize;
      var p :- NormalizePath(path);
      if p == [] {
        return Failure(InvalidPath);
      }
      var fault := NextFault();
      if fault.Refused? || fault.LostBefore? {
        return Failure(Problem(fault));
      }
      if p !in nodes {
        return Failure(Nfs(NoEnt3));
      }
      if nodes[p].Dir? {
        return Failure(Nfs(IsDir3));
      }
      LeafIsChildless(nodes, p);
      WithoutChildlessIsTree(nodes, p);
      nodes := nodes - {p};
      if fault.LostAfter? {
        return Failure(Problem(fault));
      }
      return Success(());
    }

    /** RMDIR. */
    method Rmdir(path: bytes) returns (r: Result<()>)
      requires IsTree(nodes)
      modifies `clock, `nodes
      ensures IsTree(nodes)
      ensures nodes == old(nodes) || (Normalize(path).Success? && nodes == old(nodes) - {Normalize(path).value})
      ensures r.Success? ==> Normalize(path).Success? && nodes == old(nodes) - {Normalize(path).value}
      ensures Smooth() && Leads(path, old(nodes)) ==>
                (old(nodes)[Normalize(path).value].Dir? && Childless(old(nodes), Normalize(path).value) ==> r.Success?)
    {
      hide Normalize;
      var p :- NormalizePath(path);
      if p == [] {
        return Failure(InvalidPath);
      }
      var fault := NextFault();
      if fault.Refused? || fault.LostBefore? {
        return Failure(Problem(fault));
      }
      if p !in nodes {
        return Failure(Nfs(NoEnt3));
      }
      if nodes[p].Leaf? {
        return Failure(Nfs(NotDir3));
      }
      if !Childless(nodes, p) {
        return Failure(Nfs(NotEmpty3));
      }
      WithoutChildlessIsTree(nodes, p);
      nodes := nodes - {p};
      if fault.LostAfter? {
        return Failure(Problem(fault));
      }
      return Success(());
    }

    /** Removes a whole subtree with an explicit stack, depth first. Ok means exactly the subtree
        is gone, and is the answer when nothing goes wrong; after an error, whatever it is, nothing
        outside the subtree is missing. */
    method RemoveAll(path: bytes) returns (r: Result<()>)
      requires IsTree(nodes) && Truthful()
      modifies `clock, `nodes
      ensures IsTree(nodes)
      ensures r.Success? ==> Normalize(path).Success? && nodes == Pruned(old(nodes), Normalize(path).value)
      ensures if Normalize(path).Success? then OnlyBelowMissing(old(nodes), nodes, Normalize(path).value)
              else nodes == old(nodes)
      ensures Smooth() && Leads(path, old(nodes)) ==> r.Success?
    {
      hide *;
      LeadsMeans(path, nodes);
      var names := NormalizePath(path);
      if names.Failure? {
        return Failure(names.error);
      }
      var top := names.value;
      MissingNothing(nodes, top);
      if top == [] {
        return Failure(InvalidPath);
      }
      var kind := Metadata(path);
      if kind.Failure? {
        return Failure(kind.error);
      }
      var stack := [Visit(path, Some(kind.value))];
      ghost var jobs, seen := [Look(top)], {};
      JobsStart(nodes, top, path);
      IsOrderly(nodes, top, stack, jobs, seen);
      ConfinedStart(path, top, Some(kind.value));
      while stack != []
        invariant IsTree(nodes) && OnlyBelowMissing(old(nodes), nodes, top) && Confined(stack, top)
        invariant Orderly(nodes, top, stack, jobs, seen)
        decreases |nodes.Keys|, |nodes.Keys - seen|
      {
        var next;
        next, jobs, seen := RemoveNext(stack, top, jobs, seen, old(nodes));
        if next.Failure? {
          return Failure(next.error);
        }
        stack := next.value;
      }
      NoJobsLeft(old(nodes), nodes, top, jobs, seen);
      return Success(());
    }

    /** Any number of steps of that removal against any server, whatever it lists: nothing outside
        the subtree is missing. A server whose listings never end keeps the client busy for good. */
    method RemoveSome(path: bytes, steps: nat) returns (r: Result<seq<Task>>)
      requires IsTree(nodes)
      modifies `clock, `nodes
      ensures IsTree(nodes)
      ensures if Normalize(path).Success? then OnlyBelowMissing(old(nodes), nodes, Normalize(path).value)
              else nodes == old(nodes)
      ensures r.Success? ==> Normalize(path).Success? && Confined(r.value, Normalize(path).value)
    {
      hide *;
      var names := NormalizePath(path);
      if names.Failure? {
        return Failure(names.error);
      }
      var top := names.value;
      MissingNothing(nodes, top);
      if top == [] {
        return Failure(InvalidPath);
      }
      var kind := Metadata(path);
      if kind.Failure? {
        return Failure(kind.error);
      }
      var stack := [Visit(path, Some(kind.value))];
      ConfinedStart(path, top, Some(kind.value));
      for i := 0 to steps
        invariant IsTree(nodes) && OnlyBelowMissing(old(nodes), nodes, top) && Confined(stack, top)
      {
        if stack != [] {
          var next, _, _ := RemoveNext(stack, top, [], {}, old(nodes));
          if next.Failure? {
            return Failure(next.error);
          }
          stack := next.value;
        }
      }
      return Success(stack);
    }

    /** One task from the top of the stack. */
    method RemoveNext(stack: seq<Task>, ghost top: Path, ghost jobs: seq<Job>, ghost seen: set<Path>,
                      ghost start: map<Path, Node>)
      returns (r: Result<seq<Task>>, ghost jobs': seq<Job>, ghost seen': set<Path>)
      requires IsTree(nodes) && stack != [] && OnlyBelowMissing(start, nodes, top) && Confined(stack, top)
      modifies `clock, `nodes
      ensures IsTree(nodes) && OnlyBelowMissing(start, nodes, top)
      ensures r.Success? ==> Confined(r.value, top)
      ensures Smooth() && top != [] && Orderly(old(nodes), top, stack, jobs, seen) ==> r.Success?
      ensures r.Success? && Truthful() && Orderly(old(nodes), top, stack, jobs, seen) ==>
                && Orderly(nodes, top, r.value, jobs', seen')
                && (|nodes.Keys| < |old(nodes).Keys| ||
                    (nodes == old(nodes) && |nodes.Keys - seen'| < |nodes.Keys - seen|))
    {
      hide *;
      ghost var orderly := Orderly(nodes, top, stack, jobs, seen);
      jobs', seen' := if jobs == [] then [] else jobs[..|jobs| - 1], seen;
      var task, rest := stack[|stack| - 1], stack[..|stack| - 1];
      ConfinedRest(stack, top);
      if orderly {
        OrderlyMeans(nodes, top, stack, jobs, seen);
        TopJob(nodes, top, stack, jobs, seen);
        TaskMeans(nodes, task, jobs[|jobs| - 1]);
      }
      match task {
        case RemoveDir(dir) =>
          if orderly {
            DropIsEmpty(nodes, top, jobs, seen);
          }
          var removed := Rmdir(dir);
          RemovedBelow(start, old(nodes), nodes, top, dir);
          if removed.Failure? {
            return Failure(removed.error), jobs', seen';
          }
          if orderly {
            JobDone(nodes, old(nodes), top, jobs, seen, stack);
            IsOrderly(nodes, top, rest, jobs', seen');
          }
          return Success(rest), jobs', seen';
        case Visit(visited, known) =>
          var found := if known.Some? then Success(known.value) else Failure(Protocol);
          if known.None? {
            found := Metadata(visited);
          }
          if found.Failure? {
            return Failure(found.error), jobs', seen';
          }
          if found.value == DirKind {
            if orderly {
              DirIsDir(nodes, jobs[|jobs| - 1].p);
            }
            r, jobs', seen' := Expand(stack, top, jobs, seen);
            return;
          }
          if orderly {
            FileIsLeaf(nodes, jobs[|jobs| - 1].p);
            LeafIsChildless(nodes, jobs[|jobs| - 1].p);
          }
          var removed := Remove(visited);
          RemovedBelow(start, old(nodes), nodes, top, visited);
          if removed.Failure? {
            return Failure(removed.error), jobs', seen';
          }
          if orderly {
            JobDone(nodes, old(nodes), top, jobs, seen, stack);
            IsOrderly(nodes, top, rest, jobs', seen');
          }
          return Success(rest), jobs', seen';
      }
    }

    /** A directory is replaced on the stack by its own removal with visits to its children above. */
    method Expand(stack: seq<Task>, ghost top: Path, ghost jobs: seq<Job>, ghost seen: set<Path>)
      returns (r: Result<seq<Task>>, ghost jobs': seq<Job>, ghost seen': set<Path>)
      requires IsTree(nodes) && stack != [] && stack[|stack| - 1].Visit? && Confined(stack, top)
      requires Orderly(nodes, top, stack, jobs, seen) ==>
                 jobs != [] && jobs[|jobs| - 1].p in nodes && nodes[jobs[|jobs| - 1].p].Dir?
      modifies `clock
      ensures r.Success? ==> Confined(r.value, top)
      ensures Smooth() && Orderly(nodes, top, stack, jobs, seen) ==> r.Success?
      ensures r.Success? && Truthful() && Orderly(nodes, top, stack, jobs, seen) ==>
                Orderly(nodes, top, r.value, jobs', seen') && |nodes.Keys - seen'| < |nodes.Keys - seen|
    {
      hide *;
      jobs', seen' := jobs, seen;
      var visited, rest := stack[|stack| - 1].path, stack[..|stack| - 1];
      if Orderly(nodes, top, stack, jobs, seen) {
        OrderlyMeans(nodes, top, stack, jobs, seen);
        TopJob(nodes, top, stack, jobs, seen);
        TaskMeans(nodes, stack[|stack| - 1], jobs[|jobs| - 1]);
      }
      var entries := ReadDir(visited);
      if entries.Failure? {
        return Failure(entries.error), jobs', seen';
      }
      var children;
      ghost var kids;
      children, kids := PushChildren(visited, entries.value, nodes);
      ConfinedExpands(stack, top, children);
      r := Success(rest + [RemoveDir(visited)] + children);
      if Truthful() && Orderly(nodes, top, stack, jobs, seen) {
        JobExpands(nodes, top, jobs, seen, kids);
        MatchesExpands(nodes, stack, jobs, visited, children, kids);
        SeenGrows(nodes, top, jobs, seen);
        jobs', seen' := Expanded(jobs, kids), seen + {jobs[|jobs| - 1].p};
        IsOrderly(nodes, top, r.value, jobs', seen');
      }
    }

    /** The visits to push for a directory, last entry first, leaving out the directory itself and
        its parent. */
    method PushChildren(dir: bytes, entries: seq<Entry>, ghost nodes: map<Path, Node>)
      returns (children: seq<Task>, ghost kids: seq<Name>)
      requires Normalize(dir).Success? && IsTree(nodes)
      ensures forall i :: 0 <= i < |children| ==> Joined(dir, children[i].path)
      ensures var p := Normalize(dir).value;
              Lists(nodes, p, entries) ==>
                && |children| == |kids| && IsChildren(nodes, p, kids)
                && forall i :: 0 <= i < |kids| ==> TaskIs(nodes, children[i], Look(p + [kids[i]]))
    {
      hide *;
      ghost var p := Normalize(dir).value;
      children, kids := [], [];
      PushedNone(nodes, p, entries);
      var i := |entries|;
      while i > 0
        invariant 0 <= i <= |entries|
        invariant forall k :: 0 <= k < |children| ==> Joined(dir, children[k].path)
        invariant Lists(nodes, p, entries) ==> Pushed(nodes, p, entries, i, children, kids)
      {
        i := i - 1;
        if entries[i].name == HERE || entries[i].name == UP {
          if Lists(nodes, p, entries) {
            PushedSkips(nodes, p, entries, i, children, kids);
          }
          continue;
        }
        if Lists(nodes, p, entries) {
          PushedExtends(nodes, dir, p, entries, i, children, kids);
        }
        var child := Visit(JoinPath(dir, entries[i].name), entries[i].kind);
        IsJoined(dir, entries[i].name);
        children, kids := children + [child], kids + [entries[i].name];
      }
      if Lists(nodes, p, entries) {
        PushedAll(nodes, p, entries, children, kids);
      }
    }
  }

  /** Every task is about the subtree: its path is refused or leads to its top or below. */
  predicate Confined(stack: seq<Task>, top: Path) {
    forall i :: 0 <= i < |stack| ==> Normalize(stack[i].path).Success? ==> Below(top, Normalize(stack[i].path).value)
  }

  /** The path of some entry of a directory. */
  ghost predicate Joined(dir: bytes, path: bytes) {
    exists name :: path == JoinPath(dir, name)
  }

  lemma IsJoined(dir: bytes, name: Name)
    ensures Joined(dir, JoinPath(dir, name))
  {
  }

  lemma ConfinedStart(path: bytes, top: Path, kind: Option<Kind>)
    requires Normalize(path) == Success(top)
    ensures Confined([Visit(path, kind)], top)
  {
    hide Normalize;
  }

  lemma ConfinedRest(stack: seq<Task>, top: Path)
    requires Confined(stack, top) && stack != []
    ensures Confined(stack[..|stack| - 1], top)
    ensures Normalize(stack[|stack| - 1].path).Success? ==> Below(top, Normalize(stack[|stack| - 1].path).value)
  {
    hide Normalize, Below;
  }

  /** Whatever a directory lists, its entries do not lead out of it. */
  lemma ConfinedExpands(stack: seq<Task>, top: Path, children: seq<Task>)
    requires Confined(stack, top) && stack != [] && Normalize(stack[|stack| - 1].path).Success?
    requires forall i :: 0 <= i < |children| ==> Joined(stack[|stack| - 1].path, children[i].path)
    ensures Confined(stack[..|stack| - 1] + [RemoveDir(stack[|stack| - 1].path)] + children, top)
  {
    hide Normalize, JoinPath;
    var dir := stack[|stack| - 1].path;
    forall i | 0 <= i < |children| && Normalize(children[i].path).Success?
      ensures Below(top, Normalize(children[i].path).value)
    {
      var name :| children[i].path == JoinPath(dir, name);
      JoinStaysInside(dir, name);
    }
  }

  lemma RemovedBelow(start: map<Path, Node>, before: map<Path, Node>, nodes: map<Path, Node>, top: Path, path: bytes)
    requires OnlyBelowMissing(start, before, top)
    requires nodes == before || (Normalize(path).Success? && nodes == before - {Normalize(path).value})
    requires Normalize(path).Success? ==> Below(top, Normalize(path).value)
    ensures OnlyBelowMissing(start, nodes, top)
  {
    hide Normalize;
  }

  /** The visits pushed for the entries from `i` on. */
  ghost predicate Pushed(nodes: map<Path, Node>, p: Path, entries: seq<Entry>, i: nat, children: seq<Task>,
                         kids: seq<Name>)
  {
    && |children| == |kids|
    && (forall k :: 0 <= k < |kids| ==> p + [kids[k]] in nodes && TaskIs(nodes, children[k], Look(p + [kids[k]])))
    && (forall k :: 0 <= k < |kids| ==> exists j :: i <= j < |entries| && entries[j].name == kids[k])
    && (forall j :: i <= j < |entries| && entries[j].name != HERE && entries[j].name != UP ==> entries[j].name in kids)
    && (forall a, b :: 0 <= a < b < |kids| ==> kids[a] != kids[b])
  }

  lemma PushedNone(nodes: map<Path, Node>, p: Path, entries: seq<Entry>)
    ensures Pushed(nodes, p, entries, |entries|, [], [])
  {
  }

  lemma PushedSkips(nodes: map<Path, Node>, p: Path, entries: seq<Entry>, i: nat, children: seq<Task>, kids: seq<Name>)
    requires i < |entries| && (entries[i].name == HERE || entries[i].name == UP)
    requires Pushed(nodes, p, entries, i + 1, children, kids)
    ensures Pushed(nodes, p, entries, i, children, kids)
  {
    hide Normalize, TaskIs;
  }

  lemma EntryTask(nodes: map<Path, Node>, dir: bytes, p: Path, entries: seq<Entry>, i: nat)
    requires Normalize(dir) == Success(p) && IsTree(nodes) && Lists(nodes, p, entries)
    requires i < |entries| && entries[i].name != HERE && entries[i].name != UP
    ensures p + [entries[i].name] in nodes
    ensures TaskIs(nodes, Visit(JoinPath(dir, entries[i].name), entries[i].kind), Look(p + [entries[i].name]))
  {
    hide Normalize, JoinPath;
    var entry := entries[i];
    assert entry in entries;
    var child := p + [entry.name];
    assert child in nodes && Parent(child) == p && child[|child| - 1] == entry.name;
    JoinChild(dir, entry.name);
  }

  lemma PushedExtends(nodes: map<Path, Node>, dir: bytes, p: Path, entries: seq<Entry>, i: nat, children: seq<Task>,
                      kids: seq<Name>)
    requires Normalize(dir) == Success(p) && IsTree(nodes) && Lists(nodes, p, entries)
    requires i < |entries| && entries[i].name != HERE && entries[i].name != UP
    requires Pushed(nodes, p, entries, i + 1, children, kids)
    ensures Pushed(nodes, p, entries, i, children + [Visit(JoinPath(dir, entries[i].name), entries[i].kind)],
                   kids + [entries[i].name])
  {
    hide Normalize, JoinPath, TaskIs, IsTree, Lists;
    EntryTask(nodes, dir, p, entries, i);
    NamesDiffer(nodes, p, entries);
    assert entries[i].name !in kids;
    var more := kids + [entries[i].name];
    forall k | 0 <= k < |more| ensures exists j :: i <= j < |entries| && entries[j].name == more[k] {
      if k == |kids| {
        assert entries[i].name == more[k];
      }
    }
  }

  lemma NamesDiffer(nodes: map<Path, Node>, p: Path, entries: seq<Entry>)
    requires Lists(nodes, p, entries)
    ensures forall i, j :: 0 <= i < j < |entries| ==> entries[i].name != entries[j].name
  {
  }

  lemma PushedAll(nodes: map<Path, Node>, p: Path, entries: seq<Entry>, children: seq<Task>, kids: seq<Name>)
    requires IsTree(nodes) && Lists(nodes, p, entries) && Pushed(nodes, p, entries, 0, children, kids)
    ensures |children| == |kids| && IsChildren(nodes, p, kids)
    ensures forall i :: 0 <= i < |kids| ==> TaskIs(nodes, children[i], Look(p + [kids[i]]))
  {
    hide TaskIs, IsTree, Lists, IsChildren;
    ListedIsChildren(nodes, p, entries, kids);
  }

  // ---- The stack --------------------------------------------------------------------------------

  datatype Task = Visit(path: bytes, kind: Option<Kind>) | RemoveDir(path: bytes)

  /** What a task is about: to look at everything below a path, or to drop one emptied directory. */
  datatype Job = Look(p: Path) | Drop(p: Path)

  predicate Covers(job: Job, p: Path) {
    match job case Look(q) => Below(q, p) case Drop(q) => p == q
  }

  predicate CoveredFrom(jobs: seq<Job>, lo: nat, p: Path) {
    exists i :: lo <= i < |jobs| && Covers(jobs[i], p)
  }

  ghost predicate Apart(a: Job, b: Job) {
    forall p :: !(Covers(a, p) && Covers(b, p))
  }

  predicate AllCovered(nodes: map<Path, Node>, top: Path, jobs: seq<Job>) {
    forall p :: p in nodes && Below(top, p) ==> CoveredFrom(jobs, 0, p)
  }

  predicate AllStand(nodes: map<Path, Node>, top: Path, jobs: seq<Job>) {
    forall i :: 0 <= i < |jobs| ==>
      jobs[i].p in nodes && Below(top, jobs[i].p) && (jobs[i].Drop? ==> nodes[jobs[i].p].Dir?)
  }

  predicate DropsLast(nodes: map<Path, Node>, jobs: seq<Job>) {
    forall i, p :: 0 <= i < |jobs| && jobs[i].Drop? && p in nodes && StrictlyBelow(jobs[i].p, p) ==>
      CoveredFrom(jobs, i + 1, p)
  }

  ghost predicate AllApart(jobs: seq<Job>) {
    forall i, j :: 0 <= i < j < |jobs| ==> Apart(jobs[i], jobs[j])
  }

  predicate Unseen(nodes: map<Path, Node>, jobs: seq<Job>, seen: set<Path>) {
    forall i, p :: 0 <= i < |jobs| && jobs[i].Look? && p in nodes && Below(jobs[i].p, p) ==> p !in seen
  }

  /** The stack accounts for all that is left below `top`, each node once; what is below a
      directory to drop is the business of tasks above it on the stack; and no directory is
      looked into twice. */
  ghost predicate JobsOk(nodes: map<Path, Node>, top: Path, jobs: seq<Job>, seen: set<Path>) {
    AllCovered(nodes, top, jobs) && AllStand(nodes, top, jobs) && DropsLast(nodes, jobs) && AllApart(jobs)
    && Unseen(nodes, jobs, seen)
  }

  ghost predicate TaskIs(nodes: map<Path, Node>, task: Task, job: Job) {
    && Normalize(task.path) == Success(job.p)
    && (task.Visit? <==> job.Look?)
    && (task.Visit? && task.kind.Some? && job.p in nodes ==> task.kind.value == KindOf(nodes[job.p]))
  }

  ghost predicate Matches(nodes: map<Path, Node>, stack: seq<Task>, jobs: seq<Job>) {
    |stack| == |jobs| && forall i :: 0 <= i < |jobs| ==> TaskIs(nodes, stack[i], jobs[i])
  }

  /** Each task on the stack is a job, and the jobs are in order. */
  ghost predicate Orderly(nodes: map<Path, Node>, top: Path, stack: seq<Task>, jobs: seq<Job>, seen: set<Path>) {
    JobsOk(nodes, top, jobs, seen) && Matches(nodes, stack, jobs)
  }

  lemma OrderlyMeans(nodes: map<Path, Node>, top: Path, stack: seq<Task>, jobs: seq<Job>, seen: set<Path>)
    requires Orderly(nodes, top, stack, jobs, seen)
    ensures JobsOk(nodes, top, jobs, seen) && Matches(nodes, stack, jobs) && |stack| == |jobs|
  {
  }

  lemma IsOrderly(nodes: map<Path, Node>, top: Path, stack: seq<Task>, jobs: seq<Job>, seen: set<Path>)
    requires JobsOk(nodes, top, jobs, seen) && Matches(nodes, stack, jobs)
    ensures Orderly(nodes, top, stack, jobs, seen)
  {
  }

  function Pruned(nodes: map<Path, Node>, top: Path): map<Path, Node> {
    map p | p in nodes && !Below(top, p) :: nodes[p]
  }

  predicate OnlyBelowMissing(a: map<Path, Node>, b: map<Path, Node>, top: Path) {
    && (forall p :: p in b ==> p in a && b[p] == a[p])
    && (forall p :: p in a ==> p in b || Below(top, p))
  }

  lemma MissingNothing(nodes: map<Path, Node>, top: Path)
    ensures OnlyBelowMissing(nodes, nodes, top)
  {
  }

  ghost predicate IsChildren(nodes: map<Path, Node>, p: Path, kids: seq<Name>) {
    && (forall i :: 0 <= i < |kids| ==> p + [kids[i]] in nodes)
    && (forall i, j :: 0 <= i < j < |kids| ==> kids[i] != kids[j])
    && (forall q :: q in nodes && q != [] && Parent(q) == p ==> q[|q| - 1] in kids)
  }

  lemma ListedIsChildren(nodes: map<Path, Node>, p: Path, entries: seq<Entry>, kids: seq<Name>)
    requires IsTree(nodes) && Lists(nodes, p, entries)
    requires forall i :: 0 <= i < |kids| ==> p + [kids[i]] in nodes
    requires forall i, j :: 0 <= i < j < |kids| ==> kids[i] != kids[j]
    requires forall j :: 0 <= j < |entries| && entries[j].name != HERE && entries[j].name != UP ==>
               entries[j].name in kids
    ensures IsChildren(nodes, p, kids)
  {
    forall q | q in nodes && q != [] && Parent(q) == p ensures q[|q| - 1] in kids {
      assert PlainName(q[|q| - 1]);
      var e :| e in entries && e.name == q[|q| - 1];
      var j :| 0 <= j < |entries| && entries[j] == e;
    }
  }

  lemma JobsStart(nodes: map<Path, Node>, top: Path, path: bytes)
    requires top in nodes && Normalize(path) == Success(top)
    ensures JobsOk(nodes, top, [Look(top)], {}) && Matches(nodes, [Visit(path, Some(KindOf(nodes[top])))], [Look(top)])
  {
    hide Normalize, CoveredFrom;
    var jobs := [Look(top)];
    forall p | p in nodes && Below(top, p) ensures CoveredFrom(jobs, 0, p) {
      CoveredAt(jobs, 0, 0, p);
    }
  }

  lemma TopJob(nodes: map<Path, Node>, top: Path, stack: seq<Task>, jobs: seq<Job>, seen: set<Path>)
    requires Matches(nodes, stack, jobs) && JobsOk(nodes, top, jobs, seen) && stack != []
    ensures |jobs| == |stack| && TaskIs(nodes, stack[|stack| - 1], jobs[|jobs| - 1]) && jobs[|jobs| - 1].p in nodes
    ensures top != [] ==> jobs[|jobs| - 1].p != []
    ensures jobs[|jobs| - 1].Drop? ==> nodes[jobs[|jobs| - 1].p].Dir?
  {
    hide Normalize, AllCovered, DropsLast, AllApart, Unseen;
  }

  lemma TaskMeans(nodes: map<Path, Node>, task: Task, job: Job)
    requires TaskIs(nodes, task, job)
    ensures job.p in nodes && job.p != [] ==> Leads(task.path, nodes)
    ensures Normalize(task.path) == Success(job.p) && (task.Visit? <==> job.Look?)
    ensures task.Visit? && task.kind.Some? && job.p in nodes ==> task.kind.value == KindOf(nodes[job.p])
  {
  }

  lemma FileIsLeaf(nodes: map<Path, Node>, p: Path)
    requires p in nodes && KindOf(nodes[p]) == FileKind
    ensures nodes[p].Leaf?
  {
  }

  lemma DirIsDir(nodes: map<Path, Node>, p: Path)
    requires p in nodes && KindOf(nodes[p]) == DirKind
    ensures nodes[p].Dir?
  {
  }

  lemma DropIsEmpty(nodes: map<Path, Node>, top: Path, jobs: seq<Job>, seen: set<Path>)
    requires JobsOk(nodes, top, jobs, seen) && jobs != [] && jobs[|jobs| - 1].Drop?
    ensures Childless(nodes, jobs[|jobs| - 1].p)
  {
  }

  lemma ChildlessMeans(nodes: map<Path, Node>, q: Path, p: Path)
    requires Childless(nodes, q) && p in nodes
    ensures !(q < p)
  {
    assert StrictlyBelow(q, p) <==> q < p;
  }

  lemma CoverDone(nodes: map<Path, Node>, jobs: seq<Job>, lo: nat, p: Path)
    requires jobs != [] && Childless(nodes, jobs[|jobs| - 1].p) && p in nodes && p != jobs[|jobs| - 1].p
    requires CoveredFrom(jobs, lo, p)
    ensures CoveredFrom(jobs[..|jobs| - 1], lo, p)
  {
    var rest := jobs[..|jobs| - 1];
    ChildlessMeans(nodes, jobs[|jobs| - 1].p, p);
    var i :| lo <= i < |jobs| && Covers(jobs[i], p);
    assert Covers(rest[i], p);
  }

  /** The top job is done once its path, the last thing it covered, is gone. */
  lemma JobDone(nodes: map<Path, Node>, before: map<Path, Node>, top: Path, jobs: seq<Job>, seen: set<Path>,
                stack: seq<Task>)
    requires JobsOk(before, top, jobs, seen) && jobs != [] && Matches(before, stack, jobs)
    requires Childless(before, jobs[|jobs| - 1].p) && nodes == before - {jobs[|jobs| - 1].p}
    ensures JobsOk(nodes, top, jobs[..|jobs| - 1], seen) && Matches(nodes, stack[..|stack| - 1], jobs[..|jobs| - 1])
    ensures |nodes.Keys| < |before.Keys|
  {
    hide Normalize, CoveredFrom, Childless, Apart;
    var n := |jobs| - 1;
    var q, rest := jobs[n].p, jobs[..n];
    assert nodes.Keys == before.Keys - {q};
    forall p | p in nodes && Below(top, p) ensures CoveredFrom(rest, 0, p) {
      CoverDone(before, jobs, 0, p);
    }
    forall i | 0 <= i < n ensures rest[i].p in nodes {
      ApartPaths(jobs[i], jobs[n]);
    }
    forall i, p | 0 <= i < |rest| && rest[i].Drop? && p in nodes && StrictlyBelow(rest[i].p, p)
      ensures CoveredFrom(rest, i + 1, p)
    {
      assert jobs[i].Drop?;
      CoverDone(before, jobs, i + 1, p);
    }
  }

  lemma ApartPaths(a: Job, b: Job)
    requires Apart(a, b)
    ensures a.p != b.p
  {
    assert Covers(a, a.p);
  }

  function Looks(p: Path, kids: seq<Name>): (r: seq<Job>)
    ensures |r| == |kids| && forall i :: 0 <= i < |kids| ==> r[i] == Look(p + [kids[i]])
  {
    seq(|kids|, i requires 0 <= i < |kids| => Look(p + [kids[i]]))
  }

  function Expanded(jobs: seq<Job>, kids: seq<Name>): seq<Job>
    requires jobs != []
  {
    jobs[..|jobs| - 1] + [Drop(jobs[|jobs| - 1].p)] + Looks(jobs[|jobs| - 1].p, kids)
  }

  lemma SeenGrows(nodes: map<Path, Node>, top: Path, jobs: seq<Job>, seen: set<Path>)
    requires JobsOk(nodes, top, jobs, seen) && jobs != [] && jobs[|jobs| - 1].Look?
    ensures var q := jobs[|jobs| - 1].p; |nodes.Keys - (seen + {q})| < |nodes.Keys - seen|
  {
    var q := jobs[|jobs| - 1].p;
    assert Below(q, q);
    assert nodes.Keys - (seen + {q}) == (nodes.Keys - seen) - {q};
  }

  lemma ExpandedAt(jobs: seq<Job>, kids: seq<Name>)
    requires jobs != []
    ensures var n, q := |jobs| - 1, jobs[|jobs| - 1].p;
            && |Expanded(jobs, kids)| == n + 1 + |kids|
            && (forall i :: 0 <= i < n ==> Expanded(jobs, kids)[i] == jobs[i])
            && Expanded(jobs, kids)[n] == Drop(q)
            && (forall i :: n < i < n + 1 + |kids| ==> Expanded(jobs, kids)[i] == Look(q + [kids[i - n - 1]]))
  {
  }

  lemma ChildCovers(nodes: map<Path, Node>, q: Path, kids: seq<Name>, p: Path) returns (k: nat)
    requires IsTree(nodes) && IsChildren(nodes, q, kids) && p in nodes && StrictlyBelow(q, p)
    ensures k < |kids| && Below(q + [kids[k]], p)
  {
    StepTowards(nodes, q, p);
    var child := q + [p[|q|]];
    assert Parent(child) == q && child[|child| - 1] == p[|q|];
    k :| 0 <= k < |kids| && kids[k] == p[|q|];
  }

  lemma CoverExpands(nodes: map<Path, Node>, jobs: seq<Job>, kids: seq<Name>, lo: nat, p: Path)
    requires IsTree(nodes) && jobs != [] && jobs[|jobs| - 1].Look? && IsChildren(nodes, jobs[|jobs| - 1].p, kids)
    requires p in nodes && CoveredFrom(jobs, lo, p)
    ensures CoveredFrom(Expanded(jobs, kids), lo, p)
  {
    hide IsTree, IsChildren, Expanded;
    var n, q, more := |jobs| - 1, jobs[|jobs| - 1].p, Expanded(jobs, kids);
    ExpandedAt(jobs, kids);
    var i :| lo <= i < |jobs| && Covers(jobs[i], p);
    if i == n && p != q {
      var k := ChildCovers(nodes, q, kids, p);
      assert Covers(more[n + 1 + k], p);
    } else {
      assert Covers(more[i], p);
    }
  }

  /** What replaces a job covers no more than the job did, and no part of it twice. */
  lemma ExpandedWithin(jobs: seq<Job>, kids: seq<Name>, i: nat, p: Path)
    requires jobs != [] && |jobs| - 1 <= i < |Expanded(jobs, kids)|
    ensures Covers(Expanded(jobs, kids)[i], p) ==> Below(jobs[|jobs| - 1].p, p)
  {
    hide Expanded;
    ExpandedAt(jobs, kids);
    var q := jobs[|jobs| - 1].p;
    if i > |jobs| - 1 {
      assert q <= q + [kids[i - |jobs|]];
    }
  }

  lemma NoOverlap(jobs: seq<Job>, kids: seq<Name>, i: nat, j: nat, p: Path)
    requires jobs != [] && AllApart(jobs) && jobs[|jobs| - 1].Look?
    requires forall a, b :: 0 <= a < b < |kids| ==> kids[a] != kids[b]
    requires i < j < |Expanded(jobs, kids)| && Covers(Expanded(jobs, kids)[i], p)
    ensures !Covers(Expanded(jobs, kids)[j], p)
  {
    hide Expanded;
    var n, q := |jobs| - 1, jobs[|jobs| - 1].p;
    ExpandedAt(jobs, kids);
    if j < n {
      assert Apart(jobs[i], jobs[j]);
    } else if i < n {
      ExpandedWithin(jobs, kids, j, p);
      assert Apart(jobs[i], jobs[n]);
    } else if i > n {
      assert p[|q|] == (q + [kids[i - n - 1]])[|q|];
      assert (q + [kids[j - n - 1]])[|q|] == kids[j - n - 1];
    }
  }

  lemma ExpandedApart(jobs: seq<Job>, kids: seq<Name>)
    requires jobs != [] && AllApart(jobs) && jobs[|jobs| - 1].Look?
    requires forall i, j :: 0 <= i < j < |kids| ==> kids[i] != kids[j]
    ensures AllApart(Expanded(jobs, kids))
  {
    hide Expanded;
    var more := Expanded(jobs, kids);
    forall i, j | 0 <= i < j < |more| ensures Apart(more[i], more[j]) {
      forall p ensures !(Covers(more[i], p) && Covers(more[j], p)) {
        if Covers(more[i], p) {
          NoOverlap(jobs, kids, i, j, p);
        }
      }
    }
  }

  lemma ExpandedCovered(nodes: map<Path, Node>, top: Path, jobs: seq<Job>, kids: seq<Name>)
    requires IsTree(nodes) && jobs != [] && jobs[|jobs| - 1].Look? && IsChildren(nodes, jobs[|jobs| - 1].p, kids)
    requires AllCovered(nodes, top, jobs)
    ensures AllCovered(nodes, top, Expanded(jobs, kids))
  {
    hide Expanded, IsTree, CoveredFrom, IsChildren;
    forall p | p in nodes && Below(top, p) ensures CoveredFrom(Expanded(jobs, kids), 0, p) {
      CoverExpands(nodes, jobs, kids, 0, p);
    }
  }

  lemma ExpandedStand(nodes: map<Path, Node>, top: Path, jobs: seq<Job>, kids: seq<Name>)
    requires jobs != [] && IsChildren(nodes, jobs[|jobs| - 1].p, kids) && AllStand(nodes, top, jobs)
    requires nodes[jobs[|jobs| - 1].p].Dir?
    ensures AllStand(nodes, top, Expanded(jobs, kids))
  {
    hide Expanded;
    var n, q, more := |jobs| - 1, jobs[|jobs| - 1].p, Expanded(jobs, kids);
    ExpandedAt(jobs, kids);
    forall i | n < i < |more| ensures more[i].p in nodes && Below(top, more[i].p) {
      assert top <= q <= q + [kids[i - n - 1]];
    }
  }

  lemma ExpandedDrops(nodes: map<Path, Node>, jobs: seq<Job>, kids: seq<Name>)
    requires IsTree(nodes) && jobs != [] && jobs[|jobs| - 1].Look? && IsChildren(nodes, jobs[|jobs| - 1].p, kids)
    requires DropsLast(nodes, jobs)
    ensures DropsLast(nodes, Expanded(jobs, kids))
  {
    hide Expanded, IsTree, CoveredFrom, IsChildren;
    var n, q, more := |jobs| - 1, jobs[|jobs| - 1].p, Expanded(jobs, kids);
    ExpandedAt(jobs, kids);
    forall i, p | 0 <= i < |more| && more[i].Drop? && p in nodes && StrictlyBelow(more[i].p, p)
      ensures CoveredFrom(more, i + 1, p)
    {
      if i < n {
        assert jobs[i].Drop?;
        CoverExpands(nodes, jobs, kids, i + 1, p);
      } else {
        var k := ChildCovers(nodes, q, kids, p);
        CoveredAt(more, i + 1, n + 1 + k, p);
      }
    }
  }

  /** A directory that is looked at is replaced by its children, above its own removal. */
  lemma JobExpands(nodes: map<Path, Node>, top: Path, jobs: seq<Job>, seen: set<Path>, kids: seq<Name>)
    requires IsTree(nodes) && JobsOk(nodes, top, jobs, seen) && jobs != [] && jobs[|jobs| - 1].Look?
    requires nodes[jobs[|jobs| - 1].p].Dir? && IsChildren(nodes, jobs[|jobs| - 1].p, kids)
    ensures JobsOk(nodes, top, Expanded(jobs, kids), seen + {jobs[|jobs| - 1].p})
  {
    hide Expanded, IsTree, AllCovered, AllStand, DropsLast, AllApart, Unseen;
    ExpandedCovered(nodes, top, jobs, kids);
    ExpandedStand(nodes, top, jobs, kids);
    ExpandedDrops(nodes, jobs, kids);
    ExpandedApart(jobs, kids);
    ExpandedUnseen(nodes, jobs, seen, kids);
  }

  lemma CoveredAt(jobs: seq<Job>, lo: nat, i: nat, p: Path)
    requires lo <= i < |jobs| && Covers(jobs[i], p)
    ensures CoveredFrom(jobs, lo, p)
  {
  }

  lemma ExpandedUnseen(nodes: map<Path, Node>, jobs: seq<Job>, seen: set<Path>, kids: seq<Name>)
    requires jobs != [] && jobs[|jobs| - 1].Look? && Unseen(nodes, jobs, seen) && AllApart(jobs)
    ensures Unseen(nodes, Expanded(jobs, kids), seen + {jobs[|jobs| - 1].p})
  {
    hide Expanded;
    var n, q, more := |jobs| - 1, jobs[|jobs| - 1].p, Expanded(jobs, kids);
    ExpandedAt(jobs, kids);
    forall i, p | 0 <= i < |more| && more[i].Look? && p in nodes && Below(more[i].p, p) ensures p !in seen + {q} {
      if i < n {
        assert Apart(jobs[i], jobs[n]) && Covers(jobs[n], q) && Covers(jobs[i], p);
        assert Below(jobs[i].p, p);
      } else {
        assert Covers(more[i], p);
        ExpandedWithin(jobs, kids, i, p);
        assert |q| < |more[i].p| <= |p|;
      }
    }
  }

  lemma MatchesExpands(nodes: map<Path, Node>, stack: seq<Task>, jobs: seq<Job>, dir: bytes, children: seq<Task>,
                       kids: seq<Name>)
    requires Matches(nodes, stack, jobs) && stack != [] && Normalize(dir) == Success(jobs[|jobs| - 1].p)
    requires |children| == |kids|
    requires forall i :: 0 <= i < |kids| ==> TaskIs(nodes, children[i], Look(jobs[|jobs| - 1].p + [kids[i]]))
    ensures Matches(nodes, stack[..|stack| - 1] + [RemoveDir(dir)] + children, Expanded(jobs, kids))
    ensures |stack[..|stack| - 1] + [RemoveDir(dir)] + children| == |Expanded(jobs, kids)|
  {
    hide Normalize;
  }

  lemma NoJobsLeft(start: map<Path, Node>, nodes: map<Path, Node>, top: Path, jobs: seq<Job>, seen: set<Path>)
    requires Orderly(nodes, top, [], jobs, seen) && OnlyBelowMissing(start, nodes, top)
    ensures nodes == Pruned(start, top)
  {
    assert forall p :: !CoveredFrom(jobs, 0, p);
  }
}

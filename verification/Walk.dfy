// The budgeted breadth-first walk of a workspace.
module Walk {
  import opened Prelude

  // A directory entry. `entries` is sorted and means nothing when the directory cannot be read; a
  // file whose type or size cannot be read has no size.
  datatype Entry =
    | Dir(name: string, readable: bool, entries: seq<Entry>)
    | File(name: string, suffix: string, size: Option<nat>)

  type Path = seq<string>

  // A directory in the queue, and a file found.
  datatype Node = Node(path: Path, dir: Entry)
  datatype Hit = Hit(path: Path, size: nat)

  datatype Limit = Directories | Seconds | Files | Bytes

  // Which names are passed over, and which suffixes make a file one of interest.
  datatype Rules = Rules(ignore: set<string>, textual: set<string>, maxFileBytes: int)

  datatype Budget = Budget(maxFiles: int, maxBytes: int, maxDirs: int)

  // -- which files there are --

  predicate Indexable(e: Entry, r: Rules) {
    e.File? && e.name !in r.ignore && e.suffix in r.textual && e.size.Some? && e.size.value <= r.maxFileBytes
  }

  predicate Enterable(e: Entry, r: Rules) {
    e.Dir? && e.name !in r.ignore
  }

  function Listing(dir: Entry): seq<Entry> {
    if dir.Dir? && dir.readable then dir.entries else []
  }

  // The file of this size at this path below the directory: a chain of names, none ignored, through
  // readable directories to an indexable file.
  ghost predicate Located(dir: Entry, path: Path, size: nat, r: Rules)
    decreases |path|
  {
    path != [] && exists i :: 0 <= i < |Listing(dir)| && Leads(Listing(dir)[i], path, size, r)
  }

  ghost predicate Leads(e: Entry, path: Path, size: nat, r: Rules)
    requires path != []
    decreases |path|, 0
  {
    && e.name == path[0]
    && if |path| == 1 then Indexable(e, r) && e.size.value == size
       else Enterable(e, r) && Located(e, path[1..], size, r)
  }

  // -- the unbudgeted walk --

  function Weight(e: Entry): nat {
    1 + if e.Dir? then WeightAll(e.entries) else 0
  }

  function WeightAll(es: seq<Entry>): nat {
    if es == [] then 0 else Weight(es[0]) + WeightAll(es[1..])
  }

  function Load(queue: seq<Node>): nat {
    if queue == [] then 0 else Weight(queue[0].dir) + Load(queue[1..])
  }

  function HitsOf(path: Path, es: seq<Entry>, r: Rules): seq<Hit> {
    if es == [] then []
    else (if Indexable(es[0], r) then [Hit(path + [es[0].name], es[0].size.value)] else []) + HitsOf(path, es[1..], r)
  }

  function NodesOf(path: Path, es: seq<Entry>, r: Rules): (nodes: seq<Node>)
    ensures Load(nodes) <= WeightAll(es)
  {
    if es == [] then []
    else
      var rest := NodesOf(path, es[1..], r);
      if Enterable(es[0], r) then [Node(path + [es[0].name], es[0])] + rest else rest
  }

  function Found(n: Node, r: Rules): seq<Hit> { HitsOf(n.path, Listing(n.dir), r) }
  function Below(n: Node, r: Rules): seq<Node> { NodesOf(n.path, Listing(n.dir), r) }

  lemma {:induction false} LoadConcat(a: seq<Node>, b: seq<Node>)
    ensures Load(a + b) == Load(a) + Load(b)
  {
    if a == [] {
      assert a + b == b;
    } else {
      LoadConcat(a[1..], b);
      assert (a + b)[1..] == a[1..] + b;
    }
  }

  // A directory weighs more than what is queued for it.
  lemma {:induction false} LoadFalls(queue: seq<Node>, r: Rules)
    requires queue != []
    ensures Load(queue[1..] + Below(queue[0], r)) < Load(queue)
    ensures Load(Below(queue[0], r)) < Load(queue) && Load(queue[1..]) < Load(queue)
  {
    LoadConcat(queue[1..], Below(queue[0], r));
  }

  function Bfs(queue: seq<Node>, r: Rules): seq<Hit>
    decreases Load(queue)
  {
    if queue == [] then []
    else
      LoadFalls(queue, r);
      Found(queue[0], r) + Bfs(queue[1..] + Below(queue[0], r), r)
  }

  // The same files directory by directory, and how many directories there are.
  function All(queue: seq<Node>, r: Rules): multiset<Hit>
    decreases Load(queue)
  {
    if queue == [] then multiset{}
    else
      LoadFalls(queue, r);
      multiset(Found(queue[0], r)) + All(Below(queue[0], r), r) + All(queue[1..], r)
  }

  function DirCount(queue: seq<Node>, r: Rules): nat
    decreases Load(queue)
  {
    if queue == [] then 0
    else
      LoadFalls(queue, r);
      1 + DirCount(queue[1..] + Below(queue[0], r), r)
  }

  function Total(hits: seq<Hit>): nat {
    if hits == [] then 0 else Total(hits[..|hits| - 1]) + hits[|hits| - 1].size
  }

  // -- breadth first: no file before a shallower one --

  predicate Layered(queue: seq<Node>) {
    && (forall i, j :: 0 <= i < j < |queue| ==> |queue[i].path| <= |queue[j].path|)
    && (forall i :: 0 <= i < |queue| ==> |queue[i].path| <= |queue[0].path| + 1)
  }

  predicate Shallowest(hits: seq<Hit>) {
    forall i, j :: 0 <= i < j < |hits| ==> |hits[i].path| <= |hits[j].path|
  }

  lemma {:induction false} HitDepth(path: Path, es: seq<Entry>, r: Rules)
    ensures forall h :: h in HitsOf(path, es, r) ==> |h.path| == |path| + 1
  {
    if es != [] { HitDepth(path, es[1..], r); }
  }

  lemma {:induction false} NodeDepth(path: Path, es: seq<Entry>, r: Rules)
    ensures forall i :: 0 <= i < |NodesOf(path, es, r)| ==> |NodesOf(path, es, r)[i].path| == |path| + 1
  {
    if es != [] { NodeDepth(path, es[1..], r); }
  }

  lemma LayeredNext(queue: seq<Node>, r: Rules)
    requires queue != [] && Layered(queue)
    ensures Layered(queue[1..] + Below(queue[0], r))
  {
    NodeDepth(queue[0].path, Listing(queue[0].dir), r);
  }

  lemma ShallowestConcat(a: seq<Hit>, b: seq<Hit>, depth: nat)
    requires Shallowest(b)
    requires forall i :: 0 <= i < |a| ==> |a[i].path| == depth
    requires forall i :: 0 <= i < |b| ==> |b[i].path| >= depth
    ensures Shallowest(a + b)
    ensures forall i :: 0 <= i < |a + b| ==> |(a + b)[i].path| >= depth
  {}

  // Nothing at this depth or above.
  predicate Deeper(hits: seq<Hit>, depth: nat) {
    forall i :: 0 <= i < |hits| ==> |hits[i].path| > depth
  }

  lemma FoundDepth(n: Node, r: Rules)
    ensures forall i :: 0 <= i < |Found(n, r)| ==> |Found(n, r)[i].path| == |n.path| + 1
  {
    HitDepth(n.path, Listing(n.dir), r);
  }

  // The next directory in the queue is not above the one before.
  lemma NextDepth(queue: seq<Node>, r: Rules)
    requires queue != [] && Layered(queue)
    ensures var next := queue[1..] + Below(queue[0], r); next != [] ==> |next[0].path| >= |queue[0].path|
  {
    NodeDepth(queue[0].path, Listing(queue[0].dir), r);
  }

  lemma {:induction false} BfsLayered(queue: seq<Node>, r: Rules)
    requires Layered(queue)
    ensures Shallowest(Bfs(queue, r))
    ensures if queue == [] then Bfs(queue, r) == [] else Deeper(Bfs(queue, r), |queue[0].path|)
    decreases Load(queue)
  {
    if queue != [] {
      LoadFalls(queue, r);
      LayeredNext(queue, r);
      FoundDepth(queue[0], r);
      NextDepth(queue, r);
      var next := queue[1..] + Below(queue[0], r);
      BfsLayered(next, r);
      var found, rest := Found(queue[0], r), Bfs(next, r);
      assert Deeper(rest, |queue[0].path|);
      ShallowestConcat(found, rest, |queue[0].path| + 1);
      assert Bfs(queue, r) == found + rest;
    }
  }

  // -- the same files as the structural enumeration, each once --

  lemma {:induction false} AllConcat(a: seq<Node>, b: seq<Node>, r: Rules)
    ensures All(a + b, r) == All(a, r) + All(b, r)
    decreases |a|
  {
    if a == [] {
      assert a + b == b;
    } else {
      calc {
        All(a + b, r);
      == { AllFirst(a + b, r); assert (a + b)[0] == a[0] && (a + b)[1..] == a[1..] + b; }
        Under(a[0], r) + All(a[1..] + b, r);
      == { AllConcat(a[1..], b, r); }
        Under(a[0], r) + (All(a[1..], r) + All(b, r));
      == { AllFirst(a, r); }
        All(a, r) + All(b, r);
      }
    }
  }

  // The files below one directory, at any depth.
  function Under(n: Node, r: Rules): multiset<Hit> {
    multiset(Found(n, r)) + All(Below(n, r), r)
  }

  lemma {:induction false} AllFirst(queue: seq<Node>, r: Rules)
    requires queue != []
    ensures All(queue, r) == Under(queue[0], r) + All(queue[1..], r)
  {}

  lemma {:induction false} BfsIsAll(queue: seq<Node>, r: Rules)
    ensures multiset(Bfs(queue, r)) == All(queue, r)
    decreases Load(queue)
  {
    if queue != [] {
      LoadFalls(queue, r);
      BfsIsAll(queue[1..] + Below(queue[0], r), r);
      AllConcat(queue[1..], Below(queue[0], r), r);
    }
  }

  predicate DistinctNames(es: seq<Entry>) {
    forall i, j :: 0 <= i < j < |es| ==> es[i].name != es[j].name
  }

  // Names tell the entries of every directory apart.
  predicate WellNamed(e: Entry) {
    e.Dir? ==> DistinctNames(e.entries) && forall i :: 0 <= i < |e.entries| ==> WellNamed(e.entries[i])
  }

  // The hit lies below this node.
  ghost predicate Reaches(n: Node, h: Hit, r: Rules) {
    n.path < h.path && Located(n.dir, h.path[|n.path|..], h.size, r)
  }

  ghost predicate AnyReaches(queue: seq<Node>, h: Hit, r: Rules) {
    exists n :: n in queue && Reaches(n, h, r)
  }

  // Different directories at one depth.
  predicate Siblings(queue: seq<Node>) {
    && (forall i, j :: 0 <= i < j < |queue| ==> queue[i].path != queue[j].path)
    && (forall i, j :: 0 <= i < |queue| && 0 <= j < |queue| ==> |queue[i].path| == |queue[j].path|)
    && (forall i :: 0 <= i < |queue| ==> WellNamed(queue[i].dir))
  }

  ghost predicate Matches(path: Path, e: Entry, h: Hit, r: Rules) {
    Indexable(e, r) && h == Hit(path + [e.name], e.size.value)
  }

  lemma {:induction false} HitsCount(path: Path, es: seq<Entry>, h: Hit, r: Rules)
    requires DistinctNames(es)
    ensures multiset(HitsOf(path, es, r))[h] == if exists e :: e in es && Matches(path, e, h, r) then 1 else 0
  {
    if es != [] {
      HitsCount(path, es[1..], h, r);
      if Matches(path, es[0], h, r) {
        forall e | e in es[1..] ensures !Matches(path, e, h, r) {
          assert e.name != es[0].name;
          assert (path + [e.name])[|path|] != (path + [es[0].name])[|path|];
        }
      }
      assert forall e :: e in es <==> e == es[0] || e in es[1..];
    }
  }

  lemma {:induction false} NodesAre(path: Path, es: seq<Entry>, n: Node, r: Rules)
    ensures n in NodesOf(path, es, r) <==> n.dir in es && Enterable(n.dir, r) && n.path == path + [n.dir.name]
  {
    if es != [] {
      NodesAre(path, es[1..], n, r);
      assert n.dir in es <==> n.dir == es[0] || n.dir in es[1..];
    }
  }

  lemma {:induction false} NodesAreSiblings(path: Path, es: seq<Entry>, r: Rules)
    requires DistinctNames(es) && forall i :: 0 <= i < |es| ==> WellNamed(es[i])
    ensures Siblings(NodesOf(path, es, r))
  {
    NodeDepth(path, es, r);
    if es != [] {
      NodesAreSiblings(path, es[1..], r);
      forall n | n in NodesOf(path, es[1..], r) ensures n.path != path + [es[0].name] {
        NodesAre(path, es[1..], n, r);
        assert n.path[|path|] != es[0].name;
      }
    }
  }

  // A hit below a node is one of its own files, or below one of its directories.
  lemma ReachesStep(n: Node, h: Hit, r: Rules)
    ensures Reaches(n, h, r) && |h.path| == |n.path| + 1
       <==> exists e :: e in Listing(n.dir) && Matches(n.path, e, h, r)
    ensures Reaches(n, h, r) && |h.path| > |n.path| + 1 <==> AnyReaches(Below(n, r), h, r)
  {
    var es := Listing(n.dir);
    if e :| e in es && Matches(n.path, e, h, r) {
      assert h.path[|n.path|..] == [e.name];
      assert Leads(e, h.path[|n.path|..], h.size, r);
    }
    if Reaches(n, h, r) {
      var rest := h.path[|n.path|..];
      var i :| 0 <= i < |es| && Leads(es[i], rest, h.size, r);
      if |rest| == 1 {
        assert h.path == n.path + [es[i].name];
        assert Matches(n.path, es[i], h, r);
      } else {
        var child := Node(n.path + [es[i].name], es[i]);
        NodesAre(n.path, es, child, r);
        assert h.path[|child.path|..] == rest[1..];
        assert Reaches(child, h, r);
      }
    }
    if child :| child in Below(n, r) && Reaches(child, h, r) {
      NodesAre(n.path, es, child, r);
      assert h.path[|n.path|..][1..] == h.path[|child.path|..];
      assert Leads(child.dir, h.path[|n.path|..], h.size, r);
    }
  }

  // At most one of the nodes leads to a hit.
  lemma ReachesOne(queue: seq<Node>, h: Hit, r: Rules)
    requires Siblings(queue) && queue != []
    ensures Reaches(queue[0], h, r) ==> !AnyReaches(queue[1..], h, r)
    ensures AnyReaches(queue, h, r) <==> Reaches(queue[0], h, r) || AnyReaches(queue[1..], h, r)
  {
    forall m | m in queue[1..] && Reaches(m, h, r) ensures !Reaches(queue[0], h, r) {
      assert m.path == h.path[..|m.path|];
    }
    assert forall m :: m in queue <==> m == queue[0] || m in queue[1..];
  }

  lemma {:induction false} AllCount(queue: seq<Node>, h: Hit, r: Rules)
    requires Siblings(queue)
    ensures All(queue, r)[h] == if AnyReaches(queue, h, r) then 1 else 0
    decreases Load(queue)
  {
    if queue != [] {
      var n := queue[0];
      LoadFalls(queue, r);
      NodesAreSiblings(n.path, Listing(n.dir), r);
      AllCount(Below(n, r), h, r);
      AllCount(queue[1..], h, r);
      HitsCount(n.path, Listing(n.dir), h, r);
      ReachesStep(n, h, r);
      ReachesOne(queue, h, r);
    }
  }

  // The walk finds each eligible file once and nothing else, whatever the tree.
  lemma {:induction false} BfsExact(root: Entry, h: Hit, r: Rules)
    requires WellNamed(root)
    ensures multiset(Bfs([Node([], root)], r))[h] == if Located(root, h.path, h.size, r) then 1 else 0
  {
    var queue := [Node([], root)];
    BfsIsAll(queue, r);
    AllCount(queue, h, r);
    assert h.path[0..] == h.path;
    assert queue[0] in queue;
    assert Located(root, h.path, h.size, r) <==> Reaches(queue[0], h, r);
  }

  // The entry that a path leads to: each directory on the way is readable and lists the next name.
  ghost predicate At(dir: Entry, path: Path, e: Entry)
    decreases |path|
  {
    && path != [] && dir.Dir? && dir.readable
    && if |path| == 1 then e in dir.entries && e.name == path[0]
       else exists d :: d in dir.entries && d.name == path[0] && At(d, path[1..], e)
  }

  // It is a text file, small enough, with no ignored name on its path.
  predicate Wanted(path: Path, e: Entry, r: Rules) {
    && e.File? && e.suffix in r.textual && e.size.Some? && e.size.value <= r.maxFileBytes
    && forall i :: 0 <= i < |path| ==> path[i] !in r.ignore
  }

  lemma {:induction false} LocatedAt(dir: Entry, path: Path, size: nat, r: Rules)
    requires Located(dir, path, size, r)
    ensures exists e :: At(dir, path, e) && Wanted(path, e, r) && e.size == Some(size)
    decreases |path|
  {
    var es := Listing(dir);
    var i :| 0 <= i < |es| && Leads(es[i], path, size, r);
    if |path| == 1 {
      assert At(dir, path, es[i]);
    } else {
      LocatedAt(es[i], path[1..], size, r);
      var e :| At(es[i], path[1..], e) && Wanted(path[1..], e, r) && e.size == Some(size);
      assert es[i] in dir.entries && At(dir, path, e);
      assert forall j :: 1 <= j < |path| ==> path[j] == path[1..][j - 1];
    }
  }

  lemma {:induction false} AtLocated(dir: Entry, path: Path, e: Entry, r: Rules)
    requires At(dir, path, e) && Wanted(path, e, r)
    ensures Located(dir, path, e.size.value, r)
    decreases |path|
  {
    if |path| == 1 {
      var i :| 0 <= i < |dir.entries| && dir.entries[i] == e;
      assert Leads(Listing(dir)[i], path, e.size.value, r);
    } else {
      var d :| d in dir.entries && d.name == path[0] && At(d, path[1..], e);
      assert Wanted(path[1..], e, r);
      AtLocated(d, path[1..], e, r);
      var i :| 0 <= i < |dir.entries| && dir.entries[i] == d;
      assert Leads(Listing(dir)[i], path, e.size.value, r);
    }
  }

  // So a file is found just when the tree has it, behind readable directories and without an ignored
  // name on its path, and it is a text file that is small enough.
  lemma {:induction false} BfsFinds(root: Entry, path: Path, size: nat, r: Rules)
    requires WellNamed(root)
    ensures Hit(path, size) in Bfs([Node([], root)], r) <==>
            exists e ::
              && At(root, path, e) && e.File? && e.size == Some(size)
              && e.suffix in r.textual && size <= r.maxFileBytes
              && forall i :: 0 <= i < |path| ==> path[i] !in r.ignore
  {
    var hits := Bfs([Node([], root)], r);
    BfsExact(root, Hit(path, size), r);
    assert Hit(path, size) in hits <==> Hit(path, size) in multiset(hits);
    if Located(root, path, size, r) {
      LocatedAt(root, path, size, r);
      var e :| At(root, path, e) && Wanted(path, e, r) && e.size == Some(size);
    }
    if e :| At(root, path, e) && Wanted(path, e, r) && e.size == Some(size) { AtLocated(root, path, e, r); }
  }

  // The directories of a tree that are entered, whether or not they can then be read.
  function Entered(dir: Entry, r: Rules): nat {
    1 + if dir.Dir? && dir.readable then EnteredIn(dir.entries, r) else 0
  }

  function EnteredIn(es: seq<Entry>, r: Rules): nat {
    if es == [] then 0
    else (if es[0].Dir? && es[0].name !in r.ignore then Entered(es[0], r) else 0) + EnteredIn(es[1..], r)
  }

  function EnteredFrom(queue: seq<Node>, r: Rules): nat {
    if queue == [] then 0 else Entered(queue[0].dir, r) + EnteredFrom(queue[1..], r)
  }

  lemma {:induction false} EnteredConcat(a: seq<Node>, b: seq<Node>, r: Rules)
    ensures EnteredFrom(a + b, r) == EnteredFrom(a, r) + EnteredFrom(b, r)
  {
    if a == [] {
      assert a + b == b;
    } else {
      EnteredConcat(a[1..], b, r);
      assert (a + b)[1..] == a[1..] + b;
    }
  }

  lemma {:induction false} EnteredBelow(path: Path, es: seq<Entry>, r: Rules)
    ensures EnteredFrom(NodesOf(path, es, r), r) == EnteredIn(es, r)
  {
    if es != [] { EnteredBelow(path, es[1..], r); }
  }

  // The walk counts each of them once.
  lemma {:induction false} DirCountExact(queue: seq<Node>, r: Rules)
    ensures DirCount(queue, r) == EnteredFrom(queue, r)
    decreases Load(queue)
  {
    if queue != [] {
      var n := queue[0];
      LoadFalls(queue, r);
      DirCountExact(queue[1..] + Below(n, r), r);
      EnteredConcat(queue[1..], Below(n, r), r);
      EnteredBelow(n.path, Listing(n.dir), r);
    }
  }

  // -- the budgeted walk --

  lemma {:induction false} TotalSnoc(a: seq<Hit>, b: seq<Hit>)
    ensures Total(a + b) == Total(a) + Total(b)
  {
    if b == [] {
      assert a + b == a;
    } else {
      TotalSnoc(a, b[..|b| - 1]);
      assert (a + b)[..|a + b| - 1] == a + b[..|b| - 1];
    }
  }

  // Why the walk stopped short: one more would have been over the budget.
  predicate Justified(limit: Limit, all: seq<Hit>, found: seq<Hit>, dirs: nat, dirsOfAll: nat, budget: Budget) {
    match limit
    case Directories => budget.maxDirs <= dirs < dirsOfAll
    case Seconds => dirs < dirsOfAll
    case Files => budget.maxFiles <= |found| < |all|
    case Bytes => |found| < |all| && Total(found) + all[|found|].size > budget.maxBytes
  }

  predicate WithinBudget(found: seq<Hit>, dirs: nat, budget: Budget) {
    && (found != [] ==> |found| <= budget.maxFiles && Total(found) <= budget.maxBytes)
    && (dirs > 0 ==> dirs <= budget.maxDirs)
  }

  lemma {:induction false} OneMore(found: seq<Hit>, hit: Hit, dirs: nat, budget: Budget)
    requires WithinBudget(found, dirs, budget)
    ensures |found| < budget.maxFiles && Total(found) + hit.size <= budget.maxBytes ==>
      WithinBudget(found + [hit], dirs, budget)
  {
    TotalSnoc(found, [hit]);
  }

  lemma {:induction false} ScanStep(found: seq<Hit>, queue: seq<Node>, path: Path, es: seq<Entry>, r: Rules)
    requires es != []
    ensures Enterable(es[0], r) ==>
      queue + NodesOf(path, es, r) == queue + [Node(path + [es[0].name], es[0])] + NodesOf(path, es[1..], r)
    ensures Indexable(es[0], r) ==>
      found + HitsOf(path, es, r) == found + [Hit(path + [es[0].name], es[0].size.value)] + HitsOf(path, es[1..], r)
    ensures !Enterable(es[0], r) ==> NodesOf(path, es, r) == NodesOf(path, es[1..], r)
    ensures !Indexable(es[0], r) ==> HitsOf(path, es, r) == HitsOf(path, es[1..], r)
  {}

  // The loop over one directory's entries; `all` is what the walk would find from here on in all.
  method ScanEntries(entries: seq<Entry>, path: Path, r: Rules, budget: Budget,
                     found0: seq<Hit>, queue0: seq<Node>, ghost dirs: nat, ghost all: seq<Hit>)
    returns (found: seq<Hit>, queue: seq<Node>, limit: Option<Limit>)
    requires WithinBudget(found0, dirs, budget) && found0 + HitsOf(path, entries, r) <= all
    ensures WithinBudget(found, dirs, budget) && found <= all
    ensures limit.None? ==> found == found0 + HitsOf(path, entries, r) && queue == queue0 + NodesOf(path, entries, r)
    ensures limit.Some? ==>
      (limit.value.Files? || limit.value.Bytes?) && Justified(limit.value, all, found, dirs, 0, budget)
  {
    found, queue, limit := found0, queue0, None;
    ghost var nodes := queue0 + NodesOf(path, entries, r);
    ghost var hits := found0 + HitsOf(path, entries, r);
    for i := 0 to |entries|
      invariant found + HitsOf(path, entries[i..], r) == hits
      invariant queue + NodesOf(path, entries[i..], r) == nodes
      invariant WithinBudget(found, dirs, budget) && limit.None?
    {
      var entry := entries[i];
      assert entries[i..][1..] == entries[i + 1..];
      ScanStep(found, queue, path, entries[i..], r);
      if entry.name in r.ignore { continue; }
      if entry.Dir? {
        queue := queue + [Node(path + [entry.name], entry)];
        continue;
      }
      if entry.suffix !in r.textual || entry.size.None? || entry.size.value > r.maxFileBytes { continue; }
      var hit := Hit(path + [entry.name], entry.size.value);
      assert all[|found|] == hits[|found|] == hit;
      OneMore(found, hit, dirs, budget);
      if |found| >= budget.maxFiles { return found, queue, Some(Files); }
      if Total(found) + hit.size > budget.maxBytes { return found, queue, Some(Bytes); }
      found := found + [hit];
    }
  }

  // None of the first directories was begun behind the deadline.
  predicate InTime(late: nat -> bool, dirs: nat) {
    dirs > 0 ==> !late(dirs - 1) && InTime(late, dirs - 1)
  }

  // `_iter_files` over the whole workspace; `late` tells whether the deadline is over when so many
  // directories are done.
  method IterFiles(root: Entry, r: Rules, budget: Budget, late: nat -> bool)
    returns (found: seq<Hit>, limit: Option<Limit>, dirs: nat)
    ensures var all := Bfs([Node([], root)], r);
            && found <= all
            && (limit.None? ==> found == all && dirs == DirCount([Node([], root)], r))
            && (limit.Some? ==> Justified(limit.value, all, found, dirs, DirCount([Node([], root)], r), budget))
    ensures limit == Some(Seconds) ==> late(dirs)
    ensures InTime(late, dirs)
    ensures WithinBudget(found, dirs, budget)
  {
    var queue := [Node([], root)];
    ghost var all, dirsOfAll := Bfs(queue, r), DirCount(queue, r);
    found, limit, dirs := [], None, 0;
    while queue != []
      invariant all == found + Bfs(queue, r)
      invariant dirsOfAll == dirs + DirCount(queue, r)
      invariant WithinBudget(found, dirs, budget) && limit.None?
      invariant InTime(late, dirs)
      decreases Load(queue)
    {
      if dirs >= budget.maxDirs { return found, Some(Directories), dirs; }
      if late(dirs) { return found, Some(Seconds), dirs; }
      LoadFalls(queue, r);
      var cur := queue[0];
      BfsFirst(queue, r, found);
      dirs := dirs + 1;
      found, queue, limit := ScanEntries(Listing(cur.dir), cur.path, r, budget, found, queue[1..], dirs, all);
      if limit.Some? { return; }
    }
  }

  lemma {:induction false} BfsFirst(queue: seq<Node>, r: Rules, found: seq<Hit>)
    requires queue != []
    ensures found + Bfs(queue, r) == found + Found(queue[0], r) + Bfs(queue[1..] + Below(queue[0], r), r)
  {}

  lemma {:induction false} TotalMonotone(found: seq<Hit>, all: seq<Hit>)
    requires found <= all
    ensures Total(found) <= Total(all)
    ensures |found| < |all| ==> Total(found) + all[|found|].size <= Total(all)
  {
    if |found| < |all| {
      TotalMonotone(found, all[..|all| - 1]);
    } else {
      assert found == all;
    }
  }

  // A walk that met its deadline is complete just when the budgets suffice for everything.
  lemma {:induction false} CompleteExactly(
    all: seq<Hit>, found: seq<Hit>, limit: Option<Limit>, dirs: nat, dirsOfAll: nat, budget: Budget)
    requires found <= all && WithinBudget(found, dirs, budget) && dirsOfAll > 0 && limit != Some(Seconds)
    requires limit.None? ==> found == all && dirs == dirsOfAll
    requires limit.Some? ==> Justified(limit.value, all, found, dirs, dirsOfAll, budget)
    ensures limit.None? <==>
      && (all != [] ==> |all| <= budget.maxFiles && Total(all) <= budget.maxBytes)
      && dirsOfAll <= budget.maxDirs
  {
    TotalMonotone(found, all);
  }
}

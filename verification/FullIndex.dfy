// A full index of a workspace: the budgeted walk feeds the chunk store.
module FullIndex {
  import opened Prelude
  import opened ChunkIndex
  import Walk

  const IGNORE := {
    ".git", ".venv", "venv", "node_modules", "__pycache__", ".pytest_cache", ".mypy_cache",
    "dist", "build", ".ruff_cache", ".tox", ".idea", ".vscode"
  }

  const TEXT_EXT := {
    ".py", ".ts", ".tsx", ".js", ".jsx", ".md", ".txt", ".toml", ".json", ".yaml", ".yml",
    ".cfg", ".ini", ".rs", ".go", ".java", ".c", ".h", ".hpp", ".cpp", ".sh", ".rb",
    ".php", ".sql", ".html", ".css", ".scss"
  }

  // A path below the root, as text.
  function Rel(path: Walk.Path): string {
    if path == [] then "" else if |path| == 1 then path[0] else path[0] + "/" + Rel(path[1..])
  }

  lemma {:induction false} RelConcat(a: Walk.Path, b: Walk.Path)
    requires a != [] && b != []
    ensures Rel(a + b) == Rel(a) + "/" + Rel(b)
  {
    if |a| == 1 {
      assert (a + b)[1..] == b;
    } else {
      RelConcat(a[1..], b);
      assert (a + b)[1..] == a[1..] + b;
    }
  }

  // A path's text begins with its first name, up to the end or a slash.
  lemma {:induction false} RelFirst(path: Walk.Path)
    requires path != []
    ensures Rel(path) == path[0] + if |path| == 1 then "" else "/" + Rel(path[1..])
  {}

  function FirstSlash(s: string): (n: nat)
    ensures n <= |s|
  {
    if s == "" || s[0] == '/' then 0 else 1 + FirstSlash(s[1..])
  }

  lemma {:induction false} FirstSlashIs(name: string, rest: string)
    requires '/' !in name && (rest == "" || rest[0] == '/')
    ensures FirstSlash(name + rest) == |name| && (name + rest)[..|name|] == name && (name + rest)[|name|..] == rest
  {
    if name == "" {
      assert name + rest == rest;
    } else {
      FirstSlashIs(name[1..], rest);
      assert (name + rest)[1..] == name[1..] + rest;
    }
  }

  // The names of a path joined by slashes; names that have none are told apart by it.
  lemma {:induction false} RelExact(path: Walk.Path, other: Walk.Path)
    requires path != [] && other != []
    requires forall n :: n in path || n in other ==> '/' !in n
    ensures Rel([path[0]]) == path[0] && Rel(path + other) == Rel(path) + "/" + Rel(other)
    ensures Rel(path) == Rel(other) ==> path == other
  {
    RelConcat(path, other);
    RelFirst(path);
    RelFirst(other);
    if Rel(path) == Rel(other) {
      var s := if |path| == 1 then "" else "/" + Rel(path[1..]);
      var t := if |other| == 1 then "" else "/" + Rel(other[1..]);
      FirstSlashIs(path[0], s);
      FirstSlashIs(other[0], t);
      if |path| > 1 {
        assert s[1..] == Rel(path[1..]) && t[1..] == Rel(other[1..]);
        RelExact(path[1..], other[1..]);
      }
      assert path == [path[0]] + path[1..] && other == [other[0]] + other[1..];
    }
  }

  function Rels(hits: seq<Walk.Hit>): seq<string> {
    seq(|hits|, i requires 0 <= i < |hits| => Rel(hits[i].path))
  }

  // What the walk would find without a budget.
  function Eligible(root: Walk.Entry, rules: Walk.Rules): seq<Walk.Hit> {
    Walk.Bfs([Walk.Node([], root)], rules)
  }

  // `index` without paths, under any rules.
  method IndexFound(store: ContextRepoMap, root: Walk.Entry, rules: Walk.Rules, budget: Walk.Budget,
                    late: nat -> bool, disk: string -> Disk)
    returns (limit: Option<Walk.Limit>, files: nat)
    requires store.Valid()
    modifies store
    ensures store.Valid() && files <= |Eligible(root, rules)|
    ensures limit.None? ==> files == |Eligible(root, rules)|
    ensures store.library == IndexedAll(old(store.library), Rels(Eligible(root, rules)[..files]), disk, store.config)
  {
    var found, stop, _ := Walk.IterFiles(root, rules, budget, late);
    limit, files := stop, |found|;
    assert found == Eligible(root, rules)[..files];
    var _ := store.Index(Rels(found), disk);
  }

  // `index` without paths: what the walk finds is indexed in its order. Without a limit hit that is
  // every eligible file, and otherwise as many of the first as were found.
  method IndexWorkspace(store: ContextRepoMap, root: Walk.Entry, budget: Walk.Budget,
                        late: nat -> bool, disk: string -> Disk)
    returns (limit: Option<Walk.Limit>, files: nat)
    requires store.Valid()
    modifies store
    ensures store.Valid()
    ensures var eligible := Eligible(root, Walk.Rules(IGNORE, TEXT_EXT, store.config.maxFileBytes));
            && files <= |eligible| && (limit.None? ==> files == |eligible|)
            && store.library == IndexedAll(old(store.library), Rels(eligible[..files]), disk, store.config)
  {
    var rules := Walk.Rules(IGNORE, TEXT_EXT, store.config.maxFileBytes);
    limit, files := IndexFound(store, root, rules, budget, late, disk);
  }
}

// The resolution of a brick reference.
module Loader {
  import opened Prelude
  import opened Versions

  // A manifest, with the directory it was read from.
  datatype Manifest = Manifest(name: string, version: string, directory: string)

  // A search root: its name, and the manifests below it that can be read, as they are discovered.
  datatype Root = Root(origin: string, bricks: seq<Manifest>)

  datatype Resolved = Resolved(manifest: Manifest, origin: string)

  // -- the reference --

  // The position of the last '@', |ref| when there is none.
  function LastAt(ref: string): (i: nat)
    ensures i <= |ref| && (i < |ref| ==> ref[i] == '@')
    ensures forall j :: 0 <= j < |ref| && (j > i || i == |ref|) ==> ref[j] != '@'
  {
    if ref == "" then 0
    else if ref[|ref| - 1] == '@' then |ref| - 1
    else
      var i := LastAt(ref[..|ref| - 1]);
      if i == |ref| - 1 then |ref| else i
  }

  // `_split_ref`.
  function SplitRef(ref: string): (string, Option<string>) {
    var i := LastAt(ref);
    if 0 < i < |ref| - 1 && Digit(ref[i + 1]) then (ref[..i], Some(ref[i + 1..])) else (ref, None)
  }

  // A pin is put behind a name with an '@'; it begins with a digit.
  predicate Pin(version: string) {
    version != "" && Digit(version[0]) && '@' !in version
  }

  lemma SplitRefExact(ref: string, name: string, version: string)
    ensures SplitRef(ref) == (name, Some(version)) <==> name != "" && Pin(version) && ref == name + "@" + version
    ensures SplitRef(ref).1.None? ==> SplitRef(ref).0 == ref
  {
    var i := LastAt(ref);
    if SplitRef(ref) == (name, Some(version)) {
      assert ref == ref[..i] + "@" + ref[i + 1..];
      assert forall j :: 0 <= j < |version| ==> version[j] == ref[i + 1 + j];
    }
    if name != "" && Pin(version) && ref == name + "@" + version {
      assert ref[|name|] == '@';
      assert forall j :: |name| < j < |ref| ==> ref[j] == version[j - |name| - 1];
      assert i == |name|;
      assert ref[..i] == name && ref[i + 1..] == version;
    }
  }

  // -- the roots --

  // `installed_versions` of one root: of manifests with the same version the first is taken.
  function Installed(name: string, bricks: seq<Manifest>): (found: seq<Manifest>)
    ensures forall i :: 0 <= i < |found| ==> found[i] in bricks && found[i].name == name
    ensures forall m :: m in bricks && m.name == name ==> HasVersion(found, m.version)
  {
    if bricks == [] then []
    else
      var before, last := Installed(name, bricks[..|bricks| - 1]), bricks[|bricks| - 1];
      assert bricks == bricks[..|bricks| - 1] + [last];
      if last.name != name || HasVersion(before, last.version) then before else Extend(before, last)
  }

  predicate HasVersion(found: seq<Manifest>, version: string) {
    exists i :: 0 <= i < |found| && found[i].version == version
  }

  function Extend(found: seq<Manifest>, m: Manifest): (more: seq<Manifest>)
    ensures |more| == |found| + 1 && more == found + [m]
    ensures forall v :: HasVersion(more, v) <==> HasVersion(found, v) || v == m.version
  {
    var more := found + [m];
    assert forall i :: 0 <= i < |found| ==> more[i] == found[i];
    assert more[|found|] == m;
    more
  }

  // Of the bricks with this name and version it is the first.
  ghost predicate Earliest(bricks: seq<Manifest>, m: Manifest) {
    exists i :: 0 <= i < |bricks| && bricks[i] == m
      && forall j :: 0 <= j < i ==> bricks[j].name != m.name || bricks[j].version != m.version
  }

  lemma EarliestMore(bricks: seq<Manifest>, last: Manifest, m: Manifest)
    requires Earliest(bricks, m)
    ensures Earliest(bricks + [last], m)
  {
    var i :| 0 <= i < |bricks| && bricks[i] == m
      && forall j :: 0 <= j < i ==> bricks[j].name != m.name || bricks[j].version != m.version;
    assert (bricks + [last])[i] == m;
  }

  lemma {:induction false} InstalledEarliest(name: string, bricks: seq<Manifest>, m: Manifest)
    requires m in Installed(name, bricks)
    ensures Earliest(bricks, m)
  {
    var before, last := bricks[..|bricks| - 1], bricks[|bricks| - 1];
    assert bricks == before + [last];
    if m in Installed(name, before) {
      InstalledEarliest(name, before, m);
      EarliestMore(before, last, m);
    } else {
      assert m == last && !HasVersion(Installed(name, before), m.version);
      forall j | 0 <= j < |before| ensures bricks[j].name != m.name || bricks[j].version != m.version {
        assert before[j] in before;
      }
      assert bricks[|before|] == m;
    }
  }

  predicate Holds(root: Root, name: string) {
    exists i :: 0 <= i < |root.bricks| && root.bricks[i].name == name
  }

  // The first root that holds the name.
  predicate FirstHolding(roots: seq<Root>, name: string, k: nat) {
    k <= |roots| && (k < |roots| ==> Holds(roots[k], name)) && forall j :: 0 <= j < k ==> !Holds(roots[j], name)
  }

  function FirstRoot(roots: seq<Root>, name: string): (k: nat)
    ensures FirstHolding(roots, name, k)
  {
    if roots == [] || Holds(roots[0], name) then 0 else 1 + FirstRoot(roots[1..], name)
  }

  lemma {:induction false} FirstRootIs(roots: seq<Root>, name: string, k: nat)
    requires FirstHolding(roots, name, k)
    ensures FirstRoot(roots, name) == k
  {
    if k > 0 { FirstRootIs(roots[1..], name, k - 1); }
  }

  // The root looked in is the first in which any brick has the name.
  lemma {:induction false} FirstRootExact(roots: seq<Root>, name: string, k: nat)
    requires k <= |roots|
    ensures FirstRoot(roots, name) == k <==>
            && (k < |roots| ==> exists m :: m in roots[k].bricks && m.name == name)
            && (forall j, m :: 0 <= j < k && m in roots[j].bricks ==> m.name != name)
  {
    forall root: Root ensures Holds(root, name) <==> exists m :: m in root.bricks && m.name == name {
      assert forall i :: 0 <= i < |root.bricks| ==> root.bricks[i] in root.bricks;
    }
    if FirstHolding(roots, name, k) { FirstRootIs(roots, name, k); }
  }

  // No version of the brick in this root is greater.
  ghost predicate Greatest(root: Root, m: Manifest) {
    m in root.bricks && forall o :: o in root.bricks && o.name == m.name ==> Compare(o.version, m.version) <= 0
  }

  method VersionsOf(found: seq<Manifest>) returns (versions: seq<string>)
    ensures |versions| == |found| && forall i :: 0 <= i < |found| ==> versions[i] == found[i].version
  {
    versions := seq(|found|, i requires 0 <= i < |found| => found[i].version);
  }

  // `resolve_brick_ref`. `direct` is what the reference leads to when it is taken for a path: nothing
  // without a manifest file there.
  method ResolveBrickRef(ref: string, direct: Option<Result<Manifest>>, roots: seq<Root>)
    returns (r: Result<Resolved>)
    ensures var (name, pin) := SplitRef(ref);
            var k := FirstRoot(roots, name);
            if pin.None? && direct.Some? then
              r == (match direct.value case Ok(m) => Ok(Resolved(m, "path")) case Err(e) => Err(e))
            else if k == |roots| then r.Err?
            else if pin.None? then
              r.Ok? && r.value.origin == roots[k].origin && r.value.manifest.name == name
              && Greatest(roots[k], r.value.manifest) && Earliest(roots[k].bricks, r.value.manifest)
            else
              && (r.Ok? <==> exists m :: m in roots[k].bricks && m.name == name && m.version == pin.value)
              && (r.Ok? ==> r.value.origin == roots[k].origin && Earliest(roots[k].bricks, r.value.manifest)
                            && r.value.manifest.name == name && r.value.manifest.version == pin.value)
  {
    var (name, pin) := SplitRef(ref);
    if pin.None? && direct.Some? {
      match direct.value {
        case Ok(m) => return Ok(Resolved(m, "path"));
        case Err(e) => return Err(e);
      }
    }
    var n := 0;
    while n < |roots|
      invariant n <= |roots| && forall j :: 0 <= j < n ==> !Holds(roots[j], name)
    {
      var root := roots[n];
      var found := Installed(name, root.bricks);
      if found != [] {
        assert Holds(root, name) by { assert found[0] in root.bricks; }
        FirstRootIs(roots, name, n);
        if pin.Some? {
          r := Pick(found, pin.value, root.origin);
          if r.Ok? { InstalledEarliest(name, root.bricks, r.value.manifest); }
        } else {
          r := PickGreatest(found, name, root);
        }
        return;
      }
      assert forall i :: 0 <= i < |root.bricks| ==> root.bricks[i] in root.bricks;
      assert !Holds(root, name);
      n := n + 1;
    }
    FirstRootIs(roots, name, n);
    r := Err("could not resolve brick");
  }

  // The installed brick of this version.
  method Pick(found: seq<Manifest>, version: string, origin: string) returns (r: Result<Resolved>)
    ensures r.Ok? <==> HasVersion(found, version)
    ensures r.Ok? ==> r.value.origin == origin && r.value.manifest in found && r.value.manifest.version == version
  {
    for i := 0 to |found|
      invariant forall j :: 0 <= j < i ==> found[j].version != version
    {
      if found[i].version == version { return Ok(Resolved(found[i], origin)); }
    }
    r := Err("no such version");
  }

  method PickGreatest(found: seq<Manifest>, name: string, root: Root) returns (r: Result<Resolved>)
    requires found == Installed(name, root.bricks) && found != []
    ensures r.Ok? && r.value.origin == root.origin && r.value.manifest.name == name && Greatest(root, r.value.manifest)
    ensures Earliest(root.bricks, r.value.manifest)
  {
    var versions := VersionsOf(found);
    var chosen, k := Highest(versions);
    r := Pick(found, chosen.value, root.origin);
    assert HasVersion(found, chosen.value) by { assert found[k].version == chosen.value; }
    var m := r.value.manifest;
    InstalledEarliest(name, root.bricks, m);
    forall o | o in root.bricks && o.name == name ensures Compare(o.version, m.version) <= 0 {
      var i :| 0 <= i < |found| && found[i].version == o.version;
      assert versions[i] == o.version;
    }
  }
}

// The contract table, and the checks that stand before it.
module Registry {
  import opened Prelude

  datatype Environment = NotNeeded | Installed | Missing | Stale

  // An item of the manifest's `implements` table.
  datatype Declared = Declared(contract: string, methods: seq<string>)

  datatype Handle = Handle(
    name: string, implements: seq<Declared>, reported: map<string, seq<string>>,
    environment: Environment, unrestricted: bool, process: nat)

  datatype Problem = Omitted(contract: string) | Unreported(contract: string, methods: set<string>)

  const CONTENT_CONTRACTS := {
    "inference", "model_provider", "orchestrator", "context", "memory", "planner", "conversation", "workspace"
  }

  predicate Declares(h: Handle, contract: string) {
    exists i :: 0 <= i < |h.implements| && h.implements[i].contract == contract
  }

  // The running code answers to everything this item of the manifest promises.
  predicate Kept(d: Declared, reported: map<string, seq<string>>) {
    d.contract in reported && forall name :: name in d.methods ==> name in reported[d.contract]
  }

  predicate Honest(h: Handle) {
    forall i :: 0 <= i < |h.implements| ==> Kept(h.implements[i], h.reported)
  }

  predicate Confined(h: Handle) {
    h.unrestricted ==> forall i :: 0 <= i < |h.implements| ==> h.implements[i].contract !in CONTENT_CONTRACTS
  }

  predicate Prepared(h: Handle) {
    !h.environment.Missing? && !h.environment.Stale?
  }

  predicate Admissible(h: Handle) {
    Prepared(h) && Confined(h) && Honest(h)
  }

  // Its environment is ready or not needed; with unrestricted egress it handles no conversation content;
  // and its code reports every contract and method that its manifest declares.
  lemma AdmissibleExact(h: Handle)
    ensures Admissible(h) <==>
            && (h.environment == NotNeeded || h.environment == Installed)
            && (h.unrestricted ==> forall i :: 0 <= i < |h.implements| ==> h.implements[i].contract !in {
                  "inference", "model_provider", "orchestrator", "context",
                  "memory", "planner", "conversation", "workspace"
                })
            && (forall i :: 0 <= i < |h.implements| ==>
                  h.implements[i].contract in h.reported &&
                  forall name :: name in h.implements[i].methods ==> name in h.reported[h.implements[i].contract])
  {}

  // What is wrong with one item of the manifest.
  predicate Describes(p: Problem, d: Declared, reported: map<string, seq<string>>) {
    match p
    case Omitted(c) => c == d.contract && c !in reported
    case Unreported(c, names) =>
      c == d.contract && c in reported && names != {} &&
      names == set name | name in d.methods && name !in reported[c]
  }

  function MissingFrom(d: Declared, reported: map<string, seq<string>>): set<string>
    requires d.contract in reported
  {
    set name | name in d.methods && name !in reported[d.contract]
  }

  // What the loop body appends for an item, if anything.
  function ProblemOf(d: Declared, reported: map<string, seq<string>>): (p: Option<Problem>)
    ensures p.None? <==> Kept(d, reported)
    ensures p.Some? ==> Describes(p.value, d, reported)
  {
    if d.contract !in reported then Some(Omitted(d.contract))
    else
      var missing := MissingFrom(d, reported);
      assert forall name :: name in missing <==> name in d.methods && name !in reported[d.contract];
      if missing == {} then None else Some(Unreported(d.contract, missing))
  }

  // `cross_check_capabilities`: one problem for each item that is not kept, in manifest order.
  method CrossCheck(h: Handle) returns (problems: seq<Problem>, ghost items: seq<nat>)
    ensures |items| == |problems|
    ensures forall k :: 0 <= k < |items| ==>
      items[k] < |h.implements| && Describes(problems[k], h.implements[items[k]], h.reported)
    ensures forall k, l :: 0 <= k < l < |items| ==> items[k] < items[l]
    ensures forall i :: 0 <= i < |h.implements| ==> (i in items <==> !Kept(h.implements[i], h.reported))
    ensures problems == [] <==> Honest(h)
  {
    problems, items := [], [];
    for i := 0 to |h.implements|
      invariant |items| == |problems|
      invariant forall k :: 0 <= k < |items| ==>
        items[k] < i && Describes(problems[k], h.implements[items[k]], h.reported)
      invariant forall k, l :: 0 <= k < l < |items| ==> items[k] < items[l]
      invariant forall j :: 0 <= j < i ==> (j in items <==> !Kept(h.implements[j], h.reported))
    {
      var p := ProblemOf(h.implements[i], h.reported);
      ghost var before := items;
      if p.Some? { problems, items := problems + [p.value], items + [i]; }
      assert forall j :: j in items <==> j in before || (j == i && p.Some?);
    }
    if problems != [] { assert items[0] in items; }
  }

  class PluginRegistry {
    var byContract: map<string, Handle>
    var byName: map<string, Handle>

    // No brick serves a contract that its manifest does not declare, or that fails a check.
    ghost predicate Valid()
      reads this
    {
      && (forall c :: c in byContract ==> Declares(byContract[c], c) && Admissible(byContract[c]))
      && (forall n :: n in byName ==> byName[n].name == n && Admissible(byName[n]))
      && (forall c :: c in byContract ==> byContract[c].name in byName)
    }

    constructor ()
      ensures Valid() && byContract == map[] && byName == map[]
    {
      byContract, byName := map[], map[];
    }

    method Bind(contract: string, h: Handle) returns (bound: bool)
      requires Valid()
      modifies this
      ensures Valid()
      ensures bound <==>
        && (exists i :: 0 <= i < |h.implements| && h.implements[i].contract == contract)
        && (h.environment == NotNeeded || h.environment == Installed)
        && (h.unrestricted ==>
              forall i :: 0 <= i < |h.implements| ==> h.implements[i].contract !in CONTENT_CONTRACTS)
        && (forall i :: 0 <= i < |h.implements| ==>
              h.implements[i].contract in h.reported &&
              forall name :: name in h.implements[i].methods ==> name in h.reported[h.implements[i].contract])
      ensures byContract == if bound then old(byContract)[contract := h] else old(byContract)
      ensures byName == if bound then old(byName)[h.name := h] else old(byName)
    {
      AdmissibleExact(h);
      if !Declares(h, contract) { return false; }
      if h.environment.Missing? || h.environment.Stale? { return false; }
      if !Confined(h) { return false; }
      var problems, _ := CrossCheck(h);
      if problems != [] { return false; }
      byContract := byContract[contract := h];
      byName := byName[h.name := h];
      bound := true;
    }

    function Resolve(contract: string): (h: Option<Handle>)
      requires Valid()
      reads this
      ensures h.Some? <==> contract in byContract
      ensures h.Some? ==>
        && h.value == byContract[contract] && Admissible(h.value)
        && (exists i :: 0 <= i < |h.value.implements| && h.value.implements[i].contract == contract)
    {
      if contract in byContract then Some(byContract[contract]) else None
    }

    method UnbindAll()
      modifies this
      ensures Valid() && byContract == map[] && byName == map[]
    {
      byContract, byName := map[], map[];
    }
  }
}

// Capability strings, the order `covers` puts on them, and the operator's policy.
module Capabilities {
  // `cap.split(":")`.
  function Segments(cap: string): (parts: seq<string>)
    ensures parts != []
  {
    if cap == "" then [""] else Glue(cap[0], Segments(cap[1..]))
  }

  // Put a character in front of split text.
  function Glue(c: char, parts: seq<string>): (glued: seq<string>)
    requires parts != []
    ensures glued != []
  {
    if c == ':' then [""] + parts else [[c] + parts[0]] + parts[1..]
  }

  lemma GlueConcat(c: char, a: seq<string>, b: seq<string>)
    requires a != []
    ensures Glue(c, a + b) == Glue(c, a) + b
  {}

  function Join(parts: seq<string>): string
    requires parts != []
  {
    if |parts| == 1 then parts[0] else parts[0] + ":" + Join(parts[1..])
  }

  lemma {:induction false} JoinGlue(c: char, parts: seq<string>)
    requires parts != []
    ensures Join(Glue(c, parts)) == [c] + Join(parts)
  {
    if c == ':' {
      assert ([""] + parts)[1..] == parts;
    } else if |parts| > 1 {
      assert Glue(c, parts)[1..] == parts[1..];
    }
  }

  lemma {:induction false} JoinSegments(cap: string)
    ensures Join(Segments(cap)) == cap
  {
    if cap != "" {
      JoinSegments(cap[1..]);
      JoinGlue(cap[0], Segments(cap[1..]));
    }
  }

  lemma {:induction false} SegmentsConcat(a: string, b: string)
    ensures Segments(a + ":" + b) == Segments(a) + Segments(b)
  {
    var s := a + ":" + b;
    if a == "" {
      assert s[0] == ':' && s[1..] == b;
    } else {
      SegmentsConcat(a[1..], b);
      assert s[0] == a[0] && s[1..] == a[1..] + ":" + b;
      GlueConcat(a[0], Segments(a[1..]), Segments(b));
    }
  }

  lemma {:induction false} SegmentsPlain(part: string)
    requires ':' !in part
    ensures Segments(part) == [part]
  {
    if part != "" {
      SegmentsPlain(part[1..]);
      assert [part[0]] + part[1..] == part;
    }
  }

  predicate Plain(parts: seq<string>) {
    forall i :: 0 <= i < |parts| ==> ':' !in parts[i]
  }

  lemma {:induction false} SegmentsArePlain(cap: string)
    ensures Plain(Segments(cap))
  {
    if cap != "" { SegmentsArePlain(cap[1..]); }
  }

  lemma {:induction false} SegmentsJoin(parts: seq<string>)
    requires parts != [] && Plain(parts)
    ensures Segments(Join(parts)) == parts
  {
    SegmentsPlain(parts[0]);
    if |parts| > 1 {
      SegmentsJoin(parts[1..]);
      SegmentsConcat(parts[0], Join(parts[1..]));
    }
  }

  // Does holding `grant` authorize `request`?
  predicate Covers(grant: string, request: string) {
    Fits(Segments(grant), Segments(request))
  }

  predicate Fits(g: seq<string>, r: seq<string>) {
    |g| <= |r| && forall i :: 0 <= i < |g| ==> g[i] == "*" || g[i] == r[i]
  }

  // Of capabilities written out, one covers the other just when it is no longer and each of its segments
  // is a star or the other's.
  lemma {:induction false} CoversExact(g: seq<string>, r: seq<string>)
    requires g != [] && r != [] && Plain(g) && Plain(r)
    ensures Covers(Join(g), Join(r)) <==> |g| <= |r| && forall i :: 0 <= i < |g| ==> g[i] in {"*", r[i]}
  {
    SegmentsJoin(g);
    SegmentsJoin(r);
  }

  // `covers` is a partial order.
  lemma CoversOrder(a: string, b: string, c: string)
    ensures Covers(a, a)
    ensures Covers(a, b) && Covers(b, c) ==> Covers(a, c)
    ensures Covers(a, b) && Covers(b, a) ==> a == b
  {
    if Covers(a, b) && Covers(b, a) {
      assert Segments(a) == Segments(b);
      JoinSegments(a);
      JoinSegments(b);
    }
  }

  predicate GrantedByAny(grants: set<string>, request: string) {
    exists g :: g in grants && Covers(g, request)
  }

  function ContractCapability(contract: string): string {
    "contract:" + contract
  }

  function CallCapability(contract: string, name: string): string {
    "contract:" + contract + ":" + name
  }

  // `require_contract`: a grant for the contract or for the one method will do.
  predicate MayCall(caps: set<string>, contract: string, name: string) {
    GrantedByAny(caps, CallCapability(contract, name)) || GrantedByAny(caps, ContractCapability(contract))
  }

  // Whatever covers the contract covers each of its methods.
  lemma MayCallExact(caps: set<string>, contract: string, name: string)
    ensures MayCall(caps, contract, name) <==> GrantedByAny(caps, CallCapability(contract, name))
  {
    SegmentsConcat(ContractCapability(contract), name);
    assert CallCapability(contract, name) == ContractCapability(contract) + ":" + name;
    forall g | g in caps && Covers(g, ContractCapability(contract)) ensures Covers(g, CallCapability(contract, name)) {}
  }

  // -- policy --

  datatype Policy = Policy(
    grant: set<string>, deny: set<string>,
    perBrickGrant: map<string, set<string>>, perBrickDeny: map<string, set<string>>)
  {
    function GrantedTo(brick: string): set<string> {
      grant + if brick in perBrickGrant then perBrickGrant[brick] else {}
    }

    function DeniedTo(brick: string): set<string> {
      deny + if brick in perBrickDeny then perBrickDeny[brick] else {}
    }

    // What policy lets the brick hold.
    predicate Allows(brick: string, cap: string) {
      GrantedByAny(GrantedTo(brick), cap) && !GrantedByAny(DeniedTo(brick), cap)
    }
  }

  // It is covered by one of the two grant lists and by neither of the two deny lists.
  lemma AllowsExact(policy: Policy, brick: string, cap: string)
    ensures policy.Allows(brick, cap) <==>
            && ((exists g :: g in policy.grant && Covers(g, cap)) ||
                (brick in policy.perBrickGrant && exists g :: g in policy.perBrickGrant[brick] && Covers(g, cap)))
            && (forall d :: d in policy.deny ==> !Covers(d, cap))
            && (brick in policy.perBrickDeny ==> forall d :: d in policy.perBrickDeny[brick] ==> !Covers(d, cap))
  {
    var granted, denied := policy.GrantedTo(brick), policy.DeniedTo(brick);
    assert forall g :: g in granted <==>
      g in policy.grant || (brick in policy.perBrickGrant && g in policy.perBrickGrant[brick]);
    assert forall d :: d in denied <==>
      d in policy.deny || (brick in policy.perBrickDeny && d in policy.perBrickDeny[brick]);
  }

  // `effective_capabilities`: the requested capabilities that policy allows.
  method EffectiveCapabilities(policy: Policy, brick: string, requested: seq<string>) returns (effective: set<string>)
    ensures forall c :: c in effective <==> c in requested && policy.Allows(brick, c)
    ensures forall c :: c in effective <==>
      && c in requested
      && ((exists g :: g in policy.grant && Covers(g, c)) ||
          (brick in policy.perBrickGrant && exists g :: g in policy.perBrickGrant[brick] && Covers(g, c)))
      && (forall d :: d in policy.deny ==> !Covers(d, c))
      && (brick in policy.perBrickDeny ==> forall d :: d in policy.perBrickDeny[brick] ==> !Covers(d, c))
  {
    var granted, denied := policy.GrantedTo(brick), policy.DeniedTo(brick);
    effective := {};
    for i := 0 to |requested|
      invariant forall c :: c in effective <==> c in requested[..i] && policy.Allows(brick, c)
    {
      if GrantedByAny(granted, requested[i]) && !GrantedByAny(denied, requested[i]) {
        effective := effective + {requested[i]};
      }
    }
    forall c { AllowsExact(policy, brick, c); }
  }

  // -- which grants reach around a withheld capability --

  // Some call is authorized by both.
  ghost predicate ShareCall(g: string, w: string) {
    exists contract, name :: Covers(g, CallCapability(contract, name)) && Covers(w, CallCapability(contract, name))
  }

  predicate Meet(a: seq<string>, b: seq<string>) {
    forall i :: 0 <= i < |a| && i < |b| ==> a[i] == "*" || b[i] == "*" || a[i] == b[i]
  }

  // The same, to be read off the two strings.
  predicate ShareCallSegments(g: string, w: string) {
    Meet(Segments(g), Segments(w)) && Meet(Segments(g), ["contract"]) && Meet(Segments(w), ["contract"])
  }

  function Narrow(a: seq<string>, b: seq<string>, i: nat): string {
    if i < |a| && a[i] != "*" then a[i]
    else if i < |b| && b[i] != "*" then b[i]
    else "x"
  }

  lemma CallText(contract: string, name: string)
    ensures CallCapability(contract, name) == "contract" + ":" + (contract + ":" + name)
  {}

  lemma {:induction false} RootSegments(root: string, contract: string, name: string)
    requires ':' !in root
    ensures Segments(root + ":" + (contract + ":" + name)) == [root] + Segments(contract) + Segments(name)
  {
    SegmentsConcat(root, contract + ":" + name);
    SegmentsConcat(contract, name);
    SegmentsPlain(root);
    assert [root] + (Segments(contract) + Segments(name)) == [root] + Segments(contract) + Segments(name);
  }

  lemma {:induction false} CallSegments(contract: string, name: string)
    ensures Segments(CallCapability(contract, name)) == ["contract"] + Segments(contract) + Segments(name)
  {
    CallText(contract, name);
    RootSegments("contract", contract, name);
  }

  // The call both authorize when no segment sets them apart.
  function Witness(a: seq<string>, b: seq<string>): (parts: seq<string>)
    ensures |parts| >= 3 && |parts| >= |a| && |parts| >= |b| && parts[0] == "contract"
    ensures forall i :: 1 <= i < |parts| ==> parts[i] == Narrow(a, b, i)
  {
    var n := if |a| > |b| then |a| else |b|;
    seq(if n < 3 then 3 else n, i requires 0 <= i => if i == 0 then "contract" else Narrow(a, b, i))
  }

  lemma WitnessCall(parts: seq<string>)
    requires |parts| >= 3 && Plain(parts) && parts[0] == "contract"
    ensures Segments(CallCapability(parts[1], Join(parts[2..]))) == parts
  {
    CallSegments(parts[1], Join(parts[2..]));
    SegmentsPlain(parts[1]);
    SegmentsJoin(parts[2..]);
    assert parts == ["contract"] + [parts[1]] + parts[2..];
  }

  // What both fit, and begins as a call does, shows that they meet.
  lemma FitsMeet(a: seq<string>, b: seq<string>, parts: seq<string>)
    requires Fits(a, parts) && Fits(b, parts) && parts != [] && parts[0] == "contract"
    ensures Meet(a, b) && Meet(a, ["contract"]) && Meet(b, ["contract"])
  {}

  lemma WitnessFits(a: seq<string>, b: seq<string>)
    requires Meet(a, b) && Meet(a, ["contract"]) && Meet(b, ["contract"])
    ensures Fits(a, Witness(a, b)) && Fits(b, Witness(a, b))
  {}

  lemma WitnessPlain(a: seq<string>, b: seq<string>)
    requires Plain(a) && Plain(b)
    ensures Plain(Witness(a, b))
  {}

  lemma SharedCallMeets(g: string, w: string, contract: string, name: string)
    requires Covers(g, CallCapability(contract, name)) && Covers(w, CallCapability(contract, name))
    ensures ShareCallSegments(g, w)
  {
    CallSegments(contract, name);
    FitsMeet(Segments(g), Segments(w), Segments(CallCapability(contract, name)));
  }

  lemma MeetingCallShared(g: string, w: string) returns (contract: string, name: string)
    requires ShareCallSegments(g, w)
    ensures Covers(g, CallCapability(contract, name)) && Covers(w, CallCapability(contract, name))
  {
    var a, b := Segments(g), Segments(w);
    SegmentsArePlain(g);
    SegmentsArePlain(w);
    WitnessPlain(a, b);
    WitnessFits(a, b);
    var parts := Witness(a, b);
    contract, name := parts[1], Join(parts[2..]);
    WitnessCall(parts);
  }

  lemma ShareCallDecided(g: string, w: string)
    ensures ShareCall(g, w) <==> ShareCallSegments(g, w)
  {
    if ShareCall(g, w) {
      var contract, name :| Covers(g, CallCapability(contract, name)) && Covers(w, CallCapability(contract, name));
      SharedCallMeets(g, w, contract, name);
    }
    if ShareCallSegments(g, w) {
      var contract, name := MeetingCallShared(g, w);
    }
  }
}

// Version ordering, version clauses, and the resolution of brick references.
module Versions {
  import opened Prelude

  // -- reading a version --

  predicate Digit(c: char) { '0' <= c <= '9' }

  function DigitsOf(s: string): (n: nat)
    ensures n <= |s| && (forall i :: 0 <= i < n ==> Digit(s[i])) && (n < |s| ==> !Digit(s[n]))
  {
    if s == "" || !Digit(s[0]) then 0 else 1 + DigitsOf(s[1..])
  }

  function Value(c: char): nat
    requires Digit(c)
  {
    c as int - '0' as int
  }

  function Number(digits: string): nat
    requires forall i :: 0 <= i < |digits| ==> Digit(digits[i])
  {
    if digits == "" then 0 else Number(digits[..|digits| - 1]) * 10 + Value(digits[|digits| - 1])
  }

  // The longest release segment the text begins with.
  function Components(s: string): (key: seq<int>)
    requires DigitsOf(s) > 0
    ensures key != [] && forall i :: 0 <= i < |key| ==> key[i] >= 0
  {
    var d := DigitsOf(s);
    [Number(s[..d])] + if d < |s| && s[d] == '.' && DigitsOf(s[d + 1..]) > 0 then Components(s[d + 1..]) else []
  }

  predicate Blank(s: string) {
    forall i :: 0 <= i < |s| ==> Space(s[i])
  }

  // How much white space the text begins with.
  function Leading(s: string): (n: nat)
    ensures n <= |s| && Blank(s[..n]) && (n < |s| ==> !Space(s[n]))
  {
    if s == "" || !Space(s[0]) then 0 else 1 + Leading(s[1..])
  }

  // White space after the release segment needs no stripping.
  function Bare(s: string): string {
    DropV(s[Leading(s)..])
  }

  function DropV(s: string): string {
    if s != "" && (s[0] == 'v' || s[0] == 'V') then DropV(s[1..]) else s
  }

  function VersionKey(version: string): (key: seq<int>)
    ensures key != [] && (key == [-1] || forall i :: 0 <= i < |key| ==> key[i] >= 0)
  {
    var s := Bare(version);
    if DigitsOf(s) == 0 then [-1] else Components(s)
  }

  // -- the text of a version --

  function DigitChar(d: nat): (c: char)
    requires d < 10
    ensures Digit(c) && Value(c) == d
  {
    ('0' as int + d) as char
  }

  function ShowNat(n: nat): (s: string)
    ensures s != "" && forall i :: 0 <= i < |s| ==> Digit(s[i])
  {
    (if n < 10 then "" else ShowNat(n / 10)) + [DigitChar(n % 10)]
  }

  function Show(key: seq<int>): (s: string)
    requires key != [] && Release(key)
    ensures s != "" && Digit(s[0])
  {
    ShowNat(key[0]) + if |key| == 1 then "" else "." + Show(key[1..])
  }

  // A release key has no negative component; [-1] stands for no key at all.
  predicate Release(key: seq<int>) {
    forall i :: 0 <= i < |key| ==> key[i] >= 0
  }

  // The text goes on with the release segment.
  predicate Continues(suffix: string) {
    suffix != "" && (Digit(suffix[0]) || (suffix[0] == '.' && |suffix| > 1 && Digit(suffix[1])))
  }

  lemma {:induction false} NumberShow(n: nat)
    ensures Number(ShowNat(n)) == n
  {
    var s := ShowNat(n);
    if n >= 10 {
      NumberShow(n / 10);
      assert s[..|s| - 1] == ShowNat(n / 10);
    }
  }

  lemma {:induction false} DigitsPrefix(digits: string, rest: string)
    requires forall i :: 0 <= i < |digits| ==> Digit(digits[i])
    requires rest == "" || !Digit(rest[0])
    ensures DigitsOf(digits + rest) == |digits|
  {
    if digits == "" {
      assert digits + rest == rest;
    } else {
      DigitsPrefix(digits[1..], rest);
      assert (digits + rest)[1..] == digits[1..] + rest;
    }
  }

  lemma ComponentsSplit(head: string, tail: string)
    requires head != "" && forall i :: 0 <= i < |head| ==> Digit(head[i])
    requires tail == "" || !Digit(tail[0])
    ensures DigitsOf(head + tail) == |head|
    ensures Components(head + tail) ==
            [Number(head)] +
            if tail != "" && tail[0] == '.' && DigitsOf(tail[1..]) > 0 then Components(tail[1..]) else []
  {
    DigitsPrefix(head, tail);
    var s := head + tail;
    assert s[..|head|] == head;
    assert tail != "" ==> s[|head|] == tail[0] && s[|head| + 1..] == tail[1..];
  }

  lemma {:induction false} LastComponent(n: nat, suffix: string)
    requires !Continues(suffix)
    ensures DigitsOf(ShowNat(n) + suffix) > 0 && Components(ShowNat(n) + suffix) == [n]
  {
    NumberShow(n);
    ComponentsSplit(ShowNat(n), suffix);
  }

  lemma {:induction false} NextComponent(n: nat, rest: string)
    requires DigitsOf(rest) > 0
    ensures DigitsOf(ShowNat(n) + ("." + rest)) > 0
    ensures Components(ShowNat(n) + ("." + rest)) == [n] + Components(rest)
  {
    NumberShow(n);
    ComponentsSplit(ShowNat(n), "." + rest);
    assert ("." + rest)[1..] == rest;
  }

  lemma {:induction false} ShowMore(key: seq<int>, suffix: string)
    requires |key| > 1 && Release(key)
    ensures Show(key) + suffix == ShowNat(key[0]) + ("." + (Show(key[1..]) + suffix))
  {}

  lemma {:induction false} ComponentsShow(key: seq<int>, suffix: string)
    requires key != [] && Release(key) && !Continues(suffix)
    ensures DigitsOf(Show(key) + suffix) > 0 && Components(Show(key) + suffix) == key
  {
    if |key| == 1 {
      LastComponent(key[0], suffix);
      assert Show(key) == ShowNat(key[0]);
      assert key == [key[0]];
    } else {
      var rest := Show(key[1..]) + suffix;
      ComponentsShow(key[1..], suffix);
      NextComponent(key[0], rest);
      ShowMore(key, suffix);
      assert Show(key) + suffix == ShowNat(key[0]) + ("." + rest);
      assert key == [key[0]] + key[1..];
    }
  }

  // Nothing but `v`, small or capital.
  predicate Vs(s: string) {
    forall i :: 0 <= i < |s| ==> s[i] == 'v' || s[i] == 'V'
  }

  lemma {:induction false} DropVs(vs: string, s: string)
    requires Vs(vs) && (s == "" || (s[0] != 'v' && s[0] != 'V'))
    ensures DropV(vs + s) == s
  {
    if vs == "" {
      assert vs + s == s;
    } else {
      DropVs(vs[1..], s);
      assert (vs + s)[1..] == vs[1..] + s;
    }
  }

  lemma {:induction false} BareIs(lead: string, vs: string, s: string)
    requires Blank(lead) && Vs(vs) && (s == "" || (s[0] != 'v' && s[0] != 'V'))
    requires vs + s == "" || !Space((vs + s)[0])
    ensures Bare(lead + (vs + s)) == s
  {
    LeadingIs(lead, vs + s);
    DropVs(vs, s);
  }

  // Whatever follows the release segment does not count, nor do white space and a `v` before it.
  lemma {:induction false} VersionKeyShow(key: seq<int>, lead: string, vs: string, suffix: string)
    requires key != [] && Release(key) && !Continues(suffix) && Blank(lead) && Vs(vs)
    ensures VersionKey(lead + (vs + (Show(key) + suffix))) == key
  {
    var s := Show(key) + suffix;
    ComponentsShow(key, suffix);
    assert s[0] == Show(key)[0];
    assert (vs + s)[0] == if vs == "" then s[0] else vs[0];
    BareIs(lead, vs, s);
  }

  // Without a digit there a text sorts lowest.
  lemma {:induction false} NoVersion(lead: string, vs: string, rest: string)
    requires Blank(lead) && Vs(vs)
    requires rest == "" || (!Digit(rest[0]) && rest[0] != 'v' && rest[0] != 'V' && (vs == "" ==> !Space(rest[0])))
    ensures VersionKey(lead + (vs + rest)) == [-1]
  {
    assert vs + rest != "" ==> (vs + rest)[0] == if vs == "" then rest[0] else vs[0];
    BareIs(lead, vs, rest);
  }

  lemma {:induction false} LeadingIs(l: string, s: string)
    requires Blank(l) && (s == "" || !Space(s[0]))
    ensures Leading(l + s) == |l| && (l + s)[|l|..] == s
  {
    var n, t := Leading(l + s), l + s;
    assert forall i :: 0 <= i < |l| ==> t[i] == l[i];
    assert forall i :: 0 <= i < n ==> t[..n][i] == t[i];
    assert s != "" ==> t[|l|] == s[0];
  }

  // -- comparing --

  // A component, zero beyond the end.
  function At(key: seq<int>, i: nat): int {
    if i < |key| then key[i] else 0
  }

  function Padded(key: seq<int>, width: nat): seq<int> {
    if |key| >= width then key else key + seq(width - |key|, _ => 0)
  }

  // Tuple comparison.
  function Lex(a: seq<int>, b: seq<int>): int {
    if a == [] then (if b == [] then 0 else -1)
    else if b == [] then 1
    else if a[0] != b[0] then (if a[0] < b[0] then -1 else 1)
    else Lex(a[1..], b[1..])
  }

  function CompareKeys(a: seq<int>, b: seq<int>): int {
    var width := if |a| < |b| then |b| else |a|;
    Lex(Padded(a, width), Padded(b, width))
  }

  // `_cmp`.
  function Compare(a: string, b: string): int {
    CompareKeys(VersionKey(a), VersionKey(b))
  }

  // They agree before `i`.
  predicate Agree(a: seq<int>, b: seq<int>, i: nat) {
    forall j: nat :: j < i ==> At(a, j) == At(b, j)
  }

  // The first difference, and which way it goes.
  ghost predicate Before(a: seq<int>, b: seq<int>) {
    exists i: nat :: Agree(a, b, i) && At(a, i) < At(b, i)
  }

  lemma {:induction false} LexExact(a: seq<int>, b: seq<int>) returns (i: nat)
    requires |a| == |b|
    ensures i <= |a| && (forall j :: 0 <= j < i ==> a[j] == b[j])
    ensures Lex(a, b) == if i == |a| then 0 else if a[i] < b[i] then -1 else 1
    ensures i < |a| ==> a[i] != b[i]
  {
    if a == [] || a[0] != b[0] {
      i := 0;
    } else {
      i := LexExact(a[1..], b[1..]);
      i := i + 1;
    }
  }

  lemma PaddedAt(key: seq<int>, width: nat, i: nat)
    requires |key| <= width && i < width
    ensures |Padded(key, width)| == width && Padded(key, width)[i] == At(key, i)
  {}

  // The comparison is by the first component that differs, missing ones counting as zero.
  lemma CompareExact(a: seq<int>, b: seq<int>)
    ensures CompareKeys(a, b) < 0 <==> Before(a, b)
    ensures CompareKeys(a, b) > 0 <==> Before(b, a)
    ensures CompareKeys(a, b) == 0 <==> forall i: nat :: At(a, i) == At(b, i)
  {
    var width := if |a| < |b| then |b| else |a|;
    var p, q := Padded(a, width), Padded(b, width);
    forall i: nat | i < width ensures |p| == |q| == width && p[i] == At(a, i) && q[i] == At(b, i) {
      PaddedAt(a, width, i);
      PaddedAt(b, width, i);
    }
    var i := LexExact(p, q);
    assert Agree(a, b, i) && Agree(b, a, i);
    if i < width {
      FirstDifference(a, b, i);
    } else {
      forall j: nat ensures At(a, j) == At(b, j) {}
    }
  }

  lemma FirstDifference(a: seq<int>, b: seq<int>, i: nat)
    requires Agree(a, b, i) && Agree(b, a, i) && At(a, i) != At(b, i)
    ensures Before(a, b) <==> At(a, i) < At(b, i)
    ensures Before(b, a) <==> At(b, i) < At(a, i)
  {
    if j: nat :| Agree(a, b, j) && At(a, j) < At(b, j) { assert j == i; }
    if j: nat :| Agree(b, a, j) && At(b, j) < At(a, j) { assert j == i; }
  }

  // A total preorder.
  lemma ComparePreorder(a: string, b: string, c: string)
    ensures Compare(a, a) == 0
    ensures Compare(a, b) <= 0 || Compare(b, a) <= 0
    ensures Compare(a, b) <= 0 <==> Compare(b, a) >= 0
    ensures Compare(a, b) <= 0 && Compare(b, c) <= 0 ==> Compare(a, c) <= 0
  {
    var x, y, z := VersionKey(a), VersionKey(b), VersionKey(c);
    CompareExact(x, x);
    CompareExact(x, y);
    CompareExact(y, x);
    CompareExact(y, z);
    CompareExact(x, z);
    if Before(z, x) && !Before(y, x) && !Before(z, y) { BeforeSplits(z, x, y); }
  }

  // What lies between two keys is before the one or behind the other.
  lemma BeforeSplits(z: seq<int>, x: seq<int>, y: seq<int>)
    requires Before(z, x)
    ensures Before(z, y) || Before(y, x)
  {
    var i: nat :| Agree(z, x, i) && At(z, i) < At(x, i);
    var k := LeastDifference(z, y, i);
    if k < i {
      if At(z, k) < At(y, k) {
        assert Agree(z, y, k);
      } else {
        assert Agree(y, x, k) && At(y, k) < At(x, k);
      }
    } else if At(y, i) < At(x, i) {
      assert Agree(y, x, i);
    } else {
      assert Agree(z, y, i);
    }
  }

  lemma LeastDifference(a: seq<int>, b: seq<int>, n: nat) returns (k: nat)
    ensures k <= n && Agree(a, b, k) && (k < n ==> At(a, k) != At(b, k))
  {
    k := 0;
    while k < n && At(a, k) == At(b, k)
      invariant k <= n && Agree(a, b, k)
    {
      k := k + 1;
    }
  }

  lemma Overtaken(a: string, best: string, v: string)
    requires Compare(a, best) <= 0 && Compare(v, best) > 0
    ensures Compare(a, v) < 0
  {
    ComparePreorder(v, a, best);
    ComparePreorder(best, v, v);
    ComparePreorder(a, v, v);
  }

  // In the order `cmp`, the k-th of the first n is the first of the greatest.
  ghost predicate Top(cmp: (string, string) -> int, versions: seq<string>, n: nat, k: nat) {
    && k < n <= |versions|
    && (forall j :: 0 <= j < n ==> cmp(versions[j], versions[k]) <= 0)
    && (forall j :: 0 <= j < k ==> cmp(versions[j], versions[k]) < 0)
  }

  lemma TopStays(cmp: (string, string) -> int, versions: seq<string>, n: nat, k: nat)
    requires n < |versions| && Top(cmp, versions, n, k) && cmp(versions[n], versions[k]) <= 0
    ensures Top(cmp, versions, n + 1, k)
  {}

  lemma TopMoves(cmp: (string, string) -> int, versions: seq<string>, n: nat, k: nat)
    requires n < |versions| && Top(cmp, versions, n, k) && cmp(versions[n], versions[k]) > 0
    requires forall a: string, b: string, c: string :: cmp(a, b) <= 0 && cmp(c, b) > 0 ==> cmp(a, c) < 0
    requires forall a: string :: cmp(a, a) <= 0
    ensures Top(cmp, versions, n + 1, n)
  {}

  lemma CompareOrders()
    ensures forall a: string, b: string, c: string :: Compare(a, b) <= 0 && Compare(c, b) > 0 ==> Compare(a, c) < 0
    ensures forall a: string :: Compare(a, a) <= 0
  {
    forall a: string, b: string, c: string | Compare(a, b) <= 0 && Compare(c, b) > 0 ensures Compare(a, c) < 0 {
      Overtaken(a, b, c);
    }
    forall a: string ensures Compare(a, a) <= 0 { ComparePreorder(a, a, a); }
  }

  // The first of the greatest versions.
  method Highest(versions: seq<string>) returns (r: Result<string>, ghost k: nat)
    ensures r.Err? <==> versions == []
    ensures r.Ok? ==> Top(Compare, versions, |versions|, k) && r.value == versions[k]
  {
    k := 0;
    if versions == [] { return Err("no versions to choose from"), k; }
    var best := versions[0];
    CompareOrders();
    for i := 1 to |versions|
      invariant Top(Compare, versions, i, k) && best == versions[k]
    {
      if Compare(versions[i], best) > 0 {
        TopMoves(Compare, versions, i, k);
        best := versions[i];
        k := i;
      } else {
        TopStays(Compare, versions, i, k);
      }
    }
    r := Ok(best);
  }

  // -- clauses --

  datatype Op = AtLeast | AtMost | Above | Under | Same | Other | Compatible

  datatype Clause = Clause(op: Op, target: string)

  // Yes or no, or one of the errors a specification can have.
  datatype Answer = Answer(holds: bool) | ShortTarget | Unparsed

  // `_satisfies_clause`.
  function SatisfiesClause(current: string, clause: Clause): (answer: Answer)
    ensures !answer.Unparsed?
  {
    var c := Compare(current, clause.target);
    match clause.op
    case AtLeast => Answer(c >= 0)
    case AtMost => Answer(c <= 0)
    case Above => Answer(c > 0)
    case Under => Answer(c < 0)
    case Same => Answer(c == 0)
    case Other => Answer(c != 0)
    case Compatible =>
      if c < 0 then Answer(false)
      else
        var tk := VersionKey(clause.target);
        if |tk| < 2 then ShortTarget
        else
          var ck := Padded(VersionKey(current), |tk|);
          Answer(ck[..|tk| - 1] == tk[..|tk| - 1])
  }

  // What the other operators ask, by the first component that differs, if any.
  lemma ClauseExact(current: string, target: string)
    ensures var a, b := VersionKey(current), VersionKey(target);
            && SatisfiesClause(current, Clause(Under, target)) == Answer(Before(a, b))
            && SatisfiesClause(current, Clause(Above, target)) == Answer(Before(b, a))
            && SatisfiesClause(current, Clause(AtLeast, target)) == Answer(!Before(a, b))
            && SatisfiesClause(current, Clause(AtMost, target)) == Answer(!Before(b, a))
            && SatisfiesClause(current, Clause(Same, target)) == Answer(forall i: nat :: At(a, i) == At(b, i))
            && SatisfiesClause(current, Clause(Other, target)) == Answer(exists i: nat :: At(a, i) != At(b, i))
  {
    CompareExact(VersionKey(current), VersionKey(target));
  }

  // The prefix without the last component, its own last component one up.
  function Bumped(key: seq<int>): seq<int>
    requires |key| >= 2
  {
    key[..|key| - 2] + [key[|key| - 2] + 1]
  }

  lemma PrefixAgrees(ck: seq<int>, tk: seq<int>)
    requires |tk| >= 2
    ensures Padded(ck, |tk|)[..|tk| - 1] == tk[..|tk| - 1] <==> Agree(ck, tk, |tk| - 1)
  {
    var p, n := Padded(ck, |tk|), |tk| - 1;
    assert forall i :: 0 <= i < n ==> p[i] == At(ck, i) && tk[i] == At(tk, i);
    assert p[..n] == tk[..n] <==> forall i :: 0 <= i < n ==> p[i] == tk[i];
  }

  // A key that is not behind its target agrees with all but the target's last component just when it
  // is before the bumped prefix.
  lemma BelowBump(ck: seq<int>, tk: seq<int>)
    requires |tk| >= 2 && !Before(ck, tk) && Release(ck) && Release(tk)
    ensures Agree(ck, tk, |tk| - 1) <==> Before(ck, Bumped(tk))
  {
    var n, bump := |tk| - 1, Bumped(tk);
    assert forall i: nat :: i < n - 1 ==> At(bump, i) == At(tk, i);
    assert At(bump, n - 1) == At(tk, n - 1) + 1;
    if Agree(ck, tk, n) {
      assert Agree(ck, bump, n - 1) && At(ck, n - 1) < At(bump, n - 1);
    }
    var k := LeastDifference(ck, tk, n);
    if k < n {
      assert At(tk, k) <= At(ck, k);
      NotBelow(ck, tk, k);
    }
  }

  lemma NotBelow(ck: seq<int>, tk: seq<int>, k: nat)
    requires |tk| >= 2 && k < |tk| - 1 && Agree(ck, tk, k) && At(ck, k) > At(tk, k) && Release(ck)
    ensures !Before(ck, Bumped(tk)) && !Agree(ck, tk, |tk| - 1)
  {
    var bump := Bumped(tk);
    assert forall i: nat :: i < |tk| - 2 ==> At(bump, i) == At(tk, i);
    assert At(ck, k) >= At(bump, k);
    forall i: nat | Agree(ck, bump, i) ensures At(ck, i) >= At(bump, i) {
      if i >= |bump| { assert At(ck, i) >= 0; }
    }
  }

  lemma CompatibleKeys(ck: seq<int>, tk: seq<int>)
    requires |tk| >= 2 && Release(tk) && (ck == [-1] || Release(ck)) && CompareKeys(ck, tk) >= 0
    ensures Padded(ck, |tk|)[..|tk| - 1] == tk[..|tk| - 1] <==> CompareKeys(ck, Bumped(tk)) < 0
  {
    CompareExact(ck, tk);
    CompareExact(ck, Bumped(tk));
    PrefixAgrees(ck, tk);
    assert ck == [-1] ==> Agree(ck, tk, 0) && At(ck, 0) < At(tk, 0);
    BelowBump(ck, tk);
  }

  // "Compatible release": at least the target, and before the bumped prefix. A target of one
  // component is refused, unless the version is below it anyway.
  lemma CompatibleRelease(current: string, target: string)
    ensures var tk := VersionKey(target);
            var r := SatisfiesClause(current, Clause(Compatible, target));
            && (r.ShortTarget? <==> |tk| < 2 && Compare(current, target) >= 0)
            && (|tk| >= 2 ==>
                  r == Answer(Compare(current, target) >= 0 && CompareKeys(VersionKey(current), Bumped(tk)) < 0))
  {
    var ck, tk := VersionKey(current), VersionKey(target);
    if |tk| >= 2 && CompareKeys(ck, tk) >= 0 { CompatibleKeys(ck, tk); }
  }

  function Answers(current: string, clauses: seq<Clause>): (answers: seq<Answer>)
    ensures |answers| == |clauses| && Unparsed !in answers
  {
    seq(|clauses|, i requires 0 <= i < |clauses| => SatisfiesClause(current, clauses[i]))
  }

  // `all(...)`, over answers that are taken as far as they have to be looked at.
  function All(answers: seq<Answer>): Answer {
    if answers == [] then Answer(true)
    else if answers[0] == Answer(true) then All(answers[1..])
    else answers[0]
  }

  lemma {:induction false} FirstDecides(answers: seq<Answer>, k: nat)
    requires k <= |answers|
    requires forall j :: 0 <= j < k ==> answers[j] == Answer(true)
    requires k < |answers| ==> answers[k] != Answer(true)
    ensures All(answers) == if k == |answers| then Answer(true) else answers[k]
  {
    if k > 0 { FirstDecides(answers[1..], k - 1); }
  }

  lemma {:induction false} AllDecided(answers: seq<Answer>) returns (k: nat)
    ensures k <= |answers| && (forall j :: 0 <= j < k ==> answers[j] == Answer(true))
    ensures k < |answers| ==> answers[k] != Answer(true)
    ensures All(answers) == if k == |answers| then Answer(true) else answers[k]
  {
    k := 0;
    while k < |answers| && answers[k] == Answer(true)
      invariant k <= |answers| && forall j :: 0 <= j < k ==> answers[j] == Answer(true)
    {
      k := k + 1;
    }
    FirstDecides(answers, k);
  }

  // The answer is that of the first clause that does not hold: "no", or its error.
  lemma {:induction false} SatisfiesExact(current: string, clauses: seq<Clause>, k: nat)
    requires k <= |clauses|
    requires forall j :: 0 <= j < k ==> SatisfiesClause(current, clauses[j]) == Answer(true)
    requires k < |clauses| ==> SatisfiesClause(current, clauses[k]) != Answer(true)
    ensures All(Answers(current, clauses)) ==
            if k == |clauses| then Answer(true) else SatisfiesClause(current, clauses[k])
  {
    FirstDecides(Answers(current, clauses), k);
  }

  // -- specifications --

  function Sign(op: Op): string {
    match op
    case AtLeast => ">="
    case AtMost => "<="
    case Above => ">"
    case Under => "<"
    case Same => "=="
    case Other => "!="
    case Compatible => "~="
  }

  predicate TargetChar(c: char) { Digit(c) || c == '.' }

  // What the clause grammar takes for a version.
  predicate Target(s: string) {
    s != "" && Digit(s[0]) && forall i :: 0 <= i < |s| ==> TargetChar(s[i])
  }

  // A digit, and then digits and dots.
  lemma TargetExact(s: string)
    ensures Target(s) <==>
            s != "" && s[0] in "0123456789" && forall i :: 0 <= i < |s| ==> s[i] in "0123456789."
  {
    forall c: char
      ensures Digit(c) <==> c in "0123456789"
      ensures TargetChar(c) <==> c in "0123456789."
    {
      OneOfTen(c);
    }
  }

  lemma OneOfTen(c: char)
    ensures Digit(c) <==> c in "0123456789"
    ensures TargetChar(c) <==> c in "0123456789."
  {
    var ten := "0123456789";
    assert "0123456789." == ten + ".";
    assert ten[0] == '0' && ten[1] == '1' && ten[2] == '2' && ten[3] == '3' && ten[4] == '4';
    assert ten[5] == '5' && ten[6] == '6' && ten[7] == '7' && ten[8] == '8' && ten[9] == '9';
    if Digit(c) { assert ten[c as int - '0' as int] == c; }
  }

  // The text is the clause, with white space around its two parts.
  ghost predicate Written(text: string, c: Clause) {
    exists l, m, r | Blank(l) && Blank(m) && Blank(r) ::
      Target(c.target) && text == l + (Sign(c.op) + (m + (c.target + r)))
  }

  // The operator the text begins with, and what follows it.
  function SplitOp(s: string): Option<(Op, string)> {
    if |s| >= 2 && s[1] == '=' then
      match s[0]
      case '>' => Some((AtLeast, s[2..]))
      case '<' => Some((AtMost, s[2..]))
      case '=' => Some((Same, s[2..]))
      case '!' => Some((Other, s[2..]))
      case '~' => Some((Compatible, s[2..]))
      case _ => None
    else if s != "" && s[0] == '>' then Some((Above, s[1..]))
    else if s != "" && s[0] == '<' then Some((Under, s[1..]))
    else None
  }

  function TargetLength(s: string): (n: nat)
    ensures n <= |s| && (forall i :: 0 <= i < n ==> TargetChar(s[i])) && (n < |s| ==> !TargetChar(s[n]))
  {
    if s == "" || !TargetChar(s[0]) then 0 else 1 + TargetLength(s[1..])
  }

  // A full match of the clause pattern.
  function ParseClause(text: string): Option<Clause> {
    match SplitOp(text[Leading(text)..])
    case None => None
    case Some((op, rest)) =>
      var t := rest[Leading(rest)..];
      var n := TargetLength(t);
      if Target(t[..n]) && Blank(t[n..]) then Some(Clause(op, t[..n])) else None
  }

  lemma {:induction false} TargetLengthIs(target: string, r: string)
    requires Target(target) && Blank(r)
    ensures TargetLength(target + r) == |target|
    ensures (target + r)[..|target|] == target && (target + r)[|target|..] == r
  {
    var t := target + r;
    assert forall i :: 0 <= i < |target| ==> t[i] == target[i];
    assert r != "" ==> t[|target|] == r[0];
  }

  lemma SplitOpIs(op: Op, s: string)
    requires s != "" && (Digit(s[0]) || Space(s[0]))
    ensures SplitOp(Sign(op) + s) == Some((op, s))
  {
    var t := Sign(op) + s;
    assert t[|Sign(op)|..] == s && t[|Sign(op)|] == s[0];
    assert forall i :: 0 <= i < |Sign(op)| ==> t[i] == Sign(op)[i];
  }

  lemma SplitOpText(s: string)
    ensures SplitOp(s).Some? ==> s == Sign(SplitOp(s).value.0) + SplitOp(s).value.1
  {
    if |s| >= 2 { assert s == [s[0], s[1]] + s[2..]; }
    if s != "" { assert s == [s[0]] + s[1..]; }
  }

  lemma ParseWritten(c: Clause, l: string, m: string, r: string)
    requires Blank(l) && Blank(m) && Blank(r) && Target(c.target)
    ensures ParseClause(l + (Sign(c.op) + (m + (c.target + r)))) == Some(c)
  {
    var t := c.target + r;
    LeadingIs(l, Sign(c.op) + (m + t));
    assert (m + t)[0] == if m == "" then c.target[0] else m[0];
    SplitOpIs(c.op, m + t);
    LeadingIs(m, t);
    TargetLengthIs(c.target, r);
  }

  lemma Cut(s: string, n: nat) returns (head: string, tail: string)
    requires n <= |s|
    ensures head == s[..n] && tail == s[n..] && s == head + tail
  {
    head, tail := s[..n], s[n..];
  }

  lemma ParsedWritten(text: string)
    requires ParseClause(text).Some?
    ensures Written(text, ParseClause(text).value)
  {
    var l, s := Cut(text, Leading(text));
    SplitOpText(s);
    var op, rest := SplitOp(s).value.0, SplitOp(s).value.1;
    var m, t := Cut(rest, Leading(rest));
    var target, r := Cut(t, TargetLength(t));
    assert ParseClause(text) == Some(Clause(op, target));
    assert text == l + (Sign(op) + (m + (target + r)));
    assert Blank(l) && Blank(m) && Blank(r);
  }

  // The parser accepts just the written clauses, and reads each as what was written.
  lemma ParseExact(text: string, c: Clause)
    ensures ParseClause(text) == Some(c) <==> Written(text, c)
  {
    if ParseClause(text) == Some(c) { ParsedWritten(text); }
    if Written(text, c) {
      var l, m, r :| Blank(l) && Blank(m) && Blank(r) && Target(c.target) &&
                     text == l + (Sign(c.op) + (m + (c.target + r)));
      ParseWritten(c, l, m, r);
    }
  }

  // What one more character in front makes of the pieces.
  function Put(c: char, pieces: seq<string>): (put: seq<string>)
    requires pieces != []
    ensures put != []
  {
    if c == ',' then [""] + pieces else [[c] + pieces[0]] + pieces[1..]
  }

  // `s.split(",")`.
  function Pieces(s: string): (pieces: seq<string>)
    ensures pieces != []
  {
    if s == "" then [""] else Put(s[0], Pieces(s[1..]))
  }

  lemma PutConcat(c: char, a: seq<string>, b: seq<string>)
    requires a != []
    ensures Put(c, a + b) == Put(c, a) + b
  {}

  lemma {:induction false} PiecesPlain(s: string)
    requires ',' !in s
    ensures Pieces(s) == [s]
  {
    if s != "" {
      PiecesPlain(s[1..]);
      assert s == [s[0]] + s[1..];
      assert Pieces(s) == Put(s[0], [s[1..]]);
    }
  }

  // Each comma ends a piece, and nothing else does.
  lemma {:induction false} PiecesExact(a: string, b: string)
    ensures Pieces(a + "," + b) == Pieces(a) + Pieces(b)
    ensures ',' !in a ==> Pieces(a) == [a]
  {
    if ',' !in a { PiecesPlain(a); }
    PiecesConcat(a, b);
  }

  lemma {:induction false} PiecesConcat(a: string, b: string)
    ensures Pieces(a + "," + b) == Pieces(a) + Pieces(b)
  {
    var s := a + "," + b;
    if a == "" {
      assert s[0] == ',' && s[1..] == b;
    } else {
      PiecesConcat(a[1..], b);
      assert s[0] == a[0] && s[1..] == a[1..] + "," + b;
      PutConcat(a[0], Pieces(a[1..]), Pieces(b));
      assert Pieces(a) == Put(a[0], Pieces(a[1..]));
      assert Pieces(s) == Put(s[0], Pieces(s[1..]));
    }
  }

  function Filled(pieces: seq<string>): (texts: seq<string>)
    ensures forall t :: t in texts <==> t in pieces && !Blank(t)
  {
    if pieces == [] then []
    else (if Blank(pieces[0]) then [] else [pieces[0]]) + Filled(pieces[1..])
  }

  function Read(texts: seq<string>): (read: seq<Option<Clause>>)
    ensures |read| == |texts| && forall i :: 0 <= i < |texts| ==> read[i] == ParseClause(texts[i])
  {
    seq(|texts|, i requires 0 <= i < |texts| => ParseClause(texts[i]))
  }

  // All of them, or nothing when one is missing.
  function Gather(read: seq<Option<Clause>>): (r: Option<seq<Clause>>)
    ensures r.None? <==> None in read
    ensures r.Some? ==> |r.value| == |read| && forall i :: 0 <= i < |read| ==> read[i] == Some(r.value[i])
  {
    if read == [] then Some([])
    else
      var init, last := read[..|read| - 1], read[|read| - 1];
      assert read == init + [last];
      match (Gather(init), last)
      case (Some(clauses), Some(c)) => Some(clauses + [c])
      case _ => None
  }

  function Satisfied(current: string, spec: string): Answer {
    match Gather(Read(Filled(Pieces(Strip(spec, Space)))))
    case None => Unparsed
    case Some(clauses) => All(Answers(current, clauses))
  }

  ghost predicate Clausal(text: string) {
    exists c :: Written(text, c)
  }

  // What is written there is a clause the version satisfies.
  ghost predicate Met(current: string, text: string) {
    exists c :: Written(text, c) && SatisfiesClause(current, c) == Answer(true)
  }

  lemma ParseDecides(current: string, text: string)
    ensures Clausal(text) <==> ParseClause(text).Some?
    ensures Met(current, text) <==>
            ParseClause(text).Some? && SatisfiesClause(current, ParseClause(text).value) == Answer(true)
  {
    if ParseClause(text).Some? { ParseExact(text, ParseClause(text).value); }
    forall c | Written(text, c) ensures ParseClause(text) == Some(c) { ParseExact(text, c); }
  }

  // The parsed clauses have the answers of their texts.
  lemma MetAnswers(current: string, texts: seq<string>, clauses: seq<Clause>)
    requires Gather(Read(texts)) == Some(clauses)
    ensures forall i :: 0 <= i < |texts| ==>
      Clausal(texts[i]) && (Met(current, texts[i]) <==> Answers(current, clauses)[i] == Answer(true))
  {
    forall i | 0 <= i < |texts|
      ensures Clausal(texts[i]) && (Met(current, texts[i]) <==> Answers(current, clauses)[i] == Answer(true))
    {
      assert Read(texts)[i] == Some(clauses[i]);
      ParseDecides(current, texts[i]);
    }
  }

  lemma {:induction false} AllMet(pieces: seq<string>, answers: seq<Answer>, met: string -> bool)
    requires |answers| == |Filled(pieces)|
    requires forall i :: 0 <= i < |answers| ==> (met(Filled(pieces)[i]) <==> answers[i] == Answer(true))
    ensures All(answers) == Answer(true) <==> forall t :: t in pieces ==> Blank(t) || met(t)
    ensures Unparsed !in answers ==> All(answers) != Unparsed
  {
    var texts := Filled(pieces);
    var k := AllDecided(answers);
    if k < |texts| {
      assert texts[k] in pieces && !Blank(texts[k]) && !met(texts[k]);
    } else {
      forall t | t in pieces && !Blank(t) ensures met(t) {
        var i :| 0 <= i < |texts| && texts[i] == t;
      }
    }
  }

  lemma {:induction false} SpecRead(current: string, pieces: seq<string>, clauses: seq<Clause>)
    requires Gather(Read(Filled(pieces))) == Some(clauses)
    ensures All(Answers(current, clauses)) == Answer(true) <==>
            forall t :: t in pieces ==> Blank(t) || Met(current, t)
    ensures All(Answers(current, clauses)) != Unparsed
    ensures forall t :: t in pieces ==> Blank(t) || Clausal(t)
  {
    MetAnswers(current, Filled(pieces), clauses);
    AllMet(pieces, Answers(current, clauses), t => Met(current, t));
    forall t | t in pieces && !Blank(t) ensures Clausal(t) {
      assert t in Filled(pieces);
    }
  }

  lemma SpecUnread(current: string, pieces: seq<string>) returns (t: string)
    requires Gather(Read(Filled(pieces))) == None
    ensures t in pieces && !Blank(t) && !Clausal(t) && !Met(current, t)
  {
    var texts := Filled(pieces);
    var i :| 0 <= i < |texts| && Read(texts)[i] == None;
    t := texts[i];
    ParseDecides(current, t);
  }

  // A version is accepted just when each piece between commas is blank or a clause it satisfies; a
  // piece that is neither blank nor a clause is reported, whatever the other clauses say.
  lemma {:induction false} SpecExact(current: string, spec: string)
    ensures var pieces, answer := Pieces(Strip(spec, Space)), Satisfied(current, spec);
            && (answer == Answer(true) <==> forall t :: t in pieces ==> Blank(t) || Met(current, t))
            && (answer == Unparsed <==> exists t :: t in pieces && !Blank(t) && !Clausal(t))
  {
    var pieces := Pieces(Strip(spec, Space));
    match Gather(Read(Filled(pieces))) {
      case None => var t := SpecUnread(current, pieces);
      case Some(clauses) => SpecRead(current, pieces, clauses);
    }
  }

  lemma NothingAsked(current: string)
    ensures Satisfied(current, "") == Answer(true)
  {
    assert Pieces(Strip("", Space)) == [""] && Filled([""]) == [];
    assert Gather(Read([])) == Some([]);
  }

  lemma ReadNext(texts: seq<string>, i: nat)
    requires i < |texts|
    ensures Read(texts[..i + 1]) == Read(texts[..i]) + [ParseClause(texts[i])]
  {}

  lemma {:induction false} GatherNext(read: seq<Option<Clause>>, next: Option<Clause>, clauses: seq<Clause>)
    requires Gather(read) == Some(clauses)
    ensures Gather(read + [next]) == if next.Some? then Some(clauses + [next.value]) else None
  {
    assert (read + [next])[..|read|] == read;
  }

  // `satisfies`.
  method Satisfies(current: string, spec: string) returns (r: Answer)
    ensures r == Satisfied(current, spec)
  {
    var s := Strip(spec, Space);
    if s == "" {
      NothingAsked(current);
      return Answer(true);
    }
    var texts := Filled(Pieces(s));
    var parsed: seq<Clause> := [];
    for i := 0 to |texts|
      invariant Gather(Read(texts[..i])) == Some(parsed)
    {
      var next := ParseClause(texts[i]);
      ReadNext(texts, i);
      GatherNext(Read(texts[..i]), next, parsed);
      if next.None? {
        assert Read(texts)[i] == None;
        return Unparsed;
      }
      parsed := parsed + [next.value];
    }
    assert texts[..|texts|] == texts;
    r := All(Answers(current, parsed));
  }
}

// The agent loop: objectives, verification and the failure counter.
module AgentRun {
  import opened Prelude

  datatype Usage = Usage(input: int, output: int)

  // What the model does in a turn: nothing at all, tool calls with the errors they met, or a plain
  // reply together with what checking the current objective then says.
  datatype Act = Nothing | Tools(errors: seq<bool>) | Reply(verified: bool)

  datatype Turn = Turn(act: Act, usage: Option<Usage>)

  // The turns of a run, by iteration from 1 on.
  type Model = nat -> Turn

  datatype Status = Completed | Failed | MaxIterations

  // A `verify` step reported to the caller.
  datatype Check = Check(objective: nat, ok: bool)

  // -- what an iteration amounts to --

  datatype Outcome = Failing | Clean | Advance | Chat

  function OutcomeOf(t: Turn, chat: bool): Outcome {
    match t.act
    case Nothing => Failing
    case Tools(errors) => if true in errors then Failing else Clean
    case Reply(verified) => if chat then Chat else if verified then Advance else Failing
  }

  // A turn fails that gives nothing, meets an error in any of its tool calls, or replies without passing
  // the check; in chat a reply is the end.
  lemma OutcomeExact(t: Turn, chat: bool)
    ensures OutcomeOf(t, chat).Failing? <==>
      || t.act == Nothing
      || (t.act.Tools? && exists k :: 0 <= k < |t.act.errors| && t.act.errors[k])
      || (t.act == Reply(false) && !chat)
    ensures OutcomeOf(t, chat).Advance? <==> t.act == Reply(true) && !chat
    ensures OutcomeOf(t, chat).Chat? <==> t.act.Reply? && chat
  {
    if t.act.Tools? && true in t.act.errors { var k :| 0 <= k < |t.act.errors| && t.act.errors[k]; }
  }

  // The objectives verified in the first `i` iterations.
  function Advances(model: Model, chat: bool, i: nat): nat {
    if i == 0 then 0
    else Advances(model, chat, i - 1) + if OutcomeOf(model(i), chat).Advance? then 1 else 0
  }

  // The last `m` of the first `i` iterations all failed.
  predicate FailRun(model: Model, chat: bool, i: nat, m: nat) {
    m <= i && forall j :: i - m < j <= i ==> OutcomeOf(model(j), chat).Failing?
  }

  // A setting below one acts like one.
  function Patience(maxRecovery: int): nat {
    if maxRecovery < 1 then 1 else maxRecovery
  }

  // Iteration `i` ends the run.
  predicate Done(model: Model, chat: bool, objectives: nat, i: nat)
    requires i >= 1
  {
    OutcomeOf(model(i), chat).Chat? || (OutcomeOf(model(i), chat).Advance? && Advances(model, chat, i) == objectives)
  }

  // In chat a reply ends the run; otherwise the reply that verifies the last of the objectives does.
  lemma {:induction false} DoneExact(model: Model, chat: bool, objectives: nat, i: nat)
    requires i >= 1
    ensures Done(model, chat, objectives, i) <==>
            if chat then model(i).act.Reply?
            else model(i).act == Reply(true) && Total(model, Verified, i) == objectives
  {
    if !chat { AdvancesAre(model, i); }
  }

  function Verified(t: Turn): int { if t.act == Reply(true) then 1 else 0 }

  lemma {:induction false} AdvancesAre(model: Model, i: nat)
    ensures Advances(model, false, i) == Total(model, Verified, i)
  {
    if i > 0 { AdvancesAre(model, i - 1); }
  }

  predicate Stops(model: Model, chat: bool, objectives: nat, maxRecovery: int, i: nat)
    requires i >= 1
  {
    Done(model, chat, objectives, i) || FailRun(model, chat, i, Patience(maxRecovery))
  }

  // -- what is reported --

  function InputOf(t: Turn): int { if t.usage.Some? then t.usage.value.input else 0 }
  function OutputOf(t: Turn): int { if t.usage.Some? then t.usage.value.output else 0 }

  // What a quantity comes to over the first `i` iterations.
  function Total(model: Model, quantity: Turn -> int, i: nat): int {
    if i == 0 then 0 else Total(model, quantity, i - 1) + quantity(model(i))
  }

  function Sum(model: Model, i: nat): Usage {
    if i == 0 then Usage(0, 0)
    else
      var before := Sum(model, i - 1);
      match model(i).usage
      case None => before
      case Some(u) => Usage(before.input + u.input, before.output + u.output)
  }

  predicate AnyUsage(model: Model, i: nat) {
    i > 0 && (model(i).usage.Some? || AnyUsage(model, i - 1))
  }

  // Input and output are summed up apart, over the turns that report any; there is a usage when one does.
  lemma {:induction false} UsageExact(model: Model, i: nat)
    ensures Sum(model, i) == Usage(Total(model, InputOf, i), Total(model, OutputOf, i))
    ensures AnyUsage(model, i) <==> exists j :: 1 <= j <= i && model(j).usage.Some?
  {
    if i > 0 { UsageExact(model, i - 1); }
  }

  // The checks of the first `i` iterations, each of the objective that is then due.
  function Checks(model: Model, i: nat): seq<Check> {
    if i == 0 then []
    else
      Checks(model, i - 1) +
      match model(i).act
      case Reply(ok) => [Check(Advances(model, false, i - 1), ok)]
      case _ => []
  }

  function Passed(checks: seq<Check>): seq<nat> {
    if checks == [] then []
    else
      var last := checks[|checks| - 1];
      Passed(checks[..|checks| - 1]) + if last.ok then [last.objective] else []
  }

  function UpTo(n: nat): seq<nat> {
    seq(n, k => k)
  }

  lemma {:induction false} PassedSnoc(checks: seq<Check>, c: Check)
    ensures Passed(checks + [c]) == Passed(checks) + if c.ok then [c.objective] else []
  {
    assert (checks + [c])[..|checks|] == checks;
  }

  lemma UpToNext(n: nat)
    ensures UpTo(n) + [n] == UpTo(n + 1)
    ensures UpTo(n) + [] == UpTo(n)
  {}

  lemma ChecksNext(model: Model, i: nat)
    requires i > 0
    ensures Checks(model, i) ==
            if model(i).act.Reply? then
              Checks(model, i - 1) + [Check(Advances(model, false, i - 1), model(i).act.verified)]
            else Checks(model, i - 1)
    ensures Advances(model, false, i) ==
            Advances(model, false, i - 1) + if model(i).act.Reply? && model(i).act.verified then 1 else 0
  {
    var before := Checks(model, i - 1);
    assert before + [] == before;
  }

  // The objectives are verified in order, once each.
  lemma {:induction false} PassedInOrder(model: Model, i: nat)
    ensures Passed(Checks(model, i)) == UpTo(Advances(model, false, i))
  {
    if i > 0 {
      PassedInOrder(model, i - 1);
      ChecksNext(model, i);
      var before, n := Checks(model, i - 1), Advances(model, false, i - 1);
      UpToNext(n);
      if model(i).act.Reply? { PassedSnoc(before, Check(n, model(i).act.verified)); }
    }
  }

  // -- the loop --

  // The run over its first `i` iterations did not end yet.
  ghost predicate Going(model: Model, chat: bool, objectives: nat, maxRecovery: int, i: nat) {
    forall j :: 1 <= j <= i ==> !Stops(model, chat, objectives, maxRecovery, j)
  }

  // Before a run ends, every check is of an objective there is.
  lemma {:induction false} ChecksInRange(model: Model, objectives: nat, maxRecovery: int, i: nat)
    requires objectives >= 1
    requires i >= 1 ==> Going(model, false, objectives, maxRecovery, i - 1)
    ensures i >= 1 ==> Advances(model, false, i - 1) < objectives
    ensures forall k :: 0 <= k < |Checks(model, i)| ==> Checks(model, i)[k].objective < objectives
  {
    if i > 0 {
      ChecksInRange(model, objectives, maxRecovery, i - 1);
      if i > 1 { assert !Stops(model, false, objectives, maxRecovery, i - 1); }
    }
  }

  // The failure counter is the number of failures since the last turn that did not fail.
  ghost predicate Counts(model: Model, chat: bool, i: nat, failures: nat) {
    FailRun(model, chat, i, failures) && (failures < i ==> !OutcomeOf(model(i - failures), chat).Failing?)
  }

  // What one more iteration does to the counter, and when it ends the run.
  lemma IterationStep(model: Model, chat: bool, objectives: nat, maxRecovery: int, i: nat, failures: nat)
    requires Counts(model, chat, i, failures) && Going(model, chat, objectives, maxRecovery, i)
    ensures var failed := OutcomeOf(model(i + 1), chat).Failing?;
            var f' := if failed then failures + 1 else 0;
            && Counts(model, chat, i + 1, f')
            && (FailRun(model, chat, i + 1, Patience(maxRecovery)) <==> failed && f' >= maxRecovery)
    ensures !Stops(model, chat, objectives, maxRecovery, i + 1) ==> Going(model, chat, objectives, maxRecovery, i + 1)
  {
    var m := Patience(maxRecovery);
    if FailRun(model, chat, i + 1, m) {
      assert OutcomeOf(model(i + 1), chat).Failing?;
      assert failures < i ==> i - failures <= i + 1 - m;
    }
  }

  // The part of the loop body behind the model's answer.
  method Judge(turn: Turn, chat: bool, objectives: nat, maxRecovery: int, objIdx0: nat, failures0: nat)
    returns (objIdx: nat, failures: nat, checks: seq<Check>, verdict: Option<Status>)
    requires chat || objIdx0 < objectives
    ensures var o := OutcomeOf(turn, chat);
            && failures == (if o.Failing? then failures0 + 1 else 0)
            && objIdx == objIdx0 + (if o.Advance? then 1 else 0)
            && checks == (if turn.act.Reply? && !chat then [Check(objIdx0, turn.act.verified)] else [])
            && verdict == if o.Failing? && failures >= maxRecovery then Some(Failed)
                          else if o.Chat? || (o.Advance? && objIdx >= objectives) then Some(Completed) else None
  {
    objIdx, failures, checks, verdict := objIdx0, failures0, [], None;
    if turn.act.Nothing? {
      failures := failures + 1;
      if failures >= maxRecovery { verdict := Some(Failed); }
      return;
    }
    if turn.act.Tools? {
      if true in turn.act.errors {
        failures := failures + 1;
        if failures >= maxRecovery { verdict := Some(Failed); }
      } else {
        failures := 0;
      }
      return;
    }
    if chat {
      failures := 0;
      verdict := Some(Completed);
      return;
    }
    checks := [Check(objIdx, turn.act.verified)];
    if !turn.act.verified {
      failures := failures + 1;
      if failures >= maxRecovery { verdict := Some(Failed); }
      return;
    }
    failures := 0;
    objIdx := objIdx + 1;
    if objIdx >= objectives { verdict := Some(Completed); }
  }

  // `run_`. Its outcome is read off the model's turns: the run ends at the first iteration that
  // completes it or is the last of a run of failures, or else at the limit.
  method Run(model: Model, chat: bool, objectives: nat, maxIterations: int, maxRecovery: int)
    returns (status: Status, iterations: nat, usage: Option<Usage>, checks: seq<Check>)
    requires if chat then objectives == 0 else objectives >= 1
    ensures iterations <= if maxIterations < 0 then 0 else maxIterations
    ensures iterations >= 1 ==> Going(model, chat, objectives, maxRecovery, iterations - 1)
    ensures status.Completed? ==> iterations >= 1 && Done(model, chat, objectives, iterations)
    ensures status.Failed? ==> iterations >= 1 && FailRun(model, chat, iterations, Patience(maxRecovery))
    ensures status.MaxIterations? ==>
      iterations == (if maxIterations < 0 then 0 else maxIterations)
      && Going(model, chat, objectives, maxRecovery, iterations)
    ensures checks == if chat then [] else Checks(model, iterations)
    ensures usage ==
      if AnyUsage(model, iterations) then Some(Sum(model, iterations)) else None
  {
    iterations, checks, status := 0, [], MaxIterations;
    var objIdx, failures: nat := 0, 0;
    var total, sawUsage := Usage(0, 0), false;
    while iterations < maxIterations
      invariant iterations <= if maxIterations < 0 then 0 else maxIterations
      invariant Going(model, chat, objectives, maxRecovery, iterations) && status.MaxIterations?
      invariant Counts(model, chat, iterations, failures)
      invariant objIdx == Advances(model, chat, iterations) && (chat || objIdx < objectives)
      invariant checks == if chat then [] else Checks(model, iterations)
      invariant total == Sum(model, iterations) && sawUsage == AnyUsage(model, iterations)
    {
      IterationStep(model, chat, objectives, maxRecovery, iterations, failures);
      iterations := iterations + 1;
      var turn := model(iterations);
      if turn.usage.Some? {
        sawUsage := true;
        total := Usage(total.input + turn.usage.value.input, total.output + turn.usage.value.output);
      }
      var more, verdict;
      objIdx, failures, more, verdict := Judge(turn, chat, objectives, maxRecovery, objIdx, failures);
      checks := checks + more;
      if verdict.Some? {
        status := verdict.value;
        break;
      }
    }
    usage := if sawUsage then Some(total) else None;
  }

  // A run that is not chat and completes has verified every objective, in order, once each.
  lemma {:induction false} CompletedVerified(model: Model, objectives: nat, i: nat)
    requires i >= 1 && Done(model, false, objectives, i)
    ensures Passed(Checks(model, i)) == UpTo(objectives)
  {
    PassedInOrder(model, i);
    assert OutcomeOf(model(i), false).Advance?;
  }
}

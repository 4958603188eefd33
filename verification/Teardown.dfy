// Running a brick's teardown commands: once, in order, retried, and bounded in time.
module Teardown {
  const ATTEMPTS := 6
  const BACKOFF := 0.5
  const BACKOFF_CAP := 2.0
  const TOTAL_BUDGET := 45.0

  // What the container engine does with an attempt; `done` is an exit code of 0 or "already gone".
  datatype Outcome = Outcome(done: bool, took: real)

  // An engine's answers, by position of the command in the list and number of the attempt.
  type Engine = (nat, nat) -> Outcome

  datatype Try = Try(command: string, attempt: nat, start: real, end: real, done: bool)

  function Min(x: real, y: real): real { if x <= y then x else y }
  function Max(x: real, y: real): real { if x <= y then y else x }

  // The sleep after an attempt.
  function Delay(attempt: nat): (d: real)
    ensures 0.0 <= d <= BACKOFF_CAP
  {
    if attempt <= 1 then BACKOFF else Min(Delay(attempt - 1) * 1.5, BACKOFF_CAP)
  }

  lemma DelayNext(attempt: nat)
    requires attempt >= 1
    ensures Delay(attempt + 1) == Min(Delay(attempt) * 1.5, BACKOFF_CAP)
  {}

  // The sleeps between six attempts, in seconds.
  lemma DelayTable()
    ensures Delay(1) == 0.5 && Delay(2) == 0.75 && Delay(3) == 1.125 && Delay(4) == 1.6875 && Delay(5) == 2.0
  {
    DelayNext(1);
    DelayNext(2);
    DelayNext(3);
    DelayNext(4);
  }

  function TryOnce(engine: Engine, k: nat, command: string, now: real, attempt: nat): Try {
    var o := engine(k, attempt);
    Try(command, attempt, now, now + o.took, o.done)
  }

  // No further attempt after this one.
  predicate Final(t: Try, deadline: real) {
    t.done || t.attempt >= ATTEMPTS || t.end >= deadline
  }

  // `_run_teardown_command` from an attempt on.
  function Tries(engine: Engine, k: nat, command: string, deadline: real, now: real, attempt: nat): (ts: seq<Try>)
    requires 1 <= attempt <= ATTEMPTS
    ensures ts != []
    decreases ATTEMPTS - attempt, k
  {
    var t := TryOnce(engine, k, command, now, attempt);
    if Final(t, deadline) then [t]
    else [t] + Tries(engine, k, command, deadline, t.end + Delay(attempt), attempt + 1)
  }

  // The attempts made so far and those to come.
  lemma TriesNext(
    engine: Engine, k: nat, command: string, deadline: real, now: real, attempt: nat, ts: seq<Try>)
    requires 1 <= attempt <= ATTEMPTS
    ensures var t := TryOnce(engine, k, command, now, attempt);
            ts + Tries(engine, k, command, deadline, now, attempt) ==
            if Final(t, deadline) then ts + [t]
            else ts + [t] + Tries(engine, k, command, deadline, t.end + Delay(attempt), attempt + 1)
  {
    var t := TryOnce(engine, k, command, now, attempt);
    if !Final(t, deadline) {
      var rest := Tries(engine, k, command, deadline, t.end + Delay(attempt), attempt + 1);
      assert ts + ([t] + rest) == ts + [t] + rest;
    }
  }

  function End(ts: seq<Try>): real
    requires ts != []
  {
    ts[|ts| - 1].end
  }

  // The commands before position `n` of the list, one group of attempts each.
  function Groups(engine: Engine, commands: seq<string>, now: real, n: nat): (groups: seq<seq<Try>>)
    requires n <= |commands|
    ensures |groups| == n && forall k :: 0 <= k < n ==> groups[k] != []
  {
    if n == 0 then []
    else
      var before := Groups(engine, commands, now, n - 1);
      before + [Tries(engine, n - 1, commands[n - 1], now + TOTAL_BUDGET, Finish(before, now), 1)]
  }

  function Finish(groups: seq<seq<Try>>, now: real): real
    requires forall k :: 0 <= k < |groups| ==> groups[k] != []
  {
    if groups == [] then now else End(groups[|groups| - 1])
  }

  lemma GroupsNext(engine: Engine, commands: seq<string>, now: real, k: nat, ts: seq<Try>)
    requires k < |commands| && ts != []
    requires ts == Tries(engine, k, commands[k], now + TOTAL_BUDGET, Finish(Groups(engine, commands, now, k), now), 1)
    ensures Groups(engine, commands, now, k + 1) == Groups(engine, commands, now, k) + [ts]
    ensures Finish(Groups(engine, commands, now, k + 1), now) == End(ts)
  {}

  // -- what a teardown does --

  // It is what the engine makes of this attempt on the k-th command.
  predicate Faithful(t: Try, engine: Engine, k: nat) {
    t.done == engine(k, t.attempt).done && t.end == t.start + engine(k, t.attempt).took
  }

  // One command's attempts from number `attempt` on: counted up to six, each retry after its sleep;
  // all but the last fail before the deadline, and the last one succeeds, is the sixth, or ends behind
  // the deadline.
  predicate TriedFrom(
    ts: seq<Try>, engine: Engine, k: nat, command: string, start: real, deadline: real, attempt: nat)
  {
    && 1 <= |ts| <= ATTEMPTS + 1 - attempt
    && ts[0].start == start
    && (forall i :: 0 <= i < |ts| ==>
          ts[i].command == command && ts[i].attempt == attempt + i && Faithful(ts[i], engine, k))
    && (forall i :: 1 <= i < |ts| ==> ts[i].start == ts[i - 1].end + Delay(ts[i - 1].attempt))
    && (forall i :: 0 <= i < |ts| - 1 ==> !ts[i].done && ts[i].end < deadline)
    && (ts[|ts| - 1].done || attempt + |ts| == 7 || ts[|ts| - 1].end >= deadline)
  }

  lemma {:induction false} OneMore(t: Try, ts: seq<Try>, engine: Engine, k: nat,
                command: string, start: real, deadline: real, attempt: nat)
    requires t.command == command && t.start == start && t.attempt == attempt && Faithful(t, engine, k)
    requires TriedFrom(ts, engine, k, command, t.end + Delay(attempt), deadline, attempt + 1)
    requires !t.done && t.end < deadline
    ensures TriedFrom([t] + ts, engine, k, command, start, deadline, attempt)
  {}

  lemma OnlyOne(t: Try, engine: Engine, k: nat, command: string, start: real, deadline: real, attempt: nat)
    requires t.command == command && t.start == start && t.attempt == attempt && Faithful(t, engine, k)
    requires Final(t, deadline) && attempt <= ATTEMPTS
    ensures TriedFrom([t], engine, k, command, start, deadline, attempt)
  {}

  lemma {:induction false} TriesAreTried(
    engine: Engine, k: nat, command: string, deadline: real, now: real, attempt: nat)
    requires 1 <= attempt <= ATTEMPTS
    ensures TriedFrom(Tries(engine, k, command, deadline, now, attempt), engine, k, command, now, deadline, attempt)
    decreases ATTEMPTS - attempt, k
  {
    var t, ts := TryOnce(engine, k, command, now, attempt), Tries(engine, k, command, deadline, now, attempt);
    if Final(t, deadline) {
      OnlyOne(t, engine, k, command, now, deadline, attempt);
      assert ts == [t];
    } else {
      var later := t.end + Delay(attempt);
      var rest := Tries(engine, k, command, deadline, later, attempt + 1);
      TriesAreTried(engine, k, command, deadline, later, attempt + 1);
      OneMore(t, rest, engine, k, command, now, deadline, attempt);
      assert ts == [t] + rest;
    }
  }

  // An engine that takes at most `a` for an attempt.
  ghost predicate Prompt(engine: Engine, a: real) {
    forall k: nat, attempt: nat :: 0.0 <= engine(k, attempt).took <= a
  }

  lemma {:induction false} TriesBounded(
    engine: Engine, k: nat, command: string, deadline: real, now: real, attempt: nat, a: real)
    requires 1 <= attempt <= ATTEMPTS && Prompt(engine, a)
    ensures End(Tries(engine, k, command, deadline, now, attempt)) <= Max(now, deadline + BACKOFF_CAP) + a
    decreases ATTEMPTS - attempt, k
  {
    var t := TryOnce(engine, k, command, now, attempt);
    if !Final(t, deadline) { TriesBounded(engine, k, command, deadline, t.end + Delay(attempt), attempt + 1, a); }
  }

  // Every command of the list is tried, in order, each from where the one before ended.
  lemma {:induction false} InOrder(engine: Engine, commands: seq<string>, now: real, n: nat, k: nat)
    requires k < n <= |commands|
    ensures var groups := Groups(engine, commands, now, n);
            TriedFrom(groups[k], engine, k, commands[k], Finish(groups[..k], now), now + TOTAL_BUDGET, 1)
  {
    var before := Groups(engine, commands, now, n - 1);
    if k == n - 1 {
      TriesAreTried(engine, k, commands[k], now + TOTAL_BUDGET, Finish(before, now), 1);
      assert Groups(engine, commands, now, n)[..k] == before;
    } else {
      InOrder(engine, commands, now, n - 1, k);
      assert Groups(engine, commands, now, n)[..k] == before[..k];
    }
  }

  function Times(n: nat, a: real): (t: real)
    requires a >= 0.0
    ensures t >= 0.0
  {
    if n == 0 then 0.0 else Times(n - 1, a) + a
  }

  lemma {:induction false} TimesIs(n: nat, a: real)
    requires a >= 0.0
    ensures Times(n, a) == n as real * a
  {
    if n > 0 { TimesIs(n - 1, a); }
  }

  lemma {:induction false} FinishBounded(engine: Engine, commands: seq<string>, now: real, n: nat, a: real)
    requires n <= |commands| && Prompt(engine, a) && a >= 0.0
    ensures Finish(Groups(engine, commands, now, n), now) <= now + TOTAL_BUDGET + BACKOFF_CAP + Times(n, a)
  {
    if n > 0 {
      FinishBounded(engine, commands, now, n - 1, a);
      var before := Groups(engine, commands, now, n - 1);
      TriesBounded(engine, n - 1, commands[n - 1], now + TOTAL_BUDGET, Finish(before, now), 1, a);
    }
  }

  lemma PromptTakes(engine: Engine, a: real)
    requires Prompt(engine, a)
    ensures a >= 0.0
  {
    assert 0.0 <= engine(0, 0).took;
  }

  // The latest that n commands are over: the budget, one capped sleep, and n attempts.
  function Latest(now: real, n: nat, a: real): real {
    now + TOTAL_BUDGET + BACKOFF_CAP + n as real * a
  }

  lemma {:induction false} TimesLatest(now: real, n: nat, a: real)
    requires a >= 0.0
    ensures now + TOTAL_BUDGET + BACKOFF_CAP + Times(n, a) == Latest(now, n, a)
  {
    TimesIs(n, a);
  }

  // However the engine fails, the commands are over by then.
  lemma {:induction false} Bounded(engine: Engine, commands: seq<string>, now: real, a: real)
    requires Prompt(engine, a)
    ensures Finish(Groups(engine, commands, now, |commands|), now) <= Latest(now, |commands|, a)
  {
    PromptTakes(engine, a);
    FinishBounded(engine, commands, now, |commands|, a);
    TimesLatest(now, |commands|, a);
  }

  // -- the object --

  // The fields that teardown touches, with the loop's clock and what the engine was asked to do.
  class BrickProcess {
    var postRun: seq<string>
    var clock: real
    var groups: seq<seq<Try>>
    ghost var commands: seq<string>   // the list the process was made with
    ghost var begun: real             // when it was taken
    ghost var engine: Engine
    ghost var over: nat               // the commands that were over when it ended

    // The list is still there and nothing was run, or it was run, once, as far as it got.
    ghost predicate Valid()
      reads this
    {
      || (postRun == commands && groups == [])
      || (postRun == [] && over <= |commands| && groups == Groups(engine, commands, begun, over))
    }

    constructor (commands: seq<string>, now: real)
      ensures Valid() && postRun == this.commands == commands && groups == [] && clock == now
    {
      postRun, this.commands, groups := commands, commands, [];
      clock, begun, engine, over := now, now, (_, _) => Outcome(true, 0.0), 0;
    }

    // One turn of its loop: the attempt, and whether it was the last; otherwise the sleep behind it.
    method TryNext(engine: Engine, k: nat, command: string, deadline: real, attempt: nat, delay: real)
      returns (t: Try, final: bool)
      requires delay == Delay(attempt)
      modifies this`clock
      ensures t == TryOnce(engine, k, command, old(clock), attempt) && final == Final(t, deadline)
      ensures clock == if final then t.end else t.end + Delay(attempt)
    {
      var o := engine(k, attempt);
      t := Try(command, attempt, clock, clock + o.took, o.done);
      clock := clock + o.took;
      final := o.done || attempt >= ATTEMPTS || clock >= deadline;
      if !final { clock := clock + delay; }
    }

    // `_run_teardown_command`.
    method RunTeardownCommand(engine: Engine, k: nat, command: string, deadline: real) returns (ts: seq<Try>)
      modifies this`clock
      ensures ts == Tries(engine, k, command, deadline, old(clock), 1)
      ensures clock == End(ts)
    {
      var delay := BACKOFF;
      ts := [];
      var attempt := 1;
      var final := false;
      ghost var all := Tries(engine, k, command, deadline, clock, attempt);
      while !final
        invariant 1 <= attempt <= ATTEMPTS && delay == Delay(attempt)
        invariant if final then ts == all && ts != [] && clock == End(ts)
                  else all == ts + Tries(engine, k, command, deadline, clock, attempt)
        decreases !final, ATTEMPTS - attempt
      {
        TriesNext(engine, k, command, deadline, clock, attempt, ts);
        var t;
        t, final := TryNext(engine, k, command, deadline, attempt, delay);
        ts := ts + [t];
        if !final {
          DelayNext(attempt);
          delay := Min(delay * 1.5, BACKOFF_CAP);
          attempt := attempt + 1;
        }
      }
    }

    // The groups of the first k commands of a list taken at `now`, and no more.
    ghost predicate Through(engine: Engine, pending: seq<string>, now: real, k: nat)
      reads this
    {
      k <= |pending| && groups == Groups(engine, pending, now, k) && clock == Finish(groups, now)
    }

    // One turn of its loop.
    method RunNext(engine: Engine, pending: seq<string>, ghost now: real, k: nat, deadline: real)
      requires Through(engine, pending, now, k) && k < |pending| && deadline == now + TOTAL_BUDGET
      modifies this`groups, this`clock
      ensures Through(engine, pending, now, k + 1)
    {
      var ts := RunTeardownCommand(engine, k, pending[k], deadline);
      GroupsNext(engine, pending, now, k, ts);
      groups := groups + [ts];
    }

    // `_run_post_run`, under its lock; start-rollback, the exit watcher and stop all call it. If its task
    // is cancelled when `cut` commands are over, the rest of the list is gone all the same.
    method RunPostRun(engine: Engine, cut: nat)
      requires Valid()
      modifies this
      ensures Valid() && commands == old(commands) && postRun == []
      ensures old(postRun) == [] ==> groups == old(groups) && clock == old(clock)
      ensures old(postRun) != [] ==>
        && over == (if cut < |commands| then cut else |commands|)
        && groups == Groups(engine, commands, old(clock), over) && clock == Finish(groups, old(clock))
    {
      if postRun == [] { return; }
      var pending := postRun;
      postRun := [];
      begun, over := clock, 0;
      this.engine := engine;
      var deadline := clock + TOTAL_BUDGET;
      var k := 0;
      while k < |pending| && k < cut
        invariant k <= |pending| && k <= cut && over == k
        invariant pending == commands == old(commands) && postRun == [] && this.engine == engine
        invariant begun == old(clock) && Through(engine, pending, old(clock), k)
      {
        RunNext(engine, pending, old(clock), k, deadline);
        k := k + 1;
        over := k;
      }
    }
  }
}

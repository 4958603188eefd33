// The kernel's state over one start-to-stop life, and its steps.
module KernelModel {
  import opened Prelude
  import opened Capabilities

  type Config = map<string, string>

  datatype Manifest = Manifest(name: string, wants: seq<string>)

  datatype Binding = Binding(contract: string, manifest: Manifest, config: Config, disabled: bool)

  // A supervisor: the capabilities its request handler passes on, the latest process it brought up,
  // and whether that is its handle (a crash takes the handle away). `live` are the processes alive
  // whose requests it serves, and `due` counts the exits during a spawn that it has not handled yet.
  // A stale one was up before the start that succeeded, and has been given no list since.
  datatype Supervisor = Supervisor(
    binding: Binding, caps: set<string>, process: nat, up: bool, live: set<nat>, due: nat, stale: bool)

  // A supervisor that is not in the kernel's list: one whose brick did not come up in a start or a
  // rebind, or one that a rebind replaced and stopped. Its processes and its exit hook outlive it.
  // `shares` says that its list is the very object the kernel keeps for its name.
  datatype Lost = Lost(sup: Supervisor, stopped: bool, shares: bool)

  datatype Kernel = Kernel(
    policy: Policy, bindings: seq<Binding>, sups: seq<Supervisor>, lost: seq<Lost>,
    effective: map<string, set<string>>, restricted: set<string>, started: bool,
    over: bool,                         // stopped after it was started
    registry: map<string, nat>,         // contract -> process of the bound handle
    running: set<nat>, spawned: nat)    // live brick processes, and how many were ever left running

  // How `_spawn_and_init` ends: with a handle; with an error it catches, the process stopped, or
  // without a process; the same, but the process has exited by itself and the exit hook has seen it;
  // or with an exception it does not catch, the process left running.
  datatype Spawn = Up | Refused | Died | BrokenOff

  datatype Step =
    | Start(order: seq<Binding>)
    | StartFails(order: seq<Binding>, n: nat, spawn: Spawn)    // order[n] does not come up
    | Restrict(withheld: set<string>)
    | Grant(caller: string, cap: string)                       // host.permission.request
    | Rebind(contract: string, config: Config, spawn: Spawn)
    | Restart(i: nat, exiting: Option<nat>, spawn: Spawn)      // sups[i] handles the exit of a process
    | LostRestart(j: nat, exiting: Option<nat>, spawn: Spawn)  // lost[j] does
    | Stop

  ghost predicate ActiveIn(bindings: seq<Binding>, b: Binding) {
    b in bindings && !b.disabled
  }

  function Active(bindings: seq<Binding>): seq<Binding> {
    if bindings == [] then []
    else (if bindings[0].disabled then [] else [bindings[0]]) + Active(bindings[1..])
  }

  lemma {:induction false} ActiveMembers(bindings: seq<Binding>, b: Binding)
    ensures b in Active(bindings) <==> ActiveIn(bindings, b)
  {
    if bindings != [] { ActiveMembers(bindings[1..], b); }
  }

  // The keys of a `[bindings]` table.
  predicate Distinct(bindings: seq<Binding>) {
    forall i, j :: 0 <= i < j < |bindings| ==> bindings[i].contract != bindings[j].contract
  }

  // `_compute_effective`.
  function Effective(k: Kernel, m: Manifest): set<string> {
    set c | c in m.wants && k.policy.Allows(m.name, c) && !GrantedByAny(k.restricted, c)
  }

  function Name(s: Supervisor): string {
    s.binding.manifest.name
  }

  // The kernel keeps new lists for these names.
  function Unshared(lost: seq<Lost>, names: set<string>): (r: seq<Lost>)
    ensures |r| == |lost|
    ensures forall j :: 0 <= j < |r| ==>
      r[j] == lost[j].(shares := lost[j].shares && Name(lost[j].sup) !in names)
  {
    seq(|lost|, j requires 0 <= j < |lost| => lost[j].(shares := lost[j].shares && Name(lost[j].sup) !in names))
  }

  // Bring up one brick in `start`.
  function BringUp(k: Kernel, b: Binding): Kernel {
    var caps, p := Effective(k, b.manifest), k.spawned + 1;
    k.(sups := k.sups + [Supervisor(b, caps, p, true, {p}, 0, false)],
       lost := Unshared(k.lost, {b.manifest.name}),
       effective := k.effective[b.manifest.name := caps],
       registry := k.registry[b.contract := p],
       running := k.running + {p},
       spawned := p)
  }

  function BringUpAll(k: Kernel, order: seq<Binding>): Kernel {
    if order == [] then k else BringUp(BringUpAll(k, order[..|order| - 1]), order[|order| - 1])
  }

  function Aged(sups: seq<Supervisor>): (r: seq<Supervisor>)
    ensures |r| == |sups| && forall i :: 0 <= i < |r| ==> r[i] == sups[i].(stale := true)
  {
    seq(|sups|, i requires 0 <= i < |sups| => sups[i].(stale := true))
  }

  function Older(k: Kernel): Kernel {
    k.(sups := Aged(k.sups))
  }

  // What an earlier start that failed has brought up stays, in the list and running.
  function Begin(k: Kernel, order: seq<Binding>): Kernel {
    BringUpAll(Older(k), order).(started := true)
  }

  // A supervisor whose brick did not come up is not put into the list; nobody stops it.
  function Strayed(k: Kernel, b: Binding, caps: set<string>, spawn: Spawn, shares: bool): Kernel {
    var p := k.spawned + 1;
    match spawn
    case Died => k.(lost := k.lost + [Lost(Supervisor(b, caps, 0, false, {}, 1, false), false, shares)])
    case BrokenOff =>
      k.(lost := k.lost + [Lost(Supervisor(b, caps, 0, false, {p}, 0, false), false, shares)],
         running := k.running + {p},
         spawned := p)
    case _ => k
  }

  // The list of a brick that is to come up is the kernel's own before it is spawned.
  function Listed(k: Kernel, b: Binding): Kernel {
    k.(effective := k.effective[b.manifest.name := Effective(k, b.manifest)],
       lost := Unshared(k.lost, {b.manifest.name}))
  }

  // `start` raises at order[n]; what came up before stays.
  function BeginFailed(k: Kernel, order: seq<Binding>, n: nat, spawn: Spawn): Kernel
    requires n < |order|
  {
    var k1, b := BringUpAll(k, order[..n]), order[n];
    Strayed(Listed(k1, b), b, Effective(k1, b.manifest), spawn, true)
  }

  // `by_name` of `restrict_capabilities`: the last active binding of that name counts.
  function WantsOf(active: seq<Binding>, name: string): seq<string> {
    if active == [] then []
    else if active[|active| - 1].manifest.name == name then active[|active| - 1].manifest.wants
    else WantsOf(active[..|active| - 1], name)
  }

  function Restricted(k: Kernel, withheld: set<string>): Kernel {
    var k1 := k.(restricted := withheld);
    if !k.started then k1
    else
      var effective := map n | n in k.effective :: Effective(k1, Manifest(n, WantsOf(Active(k.bindings), n)));
      k1.(effective := effective,
          lost := Unshared(k.lost, k.effective.Keys),
          sups := seq(|k.sups|, j requires 0 <= j < |k.sups| =>
            if Name(k.sups[j]) in effective then Given(k.sups[j], effective[Name(k.sups[j])]) else k.sups[j]))
  }

  // The kernel hands a supervisor its list.
  function Given(s: Supervisor, caps: set<string>): Supervisor {
    s.(caps := caps, stale := false)
  }

  // `_grant_dynamic`: the answer, and what it changes.
  predicate Grantable(k: Kernel, caller: string, cap: string) {
    !GrantedByAny(k.restricted, cap) && k.policy.Allows(caller, cap)
  }

  function Granted(k: Kernel, caller: string, cap: string): Kernel {
    var held := if caller in k.effective then k.effective[caller] else {};
    if !Grantable(k, caller, cap) || cap in held then k
    else
      k.(effective := k.effective[caller := held + {cap}],
         lost := seq(|k.lost|, j requires 0 <= j < |k.lost| => Extended(k.lost[j], caller, held + {cap})),
         sups := seq(|k.sups|, j requires 0 <= j < |k.sups| =>
           if Name(k.sups[j]) == caller then Given(k.sups[j], held + {cap}) else k.sups[j]))
  }

  // The list is extended in place, so that whoever shares it sees it grow.
  function Extended(l: Lost, caller: string, caps: set<string>): Lost {
    if l.shares && Name(l.sup) == caller then l.(sup := l.sup.(caps := caps)) else l
  }

  // The first supervisor of the contract, |sups| when there is none.
  function SupervisorOf(sups: seq<Supervisor>, contract: string): (i: nat)
    ensures i <= |sups|
    ensures i < |sups| ==> sups[i].binding.contract == contract
    ensures forall j :: 0 <= j < i ==> sups[j].binding.contract != contract
  {
    if sups == [] || sups[0].binding.contract == contract then 0 else 1 + SupervisorOf(sups[1..], contract)
  }

  function ReplaceFirst(bindings: seq<Binding>, b: Binding): seq<Binding> {
    if bindings == [] then []
    else if bindings[0].contract == b.contract then [b] + bindings[1..]
    else [bindings[0]] + ReplaceFirst(bindings[1..], b)
  }

  predicate CanRebind(k: Kernel, contract: string) {
    k.started && SupervisorOf(k.sups, contract) < |k.sups|
  }

  // The new brick is up before the old one is stopped; otherwise the kernel's own tables are as before.
  function Rebound(k: Kernel, contract: string, config: Config, spawn: Spawn): Kernel {
    if !CanRebind(k, contract) then k
    else
      var i := SupervisorOf(k.sups, contract);
      var was := k.sups[i];
      var b := was.binding.(config := was.binding.config + config);
      var caps, p := Effective(k, b.manifest), k.spawned + 1;
      if spawn.Up? then
        k.(sups := k.sups[i := Supervisor(b, caps, p, true, {p}, 0, false)],
           lost := Unshared(k.lost, {b.manifest.name}) + [Lost(was.(live := was.live - {was.process}), true, false)],
           registry := k.registry[contract := p],
           effective := k.effective[b.manifest.name := caps],
           bindings := ReplaceFirst(k.bindings, b),
           running := k.running + {p} - {was.process},
           spawned := p)
      else Strayed(k, b, caps, spawn, false)
  }

  // The exit of one of its live processes, or one still to be handled.
  predicate Exits(s: Supervisor, exiting: Option<nat>) {
    if exiting.Some? then exiting.value in s.live else s.due > 0
  }

  function Gone(exiting: Option<nat>): set<nat> {
    if exiting.Some? then {exiting.value} else {}
  }

  // `_handle_crash` as one step, `p` being the number of the next process. A restart that is not
  // allowed any more counts as refused.
  function Handled(s: Supervisor, exiting: Option<nat>, spawn: Spawn, p: nat): Supervisor
    requires Exits(s, exiting)
  {
    var s1 := s.(up := false, live := s.live - Gone(exiting), due := if exiting.Some? then s.due else s.due - 1);
    match spawn
    case Up => s1.(process := p, up := true, live := s1.live + {p})
    case Refused => s1
    case Died => s1.(due := s1.due + 1)
    case BrokenOff => s1.(live := s1.live + {p})
  }

  predicate Leaves(spawn: Spawn) {
    spawn.Up? || spawn.BrokenOff?
  }

  // What the exit and the spawn do outside the supervisor: the rebind hook binds a handle.
  function Respawned(k: Kernel, contract: string, exiting: Option<nat>, spawn: Spawn): Kernel {
    var p := k.spawned + 1;
    k.(registry := if spawn.Up? then k.registry[contract := p] else k.registry,
       running := k.running - Gone(exiting) + if Leaves(spawn) then {p} else {},
       spawned := if Leaves(spawn) then p else k.spawned)
  }

  // A stopped supervisor ignores the exit.
  function Ignored(s: Supervisor, exiting: Option<nat>): Supervisor {
    s.(live := s.live - Gone(exiting))
  }

  function Restarted(k: Kernel, i: nat, exiting: Option<nat>, spawn: Spawn): Kernel
    requires i < |k.sups| && Exits(k.sups[i], exiting)
  {
    if k.over then k.(sups := k.sups[i := Ignored(k.sups[i], exiting)], running := k.running - Gone(exiting))
    else
      var s := Handled(k.sups[i], exiting, spawn, k.spawned + 1);
      Respawned(k, s.binding.contract, exiting, spawn).(sups := k.sups[i := s])
  }

  function LostRestarted(k: Kernel, j: nat, exiting: Option<nat>, spawn: Spawn): Kernel
    requires j < |k.lost| && Exits(k.lost[j].sup, exiting)
  {
    var l := k.lost[j];
    if l.stopped then
      k.(lost := k.lost[j := l.(sup := Ignored(l.sup, exiting))], running := k.running - Gone(exiting))
    else
      var s := Handled(l.sup, exiting, spawn, k.spawned + 1);
      Respawned(k, s.binding.contract, exiting, spawn).(lost := k.lost[j := l.(sup := s)])
  }

  // `stop` of the supervisor, which knows only the latest process it brought up.
  function Halted(s: Supervisor): Supervisor {
    s.(live := s.live - {s.process}, due := 0)
  }

  function Stopped(k: Kernel): Kernel {
    if !k.started then k
    else
      k.(registry := map[], started := false, over := true,
         running := k.running - (set s | s in k.sups :: s.process),
         sups := seq(|k.sups|, j requires 0 <= j < |k.sups| => Halted(k.sups[j])))
  }

  // A live brick of that name.
  predicate Asks(s: Supervisor, caller: string) {
    Name(s) == caller && s.live != {}
  }

  predicate CanAsk(k: Kernel, caller: string) {
    || (exists i :: 0 <= i < |k.sups| && Asks(k.sups[i], caller))
    || (exists j :: 0 <= j < |k.lost| && Asks(k.lost[j].sup, caller))
  }

  // A start may be repeated until it succeeds; a stopped kernel is not started again.
  predicate CanStart(k: Kernel, order: seq<Binding>) {
    !k.started && !k.over && multiset(order) == multiset(Active(k.bindings))
  }

  predicate Legal(k: Kernel, st: Step) {
    match st
    case Start(order) => CanStart(k, order)
    case StartFails(order, n, spawn) => CanStart(k, order) && n < |order| && !spawn.Up?
    case Grant(caller, _) => CanAsk(k, caller)
    case Restart(i, exiting, _) => i < |k.sups| && Exits(k.sups[i], exiting)
    case LostRestart(j, exiting, _) => j < |k.lost| && Exits(k.lost[j].sup, exiting)
    case _ => true
  }

  function Apply(k: Kernel, st: Step): Kernel
    requires Legal(k, st)
  {
    match st
    case Start(order) => Begin(k, order)
    case StartFails(order, n, spawn) => BeginFailed(k, order, n, spawn)
    case Restrict(withheld) => Restricted(k, withheld)
    case Grant(caller, cap) => Granted(k, caller, cap)
    case Rebind(contract, config, spawn) => Rebound(k, contract, config, spawn)
    case Restart(i, exiting, spawn) => Restarted(k, i, exiting, spawn)
    case LostRestart(j, exiting, spawn) => LostRestarted(k, j, exiting, spawn)
    case Stop => Stopped(k)
  }

  predicate Initial(k: Kernel) {
    && k.sups == [] && k.lost == [] && k.effective == map[] && k.registry == map[] && k.running == {}
    && !k.started && !k.over && k.restricted == {} && k.spawned == 0 && Distinct(k.bindings)
  }

  ghost predicate Named(order: seq<Binding>, name: string) {
    exists i :: 0 <= i < |order| && order[i].manifest.name == name
  }

  lemma NamedSnoc(order: seq<Binding>, b: Binding, name: string)
    ensures Named(order + [b], name) <==> Named(order, name) || b.manifest.name == name
  {
    var s := order + [b];
    if i :| 0 <= i < |order| && order[i].manifest.name == name { assert s[i] == order[i]; }
    assert s[|order|] == b;
  }

  lemma {:induction false} BringUpAllRest(k: Kernel, order: seq<Binding>)
    ensures var k' := BringUpAll(k, order);
            && k'.policy == k.policy && k'.bindings == k.bindings && k'.restricted == k.restricted
            && k'.started == k.started && k'.over == k.over
  {
    if order != [] { BringUpAllRest(k, order[..|order| - 1]); }
  }

  // The supervisor of a brick that `start` has brought up.
  function Newcomer(k: Kernel, b: Binding, p: nat): Supervisor {
    Supervisor(b, Effective(k, b.manifest), p, true, {p}, 0, false)
  }

  // The supervisors that are listed after it: the earlier ones, and one for each binding in order.
  lemma {:induction false} BringUpAllSups(k: Kernel, order: seq<Binding>)
    ensures var k' := BringUpAll(k, order);
            && k'.spawned == k.spawned + |order| && |k'.sups| == |k.sups| + |order|
            && (forall i :: 0 <= i < |k.sups| ==> k'.sups[i] == k.sups[i])
            && (forall i :: |k.sups| <= i < |k'.sups| ==>
                  k'.sups[i] == Newcomer(k, order[i - |k.sups|], k.spawned + 1 + i - |k.sups|))
  {
    if order != [] {
      var front, b := order[..|order| - 1], order[|order| - 1];
      BringUpAllSups(k, front);
      BringUpAllRest(k, front);
      assert BringUpAll(k, order) == BringUp(BringUpAll(k, front), b);
      assert Effective(BringUpAll(k, front), b.manifest) == Effective(k, b.manifest);
    }
  }

  // The lists the kernel keeps after it, and who shares them.
  lemma {:induction false} BringUpAllLists(k: Kernel, order: seq<Binding>, name: string)
    ensures var k' := BringUpAll(k, order);
            if Named(order, name) then
              name in k'.effective && exists b :: b in order && b.manifest.name == name &&
                                                  k'.effective[name] == Effective(k, b.manifest)
            else
              (name in k'.effective <==> name in k.effective) &&
              (name in k.effective ==> k'.effective[name] == k.effective[name])
  {
    if order != [] {
      var front, b := order[..|order| - 1], order[|order| - 1];
      assert order == front + [b];
      BringUpAllLists(k, front, name);
      BringUpAllRest(k, front);
      NamedSnoc(front, b, name);
      assert Effective(BringUpAll(k, front), b.manifest) == Effective(k, b.manifest);
    }
  }

  lemma {:induction false} BringUpAllLost(k: Kernel, order: seq<Binding>)
    ensures var k' := BringUpAll(k, order);
            |k'.lost| == |k.lost| && forall j :: 0 <= j < |k.lost| ==>
              k'.lost[j] == k.lost[j].(shares := k.lost[j].shares && !Named(order, Name(k.lost[j].sup)))
  {
    var k' := BringUpAll(k, order);
    if order == [] {
      forall j | 0 <= j < |k.lost| ensures !Named(order, Name(k.lost[j].sup)) {}
    } else {
      var front, b := order[..|order| - 1], order[|order| - 1];
      assert order == front + [b];
      BringUpAllLost(k, front);
      forall j | 0 <= j < |k.lost|
        ensures k'.lost[j] == k.lost[j].(shares := k.lost[j].shares && !Named(order, Name(k.lost[j].sup)))
      {
        NamedSnoc(front, b, Name(k.lost[j].sup));
      }
    }
  }

  // Only a rebind changes the bindings.
  lemma SameBindings(k: Kernel, st: Step)
    requires Legal(k, st) && !st.Rebind?
    ensures Apply(k, st).bindings == k.bindings
  {
    match st {
      case Start(order) => BringUpAllRest(Older(k), order);
      case StartFails(order, n, spawn) => BringUpAllRest(k, order[..n]);
      case Restrict(withheld) =>
      case Grant(caller, cap) =>
      case Restart(i, exiting, spawn) =>
      case LostRestart(j, exiting, spawn) =>
      case Stop =>
    }
  }

  ghost predicate Run(k: Kernel, steps: seq<Step>, k': Kernel)
    decreases |steps|
  {
    if steps == [] then k == k' else Legal(k, steps[0]) && Run(Apply(k, steps[0]), steps[1..], k')
  }
}

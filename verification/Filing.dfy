/** Under which name each leased port ends up: in the context a tunnel is registered with, and in the
    one that each rebind round writes. */
module Filing {
  import opened Prelude
  import opened Tunnels
  import opened Ownership
  import opened Rebinding
  import Leasing

  /** Of the first `k` names, the i-th is not there again. */
  predicate Latest(names: seq<string>, i: nat, k: nat)
    requires k <= |names|
  {
    forall j :: i < j < k ==> names[j] != names[i]
  }

  /** The ports `granted` for the first of the `names`, in their order, filed by name: the last one
      granted for a name counts. */
  ghost predicate Filed(ports: map<string, int>, names: seq<string>, granted: seq<int>) {
    && |granted| <= |names|
    && (forall n :: n in ports <==> n in names[..|granted|])
    && (forall i :: 0 <= i < |granted| && Latest(names, i, |granted|) ==> names[i] in ports && ports[names[i]] == granted[i])
  }

  lemma FileOneMore(ports: map<string, int>, names: seq<string>, granted: seq<int>, port: int)
    requires Filed(ports, names, granted) && |granted| < |names|
    ensures Filed(ports[names[|granted|] := port], names, granted + [port])
  {
    var k, granted' := |granted|, granted + [port];
    var ports' := ports[names[k] := port];
    assert names[..k + 1] == names[..k] + [names[k]];
    forall i | 0 <= i < k + 1 && Latest(names, i, k + 1) ensures names[i] in ports' && ports'[names[i]] == granted'[i] {
      if i < k {
        assert Latest(names, i, k) && names[k] != names[i];
      }
    }
  }

  /** The keys of the dictionary that a setup fills: no name twice, and in the order in which they
      are first asked for. */
  lemma {:induction false} DistinctNamesAreInOrder(names: seq<string>, i: nat, j: nat)
    requires i < j < |DistinctNames(names)|
    ensures exists k :: 0 <= k < |names| && names[k] == DistinctNames(names)[i] && DistinctNames(names)[j] !in names[..k + 1]
  {
    var before, last := names[..|names| - 1], names[|names| - 1];
    Leasing.DistinctNamesKeepElements(before);
    assert forall n :: n in before <==> n in Leasing.Elements(before);
    assert forall n :: n in DistinctNames(before) <==> n in Leasing.Elements(DistinctNames(before));
    var k: nat;
    if j < |DistinctNames(before)| {
      DistinctNamesAreInOrder(before, i, j);
      k :| k < |before| && before[k] == DistinctNames(before)[i] && DistinctNames(before)[j] !in before[..k + 1];
      assert before[..k + 1] == names[..k + 1];
    } else {
      assert DistinctNames(before)[i] in before;
      k :| k < |before| && before[k] == DistinctNames(before)[i];
      assert forall n :: n in names[..k + 1] ==> n in before;
    }
    assert names[k] == DistinctNames(names)[i];
  }

  // ------------------------------------------------------------------ history

  /** The ports granted so far to each setup, and to each rebind in its latest round. */
  datatype Grants = Grants(setups: map<Id, seq<int>>, rounds: map<Id, seq<int>>)

  function Of(grants: map<Id, seq<int>>, id: Id): seq<int> {
    if id in grants then grants[id] else []
  }

  /** The step enters a port lease for a setup. */
  predicate Leases(s: State, e: Event)
    requires Enabled(s, e)
  {
    && e.Acquire? && e.setup in Step(s, e).world.stacks && |Step(s, e).world.stacks[e.setup]| > |s.world.stacks[e.setup]|
    && Top(Step(s, e).world.stacks[e.setup]).kind == PortLease
  }

  function Grant(g: Grants, s: State, e: Event): Grants
    requires Enabled(s, e)
  {
    if Leases(s, e) then g.(setups := g.setups[e.setup := Of(g.setups, e.setup) + [e.port]])
    else
      match e
      case RebindWake(r) => g.(rounds := g.rounds[r := []])
      case RebindLease(r, true, port) => g.(rounds := g.rounds[r := Of(g.rounds, r) + [port]])
      case _ => g
  }

  ghost function AllGrants(g: Grants, s: State, events: seq<Event>): Grants
    decreases |events|
  {
    if events == [] || !Enabled(s, events[0]) then g else AllGrants(Grant(g, s, events[0]), Step(s, events[0]), events[1..])
  }

  const NONE: Grants := Grants(map[], map[])

  // ------------------------------------------------------------------ setups

  /** A setup has filed the ports granted to it, and has been granted one per lease it holds. */
  ghost predicate SetupFiles(s: State, g: Grants, t: Id) {
    && (t in s.registry.tasks && s.registry.tasks[t].SettingUp? && t in s.world.stacks ==>
          var task := s.registry.tasks[t];
          && Filed(task.leased, task.request.ports, Of(g.setups, t))
          && |Of(g.setups, t)| == Leasing.PlannedLeases(task, |s.world.stacks[t]|))
    && (t in g.setups ==> t < s.registry.nextId)
  }

  /** What the filing of setup `t` rests on. */
  predicate SetupRests(s: State, s': State, t: Id) {
    && s.registry.nextId <= s'.registry.nextId
    && (t in s'.registry.tasks && s'.registry.tasks[t].SettingUp? && t in s'.world.stacks ==>
          && t in s.registry.tasks && s'.registry.tasks[t] == s.registry.tasks[t]
          && t in s.world.stacks && s'.world.stacks[t] == s.world.stacks[t])
  }

  lemma NextName(task: Task, entered: nat)
    requires task.SettingUp? && entered < |PlanOf(task)|
    ensures var k := Leasing.PlannedLeases(task, entered);
      if PlanOf(task)[entered] == PortLease then
        k < |task.request.ports| && PortName(task, entered) == Some(task.request.ports[k])
        && Leasing.PlannedLeases(task, entered + 1) == k + 1
      else PortName(task, entered).None? && Leasing.PlannedLeases(task, entered + 1) == k
  {
    Leasing.PlanKinds(task, entered);
  }

  lemma FilingKeepsPlan(task: Task, entered: nat, port: int, n: nat)
    requires task.SettingUp?
    ensures var task' := File(task, entered, port);
      task' == task.(leased := task'.leased) && Leasing.PlannedLeases(task', n) == Leasing.PlannedLeases(task, n)
  {
  }

  /** One entry more of the plan: filed, if it is a lease. */
  lemma FilesNext(task: Task, entered: nat, granted: seq<int>, port: int)
    requires task.SettingUp? && entered < |PlanOf(task)|
    requires Filed(task.leased, task.request.ports, granted) && |granted| == Leasing.PlannedLeases(task, entered)
    ensures var task', granted' := File(task, entered, port), if PlanOf(task)[entered] == PortLease then granted + [port] else granted;
      && task' == task.(leased := task'.leased) && Filed(task'.leased, task.request.ports, granted')
      && |granted'| == Leasing.PlannedLeases(task', entered + 1)
  {
    NextName(task, entered);
    FilingKeepsPlan(task, entered, port, entered + 1);
    if PlanOf(task)[entered] == PortLease {
      FileOneMore(task.leased, task.request.ports, granted, port);
    }
  }

  lemma AcquireGrants(s: State, t: Id, port: int, g: Grants)
    requires Enabled(s, Acquire(t, true, port)) && CanEnter(s.world, PlanOf(s.registry.tasks[t])[|s.world.stacks[t]|])
    ensures var kind := PlanOf(s.registry.tasks[t])[|s.world.stacks[t]|];
      Of(Grant(g, s, Acquire(t, true, port)).setups, t) == if kind == PortLease then Of(g.setups, t) + [port] else Of(g.setups, t)
    ensures Grant(g, s, Acquire(t, true, port)).setups.Keys <= g.setups.Keys + {t}
  {
  }

  lemma AcquireFiles(s: State, t: Id, port: int, g: Grants)
    requires SetupFiles(s, g, t) && Enabled(s, Acquire(t, true, port)) && t < s.registry.nextId
    requires CanEnter(s.world, PlanOf(s.registry.tasks[t])[|s.world.stacks[t]|])
    ensures SetupFiles(AcquireNext(s, t, true, port), Grant(g, s, Acquire(t, true, port)), t)
  {
    AcquireGrants(s, t, port, g);
    FilesNext(s.registry.tasks[t], |s.world.stacks[t]|, Of(g.setups, t), port);
  }

  lemma AcquireRestsOthers(s: State, t: Id, ok: bool, port: int, id: Id)
    requires Enabled(s, Acquire(t, ok, port))
    requires id != t || !ok || !CanEnter(s.world, PlanOf(s.registry.tasks[t])[|s.world.stacks[t]|])
    ensures SetupRests(s, AcquireNext(s, t, ok, port), id) && (id == t ==> !Leases(s, Acquire(t, ok, port)))
  {
  }

  lemma LeaseRests(s: State, r: Id, ok: bool, port: int, t: Id)
    requires Inv(s) && Enabled(s, RebindLease(r, ok, port))
    ensures SetupRests(s, LeaseNext(s, r, ok, port), t)
  {
    assert Settled(s.registry, s.ports.rebinds[r].phase.target);
    if t in s.registry.tasks {
      assert TaskOk(s.registry, t);
    }
  }

  lemma CloseRests(s: State, e: Event, t: Id)
    requires RegistryInv(s.registry) && Enabled(s, e) && (e.CloseOne? || e.CloseEnd?)
    ensures SetupRests(s, Step(s, e), t)
  {
    assert TaskOk(s.registry, e.closer);
    assert t in s.registry.tasks ==> TaskOk(s.registry, t);
  }

  lemma DestroyRests(s: State, name: TunnelName, mustWait: bool, t: Id)
    requires RegistryInv(s.registry)
    ensures SetupRests(s, StartDestroy(s, name, mustWait), t)
  {
    DestroyLeavesWorld(s, name, mustWait);
    DestroyShape(s, name, mustWait);
  }

  lemma OthersRest(s: State, e: Event, t: Id)
    requires Inv(s) && Enabled(s, e) && !e.Acquire? && !e.SetupStart?
    ensures SetupRests(s, Step(s, e), t)
  {
    match e
    case RebindLease(r, ok, port) => LeaseRests(s, r, ok, port, t);
    case DestroyStart(name, mustWait) => DestroyRests(s, name, mustWait, t);
    case CloseOne(_) => CloseRests(s, e, t);
    case CloseEnd(_) => CloseRests(s, e, t);
    case _ =>
  }

  lemma StartFiles(s: State, e: Event, g: Grants, t: Id)
    requires Inv(s) && SetupFiles(s, g, t) && Enabled(s, e) && e.SetupStart?
    ensures SetupFiles(Step(s, e), g, t)
  {
    if t == s.registry.nextId {
      assert e.request.ports[..0] == [];
    }
  }

  lemma StepFiles(s: State, e: Event, g: Grants, t: Id)
    requires Inv(s) && SetupFiles(s, g, t) && Enabled(s, e)
    ensures SetupFiles(Step(s, e), Grant(g, s, e), t)
  {
    if e.SetupStart? {
      StartFiles(s, e, g, t);
    } else if e.Acquire? {
      assert TaskOk(s.registry, e.setup);
      if t == e.setup && e.ok && CanEnter(s.world, PlanOf(s.registry.tasks[t])[|s.world.stacks[t]|]) {
        AcquireFiles(s, t, e.port, g);
      } else {
        AcquireRestsOthers(s, e.setup, e.ok, e.port, t);
      }
    } else {
      OthersRest(s, e, t);
    }
  }

  // ------------------------------------------------------------------ rebind rounds

  /** A rebind in the middle of a round has filed the ports granted in it. */
  ghost predicate RoundFiles(p: Ports, g: Grants, r: Id) {
    r in p.rebinds && p.rebinds[r].phase.Leasing? ==>
      var phase, granted := p.rebinds[r].phase, Of(g.rounds, r);
      && Filed(phase.renewed, phase.base.names, granted) && phase.todo == phase.base.names[|granted|..]
  }

  lemma NextFiles(p: Ports, exitStacks: map<TunnelName, Id>, r: Id, base: Context, granted: seq<int>, renewed: map<string, int>)
    requires r in p.rebinds && Filed(renewed, base.names, granted)
    ensures var p' := NextLease(p, exitStacks, r, base, base.names[|granted|..], renewed);
      && r in p'.rebinds
      && (p'.rebinds[r].phase.Leasing? ==>
            && p'.rebinds[r].phase.renewed == renewed && p'.rebinds[r].phase.base == base
            && p'.rebinds[r].phase.todo == base.names[|granted|..])
  {
  }

  lemma RoundKeeps(s: State, r: Id, port: int, g: Grants)
    requires RoundFiles(s.ports, g, r) && InLeasing(s, r)
    ensures var phase, granted := s.ports.rebinds[r].phase, Of(g.rounds, r) + [port];
      && Filed(phase.renewed[phase.todo[0] := port], phase.base.names, granted)
      && phase.todo[1..] == phase.base.names[|granted|..]
  {
    FileOneMore(s.ports.rebinds[r].phase.renewed, s.ports.rebinds[r].phase.base.names, Of(g.rounds, r), port);
  }

  lemma WakeFiles(s: State, r: Id, g: Grants)
    requires Enabled(s, RebindWake(r))
    ensures RoundFiles(WakeRebind(s, r).ports, Grant(g, s, RebindWake(r)), r)
  {
    var name := s.ports.rebinds[r].name;
    if name in s.ports.contexts && s.ports.contexts[name].canForward {
      var base := s.ports.contexts[name];
      assert base.names[..0] == [] && base.names[0..] == base.names;
      NextFiles(s.ports, s.registry.exitStacks, r, base, [], map[]);
    }
  }

  lemma LeaseFiles(s: State, r: Id, ok: bool, port: int, g: Grants)
    requires RoundFiles(s.ports, g, r) && Enabled(s, RebindLease(r, ok, port))
    ensures RoundFiles(LeaseNext(s, r, ok, port).ports, Grant(g, s, RebindLease(r, ok, port)), r)
  {
    if ok {
      var phase, granted := s.ports.rebinds[r].phase, Of(g.rounds, r) + [port];
      RoundKeeps(s, r, port, g);
      NextFiles(s.ports, s.registry.exitStacks, r, phase.base, granted, phase.renewed[phase.todo[0] := port]);
    }
  }

  predicate RoundRests(p: Ports, p': Ports, r: Id) {
    r in p'.rebinds && p'.rebinds[r].phase.Leasing? ==> r in p.rebinds && p'.rebinds[r].phase == p.rebinds[r].phase
  }

  lemma OtherRoundsRest(s: State, e: Event, r: Id)
    requires Enabled(s, e) && (e.RebindWake? || e.RebindLease? ==> e.rebind != r)
    ensures RoundRests(s.ports, Step(s, e).ports, r)
  {
  }

  lemma StepFilesRound(s: State, e: Event, g: Grants, r: Id)
    requires RoundFiles(s.ports, g, r) && Enabled(s, e)
    ensures RoundFiles(Step(s, e).ports, Grant(g, s, e), r)
  {
    if e.RebindWake? && e.rebind == r {
      WakeFiles(s, r, g);
    } else if e.RebindLease? && e.rebind == r {
      LeaseFiles(s, r, e.ok, e.port, g);
    } else {
      OtherRoundsRest(s, e, r);
    }
  }

  // ------------------------------------------------------------------ over every run

  ghost predicate FilesInv(s: State, g: Grants) {
    forall id :: SetupFiles(s, g, id) && RoundFiles(s.ports, g, id)
  }

  lemma {:induction false} RunFiles(s: State, events: seq<Event>, s': State, g: Grants)
    requires Inv(s) && FilesInv(s, g) && Run(s, events, s')
    ensures Inv(s') && FilesInv(s', AllGrants(g, s, events))
    decreases |events|
  {
    if events != [] {
      var s1, g1 := Step(s, events[0]), Grant(g, s, events[0]);
      forall id ensures SetupFiles(s1, g1, id) && RoundFiles(s1.ports, g1, id) {
        StepFiles(s, events[0], g, id);
        StepFilesRound(s, events[0], g, id);
      }
      StepKeeps(s, events[0]);
      RunFiles(s1, events[1..], s', g1);
    }
  }

  /** Over every run: a tunnel is registered with a context that has the port granted for each name
      asked for, the last one if a name was asked for twice; it can forward ports only with a VPN;
      and it gets a rebind task exactly if one was asked for. */
  lemma RegisteredWithGrantedPorts(events: seq<Event>, s: State, t: Id, fields: nat)
    requires Run(START, events, s) && Enabled(s, Register(t, fields))
    ensures var task, s', granted := s.registry.tasks[t], Step(s, Register(t, fields)), Of(AllGrants(NONE, START, events).setups, t);
      && task.name in s'.ports.contexts
      && (var c := s'.ports.contexts[task.name];
          && c.fields == fields && c.canForward == task.request.vpn
          && |granted| == (if task.request.vpn then |task.request.ports| else 0)
          && (if task.request.vpn then Filed(c.ports, task.request.ports, granted) && c.names == DistinctNames(task.request.ports)
              else c.ports == map[] && c.names == []))
      && s'.ports.rebinds.Keys == s.ports.rebinds.Keys + (if task.request.rebind then {t} else {})
      && (task.request.rebind ==> s'.ports.rebinds[t].phase.Sleeping? && s'.ports.rebinds[t].name == task.name)
      && s'.ports.rebindTasks == if task.request.rebind && task.request.listed then s.ports.rebindTasks[task.name := t] else s.ports.rebindTasks
  {
    StartInv();
    RunFiles(START, events, s, NONE);
    assert SetupFiles(s, AllGrants(NONE, START, events), t);
  }

  /** Over every run: the lease that completes a rebind round writes the context that the round
      began with, each of its names now with the port granted for it in this round. */
  lemma RoundWritesGrantedPorts(events: seq<Event>, s: State, r: Id, port: int)
    requires Run(START, events, s) && Enabled(s, RebindLease(r, true, port)) && |s.ports.rebinds[r].phase.todo| == 1
    ensures var rebind, s', granted := s.ports.rebinds[r], Step(s, RebindLease(r, true, port)), Of(AllGrants(NONE, START, events).rounds, r) + [port];
      && |granted| == |rebind.phase.base.names| && rebind.name in s'.ports.contexts
      && s'.ports.contexts[rebind.name] == rebind.phase.base.(ports := s'.ports.contexts[rebind.name].ports)
      && Filed(s'.ports.contexts[rebind.name].ports, rebind.phase.base.names, granted)
  {
    StartInv();
    RunFiles(START, events, s, NONE);
    assert RoundFiles(s.ports, AllGrants(NONE, START, events), r);
    RoundKeeps(s, r, port, AllGrants(NONE, START, events));
  }

  /** How a rebind goes on when it wakes: it is over when its tunnel has no context or no VPN; it
      dies if there is no stack to lease into; and a round without names is complete at once. */
  lemma WakesInOneOfFourWays(s: State, r: Id)
    requires Enabled(s, RebindWake(r))
    ensures var name, p, p' := s.ports.rebinds[r].name, s.ports, Step(s, RebindWake(r)).ports;
      var forwards := name in p.contexts && p.contexts[name].canForward;
      && r in p'.rebinds
      && (p'.rebinds[r].phase.Finished? <==> !forwards)
      && (p'.rebinds[r].phase.Failed? <==> forwards && p.contexts[name].names != [] && name !in s.registry.exitStacks)
      && (p'.rebinds[r].phase.Sleeping? <==> forwards && p.contexts[name].names == [])
      && (p'.rebinds[r].phase.Leasing? ==> p'.rebinds[r].phase.target == s.registry.exitStacks[name])
  {
  }

  /** And with each lease: it dies if the lease fails, taking nothing, or if there is no stack for the
      next one; else it goes on to the next name, or the round is complete. */
  lemma GoesOnWithEachLease(s: State, r: Id, ok: bool, port: int)
    requires Enabled(s, RebindLease(r, ok, port))
    ensures var rebind, s' := s.ports.rebinds[r], Step(s, RebindLease(r, ok, port));
      && r in s'.ports.rebinds
      && (!ok ==> s'.world == s.world && s'.ports.contexts == s.ports.contexts)
      && (ok ==> s'.world.stacks[rebind.phase.target] == s.world.stacks[rebind.phase.target] + [Resource(s.world.nextToken, PortLease)])
      && (s'.ports.rebinds[r].phase.Failed? <==> !ok || (|rebind.phase.todo| > 1 && rebind.name !in s.registry.exitStacks))
      && (s'.ports.rebinds[r].phase.Sleeping? <==> ok && |rebind.phase.todo| == 1)
      && (s'.ports.rebinds[r].phase.Leasing? ==>
            s'.ports.rebinds[r].phase.todo == rebind.phase.todo[1..] && s'.ports.rebinds[r].phase.target == s.registry.exitStacks[rebind.name])
  {
  }
}

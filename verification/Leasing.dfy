/** Port rebinds over whole runs in which calls on one name do not overlap: what the stack of a
    tunnel holds after any number of rounds, and what a destroy gives back. */
module Leasing {
  import opened Prelude
  import opened Tunnels
  import opened Ownership
  import opened Rebinding

  // ------------------------------------------------------------------ port leases, when calls on one name do not overlap

  function Leases(stack: Stack): nat {
    if stack == [] then 0 else Leases(stack[..|stack| - 1]) + if Top(stack).kind == PortLease then 1 else 0
  }

  function Elements(names: seq<string>): set<string> {
    set x | x in names
  }

  predicate Live(b: Rebind) {
    b.phase.Sleeping? || b.phase.Leasing?
  }

  /** Leases taken so far in the round under way. */
  function Taken(b: Rebind): int {
    if b.phase.Leasing? then |b.origin.names| - |b.phase.todo| else 0
  }

  /** What the stack must hold: one lease per name requested, one per distinct name and round. */
  function Due(b: Rebind): int {
    |b.requested| + b.rounds * |b.origin.names| + Taken(b)
  }

  ghost predicate ContextOk(b: Rebind, c: Context) {
    && c == b.origin.(ports := c.ports)
    && b.origin.names == DistinctNames(b.requested)
    && c.ports.Keys == Elements(b.requested)
  }

  ghost predicate RoundOk(b: Rebind, c: Context, r: Id) {
    b.phase.Leasing? ==>
      && b.phase.base == c && b.phase.target == r
      && 0 < |b.phase.todo| <= |b.origin.names|
      && b.phase.todo == b.origin.names[Taken(b)..]
      && b.phase.renewed.Keys == Elements(b.origin.names[..Taken(b)])
  }

  /** A rebind of a registered tunnel; that of a created one is on record. */
  ghost predicate RebindOk(s: State, r: Id)
    requires r in s.ports.rebinds
  {
    var b := s.ports.rebinds[r];
    var n := b.name;
    && n in s.registry.exitStacks && s.registry.exitStacks[n] == r
    && (r !in s.ports.started ==> n in s.ports.rebindTasks && s.ports.rebindTasks[n] == r)
    && n in s.ports.contexts && ContextOk(b, s.ports.contexts[n]) && RoundOk(b, s.ports.contexts[n], r)
    && r in s.world.stacks && Leases(s.world.stacks[r]) == Due(b)
  }

  // Laws of names and leases.

  lemma {:induction false} DistinctNamesKeepElements(names: seq<string>)
    ensures Elements(DistinctNames(names)) == Elements(names)
  {
    if names != [] {
      var before, last := names[..|names| - 1], names[|names| - 1];
      DistinctNamesKeepElements(before);
      assert names == before + [last];
      assert forall x :: x in DistinctNames(before) <==> x in Elements(DistinctNames(before));
      assert forall x :: x in before <==> x in Elements(before);
    }
  }

  lemma LeasesPush(stack: Stack, r: Resource)
    ensures Leases(stack + [r]) == Leases(stack) + if r.kind == PortLease then 1 else 0
  {
    assert (stack + [r])[..|stack|] == stack;
  }

  lemma RoundsStep(rounds: nat, n: nat)
    ensures (rounds + 1) * n == rounds * n + n
  {
  }

  /** How many of a setup's entries are port leases, going by its plan. */
  function PlannedLeases(task: Task, entered: nat): nat
    requires task.SettingUp?
  {
    var base := |PlanOf(task)| - |task.request.ports|;
    if task.request.vpn && entered > base then entered - base else 0
  }

  lemma PlanKinds(task: Task, i: nat)
    requires task.SettingUp? && i < |PlanOf(task)|
    ensures PlanOf(task)[i] == PortLease <==> task.request.vpn && i >= |PlanOf(task)| - |task.request.ports|
  {
  }

  lemma {:induction false} LeasesFollowPlan(stack: Stack, task: Task)
    requires FollowsPlan(stack, task)
    ensures Leases(stack) == PlannedLeases(task, |stack|)
    decreases |stack|
  {
    if stack != [] {
      LeasesFollowPlan(stack[..|stack| - 1], task);
      PlanKinds(task, |stack| - 1);
    }
  }

  /** A setup has filed one port under each name it has leased for. */
  ghost predicate FiledOk(task: Task, entered: nat) {
    task.SettingUp? && PlannedLeases(task, entered) <= |task.request.ports|
    && task.leased.Keys == Elements(task.request.ports[..PlannedLeases(task, entered)])
  }

  lemma FileKeepsFiled(task: Task, entered: nat, port: int)
    requires task.SettingUp? && entered < |PlanOf(task)| && FiledOk(task, entered)
    ensures FiledOk(File(task, entered, port), entered + 1) && PlanOf(File(task, entered, port)) == PlanOf(task)
  {
    var j := PlannedLeases(task, entered);
    if PortName(task, entered).Some? {
      assert task.request.ports[..j + 1] == task.request.ports[..j] + [task.request.ports[j]];
    }
  }

  // ------------------------------------------------------------------ the discipline and the invariant

  ghost predicate NoLiveOf(p: Ports, name: TunnelName) {
    forall r :: r in p.rebinds && Live(p.rebinds[r]) ==> p.rebinds[r].name != name
  }

  /** Calls on one name do not overlap: a tunnel is set up only when no setup, no destroy and no
      rebind of its name is left, and destroyed only when no setup and no other destroy is. (A
      second setup of a registered name may come at any time: it is refused.) Both handlers may
      make tunnels, and a rebind may be cancelled at any time. */
  ghost predicate Calm(s: State, e: Event) {
    match e
    case SetupStart(n, _, _) =>
      n in s.registry.namespaces
      || (NoSetupOf(s.registry, n) && NoDestroyOf(s.registry, n) && NoLiveOf(s.ports, n))
    case DestroyStart(n, _) => NoSetupOf(s.registry, n) && NoDestroyOf(s.registry, n)
    case _ => true
  }

  ghost predicate CalmRun(s: State, events: seq<Event>, s': State)
    decreases |events|
  {
    if events == [] then s == s'
    else Enabled(s, events[0]) && Calm(s, events[0]) && CalmRun(Step(s, events[0]), events[1..], s')
  }

  ghost predicate DestroysApart(g: Registry, p: Ports) {
    forall t :: t in g.tasks && g.tasks[t].Destroying? ==> NoSetupOf(g, g.tasks[t].name) && g.tasks[t].name !in p.rebindTasks
  }

  ghost predicate SetupsFiled(w: World, g: Registry) {
    forall t :: t in g.tasks && g.tasks[t].SettingUp? && t in w.stacks ==> FiledOk(g.tasks[t], |w.stacks[t]|)
  }

  /** What a torn-down tunnel of `handle_create_tunnel` leaves behind. */
  ghost predicate AbandonedEmpty(w: World, g: Registry, p: Ports) {
    forall id :: id in g.owner && g.owner[id] == Nobody && id in w.stacks && id !in p.started ==> w.stacks[id] == []
  }

  /** A rebind that has outlived its tunnel; only that of a started tunnel can. */
  ghost predicate Orphan(s: State, r: Id)
    requires r in s.ports.rebinds
  {
    var b := s.ports.rebinds[r];
    && r in s.ports.started && b.name !in s.registry.exitStacks && NoSetupOf(s.registry, b.name)
    && (b.phase.Leasing? ==> b.phase.target == r) && Settled(s.registry, r)
  }

  ghost predicate Fine(s: State, r: Id)
    requires r in s.ports.rebinds
  {
    RebindOk(s, r) || Orphan(s, r)
  }

  ghost predicate RebindsOk(s: State) {
    forall r :: r in s.ports.rebinds && Live(s.ports.rebinds[r]) ==> Fine(s, r)
  }

  /** Two live rebinds never serve one name. */
  ghost predicate LiveDistinct(p: Ports) {
    forall q, r :: q in p.rebinds && r in p.rebinds && Live(p.rebinds[q]) && Live(p.rebinds[r]) && q != r ==>
      p.rebinds[q].name != p.rebinds[r].name
  }

  ghost predicate LeaseInv(s: State) {
    && Inv(s) && OneSetupPerName(s.registry) && DestroysApart(s.registry, s.ports) && LiveDistinct(s.ports)
    && SetupsFiled(s.world, s.registry) && AbandonedEmpty(s.world, s.registry, s.ports) && RebindsOk(s)
  }

  /** Nothing that a registered tunnel's rebind depends on has changed. */
  predicate Untouched(s: State, s': State, r: Id)
    requires r in s.ports.rebinds
  {
    var n := s.ports.rebinds[r].name;
    && r in s'.ports.rebinds && s'.ports.rebinds[r] == s.ports.rebinds[r]
    && n in s'.registry.exitStacks && n in s.registry.exitStacks && s'.registry.exitStacks[n] == s.registry.exitStacks[n]
    && (r in s.ports.started ==> r in s'.ports.started)
    && (n in s.ports.rebindTasks && r !in s.ports.started ==>
          n in s'.ports.rebindTasks && s'.ports.rebindTasks[n] == s.ports.rebindTasks[n])
    && n in s'.ports.contexts && n in s.ports.contexts && s'.ports.contexts[n] == s.ports.contexts[n]
    && r in s'.world.stacks && r in s.world.stacks && s'.world.stacks[r] == s.world.stacks[r]
  }

  /** Nothing that an orphan depends on has changed: no setup of its name has begun, nor ended well. */
  ghost predicate StillOrphan(s: State, s': State, r: Id)
    requires r in s.ports.rebinds
  {
    && r in s'.ports.rebinds && s'.ports.rebinds[r] == s.ports.rebinds[r] && r in s'.ports.started
    && s.ports.rebinds[r].name !in s'.registry.exitStacks && NoSetupOf(s'.registry, s.ports.rebinds[r].name)
    && Settled(s'.registry, r)
  }

  lemma Carry(s: State, s': State, r: Id)
    requires r in s.ports.rebinds && Fine(s, r)
    requires RebindOk(s, r) ==> Untouched(s, s', r)
    requires Orphan(s, r) ==> StillOrphan(s, s', r)
    ensures r in s'.ports.rebinds && Fine(s', r)
  {
    if RebindOk(s, r) {
      UntouchedStaysOk(s, s', r);
    }
  }

  /** No live rebind is new. */
  ghost predicate FewerLive(p: Ports, p': Ports) {
    forall r :: r in p'.rebinds && Live(p'.rebinds[r]) ==>
      r in p.rebinds && Live(p.rebinds[r]) && p'.rebinds[r].name == p.rebinds[r].name
  }

  lemma FewerStayDistinct(p: Ports, p': Ports)
    requires LiveDistinct(p) && FewerLive(p, p')
    ensures LiveDistinct(p')
  {
  }

  lemma UntouchedStaysOk(s: State, s': State, r: Id)
    requires r in s.ports.rebinds && RebindOk(s, r) && Untouched(s, s', r)
    ensures RebindOk(s', r)
  {
  }

  /** A live rebind's stack is no setup's, and no setup of its name is under way. */
  lemma LiveIsSettled(s: State, r: Id)
    requires LeaseInv(s) && r in s.ports.rebinds && Live(s.ports.rebinds[r])
    ensures Fine(s, r) && Settled(s.registry, r) && r < s.registry.nextId && NoSetupOf(s.registry, s.ports.rebinds[r].name)
    ensures RebindOk(s, r) ==> s.registry.owner[r] == ByName(s.ports.rebinds[r].name)
  {
  }

  // ------------------------------------------------------------------ setups

  lemma StartKeepsRebinds(s: State, name: TunnelName, request: Request, hasServer: bool, r: Id)
    requires LeaseInv(s) && r in s.ports.rebinds && Live(s.ports.rebinds[r])
    requires name !in s.registry.namespaces && NoLiveOf(s.ports, name)
    ensures r in StartSetup(s, name, request, hasServer).ports.rebinds && Fine(StartSetup(s, name, request, hasServer), r)
  {
    LiveIsSettled(s, r);
    Carry(s, StartSetup(s, name, request, hasServer), r);
  }

  lemma StartKeepsApart(s: State, name: TunnelName, request: Request, hasServer: bool)
    requires LeaseInv(s) && name !in s.registry.namespaces && NoSetupOf(s.registry, name) && NoDestroyOf(s.registry, name)
    ensures var s' := StartSetup(s, name, request, hasServer);
            OneSetupPerName(s'.registry) && DestroysApart(s'.registry, s'.ports)
  {
    var s' := StartSetup(s, name, request, hasServer);
    BeginApart(s.registry, SettingUp(name, request, hasServer, map[]));
    forall t | t in s'.registry.tasks && s'.registry.tasks[t].Destroying?
      ensures NoSetupOf(s'.registry, s'.registry.tasks[t].name) && s'.registry.tasks[t].name !in s'.ports.rebindTasks
    {
      assert NoSetupOf(s.registry, s.registry.tasks[t].name);
    }
  }

  lemma StartKeepsLeases(s: State, name: TunnelName, request: Request, hasServer: bool)
    requires LeaseInv(s) && Calm(s, SetupStart(name, request, hasServer))
    ensures LeaseInv(StartSetup(s, name, request, hasServer))
  {
    var s' := StartSetup(s, name, request, hasServer);
    StartSetupKeeps(s, name, request, hasServer);
    if name !in s.registry.namespaces {
      StartKeepsApart(s, name, request, hasServer);
      assert request.ports[..0] == [];
      forall r | r in s'.ports.rebinds && Live(s'.ports.rebinds[r]) ensures Fine(s', r) {
        StartKeepsRebinds(s, name, request, hasServer, r);
      }
    }
  }

  /** The stack of a setup under way is nobody's rebind stack. */
  lemma SetupIsNoRebind(s: State, t: Id, r: Id)
    requires LeaseInv(s) && t in s.registry.tasks && s.registry.tasks[t].SettingUp?
    requires r in s.ports.rebinds && Live(s.ports.rebinds[r])
    ensures r != t && s.registry.tasks[t].name != s.ports.rebinds[r].name
  {
    LiveIsSettled(s, r);
    assert TaskOk(s.registry, t);
  }

  lemma FailLeavesOthers(s: State, t: Id, r: Id)
    requires InSetup(s, t) && r in s.ports.rebinds && Fine(s, r) && s.registry.tasks[t].name != s.ports.rebinds[r].name && r != t
    ensures r in FailSetup(s, t).ports.rebinds && Fine(FailSetup(s, t), r)
  {
    Carry(s, FailSetup(s, t), r);
  }

  /** Fewer setups, no new destroys and no new records keep destroys apart. */
  lemma StillApart(g: Registry, p: Ports, g': Registry, p': Ports)
    requires DestroysApart(g, p)
    requires forall t :: t in g'.tasks && g'.tasks[t].SettingUp? ==>
               t in g.tasks && g.tasks[t].SettingUp? && g.tasks[t].name == g'.tasks[t].name
    requires forall t :: t in g'.tasks && g'.tasks[t].Destroying? ==> t in g.tasks && g.tasks[t] == g'.tasks[t]
    requires p'.rebindTasks.Keys <= p.rebindTasks.Keys
    ensures DestroysApart(g', p')
  {
    forall t | t in g'.tasks && g'.tasks[t].Destroying?
      ensures NoSetupOf(g', g'.tasks[t].name) && g'.tasks[t].name !in p'.rebindTasks
    {
      assert NoSetupOf(g, g.tasks[t].name);
      assert g.tasks[t].name !in p.rebindTasks.Keys;
    }
  }

  lemma FailKeepsApart(s: State, t: Id)
    requires InSetup(s, t) && OneSetupPerName(s.registry) && DestroysApart(s.registry, s.ports)
    requires SetupsFiled(s.world, s.registry) && AbandonedEmpty(s.world, s.registry, s.ports)
    ensures var s' := FailSetup(s, t);
            && OneSetupPerName(s'.registry) && DestroysApart(s'.registry, s'.ports)
            && SetupsFiled(s'.world, s'.registry) && AbandonedEmpty(s'.world, s'.registry, s'.ports)
  {
    var s' := FailSetup(s, t);
    FewerSetupsApart(s.registry, s'.registry);
    StillApart(s.registry, s.ports, s'.registry, s'.ports);
  }

  lemma FailKeepsLeases(s: State, t: Id)
    requires LeaseInv(s) && InSetup(s, t)
    ensures LeaseInv(FailSetup(s, t))
  {
    var s' := FailSetup(s, t);
    FailSetupKeeps(s, t);
    FailKeepsApart(s, t);
    FewerStayDistinct(s.ports, s'.ports);
    forall r | r in s'.ports.rebinds && Live(s'.ports.rebinds[r]) ensures Fine(s', r) {
      SetupIsNoRebind(s, t, r);
      FailLeavesOthers(s, t, r);
    }
  }

  lemma AcquireLeavesOthers(s: State, t: Id, port: int, r: Id)
    requires Enabled(s, Acquire(t, true, port)) && CanEnter(s.world, PlanOf(s.registry.tasks[t])[|s.world.stacks[t]|])
    requires r in s.ports.rebinds && Fine(s, r) && r != t
    ensures var s' := AcquireNext(s, t, true, port); r in s'.ports.rebinds && Fine(s', r)
  {
    Carry(s, AcquireNext(s, t, true, port), r);
  }

  lemma AcquireKeepsFiled(s: State, t: Id, port: int)
    requires LeaseInv(s) && Enabled(s, Acquire(t, true, port))
    requires CanEnter(s.world, PlanOf(s.registry.tasks[t])[|s.world.stacks[t]|])
    ensures var s' := AcquireNext(s, t, true, port);
            SetupsFiled(s'.world, s'.registry) && AbandonedEmpty(s'.world, s'.registry, s'.ports)
  {
    assert TaskOk(s.registry, t);
    FileKeepsFiled(s.registry.tasks[t], |s.world.stacks[t]|, port);
  }

  lemma AcquireKeepsLeases(s: State, t: Id, ok: bool, port: int)
    requires LeaseInv(s) && Enabled(s, Acquire(t, ok, port))
    ensures LeaseInv(AcquireNext(s, t, ok, port))
  {
    var s' := AcquireNext(s, t, ok, port);
    if ok && CanEnter(s.world, PlanOf(s.registry.tasks[t])[|s.world.stacks[t]|]) {
      AcquireKeeps(s, t, ok, port);
      AcquireKeepsFiled(s, t, port);
      FewerSetupsApart(s.registry, s'.registry);
      StillApart(s.registry, s.ports, s'.registry, s'.ports);
      forall r | r in s'.ports.rebinds && Live(s'.ports.rebinds[r]) ensures Fine(s', r) {
        SetupIsNoRebind(s, t, r);
        AcquireLeavesOthers(s, t, port, r);
      }
    } else {
      FailKeepsLeases(s, t);
    }
  }

  lemma RegisterLeavesOthers(s: State, t: Id, fields: nat, r: Id)
    requires InSetup(s, t) && r in s.ports.rebinds && Fine(s, r)
    requires r != t && s.registry.tasks[t].name != s.ports.rebinds[r].name
    ensures r in RegisterTunnel(s, t, fields).ports.rebinds && Fine(RegisterTunnel(s, t, fields), r)
  {
    Carry(s, RegisterTunnel(s, t, fields), r);
  }

  /** A setup that has run its whole plan has one lease, and one filed port, per name it asked for. */
  lemma {:induction false} FullSetup(stack: Stack, task: Task)
    requires FollowsPlan(stack, task) && FiledOk(task, |stack|) && |stack| == |PlanOf(task)|
    ensures Leases(stack) == if task.request.vpn then |task.request.ports| else 0
    ensures task.request.vpn ==> task.leased.Keys == Elements(task.request.ports)
  {
    LeasesFollowPlan(stack, task);
    assert task.request.ports[..|task.request.ports|] == task.request.ports;
  }

  lemma FirstRoundOk(b: Rebind, fields: nat, task: Task)
    requires task.SettingUp? && (task.request.vpn ==> task.leased.Keys == Elements(task.request.ports))
    requires b.requested == if task.request.vpn then task.request.ports else []
    requires b.origin == FirstContext(task, fields) && b.phase.Sleeping? && b.rounds == 0
    ensures ContextOk(b, b.origin) && Due(b) == |b.requested|
  {
  }

  /** The context a tunnel is registered with, and the leases its stack holds by then. */
  lemma RegisterStartsRebind(s: State, t: Id, fields: nat)
    requires LeaseInv(s) && Enabled(s, Register(t, fields)) && s.registry.tasks[t].request.rebind
    ensures RebindOk(RegisterTunnel(s, t, fields), t)
  {
    var task := s.registry.tasks[t];
    assert TaskOk(s.registry, t) && Fits(s.world.stacks[t], s.registry, t);
    assert FiledOk(task, |s.world.stacks[t]|);
    FullSetup(s.world.stacks[t], task);
    FirstRoundOk(RegisterTunnel(s, t, fields).ports.rebinds[t], fields, task);
  }

  lemma RegisterKeepsApart(s: State, t: Id, fields: nat)
    requires LeaseInv(s) && Enabled(s, Register(t, fields))
    ensures var s' := RegisterTunnel(s, t, fields);
            OneSetupPerName(s'.registry) && DestroysApart(s'.registry, s'.ports)
  {
    var s' := RegisterTunnel(s, t, fields);
    PublishApart(s.registry, t);
    forall u | u in s'.registry.tasks && s'.registry.tasks[u].Destroying?
      ensures NoSetupOf(s'.registry, s'.registry.tasks[u].name) && s'.registry.tasks[u].name !in s'.ports.rebindTasks
    {
      assert NoSetupOf(s.registry, s.registry.tasks[u].name);
    }
  }

  lemma RegisterKeepsDistinct(s: State, t: Id, fields: nat)
    requires LeaseInv(s) && Enabled(s, Register(t, fields))
    ensures LiveDistinct(RegisterTunnel(s, t, fields).ports)
  {
    forall r | r in s.ports.rebinds && Live(s.ports.rebinds[r]) ensures r != t && s.registry.tasks[t].name != s.ports.rebinds[r].name {
      SetupIsNoRebind(s, t, r);
    }
  }

  lemma RegisterKeepsLeases(s: State, t: Id, fields: nat)
    requires LeaseInv(s) && Enabled(s, Register(t, fields))
    ensures LeaseInv(RegisterTunnel(s, t, fields))
  {
    var s' := RegisterTunnel(s, t, fields);
    RegisterKeeps(s, t, fields);
    RegisterKeepsApart(s, t, fields);
    RegisterKeepsDistinct(s, t, fields);
    forall r | r in s'.ports.rebinds && Live(s'.ports.rebinds[r]) ensures Fine(s', r) {
      if r == t && s.registry.tasks[t].request.rebind {
        RegisterStartsRebind(s, t, fields);
      } else {
        SetupIsNoRebind(s, t, r);
        RegisterLeavesOthers(s, t, fields, r);
      }
    }
  }

  // ------------------------------------------------------------------ rebinds

  /** One more name of the round, or the end of the round: the context keeps its names, and what
      is due is what had been taken. */
  lemma NextLeaseOk(p: Ports, exitStacks: map<TunnelName, Id>, r: Id, todo: seq<string>, renewed: map<string, int>)
    requires r in p.rebinds
    requires var b := p.rebinds[r];
      && b.name in p.contexts && b.name in exitStacks && exitStacks[b.name] == r
      && ContextOk(b, p.contexts[b.name]) && |todo| <= |b.origin.names|
      && todo == b.origin.names[|b.origin.names| - |todo|..]
      && renewed.Keys == Elements(b.origin.names[..|b.origin.names| - |todo|])
    ensures var b := p.rebinds[r];
      var p' := NextLease(p, exitStacks, r, p.contexts[b.name], todo, renewed);
      && r in p'.rebinds && b.name in p'.contexts
      && ContextOk(p'.rebinds[r], p'.contexts[b.name]) && RoundOk(p'.rebinds[r], p'.contexts[b.name], r)
      && Due(p'.rebinds[r]) == |b.requested| + b.rounds * |b.origin.names| + (|b.origin.names| - |todo|)
  {
    var b := p.rebinds[r];
    var names := b.origin.names;
    if todo == [] {
      assert names[..|names|] == names;
      DistinctNamesKeepElements(b.requested);
      RoundsStep(b.rounds, |names|);
    }
  }

  /** A round touches its own tunnel's context and rebind only. */
  lemma NextLeaseFrame(p: Ports, exitStacks: map<TunnelName, Id>, q: Id, base: Context, todo: seq<string>,
          renewed: map<string, int>, r: Id)
    requires q in p.rebinds
    ensures var p' := NextLease(p, exitStacks, q, base, todo, renewed);
      && p'.rebindTasks == p.rebindTasks && p'.rebinds.Keys == p.rebinds.Keys && p'.started == p.started
      && p'.rebinds[q] == p.rebinds[q].(phase := p'.rebinds[q].phase, rounds := p'.rebinds[q].rounds)
      && (r in p.rebinds && r != q ==> p'.rebinds[r] == p.rebinds[r])
      && p.contexts.Keys <= p'.contexts.Keys
      && (forall n :: n in p.contexts && n != p.rebinds[q].name ==> p'.contexts[n] == p.contexts[n])
  {
  }

  /** What a step of rebind `q` may change. */
  ghost predicate OnlyRound(s: State, s': State, q: Id)
    requires q in s.ports.rebinds
  {
    var p, p' := s.ports, s'.ports;
    && s'.registry == s.registry && p'.rebindTasks == p.rebindTasks && p'.rebinds.Keys == p.rebinds.Keys
    && p'.started == p.started && p'.rebinds[q].name == p.rebinds[q].name
    && (forall r :: r in p.rebinds && r != q ==> p'.rebinds[r] == p.rebinds[r])
    && p.contexts.Keys <= p'.contexts.Keys
    && (forall n :: n in p.contexts && n != p.rebinds[q].name ==> p'.contexts[n] == p.contexts[n])
    && s'.world.stacks.Keys == s.world.stacks.Keys
    && (forall id :: id in s.world.stacks && id != q ==> s'.world.stacks[id] == s.world.stacks[id])
  }

  lemma OthersUntouched(s: State, s': State, q: Id, r: Id)
    requires q in s.ports.rebinds && Live(s.ports.rebinds[q]) && OnlyRound(s, s', q) && LiveDistinct(s.ports)
    requires r in s.ports.rebinds && r != q && Live(s.ports.rebinds[r]) && Fine(s, r)
    ensures r in s'.ports.rebinds && Fine(s', r)
  {
    Carry(s, s', r);
  }

  /** A step of a live rebind keeps the rest of the invariant; only an orphan's touches a stack
      that is not registered. */
  lemma RoundKeepsRest(s: State, s': State, q: Id)
    requires LeaseInv(s) && q in s.ports.rebinds && Live(s.ports.rebinds[q]) && OnlyRound(s, s', q)
    ensures OneSetupPerName(s'.registry) && DestroysApart(s'.registry, s'.ports)
    ensures SetupsFiled(s'.world, s'.registry) && AbandonedEmpty(s'.world, s'.registry, s'.ports)
  {
    LiveIsSettled(s, q);
    StillApart(s.registry, s.ports, s'.registry, s'.ports);
    assert q in s.registry.tasks ==> TaskOk(s.registry, q);
  }

  lemma RoundKeepsDistinct(s: State, s': State, q: Id)
    requires LiveDistinct(s.ports) && q in s.ports.rebinds && Live(s.ports.rebinds[q]) && OnlyRound(s, s', q)
    ensures LiveDistinct(s'.ports)
  {
    forall r | r in s'.ports.rebinds && Live(s'.ports.rebinds[r])
      ensures r in s.ports.rebinds && Live(s.ports.rebinds[r]) && s'.ports.rebinds[r].name == s.ports.rebinds[r].name
    {
      assert r != q ==> s'.ports.rebinds[r] == s.ports.rebinds[r];
    }
    FewerStayDistinct(s.ports, s'.ports);
  }

  lemma RoundKeepsLeases(s: State, s': State, q: Id)
    requires LeaseInv(s) && q in s.ports.rebinds && Live(s.ports.rebinds[q]) && OnlyRound(s, s', q)
    requires Inv(s') && (Live(s'.ports.rebinds[q]) ==> Fine(s', q))
    ensures LeaseInv(s')
  {
    RoundKeepsRest(s, s', q);
    RoundKeepsDistinct(s, s', q);
    forall r | r in s'.ports.rebinds && Live(s'.ports.rebinds[r]) ensures Fine(s', r) {
      if r != q {
        assert s'.ports.rebinds[r] == s.ports.rebinds[r];
        OthersUntouched(s, s', q, r);
      }
    }
  }

  lemma WakeOnlyRound(s: State, q: Id)
    requires q in s.ports.rebinds && Fine(s, q) && s.ports.rebinds[q].phase.Sleeping?
    ensures OnlyRound(s, WakeRebind(s, q), q)
  {
    var n := s.ports.rebinds[q].name;
    if n in s.ports.contexts && s.ports.contexts[n].canForward {
      var names := s.ports.contexts[n].names;
      NextLeaseFrame(s.ports, s.registry.exitStacks, q, s.ports.contexts[n], names, map[], q);
      forall r | r in s.ports.rebinds && r != q ensures WakeRebind(s, q).ports.rebinds[r] == s.ports.rebinds[r] {
        NextLeaseFrame(s.ports, s.registry.exitStacks, q, s.ports.contexts[n], names, map[], r);
      }
    }
  }

  lemma WakeStaysOk(s: State, q: Id)
    requires q in s.ports.rebinds && RebindOk(s, q) && s.ports.rebinds[q].phase.Sleeping?
    ensures var s' := WakeRebind(s, q); q in s'.ports.rebinds && (Live(s'.ports.rebinds[q]) ==> RebindOk(s', q))
  {
    var b := s.ports.rebinds[q];
    if s.ports.contexts[b.name].canForward {
      assert b.origin.names[..0] == [];
      NextLeaseOk(s.ports, s.registry.exitStacks, q, b.origin.names, map[]);
    }
  }

  /** An orphan finds no stack to lease into: it ends, or completes a round without ports. */
  lemma OrphanStays(s: State, q: Id, ok: bool, port: int)
    requires q in s.ports.rebinds && Orphan(s, q)
    ensures s.ports.rebinds[q].phase.Sleeping? ==>
              var s' := WakeRebind(s, q); q in s'.ports.rebinds && (Live(s'.ports.rebinds[q]) ==> Orphan(s', q))
    ensures InLeasing(s, q) ==>
              var s' := LeaseNext(s, q, ok, port); q in s'.ports.rebinds && (Live(s'.ports.rebinds[q]) ==> Orphan(s', q))
  {
  }

  lemma WakeOk(s: State, q: Id)
    requires RebindsOk(s) && q in s.ports.rebinds && s.ports.rebinds[q].phase.Sleeping?
    ensures var s' := WakeRebind(s, q); OnlyRound(s, s', q) && (Live(s'.ports.rebinds[q]) ==> Fine(s', q))
  {
    assert Fine(s, q);
    WakeOnlyRound(s, q);
    if RebindOk(s, q) {
      WakeStaysOk(s, q);
    } else {
      OrphanStays(s, q, true, 0);
    }
  }

  /** The names still to lease, after one more. */
  lemma TodoStep(b: Rebind, c: Context, q: Id)
    requires ContextOk(b, c) && RoundOk(b, c, q) && b.phase.Leasing?
    ensures var names, todo := b.origin.names, b.phase.todo;
      && todo[1..] == names[|names| - |todo[1..]|..]
      && Elements(names[..|names| - |todo[1..]|]) == Elements(names[..Taken(b)]) + {todo[0]}
  {
    var names, todo := b.origin.names, b.phase.todo;
    assert names[..Taken(b) + 1] == names[..Taken(b)] + [todo[0]];
  }

  lemma LeaseOnlyRound(s: State, q: Id, port: int)
    requires InLeasing(s, q) && s.ports.rebinds[q].phase.target == q
    ensures OnlyRound(s, LeaseNext(s, q, true, port), q)
  {
    var b := s.ports.rebinds[q];
    var todo, renewed := b.phase.todo[1..], b.phase.renewed[b.phase.todo[0] := port];
    NextLeaseFrame(s.ports, s.registry.exitStacks, q, b.phase.base, todo, renewed, q);
    forall r | r in s.ports.rebinds ensures r != q ==> LeaseNext(s, q, true, port).ports.rebinds[r] == s.ports.rebinds[r] {
      NextLeaseFrame(s.ports, s.registry.exitStacks, q, b.phase.base, todo, renewed, r);
    }
  }

  lemma LeaseStaysOk(s: State, q: Id, port: int)
    requires InLeasing(s, q) && RebindOk(s, q)
    ensures var s' := LeaseNext(s, q, true, port); q in s'.ports.rebinds && (Live(s'.ports.rebinds[q]) ==> RebindOk(s', q))
  {
    var b := s.ports.rebinds[q];
    TodoStep(b, s.ports.contexts[b.name], q);
    NextLeaseOk(s.ports, s.registry.exitStacks, q, b.phase.todo[1..], b.phase.renewed[b.phase.todo[0] := port]);
    LeasesPush(s.world.stacks[q], Resource(s.world.nextToken, PortLease));
  }

  lemma LeaseOk(s: State, q: Id, ok: bool, port: int)
    requires RebindsOk(s) && InLeasing(s, q)
    ensures var s' := LeaseNext(s, q, ok, port); OnlyRound(s, s', q) && (Live(s'.ports.rebinds[q]) ==> Fine(s', q))
  {
    assert Fine(s, q);
    if ok {
      LeaseOnlyRound(s, q, port);
      if RebindOk(s, q) {
        LeaseStaysOk(s, q, port);
      } else {
        OrphanStays(s, q, ok, port);
      }
    }
  }

  // ------------------------------------------------------------------ teardowns

  lemma DestroyRebinds(s: State, name: TunnelName, mustWait: bool, r: Id)
    requires r in StartDestroy(s, name, mustWait).ports.rebinds
    ensures r in s.ports.rebinds && StartDestroy(s, name, mustWait).ports.rebinds[r] == s.ports.rebinds[r]
  {
  }

  /** The first segment of a destroy ends the rebind on record: one that is still live is that of a
      started tunnel. */
  lemma DestroyEndsRebinds(s: State, name: TunnelName, mustWait: bool, r: Id)
    requires r in s.ports.rebinds && RebindOk(s, r) && Live(s.ports.rebinds[r]) && s.ports.rebinds[r].name == name
    requires r in StartDestroy(s, name, mustWait).ports.rebinds
    ensures r in s.ports.started
  {
  }

  lemma DestroyLeavesOthers(s: State, name: TunnelName, mustWait: bool, r: Id)
    requires r in s.ports.rebinds && RebindOk(s, r) && s.ports.rebinds[r].name != name
    requires r in StartDestroy(s, name, mustWait).ports.rebinds
    ensures Untouched(s, StartDestroy(s, name, mustWait), r)
  {
  }

  /** The rebind of a started tunnel goes on: for the tunnel until that is popped, without it after. */
  lemma DestroyLeavesStarted(s: State, name: TunnelName, mustWait: bool, r: Id)
    requires RegistryInv(s.registry) && NoSetupOf(s.registry, name)
    requires r in s.ports.rebinds && RebindOk(s, r) && s.ports.rebinds[r].name == name && r in s.ports.started
    requires r in StartDestroy(s, name, mustWait).ports.rebinds
    ensures Fine(StartDestroy(s, name, mustWait), r)
  {
    var s' := StartDestroy(s, name, mustWait);
    if name in s'.registry.exitStacks {
      assert RebindOk(s', r);
    } else {
      assert Orphan(s', r);
    }
  }

  lemma DestroyLeavesOrphans(s: State, name: TunnelName, mustWait: bool, r: Id)
    requires RegistryInv(s.registry) && r in s.ports.rebinds && Orphan(s, r)
    requires r in StartDestroy(s, name, mustWait).ports.rebinds
    ensures Orphan(StartDestroy(s, name, mustWait), r)
  {
    DestroyTasks(s, name, mustWait);
    DestroyRebinds(s, name, mustWait, r);
    DestroyKeepsSettled(s, name, mustWait, r);
  }

  lemma DestroyKeepsSettled(s: State, name: TunnelName, mustWait: bool, id: Id)
    requires RegistryInv(s.registry)
    ensures Settled(s.registry, id) ==> Settled(StartDestroy(s, name, mustWait).registry, id)
    ensures StartDestroy(s, name, mustWait).registry.exitStacks.Keys <= s.registry.exitStacks.Keys
  {
    DestroyShape(s, name, mustWait);
  }

  lemma DestroyKeepsApart(s: State, name: TunnelName, mustWait: bool)
    requires RegistryInv(s.registry) && OneSetupPerName(s.registry) && DestroysApart(s.registry, s.ports)
    requires Calm(s, DestroyStart(name, mustWait))
    ensures var s' := StartDestroy(s, name, mustWait);
            OneSetupPerName(s'.registry) && DestroysApart(s'.registry, s'.ports)
  {
    var s' := StartDestroy(s, name, mustWait);
    DestroyTasks(s, name, mustWait);
    FewerSetupsApart(s.registry, s'.registry);
    forall t | t in s'.registry.tasks && s'.registry.tasks[t].Destroying?
      ensures NoSetupOf(s'.registry, s'.registry.tasks[t].name) && s'.registry.tasks[t].name !in s'.ports.rebindTasks
    {
      assert NoSetupOf(s.registry, s'.registry.tasks[t].name);
      DestroyRecords(s, name, mustWait);
    }
  }

  lemma DestroyRecords(s: State, name: TunnelName, mustWait: bool)
    ensures var p, p' := s.ports, StartDestroy(s, name, mustWait).ports;
            p'.rebindTasks == p.rebindTasks - {name} && p'.started == p.started
  {
  }

  /** A destroy begins no setup, and suspends only itself. */
  lemma DestroyTasks(s: State, name: TunnelName, mustWait: bool)
    requires RegistryInv(s.registry)
    ensures var g, g' := s.registry, StartDestroy(s, name, mustWait).registry;
      && (forall t :: t in g'.tasks && g'.tasks[t].SettingUp? ==> t in g.tasks && g.tasks[t] == g'.tasks[t])
      && (forall t :: t in g'.tasks && g'.tasks[t].Destroying? ==>
            g'.tasks[t] == Destroying(name) || (t in g.tasks && g.tasks[t] == g'.tasks[t]))
      && (forall n :: n in g'.namespaces ==> n in g.namespaces)
      && (forall id :: id in g'.owner && (g'.owner[id] == Nobody) ==> id in g.owner && g.owner[id] == Nobody)
  {
    DestroyShape(s, name, mustWait);
  }

  lemma DestroyKeepsRebind(s: State, name: TunnelName, mustWait: bool, r: Id)
    requires LeaseInv(s) && Calm(s, DestroyStart(name, mustWait))
    requires r in StartDestroy(s, name, mustWait).ports.rebinds && Live(StartDestroy(s, name, mustWait).ports.rebinds[r])
    ensures Fine(StartDestroy(s, name, mustWait), r)
  {
    var s' := StartDestroy(s, name, mustWait);
    DestroyRebinds(s, name, mustWait, r);
    assert Fine(s, r);
    if Orphan(s, r) {
      DestroyLeavesOrphans(s, name, mustWait, r);
    } else if s.ports.rebinds[r].name == name {
      DestroyEndsRebinds(s, name, mustWait, r);
      DestroyLeavesStarted(s, name, mustWait, r);
    } else {
      DestroyLeavesOthers(s, name, mustWait, r);
      UntouchedStaysOk(s, s', r);
    }
  }

  lemma DestroyKeepsRest(s: State, name: TunnelName, mustWait: bool)
    requires RegistryInv(s.registry) && SetupsFiled(s.world, s.registry) && AbandonedEmpty(s.world, s.registry, s.ports)
    ensures var s' := StartDestroy(s, name, mustWait);
            SetupsFiled(s'.world, s'.registry) && AbandonedEmpty(s'.world, s'.registry, s'.ports)
  {
    DestroyLeavesWorld(s, name, mustWait);
    DestroyTasks(s, name, mustWait);
    DestroyRecords(s, name, mustWait);
  }

  lemma DestroyKeepsLeases(s: State, name: TunnelName, mustWait: bool)
    requires LeaseInv(s) && Calm(s, DestroyStart(name, mustWait))
    ensures LeaseInv(StartDestroy(s, name, mustWait))
  {
    var s' := StartDestroy(s, name, mustWait);
    DestroyStartKeeps(s, name, mustWait);
    DestroyKeepsApart(s, name, mustWait);
    DestroyKeepsRest(s, name, mustWait);
    forall r | r in s'.ports.rebinds ensures r in s.ports.rebinds && s'.ports.rebinds[r] == s.ports.rebinds[r] {
      DestroyRebinds(s, name, mustWait, r);
    }
    FewerStayDistinct(s.ports, s'.ports);
    forall r | r in s'.ports.rebinds && Live(s'.ports.rebinds[r]) ensures Fine(s', r) {
      DestroyKeepsRebind(s, name, mustWait, r);
    }
  }

  lemma ResumeKeepsRebind(s: State, name: TunnelName, t: Id, r: Id)
    requires RegistryInv(s.registry) && NoSetupOf(s.registry, name) && name !in s.ports.rebindTasks
    requires r in s.ports.rebinds && Fine(s, r)
    ensures Fine(PopTunnel(s, name, t), r)
  {
    var s' := PopTunnel(s, name, t);
    if RebindOk(s, r) && s.ports.rebinds[r].name != name {
      UntouchedStaysOk(s, s', r);
    } else {
      assert Orphan(s', r);
    }
  }

  lemma ResumeKeepsApart(s: State, name: TunnelName, t: Id)
    requires OneSetupPerName(s.registry) && DestroysApart(s.registry, s.ports)
    ensures var s' := PopTunnel(s, name, t); OneSetupPerName(s'.registry) && DestroysApart(s'.registry, s'.ports)
  {
    var s' := PopTunnel(s, name, t);
    FewerSetupsApart(s.registry, s'.registry);
    StillApart(s.registry, s.ports, s'.registry, s'.ports);
  }

  lemma ResumeKeepsFiled(s: State, name: TunnelName, t: Id)
    requires SetupsFiled(s.world, s.registry) && AbandonedEmpty(s.world, s.registry, s.ports)
    ensures var s' := PopTunnel(s, name, t);
            SetupsFiled(s'.world, s'.registry) && AbandonedEmpty(s'.world, s'.registry, s'.ports)
  {
  }

  lemma ResumeKeepsLeases(s: State, name: TunnelName, t: Id)
    requires LeaseInv(s) && t in s.registry.tasks && s.registry.tasks[t] == Destroying(name)
    ensures LeaseInv(PopTunnel(s, name, t))
  {
    var s' := PopTunnel(s, name, t);
    assert TaskOk(s.registry, t) && NoSetupOf(s.registry, name);
    PopTunnelKeeps(s, name, t);
    ResumeKeepsApart(s, name, t);
    ResumeKeepsFiled(s, name, t);
    forall r | r in s'.ports.rebinds && Live(s'.ports.rebinds[r]) ensures Fine(s', r) {
      ResumeKeepsRebind(s, name, t, r);
    }
  }

  /** The stack being closed is neither a registered tunnel's nor a setup's nor abandoned. */
  lemma ClosedIsNeither(s: State, t: Id)
    requires LeaseInv(s) && InClosing(s, t)
    ensures var id := s.registry.tasks[t].stack;
            && (id in s.registry.tasks ==> !s.registry.tasks[id].SettingUp?)
            && id in s.registry.owner && s.registry.owner[id] == ByCloser(t)
  {
    var id := s.registry.tasks[t].stack;
    assert TaskOk(s.registry, t);
    assert id in s.registry.tasks ==> TaskOk(s.registry, id);
  }

  lemma CloseLeavesOthers(s: State, e: Event, r: Id)
    requires Enabled(s, e) && (e.CloseOne? || e.CloseEnd?)
    requires r in s.ports.rebinds && Fine(s, r)
    requires RebindOk(s, r) ==> r != s.registry.tasks[e.closer].stack
    ensures r in Step(s, e).ports.rebinds && Fine(Step(s, e), r)
  {
    Carry(s, Step(s, e), r);
  }

  lemma CloseKeepsLeases(s: State, e: Event)
    requires LeaseInv(s) && Enabled(s, e) && (e.CloseOne? || e.CloseEnd?)
    ensures LeaseInv(Step(s, e))
  {
    var s' := Step(s, e);
    ClosedIsNeither(s, e.closer);
    CloseKeeps(s, e);
    FewerSetupsApart(s.registry, s'.registry);
    StillApart(s.registry, s.ports, s'.registry, s'.ports);
    CloseKeepsFiled(s, e);
    forall r | r in s'.ports.rebinds && Live(s'.ports.rebinds[r]) ensures Fine(s', r) {
      LiveIsSettled(s, r);
      CloseLeavesOthers(s, e, r);
    }
  }

  lemma CloseKeepsFiled(s: State, e: Event)
    requires Enabled(s, e) && (e.CloseOne? || e.CloseEnd?)
    requires SetupsFiled(s.world, s.registry) && AbandonedEmpty(s.world, s.registry, s.ports)
    requires var id := s.registry.tasks[e.closer].stack;
             && (id in s.registry.tasks ==> !s.registry.tasks[id].SettingUp?)
             && id in s.registry.owner && s.registry.owner[id] == ByCloser(e.closer)
    ensures SetupsFiled(Step(s, e).world, Step(s, e).registry)
    ensures AbandonedEmpty(Step(s, e).world, Step(s, e).registry, Step(s, e).ports)
  {
  }

  lemma CancelKeepsLeases(s: State, q: Id)
    requires LeaseInv(s) && Enabled(s, RebindCancel(q))
    ensures LeaseInv(Step(s, RebindCancel(q)))
  {
    var s' := Step(s, RebindCancel(q));
    RebindKeeps(s, RebindCancel(q));
    StillApart(s.registry, s.ports, s'.registry, s'.ports);
    FewerStayDistinct(s.ports, s'.ports);
    forall r | r in s'.ports.rebinds && Live(s'.ports.rebinds[r]) ensures Fine(s', r) {
      Carry(s, s', r);
    }
  }

  // ------------------------------------------------------------------ the theorems

  lemma StepKeepsLeases(s: State, e: Event)
    requires LeaseInv(s) && Enabled(s, e) && Calm(s, e)
    ensures LeaseInv(Step(s, e))
  {
    match e
    case SetupStart(name, request, hasServer) => StartKeepsLeases(s, name, request, hasServer);
    case Acquire(t, ok, port) => AcquireKeepsLeases(s, t, ok, port);
    case SetupFail(t) => FailKeepsLeases(s, t);
    case Register(t, fields) => RegisterKeepsLeases(s, t, fields);
    case RebindWake(r) =>
      WakeOk(s, r);
      RebindKeeps(s, e);
      RoundKeepsLeases(s, WakeRebind(s, r), r);
    case RebindLease(r, ok, port) =>
      LeaseOk(s, r, ok, port);
      RebindKeeps(s, e);
      RoundKeepsLeases(s, LeaseNext(s, r, ok, port), r);
    case RebindCancel(q) => CancelKeepsLeases(s, q);
    case DestroyStart(name, mustWait) => DestroyKeepsLeases(s, name, mustWait);
    case DestroyResume(t) => ResumeKeepsLeases(s, s.registry.tasks[t].name, t);
    case CloseOne(_) => CloseKeepsLeases(s, e);
    case CloseEnd(_) => CloseKeepsLeases(s, e);
  }

  lemma {:induction false} RunKeepsLeases(s: State, events: seq<Event>, s': State)
    requires LeaseInv(s) && CalmRun(s, events, s')
    ensures LeaseInv(s')
    decreases |events|
  {
    if events != [] {
      StepKeepsLeases(s, events[0]);
      RunKeepsLeases(Step(s, events[0]), events[1..], s');
    }
  }

  /** For the rebind of any registered tunnel, made by either handler, after any number of completed
      rounds: its context differs from the one it was registered with in its port numbers only;
      the ports forwarded are the names requested; and the stack holds one lease per name
      requested, one per distinct name and completed round, and those of the round under way. A
      live rebind of a tunnel from `handle_create_tunnel` always has its tunnel. */
  lemma LeasesAreConserved(events: seq<Event>, s: State, r: Id)
    requires CalmRun(START, events, s) && r in s.ports.rebinds && Live(s.ports.rebinds[r])
    ensures r !in s.ports.started ==> s.ports.rebinds[r].name in s.registry.exitStacks
    ensures s.ports.rebinds[r].name in s.registry.exitStacks ==>
      var b := s.ports.rebinds[r];
      && s.registry.exitStacks[b.name] == r && r in s.world.stacks
      && b.name in s.ports.contexts
      && s.ports.contexts[b.name] == b.origin.(ports := s.ports.contexts[b.name].ports)
      && s.ports.contexts[b.name].ports.Keys == Elements(b.requested)
      && Leases(s.world.stacks[r]) == |b.requested| + b.rounds * |DistinctNames(b.requested)| + Taken(b)
      && 0 <= Taken(b) <= |DistinctNames(b.requested)|
  {
    StartInv();
    RunKeepsLeases(START, events, s);
    assert Fine(s, r);
  }

  /** `r` keeps its name and its history; with `complete`, it has finished one more round. */
  predicate SameRebind(p: Ports, p': Ports, r: Id, complete: bool)
    requires r in p.rebinds
  {
    r in p'.rebinds ==>
      var b, b' := p.rebinds[r], p'.rebinds[r];
      b' == b.(phase := b'.phase, rounds := b.rounds + if complete then 1 else 0)
  }

  predicate Completes(s: State, e: Event, r: Id)
    requires Enabled(s, e)
  {
    && (e.RebindWake? || e.RebindLease?) && e.rebind == r
    && r in Step(s, e).ports.rebinds && Step(s, e).ports.rebinds[r].phase.Sleeping?
  }

  lemma SetupKeepsRebind(s: State, t: Id, fields: nat, r: Id)
    requires InSetup(s, t) && r in s.ports.rebinds && r != t
    ensures SameRebind(s.ports, RegisterTunnel(s, t, fields).ports, r, false)
  {
  }

  lemma OtherStepsKeepRebind(s: State, e: Event, r: Id)
    requires Enabled(s, e) && r in s.ports.rebinds && !e.Register? && !e.RebindWake? && !e.RebindLease?
    ensures SameRebind(s.ports, Step(s, e).ports, r, false)
  {
    match e
    case Acquire(t, ok, port) =>
    case DestroyStart(name, mustWait) =>
      if r in StartDestroy(s, name, mustWait).ports.rebinds { DestroyRebinds(s, name, mustWait, r); }
    case _ =>
  }

  lemma WakeKeepsRebind(s: State, q: Id, r: Id)
    requires q in s.ports.rebinds && r in s.ports.rebinds && s.ports.rebinds[q].phase.Sleeping?
    ensures var p' := WakeRebind(s, q).ports;
            SameRebind(s.ports, p', r, q == r && r in p'.rebinds && p'.rebinds[r].phase.Sleeping?)
  {
  }

  lemma LeaseKeepsRebind(s: State, q: Id, ok: bool, port: int, r: Id)
    requires InLeasing(s, q) && r in s.ports.rebinds
    ensures var p' := LeaseNext(s, q, ok, port).ports;
            SameRebind(s.ports, p', r, q == r && r in p'.rebinds && p'.rebinds[r].phase.Sleeping?)
  {
  }

  /** The history fields are what they say: a live rebind never changes its name, its request or
      its origin, and counts exactly the rounds it completes. */
  lemma RoundsCountRewrites(s: State, e: Event, r: Id)
    requires LeaseInv(s) && Enabled(s, e) && r in s.ports.rebinds && Live(s.ports.rebinds[r])
    ensures SameRebind(s.ports, Step(s, e).ports, r, Completes(s, e, r))
  {
    match e
    case Register(t, fields) => SetupIsNoRebind(s, t, r); SetupKeepsRebind(s, t, fields, r);
    case RebindWake(q) => WakeKeepsRebind(s, q, r);
    case RebindLease(q, ok, port) => LeaseKeepsRebind(s, q, ok, port, r);
    case _ => OtherStepsKeepRebind(s, e, r);
  }

  lemma HeldStackHasIt(w: World, token: nat)
    requires HeldInv(w) && token in w.held
    ensures w.held[token].stack in w.stacks && w.stacks[w.held[token].stack] != []
  {
    assert HeldOnStack(w, token);
  }

  /** Tunnel by tunnel: once the teardown of a tunnel from `handle_create_tunnel` is over, its stack
      is empty, so the destroy has given back every lease of every round; whatever else is going on. */
  lemma DestroyReleasesEveryLease(events: seq<Event>, s: State, id: Id, token: nat)
    requires CalmRun(START, events, s)
    requires id in s.registry.owner && s.registry.owner[id] == Nobody && id !in s.ports.started
    ensures id in s.world.stacks && s.world.stacks[id] == []
    ensures token in s.world.held ==> s.world.held[token].stack != id
  {
    StartInv();
    RunKeepsLeases(START, events, s);
    if token in s.world.held {
      HeldStackHasIt(s.world, token);
    }
  }

  /** And only the rebind of a started tunnel ever leases into a stack whose teardown is over. */
  lemma LateLeasesAreOfStartedTunnels(events: seq<Event>, s: State, e: Event)
    requires CalmRun(START, events, s) && Enabled(s, e) && Late(s, e)
    ensures e.rebind in s.ports.started && s.ports.rebinds[e.rebind].phase.target == e.rebind
  {
    StartInv();
    RunKeepsLeases(START, events, s);
    assert Fine(s, e.rebind);
  }

  /** The one way a destroy of a registered tunnel comes to nothing: its recorded rebind task has
      died of an exception, which the destroy then raises. The name stays registered, and no task
      is left that would take it out. */
  lemma DestroyComesToNothingIffRebindFailed(s: State, name: TunnelName, mustWait: bool)
    requires RegistryInv(s.registry) && name in s.registry.namespaces
    ensures var s', p := StartDestroy(s, name, mustWait), s.ports;
      name in s'.registry.namespaces && s'.registry.tasks == s.registry.tasks <==>
        name in p.rebindTasks && p.rebindTasks[name] in p.rebinds && p.rebinds[p.rebindTasks[name]].phase.Failed?
  {
    assert s.registry.nextId !in s.registry.tasks;
    assert Suspend(s.registry, name).tasks.Keys == s.registry.tasks.Keys + {s.registry.nextId};
  }

  /** How a destroy goes on otherwise: with nothing to await, the name is gone by its first
      suspension, with its context, and a task has the stack to close; if there are processes or a
      live rebind to await, all of that happens when the destroy is resumed, and not before. */
  lemma DestroyTakesOut(s: State, name: TunnelName, mustWait: bool)
    requires RegistryInv(s.registry) && name in s.registry.namespaces
    requires name in s.ports.rebindTasks && s.ports.rebindTasks[name] in s.ports.rebinds ==>
               !s.ports.rebinds[s.ports.rebindTasks[name]].phase.Failed?
    ensures var t, s' := s.registry.nextId, StartDestroy(s, name, mustWait);
      var awaits := mustWait || (name in s.ports.rebindTasks && s.ports.rebindTasks[name] in s.ports.rebinds
                                 && Live(s.ports.rebinds[s.ports.rebindTasks[name]]));
      var gone := if awaits then PopTunnel(s', name, t) else s';
      && (awaits ==> Enabled(s', DestroyResume(t)) && Step(s', DestroyResume(t)) == gone)
      && (awaits ==> s'.registry.exitStacks == s.registry.exitStacks && s'.registry.namespaces == s.registry.namespaces)
      && gone.registry.exitStacks == s.registry.exitStacks - {name} && gone.registry.namespaces == s.registry.namespaces - {name}
      && gone.ports.contexts == s.ports.contexts - {name}
      && gone.registry.tasks == s.registry.tasks[t := Closing(s.registry.exitStacks[name])]
  {
    assert s.registry.nextId !in s.registry.tasks;
  }

  // ------------------------------------------------------------------ no context without a tunnel

  predicate StartedName(p: Ports, n: TunnelName) {
    exists id :: id in p.started && p.started[id] == n
  }

  /** Only a rebind that outlives its tunnel can write the context of a name that is gone. */
  ghost predicate NoStaleContexts(g: Registry, p: Ports) {
    forall n :: n in p.contexts ==> n in g.namespaces || StartedName(p, n)
  }

  /** The rebind of a started tunnel carries that tunnel's name. */
  ghost predicate StartedNamed(g: Registry, p: Ports) {
    && (forall r :: r in p.rebinds && r in p.started ==> p.rebinds[r].name == p.started[r])
    && (forall r :: r in p.started || r in p.rebinds ==> Settled(g, r))
  }

  /** A round writes the context of its own name only. */
  lemma RoundWritesNoStale(s: State, q: Id, ok: bool, port: int)
    requires NoStaleContexts(s.registry, s.ports) && StartedNamed(s.registry, s.ports)
    requires s.registry.namespaces == s.registry.exitStacks && q in s.ports.rebinds && Fine(s, q)
    ensures s.ports.rebinds[q].phase.Sleeping? ==>
              NoStaleContexts(s.registry, WakeRebind(s, q).ports) && StartedNamed(s.registry, WakeRebind(s, q).ports)
    ensures InLeasing(s, q) ==>
              NoStaleContexts(s.registry, LeaseNext(s, q, ok, port).ports) && StartedNamed(s.registry, LeaseNext(s, q, ok, port).ports)
  {
    var n := s.ports.rebinds[q].name;
    assert n in s.registry.namespaces || StartedName(s.ports, n) by {
      if Orphan(s, q) {
        assert s.ports.started[q] == n;
      }
    }
    if s.ports.rebinds[q].phase.Sleeping? {
      WakeOnlyRound(s, q);
      RoundIsNoStale(s, WakeRebind(s, q), q);
    }
    if InLeasing(s, q) && ok {
      LeaseOnlyRound(s, q, port);
      LeaseWrites(s, q, port);
      RoundIsNoStale(s, LeaseNext(s, q, ok, port), q);
    }
  }

  lemma LeaseWrites(s: State, q: Id, port: int)
    requires InLeasing(s, q)
    ensures LeaseNext(s, q, true, port).ports.contexts.Keys <= s.ports.contexts.Keys + {s.ports.rebinds[q].name}
  {
  }

  lemma RoundIsNoStale(s: State, s': State, q: Id)
    requires NoStaleContexts(s.registry, s.ports) && StartedNamed(s.registry, s.ports)
    requires q in s.ports.rebinds && OnlyRound(s, s', q)
    requires s'.ports.contexts.Keys <= s.ports.contexts.Keys + {s.ports.rebinds[q].name}
    requires s.ports.rebinds[q].name in s.registry.namespaces || StartedName(s.ports, s.ports.rebinds[q].name)
    ensures NoStaleContexts(s.registry, s'.ports) && StartedNamed(s.registry, s'.ports)
  {
    forall n | n in s'.ports.contexts ensures n in s.registry.namespaces || StartedName(s'.ports, n) {
      assert n in s'.ports.contexts.Keys;
      assert StartedName(s'.ports, n) <==> StartedName(s.ports, n);
    }
  }

  lemma DestroyLeavesNoStale(s: State, name: TunnelName, mustWait: bool)
    requires RegistryInv(s.registry) && NoStaleContexts(s.registry, s.ports) && StartedNamed(s.registry, s.ports)
    ensures var s' := StartDestroy(s, name, mustWait);
            NoStaleContexts(s'.registry, s'.ports) && StartedNamed(s'.registry, s'.ports)
  {
    var s' := StartDestroy(s, name, mustWait);
    DestroyShape(s, name, mustWait);
    DestroyRecords(s, name, mustWait);
    assert forall n :: StartedName(s'.ports, n) <==> StartedName(s.ports, n);
    forall r | r in s'.ports.rebinds ensures r in s.ports.rebinds && s'.ports.rebinds[r] == s.ports.rebinds[r] {
      DestroyRebinds(s, name, mustWait, r);
    }
  }

  lemma StepLeavesNoStale(s: State, e: Event)
    requires LeaseInv(s) && NoStaleContexts(s.registry, s.ports) && StartedNamed(s.registry, s.ports)
    requires Enabled(s, e) && Calm(s, e)
    ensures NoStaleContexts(Step(s, e).registry, Step(s, e).ports) && StartedNamed(Step(s, e).registry, Step(s, e).ports)
  {
    if e.RebindWake? {
      RoundWritesNoStale(s, e.rebind, true, 0);
    } else if e.RebindLease? {
      RoundWritesNoStale(s, e.rebind, e.ok, e.port);
    } else if e.DestroyStart? {
      DestroyLeavesNoStale(s, e.name, e.mustWait);
    } else if e.Register? {
      assert TaskOk(s.registry, e.setup);
      RegisterLeavesNoStale(s, e.setup, e.fields);
    } else {
      OthersLeaveNoStale(s, e);
    }
  }

  lemma RegisterLeavesNoStale(s: State, t: Id, fields: nat)
    requires NoStaleContexts(s.registry, s.ports) && StartedNamed(s.registry, s.ports)
    requires InSetup(s, t) && t in s.registry.owner && s.registry.owner[t] == BySetup
    ensures var s' := RegisterTunnel(s, t, fields);
            NoStaleContexts(s'.registry, s'.ports) && StartedNamed(s'.registry, s'.ports)
  {
    var s' := RegisterTunnel(s, t, fields);
    forall n | n in s'.ports.contexts ensures n in s'.registry.namespaces || StartedName(s'.ports, n) {
      if n in s.ports.contexts && n !in s.registry.namespaces {
        var id :| id in s.ports.started && s.ports.started[id] == n;
        assert id in s'.ports.started && s'.ports.started[id] == n;
      }
    }
  }

  lemma OthersLeaveNoStale(s: State, e: Event)
    requires NoStaleContexts(s.registry, s.ports) && StartedNamed(s.registry, s.ports) && RegistryInv(s.registry)
    requires Enabled(s, e) && !e.RebindWake? && !e.RebindLease? && !e.DestroyStart? && !e.Register?
    ensures NoStaleContexts(Step(s, e).registry, Step(s, e).ports) && StartedNamed(Step(s, e).registry, Step(s, e).ports)
  {
    assert forall n :: StartedName(s.ports, n) <==> StartedName(Step(s, e).ports, n);
    match e
    case CloseEnd(t) => assert TaskOk(s.registry, t);
    case _ =>
  }

  lemma {:induction false} RunLeavesNoStale(s: State, events: seq<Event>, s': State)
    requires LeaseInv(s) && ContextInv(s) && CalmRun(s, events, s')
    requires NoStaleContexts(s.registry, s.ports) && StartedNamed(s.registry, s.ports)
    ensures ContextInv(s') && NoStaleContexts(s'.registry, s'.ports)
    decreases |events|
  {
    if events != [] {
      StepKeepsLeases(s, events[0]);
      CalmStepKeepsContexts(s, events[0]);
      StepLeavesNoStale(s, events[0]);
      RunLeavesNoStale(Step(s, events[0]), events[1..], s');
    }
  }

  /** Calm events keep setups of one name apart; a refused one changes nothing. */
  lemma CalmStepKeepsContexts(s: State, e: Event)
    requires ContextInv(s) && Enabled(s, e) && Calm(s, e)
    ensures ContextInv(Step(s, e))
  {
    if e.SetupStart? && e.name in s.registry.namespaces {
      assert Step(s, e) == s;
    } else {
      StepKeepsContexts(s, e);
    }
  }

  /** Over such runs every registered tunnel has a context; and of the names that
      `handle_start_tunnel` has never registered, exactly the registered ones have. */
  lemma ContextsAreTheRegistered(events: seq<Event>, s: State, n: TunnelName)
    requires CalmRun(START, events, s)
    ensures n in s.registry.namespaces ==> n in s.ports.contexts
    ensures !StartedName(s.ports, n) ==> (n in s.ports.contexts <==> n in s.registry.namespaces)
  {
    StartInv();
    RunKeepsLeases(START, events, s);
    RunLeavesNoStale(START, events, s);
  }
}

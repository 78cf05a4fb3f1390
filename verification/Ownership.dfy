/** Who owns what the host holds, over every interleaving of setups, teardowns and rebinds. */
module Ownership {
  import opened Prelude
  import opened Tunnels

  // ------------------------------------------------------------------ what is held is on one stack

  predicate OnStack(stack: Stack, token: nat) {
    exists i :: 0 <= i < |stack| && stack[i].token == token
  }

  /** Entered later means higher on the stack. */
  predicate Ordered(stack: Stack) {
    forall i, j :: 0 <= i < j < |stack| ==> stack[i].token < stack[j].token
  }

  ghost predicate StackHeld(w: World, id: Id)
    requires id in w.stacks
  {
    && Ordered(w.stacks[id])
    && forall i :: 0 <= i < |w.stacks[id]| ==>
         var r := w.stacks[id][i]; r.token in w.held && w.held[r.token] == Held(id, r.kind)
  }

  ghost predicate HeldOnStack(w: World, token: nat)
    requires token in w.held
  {
    token < w.nextToken && w.held[token].stack in w.stacks && OnStack(w.stacks[w.held[token].stack], token)
  }

  /** What is held is on exactly one stack, at exactly one place. */
  ghost predicate HeldInv(w: World) {
    && (forall id :: id in w.stacks ==> StackHeld(w, id))
    && (forall token :: token in w.held ==> HeldOnStack(w, token))
  }

  /** A link exists exactly while the entry that created it is held. */
  ghost predicate LinkInv(w: World) {
    && (forall token :: token in w.held && w.held[token].kind.Link? ==>
          w.held[token].kind.slot in w.links && w.links[w.held[token].kind.slot] == token)
    && (forall slot :: slot in w.links ==> w.links[slot] in w.held && w.held[w.links[slot]].kind == Link(slot))
  }

  ghost predicate WorldInv(w: World) {
    HeldInv(w) && LinkInv(w)
  }

  lemma PushLeaves(w: World, stack: Id, kind: Kind, token: nat)
    requires HeldInv(w) && stack in w.stacks && token in w.held
    ensures HeldOnStack(Push(w, stack, kind), token)
  {
    assert HeldOnStack(w, token);
    var home := w.held[token].stack;
    var i :| 0 <= i < |w.stacks[home]| && w.stacks[home][i].token == token;
    assert Push(w, stack, kind).stacks[home][i].token == token;
  }

  lemma PushKeepsStacks(w: World, stack: Id, kind: Kind, id: Id)
    requires HeldInv(w) && stack in w.stacks && id in w.stacks
    ensures StackHeld(Push(w, stack, kind), id)
  {
    assert StackHeld(w, id);
    assert forall token :: token in w.held ==> HeldOnStack(w, token);
  }

  lemma PushKeepsWorld(w: World, stack: Id, kind: Kind)
    requires WorldInv(w) && stack in w.stacks && CanEnter(w, kind)
    ensures WorldInv(Push(w, stack, kind))
  {
    var w' := Push(w, stack, kind);
    forall id | id in w'.stacks ensures StackHeld(w', id) {
      PushKeepsStacks(w, stack, kind, id);
    }
    forall token | token in w'.held ensures HeldOnStack(w', token) {
      if token == w.nextToken {
        assert w'.stacks[stack][|w.stacks[stack]|].token == token;
      } else {
        PushLeaves(w, stack, kind, token);
      }
    }
  }

  /** Removing the last entry of one stack leaves every other token where it was. */
  lemma PopLeaves(w: World, stack: Id, token: nat)
    requires HeldInv(w) && stack in w.stacks && w.stacks[stack] != []
    requires token in Pop(w, stack).held
    ensures HeldOnStack(Pop(w, stack), token)
  {
    var w' := Pop(w, stack);
    assert HeldOnStack(w, token);
    var home := w.held[token].stack;
    var i :| 0 <= i < |w.stacks[home]| && w.stacks[home][i].token == token;
    assert w'.stacks[home][i].token == token;
  }

  lemma PopKeepsWorld(w: World, stack: Id)
    requires WorldInv(w) && stack in w.stacks && w.stacks[stack] != []
    ensures WorldInv(Pop(w, stack))
  {
    var w' := Pop(w, stack);
    assert StackHeld(w, stack);
    forall id | id in w'.stacks ensures StackHeld(w', id) {
      assert StackHeld(w, id);
    }
    forall token | token in w'.held ensures HeldOnStack(w', token) {
      PopLeaves(w, stack, token);
    }
  }

  lemma NewStackKeepsWorld(w: World, id: Id)
    requires WorldInv(w) && id !in w.stacks
    ensures WorldInv(w.(stacks := w.stacks[id := []]))
  {
    var w' := w.(stacks := w.stacks[id := []]);
    forall k | k in w'.stacks ensures StackHeld(w', k) {
      if k != id {
        assert StackHeld(w, k);
      }
    }
    forall token | token in w'.held ensures HeldOnStack(w', token) {
      assert HeldOnStack(w, token);
    }
  }

  // ------------------------------------------------------------------ every stack has one owner

  ghost predicate OwnerOk(g: Registry, id: Id)
    requires id in g.owner
  {
    match g.owner[id]
    case BySetup => id in g.tasks && g.tasks[id].SettingUp?
    case ByName(n) => n in g.exitStacks && g.exitStacks[n] == id
    case ByCloser(t) => t in g.tasks && g.tasks[t] == Closing(id)
    case Nobody => true
  }

  ghost predicate TaskOk(g: Registry, t: Id)
    requires t in g.tasks
  {
    match g.tasks[t]
    case SettingUp(_, _, _, _) => t in g.owner && g.owner[t] == BySetup
    case Closing(stack) => stack in g.owner && g.owner[stack] == ByCloser(t)
    case Destroying(_) => t !in g.owner
  }

  ghost predicate RegistryInv(g: Registry) {
    && (forall id :: id in g.owner ==> id < g.nextId && OwnerOk(g, id))
    && (forall t :: t in g.tasks ==> t < g.nextId && TaskOk(g, t))
    && (forall n :: n in g.exitStacks ==> g.exitStacks[n] in g.owner && g.owner[g.exitStacks[n]] == ByName(n))
    && g.namespaces == g.exitStacks
  }

  lemma BeginKeepsRegistry(g: Registry, task: Task)
    requires RegistryInv(g) && task.SettingUp?
    ensures RegistryInv(Begin(g, task))
  {
    var g' := Begin(g, task);
    forall id | id in g'.owner ensures OwnerOk(g', id) {
      assert id in g.owner ==> OwnerOk(g, id);
    }
    forall t | t in g'.tasks ensures TaskOk(g', t) {
      assert t in g.tasks ==> TaskOk(g, t);
    }
  }

  lemma AbandonKeepsRegistry(g: Registry, t: Id)
    requires RegistryInv(g) && t in g.tasks && g.tasks[t].SettingUp?
    ensures RegistryInv(Abandon(g, t))
  {
    var g' := Abandon(g, t);
    assert TaskOk(g, t);
    forall id | id in g'.owner ensures OwnerOk(g', id) {
      assert id in g.owner ==> OwnerOk(g, id);
    }
    forall u | u in g'.tasks ensures TaskOk(g', u) {
      assert u in g.tasks ==> TaskOk(g, u);
    }
  }

  lemma FileKeepsRegistry(g: Registry, t: Id, task: Task)
    requires RegistryInv(g) && t in g.tasks && g.tasks[t].SettingUp? && task.SettingUp?
    ensures RegistryInv(g.(tasks := g.tasks[t := task]))
  {
    var g' := g.(tasks := g.tasks[t := task]);
    forall id | id in g'.owner ensures OwnerOk(g', id) {
      assert OwnerOk(g, id);
    }
    forall u | u in g'.tasks ensures TaskOk(g', u) {
      assert TaskOk(g, u);
    }
  }

  lemma PublishKeepsRegistry(g: Registry, name: TunnelName, t: Id)
    requires RegistryInv(g) && t in g.tasks && g.tasks[t].SettingUp? && name !in g.exitStacks
    ensures RegistryInv(Publish(g, name, t))
  {
    var g' := Publish(g, name, t);
    assert TaskOk(g, t);
    forall id | id in g'.owner ensures OwnerOk(g', id) {
      assert OwnerOk(g, id);
    }
    forall u | u in g'.tasks ensures TaskOk(g', u) {
      assert TaskOk(g, u);
    }
  }

  lemma SuspendKeepsRegistry(g: Registry, name: TunnelName)
    requires RegistryInv(g)
    ensures RegistryInv(Suspend(g, name)) && RegistryInv(g.(nextId := g.nextId + 1))
  {
    var g', g1 := Suspend(g, name), g.(nextId := g.nextId + 1);
    forall id | id in g.owner ensures OwnerOk(g', id) && OwnerOk(g1, id) {
      assert OwnerOk(g, id);
    }
    forall u | u in g'.tasks ensures TaskOk(g', u) {
      assert u in g.tasks ==> TaskOk(g, u);
    }
    forall u | u in g1.tasks ensures TaskOk(g1, u) {
      assert TaskOk(g, u);
    }
  }

  lemma UnpublishKeepsOwner(g: Registry, name: TunnelName, t: Id, id: Id)
    requires RegistryInv(g) && t !in g.owner && (t in g.tasks ==> g.tasks[t].Destroying?)
    requires id in Unpublish(g, name, t).owner
    ensures OwnerOk(Unpublish(g, name, t), id) && id < g.nextId
  {
    assert OwnerOk(g, id);
  }

  lemma UnpublishKeepsTask(g: Registry, name: TunnelName, t: Id, u: Id)
    requires RegistryInv(g) && t !in g.owner && (t in g.tasks ==> g.tasks[t].Destroying?)
    requires u in Unpublish(g, name, t).tasks
    ensures TaskOk(Unpublish(g, name, t), u)
  {
    assert u in g.tasks ==> TaskOk(g, u);
  }

  lemma UnpublishKeepsRegistry(g: Registry, name: TunnelName, t: Id)
    requires RegistryInv(g) && t < g.nextId && t !in g.owner
    requires t in g.tasks ==> g.tasks[t].Destroying?
    ensures RegistryInv(Unpublish(g, name, t))
  {
    var g' := Unpublish(g, name, t);
    forall id | id in g'.owner ensures id < g'.nextId && OwnerOk(g', id) {
      UnpublishKeepsOwner(g, name, t, id);
    }
    forall u | u in g'.tasks ensures TaskOk(g', u) {
      UnpublishKeepsTask(g, name, t, u);
    }
  }

  lemma ConcludeKeepsRegistry(g: Registry, t: Id)
    requires RegistryInv(g) && t in g.tasks && g.tasks[t].Closing?
    ensures RegistryInv(Conclude(g, t))
  {
    var g' := Conclude(g, t);
    assert TaskOk(g, t);
    forall id | id in g'.owner ensures OwnerOk(g', id) {
      assert OwnerOk(g, id);
    }
    forall u | u in g'.tasks ensures TaskOk(g', u) {
      assert TaskOk(g, u);
    }
  }

  // ------------------------------------------------------------------ what is on a stack, by its owner

  predicate OnlyLeases(stack: Stack) {
    forall i :: 0 <= i < |stack| ==> stack[i].kind == PortLease
  }

  predicate HoldsLinkOf(stack: Stack, name: TunnelName) {
    |stack| >= 2 && stack[1].kind == Link(Slot(name))
  }

  /** A setup has entered a prefix of its plan, in order; the second entry is its name's link. */
  predicate FollowsPlan(stack: Stack, task: Task) {
    && task.SettingUp? && |stack| <= |PlanOf(task)|
    && forall i :: 0 <= i < |stack| ==> stack[i].kind == PlanOf(task)[i]
  }

  predicate Fits(stack: Stack, g: Registry, id: Id)
    requires id in g.owner
  {
    match g.owner[id]
    case BySetup => id in g.tasks && FollowsPlan(stack, g.tasks[id])
    case ByName(n) => HoldsLinkOf(stack, n)
    case ByCloser(_) => true
    case Nobody => OnlyLeases(stack)
  }

  ghost predicate StacksFit(w: World, g: Registry) {
    w.stacks.Keys == g.owner.Keys && forall id :: id in w.stacks ==> Fits(w.stacks[id], g, id)
  }

  /** A rebind pushes only onto a stack that has been registered. */
  ghost predicate TargetsSettled(g: Registry, p: Ports) {
    forall r :: r in p.rebinds && p.rebinds[r].phase.Leasing? ==> Settled(g, p.rebinds[r].phase.target)
  }

  predicate Settled(g: Registry, id: Id) {
    id in g.owner && g.owner[id] != BySetup
  }

  ghost predicate Inv(s: State) {
    WorldInv(s.world) && RegistryInv(s.registry) && StacksFit(s.world, s.registry) && TargetsSettled(s.registry, s.ports)
  }

  /** Two stacks that hold the link of one name are the same stack. */
  lemma OneLinkPerName(w: World, a: Id, b: Id, name: TunnelName)
    requires WorldInv(w) && a in w.stacks && b in w.stacks
    requires HoldsLinkOf(w.stacks[a], name) && HoldsLinkOf(w.stacks[b], name)
    ensures a == b
  {
    assert StackHeld(w, a) && StackHeld(w, b);
    assert w.held[w.stacks[a][1].token] == Held(a, Link(Slot(name)));
    assert w.held[w.stacks[b][1].token] == Held(b, Link(Slot(name)));
  }

  /** A setup that has run its whole plan holds its name's link. */
  lemma FullPlanHoldsLink(stack: Stack, task: Task)
    requires FollowsPlan(stack, task) && |stack| == |PlanOf(task)|
    ensures HoldsLinkOf(stack, task.name)
  {
  }

  /** However setups of one name overlap, registering never overwrites a registered stack. */
  lemma RegisterNeverOverwrites(s: State, t: Id)
    requires Inv(s) && InSetup(s, t) && |s.world.stacks[t]| == |PlanOf(s.registry.tasks[t])|
    ensures s.registry.tasks[t].name !in s.registry.exitStacks
    ensures s.registry.tasks[t].name !in s.registry.namespaces
  {
    var g, name := s.registry, s.registry.tasks[t].name;
    assert TaskOk(g, t) && Fits(s.world.stacks[t], g, t);
    FullPlanHoldsLink(s.world.stacks[t], g.tasks[t]);
    if name in g.exitStacks {
      assert Fits(s.world.stacks[g.exitStacks[name]], g, g.exitStacks[name]);
      OneLinkPerName(s.world, t, g.exitStacks[name], name);
      assert false;
    }
  }

  // ------------------------------------------------------------------ every step keeps the invariant

  /** Pushing: a setup's stack gets the next kind of its plan, a settled one gets a port lease. */
  lemma PushKeepsFit(w: World, g: Registry, stack: Id, kind: Kind)
    requires StacksFit(w, g) && stack in w.stacks
    requires g.owner[stack] == BySetup ==>
               |w.stacks[stack]| < |PlanOf(g.tasks[stack])| && kind == PlanOf(g.tasks[stack])[|w.stacks[stack]|]
    requires g.owner[stack] != BySetup ==> kind == PortLease
    ensures StacksFit(Push(w, stack, kind), g)
  {
    var w' := Push(w, stack, kind);
    forall id | id in w'.stacks ensures Fits(w'.stacks[id], g, id) {
      assert Fits(w.stacks[id], g, id);
    }
  }

  lemma FileKeepsFit(w: World, g: Registry, t: Id, port: int, entered: nat)
    requires StacksFit(w, g) && t in g.tasks && g.tasks[t].SettingUp?
    ensures var g' := g.(tasks := g.tasks[t := File(g.tasks[t], entered, port)]); StacksFit(w, g')
  {
    var g' := g.(tasks := g.tasks[t := File(g.tasks[t], entered, port)]);
    forall id | id in w.stacks ensures Fits(w.stacks[id], g', id) {
      assert Fits(w.stacks[id], g, id);
    }
  }

  lemma StartSetupKeeps(s: State, name: TunnelName, request: Request, hasServer: bool)
    requires Inv(s)
    ensures Inv(StartSetup(s, name, request, hasServer))
  {
    var s' := StartSetup(s, name, request, hasServer);
    if s' != s {
      BeginKeepsRegistry(s.registry, SettingUp(name, request, hasServer, map[]));
      NewStackKeepsWorld(s.world, s.registry.nextId);
      forall id | id in s'.world.stacks ensures Fits(s'.world.stacks[id], s'.registry, id) {
        assert id in s.world.stacks ==> Fits(s.world.stacks[id], s.registry, id);
      }
      assert forall id :: Settled(s.registry, id) ==> Settled(s'.registry, id);
    }
  }

  /** From one registry to the next, every stack still fits and settled stacks stay settled. */
  ghost predicate Hands(w: World, g: Registry, g': Registry) {
    && StacksFit(w, g')
    && forall id :: Settled(g, id) ==> Settled(g', id)
  }

  lemma AbandonHands(w: World, g: Registry, t: Id)
    requires StacksFit(w, g) && t in g.owner
    ensures Hands(w, g, Abandon(g, t))
  {
    forall id | id in w.stacks ensures Fits(w.stacks[id], Abandon(g, t), id) {
      assert Fits(w.stacks[id], g, id);
    }
  }

  lemma PublishHands(w: World, g: Registry, name: TunnelName, t: Id)
    requires StacksFit(w, g) && t in g.owner && HoldsLinkOf(w.stacks[t], name)
    requires forall id :: id in g.owner && g.owner[id] == BySetup && id in g.tasks ==> g.tasks[id].SettingUp?
    ensures Hands(w, g, Publish(g, name, t))
  {
    forall id | id in w.stacks ensures Fits(w.stacks[id], Publish(g, name, t), id) {
      assert Fits(w.stacks[id], g, id);
    }
  }

  lemma UnpublishHands(w: World, g: Registry, name: TunnelName, t: Id)
    requires StacksFit(w, g) && t !in g.owner
    requires name in g.exitStacks ==> g.exitStacks[name] in g.owner
    ensures Hands(w, g, Unpublish(g, name, t))
  {
    forall id | id in w.stacks ensures Fits(w.stacks[id], Unpublish(g, name, t), id) {
      assert Fits(w.stacks[id], g, id);
    }
  }

  lemma SuspendHands(w: World, g: Registry, name: TunnelName)
    requires StacksFit(w, g) && g.nextId !in g.owner
    ensures Hands(w, g, Suspend(g, name))
  {
    forall id | id in w.stacks ensures Fits(w.stacks[id], Suspend(g, name), id) {
      assert Fits(w.stacks[id], g, id);
    }
  }

  lemma CountHands(w: World, g: Registry)
    requires StacksFit(w, g)
    ensures Hands(w, g, g) && Hands(w, g, g.(nextId := g.nextId + 1))
  {
    forall id | id in w.stacks ensures Fits(w.stacks[id], g.(nextId := g.nextId + 1), id) {
      assert Fits(w.stacks[id], g, id);
    }
  }

  lemma ConcludeHands(w: World, g: Registry, t: Id)
    requires StacksFit(w, g) && t in g.tasks && g.tasks[t].Closing?
    requires g.tasks[t].stack in g.owner && w.stacks[g.tasks[t].stack] == []
    ensures Hands(w, g, Conclude(g, t))
  {
    forall id | id in w.stacks ensures Fits(w.stacks[id], Conclude(g, t), id) {
      assert Fits(w.stacks[id], g, id);
    }
  }

  /** Steps that only change who owns what. */
  lemma RegistryStepKeeps(s: State, s': State)
    requires Inv(s) && s'.world == s.world && RegistryInv(s'.registry) && Hands(s.world, s.registry, s'.registry)
    requires forall r :: r in s'.ports.rebinds && s'.ports.rebinds[r].phase.Leasing? ==>
               r in s.ports.rebinds && s'.ports.rebinds[r] == s.ports.rebinds[r]
    ensures Inv(s')
  {
  }

  lemma FailSetupKeeps(s: State, t: Id)
    requires Inv(s) && InSetup(s, t)
    ensures Inv(FailSetup(s, t))
  {
    assert TaskOk(s.registry, t);
    AbandonKeepsRegistry(s.registry, t);
    AbandonHands(s.world, s.registry, t);
    RegistryStepKeeps(s, FailSetup(s, t));
  }

  lemma AcquireKeeps(s: State, t: Id, ok: bool, port: int)
    requires Inv(s) && Enabled(s, Acquire(t, ok, port))
    ensures Inv(AcquireNext(s, t, ok, port))
  {
    var task, entered := s.registry.tasks[t], |s.world.stacks[t]|;
    assert TaskOk(s.registry, t);
    if ok && CanEnter(s.world, PlanOf(task)[entered]) {
      PushKeepsWorld(s.world, t, PlanOf(task)[entered]);
      PushKeepsFit(s.world, s.registry, t, PlanOf(task)[entered]);
      FileKeepsRegistry(s.registry, t, File(task, entered, port));
      FileKeepsFit(Push(s.world, t, PlanOf(task)[entered]), s.registry, t, port, entered);
    } else {
      FailSetupKeeps(s, t);
    }
  }

  /** What a registration does to the rebind tasks: at most one new one, asleep. */
  lemma RegisterPorts(s: State, t: Id, fields: nat, r: Id)
    requires InSetup(s, t) && r in RegisterTunnel(s, t, fields).ports.rebinds
    ensures var rebind := RegisterTunnel(s, t, fields).ports.rebinds[r];
            rebind.phase.Leasing? ==> r in s.ports.rebinds && rebind == s.ports.rebinds[r]
  {
  }

  lemma RegisterKeeps(s: State, t: Id, fields: nat)
    requires Inv(s) && Enabled(s, Register(t, fields))
    ensures Inv(RegisterTunnel(s, t, fields))
  {
    var s' := RegisterTunnel(s, t, fields);
    forall r | r in s'.ports.rebinds && s'.ports.rebinds[r].phase.Leasing?
      ensures r in s.ports.rebinds && s'.ports.rebinds[r] == s.ports.rebinds[r]
    {
      RegisterPorts(s, t, fields, r);
    }
    var g, name := s.registry, s.registry.tasks[t].name;
    assert TaskOk(g, t) && Fits(s.world.stacks[t], g, t);
    FullPlanHoldsLink(s.world.stacks[t], g.tasks[t]);
    RegisterNeverOverwrites(s, t);
    PublishKeepsRegistry(g, name, t);
    PublishHands(s.world, g, name, t);
    RegistryStepKeeps(s, s');
  }

  lemma NextLeaseSettled(g: Registry, p: Ports, r: Id, base: Context, todo: seq<string>, renewed: map<string, int>)
    requires RegistryInv(g) && TargetsSettled(g, p) && r in p.rebinds
    ensures TargetsSettled(g, NextLease(p, g.exitStacks, r, base, todo, renewed))
  {
  }

  lemma RebindKeeps(s: State, e: Event)
    requires Inv(s) && Enabled(s, e) && (e.RebindWake? || e.RebindLease? || e.RebindCancel?)
    ensures Inv(Step(s, e))
  {
    match e
    case RebindWake(r) =>
      var name := s.ports.rebinds[r].name;
      if name in s.ports.contexts && s.ports.contexts[name].canForward {
        NextLeaseSettled(s.registry, s.ports, r, s.ports.contexts[name], s.ports.contexts[name].names, map[]);
      }
    case RebindLease(r, ok, port) =>
      var phase := s.ports.rebinds[r].phase;
      if ok {
        PushKeepsWorld(s.world, phase.target, PortLease);
        PushKeepsFit(s.world, s.registry, phase.target, PortLease);
        NextLeaseSettled(s.registry, s.ports, r, phase.base, phase.todo[1..], phase.renewed[phase.todo[0] := port]);
      }
    case RebindCancel(r) =>
  }

  lemma PopTunnelKeeps(s: State, name: TunnelName, t: Id)
    requires Inv(s) && t < s.registry.nextId && t !in s.registry.owner
    requires t in s.registry.tasks ==> s.registry.tasks[t].Destroying?
    ensures Inv(PopTunnel(s, name, t))
  {
    UnpublishKeepsRegistry(s.registry, name, t);
    UnpublishHands(s.world, s.registry, name, t);
    RegistryStepKeeps(s, PopTunnel(s, name, t));
  }

  lemma SuspendKeeps(s: State, s': State, name: TunnelName)
    requires Inv(s) && s'.world == s.world
    requires s'.registry == Suspend(s.registry, name) || s'.registry == s.registry.(nextId := s.registry.nextId + 1) || s'.registry == s.registry
    requires forall r :: r in s'.ports.rebinds ==> r in s.ports.rebinds && s'.ports.rebinds[r] == s.ports.rebinds[r]
    ensures Inv(s')
  {
    SuspendKeepsRegistry(s.registry, name);
    assert s.registry.nextId !in s.registry.owner;
    SuspendHands(s.world, s.registry, name);
    CountHands(s.world, s.registry);
    RegistryStepKeeps(s, s');
  }

  lemma PopAtOnceKeeps(s: State, name: TunnelName)
    requires Inv(s)
    ensures Inv(DestroyOn(s, name, false))
  {
    var s1 := s.(registry := s.registry.(nextId := s.registry.nextId + 1));
    assert s.registry.nextId !in s.registry.owner && s.registry.nextId !in s.registry.tasks;
    SuspendKeeps(s, s1, name);
    PopTunnelKeeps(s1, name, s.registry.nextId);
  }

  lemma WaitKeeps(s: State, name: TunnelName)
    requires Inv(s)
    ensures Inv(DestroyOn(s, name, true))
  {
    SuspendKeeps(s, DestroyOn(s, name, true), name);
  }

  lemma DestroyOnKeeps(s: State, name: TunnelName, mustWait: bool)
    requires Inv(s)
    ensures Inv(DestroyOn(s, name, mustWait))
  {
    if mustWait {
      WaitKeeps(s, name);
    } else {
      PopAtOnceKeeps(s, name);
    }
  }

  lemma DestroyStartKeeps(s: State, name: TunnelName, mustWait: bool)
    requires Inv(s)
    ensures Inv(StartDestroy(s, name, mustWait))
  {
    var s1 := s.(ports := s.ports.(rebindTasks := s.ports.rebindTasks - {name}));
    SuspendKeeps(s, s1, name);
    DestroyOnKeeps(s1, name, mustWait);
    var s' := StartDestroy(s, name, mustWait);
    if s' != s1 && s' != DestroyOn(s1, name, mustWait) {
      SuspendKeeps(s, s', name);
    }
  }

  lemma CloseKeeps(s: State, e: Event)
    requires Inv(s) && Enabled(s, e) && (e.CloseOne? || e.CloseEnd?)
    ensures Inv(Step(s, e))
  {
    assert TaskOk(s.registry, e.closer);
    var stack := s.registry.tasks[e.closer].stack;
    if e.CloseOne? {
      PopKeepsWorld(s.world, stack);
      forall id | id in s.world.stacks ensures Fits(Step(s, e).world.stacks[id], s.registry, id) {
        assert Fits(s.world.stacks[id], s.registry, id);
      }
    } else {
      ConcludeKeepsRegistry(s.registry, e.closer);
      ConcludeHands(s.world, s.registry, e.closer);
      RegistryStepKeeps(s, Step(s, e));
    }
  }

  lemma StepKeeps(s: State, e: Event)
    requires Inv(s) && Enabled(s, e)
    ensures Inv(Step(s, e))
  {
    match e
    case SetupStart(name, request, hasServer) => StartSetupKeeps(s, name, request, hasServer);
    case Acquire(t, ok, port) => AcquireKeeps(s, t, ok, port);
    case SetupFail(t) => FailSetupKeeps(s, t);
    case Register(t, fields) => RegisterKeeps(s, t, fields);
    case RebindWake(_) => RebindKeeps(s, e);
    case RebindLease(_, _, _) => RebindKeeps(s, e);
    case RebindCancel(_) => RebindKeeps(s, e);
    case DestroyStart(name, mustWait) => DestroyStartKeeps(s, name, mustWait);
    case DestroyResume(t) =>
      assert TaskOk(s.registry, t);
      PopTunnelKeeps(s, s.registry.tasks[t].name, t);
    case CloseOne(_) => CloseKeeps(s, e);
    case CloseEnd(_) => CloseKeeps(s, e);
  }

  lemma {:induction false} RunKeeps(s: State, events: seq<Event>, s': State)
    requires Inv(s) && Run(s, events, s')
    ensures Inv(s')
    decreases |events|
  {
    if events != [] {
      StepKeeps(s, events[0]);
      RunKeeps(Step(s, events[0]), events[1..], s');
    }
  }

  lemma StartInv()
    ensures Inv(START)
  {
  }

  // ------------------------------------------------------------------ the theorems

  /** `o` is in a position to close stack `id`: the setup still building it, the registry entry
      of a name, or a task that is unwinding it. */
  predicate Responsible(g: Registry, o: Owner, id: Id) {
    match o
    case BySetup => id in g.tasks && g.tasks[id].SettingUp?
    case ByName(n) => n in g.exitStacks && g.exitStacks[n] == id
    case ByCloser(t) => t in g.tasks && g.tasks[t] == Closing(id)
    case Nobody => false
  }

  /** Over every run, whatever fails and however calls overlap: each resource the host holds is
      at exactly one place of exactly one stack; no two owners are responsible for one stack;
      and a stack that nobody will close carries nothing but port leases. */
  lemma EveryResourceHasOneOwner(events: seq<Event>, s: State, token: nat, o: Owner, o': Owner, id: Id)
    requires Run(START, events, s)
    ensures token in s.world.held ==> HeldOnStack(s.world, token)
    ensures id in s.world.stacks ==> Ordered(s.world.stacks[id])
    ensures id in s.world.stacks && OnStack(s.world.stacks[id], token) ==>
              token in s.world.held && s.world.held[token].stack == id
    ensures Responsible(s.registry, o, id) && Responsible(s.registry, o', id) ==> o == o'
    ensures id in s.world.stacks && (forall k :: !Responsible(s.registry, k, id)) ==> OnlyLeases(s.world.stacks[id])
  {
    StartInv();
    RunKeeps(START, events, s);
    var w, g := s.world, s.registry;
    if id in w.stacks {
      assert StackHeld(w, id) && OwnerOk(g, id) && Fits(w.stacks[id], g, id);
      assert g.owner[id] != Nobody ==> Responsible(g, g.owner[id], id);
    }
    if Responsible(g, o, id) {
      ResponsibleIsOwner(g, o, id);
    }
    if Responsible(g, o', id) {
      ResponsibleIsOwner(g, o', id);
    }
  }

  lemma ResponsibleIsOwner(g: Registry, o: Owner, id: Id)
    requires RegistryInv(g) && Responsible(g, o, id)
    ensures id in g.owner && g.owner[id] == o
  {
    match o
    case BySetup => assert TaskOk(g, id);
    case ByName(n) =>
    case ByCloser(t) => assert TaskOk(g, t);
  }

  /** At every suspension point the two registries have the same keys, each key once. */
  lemma RegistriesAgree(events: seq<Event>, s: State)
    requires Run(START, events, s)
    ensures s.registry.namespaces.Keys == s.registry.exitStacks.Keys
    ensures forall m, n :: m in s.registry.exitStacks && n in s.registry.exitStacks && m != n ==>
              s.registry.exitStacks[m] != s.registry.exitStacks[n]
  {
    StartInv();
    RunKeeps(START, events, s);
  }

  /** With nothing registered and nothing in flight, and every release having succeeded, the host
      holds no link and nothing else that a setup enters: at most port leases that a rebind took
      after its tunnel was torn down. */
  lemma IdleHoldsOnlyLateLeases(events: seq<Event>, s: State, token: nat)
    requires Run(START, events, s)
    requires s.registry.exitStacks == map[] && s.registry.tasks == map[]
    ensures token in s.world.held ==> s.world.held[token].kind == PortLease
    ensures s.world.links == map[]
  {
    StartInv();
    RunKeeps(START, events, s);
    forall k | k in s.world.held ensures s.world.held[k].kind == PortLease {
      assert HeldOnStack(s.world, k);
      var id := s.world.held[k].stack;
      assert OwnerOk(s.registry, id) && StackHeld(s.world, id) && Fits(s.world.stacks[id], s.registry, id);
    }
  }

  /** A rebind leases into a stack whose teardown is over. */
  ghost predicate Late(s: State, e: Event)
    requires Enabled(s, e)
  {
    e.RebindLease? && e.ok && TornDown(s.registry, s.ports.rebinds[e.rebind].phase.target)
  }

  predicate TornDown(g: Registry, id: Id) {
    id in g.owner && g.owner[id] == Nobody
  }

  ghost predicate EverLate(s: State, events: seq<Event>)
    decreases |events|
  {
    events != [] && Enabled(s, events[0]) && (Late(s, events[0]) || EverLate(Step(s, events[0]), events[1..]))
  }

  /** A stack that is torn down and yet holds something. */
  predicate FilledAt(s: State, id: Id) {
    TornDown(s.registry, id) && id in s.world.stacks && s.world.stacks[id] != []
  }

  /** Only a late lease fills such a stack, and nothing empties it again. */
  lemma StepFills(s: State, e: Event, id: Id)
    requires Inv(s) && Enabled(s, e)
    ensures FilledAt(Step(s, e), id) <==> FilledAt(s, id) || (Late(s, e) && s.ports.rebinds[e.rebind].phase.target == id)
  {
    if e.Acquire? {
      AcquireFills(s, e.setup, e.ok, e.port, id);
    } else if e.DestroyStart? {
      DestroyFills(s, e.name, e.mustWait, id);
    } else {
      OthersFill(s, e, id);
    }
  }

  lemma AcquireFills(s: State, t: Id, ok: bool, port: int, id: Id)
    requires RegistryInv(s.registry) && Enabled(s, Acquire(t, ok, port))
    ensures FilledAt(AcquireNext(s, t, ok, port), id) <==> FilledAt(s, id)
  {
    assert TaskOk(s.registry, t);
  }

  lemma DestroyFills(s: State, name: TunnelName, mustWait: bool, id: Id)
    requires RegistryInv(s.registry)
    ensures FilledAt(StartDestroy(s, name, mustWait), id) <==> FilledAt(s, id)
  {
    DestroyLeavesWorld(s, name, mustWait);
  }

  lemma OthersFill(s: State, e: Event, id: Id)
    requires RegistryInv(s.registry) && StacksFit(s.world, s.registry) && Enabled(s, e) && !e.Acquire? && !e.DestroyStart?
    ensures FilledAt(Step(s, e), id) <==> FilledAt(s, id) || (Late(s, e) && s.ports.rebinds[e.rebind].phase.target == id)
  {
    match e
    case SetupFail(t) => assert TaskOk(s.registry, t);
    case Register(t, _) => assert TaskOk(s.registry, t);
    case CloseOne(t) => assert TaskOk(s.registry, t);
    case CloseEnd(t) => assert TaskOk(s.registry, t);
    case _ =>
  }

  ghost predicate Filled(s: State) {
    exists id :: FilledAt(s, id)
  }

  lemma {:induction false} RunFills(s: State, events: seq<Event>, s': State)
    requires Inv(s) && Run(s, events, s')
    ensures Filled(s') <==> Filled(s) || EverLate(s, events)
    decreases |events|
  {
    if events != [] {
      var e := events[0];
      forall id ensures FilledAt(Step(s, e), id) <==> FilledAt(s, id) || (Late(s, e) && s.ports.rebinds[e.rebind].phase.target == id) {
        StepFills(s, e, id);
      }
      assert Late(s, e) ==> FilledAt(Step(s, e), s.ports.rebinds[e.rebind].phase.target);
      StepKeeps(s, e);
      RunFills(Step(s, e), events[1..], s');
    }
  }

  /** Exactly when: with nothing registered and nothing in flight, the host holds nothing if and
      only if no rebind of the run has ever leased into a stack whose teardown was over. */
  lemma IdleHoldsNothingIffNoLateLease(events: seq<Event>, s: State)
    requires Run(START, events, s)
    requires s.registry.exitStacks == map[] && s.registry.tasks == map[]
    ensures s.world.held == map[] <==> !EverLate(START, events)
  {
    StartInv();
    RunKeeps(START, events, s);
    RunFills(START, events, s);
    if id :| FilledAt(s, id) {
      assert StackHeld(s.world, id);
      assert s.world.stacks[id][0].token in s.world.held;
    }
    forall token ensures token in s.world.held ==> Filled(s) {
      if token in s.world.held {
        assert HeldOnStack(s.world, token);
        var id := s.world.held[token].stack;
        assert OwnerOk(s.registry, id);
        assert FilledAt(s, id);
      }
    }
    assert !Filled(START);
  }

  /** Last in, first out: whatever else the same setup or its rebinds entered later has been
      released before; and the link that goes is the one this very entry created. */
  lemma ReleasesAreLastInFirstOut(events: seq<Event>, s: State, t: Id, token: nat)
    requires Run(START, events, s) && Enabled(s, CloseOne(t))
    ensures var id := s.registry.tasks[t].stack;
            var top := Top(s.world.stacks[id]);
            && top.token in s.world.held
            && (token in s.world.held && s.world.held[token].stack == id ==> token <= top.token)
            && (top.kind.Link? ==> top.kind.slot in s.world.links && s.world.links[top.kind.slot] == top.token)
  {
    StartInv();
    RunKeeps(START, events, s);
    TopIsNewest(s.world, s.registry.tasks[t].stack, token);
  }

  lemma TopIsNewest(w: World, id: Id, token: nat)
    requires WorldInv(w) && id in w.stacks && w.stacks[id] != []
    ensures var top := Top(w.stacks[id]);
            && top.token in w.held
            && (token in w.held && w.held[token].stack == id ==> token <= top.token)
            && (top.kind.Link? ==> top.kind.slot in w.links && w.links[top.kind.slot] == top.token)
  {
    assert StackHeld(w, id);
    if token in w.held && w.held[token].stack == id {
      assert HeldOnStack(w, token);
    }
  }

  lemma DestroyLeavesWorld(s: State, name: TunnelName, mustWait: bool)
    ensures StartDestroy(s, name, mustWait).world == s.world
  {
  }

  /** Only two kinds of step enter a resource, and each takes a token never used before. */
  lemma StepEntersFresh(s: State, e: Event, token: nat)
    requires Enabled(s, e) && token < s.world.nextToken && token !in s.world.held
    ensures token < Step(s, e).world.nextToken && token !in Step(s, e).world.held
  {
    match e
    case Acquire(t, ok, port) => assert AcquireNext(s, t, ok, port).world == s.world || token != s.world.nextToken;
    case DestroyStart(name, mustWait) => DestroyLeavesWorld(s, name, mustWait);
    case _ =>
  }

  /** What has been released is never held again, so nothing is released twice. */
  lemma {:induction false} ReleasedForGood(s: State, events: seq<Event>, s': State, token: nat)
    requires Run(s, events, s') && token < s.world.nextToken && token !in s.world.held
    ensures token !in s'.world.held
    decreases |events|
  {
    if events != [] {
      StepEntersFresh(s, events[0], token);
      ReleasedForGood(Step(s, events[0]), events[1..], s', token);
    }
  }

  // ------------------------------------------------------------------ one share and one kill switch per link

  /** What works on a tunnel's link sits above that link. */
  predicate NeedsLink(kind: Kind) {
    kind.InternetShare? || kind.VpeerForward? || kind.KillSwitch?
  }

  predicate LinkBelow(stack: Stack) {
    forall i :: 0 <= i < |stack| && NeedsLink(stack[i].kind) ==> i >= 2 && stack[1].kind.Link?
  }

  ghost predicate LinksBelow(w: World) {
    forall id :: id in w.stacks ==> LinkBelow(w.stacks[id])
  }

  lemma PlanPutsLinkBelow(stack: Stack, task: Task)
    requires FollowsPlan(stack, task)
    ensures LinkBelow(stack)
  {
  }

  lemma LeaseKeepsLinksBelow(w: World, id: Id)
    requires LinksBelow(w) && id in w.stacks
    ensures LinksBelow(Push(w, id, PortLease))
  {
    var stack := w.stacks[id];
    assert LinkBelow(stack);
    assert LinkBelow(stack + [Resource(w.nextToken, PortLease)]);
  }

  lemma PopKeepsLinksBelow(w: World, id: Id)
    requires LinksBelow(w) && id in w.stacks && w.stacks[id] != []
    ensures LinksBelow(Pop(w, id))
  {
    var stack := w.stacks[id];
    assert LinkBelow(stack);
    assert LinkBelow(stack[..|stack| - 1]);
  }

  lemma OthersKeepLinksBelow(s: State, e: Event)
    requires LinksBelow(s.world) && Enabled(s, e) && !e.Acquire?
    ensures LinksBelow(Step(s, e).world)
  {
    if e.RebindLease? {
      LeaseKeepsLinksBelow(s.world, s.ports.rebinds[e.rebind].phase.target);
    } else if e.CloseOne? {
      PopKeepsLinksBelow(s.world, s.registry.tasks[e.closer].stack);
    } else if e.DestroyStart? {
      DestroyLeavesWorld(s, e.name, e.mustWait);
    }
  }

  /** Pushes follow the plan or add a lease; pops take from the top. */
  lemma StepKeepsLinksBelow(s: State, e: Event)
    requires Inv(s) && LinksBelow(s.world) && Enabled(s, e)
    ensures LinksBelow(Step(s, e).world)
  {
    if e.Acquire? {
      assert TaskOk(s.registry, e.setup);
      AcquireKeepsLinksBelow(s, e.setup, e.ok, e.port);
    } else {
      OthersKeepLinksBelow(s, e);
    }
  }

  lemma AcquireKeepsLinksBelow(s: State, t: Id, ok: bool, port: int)
    requires Enabled(s, Acquire(t, ok, port)) && LinksBelow(s.world)
    requires StacksFit(s.world, s.registry) && t in s.registry.owner && s.registry.owner[t] == BySetup
    ensures LinksBelow(AcquireNext(s, t, ok, port).world)
  {
    var stack, task := s.world.stacks[t], s.registry.tasks[t];
    assert Fits(stack, s.registry, t);
    if |stack| < |PlanOf(task)| {
      var r := Resource(s.world.nextToken, PlanOf(task)[|stack|]);
      assert FollowsPlan(stack + [r], task);
      PlanPutsLinkBelow(stack + [r], task);
    }
  }

  lemma {:induction false} RunKeepsLinksBelow(s: State, events: seq<Event>, s': State)
    requires Inv(s) && LinksBelow(s.world) && Run(s, events, s')
    ensures Inv(s') && LinksBelow(s'.world)
    decreases |events|
  {
    if events != [] {
      StepKeeps(s, events[0]);
      StepKeepsLinksBelow(s, events[0]);
      RunKeepsLinksBelow(Step(s, events[0]), events[1..], s');
    }
  }

  /** The link that the resource `token` works on is held by the same stack, below it. */
  ghost predicate WorksOn(w: World, token: nat, slot: nat) {
    && token in w.held && w.held[token].stack in w.stacks
    && |w.stacks[w.held[token].stack]| >= 2 && w.stacks[w.held[token].stack][1].kind == Link(slot)
    && w.stacks[w.held[token].stack][1].token < token
  }

  lemma NeedsLinkHasOne(w: World, token: nat)
    requires WorldInv(w) && LinksBelow(w) && token in w.held && NeedsLink(w.held[token].kind)
    ensures exists slot :: WorksOn(w, token, slot) && slot in w.links
  {
    assert HeldOnStack(w, token);
    var id := w.held[token].stack;
    assert StackHeld(w, id) && LinkBelow(w.stacks[id]);
    var slot := w.stacks[id][1].kind.slot;
    assert WorksOn(w, token, slot) && w.held[w.stacks[id][1].token] == Held(id, Link(slot));
  }

  /** Over every run: a share, a port forward and a kill switch are held only while the link they
      work on exists, which was entered before them and is released after them; and what is held
      on one link is on one stack. So no veth ever has two kill switches, or two shares, of
      different tunnels. */
  lemma OneTunnelPerLink(events: seq<Event>, s: State, a: nat, b: nat, slot: nat)
    requires Run(START, events, s)
    requires a in s.world.held && NeedsLink(s.world.held[a].kind)
    ensures exists n :: WorksOn(s.world, a, n) && n in s.world.links
    ensures WorksOn(s.world, a, slot) && WorksOn(s.world, b, slot) ==> s.world.held[a].stack == s.world.held[b].stack
  {
    StartInv();
    RunKeepsLinksBelow(START, events, s);
    NeedsLinkHasOne(s.world, a);
    if WorksOn(s.world, a, slot) && WorksOn(s.world, b, slot) {
      SameLinkSameStack(s.world, s.world.held[a].stack, s.world.held[b].stack, slot);
    }
  }

  lemma SameLinkSameStack(w: World, x: Id, y: Id, slot: nat)
    requires WorldInv(w) && x in w.stacks && y in w.stacks && |w.stacks[x]| >= 2 && |w.stacks[y]| >= 2
    requires w.stacks[x][1].kind == Link(slot) == w.stacks[y][1].kind
    ensures x == y
  {
    assert StackHeld(w, x) && StackHeld(w, y);
    assert w.held[w.stacks[x][1].token] == Held(x, Link(slot));
    assert w.held[w.stacks[y][1].token] == Held(y, Link(slot));
  }
}

/** The context of a registered tunnel: who writes it, and who can lose it (`_setup_tunnel`,
    `_current_tunnels`). */
module Rebinding {
  import opened Prelude
  import opened Tunnels
  import opened Ownership

  // ------------------------------------------------------------------ contexts, when setups of one name do not overlap

  ghost predicate NoSetupOf(g: Registry, name: TunnelName) {
    forall t :: t in g.tasks && g.tasks[t].SettingUp? ==> g.tasks[t].name != name
  }

  ghost predicate NoDestroyOf(g: Registry, name: TunnelName) {
    forall t :: t in g.tasks && g.tasks[t].Destroying? ==> g.tasks[t].name != name
  }

  /** No setup of a name starts while another setup of that name is under way. */
  ghost predicate SetupsApart(s: State, e: Event) {
    e.SetupStart? ==> NoSetupOf(s.registry, e.name)
  }

  ghost predicate RunApart(s: State, events: seq<Event>, s': State)
    decreases |events|
  {
    if events == [] then s == s'
    else Enabled(s, events[0]) && SetupsApart(s, events[0]) && RunApart(Step(s, events[0]), events[1..], s')
  }

  ghost predicate OneSetupPerName(g: Registry) {
    && (forall t, u :: t in g.tasks && u in g.tasks && g.tasks[t].SettingUp? && g.tasks[u].SettingUp? && t != u ==>
          g.tasks[t].name != g.tasks[u].name)
    && (forall n :: n in g.namespaces ==> NoSetupOf(g, n))
  }

  ghost predicate HaveContexts(g: Registry, contexts: map<TunnelName, Context>) {
    forall n :: n in g.namespaces ==> n in contexts
  }

  ghost predicate ContextInv(s: State) {
    OneSetupPerName(s.registry) && HaveContexts(s.registry, s.ports.contexts)
  }

  lemma BeginApart(g: Registry, task: Task)
    requires OneSetupPerName(g) && task.SettingUp? && NoSetupOf(g, task.name) && task.name !in g.namespaces
    ensures OneSetupPerName(Begin(g, task))
  {
    forall n | n in g.namespaces ensures NoSetupOf(Begin(g, task), n) {
      assert NoSetupOf(g, n);
    }
  }

  /** Ending a setup, or a task that is not a setup, keeps setups apart. */
  lemma FewerSetupsApart(g: Registry, g': Registry)
    requires OneSetupPerName(g)
    requires forall t :: t in g'.tasks && g'.tasks[t].SettingUp? ==>
               t in g.tasks && g.tasks[t].SettingUp? && g.tasks[t].name == g'.tasks[t].name
    requires forall n :: n in g'.namespaces ==> n in g.namespaces || NoSetupOf(g', n)
    ensures OneSetupPerName(g')
  {
    forall n | n in g'.namespaces ensures NoSetupOf(g', n) {
      assert n in g.namespaces ==> NoSetupOf(g, n);
    }
  }

  lemma PublishApart(g: Registry, t: Id)
    requires OneSetupPerName(g) && t in g.tasks && g.tasks[t].SettingUp?
    ensures OneSetupPerName(Publish(g, g.tasks[t].name, t))
  {
    FewerSetupsApart(g, Publish(g, g.tasks[t].name, t));
  }

  /** The three ways the first segment of a destroy can end. */
  lemma DestroyShape(s: State, name: TunnelName, mustWait: bool)
    ensures var s' := StartDestroy(s, name, mustWait);
            || (s'.registry == s.registry && s'.ports.contexts == s.ports.contexts)
            || (s'.registry == Suspend(s.registry, name) && s'.ports.contexts == s.ports.contexts)
            || (s'.registry == Unpublish(s.registry.(nextId := s.registry.nextId + 1), name, s.registry.nextId)
                && s'.ports.contexts == s.ports.contexts - {name})
  {
  }

  lemma UnpublishContexts(g: Registry, contexts: map<TunnelName, Context>, name: TunnelName, t: Id)
    requires OneSetupPerName(g) && HaveContexts(g, contexts)
    ensures var g' := Unpublish(g, name, t); OneSetupPerName(g') && HaveContexts(g', contexts - {name})
  {
    FewerSetupsApart(g, Unpublish(g, name, t));
  }

  lemma DestroyKeepsContexts(s: State, name: TunnelName, mustWait: bool)
    requires ContextInv(s)
    ensures ContextInv(StartDestroy(s, name, mustWait))
  {
    DestroyShape(s, name, mustWait);
    FewerSetupsApart(s.registry, Suspend(s.registry, name));
    var g1 := s.registry.(nextId := s.registry.nextId + 1);
    FewerSetupsApart(s.registry, g1);
    UnpublishContexts(g1, s.ports.contexts, name, s.registry.nextId);
  }

  /** A setup can fail only before its name is registered, so no registered context is lost. */
  lemma FailKeepsContexts(s: State, t: Id)
    requires ContextInv(s) && InSetup(s, t)
    ensures ContextInv(FailSetup(s, t))
  {
    FewerSetupsApart(s.registry, Abandon(s.registry, t));
    var name := s.registry.tasks[t].name;
    assert name in s.registry.namespaces ==> NoSetupOf(s.registry, name);
  }

  lemma AcquireKeepsContexts(s: State, t: Id, ok: bool, port: int)
    requires ContextInv(s) && Enabled(s, Acquire(t, ok, port))
    ensures ContextInv(AcquireNext(s, t, ok, port))
  {
    var s' := AcquireNext(s, t, ok, port);
    if s' == FailSetup(s, t) {
      FailKeepsContexts(s, t);
    } else {
      FewerSetupsApart(s.registry, s'.registry);
    }
  }

  lemma StepKeepsContexts(s: State, e: Event)
    requires ContextInv(s) && Enabled(s, e) && SetupsApart(s, e)
    ensures ContextInv(Step(s, e))
  {
    match e
    case SetupStart(name, request, hasServer) =>
      if name !in s.registry.namespaces { BeginApart(s.registry, SettingUp(name, request, hasServer, map[])); }
    case Acquire(t, ok, port) => AcquireKeepsContexts(s, t, ok, port);
    case SetupFail(t) => FailKeepsContexts(s, t);
    case Register(t, fields) => PublishApart(s.registry, t);
    case RebindWake(_) =>
    case RebindLease(_, _, _) =>
    case RebindCancel(_) =>
    case DestroyStart(name, mustWait) => DestroyKeepsContexts(s, name, mustWait);
    case DestroyResume(t) => UnpublishContexts(s.registry, s.ports.contexts, s.registry.tasks[t].name, t);
    case CloseOne(_) =>
    case CloseEnd(t) => FewerSetupsApart(s.registry, Conclude(s.registry, t));
  }

  lemma {:induction false} RunKeepsContexts(s: State, events: seq<Event>, s': State)
    requires ContextInv(s) && RunApart(s, events, s')
    ensures ContextInv(s')
    decreases |events|
  {
    if events != [] {
      StepKeepsContexts(s, events[0]);
      RunKeepsContexts(Step(s, events[0]), events[1..], s');
    }
  }

  /** If setups of one name never overlap, every registered tunnel has a context. */
  lemma RegisteredTunnelsHaveContexts(events: seq<Event>, s: State)
    requires RunApart(START, events, s)
    ensures s.registry.namespaces.Keys <= s.ports.contexts.Keys
  {
    RunKeepsContexts(START, events, s);
  }

  /** A step makes a setup of `name` fail. */
  predicate FailsSetupOf(s: State, e: Event, name: TunnelName)
    requires Enabled(s, e)
  {
    match e
    case SetupFail(t) => s.registry.tasks[t].name == name
    case Acquire(t, ok, _) =>
      && s.registry.tasks[t].name == name
      && !(ok && CanEnter(s.world, PlanOf(s.registry.tasks[t])[|s.world.stacks[t]|]))
    case _ => false
  }

  /** The step that completes a rebind round of `name`, which writes the context anew. */
  predicate CompletesRoundOf(s: State, e: Event, name: TunnelName)
    requires Enabled(s, e)
  {
    match e
    case RebindWake(r) =>
      && s.ports.rebinds[r].name == name && name in s.ports.contexts
      && s.ports.contexts[name].canForward && s.ports.contexts[name].names == []
    case RebindLease(r, ok, _) => s.ports.rebinds[r].name == name && ok && |s.ports.rebinds[r].phase.todo| == 1
    case _ => false
  }

  predicate RegistersOf(s: State, e: Event, name: TunnelName)
    requires Enabled(s, e)
  {
    e.Register? && s.registry.tasks[e.setup].name == name
  }

  predicate LostBy(s: State, e: Event, name: TunnelName, lost: bool)
    requires Enabled(s, e)
  {
    if RegistersOf(s, e, name) || CompletesRoundOf(s, e, name) then false else lost || FailsSetupOf(s, e, name)
  }

  /** Has a setup of `name` failed since the context of `name` was last written, by a registration
      or by the end of a rebind round? */
  ghost predicate EverLost(s: State, events: seq<Event>, name: TunnelName, lost: bool)
    decreases |events|
  {
    if events == [] || !Enabled(s, events[0]) then lost
    else EverLost(Step(s, events[0]), events[1..], name, LostBy(s, events[0], name, lost))
  }

  lemma RebindWritesContext(s: State, e: Event, name: TunnelName)
    requires Enabled(s, e) && (e.RebindWake? || e.RebindLease?)
    ensures name in Step(s, e).ports.contexts <==> name in s.ports.contexts || CompletesRoundOf(s, e, name)
    ensures Step(s, e).registry == s.registry
  {
  }

  lemma RegisterWritesContext(s: State, t: Id, fields: nat, name: TunnelName)
    requires Enabled(s, Register(t, fields))
    ensures var s' := RegisterTunnel(s, t, fields);
      && (name in s'.ports.contexts <==> name in s.ports.contexts || s.registry.tasks[t].name == name)
      && (name in s'.registry.namespaces <==> name in s.registry.namespaces || s.registry.tasks[t].name == name)
  {
  }

  lemma DestroyTakesBoth(s: State, e: Event, name: TunnelName)
    requires Enabled(s, e) && (e.DestroyStart? || e.DestroyResume?) && name in Step(s, e).registry.namespaces
    ensures name in s.registry.namespaces && (name in Step(s, e).ports.contexts <==> name in s.ports.contexts)
  {
    if e.DestroyStart? {
      DestroyShape(s, e.name, e.mustWait);
    }
  }

  lemma FailingTakesContext(s: State, e: Event, name: TunnelName)
    requires Enabled(s, e) && (e.SetupFail? || e.Acquire?)
    ensures name in Step(s, e).ports.contexts <==> name in s.ports.contexts && !FailsSetupOf(s, e, name)
    ensures name in Step(s, e).registry.namespaces <==> name in s.registry.namespaces
  {
    if e.Acquire? && !(e.ok && CanEnter(s.world, PlanOf(s.registry.tasks[e.setup])[|s.world.stacks[e.setup]|])) {
      assert Step(s, e) == FailSetup(s, e.setup);
    }
  }

  lemma StepLoses(s: State, e: Event, name: TunnelName, lost: bool)
    requires Enabled(s, e) && name in Step(s, e).registry.namespaces
    requires name in s.registry.namespaces ==> (name !in s.ports.contexts <==> lost)
    ensures name !in Step(s, e).ports.contexts <==> LostBy(s, e, name, lost)
  {
    match e
    case Register(t, fields) => RegisterWritesContext(s, t, fields, name);
    case RebindWake(_) => RebindWritesContext(s, e, name);
    case RebindLease(_, _, _) => RebindWritesContext(s, e, name);
    case DestroyStart(_, _) => DestroyTakesBoth(s, e, name);
    case DestroyResume(_) => DestroyTakesBoth(s, e, name);
    case SetupFail(_) => FailingTakesContext(s, e, name);
    case Acquire(_, _, _) => FailingTakesContext(s, e, name);
    case _ =>
  }

  lemma {:induction false} RunLoses(s: State, events: seq<Event>, s': State, name: TunnelName, lost: bool)
    requires Run(s, events, s') && (name in s.registry.namespaces ==> (name !in s.ports.contexts <==> lost))
    ensures name in s'.registry.namespaces ==> (name !in s'.ports.contexts <==> EverLost(s, events, name, lost))
    decreases |events|
  {
    if events != [] {
      var s1 := Step(s, events[0]);
      if name in s1.registry.namespaces { StepLoses(s, events[0], name, lost); }
      RunLoses(s1, events[1..], s', name, LostBy(s, events[0], name, lost));
    }
  }

  /** Over every run, overlapping setups included: a registered tunnel is without its context
      exactly when another setup of its name has failed since the context was last written. */
  lemma ContextMissingIffSetupFailed(events: seq<Event>, s: State, name: TunnelName)
    requires Run(START, events, s) && name in s.registry.namespaces
    ensures name !in s.ports.contexts <==> EverLost(START, events, name, false)
  {
    RunLoses(START, events, s, name, false);
  }

  /** A registered tunnel holds its name's link. */
  lemma RegisteredHoldsLink(s: State, name: TunnelName)
    requires Inv(s) && name in s.registry.namespaces
    ensures Slot(name) in s.world.links
  {
    var w, id := s.world, s.registry.exitStacks[name];
    assert Fits(w.stacks[id], s.registry, id) && StackHeld(w, id);
    assert w.held[w.stacks[id][1].token] == Held(id, Link(Slot(name)));
  }

  lemma TakenLinkFails(s: State, t: Id, ok: bool, port: int)
    requires InSetup(s, t) && |s.world.stacks[t]| == 1 && Slot(s.registry.tasks[t].name) in s.world.links
    ensures AcquireNext(s, t, ok, port) == FailSetup(s, t)
  {
    assert PlanOf(s.registry.tasks[t])[1] == Link(Slot(s.registry.tasks[t].name));
  }

  lemma PastLinkHoldsIt(stack: Stack, task: Task)
    requires FollowsPlan(stack, task) && |stack| >= 2
    ensures HoldsLinkOf(stack, task.name)
  {
    assert PlanOf(task)[1] == Link(Slot(task.name));
  }

  /** A setup holds its link from the second entry on, so while another has its name it has none. */
  lemma LinklessWhileRegistered(w: World, g: Registry, t: Id)
    requires WorldInv(w) && RegistryInv(g) && StacksFit(w, g)
    requires t in g.tasks && g.tasks[t].SettingUp? && g.tasks[t].name in g.namespaces
    ensures t in w.stacks && |w.stacks[t]| <= 1
  {
    var name := g.tasks[t].name;
    assert TaskOk(g, t) && Fits(w.stacks[t], g, t) && Fits(w.stacks[g.exitStacks[name]], g, g.exitStacks[name]);
    if |w.stacks[t]| >= 2 {
      PastLinkHoldsIt(w.stacks[t], g.tasks[t]);
      OneLinkPerName(w, t, g.exitStacks[name], name);
      assert false;
    }
  }

  /** And such a setup cannot but fail: over every run, a setup whose name is registered has not
      got past its link, and when it comes to it, it fails, since the link is taken. */
  lemma LosingSetupMustFail(events: seq<Event>, s: State, t: Id)
    requires Run(START, events, s) && InSetup(s, t) && s.registry.tasks[t].name in s.registry.namespaces
    ensures |s.world.stacks[t]| <= 1
    ensures |s.world.stacks[t]| == 1 ==> forall ok, port :: AcquireNext(s, t, ok, port) == FailSetup(s, t)
  {
    StartInv();
    RunKeeps(START, events, s);
    LinklessWhileRegistered(s.world, s.registry, t);
    if |s.world.stacks[t]| == 1 {
      RegisteredHoldsLink(s, s.registry.tasks[t].name);
      forall ok, port ensures AcquireNext(s, t, ok, port) == FailSetup(s, t) {
        TakenLinkFails(s, t, ok, port);
      }
    }
  }
}

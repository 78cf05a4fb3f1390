/** Runs from the start that show what the conditions of the theorems about tunnels are there for. */
module TunnelRuns {
  import opened Prelude
  import opened Tunnels
  import opened Ownership
  import opened Rebinding

  lemma {:induction false} RunAppend(s: State, a: seq<Event>, m: State, b: seq<Event>, s': State)
    requires Run(s, a, m) && Run(m, b, s')
    ensures Run(s, a + b, s')
    decreases |a|
  {
    if a == [] {
      assert a + b == b;
    } else {
      RunAppend(Step(s, a[0]), a[1..], m, b, s');
      assert (a + b)[1..] == a[1..] + b;
    }
  }

  lemma RunOne(s: State, e: Event)
    requires Enabled(s, e)
    ensures Run(s, [e], Step(s, e))
  {
    assert Run(Step(s, e), [], Step(s, e));
  }

  /** The same setup in the same registry, with more of its plan entered. */
  ghost predicate Further(s: State, s': State, t: Id) {
    && InSetup(s, t) && InSetup(s', t)
    && s'.registry.tasks[t] == s.registry.tasks[t].(leased := s'.registry.tasks[t].leased)
    && s'.registry == s.registry.(tasks := s.registry.tasks[t := s'.registry.tasks[t]])
    && s'.ports == s.ports && s'.world.stacks.Keys == s.world.stacks.Keys
    && (forall id :: id in s.world.stacks && id != t ==> s'.world.stacks[id] == s.world.stacks[id])
  }

  lemma AcquireOne(s: State, t: Id) returns (s': State)
    requires InSetup(s, t) && |s.world.stacks[t]| < |PlanOf(s.registry.tasks[t])|
    requires |s.world.stacks[t]| == 1 ==> Slot(s.registry.tasks[t].name) !in s.world.links
    ensures Enabled(s, Acquire(t, true, 0)) && s' == Step(s, Acquire(t, true, 0))
    ensures Further(s, s', t) && |s'.world.stacks[t]| == |s.world.stacks[t]| + 1
    ensures |s'.world.stacks[t]| >= 2 || s'.world.links == s.world.links
  {
    s' := AcquireNext(s, t, true, 0);
  }

  /** If nothing fails, a setup runs its whole plan. */
  lemma {:induction false} AcquireAll(s: State, t: Id) returns (events: seq<Event>, s': State)
    requires InSetup(s, t) && (|s.world.stacks[t]| >= 2 || Slot(s.registry.tasks[t].name) !in s.world.links)
    ensures Run(s, events, s') && Further(s, s', t)
    ensures |s'.world.stacks[t]| == |PlanOf(s'.registry.tasks[t])|
    decreases |PlanOf(s.registry.tasks[t])| - |s.world.stacks[t]|
  {
    if |s.world.stacks[t]| == |PlanOf(s.registry.tasks[t])| {
      return [], s;
    }
    var s1 := AcquireOne(s, t);
    var later;
    later, s' := AcquireAll(s1, t);
    events := [Acquire(t, true, 0)] + later;
  }

  lemma {:induction false} CloseAll(s: State, t: Id) returns (events: seq<Event>, s': State)
    requires InClosing(s, t)
    ensures Run(s, events, s') && InClosing(s', t)
    ensures s'.registry == s.registry && s'.ports == s.ports && s'.world.stacks.Keys == s.world.stacks.Keys
    ensures s'.world.stacks[s.registry.tasks[t].stack] == []
    decreases |s.world.stacks[s.registry.tasks[t].stack]|
  {
    if s.world.stacks[s.registry.tasks[t].stack] == [] {
      return [], s;
    }
    var later;
    later, s' := CloseAll(Step(s, CloseOne(t)), t);
    events := [CloseOne(t)] + later;
  }

  /** A tunnel with one forwarded port and a rebind, made by either handler. */
  function OnePort(listed: bool): Request {
    Request(true, false, ["port"], true, listed)
  }

  /** From the start: the tunnel is registered, and its rebind sleeps. */
  lemma OnePortRegistered(name: TunnelName, listed: bool, fields: nat) returns (events: seq<Event>, s: State)
    ensures Run(START, events, s) && 0 in s.world.stacks
    ensures s.registry.namespaces == map[name := 0] == s.registry.exitStacks
    ensures s.registry.tasks == map[] && s.registry.nextId == 1
    ensures s.ports.rebindTasks == if listed then map[name := 0] else map[]
    ensures 0 in s.ports.rebinds && s.ports.rebinds[0].name == name && s.ports.rebinds[0].phase.Sleeping?
    ensures name in s.ports.contexts && s.ports.contexts[name].names == ["port"] && s.ports.contexts[name].canForward
  {
    var s1 := Step(START, SetupStart(name, OnePort(listed), true));
    RunOne(START, SetupStart(name, OnePort(listed), true));
    var acquired, s2 := AcquireAll(s1, 0);
    s := Step(s2, Register(0, fields));
    RunOne(s2, Register(0, fields));
    assert DistinctNames(["port"]) == ["port"] by {
      assert ["port"][..0] == [] && DistinctNames([]) == [];
    }
    RunAppend(START, [SetupStart(name, OnePort(listed), true)], s1, acquired, s2);
    events := [SetupStart(name, OnePort(listed), true)] + acquired;
    RunAppend(START, events, s2, [Register(0, fields)], s);
    events := events + [Register(0, fields)];
  }

  /** And then its rebind has set out to renew the port. */
  lemma RebindUnderWay(name: TunnelName, listed: bool, fields: nat) returns (events: seq<Event>, s: State)
    ensures Run(START, events, s) && InLeasing(s, 0) && s.ports.rebinds[0].phase.todo == ["port"]
    ensures s.ports.rebinds[0].phase.target == 0 && s.ports.rebinds[0].name == name
    ensures s.registry.namespaces == map[name := 0] == s.registry.exitStacks
    ensures s.registry.tasks == map[] && s.registry.nextId == 1
    ensures s.ports.rebindTasks == if listed then map[name := 0] else map[]
  {
    var s1;
    events, s1 := OnePortRegistered(name, listed, fields);
    s := Step(s1, RebindWake(0));
    RunOne(s1, RebindWake(0));
    RunAppend(START, events, s1, [RebindWake(0)], s);
    events := events + [RebindWake(0)];
  }

  /** The rebind task of `handle_start_tunnel` is not awaited by a destroy. Destroyed at that moment,
      the tunnel is torn down completely; then the lease arrives, and stays: nothing is registered,
      nothing is in flight, and a port lease is held. */
  lemma LateLeaseStaysHeld(name: TunnelName, fields: nat, port: int) returns (events: seq<Event>, s: State, token: nat)
    ensures Run(START, events, s)
    ensures s.registry.exitStacks == map[] && s.registry.tasks == map[]
    ensures token in s.world.held && s.world.held[token].kind == PortLease && EverLate(START, events)
  {
    var before, s1 := RebindUnderWay(name, false, fields);
    var s2 := Step(s1, DestroyStart(name, false));
    RunOne(s1, DestroyStart(name, false));
    assert s2.registry.tasks == map[1 := Closing(0)] && s2.registry.exitStacks == map[];
    var closed, s3 := CloseAll(s2, 1);
    var s4 := Step(s3, CloseEnd(1));
    RunOne(s3, CloseEnd(1));
    token := s4.world.nextToken;
    s := Step(s4, RebindLease(0, true, port));
    RunOne(s4, RebindLease(0, true, port));
    RunAppend(START, before, s1, [DestroyStart(name, false)], s2);
    events := before + [DestroyStart(name, false)];
    RunAppend(START, events, s2, closed, s3);
    RunAppend(START, events + closed, s3, [CloseEnd(1)], s4);
    events := events + closed + [CloseEnd(1)];
    RunAppend(START, events, s4, [RebindLease(0, true, port)], s);
    events := events + [RebindLease(0, true, port)];
    IdleHoldsNothingIffNoLateLease(events, s);
  }

  /** A lease fails, the rebind task of a created tunnel dies of it, and the destroy that follows
      raises: the tunnel stays registered, with no task left that would take it out. */
  lemma FailedRebindStopsDestroy(name: TunnelName, fields: nat, mustWait: bool) returns (events: seq<Event>, s: State)
    ensures Run(START, events + [DestroyStart(name, mustWait)], Step(s, DestroyStart(name, mustWait)))
    ensures s.ports.rebindTasks == map[name := 0] && 0 in s.ports.rebinds && s.ports.rebinds[0].phase.Failed?
    ensures var s' := Step(s, DestroyStart(name, mustWait));
            name in s'.registry.namespaces && s'.registry.tasks == map[]
  {
    var before, s1 := RebindUnderWay(name, true, fields);
    s := Step(s1, RebindLease(0, false, 0));
    RunOne(s1, RebindLease(0, false, 0));
    events := before + [RebindLease(0, false, 0)];
    RunAppend(START, before, s1, [RebindLease(0, false, 0)], s);
    RunOne(s, DestroyStart(name, mustWait));
    RunAppend(START, events, s, [DestroyStart(name, mustWait)], Step(s, DestroyStart(name, mustWait)));
  }

  /** Two setups of one name under way, the first of which has won it. */
  lemma TwoSetups(name: TunnelName, fields: nat) returns (events: seq<Event>, s: State)
    ensures Run(START, events, s) && InSetup(s, 1) && s.registry.tasks[1] == SettingUp(name, OnePort(true), true, map[])
    ensures name in s.registry.namespaces && name in s.ports.contexts && s.world.stacks[1] == []
  {
    var request := OnePort(true);
    var s1 := Step(START, SetupStart(name, request, true));
    RunOne(START, SetupStart(name, request, true));
    var s2 := Step(s1, SetupStart(name, request, true));
    RunOne(s1, SetupStart(name, request, true));
    var acquired, s3 := AcquireAll(s2, 0);
    s := Step(s3, Register(0, fields));
    RunOne(s3, Register(0, fields));
    RunAppend(START, [SetupStart(name, request, true)], s1, [SetupStart(name, request, true)], s2);
    events := [SetupStart(name, request, true)] + [SetupStart(name, request, true)];
    RunAppend(START, events, s2, acquired, s3);
    RunAppend(START, events + acquired, s3, [Register(0, fields)], s);
    events := events + acquired + [Register(0, fields)];
  }

  /** The second then fails at its link, and takes the context of the winner with it: a tunnel is
      registered that has none. */
  lemma LosingSetupTakesTheContext(name: TunnelName, fields: nat) returns (events: seq<Event>, s: State)
    ensures Run(START, events, s) && name in s.registry.namespaces && name !in s.ports.contexts
    ensures EverLost(START, events, name, false)
  {
    var before, s1 := TwoSetups(name, fields);
    var s2 := AcquireOne(s1, 1);
    RunOne(s1, Acquire(1, true, 0));
    events := before + [Acquire(1, true, 0)];
    RunAppend(START, before, s1, [Acquire(1, true, 0)], s2);
    LosingSetupMustFail(events, s2, 1);
    s := Step(s2, Acquire(1, true, 0));
    RunOne(s2, Acquire(1, true, 0));
    RunAppend(START, events, s2, [Acquire(1, true, 0)], s);
    events := events + [Acquire(1, true, 0)];
    assert s == FailSetup(s2, 1);
    ContextMissingIffSetupFailed(events, s, name);
  }
}

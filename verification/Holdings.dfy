/** What a tunnel holds once it is registered, by what was asked for: which resources, how many of
    each, and in which order. */
module Holdings {
  import opened Prelude
  import opened Tunnels
  import opened Ownership
  import opened Rebinding

  function Kinds(stack: Stack): (kinds: seq<Kind>)
    ensures |kinds| == |stack| && forall i :: 0 <= i < |stack| ==> kinds[i] == stack[i].kind
  {
    seq(|stack|, i requires 0 <= i < |stack| => stack[i].kind)
  }

  function Count(kinds: seq<Kind>, kind: Kind): nat {
    if kinds == [] then 0 else (if kinds[0] == kind then 1 else 0) + Count(kinds[1..], kind)
  }

  /** The order of entering: what has a greater rank lies above. */
  function Rank(kind: Kind): nat {
    match kind
    case NamespaceProcess => 0
    case Link(_) => 1
    case InternetShare => 2
    case VpeerForward => 3
    case VpnSession => 4
    case DnsServer => 5
    case KillSwitch => 6
    case PortLease => 7
  }

  predicate Ranked(kinds: seq<Kind>) {
    forall i, j :: 0 <= i < j < |kinds| ==> Rank(kinds[i]) <= Rank(kinds[j])
  }

  /** What a setup was asked for, and whether the session it made reports a server. */
  datatype Ask = Ask(name: TunnelName, request: Request, hasServer: bool)

  /** One namespace, one link, which is that of the name's slot, one share, one forward and one DNS
      server; a session with a VPN only, and a kill switch only if one is wanted as well and the
      session reports its server; everything in the order of entering, leases last. */
  predicate HoldsFor(kinds: seq<Kind>, ask: Ask) {
    && Ranked(kinds)
    && Count(kinds, NamespaceProcess) == 1 && Count(kinds, Link(Slot(ask.name))) == 1
    && (forall i :: 0 <= i < |kinds| && kinds[i].Link? ==> kinds[i].slot == Slot(ask.name))
    && Count(kinds, InternetShare) == 1 && Count(kinds, VpeerForward) == 1 && Count(kinds, DnsServer) == 1
    && Count(kinds, VpnSession) == (if ask.request.vpn then 1 else 0)
    && Count(kinds, KillSwitch) == (if ask.request.vpn && ask.request.killSwitch && ask.hasServer then 1 else 0)
    && Count(kinds, PortLease) >= (if ask.request.vpn then |ask.request.ports| else 0)
  }

  function AskOf(task: Task): Ask
    requires task.SettingUp?
  {
    Ask(task.name, task.request, task.hasServer)
  }

  // ------------------------------------------------------------------ counting

  lemma {:induction false} CountJoin(a: seq<Kind>, b: seq<Kind>, kind: Kind)
    ensures Count(a + b, kind) == Count(a, kind) + Count(b, kind)
  {
    if a == [] {
      assert a + b == b;
    } else {
      assert (a + b)[1..] == a[1..] + b;
      CountJoin(a[1..], b, kind);
    }
  }

  lemma CountOne(x: Kind, kind: Kind)
    ensures Count([x], kind) == if x == kind then 1 else 0
  {
  }

  lemma {:induction false} CountLeases(n: nat, kind: Kind)
    ensures Count(seq(n, _ => PortLease), kind) == if kind == PortLease then n else 0
  {
    if n > 0 {
      CountLeases(n - 1, kind);
      assert seq(n, _ => PortLease)[1..] == seq(n - 1, _ => PortLease);
    }
  }

  lemma CountLease(kinds: seq<Kind>, kind: Kind)
    ensures Count(kinds + [PortLease], kind) == Count(kinds, kind) + if kind == PortLease then 1 else 0
  {
    CountJoin(kinds, [PortLease], kind);
    CountOne(PortLease, kind);
  }

  /** The parts of a plan. */
  lemma PlanParts(task: Task, kind: Kind)
    requires task.SettingUp?
    ensures var r := task.request;
      Count(PlanOf(task), kind) ==
        Count([NamespaceProcess, Link(Slot(task.name)), InternetShare, VpeerForward], kind)
        + (if r.vpn then Count([VpnSession, DnsServer], kind) else Count([DnsServer], kind))
        + (if r.vpn && r.killSwitch && task.hasServer then Count([KillSwitch], kind) else 0)
        + (if r.vpn && kind == PortLease then |r.ports| else 0)
  {
    var head := [NamespaceProcess, Link(Slot(task.name)), InternetShare, VpeerForward];
    if task.request.vpn {
      var switch := if task.request.killSwitch && task.hasServer then [KillSwitch] else [];
      var leases := seq(|task.request.ports|, _ => PortLease);
      assert PlanOf(task) == head + ([VpnSession, DnsServer] + switch + leases);
      CountJoin(head, [VpnSession, DnsServer] + switch + leases, kind);
      CountJoin([VpnSession, DnsServer] + switch, leases, kind);
      CountJoin([VpnSession, DnsServer], switch, kind);
      CountLeases(|task.request.ports|, kind);
    } else {
      CountJoin(head, [DnsServer], kind);
    }
  }

  lemma CountHead(name: TunnelName, kind: Kind)
    ensures Count([NamespaceProcess, Link(Slot(name)), InternetShare, VpeerForward], kind) ==
              if kind == NamespaceProcess || kind == Link(Slot(name)) || kind == InternetShare || kind == VpeerForward then 1 else 0
    ensures Count([VpnSession, DnsServer], kind) == if kind == VpnSession || kind == DnsServer then 1 else 0
  {
    CountJoin([NamespaceProcess], [Link(Slot(name))], kind);
    CountJoin([NamespaceProcess] + [Link(Slot(name))], [InternetShare], kind);
    CountJoin([NamespaceProcess] + [Link(Slot(name))] + [InternetShare], [VpeerForward], kind);
    assert [NamespaceProcess] + [Link(Slot(name))] + [InternetShare] + [VpeerForward]
        == [NamespaceProcess, Link(Slot(name)), InternetShare, VpeerForward];
    CountJoin([VpnSession], [DnsServer], kind);
    assert [VpnSession] + [DnsServer] == [VpnSession, DnsServer];
  }

  lemma PlanIsRanked(task: Task)
    requires task.SettingUp?
    ensures Ranked(PlanOf(task))
    ensures forall i :: 0 <= i < |PlanOf(task)| && PlanOf(task)[i].Link? ==> PlanOf(task)[i].slot == Slot(task.name)
  {
  }

  lemma PlanHoldsFor(task: Task)
    requires task.SettingUp?
    ensures HoldsFor(PlanOf(task), AskOf(task))
    ensures Count(PlanOf(task), PortLease) == if task.request.vpn then |task.request.ports| else 0
  {
    PlanIsRanked(task);
    forall kind ensures Count(PlanOf(task), kind) ==
        (if kind == NamespaceProcess || kind == Link(Slot(task.name)) || kind == InternetShare || kind == VpeerForward then 1 else 0)
        + (if kind == DnsServer || (task.request.vpn && kind == VpnSession) then 1 else 0)
        + (if task.request.vpn && task.request.killSwitch && task.hasServer && kind == KillSwitch then 1 else 0)
        + (if task.request.vpn && kind == PortLease then |task.request.ports| else 0)
    {
      PlanParts(task, kind);
      CountHead(task.name, kind);
      CountOne(DnsServer, kind);
      CountOne(KillSwitch, kind);
    }
  }

  lemma LeaseKeepsHolding(kinds: seq<Kind>, ask: Ask)
    requires HoldsFor(kinds, ask)
    ensures HoldsFor(kinds + [PortLease], ask)
  {
    forall kind ensures Count(kinds + [PortLease], kind) == Count(kinds, kind) + if kind == PortLease then 1 else 0 {
      CountLease(kinds, kind);
    }
  }

  // ------------------------------------------------------------------ over every run

  /** History: what each setup was asked for when it began. */
  function Asked(asks: map<Id, Ask>, s: State, e: Event): map<Id, Ask> {
    if e.SetupStart? && e.name !in s.registry.namespaces then asks[s.registry.nextId := Ask(e.name, e.request, e.hasServer)]
    else asks
  }

  ghost function AllAsked(asks: map<Id, Ask>, s: State, events: seq<Event>): map<Id, Ask>
    decreases |events|
  {
    if events == [] || !Enabled(s, events[0]) then asks
    else AllAsked(Asked(asks, s, events[0]), Step(s, events[0]), events[1..])
  }

  /** A setup is still about what it was asked for, and a registered stack holds that. */
  predicate Holding(s: State, asks: map<Id, Ask>, id: Id) {
    id in s.registry.owner ==>
      match s.registry.owner[id]
      case BySetup => id in s.registry.tasks && s.registry.tasks[id].SettingUp? && id in asks && asks[id] == AskOf(s.registry.tasks[id])
      case ByName(n) => id in asks && asks[id].name == n && id in s.world.stacks && HoldsFor(Kinds(s.world.stacks[id]), asks[id])
      case _ => true
  }

  /** Nothing that the holding of `id` rests on has changed. */
  predicate Rests(s: State, s': State, id: Id) {
    id in s'.registry.owner ==>
      && id in s.registry.owner
      && (s'.registry.owner[id] == s.registry.owner[id] || s'.registry.owner[id].ByCloser? || s'.registry.owner[id].Nobody?)
      && (s'.registry.owner[id].BySetup? && id in s.registry.tasks && s.registry.tasks[id].SettingUp? ==>
            id in s'.registry.tasks && s'.registry.tasks[id].SettingUp? && AskOf(s'.registry.tasks[id]) == AskOf(s.registry.tasks[id]))
      && (s'.registry.owner[id].ByName? && id in s.world.stacks ==>
            id in s'.world.stacks && s'.world.stacks[id] == s.world.stacks[id])
  }

  lemma RestingStaysHeld(s: State, s': State, asks: map<Id, Ask>, id: Id)
    requires Rests(s, s', id) && Holding(s, asks, id)
    ensures Holding(s', asks, id)
  {
  }

  lemma StartHolds(s: State, e: Event, asks: map<Id, Ask>, id: Id)
    requires Inv(s) && Holding(s, asks, id) && Enabled(s, e) && e.SetupStart?
    ensures Holding(Step(s, e), Asked(asks, s, e), id)
  {
    assert s.registry.nextId !in s.registry.owner;
  }

  lemma FailRests(s: State, t: Id, id: Id)
    requires InSetup(s, t) && (t in s.registry.owner)
    ensures Rests(s, FailSetup(s, t), id)
  {
  }

  lemma EnterRests(s: State, t: Id, port: int, id: Id)
    requires Enabled(s, Acquire(t, true, port)) && CanEnter(s.world, PlanOf(s.registry.tasks[t])[|s.world.stacks[t]|])
    requires t in s.registry.owner && s.registry.owner[t].BySetup?
    ensures Rests(s, AcquireNext(s, t, true, port), id)
  {
  }

  lemma AcquireRests(s: State, t: Id, ok: bool, port: int, id: Id)
    requires RegistryInv(s.registry) && Enabled(s, Acquire(t, ok, port))
    ensures Rests(s, AcquireNext(s, t, ok, port), id)
  {
    assert TaskOk(s.registry, t);
    if ok && CanEnter(s.world, PlanOf(s.registry.tasks[t])[|s.world.stacks[t]|]) {
      EnterRests(s, t, port, id);
    } else {
      FailRests(s, t, id);
    }
  }

  lemma RegisterHolds(s: State, t: Id, fields: nat, asks: map<Id, Ask>)
    requires Holding(s, asks, t) && Enabled(s, Register(t, fields))
    requires t in s.registry.owner && s.registry.owner[t].BySetup? && FollowsPlan(s.world.stacks[t], s.registry.tasks[t])
    ensures Holding(RegisterTunnel(s, t, fields), asks, t)
  {
    assert Kinds(s.world.stacks[t]) == PlanOf(s.registry.tasks[t]);
    PlanHoldsFor(s.registry.tasks[t]);
  }

  lemma RegisterRests(s: State, t: Id, fields: nat, id: Id)
    requires Enabled(s, Register(t, fields)) && id != t
    ensures Rests(s, RegisterTunnel(s, t, fields), id)
  {
  }

  lemma LeaseHolds(s: State, r: Id, port: int, asks: map<Id, Ask>, id: Id)
    requires InLeasing(s, r) && Holding(s, asks, id)
    ensures Holding(LeaseNext(s, r, true, port), asks, id)
  {
    if id in s.registry.owner && s.registry.owner[id].ByName? && id == s.ports.rebinds[r].phase.target {
      assert Kinds(LeaseNext(s, r, true, port).world.stacks[id]) == Kinds(s.world.stacks[id]) + [PortLease];
      LeaseKeepsHolding(Kinds(s.world.stacks[id]), asks[id]);
    }
  }

  lemma UnpublishRests(s: State, s': State, name: TunnelName, t: Id, id: Id)
    requires RegistryInv(s.registry) && t !in s.registry.owner && s'.world == s.world
    requires s'.registry == Unpublish(s.registry, name, t) || s'.registry == Unpublish(s.registry.(nextId := s.registry.nextId + 1), name, t)
    ensures Rests(s, s', id)
  {
    assert id in s.registry.owner ==> OwnerOk(s.registry, id);
  }

  lemma DestroyRests(s: State, name: TunnelName, mustWait: bool, id: Id)
    requires RegistryInv(s.registry)
    ensures Rests(s, StartDestroy(s, name, mustWait), id)
  {
    var s' := StartDestroy(s, name, mustWait);
    DestroyLeavesWorld(s, name, mustWait);
    DestroyShape(s, name, mustWait);
    assert s.registry.nextId !in s.registry.owner && s.registry.nextId !in s.registry.tasks;
    if s'.registry == Unpublish(s.registry.(nextId := s.registry.nextId + 1), name, s.registry.nextId) {
      UnpublishRests(s, s', name, s.registry.nextId, id);
    }
  }

  lemma CloseRests(s: State, e: Event, id: Id)
    requires RegistryInv(s.registry) && Enabled(s, e) && (e.CloseOne? || e.CloseEnd?)
    ensures Rests(s, Step(s, e), id)
  {
    assert TaskOk(s.registry, e.closer);
  }

  lemma StepRests(s: State, e: Event, id: Id)
    requires RegistryInv(s.registry) && Enabled(s, e) && !e.SetupStart? && !e.RebindLease? && (e.Register? ==> e.setup != id)
    ensures Rests(s, Step(s, e), id)
  {
    match e
    case Acquire(t, ok, port) => AcquireRests(s, t, ok, port, id);
    case SetupFail(t) => assert TaskOk(s.registry, t); FailRests(s, t, id);
    case Register(t, fields) => RegisterRests(s, t, fields, id);
    case DestroyStart(name, mustWait) => DestroyRests(s, name, mustWait, id);
    case DestroyResume(t) =>
      assert TaskOk(s.registry, t);
      UnpublishRests(s, Step(s, e), s.registry.tasks[t].name, t, id);
    case CloseOne(_) => CloseRests(s, e, id);
    case CloseEnd(_) => CloseRests(s, e, id);
    case _ =>
  }

  lemma StepHolds(s: State, e: Event, asks: map<Id, Ask>, id: Id)
    requires Inv(s) && Holding(s, asks, id) && Enabled(s, e)
    ensures Holding(Step(s, e), Asked(asks, s, e), id)
  {
    if e.SetupStart? {
      StartHolds(s, e, asks, id);
    } else if e.RebindLease? {
      if e.ok { LeaseHolds(s, e.rebind, e.port, asks, id); }
    } else if e.Register? && e.setup == id {
      assert TaskOk(s.registry, id) && Fits(s.world.stacks[id], s.registry, id);
      RegisterHolds(s, id, e.fields, asks);
    } else {
      StepRests(s, e, id);
      RestingStaysHeld(s, Step(s, e), asks, id);
    }
  }

  ghost predicate AllHolding(s: State, asks: map<Id, Ask>) {
    forall id :: Holding(s, asks, id)
  }

  lemma {:induction false} RunHolds(s: State, events: seq<Event>, s': State, asks: map<Id, Ask>)
    requires Inv(s) && AllHolding(s, asks) && Run(s, events, s')
    ensures Inv(s') && AllHolding(s', AllAsked(asks, s, events))
    decreases |events|
  {
    if events != [] {
      forall id ensures Holding(Step(s, events[0]), Asked(asks, s, events[0]), id) {
        StepHolds(s, events[0], asks, id);
      }
      StepKeeps(s, events[0]);
      RunHolds(Step(s, events[0]), events[1..], s', Asked(asks, s, events[0]));
    }
  }

  /** Over every run: as long as a tunnel is registered, its stack holds what the setup that made it
      was asked for, whatever its rebinds have leased on top. */
  lemma RegisteredHoldsWhatWasAsked(events: seq<Event>, s: State, name: TunnelName)
    requires Run(START, events, s) && name in s.registry.exitStacks
    ensures var id, asks := s.registry.exitStacks[name], AllAsked(map[], START, events);
      && id in asks && asks[id].name == name
      && id in s.world.stacks && HoldsFor(Kinds(s.world.stacks[id]), asks[id])
  {
    StartInv();
    RunHolds(START, events, s, map[]);
    assert Holding(s, AllAsked(map[], START, events), s.registry.exitStacks[name]);
  }

  /** And at the moment when it can be registered it holds one lease for each port asked for, or
      none without a VPN. */
  lemma CompleteSetupHoldsWhatWasAsked(events: seq<Event>, s: State, t: Id, fields: nat)
    requires Run(START, events, s) && Enabled(s, Register(t, fields))
    ensures var asks, kinds := AllAsked(map[], START, events), Kinds(s.world.stacks[t]);
      && t in asks && HoldsFor(kinds, asks[t])
      && Count(kinds, PortLease) == if asks[t].request.vpn then |asks[t].request.ports| else 0
  {
    StartInv();
    RunHolds(START, events, s, map[]);
    assert TaskOk(s.registry, t) && Fits(s.world.stacks[t], s.registry, t);
    assert Holding(s, AllAsked(map[], START, events), t);
    assert Kinds(s.world.stacks[t]) == PlanOf(s.registry.tasks[t]);
    PlanHoldsFor(s.registry.tasks[t]);
  }
}

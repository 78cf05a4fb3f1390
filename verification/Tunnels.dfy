/** The tunnel registry of `service.py` as an interleaving of await-free segments: setups,
    teardowns and port rebinds, with every acquisition outcome and the scheduler arbitrary. */
module Tunnels {
  import opened Prelude

  // ------------------------------------------------------------------ entities

  /** A tunnel name, with the number that the first four hex digits of its MD5 spell. */
  datatype TunnelName = TunnelName(text: string, digest: nat)

  function Slot(name: TunnelName): (slot: nat)
    ensures 1 <= slot <= 254
  {
    name.digest % 254 + 1
  }

  datatype Kind =
    | NamespaceProcess | Link(slot: nat) | InternetShare | VpeerForward | VpnSession | DnsServer | KillSwitch | PortLease

  /** A context manager that has been entered; tokens number the entries. */
  datatype Resource = Resource(token: nat, kind: Kind)

  type Stack = seq<Resource>

  /** `ports` may repeat a name. `listed` tells `handle_create_tunnel`, which records its rebind
      task, from `handle_start_tunnel`, which keeps it to itself. A tunnel made for a run request
      has neither a VPN nor a rebind. */
  datatype Request = Request(vpn: bool, killSwitch: bool, ports: seq<string>, rebind: bool, listed: bool)

  /** `names` are the keys of the forwarded ports, in dictionary order. `fields` stands for
      everything else; `canForward` says that the session can forward ports. */
  datatype Context = Context(fields: nat, names: seq<string>, ports: map<string, int>, canForward: bool)

  /** The order in which a setup enters its resources. */
  function Plan(name: TunnelName, request: Request, hasServer: bool): seq<Kind> {
    [NamespaceProcess, Link(Slot(name)), InternetShare, VpeerForward]
    + if request.vpn then
        [VpnSession, DnsServer]
        + (if request.killSwitch && hasServer then [KillSwitch] else [])
        + seq(|request.ports|, _ => PortLease)
      else [DnsServer]
  }

  function DistinctNames(names: seq<string>): seq<string> {
    if names == [] then []
    else
      var before := DistinctNames(names[..|names| - 1]);
      var last := names[|names| - 1];
      if last in before then before else before + [last]
  }

  // ------------------------------------------------------------------ state

  type Id = nat

  /** A suspended coroutine. A setup owns the stack that carries its own id. */
  datatype Task =
    | SettingUp(name: TunnelName, request: Request, hasServer: bool, leased: map<string, int>)
    | Destroying(name: TunnelName)
    | Closing(stack: Id)

  function PlanOf(task: Task): seq<Kind>
    requires task.SettingUp?
  {
    Plan(task.name, task.request, task.hasServer)
  }

  /** What the host holds: the exit-stack objects, the entry each held resource belongs to, and
      the host's interfaces with the entry that created each. */
  datatype World = World(stacks: map<Id, Stack>, held: map<nat, Held>, links: map<nat, nat>, nextToken: nat)

  datatype Held = Held(stack: Id, kind: Kind)

  /** The dictionaries that decide who closes which stack: `namespaces` and `exitStacks` map a
      name to the setup that made it. `owner` is history: who will close which stack. */
  datatype Registry = Registry(
    namespaces: map<TunnelName, Id>,
    exitStacks: map<TunnelName, Id>,
    tasks: map<Id, Task>,
    owner: map<Id, Owner>,
    nextId: Id)

  datatype Owner = BySetup | ByName(name: TunnelName) | ByCloser(closer: Id) | Nobody

  datatype Phase =
    | Sleeping
    | Leasing(base: Context, todo: seq<string>, renewed: map<string, int>, target: Id)
    | Finished
    | Failed

  /** `requested`, `origin` and `rounds` are history: the port names asked for, the context the
      tunnel was registered with, and the number of completed rebinds. */
  datatype Rebind = Rebind(name: TunnelName, phase: Phase, requested: seq<string>, origin: Context, rounds: nat)

  /** `started` is history: the tunnels that `handle_start_tunnel` has registered. */
  datatype Ports = Ports(
    contexts: map<TunnelName, Context>,
    rebindTasks: map<TunnelName, Id>,
    rebinds: map<Id, Rebind>,
    started: map<Id, TunnelName>)

  datatype State = State(world: World, registry: Registry, ports: Ports)

  const START: State :=
    State(World(map[], map[], map[], 0), Registry(map[], map[], map[], map[], 0), Ports(map[], map[], map[], map[]))

  // ------------------------------------------------------------------ entering and exiting one resource

  function Push(w: World, stack: Id, kind: Kind): World
    requires stack in w.stacks
  {
    World(w.stacks[stack := w.stacks[stack] + [Resource(w.nextToken, kind)]],
          w.held[w.nextToken := Held(stack, kind)],
          if kind.Link? then w.links[kind.slot := w.nextToken] else w.links,
          w.nextToken + 1)
  }

  function Top(stack: Stack): Resource
    requires stack != []
  {
    stack[|stack| - 1]
  }

  /** Leaving the innermost context. A link is deleted by its name. */
  function Pop(w: World, stack: Id): World
    requires stack in w.stacks && w.stacks[stack] != []
  {
    var r := Top(w.stacks[stack]);
    w.(stacks := w.stacks[stack := w.stacks[stack][..|w.stacks[stack]| - 1]],
       held := w.held - {r.token},
       links := if r.kind.Link? then w.links - {r.kind.slot} else w.links)
  }

  /** `ip link add` fails for a name that exists, outside of any `try`. */
  predicate CanEnter(w: World, kind: Kind) {
    kind.Link? ==> kind.slot !in w.links
  }

  // ------------------------------------------------------------------ the registry

  function Begin(g: Registry, task: Task): Registry {
    g.(tasks := g.tasks[g.nextId := task], owner := g.owner[g.nextId := BySetup], nextId := g.nextId + 1)
  }

  function Abandon(g: Registry, t: Id): Registry {
    g.(tasks := g.tasks[t := Closing(t)], owner := g.owner[t := ByCloser(t)])
  }

  function Publish(g: Registry, name: TunnelName, t: Id): Registry {
    g.(namespaces := g.namespaces[name := t], exitStacks := g.exitStacks[name := t],
       tasks := g.tasks - {t}, owner := g.owner[t := ByName(name)])
  }

  function Suspend(g: Registry, name: TunnelName): Registry {
    g.(tasks := g.tasks[g.nextId := Destroying(name)], nextId := g.nextId + 1)
  }

  /** The segment of a destroy, running as task `t`, that takes the name out of the dictionaries. */
  function Unpublish(g: Registry, name: TunnelName, t: Id): Registry {
    var g1 := g.(namespaces := g.namespaces - {name}, exitStacks := g.exitStacks - {name});
    if name in g.exitStacks then
      g1.(tasks := g.tasks[t := Closing(g.exitStacks[name])], owner := g.owner[g.exitStacks[name] := ByCloser(t)])
    else g1.(tasks := g.tasks - {t})
  }

  function Conclude(g: Registry, t: Id): Registry
    requires t in g.tasks && g.tasks[t].Closing?
  {
    g.(tasks := g.tasks - {t}, owner := g.owner[g.tasks[t].stack := Nobody])
  }

  // ------------------------------------------------------------------ steps

  datatype Event =
    | SetupStart(name: TunnelName, request: Request, hasServer: bool)
    | Acquire(setup: Id, ok: bool, port: int)
    | SetupFail(setup: Id)
    | Register(setup: Id, fields: nat)
    | RebindWake(rebind: Id)
    | RebindLease(rebind: Id, ok: bool, port: int)
    | RebindCancel(rebind: Id)
    | DestroyStart(name: TunnelName, mustWait: bool)
    | DestroyResume(destroy: Id)
    | CloseOne(closer: Id)
    | CloseEnd(closer: Id)

  predicate InSetup(s: State, t: Id) {
    && t in s.registry.tasks && s.registry.tasks[t].SettingUp?
    && t in s.world.stacks && |s.world.stacks[t]| <= |PlanOf(s.registry.tasks[t])|
  }

  predicate InClosing(s: State, t: Id) {
    t in s.registry.tasks && s.registry.tasks[t].Closing? && s.registry.tasks[t].stack in s.world.stacks
  }

  predicate InLeasing(s: State, r: Id) {
    && r in s.ports.rebinds && s.ports.rebinds[r].phase.Leasing?
    && s.ports.rebinds[r].phase.todo != [] && s.ports.rebinds[r].phase.target in s.world.stacks
  }

  predicate Enabled(s: State, e: Event) {
    match e
    case SetupStart(_, _, _) => true
    case Acquire(t, _, _) => InSetup(s, t) && |s.world.stacks[t]| < |PlanOf(s.registry.tasks[t])|
    case SetupFail(t) => InSetup(s, t)
    case Register(t, _) => InSetup(s, t) && |s.world.stacks[t]| == |PlanOf(s.registry.tasks[t])|
    case RebindWake(r) => r in s.ports.rebinds && s.ports.rebinds[r].phase.Sleeping?
    case RebindLease(r, _, _) => InLeasing(s, r)
    case RebindCancel(r) => r in s.ports.rebinds
    case DestroyStart(_, _) => true
    case DestroyResume(t) => t in s.registry.tasks && s.registry.tasks[t].Destroying?
    case CloseOne(t) => InClosing(s, t) && s.world.stacks[s.registry.tasks[t].stack] != []
    case CloseEnd(t) => InClosing(s, t) && s.world.stacks[s.registry.tasks[t].stack] == []
  }

  function StartSetup(s: State, name: TunnelName, request: Request, hasServer: bool): State {
    if name in s.registry.namespaces then s
    else
      s.(world := s.world.(stacks := s.world.stacks[s.registry.nextId := []]),
         registry := Begin(s.registry, SettingUp(name, request, hasServer, map[])))
  }

  /** The `except` branch: forget the context, then unwind whatever was entered. */
  function FailSetup(s: State, t: Id): State
    requires InSetup(s, t)
  {
    s.(registry := Abandon(s.registry, t),
       ports := s.ports.(contexts := s.ports.contexts - {s.registry.tasks[t].name}))
  }

  /** The name a setup's next port lease is filed under. */
  function PortName(task: Task, entered: nat): Option<string>
    requires task.SettingUp?
  {
    var i := entered - (|PlanOf(task)| - |task.request.ports|);
    if task.request.vpn && 0 <= i < |task.request.ports| then Some(task.request.ports[i]) else None
  }

  function File(task: Task, entered: nat, port: int): Task
    requires task.SettingUp?
  {
    match PortName(task, entered)
    case None => task
    case Some(name) => task.(leased := task.leased[name := port])
  }

  function AcquireNext(s: State, t: Id, ok: bool, port: int): State
    requires InSetup(s, t) && |s.world.stacks[t]| < |PlanOf(s.registry.tasks[t])|
  {
    var task, entered := s.registry.tasks[t], |s.world.stacks[t]|;
    if ok && CanEnter(s.world, PlanOf(task)[entered]) then
      s.(world := Push(s.world, t, PlanOf(task)[entered]),
         registry := s.registry.(tasks := s.registry.tasks[t := File(task, entered, port)]))
    else FailSetup(s, t)
  }

  function FirstContext(task: Task, fields: nat): Context
    requires task.SettingUp?
  {
    if task.request.vpn then Context(fields, DistinctNames(task.request.ports), task.leased, true)
    else Context(fields, [], map[], false)
  }

  /** The last segment of a setup, together with the caller's segment that follows it. */
  function RegisterTunnel(s: State, t: Id, fields: nat): State
    requires InSetup(s, t)
  {
    var task := s.registry.tasks[t];
    var requested := if task.request.vpn then task.request.ports else [];
    var context := FirstContext(task, fields);
    var contexts := s.ports.contexts[task.name := context];
    var started := if task.request.listed then s.ports.started else s.ports.started[t := task.name];
    s.(registry := Publish(s.registry, task.name, t),
       ports :=
         if task.request.rebind then
           Ports(contexts,
                 if task.request.listed then s.ports.rebindTasks[task.name := t] else s.ports.rebindTasks,
                 s.ports.rebinds[t := Rebind(task.name, Sleeping, requested, context, 0)],
                 started)
         else s.ports.(contexts := contexts, started := started))
  }

  function SetPhase(p: Ports, r: Id, phase: Phase): Ports
    requires r in p.rebinds
  {
    p.(rebinds := p.rebinds[r := p.rebinds[r].(phase := phase)])
  }

  /** Aim for the next lease, looking the stack up by name; a missing name is a failure. With
      nothing left to lease, the context is replaced and the round is complete. */
  function NextLease(p: Ports, exitStacks: map<TunnelName, Id>, r: Id, base: Context, todo: seq<string>,
          renewed: map<string, int>): Ports
    requires r in p.rebinds
  {
    var rebind := p.rebinds[r];
    if todo == [] then
      p.(contexts := p.contexts[rebind.name := base.(ports := renewed)],
         rebinds := p.rebinds[r := rebind.(phase := Sleeping, rounds := rebind.rounds + 1)])
    else if rebind.name !in exitStacks then SetPhase(p, r, Failed)
    else SetPhase(p, r, Leasing(base, todo, renewed, exitStacks[rebind.name]))
  }

  function WakeRebind(s: State, r: Id): State
    requires r in s.ports.rebinds
  {
    var name := s.ports.rebinds[r].name;
    if name !in s.ports.contexts || !s.ports.contexts[name].canForward then s.(ports := SetPhase(s.ports, r, Finished))
    else
      s.(ports := NextLease(s.ports, s.registry.exitStacks, r, s.ports.contexts[name], s.ports.contexts[name].names, map[]))
  }

  function LeaseNext(s: State, r: Id, ok: bool, port: int): State
    requires InLeasing(s, r)
  {
    var phase := s.ports.rebinds[r].phase;
    if !ok then s.(ports := SetPhase(s.ports, r, Failed))
    else
      s.(world := Push(s.world, phase.target, PortLease),
         ports := NextLease(s.ports, s.registry.exitStacks, r, phase.base, phase.todo[1..], phase.renewed[phase.todo[0] := port]))
  }

  function PopTunnel(s: State, name: TunnelName, t: Id): State {
    s.(registry := Unpublish(s.registry, name, t), ports := s.ports.(contexts := s.ports.contexts - {name}))
  }

  /** Up to the first suspension: a live rebind task is cancelled and awaited; one that has died
      of an exception makes the destroy raise right there. */
  function StartDestroy(s: State, name: TunnelName, mustWait: bool): State {
    var p := s.ports.(rebindTasks := s.ports.rebindTasks - {name});
    if name in s.ports.rebindTasks && s.ports.rebindTasks[name] in s.ports.rebinds then
      var r := s.ports.rebindTasks[name];
      if s.ports.rebinds[r].phase.Failed? then s.(ports := p)
      else if s.ports.rebinds[r].phase.Finished? then DestroyOn(s.(ports := p), name, mustWait)
      else s.(registry := Suspend(s.registry, name), ports := p.(rebinds := p.rebinds - {r}))
    else DestroyOn(s.(ports := p), name, mustWait)
  }

  /** The rest of the destroy's first segment, when no rebind task had to be awaited. */
  function DestroyOn(s: State, name: TunnelName, mustWait: bool): State {
    if mustWait then s.(registry := Suspend(s.registry, name))
    else PopTunnel(s.(registry := s.registry.(nextId := s.registry.nextId + 1)), name, s.registry.nextId)
  }

  function Step(s: State, e: Event): State
    requires Enabled(s, e)
  {
    match e
    case SetupStart(name, request, hasServer) => StartSetup(s, name, request, hasServer)
    case Acquire(t, ok, port) => AcquireNext(s, t, ok, port)
    case SetupFail(t) => FailSetup(s, t)
    case Register(t, fields) => RegisterTunnel(s, t, fields)
    case RebindWake(r) => WakeRebind(s, r)
    case RebindLease(r, ok, port) => LeaseNext(s, r, ok, port)
    case RebindCancel(r) => s.(ports := s.ports.(rebinds := s.ports.rebinds - {r}))
    case DestroyStart(name, mustWait) => StartDestroy(s, name, mustWait)
    case DestroyResume(t) => PopTunnel(s, s.registry.tasks[t].name, t)
    case CloseOne(t) => s.(world := Pop(s.world, s.registry.tasks[t].stack))
    case CloseEnd(t) => s.(registry := Conclude(s.registry, t))
  }

  ghost predicate Run(s: State, events: seq<Event>, s': State)
    decreases |events|
  {
    if events == [] then s == s'
    else Enabled(s, events[0]) && Run(Step(s, events[0]), events[1..], s')
  }
}

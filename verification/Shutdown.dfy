/** Run requests, port-rebind signals and destroys of `service.py` as interleaved segments: who
    may still spawn, who is restarted, and what a waiting destroy waits for. */
module Shutdown {
  import opened Prelude
  import Tunnels

  type Id = nat
  type Name = Tunnels.TunnelName
  type Pid = nat
  type FutureId = nat

  // ------------------------------------------------------------------ state

  /** A rebind waiter. The set object it was added to is `home`; `signals` counts `set_result`. */
  datatype FutureState = Pending | Resolved | Cancelled

  datatype Future = Future(home: Id, state: FutureState, signals: nat)

  /** `waiters` maps a name to its current set object; a set outlives its entry. `names` is
      history: whose set it was made for. */
  datatype Signals = Signals(
    waiters: map<Name, Id>,
    sets: map<Id, set<FutureId>>,
    futures: map<FutureId, Future>,
    names: map<Id, Name>,
    nextSet: Id)

  /** `exited` is the operating system's. The rest is history: what was `spawned`; what a handler
      could not record, its table having been popped; and what was taken out of the tables to be
      killed and replaced, its run having been signalled. */
  datatype Tables = Tables(
    processes: map<Name, set<Pid>>,
    active: map<Name, set<Pid>>,
    exited: set<Pid>,
    spawned: map<Pid, Spawn>,
    unrecorded: set<Pid>,
    replaced: set<Pid>)

  /** By whom a process was spawned: the run request was let in at `admitted`. */
  datatype Spawn = Spawn(name: Name, admitted: nat, at: nat)

  datatype RunPhase =
    | Preparing
    | Announcing(pid: Pid)
    | Waiting(pid: Pid, waiter: Option<FutureId>)
    | Stopping(pid: Pid, waiter: Option<FutureId>)

  datatype Run = Run(name: Name, phase: RunPhase, admitted: nat)

  /** A destroy in flight: `awaited` is what it took out of the active table when it began;
      `previous` (history) is when the destroy of that name before it began. */
  datatype Destroy = Destroy(name: Name, wait: bool, awaited: set<Pid>, began: nat, previous: Option<nat>, closing: bool)

  /** `over` records the destroys that have ended, `lastBegan` when the last destroy of a name began. */
  datatype Gate = Gate(
    shuttingDown: set<Name>,
    runs: map<Id, Run>,
    nextRun: Id,
    destroys: map<Id, Destroy>,
    over: seq<Over>,
    lastBegan: map<Name, nat>)

  datatype Over = Over(name: Name, began: nat, ended: nat)

  datatype Status = Status(clock: nat, gate: Gate, tables: Tables, signals: Signals)

  const IDLE: Status :=
    Status(0, Gate({}, map[], 0, map[], [], map[]), Tables(map[], map[], {}, map[], {}, {}), Signals(map[], map[], map[], map[], 0))

  // ------------------------------------------------------------------ dictionary operations

  function At(table: map<Name, set<Pid>>, name: Name): set<Pid> {
    if name in table then table[name] else {}
  }

  /** `setdefault(name, {})` on the process table. */
  function Ensure(t: Tables, name: Name): Tables {
    if name in t.processes then t else t.(processes := t.processes[name := {}])
  }

  /** Record a started process; `None` is the `KeyError` of a table that a destroy has popped. */
  function Record(t: Tables, name: Name, pid: Pid): Option<Tables> {
    if name !in t.processes then None
    else Some(t.(processes := t.processes[name := t.processes[name] + {pid}],
                 active := t.active[name := At(t.active, name) + {pid}]))
  }

  function Discard(table: map<Name, set<Pid>>, name: Name, pid: Pid): map<Name, set<Pid>> {
    if name in table then table[name := table[name] - {pid}] else table
  }

  function Forget(t: Tables, name: Name, pid: Pid): Tables {
    t.(processes := Discard(t.processes, name, pid), active := Discard(t.active, name, pid))
  }

  /** A setup gives its name a new, empty set of waiters. */
  function Open(g: Signals, name: Name): Signals {
    g.(waiters := g.waiters[name := g.nextSet], sets := g.sets[g.nextSet := {}],
       names := g.names[g.nextSet := name], nextSet := g.nextSet + 1)
  }

  function Join(g: Signals, name: Name, f: FutureId): Signals {
    if name !in g.waiters || g.waiters[name] !in g.sets then g
    else
      var home := g.waiters[name];
      g.(sets := g.sets[home := g.sets[home] + {f}], futures := g.futures[f := Future(home, Pending, 0)])
  }

  function SetResult(f: Future): Future {
    if f.state.Pending? then f.(state := Resolved, signals := f.signals + 1) else f
  }

  /** The end of a rebind round: every waiter in the name's current set that is not done. */
  function Signal(g: Signals, name: Name): Signals {
    if name !in g.waiters || g.waiters[name] !in g.sets then g
    else
      g.(futures := map f | f in g.futures :: if f in g.sets[g.waiters[name]] then SetResult(g.futures[f]) else g.futures[f])
  }

  /** The `finally` of a waiting run: out of its set, and cancelled unless done. */
  function Leave(g: Signals, waiter: Option<FutureId>): Signals {
    if waiter.None? || waiter.value !in g.futures then g
    else
      var f := waiter.value;
      var home := g.futures[f].home;
      g.(sets := if home in g.sets then g.sets[home := g.sets[home] - {f}] else g.sets,
         futures := if g.futures[f].state.Pending? then g.futures[f := g.futures[f].(state := Cancelled)] else g.futures)
  }

  function Close(g: Signals, name: Name): Signals {
    g.(waiters := g.waiters - {name})
  }

  // ------------------------------------------------------------------ steps

  datatype Event =
    | RunStart(name: Name)
    | RunReady(run: Id)
    | RunFail(run: Id)
    | Spawned(run: Id, pid: Pid)
    | Announced(run: Id, future: FutureId)
    | Exits(pid: Pid)
    | Wakes(run: Id)
    | Restarts(run: Id)
    | SetupBegins(name: Name)
    | Rebound(name: Name)
    | DestroyBegins(destroy: Id, name: Name, wait: bool)
    | DestroyPops(destroy: Id)
    | DestroyEnds(destroy: Id)

  predicate In(s: Status, r: Id) {
    r in s.gate.runs
  }

  /** A waiting run wakes when its process has exited or its future is done. */
  predicate Signalled(g: Signals, waiter: Option<FutureId>) {
    waiter.Some? && waiter.value in g.futures && g.futures[waiter.value].state.Resolved?
  }

  predicate Enabled(s: Status, e: Event) {
    match e
    case RunStart(_) => true
    case RunReady(r) => In(s, r) && s.gate.runs[r].phase.Preparing?
    case RunFail(r) => In(s, r)
    case Spawned(r, pid) => In(s, r) && s.gate.runs[r].phase.Preparing? && pid !in s.tables.spawned
    case Announced(r, f) => In(s, r) && s.gate.runs[r].phase.Announcing? && f !in s.signals.futures
    case Exits(pid) => pid in s.tables.spawned
    case Wakes(r) =>
      In(s, r) && s.gate.runs[r].phase.Waiting? &&
      (s.gate.runs[r].phase.pid in s.tables.exited || Signalled(s.signals, s.gate.runs[r].phase.waiter))
    case Restarts(r) => In(s, r) && s.gate.runs[r].phase.Stopping? && s.gate.runs[r].phase.pid in s.tables.exited
    case SetupBegins(_) => true
    case Rebound(_) => true
    case DestroyBegins(d, _, _) => d !in s.gate.destroys
    case DestroyPops(d) =>
      && d in s.gate.destroys && !s.gate.destroys[d].closing
      && (s.gate.destroys[d].wait ==> s.gate.destroys[d].awaited <= s.tables.exited)
    case DestroyEnds(d) => d in s.gate.destroys
  }

  function SetRun(g: Gate, r: Id, phase: RunPhase): Gate
    requires r in g.runs
  {
    g.(runs := g.runs[r := g.runs[r].(phase := phase)])
  }

  function EndRun(g: Gate, r: Id): Gate {
    g.(runs := g.runs - {r})
  }

  /** A run request is turned away while its tunnel is being destroyed. */
  function Admit(g: Gate, name: Name, now: nat): Gate {
    if name in g.shuttingDown then g
    else g.(runs := g.runs[g.nextRun := Run(name, Preparing, now)], nextRun := g.nextRun + 1)
  }

  function WaiterOf(phase: RunPhase): Option<FutureId> {
    if phase.Waiting? || phase.Stopping? then phase.waiter else None
  }

  /** A process has been created; when its table is gone the handler dies of a `KeyError`. */
  function SpawnRun(s: Status, r: Id, pid: Pid): Status
    requires In(s, r)
  {
    var run := s.gate.runs[r];
    var t := s.tables.(spawned := s.tables.spawned[pid := Spawn(run.name, run.admitted, s.clock)]);
    match Record(t, run.name, pid)
    case None => s.(tables := t.(unrecorded := t.unrecorded + {pid}), gate := EndRun(s.gate, r))
    case Some(t') => s.(tables := t', gate := SetRun(s.gate, r, Announcing(pid)))
  }

  function AnnounceRun(s: Status, r: Id, f: FutureId): Status
    requires In(s, r) && s.gate.runs[r].phase.Announcing?
  {
    var name, pid := s.gate.runs[r].name, s.gate.runs[r].phase.pid;
    if name in s.signals.waiters then
      s.(signals := Join(s.signals, name, f), gate := SetRun(s.gate, r, Waiting(pid, Some(f))))
    else s.(gate := SetRun(s.gate, r, Waiting(pid, None)))
  }

  function WakeRun(s: Status, r: Id): Status
    requires In(s, r) && s.gate.runs[r].phase.Waiting?
  {
    var run := s.gate.runs[r];
    var t := Forget(s.tables, run.name, run.phase.pid);
    if Signalled(s.signals, run.phase.waiter) then
      s.(tables := t.(replaced := t.replaced + {run.phase.pid}),
         gate := SetRun(s.gate, r, Stopping(run.phase.pid, run.phase.waiter)))
    else s.(tables := t, gate := EndRun(s.gate, r), signals := Leave(s.signals, run.phase.waiter))
  }

  function StartDestroy(s: Status, d: Id, name: Name, wait: bool): Status {
    var previous := if name in s.gate.lastBegan then Some(s.gate.lastBegan[name]) else None;
    s.(gate := s.gate.(shuttingDown := s.gate.shuttingDown + {name},
                       destroys := s.gate.destroys[d := Destroy(name, wait, At(s.tables.active, name), s.clock, previous, false)],
                       lastBegan := s.gate.lastBegan[name := s.clock]),
       tables := s.tables.(active := s.tables.active - {name}),
       signals := Close(s.signals, name))
  }

  function EndDestroy(g: Gate, d: Id, now: nat): Gate
    requires d in g.destroys
  {
    var over := Over(g.destroys[d].name, g.destroys[d].began, now);
    g.(shuttingDown := g.shuttingDown - {g.destroys[d].name}, destroys := g.destroys - {d}, over := g.over + [over])
  }

  function Act(s: Status, e: Event): Status
    requires Enabled(s, e)
  {
    match e
    case RunStart(name) => s.(gate := Admit(s.gate, name, s.clock))
    case RunReady(r) => s.(tables := Ensure(s.tables, s.gate.runs[r].name))
    case RunFail(r) => s.(gate := EndRun(s.gate, r), signals := Leave(s.signals, WaiterOf(s.gate.runs[r].phase)))
    case Spawned(r, pid) => SpawnRun(s, r, pid)
    case Announced(r, f) => AnnounceRun(s, r, f)
    case Exits(pid) => s.(tables := s.tables.(exited := s.tables.exited + {pid}))
    case Wakes(r) => WakeRun(s, r)
    case Restarts(r) => s.(gate := SetRun(s.gate, r, Preparing), signals := Leave(s.signals, s.gate.runs[r].phase.waiter))
    case SetupBegins(name) => s.(signals := Open(s.signals, name))
    case Rebound(name) => s.(signals := Signal(s.signals, name))
    case DestroyBegins(d, name, wait) => StartDestroy(s, d, name, wait)
    case DestroyPops(d) =>
      s.(gate := s.gate.(destroys := s.gate.destroys[d := s.gate.destroys[d].(closing := true)]),
         tables := s.tables.(processes := s.tables.processes - {s.gate.destroys[d].name}))
    case DestroyEnds(d) => s.(gate := EndDestroy(s.gate, d, s.clock))
  }

  function Step(s: Status, e: Event): Status
    requires Enabled(s, e)
  {
    Act(s, e).(clock := s.clock + 1)
  }

  ghost predicate Steps(s: Status, events: seq<Event>, s': Status)
    decreases |events|
  {
    if events == [] then s == s'
    else Enabled(s, events[0]) && Steps(Step(s, events[0]), events[1..], s')
  }

  // ------------------------------------------------------------------ signals

  ghost predicate SetsOk(g: Signals) {
    && (forall k, f :: k in g.sets && f in g.sets[k] ==>
          f in g.futures && g.futures[f].home == k && !g.futures[f].state.Cancelled?)
    && (forall k :: k in g.sets ==> k < g.nextSet)
    && (forall n :: n in g.waiters ==> g.waiters[n] in g.sets)
  }

  ghost predicate NamesOk(g: Signals) {
    && (forall n :: n in g.waiters ==> g.waiters[n] in g.names && g.names[g.waiters[n]] == n)
    && (forall f :: f in g.futures ==> g.futures[f].home in g.names)
    && (forall k :: k in g.names ==> k < g.nextSet)
  }

  ghost predicate CountsOk(g: Signals) {
    forall f :: f in g.futures ==> g.futures[f].signals == if g.futures[f].state.Resolved? then 1 else 0
  }

  ghost predicate SignalsInv(g: Signals) {
    SetsOk(g) && NamesOk(g) && CountsOk(g)
  }

  lemma OpenKeeps(g: Signals, name: Name)
    requires SignalsInv(g)
    ensures SignalsInv(Open(g, name))
  {
  }

  lemma JoinKeeps(g: Signals, name: Name, f: FutureId)
    requires SignalsInv(g) && f !in g.futures
    ensures SignalsInv(Join(g, name, f))
  {
  }

  lemma SignalKeeps(g: Signals, name: Name)
    requires SignalsInv(g)
    ensures SignalsInv(Signal(g, name))
  {
  }

  lemma LeaveKeeps(g: Signals, w: Option<FutureId>)
    requires SignalsInv(g)
    ensures SignalsInv(Leave(g, w))
  {
  }

  lemma StepKeepsSignals(s: Status, e: Event)
    requires Enabled(s, e) && SignalsInv(s.signals)
    ensures SignalsInv(Step(s, e).signals)
  {
    match e
    case RunFail(r) => LeaveKeeps(s.signals, WaiterOf(s.gate.runs[r].phase));
    case Announced(r, f) => JoinKeeps(s.signals, s.gate.runs[r].name, f);
    case Wakes(r) => LeaveKeeps(s.signals, s.gate.runs[r].phase.waiter);
    case Restarts(r) => LeaveKeeps(s.signals, s.gate.runs[r].phase.waiter);
    case SetupBegins(name) => OpenKeeps(s.signals, name);
    case Rebound(name) => SignalKeeps(s.signals, name);
    case _ =>
  }

  /** One completed round resolves every waiter registered at that instant and no other future,
      and what is resolved has been signalled once, over whole runs. */
  lemma SignalResolvesExactlyTheWaiters(events: seq<Event>, s: Status, name: Name, f: FutureId)
    requires Steps(IDLE, events, s) && f in s.signals.futures
    ensures var g, g' := s.signals, Step(s, Rebound(name)).signals;
      && f in g'.futures && g'.futures[f].signals <= 1
      && (name in g.waiters ==> g.waiters[name] in g.sets)
      && (name in g.waiters && f in g.sets[g.waiters[name]] ==> g'.futures[f].state.Resolved? && g'.futures[f].signals == 1)
      && ((name in g.waiters && f in g.sets[g.waiters[name]]) || g'.futures[f] == g.futures[f])
  {
    StepsKeepSignals(IDLE, events, s);
  }

  lemma {:induction false} StepsKeepSignals(s: Status, events: seq<Event>, s': Status)
    requires Steps(s, events, s') && SignalsInv(s.signals)
    ensures SignalsInv(s'.signals)
    decreases |events|
  {
    if events != [] {
      StepKeepsSignals(s, events[0]);
      StepsKeepSignals(Step(s, events[0]), events[1..], s');
    }
  }

  /** A waiting run whose future is done is restarted, even if its process has exited as well: the
      process goes off the record, and once it has exited the same request prepares its next one. */
  lemma SignalledRunIsRestarted(s: Status, r: Id)
    requires In(s, r) && s.gate.runs[r].phase.Waiting? && s.gate.runs[r].phase.pid in s.tables.spawned
    requires Signalled(s.signals, s.gate.runs[r].phase.waiter)
    ensures var run := s.gate.runs[r];
      var woken := Step(s, Wakes(r));
      var reaped := Step(woken, Exits(run.phase.pid));
      && woken.gate.runs == s.gate.runs[r := run.(phase := Stopping(run.phase.pid, run.phase.waiter))]
      && run.phase.pid !in At(woken.tables.processes, run.name) && run.phase.pid !in At(woken.tables.active, run.name)
      && Enabled(reaped, Restarts(r)) && Step(reaped, Restarts(r)).gate.runs == s.gate.runs[r := run.(phase := Preparing)]
  {
  }

  /** One whose future is not done ends when its process has exited, and leaves no waiter behind. */
  lemma ExitedRunEnds(s: Status, r: Id)
    requires In(s, r) && s.gate.runs[r].phase.Waiting? && s.gate.runs[r].phase.pid in s.tables.exited
    requires !Signalled(s.signals, s.gate.runs[r].phase.waiter)
    ensures var run, s' := s.gate.runs[r], Step(s, Wakes(r));
      && r !in s'.gate.runs
      && run.phase.pid !in At(s'.tables.processes, run.name) && run.phase.pid !in At(s'.tables.active, run.name)
      && (forall f, k :: run.phase.waiter == Some(f) && f in s.signals.futures && s.signals.futures[f].home == k && k in s'.signals.sets ==>
            f !in s'.signals.sets[k])
  {
  }

  // ------------------------------------------------------------------ no restart after a destroy has begun

  /** A run's waiter is in a set that was made for the run's tunnel. */
  ghost predicate WaitersOk(gate: Gate, g: Signals) {
    forall r :: r in gate.runs ==>
      r < gate.nextRun
      && (WaiterOf(gate.runs[r].phase).Some? ==> WaiterOk(g, gate.runs[r].name, WaiterOf(gate.runs[r].phase).value))
  }

  predicate WaiterOk(g: Signals, name: Name, f: FutureId) {
    f in g.futures && g.futures[f].home in g.names && g.names[g.futures[f].home] == name
  }

  /** Waiters keep their set, and sets keep the name they were made for. */
  lemma StepKeepsHomes(s: Status, e: Event, name: Name, f: FutureId)
    requires Enabled(s, e) && SignalsInv(s.signals) && WaiterOk(s.signals, name, f)
    ensures WaiterOk(Step(s, e).signals, name, f)
  {
    match e
    case Announced(_, _) =>
    case Rebound(_) =>
    case _ =>
  }

  lemma AnnouncedJoins(s: Status, r: Id, f: FutureId)
    requires Enabled(s, Announced(r, f)) && SignalsInv(s.signals)
    ensures var s' := AnnounceRun(s, r, f);
      WaiterOf(s'.gate.runs[r].phase).Some? ==> WaiterOk(s'.signals, s.gate.runs[r].name, WaiterOf(s'.gate.runs[r].phase).value)
  {
  }

  /** A step gives a waiter to no run but the one that announces itself. */
  lemma StepKeepsWaiter(s: Status, e: Event, r: Id)
    requires Enabled(s, e) && r in Step(s, e).gate.runs && (e.Announced? ==> e.run != r)
    ensures var phase := Step(s, e).gate.runs[r].phase;
      && (r in s.gate.runs || r == s.gate.nextRun)
      && (WaiterOf(phase).Some? ==>
            && r in s.gate.runs && s.gate.runs[r].name == Step(s, e).gate.runs[r].name
            && WaiterOf(phase) == WaiterOf(s.gate.runs[r].phase))
  {
  }

  lemma StepKeepsWaiters(s: Status, e: Event)
    requires Enabled(s, e) && SignalsInv(s.signals) && WaitersOk(s.gate, s.signals)
    ensures WaitersOk(Step(s, e).gate, Step(s, e).signals)
  {
    var s' := Step(s, e);
    forall r | r in s'.gate.runs
      ensures r < s'.gate.nextRun
      ensures WaiterOf(s'.gate.runs[r].phase).Some? ==> WaiterOk(s'.signals, s'.gate.runs[r].name, WaiterOf(s'.gate.runs[r].phase).value)
    {
      if e.Announced? && e.run == r {
        AnnouncedJoins(s, r, e.future);
      } else {
        StepKeepsWaiter(s, e, r);
        if WaiterOf(s'.gate.runs[r].phase).Some? {
          StepKeepsHomes(s, e, s.gate.runs[r].name, WaiterOf(s.gate.runs[r].phase).value);
        }
      }
    }
  }

  lemma {:induction false} StepsKeepWaiters(s: Status, events: seq<Event>, s': Status)
    requires Steps(s, events, s') && SignalsInv(s.signals) && WaitersOk(s.gate, s.signals)
    ensures SignalsInv(s'.signals) && WaitersOk(s'.gate, s'.signals)
    decreases |events|
  {
    if events != [] {
      StepKeepsSignals(s, events[0]);
      StepKeepsWaiters(s, events[0]);
      StepsKeepWaiters(Step(s, events[0]), events[1..], s');
    }
  }

  /** Future `f` is unresolved, in a set that is no name's current set. */
  ghost predicate Detached(g: Signals, f: FutureId) {
    f in g.futures && !g.futures[f].state.Resolved? && forall n :: n in g.waiters ==> g.waiters[n] != g.futures[f].home
  }

  lemma StepKeepsDetached(s: Status, e: Event, f: FutureId)
    requires Enabled(s, e) && SignalsInv(s.signals) && Detached(s.signals, f)
    ensures Detached(Step(s, e).signals, f)
  {
    match e
    case Announced(_, _) =>
    case Rebound(name) => assert name in s.signals.waiters ==> f !in s.signals.sets[s.signals.waiters[name]];
    case _ =>
  }

  /** Run `r` will not be restarted: it waits for a future that nothing will resolve, or it has
      yet to look for its tunnel's waiters and there are none. */
  ghost predicate Unrestartable(s: Status, r: Id) {
    r in s.gate.runs ==>
      var run := s.gate.runs[r];
      match run.phase
      case Preparing => run.name !in s.signals.waiters
      case Announcing(_) => run.name !in s.signals.waiters
      case Waiting(_, waiter) => waiter.None? || Detached(s.signals, waiter.value)
      case Stopping(_, _) => false
  }

  lemma StepKeepsWaiting(s: Status, e: Event, r: Id)
    requires Enabled(s, e) && SignalsInv(s.signals) && In(s, r) && r < s.gate.nextRun
    requires s.gate.runs[r].phase.Waiting? && Unrestartable(s, r)
    ensures In(Step(s, e), r) ==> Step(s, e).gate.runs[r] == s.gate.runs[r]
    ensures Unrestartable(Step(s, e), r)
  {
    if s.gate.runs[r].phase.waiter.Some? {
      StepKeepsDetached(s, e, s.gate.runs[r].phase.waiter.value);
    }
  }

  /** Only a setup gives a name waiters. */
  lemma StepOpensNone(s: Status, e: Event, name: Name)
    requires Enabled(s, e) && name !in s.signals.waiters && (e.SetupBegins? ==> e.name != name)
    ensures name !in Step(s, e).signals.waiters
  {
  }

  lemma StepKeepsOnItsWay(s: Status, e: Event, r: Id)
    requires Enabled(s, e) && In(s, r) && r < s.gate.nextRun && !s.gate.runs[r].phase.Waiting? && Unrestartable(s, r)
    ensures In(Step(s, e), r) ==>
              && Step(s, e).gate.runs[r].name == s.gate.runs[r].name
              && (Step(s, e).gate.runs[r].phase.Waiting? ==> Step(s, e).gate.runs[r].phase.waiter.None?)
              && !Step(s, e).gate.runs[r].phase.Stopping?
  {
  }

  lemma StepKeepsUnrestartable(s: Status, e: Event, r: Id)
    requires Enabled(s, e) && SignalsInv(s.signals) && r < s.gate.nextRun && Unrestartable(s, r)
    requires e.SetupBegins? && In(s, r) ==> s.gate.runs[r].phase.Waiting? || s.gate.runs[r].name != e.name
    ensures Unrestartable(Step(s, e), r) && r < Step(s, e).gate.nextRun
    ensures In(Step(s, e), r) ==>
              && In(s, r) && Step(s, e).gate.runs[r].name == s.gate.runs[r].name
              && (s.gate.runs[r].phase.Waiting? ==> Step(s, e).gate.runs[r] == s.gate.runs[r])
  {
    RunsAreFresh(s, e, r);
    if In(s, r) && s.gate.runs[r].phase.Waiting? {
      StepKeepsWaiting(s, e, r);
    } else if In(s, r) {
      StepOpensNone(s, e, s.gate.runs[r].name);
      StepKeepsOnItsWay(s, e, r);
    }
  }

  lemma RunsAreFresh(s: Status, e: Event, r: Id)
    requires Enabled(s, e) && r < s.gate.nextRun
    ensures In(Step(s, e), r) ==> In(s, r)
    ensures r < Step(s, e).gate.nextRun
  {
  }

  predicate NoSetups(events: seq<Event>, name: Name) {
    forall i :: 0 <= i < |events| && events[i].SetupBegins? ==> events[i].name != name
  }

  lemma {:induction false} StepsKeepUnrestartable(s: Status, events: seq<Event>, s': Status, r: Id)
    requires Steps(s, events, s') && SignalsInv(s.signals) && r < s.gate.nextRun && Unrestartable(s, r)
    requires r in s.gate.runs ==> s.gate.runs[r].phase.Waiting? || NoSetups(events, s.gate.runs[r].name)
    ensures Unrestartable(s', r)
    ensures r in s'.gate.runs ==>
              && r in s.gate.runs && s'.gate.runs[r].name == s.gate.runs[r].name
              && (s.gate.runs[r].phase.Waiting? ==> s'.gate.runs[r] == s.gate.runs[r])
    decreases |events|
  {
    if events != [] {
      StepKeepsSignals(s, events[0]);
      StepKeepsUnrestartable(s, events[0], r);
      StepsKeepUnrestartable(Step(s, events[0]), events[1..], s', r);
    }
  }

  /** A run that has not been signalled when a destroy of its tunnel begins is never restarted: if
      it was waiting, it waits until its process exits; and if it was still on its way to waiting,
      the same holds as long as no new tunnel of that name is set up. */
  lemma NoRestartAfterDestroyBegins(events: seq<Event>, s: Status, d: Id, name: Name, wait: bool, r: Id,
          later: seq<Event>, s': Status)
    requires Steps(IDLE, events, s) && Enabled(s, DestroyBegins(d, name, wait))
    requires r in s.gate.runs && s.gate.runs[r].name == name
    requires !s.gate.runs[r].phase.Stopping? && !Signalled(s.signals, WaiterOf(s.gate.runs[r].phase))
    requires s.gate.runs[r].phase.Waiting? || NoSetups(later, name)
    requires Steps(Step(s, DestroyBegins(d, name, wait)), later, s')
    ensures r in s'.gate.runs ==> !s'.gate.runs[r].phase.Stopping?
    ensures r in s'.gate.runs && s.gate.runs[r].phase.Waiting? ==> s'.gate.runs[r] == s.gate.runs[r]
  {
    StepsKeepWaiters(IDLE, events, s);
    var s1 := Step(s, DestroyBegins(d, name, wait));
    StepKeepsSignals(s, DestroyBegins(d, name, wait));
    assert s1.gate.runs == s.gate.runs;
    StepsKeepUnrestartable(s1, later, s', r);
  }

  // ------------------------------------------------------------------ no spawn from a request made during a destroy

  /** At most one destroy of a name is in flight. */
  ghost predicate OneDestroy(s: Status, e: Event) {
    e.DestroyBegins? ==> forall d :: d in s.gate.destroys ==> s.gate.destroys[d].name != e.name
  }

  ghost predicate SingleSteps(s: Status, events: seq<Event>, s': Status)
    decreases |events|
  {
    if events == [] then s == s'
    else Enabled(s, events[0]) && OneDestroy(s, events[0]) && SingleSteps(Step(s, events[0]), events[1..], s')
  }

  /** Time `t` lies in no destroy of `name`. */
  ghost predicate Outside(gate: Gate, name: Name, t: nat) {
    && (forall d :: d in gate.destroys && gate.destroys[d].name == name ==> t < gate.destroys[d].began)
    && (forall i :: 0 <= i < |gate.over| && gate.over[i].name == name ==> t < gate.over[i].began || gate.over[i].ended < t)
  }

  ghost predicate DestroysOk(gate: Gate, clock: nat) {
    && (forall d :: d in gate.destroys ==> gate.destroys[d].name in gate.shuttingDown && gate.destroys[d].began < clock)
    && (forall d, d' :: d in gate.destroys && d' in gate.destroys && d != d' ==> gate.destroys[d].name != gate.destroys[d'].name)
    && (forall i :: 0 <= i < |gate.over| ==> gate.over[i].ended < clock)
  }

  ghost predicate GateInv(s: Status) {
    && DestroysOk(s.gate, s.clock)
    && (forall r :: r in s.gate.runs ==>
          s.gate.runs[r].admitted < s.clock && Outside(s.gate, s.gate.runs[r].name, s.gate.runs[r].admitted))
    && (forall pid :: pid in s.tables.spawned ==>
          s.tables.spawned[pid].admitted < s.clock && Outside(s.gate, s.tables.spawned[pid].name, s.tables.spawned[pid].admitted))
  }

  lemma OthersKeepDestroys(s: Status, e: Event)
    requires Enabled(s, e) && !e.DestroyBegins? && !e.DestroyPops? && !e.DestroyEnds?
    ensures var g, g' := s.gate, Step(s, e).gate;
            g'.destroys == g.destroys && g'.shuttingDown == g.shuttingDown && g'.over == g.over
  {
  }

  lemma StepKeepsDestroys(s: Status, e: Event)
    requires DestroysOk(s.gate, s.clock) && Enabled(s, e) && OneDestroy(s, e)
    ensures DestroysOk(Step(s, e).gate, Step(s, e).clock)
  {
    if e.DestroyBegins? || e.DestroyPops? || e.DestroyEnds? {
    } else {
      OthersKeepDestroys(s, e);
    }
  }

  /** What lay outside every destroy so far still does after one more step. */
  lemma StepKeepsOutside(s: Status, e: Event, name: Name, t: nat)
    requires Enabled(s, e) && t < s.clock && Outside(s.gate, name, t)
    ensures Outside(Step(s, e).gate, name, t)
  {
  }

  /** A request is let in only outside of every destroy of its tunnel. */
  lemma AdmittedOutside(s: Status, name: Name)
    requires DestroysOk(s.gate, s.clock) && name !in s.gate.shuttingDown
    ensures Outside(s.gate, name, s.clock)
  {
  }

  /** Where a run or a spawn of the next state comes from. */
  lemma StepOrigins(s: Status, e: Event)
    requires Enabled(s, e)
    ensures forall r :: r in Step(s, e).gate.runs ==>
              var run := Step(s, e).gate.runs[r];
              || (r in s.gate.runs && s.gate.runs[r].name == run.name && s.gate.runs[r].admitted == run.admitted)
              || (e == RunStart(run.name) && run.name !in s.gate.shuttingDown && run.admitted == s.clock)
    ensures forall pid :: pid in Step(s, e).tables.spawned ==>
              var spawn := Step(s, e).tables.spawned[pid];
              || (pid in s.tables.spawned && s.tables.spawned[pid] == spawn)
              || (e.Spawned? && e.run in s.gate.runs
                  && s.gate.runs[e.run].name == spawn.name && s.gate.runs[e.run].admitted == spawn.admitted)
  {
  }

  lemma StepKeepsGate(s: Status, e: Event)
    requires GateInv(s) && Enabled(s, e) && OneDestroy(s, e)
    ensures GateInv(Step(s, e))
  {
    var s' := Step(s, e);
    StepKeepsDestroys(s, e);
    StepOrigins(s, e);
    forall r | r in s'.gate.runs
      ensures s'.gate.runs[r].admitted < s'.clock && Outside(s'.gate, s'.gate.runs[r].name, s'.gate.runs[r].admitted)
    {
      var run := s'.gate.runs[r];
      if r in s.gate.runs && s.gate.runs[r].name == run.name && s.gate.runs[r].admitted == run.admitted {
        StepKeepsOutside(s, e, run.name, run.admitted);
      } else {
        AdmittedOutside(s, run.name);
      }
    }
    forall pid | pid in s'.tables.spawned
      ensures s'.tables.spawned[pid].admitted < s'.clock && Outside(s'.gate, s'.tables.spawned[pid].name, s'.tables.spawned[pid].admitted)
    {
      StepKeepsOutside(s, e, s'.tables.spawned[pid].name, s'.tables.spawned[pid].admitted);
    }
  }

  lemma {:induction false} StepsKeepGate(s: Status, events: seq<Event>, s': Status)
    requires GateInv(s) && SingleSteps(s, events, s')
    ensures GateInv(s')
    decreases |events|
  {
    if events != [] {
      StepKeepsGate(s, events[0]);
      StepsKeepGate(Step(s, events[0]), events[1..], s');
    }
  }

  /** With at most one destroy of a name in flight, no process of that tunnel is ever spawned for
      a request that came in while one was: not then, and not after it is over. */
  lemma NoSpawnForRequestsDuringDestroy(events: seq<Event>, s: Status, pid: Pid)
    requires SingleSteps(IDLE, events, s) && pid in s.tables.spawned
    ensures var spawn := s.tables.spawned[pid];
      && (forall d :: d in s.gate.destroys && s.gate.destroys[d].name == spawn.name ==> spawn.admitted < s.gate.destroys[d].began)
      && (forall i :: 0 <= i < |s.gate.over| && s.gate.over[i].name == spawn.name ==>
            !(s.gate.over[i].began <= spawn.admitted <= s.gate.over[i].ended))
  {
    StepsKeepGate(IDLE, events, s);
  }

  /** A name is shutting down for as long as a destroy of it is in flight. */
  ghost predicate ShutIffDestroying(g: Gate) {
    forall name :: name in g.shuttingDown <==> exists d :: d in g.destroys && g.destroys[d].name == name
  }

  lemma StepKeepsShut(s: Status, e: Event)
    requires DestroysOk(s.gate, s.clock) && ShutIffDestroying(s.gate) && Enabled(s, e) && OneDestroy(s, e)
    ensures ShutIffDestroying(Step(s, e).gate)
  {
    var g, g' := s.gate, Step(s, e).gate;
    if e.DestroyBegins? || e.DestroyPops? || e.DestroyEnds? {
      forall name ensures name in g'.shuttingDown <==> exists d :: d in g'.destroys && g'.destroys[d].name == name {
        if d :| d in g.destroys && g.destroys[d].name == name {
          assert !(e.DestroyEnds? && e.destroy == d) ==> d in g'.destroys && g'.destroys[d].name == name;
        }
        assert e.DestroyBegins? && e.name == name ==> e.destroy in g'.destroys && g'.destroys[e.destroy].name == name;
      }
    } else {
      OthersKeepDestroys(s, e);
    }
  }

  lemma {:induction false} StepsKeepShut(s: Status, events: seq<Event>, s': Status)
    requires DestroysOk(s.gate, s.clock) && ShutIffDestroying(s.gate) && SingleSteps(s, events, s')
    ensures ShutIffDestroying(s'.gate)
    decreases |events|
  {
    if events != [] {
      StepKeepsDestroys(s, events[0]);
      StepKeepsShut(s, events[0]);
      StepsKeepShut(Step(s, events[0]), events[1..], s');
    }
  }

  /** With at most one destroy of a name in flight, a run request is turned away exactly while one
      is: before it has begun, and again after it has ended, requests are let in. */
  lemma TurnedAwayIffDestroying(events: seq<Event>, s: Status, name: Name)
    requires SingleSteps(IDLE, events, s)
    ensures Step(s, RunStart(name)).gate.runs == s.gate.runs <==> exists d :: d in s.gate.destroys && s.gate.destroys[d].name == name
  {
    StepsKeepShut(IDLE, events, s);
    SingleAreSteps(IDLE, events, s);
    StepsKeepWaiters(IDLE, events, s);
    assert s.gate.nextRun !in s.gate.runs;
    if name !in s.gate.shuttingDown {
      assert s.gate.nextRun in Step(s, RunStart(name)).gate.runs;
    }
  }

  lemma {:induction false} SingleAreSteps(s: Status, events: seq<Event>, s': Status)
    requires SingleSteps(s, events, s')
    ensures Steps(s, events, s')
    decreases |events|
  {
    if events != [] {
      SingleAreSteps(Step(s, events[0]), events[1..], s');
    }
  }

  // ------------------------------------------------------------------ what a waiting destroy waits for

  predicate SpawnedBefore(t: Tables, pid: Pid, time: Option<nat>) {
    pid in t.spawned && time.Some? && t.spawned[pid].at < time.value
  }

  function LastBegan(gate: Gate, name: Name): Option<nat> {
    if name in gate.lastBegan then Some(gate.lastBegan[name]) else None
  }

  /** The process never was on record, is no longer meant to run, or runs no more. */
  predicate OffRecord(t: Tables, pid: Pid) {
    pid in t.unrecorded || pid in t.replaced || pid in t.exited
  }

  /** A process is in the active table of its tunnel, is off the record, or was there when a
      destroy of that name began. */
  ghost predicate ActiveOk(t: Tables, gate: Gate, pid: Pid)
    requires pid in t.spawned
  {
    var name := t.spawned[pid].name;
    pid in At(t.active, name) || OffRecord(t, pid) || SpawnedBefore(t, pid, LastBegan(gate, name))
  }

  /** A destroy awaits every process of its tunnel, but for what is off the record, what was
      spawned since it began, and what the destroy before it left behind. */
  ghost predicate Awaits(t: Tables, destroy: Destroy, pid: Pid)
    requires pid in t.spawned
  {
    || pid in destroy.awaited || OffRecord(t, pid)
    || destroy.began < t.spawned[pid].at || SpawnedBefore(t, pid, destroy.previous)
  }

  ghost predicate WatchInv(s: Status) {
    && (forall pid :: pid in s.tables.spawned ==> s.tables.spawned[pid].at < s.clock && ActiveOk(s.tables, s.gate, pid))
    && (forall d :: d in s.gate.destroys ==> DestroyOk(s, d))
  }

  ghost predicate DestroyOk(s: Status, d: Id)
    requires d in s.gate.destroys
  {
    var destroy := s.gate.destroys[d];
    && destroy.began < s.clock
    && (destroy.closing && destroy.wait ==> destroy.awaited <= s.tables.exited)
    && (forall pid :: pid in s.tables.spawned && s.tables.spawned[pid].name == destroy.name ==> Awaits(s.tables, destroy, pid))
  }

  /** Processes stay spawned, and off the record once they are. */
  lemma StepKeepsSpawned(s: Status, e: Event, pid: Pid)
    requires Enabled(s, e) && pid in s.tables.spawned
    ensures pid in Step(s, e).tables.spawned && Step(s, e).tables.spawned[pid] == s.tables.spawned[pid]
    ensures OffRecord(s.tables, pid) ==> OffRecord(Step(s, e).tables, pid)
    ensures s.tables.exited <= Step(s, e).tables.exited
  {
  }

  lemma SpawnIsNow(s: Status, e: Event, pid: Pid)
    requires Enabled(s, e) && pid in Step(s, e).tables.spawned && pid !in s.tables.spawned
    ensures Step(s, e).tables.spawned[pid].at == s.clock && ActiveOk(Step(s, e).tables, Step(s, e).gate, pid)
    ensures Step(s, e).gate.destroys == s.gate.destroys
  {
  }

  /** Only its own run takes a process out of the active table, and a destroy of its tunnel. */
  lemma StepKeepsActive(s: Status, e: Event, pid: Pid)
    requires Enabled(s, e) && pid in s.tables.spawned && s.tables.spawned[pid].at < s.clock && ActiveOk(s.tables, s.gate, pid)
    ensures pid in Step(s, e).tables.spawned && ActiveOk(Step(s, e).tables, Step(s, e).gate, pid)
  {
    StepKeepsSpawned(s, e, pid);
  }

  lemma StepKeepsDestroyOk(s: Status, e: Event, d: Id)
    requires WatchInv(s) && Enabled(s, e) && d in Step(s, e).gate.destroys
    ensures DestroyOk(Step(s, e), d)
  {
    var s' := Step(s, e);
    DestroyOrigin(s, e, d);
    forall pid | pid in s'.tables.spawned && s'.tables.spawned[pid].name == s'.gate.destroys[d].name
      ensures Awaits(s'.tables, s'.gate.destroys[d], pid)
    {
      if pid in s.tables.spawned {
        StepKeepsSpawned(s, e, pid);
        assert ActiveOk(s.tables, s.gate, pid);
        if !BeginsAs(s, e, d) {
          assert DestroyOk(s, d) && Awaits(s.tables, s.gate.destroys[d], pid);
        }
      } else {
        SpawnIsNow(s, e, pid);
      }
    }
  }

  predicate BeginsAs(s: Status, e: Event, d: Id) {
    e.DestroyBegins? && e.destroy == d
  }

  /** A destroy in flight has just begun, with the active table of its tunnel, or was in flight before. */
  lemma DestroyOrigin(s: Status, e: Event, d: Id)
    requires Enabled(s, e) && d in Step(s, e).gate.destroys
    requires d in s.gate.destroys ==> s.gate.destroys[d].began < s.clock
    requires d in s.gate.destroys && s.gate.destroys[d].closing && s.gate.destroys[d].wait ==> s.gate.destroys[d].awaited <= s.tables.exited
    ensures var destroy := Step(s, e).gate.destroys[d];
      && destroy.began < Step(s, e).clock
      && (destroy.closing && destroy.wait ==> destroy.awaited <= Step(s, e).tables.exited)
      && (if BeginsAs(s, e, d) then
            destroy.awaited == At(s.tables.active, destroy.name) && destroy.previous == LastBegan(s.gate, destroy.name)
          else d in s.gate.destroys && destroy == s.gate.destroys[d].(closing := destroy.closing))
  {
  }

  lemma StepKeepsWatch(s: Status, e: Event)
    requires WatchInv(s) && Enabled(s, e)
    ensures WatchInv(Step(s, e))
  {
    var s' := Step(s, e);
    forall pid | pid in s'.tables.spawned ensures s'.tables.spawned[pid].at < s'.clock && ActiveOk(s'.tables, s'.gate, pid) {
      if pid in s.tables.spawned {
        StepKeepsSpawned(s, e, pid);
        StepKeepsActive(s, e, pid);
      } else {
        SpawnIsNow(s, e, pid);
      }
    }
    forall d | d in s'.gate.destroys ensures DestroyOk(s', d) {
      StepKeepsDestroyOk(s, e, d);
    }
  }

  lemma {:induction false} StepsKeepWatch(s: Status, events: seq<Event>, s': Status)
    requires WatchInv(s) && Steps(s, events, s')
    ensures WatchInv(s')
    decreases |events|
  {
    if events != [] {
      StepKeepsWatch(s, events[0]);
      StepsKeepWatch(Step(s, events[0]), events[1..], s');
    }
  }

  /** With `wait`, the stack starts closing only when every process on record as active at the
      start of the destroy has exited. Any process of the tunnel that is still alive then was
      spawned after the destroy began, or before the destroy of that name before it began, or had
      been taken out of the tables to be killed for a rebind, or had never been recorded because
      its table was gone. */
  lemma WaitingDestroyOutlivesItsProcesses(events: seq<Event>, s: Status, d: Id, pid: Pid)
    requires Steps(IDLE, events, s)
    requires d in s.gate.destroys && s.gate.destroys[d].wait && s.gate.destroys[d].closing
    ensures s.gate.destroys[d].awaited <= s.tables.exited
    ensures pid in s.tables.spawned && s.tables.spawned[pid].name == s.gate.destroys[d].name && pid !in s.tables.exited ==>
              || s.gate.destroys[d].began < s.tables.spawned[pid].at
              || SpawnedBefore(s.tables, pid, s.gate.destroys[d].previous)
              || pid in s.tables.replaced || pid in s.tables.unrecorded
  {
    StepsKeepWatch(IDLE, events, s);
    assert DestroyOk(s, d);
    if pid in s.tables.spawned && s.tables.spawned[pid].name == s.gate.destroys[d].name {
      assert Awaits(s.tables, s.gate.destroys[d], pid);
    }
  }

  /** A tunnel that nobody destroys yet, with one process at work and another request on its way to its spawn. */
  ghost predicate OneAtWork(s: Status, name: Name, other: Pid) {
    && In(s, 1) && s.gate.runs[1].name == name && s.gate.runs[1].phase.Preparing?
    && name in s.tables.processes && s.tables.active == map[name := {other}]
    && s.gate.destroys == map[] && s.tables.spawned.Keys == {other} && s.tables.exited == {}
  }

  lemma OneGetsToWork(name: Name, other: Pid) returns (events: seq<Event>, s: Status)
    ensures SingleSteps(IDLE, events, s) && OneAtWork(s, name, other)
    ensures events == [RunStart(name), RunReady(0), Spawned(0, other), RunStart(name), RunReady(1)]
  {
    var s1 := Step(IDLE, RunStart(name));
    var s2 := Step(s1, RunReady(0));
    var s3 := Step(s2, Spawned(0, other));
    assert s2.tables.active == map[] && s3.tables.active == map[name := At(s2.tables.active, name) + {other}];
    assert At(s2.tables.active, name) + {other} == {other};
    var s4 := Step(s3, RunStart(name));
    s := Step(s4, RunReady(1));
    assert SingleSteps(s4, [RunReady(1)], s);
    assert SingleSteps(s3, [RunStart(name), RunReady(1)], s);
    assert SingleSteps(s2, [Spawned(0, other), RunStart(name), RunReady(1)], s);
    assert SingleSteps(s1, [RunReady(0), Spawned(0, other), RunStart(name), RunReady(1)], s);
    events := [RunStart(name), RunReady(0), Spawned(0, other), RunStart(name), RunReady(1)];
  }

  lemma LateSpawn(s: Status, name: Name, pid: Pid, other: Pid, d: Id) returns (events: seq<Event>, s': Status)
    requires OneAtWork(s, name, other) && pid != other
    ensures SingleSteps(s, events, s')
    ensures events == [DestroyBegins(d, name, true), Spawned(1, pid), Exits(other), DestroyPops(d)]
    ensures d in s'.gate.destroys && s'.gate.destroys[d].wait && s'.gate.destroys[d].closing && s'.gate.destroys[d].name == name
    ensures s'.gate.destroys[d].awaited == {other} <= s'.tables.exited
    ensures In(s', 1) && s'.gate.runs[1].name == name && s'.gate.runs[1].phase == Announcing(pid)
    ensures pid in At(s'.tables.active, name) && pid !in s'.tables.exited
  {
    var s1 := Step(s, DestroyBegins(d, name, true));
    var s2 := Step(s1, Spawned(1, pid));
    var s3 := Step(s2, Exits(other));
    s' := Step(s3, DestroyPops(d));
    events := [DestroyBegins(d, name, true), Spawned(1, pid), Exits(other), DestroyPops(d)];
    assert SingleSteps(s3, [DestroyPops(d)], s');
    assert SingleSteps(s2, [Exits(other), DestroyPops(d)], s');
    assert SingleSteps(s1, [Spawned(1, pid), Exits(other), DestroyPops(d)], s');
  }

  lemma {:induction false} SingleStepsAppend(s: Status, a: seq<Event>, m: Status, b: seq<Event>, s': Status)
    requires SingleSteps(s, a, m) && SingleSteps(m, b, s')
    ensures SingleSteps(s, a + b, s')
    decreases |a|
  {
    if a == [] {
      assert a + b == b;
    } else {
      SingleStepsAppend(Step(s, a[0]), a[1..], m, b, s');
      assert (a + b)[1..] == a[1..] + b;
    }
  }

  /** The exception is real: while a waiting destroy awaits the process at work, a request let in
      before may still spawn; when the awaited process has exited, the destroy closes the stack under
      the living one. */
  lemma LateSpawnIsNotAwaited(name: Name, pid: Pid, other: Pid, d: Id) returns (events: seq<Event>, s: Status)
    requires pid != other
    ensures SingleSteps(IDLE, events, s)
    ensures events == [RunStart(name), RunReady(0), Spawned(0, other), RunStart(name), RunReady(1)]
                      + [DestroyBegins(d, name, true), Spawned(1, pid), Exits(other), DestroyPops(d)]
    ensures d in s.gate.destroys && s.gate.destroys[d].wait && s.gate.destroys[d].closing && s.gate.destroys[d].name == name
    ensures s.gate.destroys[d].awaited == {other} <= s.tables.exited
    ensures 1 in s.gate.runs && s.gate.runs[1].name == name && s.gate.runs[1].phase == Announcing(pid)
    ensures pid in At(s.tables.active, name) && pid !in s.tables.exited
  {
    var before, m := OneGetsToWork(name, other);
    var later;
    later, s := LateSpawn(m, name, pid, other, d);
    SingleStepsAppend(IDLE, before, m, later, s);
    events := before + later;
  }
}

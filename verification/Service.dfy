/** The `Service` object of `service.py`: its dictionaries, and the await-free segments of its
    handlers as methods, each proved to be the step of the interleaving models. */
module Service {
  import opened Prelude
  import opened Supervision
  import Tunnels
  import Shutdown
  import Starts
  import Rebinding
  import Leasing

  type Id = nat

  /** One line of `list-tunnels`. */
  datatype Info = Info(name: Name, connected: bool, ports: PortMap, processes: set<Pid>)

  function InfoOf(name: Name, contexts: map<Name, Tunnels.Context>, processes: map<Name, set<Pid>>): Info {
    Info(name, name in contexts, if name in contexts then contexts[name].ports else map[], Shutdown.At(processes, name))
  }

  /** `infos` lists exactly the registered names, each once. */
  ghost predicate Lists(infos: seq<Info>, names: set<Name>, contexts: map<Name, Tunnels.Context>,
          processes: map<Name, set<Pid>>) {
    && (forall i :: 0 <= i < |infos| ==> infos[i].name in names && infos[i] == InfoOf(infos[i].name, contexts, processes))
    && (forall i, j :: 0 <= i < |infos| && 0 <= j < |infos| && infos[i].name == infos[j].name ==> i == j)
    && (forall n :: n in names ==> exists i :: 0 <= i < |infos| && infos[i].name == n)
  }

  /** If setups of one name never overlap, every tunnel is listed once, as connected. */
  lemma EveryTunnelIsListedOnceAndConnected(events: seq<Tunnels.Event>, s: Tunnels.State, infos: seq<Info>,
          processes: map<Name, set<Pid>>, n: Name)
    requires Rebinding.RunApart(Tunnels.START, events, s) && n in s.registry.namespaces
    requires Lists(infos, s.registry.namespaces.Keys, s.ports.contexts, processes)
    ensures exists i :: 0 <= i < |infos| && infos[i].name == n && infos[i].connected && infos[i].ports == s.ports.contexts[n].ports
                        && (forall pid :: pid in infos[i].processes <==> n in processes && pid in processes[n])
                        && (forall j :: 0 <= j < |infos| && infos[j].name == n ==> j == i)
  {
    Rebinding.RegisteredTunnelsHaveContexts(events, s);
    var i :| 0 <= i < |infos| && infos[i].name == n;
    assert infos[i].connected && infos[i].ports == s.ports.contexts[n].ports;
  }

  /** The ports of one rebind round, name by name; nothing, if a lease failed. */
  function Renewed(names: seq<string>, granted: seq<Option<int>>): Option<PortMap>
    requires |granted| == |names|
  {
    if names == [] then Some(map[])
    else
      var last := |names| - 1;
      match (Renewed(names[..last], granted[..last]), granted[last])
      case (Some(ports), Some(port)) => Some(ports[names[last] := port])
      case _ => None
  }

  /** A round fails if any lease does. If not, the names stay the same, and a name that is there
      once gets the port that was leased for it. */
  lemma {:induction false} RenewedPorts(names: seq<string>, granted: seq<Option<int>>)
    requires |granted| == |names|
    ensures Renewed(names, granted).None? <==> None in granted
    ensures Renewed(names, granted).Some? ==>
              var ports := Renewed(names, granted).value;
              && ports.Keys == Leasing.Elements(names)
              && forall i :: 0 <= i < |names| && (forall j :: 0 <= j < |names| && names[j] == names[i] ==> j == i) ==>
                   granted[i] == Some(ports[names[i]])
  {
    if names != [] {
      var last := |names| - 1;
      RenewedPorts(names[..last], granted[..last]);
      assert names == names[..last] + [names[last]] && granted == granted[..last] + [granted[last]];
      assert forall i :: 0 <= i < last ==> names[..last][i] == names[i];
    }
  }

  /** How an iteration of the rebind loop ends. */
  datatype RoundEnd = Stops | Fails | Goes

  class Service {
    var namespaces: map<Name, Id>
    var exitStacks: map<Name, Id>
    var contexts: map<Name, Tunnels.Context>
    var rebindTasks: map<Name, Id>
    var processes: map<Name, set<Pid>>
    var active: map<Name, set<Pid>>
    var shuttingDown: set<Name>

    // The handlers of `handle_start_tunnel`, and whose future and emit function is filed under a name.
    var handlers: map<Id, Starts.Handler>
    var stopSignals: map<Name, Id>
    var emitFns: map<Name, Id>
    var nextHandler: Id

    // The set objects of waiters, and which of them belongs to which name at present.
    var waiters: map<Name, Id>
    var sets: map<Id, set<Shutdown.FutureId>>
    var futures: map<Shutdown.FutureId, Shutdown.Future>
    var nextSet: Id

    // The suspended coroutines, and history.
    ghost var tasks: map<Id, Tunnels.Task>
    ghost var owner: map<Id, Tunnels.Owner>
    ghost var nextId: Id
    ghost var madeFor: map<Id, Name>
    ghost var raised: set<Id>

    ghost function Registry(): Tunnels.Registry
      reads this
    {
      Tunnels.Registry(namespaces, exitStacks, tasks, owner, nextId)
    }

    ghost function Signals(): Shutdown.Signals
      reads this
    {
      Shutdown.Signals(waiters, sets, futures, madeFor, nextSet)
    }

    ghost function Desk(): Starts.Desk
      reads this
    {
      Starts.Desk(handlers, stopSignals, emitFns, raised, nextHandler)
    }

    constructor ()
      ensures Registry() == Tunnels.START.registry && Signals() == Shutdown.IDLE.signals
      ensures contexts == map[] && rebindTasks == map[] && processes == map[] && active == map[] && shuttingDown == {}
      ensures Desk() == Starts.NOBODY
    {
      namespaces, exitStacks, contexts, rebindTasks := map[], map[], map[], map[];
      processes, active, shuttingDown := map[], map[], {};
      handlers, stopSignals, emitFns, raised, nextHandler := map[], map[], map[], {}, 0;
      waiters, sets, futures, nextSet := map[], map[], map[], 0;
      tasks, owner, nextId, madeFor := map[], map[], 0, map[];
    }

    // ------------------------------------------------------------------ setup

    /** The first segment of a setup: an existing name is refused, before anything else. */
    method BeginSetup(name: Name, ghost task: Tunnels.Task) returns (ok: bool)
      requires task.SettingUp?
      modifies this`waiters, this`sets, this`nextSet, this`madeFor, this`tasks, this`owner, this`nextId
      ensures ok <==> name !in namespaces
      ensures ok ==> Registry() == Tunnels.Begin(old(Registry()), task) && Signals() == Shutdown.Open(old(Signals()), name)
      ensures !ok ==> Registry() == old(Registry()) && Signals() == old(Signals())
    {
      if name in namespaces {
        return false;
      }
      sets := sets[nextSet := {}];
      waiters := waiters[name := nextSet];
      madeFor := madeFor[nextSet := name];
      nextSet := nextSet + 1;
      tasks, owner := tasks[nextId := task], owner[nextId := Tunnels.BySetup];
      nextId := nextId + 1;
      return true;
    }

    /** The last segment of a setup. */
    method FinishSetup(name: Name, setup: Id, context: Tunnels.Context)
      modifies this`contexts, this`namespaces, this`exitStacks, this`tasks, this`owner
      ensures Registry() == Tunnels.Publish(old(Registry()), name, setup)
      ensures contexts == old(contexts)[name := context]
    {
      contexts := contexts[name := context];
      namespaces := namespaces[name := setup];
      exitStacks := exitStacks[name := setup];
      tasks, owner := tasks - {setup}, owner[setup := Tunnels.ByName(name)];
    }

    /** The `except` branch of a setup, up to the unwinding of its stack. */
    method AbandonSetup(name: Name, setup: Id)
      modifies this`contexts, this`tasks, this`owner
      ensures Registry() == Tunnels.Abandon(old(Registry()), setup)
      ensures contexts == old(contexts) - {name}
    {
      contexts := contexts - {name};
      tasks, owner := tasks[setup := Tunnels.Closing(setup)], owner[setup := Tunnels.ByCloser(setup)];
    }

    // ------------------------------------------------------------------ destroy

    /** The first segment of a destroy, which is that of the machine in `Shutdown`. */
    method BeginDestroy(name: Name) returns (awaited: set<Pid>, rebindTask: Option<Id>)
      modifies this`shuttingDown, this`active, this`waiters, this`rebindTasks
      ensures forall s: Shutdown.Status, d, wait ::
                s.gate.shuttingDown == old(shuttingDown) && s.tables.active == old(active) && s.signals == old(Signals()) ==>
                  var s' := Shutdown.StartDestroy(s, d, name, wait);
                  && s'.gate.shuttingDown == shuttingDown && s'.tables.active == active && s'.signals == Signals()
                  && s'.gate.destroys[d].awaited == awaited
      ensures shuttingDown == old(shuttingDown) + {name}
      ensures awaited == Shutdown.At(old(active), name) && active == old(active) - {name}
      ensures Signals() == Shutdown.Close(old(Signals()), name)
      ensures rebindTasks == old(rebindTasks) - {name}
      ensures rebindTask == if name in old(rebindTasks) then Some(old(rebindTasks)[name]) else None
    {
      shuttingDown := shuttingDown + {name};
      awaited := if name in active then active[name] else {};
      active := active - {name};
      waiters := waiters - {name};
      rebindTask := if name in rebindTasks then Some(rebindTasks[name]) else None;
      rebindTasks := rebindTasks - {name};
    }

    method ReleaseStart(name: Name)
      modifies this`handlers
      ensures Desk() == Starts.Release(old(Desk()), name)
    {
      if name in stopSignals && stopSignals[name] in handlers {
        var h := stopSignals[name];
        handlers := handlers[h := handlers[h].(stopped := true)];
      }
    }

    method TakeStack(name: Name, destroy: Id) returns (stack: Option<Id>)
      requires name !in namespaces
      modifies this`exitStacks, this`tasks, this`owner
      ensures Registry() == Tunnels.Unpublish(old(Registry()), name, destroy)
      ensures stack == if name in old(exitStacks) then Some(old(exitStacks)[name]) else None
    {
      assert namespaces - {name} == namespaces;
      stack := if name in exitStacks then Some(exitStacks[name]) else None;
      exitStacks := exitStacks - {name};
      if stack.Some? {
        tasks, owner := tasks[destroy := Tunnels.Closing(stack.value)], owner[stack.value := Tunnels.ByCloser(destroy)];
      } else {
        tasks := tasks - {destroy};
      }
    }

    /** The segment that takes the tunnel out of bookkeeping and lets the handler of a started
        tunnel return; `destroy` goes on to close `stack`. */
    method TakeOut(name: Name, destroy: Id) returns (stack: Option<Id>)
      modifies this`namespaces, this`contexts, this`processes, this`exitStacks, this`handlers, this`tasks, this`owner
      ensures Registry() == Tunnels.Unpublish(old(Registry()), name, destroy)
      ensures contexts == old(contexts) - {name} && processes == old(processes) - {name}
      ensures Desk() == Starts.Release(old(Desk()), name)
      ensures stack == if name in old(exitStacks) then Some(old(exitStacks)[name]) else None
    {
      namespaces := namespaces - {name};
      contexts := contexts - {name};
      processes := processes - {name};
      ReleaseStart(name);
      stack := TakeStack(name, destroy);
    }

    method EndDestroy(name: Name)
      modifies this`shuttingDown
      ensures shuttingDown == old(shuttingDown) - {name}
    {
      shuttingDown := shuttingDown - {name};
    }

    /** `handle_start_tunnel` files its emit function and its future, and then waits. */
    method EnterStart(name: Name, rebind: bool) returns (handler: Id)
      modifies this`handlers, this`stopSignals, this`emitFns, this`nextHandler
      ensures Desk() == Starts.Enter(old(Desk()), name, rebind) && handler == old(nextHandler)
    {
      handler := nextHandler;
      handlers := handlers[handler := Starts.Handler(name, rebind, false)];
      emitFns := emitFns[name := handler];
      stopSignals := stopSignals[name := handler];
      nextHandler := nextHandler + 1;
    }

    /** The end of its `finally`: an exception that the rebind task has died of comes first. */
    method LeaveStart(handler: Id, rebindFailed: bool) returns (returned: bool)
      requires handler in handlers && (rebindFailed ==> handlers[handler].rebind)
      modifies this`handlers, this`stopSignals, this`emitFns, this`raised
      ensures Desk() == Starts.End(old(Desk()), handler, rebindFailed)
      ensures returned <==> !rebindFailed
    {
      var name := handlers[handler].name;
      handlers := handlers - {handler};
      if rebindFailed {
        raised := raised + {handler};
        return false;
      }
      emitFns := emitFns - {name};
      stopSignals := stopSignals - {name};
      return true;
    }

    // ------------------------------------------------------------------ rebind

    /** The end of a rebind round: the futures of the name's current set, in any order. */
    method SignalWaiters(name: Name)
      modifies this`futures
      ensures Signals() == Shutdown.Signal(old(Signals()), name)
    {
      if name !in waiters || waiters[name] !in sets {
        return;
      }
      var todo := sets[waiters[name]];
      ghost var all := todo;
      ghost var before := futures;
      while todo != {}
        invariant todo <= all && futures.Keys == before.Keys
        invariant forall f :: f in futures ==>
                    futures[f] == if f in all - todo then Shutdown.SetResult(before[f]) else before[f]
        decreases |todo|
      {
        var f :| f in todo;
        if f in futures && futures[f].state.Pending? {
          futures := futures[f := futures[f].(state := Shutdown.Resolved, signals := futures[f].signals + 1)];
        }
        todo := todo - {f};
      }
      assert futures == Shutdown.Signal(old(Signals()), name).futures;
    }

    /** The `for` loop of a rebind round: `granted` is what the leases bring. */
    static method RenewPorts(names: seq<string>, granted: seq<Option<int>>) returns (renewed: Option<PortMap>)
      requires |granted| == |names|
      ensures renewed == Renewed(names, granted)
    {
      var ports: PortMap := map[];
      for i := 0 to |names|
        invariant Renewed(names[..i], granted[..i]) == Some(ports)
      {
        assert names[..i + 1][..i] == names[..i] && granted[..i + 1][..i] == granted[..i];
        if granted[i].None? {
          RenewedPorts(names, granted);
          return None;
        }
        ports := ports[names[i] := granted[i].value];
      }
      assert names[..|names|] == names && granted[..|granted|] == granted;
      return Some(ports);
    }

    /** One iteration of `_rebind_loop`, left undisturbed at its awaits. A missing stack and a
        failed lease escape as exceptions and change nothing; otherwise the context gets the new
        ports, and the waiters are signalled. */
    method RebindRound(name: Name, granted: seq<Option<int>>) returns (end: RoundEnd)
      requires name in contexts ==> |granted| == |contexts[name].names|
      modifies this`contexts, this`futures
      ensures end.Stops? <==> name !in old(contexts) || !old(contexts)[name].canForward
      ensures !end.Goes? ==> contexts == old(contexts) && Signals() == old(Signals())
      ensures end.Goes? ==>
                var c := old(contexts)[name];
                && Signals() == Shutdown.Signal(old(Signals()), name)
                && Renewed(c.names, granted).Some?
                && contexts == old(contexts)[name := c.(ports := Renewed(c.names, granted).value)]
      ensures end.Fails? ==> None in granted || name !in exitStacks
      ensures end.Goes? ==> name in exitStacks || old(contexts)[name].names == []
    {
      if name !in contexts || !contexts[name].canForward {
        return Stops;
      }
      var context := contexts[name];
      if context.names != [] && name !in exitStacks {
        return Fails;
      }
      var renewed := RenewPorts(context.names, granted);
      RenewedPorts(context.names, granted);
      if renewed.None? {
        return Fails;
      }
      contexts := contexts[name := context.(ports := renewed.value)];
      SignalWaiters(name);
      return Goes;
    }

    // ------------------------------------------------------------------ listing

    method CurrentTunnels() returns (infos: seq<Info>)
      ensures Lists(infos, namespaces.Keys, contexts, processes)
    {
      infos := [];
      var todo := namespaces.Keys;
      while todo != {}
        invariant todo <= namespaces.Keys
        invariant Lists(infos, namespaces.Keys - todo, contexts, processes)
        decreases |todo|
      {
        var name :| name in todo;
        ghost var listed, before := namespaces.Keys - todo, infos;
        todo := todo - {name};
        infos := infos + [InfoOf(name, contexts, processes)];
        assert forall i :: 0 <= i < |before| ==> infos[i] == before[i];
        forall n | n in namespaces.Keys - todo ensures exists i :: 0 <= i < |infos| && infos[i].name == n {
          if n == name {
            assert infos[|before|].name == n;
          } else {
            assert n in listed;
            var i :| 0 <= i < |before| && before[i].name == n;
            assert infos[i].name == n;
          }
        }
      }
      assert namespaces.Keys - todo == namespaces.Keys;
    }

    // ------------------------------------------------------------------ processes

    /** Neither table has `pid` under `name`. */
    ghost predicate Forgotten(name: Name, pid: Pid)
      reads this`processes, this`active
    {
      pid !in Shutdown.At(processes, name) && pid !in Shutdown.At(active, name)
    }

    /** What other handlers do to the tables while this one is suspended. */
    method Suspend(changes: seq<Change>)
      modifies this`processes, this`active
      ensures forall n, pid :: old(Forgotten(n, pid)) && NotAdded(changes, pid) ==> Forgotten(n, pid)
      ensures forall n :: n in old(processes) && !Drops(changes, n) ==> n in processes
    {
      for k := 0 to |changes|
        invariant forall n :: n in old(processes) && !Drops(changes, n) ==> n in processes
        invariant forall n, pid :: old(Forgotten(n, pid)) && NotAdded(changes, pid) ==> Forgotten(n, pid)
      {
        match changes[k]
        case DropAll(n) => processes, active := processes - {n}, active - {n};
        case Reset(n) => processes := if n in processes then processes else processes[n := {}];
        case Add(n, pid) =>
          processes := processes[n := Shutdown.At(processes, n) + {pid}];
          active := active[n := Shutdown.At(active, n) + {pid}];
        case Remove(n, pid) =>
          processes := Shutdown.Discard(processes, n, pid);
          active := Shutdown.Discard(active, n, pid);
      }
    }

    method Forget(name: Name, pid: Pid)
      modifies this`processes, this`active
      ensures Forgotten(name, pid) && forall p :: old(Forgotten(name, p)) ==> Forgotten(name, p)
      ensures processes == Shutdown.Discard(old(processes), name, pid) && active == Shutdown.Discard(old(active), name, pid)
    {
      if name in processes {
        processes := processes[name := processes[name] - {pid}];
      }
      if name in active {
        active := active[name := active[name] - {pid}];
      }
    }

    /** The process of iteration `i`, if it has one, is not on record. */
    ghost predicate Gone(name: Name, rounds: seq<Round>, i: nat)
      requires i < |rounds|
      reads this`processes, this`active
    {
      rounds[i].spawn.Child? ==> Forgotten(name, rounds[i].spawn.pid)
    }

    /** The call gets as far as its loop. */
    ghost predicate Ready(request: Request, setupOk: bool, parents: Option<nat>)
      reads this`namespaces
    {
      && request.fds >= 3 && request.tunnel.Some? && request.username.Some?
      && (request.tunnel.value in namespaces || setupOk) && parents.Some?
    }

    ghost predicate Refuses(request: Request)
      reads this`shuttingDown
    {
      request.fds >= 3 && request.tunnel.Some? && request.username.Some? && request.tunnel.value in shuttingDown
    }

    /** The segment after a spawn; a table that a destroy has popped is a `KeyError`. */
    method RecordChild(name: Name, pid: Pid) returns (ok: bool)
      modifies this`processes, this`active
      ensures ok <==> name in old(processes)
      ensures var t := Shutdown.Tables(old(processes), old(active), {}, map[], {}, {});
              ok ==> Shutdown.Record(t, name, pid) == Some(t.(processes := processes, active := active))
      ensures ok ==> pid in Shutdown.At(processes, name) && pid in Shutdown.At(active, name)
      ensures !ok ==> processes == old(processes) && active == old(active)
      ensures forall p :: p != pid && old(Forgotten(name, p)) ==> Forgotten(name, p)
    {
      if name !in processes {
        return false;
      }
      processes := processes[name := processes[name] + {pid}];
      active := active[name := (if name in active then active[name] else {}) + {pid}];
      return true;
    }

    /** The first part of an iteration: render and configure. Without a command line, the call ends. */
    static method PrepareChild(k: nat, first: bool, request: Request, rounds: seq<Round>, log: Log, parents: nat)
      returns (command: Option<string>, end: Outcome, log': Log)
      requires k < |rounds| && (first <==> k == 0) && Between(log, request, rounds, k, k)
      ensures command.Some? ==>
                && Between(log', request, rounds, k, k + 1) && command == request.render(rounds[k].context)
                && (rounds[k].configure.Exit? ==> rounds[k].configure.code == 0)
      ensures command.None? ==> Ended(end, log', request, rounds, parents) && |Spawns(log')| == k && Returned(end)
    {
      var round := rounds[k];
      log' := log;
      command := request.render(round.context);
      end := NotFound(request.command);
      if command.None? {
        log' := CloseAll(log', parents, request, rounds, k, end);
        return;
      }
      if round.configure.Exit? {
        LogConfigured(log', request, rounds, k);
        log' := log' + [Configured(first, PortsOf(round.context))];
        if round.configure.code != 0 {
          end := Terminated(if first then round.configure.code else 0);
          log' := CloseAll(log', parents, request, rounds, k, end);
          command := None;
        }
      } else {
        NothingConfigured(log', request, rounds, k);
      }
    }

    /** The second part: spawn. With `None`, a process has been spawned; otherwise the call ends. */
    method SpawnChild(name: Name, k: nat, first: bool, request: Request, rounds: seq<Round>, log: Log, parents: nat)
      returns (end: Option<Outcome>, log': Log)
      requires k < |rounds| && (first <==> k == 0) && Foreign(rounds[k].whileSpawning, rounds)
      requires Between(log, request, rounds, k, k)
      modifies this`processes, this`active
      ensures end.None? ==> During(log', request, rounds, k, false)
      ensures end.Some? ==> Ended(end.value, log', request, rounds, parents) && |Spawns(log')| == |Notices(log')| == k
      ensures end.Some? && !Returned(end.value) ==>
                end == Some(Raised) && rounds[k].spawn.SpawnFails? && request.render(rounds[k].context).Some?
      ensures name in old(processes) && !Drops(rounds[k].whileSpawning, name) ==> name in processes
      ensures forall i :: 0 <= i < k && old(Gone(name, rounds, i)) ==> Gone(name, rounds, i)
    {
      var command, outcome;
      command, outcome, log' := PrepareChild(k, first, request, rounds, log, parents);
      if command.None? {
        return Some(outcome), log';
      }
      Suspend(rounds[k].whileSpawning);
      if rounds[k].spawn.Missing? {
        end := Some(NotFound(command.value));
        log' := CloseAll(log', parents, request, rounds, k, end.value);
        return;
      }
      if rounds[k].spawn.SpawnFails? {
        return Some(Raised), log';
      }
      LogSpawn(log', request, rounds, k, rounds[k].spawn.pid, command.value);
      return None, log' + [Spawned(rounds[k].spawn.pid, command.value, k)];
    }

    /** The third part: record the process and announce it. */
    method AnnounceChild(name: Name, k: nat, first: bool, request: Request, rounds: seq<Round>, log: Log)
      returns (ok: bool, log': Log)
      requires k < |rounds| && (first <==> k == 0) && Foreign(rounds[k].whileWaiting, rounds)
      requires During(log, request, rounds, k, false)
      modifies this`processes, this`active
      ensures ok ==> During(log', request, rounds, k, true) && Spawns(log') == Spawns(log)
      ensures ok <==> rounds[k].announced && name in old(processes)
      ensures !ok ==> log' == log
      ensures ok && !Drops(rounds[k].whileWaiting, name) ==> name in processes
      ensures forall i :: 0 <= i < k && rounds[i].spawn != rounds[k].spawn && old(Gone(name, rounds, i)) ==> Gone(name, rounds, i)
    {
      var round := rounds[k];
      var pid := round.spawn.pid;
      var recorded := RecordChild(name, pid);
      if !recorded || !round.announced {
        return false, log;
      }
      var notice := if first then Started(pid) else Restarted(pid, PortsOf(round.context));
      LogNotice(log, request, rounds, k, notice);
      log' := log + [Emitted(notice)];
      Suspend(round.whileWaiting);
      return true, log';
    }

    /** The last part, once the process has exited by itself: the call ends. */
    method FinishChild(name: Name, k: nat, request: Request, rounds: seq<Round>, log: Log, parents: nat) returns (log': Log)
      requires k < |rounds| && rounds[k].ending.Exited? && Foreign(rounds[k].whileStopping, rounds)
      requires During(log, request, rounds, k, true)
      modifies this`processes, this`active
      ensures Ended(Terminated(rounds[k].ending.code), log', request, rounds, parents) && |Spawns(log')| == k + 1
      ensures Gone(name, rounds, k) && forall i :: 0 <= i < k && old(Gone(name, rounds, i)) ==> Gone(name, rounds, i)
    {
      var pid := rounds[k].spawn.pid;
      LogReaped(log, request, rounds, k);
      log' := CloseParents(log + [Reaped(pid)], parents);
      Forget(name, pid);
      Suspend(rounds[k].whileStopping);
      log' := CloseStandard(log');
      ExitEnds(log, log + [Reaped(pid)], log', request, rounds, k, parents);
    }

    /** The last part, when the ports have been rebound: the process is killed. */
    method StopChild(name: Name, k: nat, request: Request, rounds: seq<Round>, log: Log, signal: int)
      returns (ok: bool, log': Log)
      requires k < |rounds| && rounds[k].ending.Rebound? && Foreign(rounds[k].whileStopping, rounds)
      requires During(log, request, rounds, k, true) && signal == KillSignal(request)
      modifies this`processes, this`active
      ensures ok <==> rounds[k].ending.killable
      ensures ok ==> Between(log', request, rounds, k + 1, k + 1) && Kills(log') == Kills(log) + [Kill(rounds[k].spawn.pid, signal)]
      ensures !ok ==> log' == log
      ensures name in old(processes) && !Drops(rounds[k].whileStopping, name) ==> name in processes
      ensures Gone(name, rounds, k) && forall i :: 0 <= i < k && old(Gone(name, rounds, i)) ==> Gone(name, rounds, i)
    {
      var pid := rounds[k].spawn.pid;
      Forget(name, pid);
      Suspend(rounds[k].whileStopping);
      if !rounds[k].ending.killable {
        return false, log;
      }
      LogKilled(log, request, rounds, k);
      return true, log + [Killed(pid, signal)] + [Reaped(pid)];
    }

    /** An iteration from its spawn on: it ends the call, or leaves it between two iterations. */
    method AwaitChild(name: Name, k: nat, first: bool, request: Request, rounds: seq<Round>, log: Log, parents: nat, signal: int)
      returns (end: Option<Outcome>, log': Log)
      requires k < |rounds| && (first <==> k == 0) && During(log, request, rounds, k, false) && signal == KillSignal(request)
      requires Foreign(rounds[k].whileWaiting, rounds) && Foreign(rounds[k].whileStopping, rounds)
      requires forall i :: 0 <= i < k ==> Gone(name, rounds, i)
      requires name in processes || DroppedBefore(rounds, name, k) || Drops(rounds[k].whileSpawning, name)
      modifies this`processes, this`active
      ensures end.None? ==> Between(log', request, rounds, k + 1, k + 1) && forall i :: 0 <= i <= k ==> Gone(name, rounds, i)
      ensures end.None? ==> rounds[k].ending == Rebound(true) && (name in processes || DroppedBefore(rounds, name, k + 1))
      ensures end.Some? ==> Ended(end.value, log', request, rounds, parents)
      ensures end.Some? && !Returned(end.value) ==>
                end == Some(Raised) && Excused(request, rounds, name, |Spawns(log')|, |Notices(log')|)
      ensures end.Some? && Returned(end.value) ==> forall i :: 0 <= i < |Spawns(log')| ==> Gone(name, rounds, i)
    {
      var announced;
      announced, log' := AnnounceChild(name, k, first, request, rounds, log);
      if !announced {
        RaisedDuring(log', request, rounds, k, false, parents);
        return Some(Raised), log';
      }
      if rounds[k].ending.Exited? {
        log' := FinishChild(name, k, request, rounds, log', parents);
        return Some(Terminated(rounds[k].ending.code)), log';
      }
      var stopped;
      stopped, log' := StopChild(name, k, request, rounds, log', signal);
      if !stopped {
        RaisedDuring(log', request, rounds, k, true, parents);
        return Some(Raised), log';
      }
      return None, log';
    }

    /** One iteration of the loop. */
    method Iterate(name: Name, k: nat, first: bool, request: Request, rounds: seq<Round>, log: Log, parents: nat, signal: int)
      returns (end: Option<Outcome>, log': Log)
      requires k < |rounds| && (first <==> k == 0) && Between(log, request, rounds, k, k) && signal == KillSignal(request)
      requires Foreign(rounds[k].whileSpawning, rounds) && Foreign(rounds[k].whileWaiting, rounds)
      requires Foreign(rounds[k].whileStopping, rounds)
      requires (forall i :: 0 <= i < k ==> Gone(name, rounds, i)) && (name in processes || DroppedBefore(rounds, name, k))
      modifies this`processes, this`active
      ensures end.None? ==> Between(log', request, rounds, k + 1, k + 1) && forall i :: 0 <= i <= k ==> Gone(name, rounds, i)
      ensures end.None? ==> rounds[k].ending == Rebound(true) && (name in processes || DroppedBefore(rounds, name, k + 1))
      ensures end.Some? ==> Ended(end.value, log', request, rounds, parents)
      ensures end.Some? && !Returned(end.value) ==>
                end == Some(Raised) && Excused(request, rounds, name, |Spawns(log')|, |Notices(log')|)
      ensures end.Some? && Returned(end.value) ==> forall i :: 0 <= i < |Spawns(log')| ==> Gone(name, rounds, i)
    {
      end, log' := SpawnChild(name, k, first, request, rounds, log, parents);
      if end.None? {
        end, log' := AwaitChild(name, k, first, request, rounds, log', parents, signal);
      }
    }

    /** The supervision loop. It suspends in iteration `|rounds|`, if it gets there. */
    method Supervise(name: Name, request: Request, rounds: seq<Round>, parents: nat, signal: int)
      returns (outcome: Outcome, log: Log)
      requires forall k :: 0 <= k < |rounds| ==>
                 && Foreign(rounds[k].whileSpawning, rounds) && Foreign(rounds[k].whileWaiting, rounds)
                 && Foreign(rounds[k].whileStopping, rounds)
      requires signal == KillSignal(request)
      modifies this`processes, this`active
      ensures Ended(outcome, log, request, rounds, parents)
      ensures outcome.Raised? ==> Excused(request, rounds, name, |Spawns(log)|, |Notices(log)|)
      ensures outcome.Suspended? ==>
                |Spawns(log)| == |Notices(log)| == |rounds| && forall i :: 0 <= i < |rounds| ==> rounds[i].ending == Rebound(true)
      ensures Returned(outcome) ==> forall i :: 0 <= i < |Spawns(log)| ==> Gone(name, rounds, i)
    {
      log := [];
      NothingDone(request, rounds, parents);
      var first, restartCount := true, 0;
      processes := if name in processes then processes else processes[name := {}];
      while restartCount < |rounds|
        invariant restartCount <= |rounds| && (first <==> restartCount == 0)
        invariant Between(log, request, rounds, restartCount, restartCount)
        invariant forall i :: 0 <= i < restartCount ==> Gone(name, rounds, i) && rounds[i].ending == Rebound(true)
        invariant name in processes || DroppedBefore(rounds, name, restartCount)
      {
        var end;
        end, log := Iterate(name, restartCount, first, request, rounds, log, parents, signal);
        if end.Some? {
          return end.value, log;
        }
        first, restartCount := false, restartCount + 1;
      }
      StillAtIt(log, request, rounds, parents);
      return Suspended, log;
    }

    /** `handle_run_process`. `setupOk` is the outcome of creating the tunnel on demand, `parents` the
        number of descriptors that `make_preexec_fn` opened (`None` if it raised). */
    method HandleRunProcess(request: Request, setupOk: bool, parents: Option<nat>, rounds: seq<Round>)
      returns (outcome: Outcome, log: Log)
      requires forall k :: 0 <= k < |rounds| ==>
                 && Foreign(rounds[k].whileSpawning, rounds) && Foreign(rounds[k].whileWaiting, rounds)
                 && Foreign(rounds[k].whileStopping, rounds)
      modifies this`processes, this`active
      ensures Refuses(request) ==>
                outcome == Terminated(1) && Spawns(log) == [] && Notices(log) == [] && Kills(log) == [] && EachClosedOnce(log, 0)
      ensures !Refuses(request) ==> Ended(outcome, log, request, rounds, if parents.Some? then parents.value else 0)
      ensures !Refuses(request) && !Ready(request, setupOk, parents) ==> outcome == Raised && log == []
      ensures !Refuses(request) && Ready(request, setupOk, parents) && outcome.Raised? ==>
                Excused(request, rounds, request.tunnel.value, |Spawns(log)|, |Notices(log)|)
      ensures outcome.Suspended? ==>
                |Spawns(log)| == |Notices(log)| == |rounds| && forall i :: 0 <= i < |rounds| ==> rounds[i].ending == Rebound(true)
      ensures Returned(outcome) && !Refuses(request) ==>
                && parents.Some? && request.tunnel.Some?
                && forall i :: 0 <= i < |Spawns(log)| ==> Gone(request.tunnel.value, rounds, i)
    {
      log := [];
      NothingDone(request, rounds, if parents.Some? then parents.value else 0);
      if request.fds < 3 || request.tunnel.None? || request.username.None? {
        return Raised, log;
      }
      var name := request.tunnel.value;
      var signal := SIGTERM;
      if request.killWith.Some? && request.killWith.value != 0 {
        signal := request.killWith.value;
      }
      if name in shuttingDown {
        log := CloseStandard(log);
        return Terminated(1), log;
      }
      if (name !in namespaces && !setupOk) || parents.None? {
        return Raised, log;
      }
      outcome, log := Supervise(name, request, rounds, parents.value, signal);
    }
  }
}

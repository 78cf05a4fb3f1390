/** The promise of a kill switch, over every run of the filter: what its table holds when the
    deletion of an earlier one has failed, and when the promise is kept nevertheless. */
module KillSwitch {
  import opened Prelude
  import opened Firewall
  import opened Sharing

  type Tables = map<string, seq<Switch>>

  /** By the events alone: the switches whose rules have been loaded into the table of each veth
      since that table was created, oldest first. A table whose deletion failed is added to. */
  function Load(tables: Tables, e: Event): Tables {
    match e
    case SwitchOn(v, server, routes) => tables[v := (if v in tables then tables[v] else []) + [Switch(server, routes)]]
    case SwitchOff(v, ok) => if ok then tables - {v} else tables
    case _ => tables
  }

  function Loaded(tables: Tables, events: seq<Event>): Tables
    decreases |events|
  {
    if events == [] then tables else Loaded(Load(tables, events[0]), events[1..])
  }

  function RulesOf(veth: string, switches: seq<Switch>): seq<Rule> {
    if switches == [] then []
    else GuardRules(veth, switches[0].server, switches[0].routes) + RulesOf(veth, switches[1..])
  }

  predicate Allows(switch: Switch, dst: Address) {
    dst == switch.server || exists i :: 0 <= i < |switch.routes| && To(Packet("", "", dst, 0), switch.routes[i])
  }

  lemma AllowsPacket(switch: Switch, p: Packet)
    ensures Allows(switch, p.dst) <==> p.dst == switch.server || Permitted(p, switch.routes)
  {
    if i :| 0 <= i < |switch.routes| && To(Packet("", "", p.dst, 0), switch.routes[i]) {
      assert To(p, switch.routes[i]);
    }
    if i :| 0 <= i < |switch.routes| && To(p, switch.routes[i]) {
      assert To(Packet("", "", p.dst, 0), switch.routes[i]);
    }
  }

  // ------------------------------------------------------------------ what a table holds

  predicate TableAt(n: Net, tables: Tables, v: string) {
    && (Guard(v) in n.chains <==> v in tables)
    && (v in tables ==> tables[v] != [] && n.chains[Guard(v)] == Chain(true, AcceptPolicy, RulesOf(v, tables[v])))
    && (v in n.switches ==> v in tables && n.switches[v] == tables[v][|tables[v]| - 1])
  }

  ghost predicate TablesInv(n: Net, tables: Tables) {
    forall v :: TableAt(n, tables, v)
  }

  lemma {:induction false} RulesOfMore(veth: string, switches: seq<Switch>, switch: Switch)
    ensures RulesOf(veth, switches + [switch]) == RulesOf(veth, switches) + GuardRules(veth, switch.server, switch.routes)
  {
    if switches == [] {
      assert (switches + [switch])[1..] == [];
      assert RulesOf(veth, []) == [];
    } else {
      RulesOfMore(veth, switches[1..], switch);
      assert (switches + [switch])[1..] == switches[1..] + [switch];
    }
  }

  lemma OthersKeepTable(n: Net, e: Event, tables: Tables, v: string)
    requires AimsInv(n) && TableAt(n, tables, v) && Enabled(n, e) && !e.SwitchOn? && !e.SwitchOff?
    ensures TableAt(Step(n, e), tables, v)
  {
    assert e.Inserts? ==> n.shares[e.id].todo[0].key.Host?;
    assert e.Deletes? ==> n.shares[e.id].inserted[0].key.Host?;
  }

  lemma SwitchOnKeepsTable(n: Net, tables: Tables, v: string, veth: string, server: Address, routes: seq<Dest>)
    requires TableAt(n, tables, v)
    ensures TableAt(Step(n, SwitchOn(veth, server, routes)), Load(tables, SwitchOn(veth, server, routes)), v)
  {
    var switch := Switch(server, routes);
    var before := if v in tables then tables[v] else [];
    var n' := Step(n, SwitchOn(veth, server, routes));
    if v == veth {
      RulesOfMore(v, before, switch);
      assert RulesOf(v, []) == [] && [] + GuardRules(v, server, routes) == GuardRules(v, server, routes);
      assert n'.chains[Guard(v)] == Chain(true, AcceptPolicy, RulesOf(v, before + [switch]));
    } else {
      assert Guard(v) != Guard(veth);
    }
  }

  lemma SwitchOffKeepsTable(n: Net, tables: Tables, v: string, veth: string, ok: bool)
    requires TableAt(n, tables, v) && veth in n.switches
    ensures TableAt(Step(n, SwitchOff(veth, ok)), Load(tables, SwitchOff(veth, ok)), v)
  {
    assert v != veth ==> Guard(v) != Guard(veth);
  }

  lemma StepKeepsTable(n: Net, e: Event, tables: Tables, v: string)
    requires AimsInv(n) && TableAt(n, tables, v) && Enabled(n, e)
    ensures TableAt(Step(n, e), Load(tables, e), v)
  {
    match e
    case SwitchOn(veth, server, routes) => SwitchOnKeepsTable(n, tables, v, veth, server, routes);
    case SwitchOff(veth, ok) => SwitchOffKeepsTable(n, tables, v, veth, ok);
    case _ => OthersKeepTable(n, e, tables, v);
  }

  lemma {:induction false} RunKeepsTables(n: Net, events: seq<Event>, n': Net, tables: Tables)
    requires AimsInv(n) && TablesInv(n, tables) && Run(n, events, n')
    ensures AimsInv(n') && TablesInv(n', Loaded(tables, events))
    decreases |events|
  {
    if events != [] {
      var tables' := Load(tables, events[0]);
      StepKeepsAims(n, events[0]);
      forall v ensures TableAt(Step(n, events[0]), tables', v) {
        StepKeepsTable(n, events[0], tables, v);
      }
      RunKeepsTables(Step(n, events[0]), events[1..], n', tables');
    }
  }

  /** The rules loaded first decide; those added to them change nothing. */
  lemma {:induction false} FirstLoadedDecides(env: Meaning, veth: string, switches: seq<Switch>, p: Packet)
    ensures RulesDrop(env, RulesOf(veth, switches), AcceptPolicy, p) <==>
              switches != [] && p.iif == veth && !Allows(switches[0], p.dst)
  {
    if switches != [] {
      FirstLoadedDecides(env, veth, switches[1..], p);
      GuardDropsExactly(env, veth, switches[0].server, switches[0].routes, RulesOf(veth, switches[1..]), p);
      AllowsPacket(switches[0], p);
    }
  }

  // ------------------------------------------------------------------ the promise

  /** Over every run, whatever tunnels and host do and whatever fails: a veth has a table exactly
      if rules have been loaded since its last deletion that succeeded, and the table drops a packet
      exactly when it enters from the veth for what the switch loaded first does not allow. */
  lemma TableFollowsFirstSwitch(chains: map<Key, Chain>, first: nat, events: seq<Event>, n: Net, veth: string,
          env: Meaning, p: Packet)
    requires HostOnly(chains, first) && Run(Start(chains, first), events, n)
    ensures Guard(veth) in n.chains <==> veth in Loaded(map[], events)
    ensures veth in Loaded(map[], events) ==>
              var switches := Loaded(map[], events)[veth];
              && switches != []
              && (ChainDrops(env, n.chains[Guard(veth)], p) <==> p.iif == veth && !Allows(switches[0], p.dst))
    ensures veth in n.switches ==>
              var tables := Loaded(map[], events);
              veth in tables && n.switches[veth] == tables[veth][|tables[veth]| - 1]
  {
    RunKeepsTables(Start(chains, first), events, n, map[]);
    assert TableAt(n, Loaded(map[], events), veth);
    if veth in Loaded(map[], events) {
      FirstLoadedDecides(env, veth, Loaded(map[], events)[veth], p);
    }
  }

  /** Nothing leaves the veth's namespace but for what its switch allows. */
  ghost predicate KeepsPromise(env: Meaning, n: Net, veth: string)
    requires veth in n.switches
  {
    forall p: Packet :: p.iif == veth && !Allows(n.switches[veth], p.dst) ==> DropsAt(env, n.chains, Guard(veth), p)
  }

  ghost predicate Within(inner: Switch, outer: Switch) {
    forall dst :: Allows(inner, dst) ==> Allows(outer, dst)
  }

  /** An active switch keeps its promise if and only if the rules loaded first into its table allow
      nothing that its own rules do not. They are its own, if the table was absent. */
  lemma PromiseKeptIffFirstWithin(chains: map<Key, Chain>, first: nat, events: seq<Event>, n: Net, veth: string, env: Meaning)
    requires HostOnly(chains, first) && Run(Start(chains, first), events, n) && veth in n.switches
    ensures veth in Loaded(map[], events) && Loaded(map[], events)[veth] != []
    ensures KeepsPromise(env, n, veth) <==> Within(Loaded(map[], events)[veth][0], n.switches[veth])
  {
    var any := Packet(veth, "", 0, 0);
    TableFollowsFirstSwitch(chains, first, events, n, veth, env, any);
    var head := Loaded(map[], events)[veth][0];
    if KeepsPromise(env, n, veth) {
      forall dst | Allows(head, dst) ensures Allows(n.switches[veth], dst) {
        var p := Packet(veth, "", dst, 0);
        TableFollowsFirstSwitch(chains, first, events, n, veth, env, p);
        assert DropsAt(env, n.chains, Guard(veth), p) <==> !Allows(head, dst);
      }
    }
    if Within(head, n.switches[veth]) {
      forall p: Packet | p.iif == veth && !Allows(n.switches[veth], p.dst) ensures DropsAt(env, n.chains, Guard(veth), p) {
        TableFollowsFirstSwitch(chains, first, events, n, veth, env, p);
        assert !Allows(head, p.dst);
      }
    }
  }

  lemma {:induction false} LoadedMore(tables: Tables, events: seq<Event>, e: Event)
    ensures Loaded(tables, events + [e]) == Load(Loaded(tables, events), e)
    decreases |events|
  {
    if events == [] {
      assert (events + [e])[0] == e && (events + [e])[1..] == [];
    } else {
      assert (events + [e])[1..] == events[1..] + [e] && (events + [e])[0] == events[0];
      LoadedMore(Load(tables, events[0]), events[1..], e);
    }
  }

  /** A switch is the only one loaded into its table exactly if it found the table absent. */
  lemma SwitchFindsTableAbsent(chains: map<Key, Chain>, first: nat, events: seq<Event>, n: Net, veth: string,
          server: Address, routes: seq<Dest>)
    requires HostOnly(chains, first) && Run(Start(chains, first), events, n)
    ensures var tables := Loaded(map[], events + [SwitchOn(veth, server, routes)]);
      veth in tables && (Guard(veth) !in n.chains <==> tables[veth] == [Switch(server, routes)])
  {
    var e := SwitchOn(veth, server, routes);
    RunKeepsTables(Start(chains, first), events, n, map[]);
    assert TableAt(n, Loaded(map[], events), veth);
    LoadedMore(map[], events, e);
  }

  /** A switch that found no table of its veth keeps its promise, from entry to exit, whatever
      other tunnels do, whatever rules the host has and whatever else accepts the packet; and its
      chain drops nothing else. */
  lemma KillSwitchHolds(chains: map<Key, Chain>, first: nat, events: seq<Event>, n: Net, veth: string, env: Meaning, p: Packet)
    requires HostOnly(chains, first) && Run(Start(chains, first), events, n) && veth in n.switches
    requires veth in Loaded(map[], events) && |Loaded(map[], events)[veth]| == 1
    ensures p.iif == veth && p.dst != n.switches[veth].server && !Permitted(p, n.switches[veth].routes) ==>
              !Passes(env, n.chains, p)
    ensures Guard(veth) in n.chains
    ensures ChainDrops(env, n.chains[Guard(veth)], p) <==>
              p.iif == veth && p.dst != n.switches[veth].server && !Permitted(p, n.switches[veth].routes)
  {
    TableFollowsFirstSwitch(chains, first, events, n, veth, env, p);
    AllowsPacket(n.switches[veth], p);
  }
}

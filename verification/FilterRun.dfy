/** Runs from the start: one that leaves a rule in a host chain, and one whose kill switch leaks. */
module FilterRun {
  import opened Prelude
  import opened Firewall
  import opened Sharing
  import opened KillSwitch

  const FILTER: Key := Host("inet", "filter", "forward")
  const HOST_CHAIN: Chain := Chain(true, DropPolicy, [])

  lemma {:induction false} RunSnoc(n: Net, events: seq<Event>, n': Net, e: Event)
    requires UndisturbedRun(n, events, n') && Enabled(n', e) && Undisturbed(e)
    ensures UndisturbedRun(n, events + [e], Step(n', e))
    decreases |events|
  {
    if events == [] {
      assert UndisturbedRun(Step(n', e), [], Step(n', e)) && [e][1..] == [];
    } else {
      RunSnoc(Step(n, events[0]), events[1..], n', e);
      assert (events + [e])[1..] == events[1..] + [e];
    }
  }

  /** One share that has listed one chain of the host. */
  lemma Listed(name: string, veth: string) returns (events: seq<Event>, n: Net)
    ensures UndisturbedRun(Start(map[FILTER := HOST_CHAIN], 0), events, n) && n.entries == map[]
    ensures n.shares.Keys == {0} && n.shares[0].veth == veth && n.shares[0].phase == Inserting && n.shares[0].inserted == []
    ensures n.shares[0].todo == [Slot(FILTER, Inward), Slot(FILTER, Outward)]
    ensures FILTER in n.chains && n.chains[FILTER] == HOST_CHAIN && n.next == 0
  {
    var start := Start(map[FILTER := HOST_CHAIN], 0);
    var n1 := Step(start, Begins(0, name, veth));
    RunSnoc(start, [], start, Begins(0, name, veth));
    events := [Begins(0, name, veth)];
    n := Step(n1, Lists(0, [FILTER]));
    RunSnoc(start, events, n1, Lists(0, [FILTER]));
    events := events + [Lists(0, [FILTER])];
    assert [FILTER][1..] == [] && Slots([FILTER]) == [Slot(FILTER, Inward), Slot(FILTER, Outward)] + [];
  }

  /** The first insertion happens, but its echo cannot be read; the second fails. */
  lemma InsertedUnreported(name: string, veth: string) returns (events: seq<Event>, n: Net)
    ensures UndisturbedRun(Start(map[FILTER := HOST_CHAIN], 0), events, n)
    ensures n.shares.Keys == {0} && n.shares[0].phase == Inserting && n.shares[0].inserted == [] && n.shares[0].todo == []
    ensures FILTER in n.chains && n.chains[FILTER].rules == [Pass(0, Inward, veth)]
  {
    var start := Start(map[FILTER := HOST_CHAIN], 0);
    var n1;
    events, n1 := Listed(name, veth);
    var n2 := Step(n1, Inserts(0, Unreported));
    RunSnoc(start, events, n1, Inserts(0, Unreported));
    events := events + [Inserts(0, Unreported)];
    n := Step(n2, Inserts(0, Fails));
    RunSnoc(start, events, n2, Inserts(0, Fails));
    events := events + [Inserts(0, Fails)];
  }

  /** All shares have ended, every deletion has succeeded, and the chain still holds a rule. */
  lemma UnreportedRuleStays(name: string, veth: string) returns (events: seq<Event>, n: Net)
    ensures UndisturbedRun(Start(map[FILTER := HOST_CHAIN], 0), events, n) && n.shares == map[]
    ensures FILTER in n.chains && n.chains[FILTER].rules == [Pass(0, Inward, veth)]
    ensures EverLeft(Start(map[FILTER := HOST_CHAIN], 0), events, FILTER)
  {
    var start := Start(map[FILTER := HOST_CHAIN], 0);
    var n1;
    events, n1 := InsertedUnreported(name, veth);
    var n2 := Step(n1, Yields(0));
    RunSnoc(start, events, n1, Yields(0));
    events := events + [Yields(0)];
    var n3 := Step(n2, Closes(0));
    RunSnoc(start, events, n2, Closes(0));
    events := events + [Closes(0)];
    n := Step(n3, Ends(0, true));
    RunSnoc(start, events, n3, Ends(0, true));
    events := events + [Ends(0, true)];
    ChainRestoredIffNothingLeftBehind(map[FILTER := HOST_CHAIN], 0, events, n, FILTER);
  }

  lemma LoadedTwice(veth: string, former: Address, latter: Address)
    ensures Loaded(map[], [SwitchOn(veth, former, []), SwitchOff(veth, false), SwitchOn(veth, latter, [])])
         == map[veth := [Switch(former, []), Switch(latter, [])]]
  {
    var a, b, c := SwitchOn(veth, former, []), SwitchOff(veth, false), SwitchOn(veth, latter, []);
    LoadedMore(map[], [], a);
    LoadedMore(map[], [a], b);
    LoadedMore(map[], [a, b], c);
    assert [] + [a] == [a] && [a] + [b] == [a, b] && [a, b] + [c] == [a, b, c];
    var none: seq<Switch> := [];
    assert none + [Switch(former, [])] == [Switch(former, [])];
    assert Load(map[], a) == map[veth := none + [Switch(former, [])]];
    var one := map[veth := [Switch(former, [])]];
    assert one[veth] + [Switch(latter, [])] == [Switch(former, []), Switch(latter, [])];
    assert Load(one, b) == one && Load(one, c) == map[veth := one[veth] + [Switch(latter, [])]];
    assert Loaded(map[], []) == map[] && Loaded(map[], [a]) == one && Loaded(map[], [a, b]) == one;
  }

  /** The deletion of a kill switch's table fails, and a tunnel on the same veth then activates a
      switch for another server: what it should stop, and what its packets meet. */
  lemma LeftTableLetsThrough(veth: string, former: Address, latter: Address, env: Meaning, p: Packet)
    returns (events: seq<Event>, n: Net)
    requires former != latter && p.iif == veth
    ensures events == [SwitchOn(veth, former, []), SwitchOff(veth, false), SwitchOn(veth, latter, [])]
    ensures Run(Start(map[], 0), events, n) && veth in n.switches && n.switches[veth] == Switch(latter, [])
    ensures p.dst == former ==> Passes(env, n.chains, p)
    ensures p.dst == latter ==> !Passes(env, n.chains, p)
    ensures !KeepsPromise(env, n, veth)
  {
    var start := Start(map[], 0);
    var n1 := Step(start, SwitchOn(veth, former, []));
    var n2 := Step(n1, SwitchOff(veth, false));
    n := Step(n2, SwitchOn(veth, latter, []));
    assert Run(n2, [SwitchOn(veth, latter, [])], n);
    assert Run(n1, [SwitchOff(veth, false), SwitchOn(veth, latter, [])], n);
    events := [SwitchOn(veth, former, []), SwitchOff(veth, false), SwitchOn(veth, latter, [])];
    TableFollowsFirstSwitch(map[], 0, events, n, veth, env, p);
    var leak := p.(dst := former);
    LoadedTwice(veth, former, latter);
    TableFollowsFirstSwitch(map[], 0, events, n, veth, env, leak);
    assert n.chains.Keys == {Guard(veth)};
  }
}

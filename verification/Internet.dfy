/** The loops of `Internet.share` and `KillSwitch.activate` over the host's ruleset, when nobody
    interferes: each is the corresponding run of single commands. */
module Internet {
  import opened Prelude
  import opened Firewall
  import opened Sharing

  /** One element of `nft --json list chains`; a chain without a hook has no policy either. */
  datatype Item = Other | ChainItem(key: Key, hook: string, policy: string)

  predicate Selected(item: Item) {
    item.ChainItem? && item.hook == "forward" && item.policy == "drop"
  }

  /** What the listing says about the chains there are. */
  ghost predicate Describes(items: seq<Item>, chains: map<Key, Chain>) {
    && (forall k :: k in chains ==> exists i :: 0 <= i < |items| && items[i].ChainItem? && items[i].key == k)
    && (forall i :: 0 <= i < |items| && items[i].ChainItem? ==>
          && items[i].key in chains
          && (items[i].hook == "forward" <==> chains[items[i].key].forwardHook)
          && (items[i].policy == "drop" <==> chains[items[i].key].policy.DropPolicy?))
  }

  function InsertRest(n: Net, id: Id, outcomes: seq<Outcome>): (n': Net)
    requires id in n.shares && |outcomes| == |n.shares[id].todo|
    ensures id in n'.shares && n'.shares[id].todo == []
    decreases |outcomes|
  {
    if outcomes == [] then n else InsertRest(InsertNext(n, id, outcomes[0]), id, outcomes[1..])
  }

  function DeleteRest(n: Net, id: Id, oks: seq<bool>): Net
    requires id in n.shares && |oks| == |n.shares[id].inserted|
    decreases |oks|
  {
    if oks == [] then n else DeleteRest(DeleteNext(n, id, oks[0]), id, oks[1..])
  }

  lemma {:induction false} SlotsAfter(found: seq<Key>)
    ensures |Slots(found)| == 2 * |found|
    ensures found != [] ==> Slots(found)[0] == Slot(found[0], Inward) && Slots(found)[1] == Slot(found[0], Outward)
                            && Slots(found)[1..][1..] == Slots(found[1..])
  {
    if found != [] {
      SlotsAfter(found[1..]);
      assert Slots(found)[1..][1..] == Slots(found[1..]);
    }
  }

  lemma RestAfterTwo(n: Net, id: Id, found: seq<Key>, outcomes: seq<Outcome>)
    requires id in n.shares && n.shares[id].todo == Slots(found) && found != [] && |outcomes| == 2 * |found|
    ensures |Slots(found)| == |outcomes| && Slots(found)[0] == Slot(found[0], Inward) && Slots(found)[1] == Slot(found[0], Outward)
    ensures var n1 := InsertNext(n, id, outcomes[0]); id in n1.shares && n1.shares[id].todo != []
    ensures var n2 := InsertNext(InsertNext(n, id, outcomes[0]), id, outcomes[1]);
      id in n2.shares && n2.shares[id].todo == Slots(found[1..]) && |Slots(found[1..])| == |outcomes| - 2
      && InsertRest(n, id, outcomes) == InsertRest(n2, id, outcomes[2..])
  {
    SlotsAfter(found);
    SlotsAfter(found[1..]);
    assert outcomes[1..][1..] == outcomes[2..];
  }

  class Nft {
    var chains: map<Key, Chain>
    var next: nat

    ghost predicate Shows(n: Net)
      reads this
    {
      chains == n.chains && next == n.next
    }

    /** The chains that can block a forwarded packet by their policy. */
    method ListForwardChains(items: seq<Item>) returns (found: seq<Key>)
      ensures Describes(items, chains) ==> DropChains(chains, found)
      ensures |found| <= |items|
      ensures forall k :: k in found <==> exists i :: 0 <= i < |items| && Selected(items[i]) && items[i].key == k
    {
      found := [];
      for i := 0 to |items|
        invariant |found| <= i
        invariant forall k :: k in found <==> exists j :: 0 <= j < i && Selected(items[j]) && items[j].key == k
      {
        if items[i].ChainItem? {
          if items[i].hook == "forward" && items[i].policy == "drop" {
            found := found + [items[i].key];
          }
        }
      }
      if Describes(items, chains) {
        forall k ensures k in found <==> k in chains && chains[k].forwardHook && chains[k].policy.DropPolicy? {
          if k in chains {
            var i :| 0 <= i < |items| && items[i].ChainItem? && items[i].key == k;
            assert Selected(items[i]) <==> chains[k].forwardHook && chains[k].policy.DropPolicy?;
          }
        }
      }
    }

    /** The handle, if the rule is there and the echo could be read. */
    method TryInsertHostForwardRule(slot: Slot, veth: string, outcome: Outcome) returns (handle: Option<nat>)
      modifies this
      ensures handle.Some? <==> outcome == Reported && slot.key in old(chains)
      ensures handle.Some? ==> handle.value == old(next)
      ensures var happened := outcome != Fails && slot.key in old(chains);
              && chains == (if happened then Insert(old(chains), slot.key, Pass(old(next), slot.direction, veth)) else old(chains))
              && next == old(next) + if happened then 1 else 0
    {
      if outcome == Fails || slot.key !in chains {
        return None;
      }
      chains := Insert(chains, slot.key, Pass(next, slot.direction, veth));
      next := next + 1;
      return if outcome == Reported then Some(next - 1) else None;
    }

    /** One iteration of the inner loop is one insertion of the share. */
    method InsertOne(slot: Slot, veth: string, outcome: Outcome, inserted: seq<Placed>, ghost n: Net, ghost id: Id)
      returns (inserted': seq<Placed>, ghost n': Net)
      requires Shows(n) && id in n.shares && n.shares[id].veth == veth && n.shares[id].inserted == inserted
      requires n.shares[id].todo != [] && n.shares[id].todo[0] == slot
      modifies this
      ensures n' == InsertNext(n, id, outcome) && Shows(n')
      ensures id in n'.shares && n'.shares[id].inserted == inserted' && n'.shares[id].veth == veth
      ensures n'.shares[id].todo == n.shares[id].todo[1..]
    {
      var handle := TryInsertHostForwardRule(slot, veth, outcome);
      inserted' := inserted;
      if handle.Some? {
        inserted' := inserted' + [Placed(slot.key, slot.direction, handle.value)];
      }
      n' := InsertNext(n, id, outcome);
    }

    /** The inner loop: both directions. */
    method InsertBoth(key: Key, veth: string, inward: Outcome, outward: Outcome, inserted: seq<Placed>,
            ghost n: Net, ghost id: Id)
      returns (inserted': seq<Placed>, ghost n': Net)
      requires Shows(n) && id in n.shares && n.shares[id].veth == veth && n.shares[id].inserted == inserted
      requires |n.shares[id].todo| >= 2 && n.shares[id].todo[0] == Slot(key, Inward) && n.shares[id].todo[1] == Slot(key, Outward)
      modifies this
      ensures n' == InsertNext(InsertNext(n, id, inward), id, outward) && Shows(n')
      ensures id in n'.shares && n'.shares[id].inserted == inserted' && n'.shares[id].veth == veth
      ensures n'.shares[id].todo == n.shares[id].todo[1..][1..]
    {
      inserted', n' := InsertOne(Slot(key, Inward), veth, inward, inserted, n, id);
      inserted', n' := InsertOne(Slot(key, Outward), veth, outward, inserted', n', id);
    }

    method InsertForwardRules(found: seq<Key>, veth: string, outcomes: seq<Outcome>, ghost n: Net, ghost id: Id)
      returns (inserted: seq<Placed>)
      requires Shows(n) && id in n.shares && n.shares[id].veth == veth && n.shares[id].inserted == []
      requires n.shares[id].todo == Slots(found) && |outcomes| == |Slots(found)|
      modifies this
      ensures Shows(InsertRest(n, id, outcomes)) && inserted == InsertRest(n, id, outcomes).shares[id].inserted
    {
      inserted := [];
      ghost var m := n;
      SlotsAfter(found);
      for i := 0 to |found|
        invariant Shows(m) && id in m.shares && m.shares[id].veth == veth && m.shares[id].inserted == inserted
        invariant m.shares[id].todo == Slots(found[i..]) && |outcomes| == 2 * |found| && |Slots(found[i..])| == 2 * (|found| - i)
        invariant InsertRest(n, id, outcomes) == InsertRest(m, id, outcomes[2 * i..])
      {
        RestAfterTwo(m, id, found[i..], outcomes[2 * i..]);
        assert found[i..][1..] == found[i + 1..] && outcomes[2 * i..][2..] == outcomes[2 * (i + 1)..];
        SlotsAfter(found[i + 1..]);
        inserted, m := InsertBoth(found[i], veth, outcomes[2 * i], outcomes[2 * i + 1], inserted, m, id);
      }
      assert outcomes[2 * |found|..] == [];
    }

    method DeleteRules(inserted: seq<Placed>, oks: seq<bool>, ghost n: Net, ghost id: Id)
      requires Shows(n) && id in n.shares && n.shares[id].inserted == inserted && |oks| == |inserted|
      modifies this
      ensures Shows(DeleteRest(n, id, oks))
    {
      ghost var m := n;
      for i := 0 to |inserted|
        invariant Shows(m) && id in m.shares && m.shares[id].inserted == inserted[i..]
        invariant DeleteRest(n, id, oks) == DeleteRest(m, id, oks[i..])
      {
        assert inserted[i..][1..] == inserted[i + 1..] && oks[i..][1..] == oks[i + 1..];
        if oks[i] {
          chains := Delete(chains, inserted[i].key, inserted[i].handle);
        }
        m := DeleteNext(m, id, oks[i]);
      }
    }

    /** The kill switch's rules, one accept per extra route. */
    static method SwitchRules(veth: string, server: Address, routes: seq<Dest>) returns (rules: seq<Rule>)
      ensures rules == GuardRules(veth, server, routes)
    {
      var extra: seq<Rule> := [];
      for i := 0 to |routes|
        invariant Permits(veth, routes) == extra + Permits(veth, routes[i..])
      {
        assert routes[i..][1..] == routes[i + 1..];
        extra := extra + [Permit(veth, routes[i])];
      }
      assert routes[|routes|..] == [];
      rules := [Permit(veth, Dest(server, 1))] + extra + [Block(veth)];
    }

    method ActivateKillSwitch(veth: string, server: Address, routes: seq<Dest>, ghost n: Net)
      requires Shows(n)
      modifies this
      ensures Shows(Step(n, SwitchOn(veth, server, routes)))
    {
      var rules := SwitchRules(veth, server, routes);
      chains := Install(chains, Guard(veth), Chain(true, AcceptPolicy, rules));
    }
  }
}

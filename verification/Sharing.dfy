/** Any number of tunnels sharing the host's connection and activating kill switches in any
    order, command by command: what the host's chains hold, and what gets through. */
module Sharing {
  import opened Prelude
  import opened Firewall

  type Id = nat

  // ------------------------------------------------------------------ state

  datatype Phase = Installed | Inserting | Open | Closing

  /** A rule whose handle the echo of its insertion reported. */
  datatype Placed = Placed(key: Key, direction: Direction, handle: nat)

  datatype Slot = Slot(key: Key, direction: Direction)

  /** `listed` and `missed` are history: the chains found, and the insertions that failed or
      whose handle went unreported. */
  datatype Share = Share(
    ident: string, veth: string, phase: Phase, todo: seq<Slot>, inserted: seq<Placed>, listed: seq<Key>, missed: set<Slot>)

  /** History: a rule that is in a host chain, and the share that will delete it, if any. */
  datatype Entry = Entry(key: Key, direction: Direction, veth: string, share: Option<Id>)

  datatype Switch = Switch(server: Address, routes: seq<Dest>)

  datatype Net = Net(
    chains: map<Key, Chain>,
    next: nat,
    shares: map<Id, Share>,
    entries: map<nat, Entry>,
    switches: map<string, Switch>)

  datatype Outcome = Fails | Unreported | Reported

  datatype Event =
    | Begins(id: Id, name: string, veth: string)
    | Lists(id: Id, found: seq<Key>)
    | Inserts(id: Id, outcome: Outcome)
    | Yields(id: Id)
    | Aborts(id: Id)
    | Closes(id: Id)
    | Deletes(id: Id, ok: bool)
    | Ends(id: Id, ok: bool)
    | SwitchOn(veth: string, server: Address, routes: seq<Dest>)
    | SwitchOff(veth: string, ok: bool)
    | HostChanges(key: Key, chain: Option<Chain>)

  predicate InPhase(n: Net, id: Id, phase: Phase) {
    id in n.shares && n.shares[id].phase == phase
  }

  /** The chains that `nft list chains` shows with hook forward and policy drop, in some order. */
  ghost predicate DropChains(chains: map<Key, Chain>, found: seq<Key>) {
    forall k :: k in found <==> k in chains && chains[k].forwardHook && chains[k].policy.DropPolicy?
  }

  ghost predicate Enabled(n: Net, e: Event) {
    match e
    case Begins(id, _, _) => id !in n.shares && forall h :: h in n.entries ==> n.entries[h].share != Some(id)
    case Lists(id, found) => InPhase(n, id, Installed) && DropChains(n.chains, found)
    case Inserts(id, _) => InPhase(n, id, Inserting) && n.shares[id].todo != []
    case Yields(id) => InPhase(n, id, Inserting) && n.shares[id].todo == []
    case Aborts(id) => InPhase(n, id, Installed) || InPhase(n, id, Inserting)
    case Closes(id) => InPhase(n, id, Open)
    case Deletes(id, _) => InPhase(n, id, Closing) && n.shares[id].inserted != []
    case Ends(id, _) => InPhase(n, id, Closing) && n.shares[id].inserted == []
    case SwitchOn(_, _, _) => true
    case SwitchOff(veth, _) => veth in n.switches
    case HostChanges(key, _) => key.Host?
  }

  /** Both rules of each chain, chain by chain. */
  function Slots(found: seq<Key>): seq<Slot> {
    if found == [] then [] else [Slot(found[0], Inward), Slot(found[0], Outward)] + Slots(found[1..])
  }

  function SetShare(n: Net, id: Id, share: Share): Net {
    n.(shares := n.shares[id := share])
  }

  function InsertNext(n: Net, id: Id, outcome: Outcome): Net
    requires id in n.shares && n.shares[id].todo != []
  {
    var share := n.shares[id];
    var slot, later := share.todo[0], share.(todo := share.todo[1..]);
    if outcome == Fails || slot.key !in n.chains then SetShare(n, id, later.(missed := share.missed + {slot}))
    else
      var n' := n.(chains := Insert(n.chains, slot.key, Pass(n.next, slot.direction, share.veth)), next := n.next + 1);
      if outcome == Reported then
        SetShare(n', id, later.(inserted := share.inserted + [Placed(slot.key, slot.direction, n.next)]))
          .(entries := n.entries[n.next := Entry(slot.key, slot.direction, share.veth, Some(id))])
      else
        SetShare(n', id, later.(missed := share.missed + {slot}))
          .(entries := n.entries[n.next := Entry(slot.key, slot.direction, share.veth, None)])
  }

  /** A share that fails before it yields cleans nothing up. */
  function Abort(n: Net, id: Id): Net
    requires id in n.shares
  {
    n.(shares := n.shares - {id},
       entries := map h | h in n.entries :: if n.entries[h].share == Some(id) then n.entries[h].(share := None) else n.entries[h])
  }

  /** A failed deletion is not noticed. */
  function DeleteNext(n: Net, id: Id, ok: bool): Net
    requires id in n.shares && n.shares[id].inserted != []
  {
    var placed := n.shares[id].inserted[0];
    var n' := SetShare(n, id, n.shares[id].(inserted := n.shares[id].inserted[1..]));
    if ok then n'.(chains := Delete(n.chains, placed.key, placed.handle), entries := n.entries - {placed.handle})
    else if placed.handle in n.entries then n'.(entries := n.entries[placed.handle := n.entries[placed.handle].(share := None)])
    else n'
  }

  function End(n: Net, id: Id, ok: bool): Net
    requires id in n.shares
  {
    var ident := n.shares[id].ident;
    n.(shares := n.shares - {id},
       chains := if ok then n.chains - {Own(ident)} else n.chains)
  }

  function Step(n: Net, e: Event): Net
    requires Enabled(n, e)
  {
    match e
    case Begins(id, name, veth) =>
      SetShare(n, id, Share(Ident(name), veth, Installed, [], [], [], {}))
        .(chains := Install(n.chains, Own(Ident(name)), OwnChain()))
    case Lists(id, found) => SetShare(n, id, n.shares[id].(phase := Inserting, todo := Slots(found), listed := found))
    case Inserts(id, outcome) => InsertNext(n, id, outcome)
    case Yields(id) => SetShare(n, id, n.shares[id].(phase := Open))
    case Aborts(id) => Abort(n, id)
    case Closes(id) => SetShare(n, id, n.shares[id].(phase := Closing))
    case Deletes(id, ok) => DeleteNext(n, id, ok)
    case Ends(id, ok) => End(n, id, ok)
    case SwitchOn(veth, server, routes) =>
      n.(chains := Install(n.chains, Guard(veth), Chain(true, AcceptPolicy, GuardRules(veth, server, routes))),
         switches := n.switches[veth := Switch(server, routes)])
    case SwitchOff(veth, ok) =>
      n.(chains := if ok then n.chains - {Guard(veth)} else n.chains, switches := n.switches - {veth})
    case HostChanges(key, chain) =>
      n.(chains := if chain.Some? then n.chains[key := chain.value] else n.chains - {key})
  }

  /** What the host starts with: chains of its own, whose handles are all below `first`. */
  ghost predicate HostOnly(chains: map<Key, Chain>, first: nat) {
    forall k :: k in chains ==> k.Host? && forall i :: 0 <= i < |chains[k].rules| ==>
      chains[k].rules[i].HostRule? && chains[k].rules[i].handle < first
  }

  function Start(chains: map<Key, Chain>, first: nat): Net {
    Net(chains, first, map[], map[], map[])
  }

  /** Every run, whatever the host does and whatever fails. */
  ghost predicate Run(n: Net, events: seq<Event>, n': Net)
    decreases |events|
  {
    if events == [] then n == n'
    else Enabled(n, events[0]) && Run(Step(n, events[0]), events[1..], n')
  }

  // ------------------------------------------------------------------ shares keep to the host's chains

  predicate HostSlots(share: Share) {
    && (forall i :: 0 <= i < |share.todo| ==> share.todo[i].key.Host?)
    && (forall i :: 0 <= i < |share.inserted| ==> share.inserted[i].key.Host?)
  }

  ghost predicate OwnPolicies(chains: map<Key, Chain>) {
    forall k :: k in chains && !k.Host? ==> chains[k].policy.AcceptPolicy?
  }

  /** Shares only ever aim at chains of the host: no table of our own has policy drop. */
  ghost predicate AimsInv(n: Net) {
    OwnPolicies(n.chains) && forall id :: id in n.shares ==> HostSlots(n.shares[id])
  }

  lemma {:induction false} SlotsOfHost(found: seq<Key>)
    requires forall k :: k in found ==> k.Host?
    ensures forall i :: 0 <= i < |Slots(found)| ==> Slots(found)[i].key.Host?
  {
    if found != [] {
      SlotsOfHost(found[1..]);
    }
  }

  lemma StepKeepsPolicies(n: Net, e: Event)
    requires AimsInv(n) && Enabled(n, e)
    ensures OwnPolicies(Step(n, e).chains)
  {
  }

  lemma InsertKeepsSlots(n: Net, id: Id, outcome: Outcome)
    requires id in n.shares && n.shares[id].todo != [] && HostSlots(n.shares[id])
    ensures HostSlots(InsertNext(n, id, outcome).shares[id])
  {
  }

  lemma StepKeepsSlots(n: Net, e: Event, id: Id)
    requires AimsInv(n) && Enabled(n, e) && id in Step(n, e).shares
    ensures HostSlots(Step(n, e).shares[id])
  {
    assert id in n.shares ==> HostSlots(n.shares[id]);
    if e.Lists? {
      SlotsOfHost(e.found);
    } else if e.Inserts? && e.id == id {
      InsertKeepsSlots(n, id, e.outcome);
    }
  }

  lemma StepKeepsAims(n: Net, e: Event)
    requires AimsInv(n) && Enabled(n, e)
    ensures AimsInv(Step(n, e))
  {
    StepKeepsPolicies(n, e);
    forall id | id in Step(n, e).shares ensures HostSlots(Step(n, e).shares[id]) {
      StepKeepsSlots(n, e, id);
    }
  }

  // ------------------------------------------------------------------ what the host's chains hold

  function HostPart(rules: seq<Rule>): seq<Rule> {
    if rules == [] then []
    else if rules[0].HostRule? then [rules[0]] + HostPart(rules[1..])
    else HostPart(rules[1..])
  }

  /** An inserted rule is on the books, ahead of all host rules. */
  ghost predicate RuleOk(rules: seq<Rule>, i: nat, k: Key, first: nat, entries: map<nat, Entry>)
    requires i < |rules|
  {
    match rules[i]
    case HostRule(h, _) => h < first && forall j :: i <= j < |rules| ==> rules[j].HostRule?
    case Pass(h, d, v) => h in entries && entries[h].key == k && entries[h].direction == d && entries[h].veth == v
    case _ => false
  }

  ghost predicate RulesOk(rules: seq<Rule>, k: Key, first: nat, entries: map<nat, Entry>) {
    forall i :: 0 <= i < |rules| ==> RuleOk(rules, i, k, first, entries)
  }

  predicate Holds(rules: seq<Rule>, handle: nat) {
    exists i :: 0 <= i < |rules| && rules[i].Pass? && rules[i].handle == handle
  }

  ghost predicate ChainsInv(n: Net, original: map<Key, Chain>, first: nat) {
    && (forall k: Key :: k.Host? ==> (k in n.chains <==> k in original))
    && (forall k :: k in n.chains && k.Host? ==>
          && n.chains[k] == original[k].(rules := n.chains[k].rules)
          && RulesOk(n.chains[k].rules, k, first, n.entries)
          && HostPart(n.chains[k].rules) == original[k].rules)
  }

  ghost predicate EntriesInv(n: Net, first: nat) {
    && first <= n.next
    && (forall h :: h in n.entries ==>
          && first <= h < n.next && n.entries[h].key.Host? && n.entries[h].key in n.chains
          && Holds(n.chains[n.entries[h].key].rules, h))
  }

  ghost predicate PlacedOk(share: Share, id: Id, i: nat, entries: map<nat, Entry>)
    requires i < |share.inserted|
  {
    var placed := share.inserted[i];
    && placed.handle in entries
    && entries[placed.handle] == Entry(placed.key, placed.direction, share.veth, Some(id))
    && (forall j :: 0 <= j < |share.inserted| && share.inserted[j].handle == placed.handle ==> j == i)
  }

  ghost predicate LedgerInv(n: Net) {
    && (forall id :: id in n.shares ==> forall i :: 0 <= i < |n.shares[id].inserted| ==> PlacedOk(n.shares[id], id, i, n.entries))
    && (forall h :: h in n.entries && n.entries[h].share.Some? ==>
          n.entries[h].share.value in n.shares && OnBooks(n.shares[n.entries[h].share.value], h))
  }

  predicate OnBooks(share: Share, handle: nat) {
    exists i :: 0 <= i < |share.inserted| && share.inserted[i].handle == handle
  }

  ghost predicate HostInv(n: Net, original: map<Key, Chain>, first: nat) {
    AimsInv(n) && ChainsInv(n, original, first) && EntriesInv(n, first) && LedgerInv(n)
  }

  // One rule more, one rule less.

  lemma InsertedRulesOk(rules: seq<Rule>, k: Key, first: nat, entries: map<nat, Entry>, h: nat, entry: Entry)
    requires RulesOk(rules, k, first, entries) && h !in entries && entry.key == k
    ensures RulesOk([Pass(h, entry.direction, entry.veth)] + rules, k, first, entries[h := entry])
  {
    var rules', entries' := [Pass(h, entry.direction, entry.veth)] + rules, entries[h := entry];
    forall i | 0 <= i < |rules'| ensures RuleOk(rules', i, k, first, entries') {
      if i > 0 {
        assert RuleOk(rules, i - 1, k, first, entries);
        assert rules'[i] == rules[i - 1];
        assert forall j :: i <= j < |rules'| ==> rules'[j] == rules[j - 1];
      }
    }
  }

  lemma OtherRulesOk(rules: seq<Rule>, k: Key, first: nat, entries: map<nat, Entry>, entries': map<nat, Entry>)
    requires RulesOk(rules, k, first, entries)
    requires forall h :: h in entries && entries[h].key == k ==>
               h in entries' && entries'[h] == entries[h].(share := entries'[h].share)
    ensures RulesOk(rules, k, first, entries')
  {
    forall i | 0 <= i < |rules| ensures RuleOk(rules, i, k, first, entries') {
      assert RuleOk(rules, i, k, first, entries);
    }
  }

  /** Deleting by a handle that is no host rule's leaves the host's rules, in order. */
  lemma {:induction false} RemoveKeepsHostPart(rules: seq<Rule>, k: Key, first: nat, entries: map<nat, Entry>, h: nat)
    requires RulesOk(rules, k, first, entries) && first <= h
    ensures HostPart(Remove(rules, h)) == HostPart(rules)
  {
    if rules != [] {
      assert RuleOk(rules, 0, k, first, entries);
      TailRulesOk(rules, k, first, entries);
      RemoveKeepsHostPart(rules[1..], k, first, entries, h);
    }
  }

  lemma TailRulesOk(rules: seq<Rule>, k: Key, first: nat, entries: map<nat, Entry>)
    requires RulesOk(rules, k, first, entries) && rules != []
    ensures RulesOk(rules[1..], k, first, entries)
  {
    forall i | 0 <= i < |rules[1..]| ensures RuleOk(rules[1..], i, k, first, entries) {
      assert RuleOk(rules, i + 1, k, first, entries);
      assert forall j :: i <= j < |rules[1..]| ==> rules[1..][j] == rules[j + 1];
    }
  }

  lemma ConsRulesOk(r: Rule, rules: seq<Rule>, k: Key, first: nat, entries: map<nat, Entry>)
    requires RulesOk(rules, k, first, entries)
    requires r.HostRule? && r.handle < first && forall j :: 0 <= j < |rules| ==> rules[j].HostRule?
    ensures RulesOk([r] + rules, k, first, entries)
  {
    forall i | 0 <= i < |rules| + 1 ensures RuleOk([r] + rules, i, k, first, entries) {
      if i > 0 {
        assert RuleOk(rules, i - 1, k, first, entries);
        assert forall j :: i <= j < |rules| + 1 ==> ([r] + rules)[j] == rules[j - 1];
      }
    }
  }

  lemma {:induction false} RemovedRulesOk(rules: seq<Rule>, k: Key, first: nat, entries: map<nat, Entry>, h: nat)
    requires RulesOk(rules, k, first, entries) && first <= h
    ensures RulesOk(Remove(rules, h), k, first, entries - {h})
    ensures (forall j :: 0 <= j < |rules| ==> rules[j].HostRule?) ==>
              forall j :: 0 <= j < |Remove(rules, h)| ==> Remove(rules, h)[j].HostRule?
  {
    if rules != [] {
      assert RuleOk(rules, 0, k, first, entries);
      TailRulesOk(rules, k, first, entries);
      RemovedRulesOk(rules[1..], k, first, entries, h);
      if !HasHandle(rules[0], h) {
        if rules[0].HostRule? {
          assert forall j :: 0 <= j < |rules[1..]| ==> rules[1..][j] == rules[j + 1];
          ConsRulesOk(rules[0], Remove(rules[1..], h), k, first, entries - {h});
        } else {
          ConsPassOk(rules[0], Remove(rules[1..], h), k, first, entries - {h});
        }
      }
    }
  }

  lemma ConsPassOk(r: Rule, rules: seq<Rule>, k: Key, first: nat, entries: map<nat, Entry>)
    requires RulesOk(rules, k, first, entries) && r.Pass? && r.handle in entries
    requires entries[r.handle].key == k && entries[r.handle].direction == r.direction && entries[r.handle].veth == r.veth
    ensures RulesOk([r] + rules, k, first, entries)
  {
    forall i | 0 <= i < |rules| + 1 ensures RuleOk([r] + rules, i, k, first, entries) {
      if i > 0 {
        assert RuleOk(rules, i - 1, k, first, entries);
        assert forall j :: i <= j < |rules| + 1 ==> ([r] + rules)[j] == rules[j - 1];
      }
    }
  }

  lemma {:induction false} RemoveLeavesOthers(rules: seq<Rule>, h: nat, other: nat)
    requires Holds(rules, other) && other != h
    ensures Holds(Remove(rules, h), other)
  {
    var i :| 0 <= i < |rules| && rules[i].Pass? && rules[i].handle == other;
    if i == 0 {
      assert Remove(rules, h)[0] == rules[0];
    } else {
      assert rules[1..][i - 1] == rules[i];
      RemoveLeavesOthers(rules[1..], h, other);
      var j :| 0 <= j < |Remove(rules[1..], h)| && Remove(rules[1..], h)[j].Pass? && Remove(rules[1..], h)[j].handle == other;
      if !HasHandle(rules[0], h) {
        assert Remove(rules, h)[j + 1] == Remove(rules[1..], h)[j];
      }
    }
  }

  // Steps.

  lemma InsertKeepsChains(n: Net, key: Key, entry: Entry, original: map<Key, Chain>, first: nat)
    requires ChainsInv(n, original, first) && EntriesInv(n, first) && key in n.chains && key.Host? && entry.key == key
    ensures var n' := n.(chains := Insert(n.chains, key, Pass(n.next, entry.direction, entry.veth)), next := n.next + 1,
                         entries := n.entries[n.next := entry]);
            ChainsInv(n', original, first) && EntriesInv(n', first)
  {
    var rule := Pass(n.next, entry.direction, entry.veth);
    var chains', entries' := Insert(n.chains, key, rule), n.entries[n.next := entry];
    forall k | k in chains' && k.Host?
      ensures RulesOk(chains'[k].rules, k, first, entries') && HostPart(chains'[k].rules) == original[k].rules
    {
      if k == key {
        InsertedRulesOk(n.chains[k].rules, k, first, n.entries, n.next, entry);
        assert ([rule] + n.chains[k].rules)[1..] == n.chains[k].rules;
      } else {
        OtherRulesOk(n.chains[k].rules, k, first, n.entries, entries');
      }
    }
    forall h | h in entries' ensures Holds(chains'[entries'[h].key].rules, h) {
      if h == n.next {
        assert chains'[key].rules[0] == rule;
      } else {
        InsertLeavesOthers(n.chains[n.entries[h].key].rules, rule, h);
      }
    }
  }

  lemma InsertLeavesOthers(rules: seq<Rule>, rule: Rule, h: nat)
    requires Holds(rules, h)
    ensures Holds([rule] + rules, h)
  {
    var i :| 0 <= i < |rules| && rules[i].Pass? && rules[i].handle == h;
    assert ([rule] + rules)[i + 1] == rules[i];
  }

  lemma DeleteKeepsChains(n: Net, key: Key, h: nat, original: map<Key, Chain>, first: nat)
    requires ChainsInv(n, original, first) && EntriesInv(n, first) && h in n.entries && n.entries[h].key == key
    ensures var n' := n.(chains := Delete(n.chains, key, h), entries := n.entries - {h});
            ChainsInv(n', original, first) && EntriesInv(n', first)
  {
    var chains', entries' := Delete(n.chains, key, h), n.entries - {h};
    forall k | k in chains' && k.Host?
      ensures RulesOk(chains'[k].rules, k, first, entries') && HostPart(chains'[k].rules) == original[k].rules
    {
      if k == key {
        RemovedRulesOk(n.chains[k].rules, k, first, n.entries, h);
        RemoveKeepsHostPart(n.chains[k].rules, k, first, n.entries, h);
      } else {
        OtherRulesOk(n.chains[k].rules, k, first, n.entries, entries');
      }
    }
    forall other | other in entries' ensures Holds(chains'[entries'[other].key].rules, other) {
      if n.entries[other].key == key {
        RemoveLeavesOthers(n.chains[key].rules, h, other);
      }
    }
  }

  /** Changing who will delete what. */
  lemma MarkKeepsChains(n: Net, entries': map<nat, Entry>, original: map<Key, Chain>, first: nat)
    requires ChainsInv(n, original, first) && EntriesInv(n, first)
    requires entries'.Keys == n.entries.Keys
    requires forall h :: h in n.entries ==> entries'[h] == n.entries[h].(share := entries'[h].share)
    ensures ChainsInv(n.(entries := entries'), original, first) && EntriesInv(n.(entries := entries'), first)
  {
    forall k | k in n.chains && k.Host? ensures RulesOk(n.chains[k].rules, k, first, entries') {
      OtherRulesOk(n.chains[k].rules, k, first, n.entries, entries');
    }
  }

  lemma InsertKeepsPlaced(n: Net, id: Id, outcome: Outcome, first: nat, other: Id, i: nat)
    requires LedgerInv(n) && EntriesInv(n, first) && id in n.shares && n.shares[id].todo != []
    requires other in InsertNext(n, id, outcome).shares && i < |InsertNext(n, id, outcome).shares[other].inserted|
    ensures PlacedOk(InsertNext(n, id, outcome).shares[other], other, i, InsertNext(n, id, outcome).entries)
  {
    var inserted := n.shares[id].inserted;
    forall j | 0 <= j < |inserted| ensures inserted[j].handle in n.entries && inserted[j].handle < n.next {
      assert PlacedOk(n.shares[id], id, j, n.entries);
    }
    if other != id || i < |inserted| {
      assert PlacedOk(n.shares[other], other, i, n.entries);
    }
  }

  lemma InsertKeepsLedger(n: Net, id: Id, outcome: Outcome, first: nat)
    requires LedgerInv(n) && EntriesInv(n, first) && id in n.shares && n.shares[id].todo != []
    ensures LedgerInv(InsertNext(n, id, outcome))
  {
    var n' := InsertNext(n, id, outcome);
    forall other, i | other in n'.shares && 0 <= i < |n'.shares[other].inserted|
      ensures PlacedOk(n'.shares[other], other, i, n'.entries)
    {
      InsertKeepsPlaced(n, id, outcome, first, other, i);
    }
    forall h | h in n'.entries && n'.entries[h].share.Some?
      ensures n'.entries[h].share.value in n'.shares && OnBooks(n'.shares[n'.entries[h].share.value], h)
    {
      if h in n.entries && h != n.next {
        var other := n.entries[h].share.value;
        var i :| 0 <= i < |n.shares[other].inserted| && n.shares[other].inserted[i].handle == h;
        assert n'.shares[other].inserted[i].handle == h;
      } else {
        assert n'.shares[id].inserted[|n.shares[id].inserted|].handle == h;
      }
    }
  }

  lemma DeleteKeepsLedger(n: Net, id: Id, ok: bool)
    requires LedgerInv(n) && id in n.shares && n.shares[id].inserted != []
    ensures LedgerInv(DeleteNext(n, id, ok))
  {
    var n' := DeleteNext(n, id, ok);
    var inserted := n.shares[id].inserted;
    assert PlacedOk(n.shares[id], id, 0, n.entries);
    forall other, i | other in n'.shares && 0 <= i < |n'.shares[other].inserted|
      ensures PlacedOk(n'.shares[other], other, i, n'.entries)
    {
      if other == id {
        assert PlacedOk(n.shares[id], id, i + 1, n.entries);
      } else {
        assert PlacedOk(n.shares[other], other, i, n.entries);
      }
    }
    forall h | h in n'.entries && n'.entries[h].share.Some?
      ensures n'.entries[h].share.value in n'.shares && OnBooks(n'.shares[n'.entries[h].share.value], h)
    {
      var other := n.entries[h].share.value;
      var i :| 0 <= i < |n.shares[other].inserted| && n.shares[other].inserted[i].handle == h;
      if other == id {
        assert n'.shares[id].inserted[i - 1].handle == h;
      }
    }
  }

  lemma AbortKeepsLedger(n: Net, id: Id)
    requires LedgerInv(n) && id in n.shares
    ensures LedgerInv(Abort(n, id))
  {
    var n' := Abort(n, id);
    forall other, i | other in n'.shares && 0 <= i < |n'.shares[other].inserted|
      ensures PlacedOk(n'.shares[other], other, i, n'.entries)
    {
      assert PlacedOk(n.shares[other], other, i, n.entries);
    }
    forall h | h in n'.entries && n'.entries[h].share.Some?
      ensures n'.entries[h].share.value in n'.shares && OnBooks(n'.shares[n'.entries[h].share.value], h)
    {
      assert n.entries[h] == n'.entries[h];
    }
  }

  /** Nobody but shares and switches changes the filter. */
  predicate Undisturbed(e: Event) {
    !e.HostChanges?
  }

  /** A step that leaves host chains and entries alone, and takes away no share with rules to delete. */
  ghost predicate Quiet(n: Net, n': Net) {
    && n'.entries == n.entries && n'.next == n.next
    && (forall k: Key :: k.Host? ==> (k in n'.chains <==> k in n.chains) && (k in n.chains ==> n'.chains[k] == n.chains[k]))
    && (forall id :: id in n'.shares && n'.shares[id].inserted != [] ==>
          id in n.shares && n'.shares[id].inserted == n.shares[id].inserted && n'.shares[id].veth == n.shares[id].veth)
    && (forall id :: id in n.shares && n.shares[id].inserted != [] ==>
          id in n'.shares && n'.shares[id].inserted == n.shares[id].inserted)
  }

  lemma QuietStep(n: Net, e: Event)
    requires Enabled(n, e) && Undisturbed(e) && !e.Inserts? && !e.Deletes? && !e.Aborts?
    ensures Quiet(n, Step(n, e))
  {
  }

  lemma QuietKeepsHost(n: Net, n': Net, original: map<Key, Chain>, first: nat)
    requires HostInv(n, original, first) && AimsInv(n') && Quiet(n, n')
    ensures HostInv(n', original, first)
  {
    forall id, i | id in n'.shares && 0 <= i < |n'.shares[id].inserted| ensures PlacedOk(n'.shares[id], id, i, n'.entries) {
      assert PlacedOk(n.shares[id], id, i, n.entries);
    }
    forall h | h in n'.entries && n'.entries[h].share.Some?
      ensures n'.entries[h].share.value in n'.shares && OnBooks(n'.shares[n'.entries[h].share.value], h)
    {
      assert OnBooks(n.shares[n.entries[h].share.value], h);
    }
  }

  lemma InsertKeepsHost(n: Net, id: Id, outcome: Outcome, original: map<Key, Chain>, first: nat)
    requires HostInv(n, original, first) && Enabled(n, Inserts(id, outcome))
    ensures HostInv(InsertNext(n, id, outcome), original, first)
  {
    var share := n.shares[id];
    var slot := share.todo[0];
    StepKeepsAims(n, Inserts(id, outcome));
    InsertKeepsLedger(n, id, outcome, first);
    if outcome != Fails && slot.key in n.chains {
      var entry := Entry(slot.key, slot.direction, share.veth, if outcome == Reported then Some(id) else None);
      InsertKeepsChains(n, slot.key, entry, original, first);
    }
  }

  lemma DeleteKeepsHost(n: Net, id: Id, ok: bool, original: map<Key, Chain>, first: nat)
    requires HostInv(n, original, first) && Enabled(n, Deletes(id, ok))
    ensures HostInv(DeleteNext(n, id, ok), original, first)
  {
    var placed := n.shares[id].inserted[0];
    assert PlacedOk(n.shares[id], id, 0, n.entries);
    StepKeepsAims(n, Deletes(id, ok));
    DeleteKeepsLedger(n, id, ok);
    if ok {
      DeleteKeepsChains(n, placed.key, placed.handle, original, first);
    } else {
      MarkKeepsChains(n, n.entries[placed.handle := n.entries[placed.handle].(share := None)], original, first);
    }
  }

  lemma AbortKeepsHost(n: Net, id: Id, original: map<Key, Chain>, first: nat)
    requires HostInv(n, original, first) && Enabled(n, Aborts(id))
    ensures HostInv(Abort(n, id), original, first)
  {
    StepKeepsAims(n, Aborts(id));
    AbortKeepsLedger(n, id);
    MarkKeepsChains(n, Abort(n, id).entries, original, first);
  }

  lemma StepKeepsHost(n: Net, e: Event, original: map<Key, Chain>, first: nat)
    requires HostInv(n, original, first) && Enabled(n, e) && Undisturbed(e)
    ensures HostInv(Step(n, e), original, first)
  {
    if e.Inserts? {
      InsertKeepsHost(n, e.id, e.outcome, original, first);
    } else if e.Deletes? {
      DeleteKeepsHost(n, e.id, e.ok, original, first);
    } else if e.Aborts? {
      AbortKeepsHost(n, e.id, original, first);
    } else {
      StepKeepsAims(n, e);
      QuietStep(n, e);
      QuietKeepsHost(n, Step(n, e), original, first);
    }
  }

  ghost predicate UndisturbedRun(n: Net, events: seq<Event>, n': Net)
    decreases |events|
  {
    if events == [] then n == n'
    else Enabled(n, events[0]) && Undisturbed(events[0]) && UndisturbedRun(Step(n, events[0]), events[1..], n')
  }

  lemma {:induction false} RunKeepsHost(n: Net, events: seq<Event>, n': Net, original: map<Key, Chain>, first: nat)
    requires HostInv(n, original, first) && UndisturbedRun(n, events, n')
    ensures HostInv(n', original, first)
    decreases |events|
  {
    if events != [] {
      StepKeepsHost(n, events[0], original, first);
      RunKeepsHost(Step(n, events[0]), events[1..], n', original, first);
    }
  }

  lemma StartKeepsHost(chains: map<Key, Chain>, first: nat)
    requires HostOnly(chains, first)
    ensures HostInv(Start(chains, first), chains, first)
  {
    forall k | k in chains ensures RulesOk(chains[k].rules, k, first, map[]) && HostPart(chains[k].rules) == chains[k].rules {
      AllHost(chains[k].rules);
      forall i | 0 <= i < |chains[k].rules| ensures RuleOk(chains[k].rules, i, k, first, map[]) {
      }
    }
  }

  lemma {:induction false} AllHost(rules: seq<Rule>)
    requires forall i :: 0 <= i < |rules| ==> rules[i].HostRule?
    ensures HostPart(rules) == rules
  {
    if rules != [] {
      AllHost(rules[1..]);
    }
  }

  // ------------------------------------------------------------------ what shares aim at

  predicate IsDropChain(chains: map<Key, Chain>, k: Key) {
    k in chains && chains[k].forwardHook && chains[k].policy.DropPolicy?
  }

  predicate AimsAt(share: Share, chains: map<Key, Chain>) {
    && (forall i :: 0 <= i < |share.todo| ==> IsDropChain(chains, share.todo[i].key))
    && (forall i :: 0 <= i < |share.inserted| ==> IsDropChain(chains, share.inserted[i].key))
  }

  lemma {:induction false} SlotsAimAt(found: seq<Key>, chains: map<Key, Chain>)
    requires forall k :: k in found ==> IsDropChain(chains, k)
    ensures forall i :: 0 <= i < |Slots(found)| ==> IsDropChain(chains, Slots(found)[i].key)
  {
    if found != [] {
      SlotsAimAt(found[1..], chains);
    }
  }

  lemma InsertKeepsAim(n: Net, id: Id, outcome: Outcome, chains: map<Key, Chain>)
    requires id in n.shares && n.shares[id].todo != [] && AimsAt(n.shares[id], chains)
    ensures AimsAt(InsertNext(n, id, outcome).shares[id], chains)
  {
  }

  lemma DeleteKeepsAim(n: Net, id: Id, ok: bool, chains: map<Key, Chain>)
    requires id in n.shares && n.shares[id].inserted != [] && AimsAt(n.shares[id], chains)
    ensures id in DeleteNext(n, id, ok).shares && AimsAt(DeleteNext(n, id, ok).shares[id], chains)
  {
  }

  lemma ListsAims(n: Net, found: seq<Key>, original: map<Key, Chain>, first: nat)
    requires ChainsInv(n, original, first) && OwnPolicies(n.chains) && DropChains(n.chains, found)
    ensures forall i :: 0 <= i < |Slots(found)| ==> IsDropChain(original, Slots(found)[i].key)
  {
    assert forall k :: k in found ==> k.Host? && IsDropChain(original, k);
    SlotsAimAt(found, original);
  }

  lemma StepKeepsAim(n: Net, e: Event, original: map<Key, Chain>, first: nat, id: Id)
    requires ChainsInv(n, original, first) && OwnPolicies(n.chains) && Enabled(n, e) && id in Step(n, e).shares
    requires id in n.shares ==> AimsAt(n.shares[id], original)
    ensures AimsAt(Step(n, e).shares[id], original)
  {
    if e.Lists? {
      ListsAims(n, e.found, original, first);
    } else if e.Inserts? {
      if e.id == id { InsertKeepsAim(n, id, e.outcome, original); }
    } else if e.Deletes? {
      if e.id == id { DeleteKeepsAim(n, id, e.ok, original); }
    }
  }

  lemma {:induction false} RunKeepsAim(n: Net, events: seq<Event>, n': Net, original: map<Key, Chain>, first: nat)
    requires HostInv(n, original, first) && UndisturbedRun(n, events, n')
    requires forall id :: id in n.shares ==> AimsAt(n.shares[id], original)
    ensures forall id :: id in n'.shares ==> AimsAt(n'.shares[id], original)
    decreases |events|
  {
    if events != [] {
      forall id | id in Step(n, events[0]).shares ensures AimsAt(Step(n, events[0]).shares[id], original) {
        StepKeepsAim(n, events[0], original, first, id);
      }
      StepKeepsHost(n, events[0], original, first);
      RunKeepsAim(Step(n, events[0]), events[1..], n', original, first);
    }
  }

  /** A share inserts into chains with hook forward and policy drop only: never into a table of its
      own, nor into the chain of a kill switch, whose policy is accept. */
  lemma SharesAimAtDropChains(chains: map<Key, Chain>, first: nat, events: seq<Event>, n: Net, id: Id)
    requires HostOnly(chains, first) && UndisturbedRun(Start(chains, first), events, n) && id in n.shares
    ensures AimsAt(n.shares[id], n.chains)
  {
    StartKeepsHost(chains, first);
    RunKeepsHost(Start(chains, first), events, n, chains, first);
    RunKeepsAim(Start(chains, first), events, n, chains, first);
    assert forall k :: IsDropChain(chains, k) ==> k.Host? && IsDropChain(n.chains, k);
  }

  // ------------------------------------------------------------------ the tables of the shares

  /** The tables that have been installed by a share and not deleted since: a share deletes its table
      when it ends, if the command succeeds, and not at all if it fails on its way. */
  ghost function TablesLeft(idents: set<string>, n: Net, events: seq<Event>): set<string>
    decreases |events|
  {
    if events == [] || !Enabled(n, events[0]) then idents
    else
      match events[0]
      case Begins(_, name, _) => TablesLeft(idents + {Ident(name)}, Step(n, events[0]), events[1..])
      case Ends(id, true) => TablesLeft(idents - {n.shares[id].ident}, Step(n, events[0]), events[1..])
      case _ => TablesLeft(idents, Step(n, events[0]), events[1..])
  }

  lemma {:induction false} RunInstalls(n: Net, events: seq<Event>, n': Net, idents: set<string>)
    requires AimsInv(n) && Run(n, events, n') && forall ident :: Own(ident) in n.chains <==> ident in idents
    ensures forall ident :: Own(ident) in n'.chains <==> ident in TablesLeft(idents, n, events)
    decreases |events|
  {
    if events != [] {
      var e, n1 := events[0], Step(n, events[0]);
      StepKeepsAims(n, e);
      OwnTablesMove(n, e);
      var idents' := if e.Begins? then idents + {Ident(e.name)}
                     else if e.Ends? && e.ok then idents - {n.shares[e.id].ident} else idents;
      RunInstalls(n1, events[1..], n', idents');
    }
  }

  lemma OwnTablesMove(n: Net, e: Event)
    requires AimsInv(n) && Enabled(n, e)
    ensures forall ident :: Own(ident) in Step(n, e).chains <==>
              (e.Begins? && Ident(e.name) == ident) || (Own(ident) in n.chains && !(e.Ends? && e.ok && n.shares[e.id].ident == ident))
  {
    assert e.Inserts? ==> n.shares[e.id].todo[0].key.Host?;
    assert e.Deletes? ==> n.shares[e.id].inserted[0].key.Host?;
  }

  /** Over every run, whatever fails. */
  lemma ShareTablesAreTheInstalled(chains: map<Key, Chain>, first: nat, events: seq<Event>, n: Net, ident: string)
    requires HostOnly(chains, first) && Run(Start(chains, first), events, n)
    ensures Own(ident) in n.chains <==> ident in TablesLeft({}, Start(chains, first), events)
  {
    RunInstalls(Start(chains, first), events, n, {});
  }

  // ------------------------------------------------------------------ restoration

  // What a step can leave in a host chain for good.

  ghost predicate LeavesRule(n: Net, e: Event, k: Key)
    requires Enabled(n, e)
  {
    match e
    case Inserts(id, outcome) => outcome == Unreported && n.shares[id].todo[0].key == k && k in n.chains
    case Deletes(id, ok) => !ok && n.shares[id].inserted[0].key == k
    case Aborts(id) => HasRuleIn(n.shares[id], k)
    case _ => false
  }

  predicate HasRuleIn(share: Share, k: Key) {
    exists i :: 0 <= i < |share.inserted| && share.inserted[i].key == k
  }

  ghost predicate EverLeft(n: Net, events: seq<Event>, k: Key)
    decreases |events|
  {
    events != [] && Enabled(n, events[0]) && (LeavesRule(n, events[0], k) || EverLeft(Step(n, events[0]), events[1..], k))
  }

  /** A rule in `k` that no share will delete. */
  predicate LeftIn(entries: map<nat, Entry>, k: Key) {
    exists h :: h in entries && entries[h].key == k && entries[h].share.None?
  }

  lemma InsertLeaves(n: Net, id: Id, outcome: Outcome, k: Key, first: nat)
    requires EntriesInv(n, first) && id in n.shares && n.shares[id].todo != []
    ensures LeftIn(InsertNext(n, id, outcome).entries, k) <==>
              LeftIn(n.entries, k) || (outcome == Unreported && n.shares[id].todo[0].key == k && k in n.chains)
  {
    var n' := InsertNext(n, id, outcome);
    if LeftIn(n.entries, k) {
      var h :| h in n.entries && n.entries[h].key == k && n.entries[h].share.None?;
      assert h in n'.entries && n'.entries[h] == n.entries[h];
    }
    if outcome == Unreported && n.shares[id].todo[0].key == k && k in n.chains {
      assert n.next in n'.entries && n'.entries[n.next].key == k && n'.entries[n.next].share.None?;
    }
  }

  lemma DeleteLeaves(n: Net, id: Id, ok: bool, k: Key)
    requires LedgerInv(n) && id in n.shares && n.shares[id].inserted != []
    ensures LeftIn(DeleteNext(n, id, ok).entries, k) <==> LeftIn(n.entries, k) || (!ok && n.shares[id].inserted[0].key == k)
  {
    var n', placed := DeleteNext(n, id, ok), n.shares[id].inserted[0];
    assert PlacedOk(n.shares[id], id, 0, n.entries);
    if LeftIn(n.entries, k) {
      var h :| h in n.entries && n.entries[h].key == k && n.entries[h].share.None?;
      assert h in n'.entries && n'.entries[h] == n.entries[h];
    }
    if !ok && placed.key == k {
      assert placed.handle in n'.entries && n'.entries[placed.handle].key == k && n'.entries[placed.handle].share.None?;
    }
  }

  lemma AbortLeaves(n: Net, id: Id, k: Key)
    requires LedgerInv(n) && id in n.shares
    ensures LeftIn(Abort(n, id).entries, k) <==> LeftIn(n.entries, k) || HasRuleIn(n.shares[id], k)
  {
    var n', share := Abort(n, id), n.shares[id];
    if LeftIn(n.entries, k) {
      var h :| h in n.entries && n.entries[h].key == k && n.entries[h].share.None?;
      assert n'.entries[h] == n.entries[h];
    }
    if HasRuleIn(share, k) {
      var i :| 0 <= i < |share.inserted| && share.inserted[i].key == k;
      assert PlacedOk(share, id, i, n.entries);
      assert n'.entries[share.inserted[i].handle].key == k && n'.entries[share.inserted[i].handle].share.None?;
    }
    if LeftIn(n'.entries, k) {
      var h :| h in n'.entries && n'.entries[h].key == k && n'.entries[h].share.None?;
      if n.entries[h].share.Some? {
        var i :| 0 <= i < |share.inserted| && share.inserted[i].handle == h;
        assert PlacedOk(share, id, i, n.entries);
      }
    }
  }

  lemma StepLeaves(n: Net, e: Event, original: map<Key, Chain>, first: nat, k: Key)
    requires HostInv(n, original, first) && Enabled(n, e) && Undisturbed(e)
    ensures LeftIn(Step(n, e).entries, k) <==> LeftIn(n.entries, k) || LeavesRule(n, e, k)
  {
    if e.Inserts? {
      InsertLeaves(n, e.id, e.outcome, k, first);
    } else if e.Deletes? {
      DeleteLeaves(n, e.id, e.ok, k);
    } else if e.Aborts? {
      AbortLeaves(n, e.id, k);
    } else {
      QuietStep(n, e);
    }
  }

  lemma {:induction false} RunLeaves(n: Net, events: seq<Event>, n': Net, original: map<Key, Chain>, first: nat, k: Key)
    requires HostInv(n, original, first) && UndisturbedRun(n, events, n')
    ensures LeftIn(n'.entries, k) <==> LeftIn(n.entries, k) || EverLeft(n, events, k)
    decreases |events|
  {
    if events != [] {
      StepLeaves(n, events[0], original, first, k);
      StepKeepsHost(n, events[0], original, first);
      RunLeaves(Step(n, events[0]), events[1..], n', original, first, k);
    }
  }

  /** A chain is the original one exactly when no rule on the books is in it. */
  lemma OriginalIffUnmarked(n: Net, original: map<Key, Chain>, first: nat, k: Key)
    requires HostInv(n, original, first) && HostOnly(original, first) && k in original
    ensures k in n.chains && (n.chains[k] == original[k] <==> forall h :: h in n.entries ==> n.entries[h].key != k)
  {
    var rules := n.chains[k].rules;
    if h :| h in n.entries && n.entries[h].key == k {
      assert Holds(rules, h);
    } else {
      forall i | 0 <= i < |rules| ensures rules[i].HostRule? {
        assert RuleOk(rules, i, k, first, n.entries);
      }
      AllHost(rules);
    }
  }

  /** However the shares overlapped: once all have ended, a chain of the host is what it was at
      the start if and only if no insertion into it has gone unreported, no deletion of a rule of
      it has failed, and no share has failed before it yielded with a rule in it. */
  lemma ChainRestoredIffNothingLeftBehind(chains: map<Key, Chain>, first: nat, events: seq<Event>, n: Net, k: Key)
    requires HostOnly(chains, first) && UndisturbedRun(Start(chains, first), events, n)
    requires n.shares == map[] && k in chains
    ensures k in n.chains && (n.chains[k] == chains[k] <==> !EverLeft(Start(chains, first), events, k))
  {
    StartKeepsHost(chains, first);
    RunKeepsHost(Start(chains, first), events, n, chains, first);
    RunLeaves(Start(chains, first), events, n, chains, first, k);
    OriginalIffUnmarked(n, chains, first, k);
  }

  /** Nothing goes wrong: every insertion that happens is reported, every deletion succeeds, no
      share fails on its way, and no two live shares have names that collide. */
  ghost predicate Tidy(n: Net, e: Event) {
    match e
    case Begins(_, name, _) => Own(Ident(name)) !in n.chains
    case Inserts(_, outcome) => outcome != Unreported
    case Aborts(_) => false
    case Deletes(_, ok) => ok
    case Ends(_, ok) => ok
    case SwitchOn(veth, _, _) => Guard(veth) !in n.chains
    case SwitchOff(_, ok) => ok
    case HostChanges(_, _) => false
    case _ => true
  }

  ghost predicate TidyRun(n: Net, events: seq<Event>, n': Net)
    decreases |events|
  {
    if events == [] then n == n'
    else Enabled(n, events[0]) && Tidy(n, events[0]) && TidyRun(Step(n, events[0]), events[1..], n')
  }

  /** Every table of ours has one live owner. */
  ghost predicate TablesInv(n: Net) {
    && (forall ident :: Own(ident) in n.chains ==> HasIdent(n.shares, ident))
    && (forall id :: id in n.shares ==> Own(n.shares[id].ident) in n.chains)
    && (forall id, id' :: id in n.shares && id' in n.shares && id != id' ==> n.shares[id].ident != n.shares[id'].ident)
    && (forall v :: Guard(v) in n.chains ==> v in n.switches)
  }

  predicate HasIdent(shares: map<Id, Share>, ident: string) {
    exists id :: id in shares && shares[id].ident == ident
  }

  ghost predicate NothingLeft(n: Net) {
    forall h :: h in n.entries ==> n.entries[h].share.Some?
  }

  /** Which of our tables a tidy step creates and deletes. */
  ghost predicate TablesMove(n: Net, e: Event, n': Net) {
    && (forall ident :: Own(ident) in n'.chains <==>
          (e.Begins? && Ident(e.name) == ident)
          || (Own(ident) in n.chains && !(e.Ends? && e.id in n.shares && n.shares[e.id].ident == ident)))
    && (forall v :: Guard(v) in n'.chains <==>
          (e.SwitchOn? && e.veth == v) || (Guard(v) in n.chains && !(e.SwitchOff? && e.veth == v)))
  }

  /** Which shares and switches it opens and ends. */
  ghost predicate SharesMove(n: Net, e: Event, n': Net) {
    && (e.Begins? ==> e.id !in n.shares && Own(Ident(e.name)) !in n.chains)
    && (forall id :: id in n'.shares <==> (e.Begins? && e.id == id) || (id in n.shares && !(e.Ends? && e.id == id)))
    && (forall id :: id in n'.shares ==>
          n'.shares[id].ident == if e.Begins? && e.id == id then Ident(e.name) else n.shares[id].ident)
    && (e.Ends? ==> e.id in n.shares)
    && (forall v :: v in n'.switches <==> (e.SwitchOn? && e.veth == v) || (v in n.switches && !(e.SwitchOff? && e.veth == v)))
  }

  lemma TidyMovesTables(n: Net, e: Event)
    requires AimsInv(n) && Enabled(n, e) && Tidy(n, e)
    ensures TablesMove(n, e, Step(n, e))
  {
    assert e.Inserts? ==> n.shares[e.id].todo[0].key.Host?;
    assert e.Deletes? ==> n.shares[e.id].inserted[0].key.Host?;
  }

  lemma TidyMovesShares(n: Net, e: Event)
    requires Enabled(n, e) && Tidy(n, e)
    ensures SharesMove(n, e, Step(n, e))
  {
  }

  lemma MovesKeepTables(n: Net, e: Event, n': Net)
    requires TablesInv(n) && TablesMove(n, e, n') && SharesMove(n, e, n')
    ensures TablesInv(n')
  {
    forall ident | Own(ident) in n'.chains ensures HasIdent(n'.shares, ident) {
      if Own(ident) in n.chains {
        var id :| id in n.shares && n.shares[id].ident == ident;
        assert id in n'.shares && n'.shares[id].ident == ident;
      } else {
        assert e.id in n'.shares && n'.shares[e.id].ident == ident;
      }
    }
  }

  lemma TidyKeepsTables(n: Net, e: Event)
    requires TablesInv(n) && AimsInv(n) && Enabled(n, e) && Tidy(n, e)
    ensures TablesInv(Step(n, e))
  {
    TidyMovesTables(n, e);
    TidyMovesShares(n, e);
    MovesKeepTables(n, e, Step(n, e));
  }

  lemma TidyLeavesNothing(n: Net, e: Event)
    requires NothingLeft(n) && Enabled(n, e) && Tidy(n, e)
    ensures NothingLeft(Step(n, e))
  {
  }

  lemma {:induction false} TidyRunKeeps(n: Net, events: seq<Event>, n': Net, original: map<Key, Chain>, first: nat)
    requires HostInv(n, original, first) && TablesInv(n) && NothingLeft(n) && TidyRun(n, events, n')
    ensures HostInv(n', original, first) && TablesInv(n') && NothingLeft(n')
    decreases |events|
  {
    if events != [] {
      StepKeepsHost(n, events[0], original, first);
      TidyKeepsTables(n, events[0]);
      TidyLeavesNothing(n, events[0]);
      TidyRunKeeps(Step(n, events[0]), events[1..], n', original, first);
    }
  }

  /** When nothing goes wrong, the whole filter is restored once all shares and switches have
      ended, in whatever order they were opened and closed. */
  lemma TidyRunRestoresTheFilter(chains: map<Key, Chain>, first: nat, events: seq<Event>, n: Net)
    requires HostOnly(chains, first) && TidyRun(Start(chains, first), events, n)
    requires n.shares == map[] && n.switches == map[]
    ensures n.chains == chains
  {
    StartKeepsHost(chains, first);
    TidyRunKeeps(Start(chains, first), events, n, chains, first);
    OnlyHostsLeft(n);
    forall k | k in n.chains ensures k in chains && n.chains[k] == chains[k] {
      RulesAreHosts(n, chains, first, k);
    }
    assert n.chains.Keys == chains.Keys;
  }

  lemma OnlyHostsLeft(n: Net)
    requires TablesInv(n) && n.shares == map[] && n.switches == map[]
    ensures forall k :: k in n.chains ==> k.Host?
  {
    assert forall ident :: !HasIdent(n.shares, ident);
    forall k ensures k in n.chains ==> k.Host? {
      assert k.Own? ==> k == Own(k.ident);
      assert k.Guard? ==> k == Guard(k.veth);
    }
  }

  lemma RulesAreHosts(n: Net, original: map<Key, Chain>, first: nat, k: Key)
    requires HostInv(n, original, first) && NothingLeft(n) && n.shares == map[] && k.Host? && k in n.chains
    ensures n.chains[k] == original[k]
  {
    var rules := n.chains[k].rules;
    forall i | 0 <= i < |rules| ensures rules[i].HostRule? {
      assert RuleOk(rules, i, k, first, n.entries);
    }
    AllHost(rules);
  }

  /** A share deletes by handle what it inserted itself, and nothing else: neither a rule of the
      host nor one of another tunnel. */
  lemma DeletionHitsOnlyItsOwnRule(chains: map<Key, Chain>, first: nat, events: seq<Event>, n: Net, id: Id, i: nat)
    requires HostOnly(chains, first) && UndisturbedRun(Start(chains, first), events, n) && Enabled(n, Deletes(id, true))
    ensures var placed := n.shares[id].inserted[0];
      && placed.key in n.chains && Holds(n.chains[placed.key].rules, placed.handle)
      && placed.handle in n.entries && n.entries[placed.handle].share == Some(id)
      && (i < |n.chains[placed.key].rules| && HasHandle(n.chains[placed.key].rules[i], placed.handle) ==>
            n.chains[placed.key].rules[i] == Pass(placed.handle, placed.direction, n.shares[id].veth))
  {
    StartKeepsHost(chains, first);
    RunKeepsHost(Start(chains, first), events, n, chains, first);
    var placed := n.shares[id].inserted[0];
    assert PlacedOk(n.shares[id], id, 0, n.entries);
    if i < |n.chains[placed.key].rules| {
      assert RuleOk(n.chains[placed.key].rules, i, placed.key, first, n.entries);
    }
  }

  // ------------------------------------------------------------------ what a share opens, and what it leaves alone

  ghost predicate Harmlesses(chains: map<Key, Chain>) {
    forall ident :: Own(ident) in chains ==> chains[Own(ident)].policy.AcceptPolicy? && Harmless(chains[Own(ident)].rules)
  }

  lemma StepKeepsHarmless(n: Net, e: Event)
    requires Harmlesses(n.chains) && AimsInv(n) && Enabled(n, e)
    ensures Harmlesses(Step(n, e).chains)
  {
    assert e.Inserts? ==> n.shares[e.id].todo[0].key.Host?;
    assert e.Deletes? ==> n.shares[e.id].inserted[0].key.Host?;
  }

  lemma {:induction false} RunKeepsHarmless(n: Net, events: seq<Event>, n': Net)
    requires Harmlesses(n.chains) && AimsInv(n) && UndisturbedRun(n, events, n')
    ensures Harmlesses(n'.chains) && AimsInv(n')
    decreases |events|
  {
    if events != [] {
      StepKeepsAims(n, events[0]);
      StepKeepsHarmless(n, events[0]);
      RunKeepsHarmless(Step(n, events[0]), events[1..], n');
    }
  }

  /** The share that an event belongs to works for this veth. */
  predicate ActsFor(n: Net, e: Event, veth: string) {
    match e
    case Begins(_, _, v) => v == veth
    case Lists(id, _) => id in n.shares && n.shares[id].veth == veth
    case Inserts(id, _) => id in n.shares && n.shares[id].veth == veth
    case Yields(id) => id in n.shares && n.shares[id].veth == veth
    case Aborts(id) => id in n.shares && n.shares[id].veth == veth
    case Closes(id) => id in n.shares && n.shares[id].veth == veth
    case Deletes(id, _) => id in n.shares && n.shares[id].veth == veth
    case Ends(id, _) => id in n.shares && n.shares[id].veth == veth
    case _ => false
  }

  lemma InsertKeepsVerdict(env: Meaning, c: Chain, h: nat, d: Direction, veth: string, p: Packet)
    requires !Touches(p, veth)
    ensures ChainDrops(env, c.(rules := [Pass(h, d, veth)] + c.rules), p) <==> ChainDrops(env, c, p)
  {
    var rules := [Pass(h, d, veth)] + c.rules;
    assert rules[1..] == c.rules && EffectOf(env, rules[0], p) == Continues;
  }

  lemma DeleteKeepsChainVerdict(n: Net, id: Id, original: map<Key, Chain>, first: nat, env: Meaning, p: Packet)
    requires HostInv(n, original, first) && id in n.shares && n.shares[id].inserted != [] && !Touches(p, n.shares[id].veth)
    ensures var placed := n.shares[id].inserted[0];
      placed.key in n.chains
      && (DropsAt(env, n.chains, placed.key, p) <==> DropsAt(env, Delete(n.chains, placed.key, placed.handle), placed.key, p))
  {
    var placed := n.shares[id].inserted[0];
    assert PlacedOk(n.shares[id], id, 0, n.entries);
    OnlyOwnHandle(n, original, first, placed.key, placed.handle);
    RemoveKeepsVerdict(env, n.chains[placed.key].rules, n.chains[placed.key].policy, placed.handle, n.shares[id].veth, p);
  }

  /** A step of a share changes its own table, the chain of its next insertion, or that of its next deletion. */
  lemma ShareChanges(n: Net, e: Event, veth: string, k: Key)
    requires Enabled(n, e) && ActsFor(n, e, veth) && !k.Own?
    requires e.Inserts? ==> k != n.shares[e.id].todo[0].key
    requires e.Deletes? ==> k != n.shares[e.id].inserted[0].key
    ensures k in n.chains <==> k in Step(n, e).chains
    ensures k in n.chains ==> Step(n, e).chains[k] == n.chains[k]
  {
  }

  predicate DropsAt(env: Meaning, chains: map<Key, Chain>, k: Key, p: Packet) {
    k in chains && ChainDrops(env, chains[k], p)
  }

  /** One step of a share, chain by chain. */
  lemma StepKeepsChainVerdict(n: Net, e: Event, original: map<Key, Chain>, first: nat, veth: string,
          env: Meaning, p: Packet, k: Key)
    requires HostInv(n, original, first) && Harmlesses(n.chains)
    requires Enabled(n, e) && Harmlesses(Step(n, e).chains) && ActsFor(n, e, veth) && !Touches(p, veth)
    ensures DropsAt(env, n.chains, k, p) <==> DropsAt(env, Step(n, e).chains, k, p)
  {
    if k.Own? {
      if k in n.chains { HarmlessNeverDrops(env, n.chains[k].rules, p); }
      if k in Step(n, e).chains { HarmlessNeverDrops(env, Step(n, e).chains[k].rules, p); }
    } else if e.Inserts? && k == n.shares[e.id].todo[0].key {
      if k in n.chains {
        InsertKeepsVerdict(env, n.chains[k], n.next, n.shares[e.id].todo[0].direction, veth, p);
      }
    } else if e.Deletes? && k == n.shares[e.id].inserted[0].key {
      DeleteKeepsChainVerdict(n, e.id, original, first, env, p);
    } else {
      ShareChanges(n, e, veth, k);
    }
  }

  lemma OnlyOwnHandle(n: Net, original: map<Key, Chain>, first: nat, k: Key, h: nat)
    requires HostInv(n, original, first) && k in n.chains && k.Host? && h in n.entries
    ensures forall i :: 0 <= i < |n.chains[k].rules| && HasHandle(n.chains[k].rules[i], h) ==>
              n.chains[k].rules[i].Pass? && n.chains[k].rules[i].veth == n.entries[h].veth
  {
    forall i | 0 <= i < |n.chains[k].rules| && HasHandle(n.chains[k].rules[i], h)
      ensures n.chains[k].rules[i].Pass? && n.chains[k].rules[i].veth == n.entries[h].veth
    {
      assert RuleOk(n.chains[k].rules, i, k, first, n.entries);
    }
  }

  lemma SameDropsSameVerdict(env: Meaning, chains: map<Key, Chain>, chains': map<Key, Chain>, p: Packet)
    requires forall k :: DropsAt(env, chains, k, p) <==> DropsAt(env, chains', k, p)
    ensures Passes(env, chains, p) <==> Passes(env, chains', p)
  {
    if !Passes(env, chains, p) {
      var k :| k in chains && ChainDrops(env, chains[k], p);
      assert DropsAt(env, chains, k, p);
    }
    if !Passes(env, chains', p) {
      var k :| k in chains' && ChainDrops(env, chains'[k], p);
      assert DropsAt(env, chains', k, p);
    }
  }

  /** At every moment of a share, from its first command to its last, a packet that does not
      touch its veth gets the verdict it got before. */
  lemma ShareLeavesOthersAlone(chains: map<Key, Chain>, first: nat, events: seq<Event>, n: Net, e: Event,
          veth: string, env: Meaning, p: Packet)
    requires HostOnly(chains, first) && UndisturbedRun(Start(chains, first), events, n)
    requires Enabled(n, e) && ActsFor(n, e, veth) && !Touches(p, veth)
    ensures Passes(env, Step(n, e).chains, p) <==> Passes(env, n.chains, p)
  {
    StartKeepsHost(chains, first);
    RunKeepsHost(Start(chains, first), events, n, chains, first);
    RunKeepsHarmless(Start(chains, first), events, n);
    StepKeepsHarmless(n, e);
    forall k ensures DropsAt(env, n.chains, k, p) <==> DropsAt(env, Step(n, e).chains, k, p) {
      StepKeepsChainVerdict(n, e, chains, first, veth, env, p, k);
    }
    SameDropsSameVerdict(env, n.chains, Step(n, e).chains, p);
  }

  /** A rule that accepts the packet, among inserted rules that all precede the host's. */
  lemma {:induction false} PassOpens(env: Meaning, rules: seq<Rule>, k: Key, first: nat, entries: map<nat,
          Entry>, policy: Policy, i: nat, p: Packet)
    requires RulesOk(rules, k, first, entries) && i < |rules|
    requires rules[i].Pass? && Interface(p, rules[i].direction) == rules[i].veth
    ensures !RulesDrop(env, rules, policy, p)
  {
    assert RuleOk(rules, 0, k, first, entries);
    if i > 0 {
      assert rules[0].Pass?;
      TailRulesOk(rules, k, first, entries);
      PassOpens(env, rules[1..], k, first, entries, policy, i - 1, p);
    }
  }

  predicate Fills(placed: Placed, slot: Slot) {
    placed.key == slot.key && placed.direction == slot.direction
  }

  ghost predicate SlotKept(share: Share, slot: Slot) {
    || slot in share.todo || slot in share.missed
    || exists i :: 0 <= i < |share.inserted| && Fills(share.inserted[i], slot)
  }

  ghost predicate ListedInv(n: Net) {
    && (forall id :: id in n.shares && (n.shares[id].phase.Inserting? || n.shares[id].phase.Open?) ==>
          forall k, d :: k in n.shares[id].listed ==> SlotKept(n.shares[id], Slot(k, d)))
    && (forall id :: id in n.shares && n.shares[id].phase.Open? ==> n.shares[id].todo == [])
  }

  lemma {:induction false} SlotsCover(found: seq<Key>, k: Key, d: Direction)
    requires k in found
    ensures Slot(k, d) in Slots(found)
  {
    if k != found[0] {
      SlotsCover(found[1..], k, d);
    }
  }

  lemma InsertKeepsSlot(n: Net, id: Id, outcome: Outcome, slot: Slot)
    requires id in n.shares && n.shares[id].todo != [] && SlotKept(n.shares[id], slot)
    ensures SlotKept(InsertNext(n, id, outcome).shares[id], slot)
  {
    var share, share' := n.shares[id], InsertNext(n, id, outcome).shares[id];
    assert share.todo == [share.todo[0]] + share'.todo;
    assert forall i :: 0 <= i < |share.inserted| ==> share'.inserted[i] == share.inserted[i];
    if slot == share.todo[0] && slot !in share'.missed {
      assert Fills(share'.inserted[|share.inserted|], slot);
    }
  }

  lemma StepKeepsListed(n: Net, e: Event)
    requires ListedInv(n) && Enabled(n, e)
    ensures ListedInv(Step(n, e))
  {
    var n' := Step(n, e);
    forall id, k, d | id in n'.shares && (n'.shares[id].phase.Inserting? || n'.shares[id].phase.Open?) && k in n'.shares[id].listed
      ensures SlotKept(n'.shares[id], Slot(k, d))
    {
      if e.Inserts? && e.id == id {
        InsertKeepsSlot(n, id, e.outcome, Slot(k, d));
      } else if e.Lists? && e.id == id {
        SlotsCover(e.found, k, d);
      } else if id in n.shares && n.shares[id] == n'.shares[id] {
        assert SlotKept(n.shares[id], Slot(k, d));
      } else {
        assert e == Yields(id) && SlotKept(n.shares[id], Slot(k, d));
      }
    }
  }

  lemma {:induction false} RunKeepsListed(n: Net, events: seq<Event>, n': Net)
    requires ListedInv(n) && UndisturbedRun(n, events, n')
    ensures ListedInv(n')
    decreases |events|
  {
    if events != [] {
      StepKeepsListed(n, events[0]);
      RunKeepsListed(Step(n, events[0]), events[1..], n');
    }
  }

  /** An open share has opened every drop-policy chain it found, in each direction whose insertion
      was not missed, and keeps it open whatever other tunnels insert or delete. */
  lemma OpenShareIsNotDropped(chains: map<Key, Chain>, first: nat, events: seq<Event>, n: Net, id: Id, k: Key,
          env: Meaning, p: Packet)
    requires HostOnly(chains, first) && UndisturbedRun(Start(chains, first), events, n)
    requires InPhase(n, id, Open) && k in n.shares[id].listed
    requires || (p.iif == n.shares[id].veth && Slot(k, Inward) !in n.shares[id].missed)
             || (p.oif == n.shares[id].veth && Slot(k, Outward) !in n.shares[id].missed)
    ensures k in n.chains && !ChainDrops(env, n.chains[k], p)
  {
    StartKeepsHost(chains, first);
    RunKeepsHost(Start(chains, first), events, n, chains, first);
    RunKeepsListed(Start(chains, first), events, n);
    var share := n.shares[id];
    var d := if p.iif == share.veth && Slot(k, Inward) !in share.missed then Inward else Outward;
    assert SlotKept(share, Slot(k, d));
    var i :| 0 <= i < |share.inserted| && Fills(share.inserted[i], Slot(k, d));
    assert PlacedOk(share, id, i, n.entries);
    var rules := n.chains[k].rules;
    var j :| 0 <= j < |rules| && rules[j].Pass? && rules[j].handle == share.inserted[i].handle;
    assert RuleOk(rules, j, k, first, n.entries);
    PassOpens(env, rules, k, first, n.entries, n.chains[k].policy, j, p);
  }

  lemma {:induction false} AcceptPolicyPasses(env: Meaning, rules: seq<Rule>, p: Packet)
    requires forall i :: 0 <= i < |rules| ==> EffectOf(env, rules[i], p) != Drops
    ensures !RulesDrop(env, rules, AcceptPolicy, p)
  {
    if rules != [] {
      AcceptPolicyPasses(env, rules[1..], p);
    }
  }

  /** The chains that a share looks for are the right ones: a packet that no rule drops outright gets
      through if and only if each chain with hook forward and policy drop lets it through. */
  lemma OnlyListedChainsBlock(env: Meaning, chains: map<Key, Chain>, found: seq<Key>, p: Packet)
    requires DropChains(chains, found)
    requires forall k :: k in chains ==> forall i :: 0 <= i < |chains[k].rules| ==> EffectOf(env, chains[k].rules[i], p) != Drops
    ensures Passes(env, chains, p) <==> forall k :: k in found ==> !ChainDrops(env, chains[k], p)
  {
    forall k | k in chains && k !in found ensures !ChainDrops(env, chains[k], p) {
      if chains[k].policy.AcceptPolicy? {
        AcceptPolicyPasses(env, chains[k].rules, p);
      }
    }
  }
}

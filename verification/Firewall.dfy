/** The host's packet filter as a function on forwarded packets, and what `internet.py` and
    `kill_switch.py` do to it command by command. */
module Firewall {
  import opened Prelude

  // ------------------------------------------------------------------ packets, rules, chains

  type Address = nat

  datatype Packet = Packet(iif: string, oif: string, dst: Address, rest: nat)

  datatype Effect = Accepts | Drops | Continues

  datatype Direction = Inward | Outward

  /** Addresses from `first` on, `size` of them: one host, or a CIDR route. */
  datatype Dest = Dest(first: Address, size: nat)

  /** A host rule is an opaque number that an environment gives a meaning to. `Pass` is the rule
      that a share inserts, `Permit` and `Block` make up a kill switch, and `Wildcard` is in the
      table that every share installs. */
  datatype Rule =
    | HostRule(handle: nat, meaning: nat)
    | Pass(handle: nat, direction: Direction, veth: string)
    | Permit(veth: string, dest: Dest)
    | Block(veth: string)
    | Wildcard(direction: Direction, prefix: string)

  datatype Policy = AcceptPolicy | DropPolicy

  datatype Chain = Chain(forwardHook: bool, policy: Policy, rules: seq<Rule>)

  /** The base chains by family, table and name; the tables named `vpt_…` and `kill_switch_…`
      are kept apart from those of the host. */
  datatype Key = Host(family: string, table: string, name: string) | Own(ident: string) | Guard(veth: string)

  type Meaning = (nat, Packet) -> Effect

  function Interface(p: Packet, direction: Direction): string {
    if direction == Inward then p.iif else p.oif
  }

  predicate Touches(p: Packet, veth: string) {
    p.iif == veth || p.oif == veth
  }

  predicate To(p: Packet, dest: Dest) {
    dest.first <= p.dst < dest.first + dest.size
  }

  function EffectOf(env: Meaning, rule: Rule, p: Packet): Effect {
    match rule
    case HostRule(_, meaning) => env(meaning, p)
    case Pass(_, direction, veth) => if Interface(p, direction) == veth then Accepts else Continues
    case Permit(veth, dest) => if p.iif == veth && To(p, dest) then Accepts else Continues
    case Block(veth) => if p.iif == veth then Drops else Continues
    case Wildcard(direction, prefix) => if prefix <= Interface(p, direction) then Accepts else Continues
  }

  predicate RulesDrop(env: Meaning, rules: seq<Rule>, policy: Policy, p: Packet) {
    if rules == [] then policy.DropPolicy?
    else
      match EffectOf(env, rules[0], p)
      case Accepts => false
      case Drops => true
      case Continues => RulesDrop(env, rules[1..], policy, p)
  }

  predicate ChainDrops(env: Meaning, c: Chain, p: Packet) {
    c.forwardHook && RulesDrop(env, c.rules, c.policy, p)
  }

  /** The walk of a forwarded packet through the chains in the order of their priorities: `accept`
      ends its own chain only, `drop` is final. */
  predicate Traverse(env: Meaning, chains: map<Key, Chain>, order: seq<Key>, p: Packet) {
    if order == [] then true
    else if order[0] in chains && ChainDrops(env, chains[order[0]], p) then false
    else Traverse(env, chains, order[1..], p)
  }

  ghost predicate Passes(env: Meaning, chains: map<Key, Chain>, p: Packet) {
    forall k :: k in chains ==> !ChainDrops(env, chains[k], p)
  }

  /** So the priorities of the chains do not matter. */
  lemma {:induction false} OrderIrrelevant(env: Meaning, chains: map<Key, Chain>, order: seq<Key>, p: Packet)
    ensures Traverse(env, chains, order, p) <==> forall k :: k in order && k in chains ==> !ChainDrops(env, chains[k], p)
  {
    if order != [] {
      OrderIrrelevant(env, chains, order[1..], p);
      assert forall k :: k in order <==> k == order[0] || k in order[1..];
    }
  }

  lemma AnyCompleteOrderDecides(env: Meaning, chains: map<Key, Chain>, order: seq<Key>, p: Packet)
    requires forall k :: k in chains ==> k in order
    ensures Traverse(env, chains, order, p) <==> Passes(env, chains, p)
  {
    OrderIrrelevant(env, chains, order, p);
  }

  // ------------------------------------------------------------------ names

  predicate IdentChar(c: char) {
    'a' <= c <= 'z' || 'A' <= c <= 'Z' || '0' <= c <= '9' || c == '_' || c == '/' || c == '.'
  }

  function Clean(c: char): char {
    if IdentChar(c) then c else '_'
  }

  function Ident(name: string): (ident: string)
    ensures |ident| == |name|
    ensures forall i :: 0 <= i < |name| ==> ident[i] == Clean(name[i])
  {
    if name == [] then [] else [Clean(name[0])] + Ident(name[1..])
  }

  predicate NameChar(c: char) {
    'a' <= c <= 'z' || 'A' <= c <= 'Z' || '0' <= c <= '9' || c == '_' || c == '-'
  }

  /** What `Namespace` accepts as a tunnel name. */
  predicate ValidName(name: string) {
    1 <= |name| <= 64 && forall i :: 0 <= i < |name| ==> NameChar(name[i])
  }

  predicate DashForUnderscore(a: char, b: char) {
    (a == '-' && b == '_') || (a == '_' && b == '-')
  }

  predicate DifferInDashes(a: string, b: string) {
    |a| == |b| && forall i :: 0 <= i < |a| ==> a[i] == b[i] || DashForUnderscore(a[i], b[i])
  }

  lemma CharsCollide(a: char, b: char)
    requires NameChar(a) && NameChar(b)
    ensures Clean(a) == Clean(b) <==> a == b || DashForUnderscore(a, b)
    ensures Clean(a) == if a == '-' then '_' else a
  {
  }

  /** Two valid tunnel names share their nftables table exactly when they differ at most in
      dashes where the other has underscores. */
  lemma IdentsCollideIffDashed(a: string, b: string)
    requires ValidName(a) && ValidName(b)
    ensures Ident(a) == Ident(b) <==> DifferInDashes(a, b)
    ensures |Ident(a)| == |a| && forall i :: 0 <= i < |a| ==> Ident(a)[i] == if a[i] == '-' then '_' else a[i]
  {
    forall i | 0 <= i < |a| ensures Ident(a)[i] == if a[i] == '-' then '_' else a[i] {
      CharsCollide(a[i], a[i]);
    }
    if Ident(a) == Ident(b) {
      assert |a| == |b|;
      forall i | 0 <= i < |a| ensures a[i] == b[i] || DashForUnderscore(a[i], b[i]) {
        CharsCollide(a[i], b[i]);
        assert Ident(a)[i] == Ident(b)[i];
      }
    }
    if DifferInDashes(a, b) {
      forall i | 0 <= i < |a| ensures Ident(a)[i] == Ident(b)[i] {
        CharsCollide(a[i], b[i]);
      }
      assert Ident(a) == Ident(b);
    }
  }

  // ------------------------------------------------------------------ commands

  function Remove(rules: seq<Rule>, handle: nat): seq<Rule> {
    if rules == [] then []
    else if HasHandle(rules[0], handle) then Remove(rules[1..], handle)
    else [rules[0]] + Remove(rules[1..], handle)
  }

  predicate HasHandle(rule: Rule, handle: nat) {
    (rule.HostRule? || rule.Pass?) && rule.handle == handle
  }

  function OwnChain(): Chain {
    Chain(true, AcceptPolicy, [Wildcard(Inward, "vpt"), Wildcard(Outward, "vpt")])
  }

  function Permits(veth: string, dests: seq<Dest>): seq<Rule> {
    if dests == [] then [] else [Permit(veth, dests[0])] + Permits(veth, dests[1..])
  }

  function GuardRules(veth: string, server: Address, routes: seq<Dest>): seq<Rule> {
    [Permit(veth, Dest(server, 1))] + Permits(veth, routes) + [Block(veth)]
  }

  /** `nft -f`: a table that exists is added to. */
  function Install(chains: map<Key, Chain>, key: Key, c: Chain): map<Key, Chain> {
    chains[key := if key in chains then chains[key].(rules := chains[key].rules + c.rules) else c]
  }

  /** `nft insert rule`, at the head of the chain. */
  function Insert(chains: map<Key, Chain>, key: Key, rule: Rule): map<Key, Chain>
    requires key in chains
  {
    chains[key := chains[key].(rules := [rule] + chains[key].rules)]
  }

  function Delete(chains: map<Key, Chain>, key: Key, handle: nat): map<Key, Chain> {
    if key in chains then chains[key := chains[key].(rules := Remove(chains[key].rules, handle))] else chains
  }

  // ------------------------------------------------------------------ what a chain drops

  predicate Permitted(p: Packet, dests: seq<Dest>) {
    exists i :: 0 <= i < |dests| && To(p, dests[i])
  }

  lemma {:induction false} PermitsDrop(env: Meaning, veth: string, dests: seq<Dest>, more: seq<Rule>, p: Packet)
    ensures RulesDrop(env, Permits(veth, dests) + [Block(veth)] + more, AcceptPolicy, p) <==>
              if p.iif == veth then !Permitted(p, dests) else RulesDrop(env, more, AcceptPolicy, p)
  {
    var rules := Permits(veth, dests) + [Block(veth)] + more;
    if dests == [] {
      assert rules[0] == Block(veth) && rules[1..] == more;
    } else {
      PermitsDrop(env, veth, dests[1..], more, p);
      assert rules[0] == Permit(veth, dests[0]) && rules[1..] == Permits(veth, dests[1..]) + [Block(veth)] + more;
      assert Permitted(p, dests) <==> To(p, dests[0]) || Permitted(p, dests[1..]) by {
        if Permitted(p, dests[1..]) {
          var i :| 0 <= i < |dests[1..]| && To(p, dests[1..][i]);
          assert To(p, dests[i + 1]);
        }
        if Permitted(p, dests) && !To(p, dests[0]) {
          var i :| 0 <= i < |dests| && To(p, dests[i]);
          assert To(p, dests[1..][i - 1]);
        }
      }
    }
  }

  /** The kill switch's chain drops a packet exactly when it enters from the veth and goes neither
      to the server nor to an extra route, and rules appended to it change nothing for that veth. */
  lemma GuardDropsExactly(env: Meaning, veth: string, server: Address, routes: seq<Dest>, more: seq<Rule>, p: Packet)
    ensures RulesDrop(env, GuardRules(veth, server, routes) + more, AcceptPolicy, p) <==>
              if p.iif == veth then p.dst != server && !Permitted(p, routes) else RulesDrop(env, more, AcceptPolicy, p)
  {
    var dests := [Dest(server, 1)] + routes;
    assert dests[1..] == routes;
    assert GuardRules(veth, server, routes) + more == Permits(veth, dests) + [Block(veth)] + more;
    PermitsDrop(env, veth, dests, more, p);
    assert Permitted(p, dests) <==> To(p, Dest(server, 1)) || Permitted(p, routes) by {
      if Permitted(p, routes) {
        var i :| 0 <= i < |routes| && To(p, routes[i]);
        assert To(p, dests[i + 1]);
      }
      if To(p, Dest(server, 1)) {
        assert To(p, dests[0]);
      }
      if Permitted(p, dests) && !To(p, Dest(server, 1)) {
        var i :| 0 <= i < |dests| && To(p, dests[i]);
        assert To(p, routes[i - 1]);
      }
    }
  }

  /** The table of a share never drops anything, however often it has been installed. */
  predicate Harmless(rules: seq<Rule>) {
    forall i :: 0 <= i < |rules| ==> rules[i].Wildcard?
  }

  lemma {:induction false} HarmlessNeverDrops(env: Meaning, rules: seq<Rule>, p: Packet)
    requires Harmless(rules)
    ensures !RulesDrop(env, rules, AcceptPolicy, p)
  {
    if rules != [] {
      HarmlessNeverDrops(env, rules[1..], p);
    }
  }

  /** A packet that does not touch the veth meets a chain the same with and without its rules. */
  lemma {:induction false} RemoveKeepsVerdict(env: Meaning, rules: seq<Rule>, policy: Policy, handle: nat,
          veth: string, p: Packet)
    requires forall i :: 0 <= i < |rules| && HasHandle(rules[i], handle) ==> rules[i].Pass? && rules[i].veth == veth
    requires !Touches(p, veth)
    ensures RulesDrop(env, Remove(rules, handle), policy, p) <==> RulesDrop(env, rules, policy, p)
  {
    if rules != [] {
      RemoveKeepsVerdict(env, rules[1..], policy, handle, veth, p);
      if HasHandle(rules[0], handle) {
        assert EffectOf(env, rules[0], p) == Continues;
      } else {
        var left := [rules[0]] + Remove(rules[1..], handle);
        assert left[0] == rules[0] && left[1..] == Remove(rules[1..], handle);
      }
    }
  }
}

/** Addresses and interface names of a tunnel (`network_interfaces.py`): CIDR arithmetic over all
    prefixes, and the slot-based names and networks. */
module Addresses {
  import opened Prelude
  import Tunnels

  const ADDRESSES: nat := 0x1_0000_0000

  type Address = a: nat | a < ADDRESSES
  type Prefix = p: nat | p <= 32

  function Pow2(n: nat): (r: nat)
    ensures r >= 1
  {
    if n == 0 then 1 else 2 * Pow2(n - 1)
  }

  /** How many addresses a prefix leaves (section 3.1 of RFC 4632). */
  function Size(prefix: Prefix): nat {
    Pow2(32 - prefix)
  }

  lemma ModAtMost(a: nat, m: nat)
    requires m >= 1
    ensures 0 <= a % m < m && a % m <= a
  {
    assert a == m * (a / m) + a % m;
    MulAtLeast(a / m, 0, m);
  }

  lemma MulAtLeast(a: nat, b: nat, m: nat)
    requires a >= b && m >= 1
    ensures m * a >= m * b
  {
  }

  /** The network an address lies in: its host bits cleared. */
  function Canonical(address: Address, prefix: Prefix): (network: Address)
    ensures network <= address < network + Size(prefix)
  {
    ModAtMost(address, Size(prefix));
    address - address % Size(prefix)
  }

  predicate Inside(address: Address, network: Address, prefix: Prefix) {
    network <= address < network + Size(prefix)
  }

  /** `IPv4Network.hosts()`: without the network and broadcast addresses, except that a /31 has
      two hosts (section 2.1 of RFC 3021) and a /32 has one. */
  function HostCount(prefix: Prefix): nat {
    if prefix >= 31 then Size(prefix) else if Size(prefix) >= 2 then Size(prefix) - 2 else 0
  }

  function HostAt(network: Address, prefix: Prefix, i: nat): nat
    requires i < HostCount(prefix)
  {
    if prefix >= 31 then network + i else network + 1 + i
  }

  datatype Pair = Pair(veth: Address, vpeer: Address)

  /** `hosts[1]` and `hosts[0]` of the network given; `None` is the `IndexError`. */
  function Choose(cidr: Address, prefix: Prefix): Option<Pair>
  {
    var network := Canonical(cidr, prefix);
    if HostCount(prefix) < 2 then None
    else
      NetworkFits(cidr, prefix);
      SmallPrefixHasFour(prefix);
      Some(Pair(HostAt(network, prefix, 1), HostAt(network, prefix, 0)))
  }

  lemma {:induction false} PowMonotone(m: nat, n: nat)
    requires m <= n
    ensures Pow2(m) <= Pow2(n)
    ensures Pow2(n) % Pow2(m) == 0
    decreases n - m
  {
    if m < n {
      PowMonotone(m, n - 1);
      DoubleMultiple(Pow2(n - 1), Pow2(m));
    } else {
      assert Pow2(n) % Pow2(m) == 0;
    }
  }

  lemma DoubleMultiple(a: nat, m: nat)
    requires m >= 1 && a % m == 0
    ensures 2 * a % m == 0
  {
    var q := a / m;
    assert a == m * q;
    MultipleMod(2 * q, m, 0);
    assert 2 * a == (2 * q) * m by { assert (2 * q) * m == 2 * (m * q); }
  }

  /** `q * m + r` leaves `r` when divided by `m`. */
  lemma {:induction false} MultipleMod(q: nat, m: nat, r: nat)
    requires m >= 1 && r < m
    ensures (q * m + r) % m == r && (q * m + r) / m == q
  {
    var x := q * m + r;
    assert x == m * (x / m) + x % m;
    if x / m > q {
      MulAtLeast(x / m, q + 1, m);
    } else if x / m < q {
      MulAtLeast(q, x / m + 1, m);
    }
  }

  lemma WholeSpace()
    ensures Pow2(32) == ADDRESSES
  {
    assert Pow2(8) == 256;
    assert Pow2(16) == 65536 by { assert Pow2(12) == 4096; }
    assert Pow2(24) == 16777216 by { assert Pow2(20) == 1048576; }
    assert Pow2(28) == 268435456;
  }

  lemma SmallPrefixHasFour(prefix: Prefix)
    ensures prefix <= 30 ==> Size(prefix) >= 4
    ensures prefix == 31 ==> Size(prefix) == 2
    ensures prefix == 32 ==> Size(prefix) == 1
  {
    assert Pow2(2) == 4;
    if prefix <= 30 {
      PowMonotone(2, 32 - prefix);
    }
  }

  /** A network ends within the address space. */
  lemma NetworkFits(address: Address, prefix: Prefix)
    ensures Canonical(address, prefix) + Size(prefix) <= ADDRESSES
  {
    WholeSpace();
    PowMonotone(32 - prefix, 32);
    NextMultipleFits(address, Size(prefix), ADDRESSES);
  }

  lemma NextMultipleFits(a: nat, m: nat, n: nat)
    requires m >= 1 && a < n && n % m == 0
    ensures a - a % m + m <= n
  {
    var q, k := a / m, n / m;
    assert a == m * q + a % m && n == m * k;
    if q >= k {
      MulAtLeast(q, k, m);
    } else {
      MulAtLeast(k, q + 1, m);
      assert m * (q + 1) == m * q + m;
    }
  }

  /** Every address of a network has that network as its canonical one. */
  lemma InsideIsCanonical(address: Address, cidr: Address, prefix: Prefix)
    ensures Inside(address, Canonical(cidr, prefix), prefix) <==> Canonical(address, prefix) == Canonical(cidr, prefix)
  {
    var m := Size(prefix);
    var q := cidr / m;
    assert cidr == m * q + cidr % m;
    var network := Canonical(cidr, prefix);
    assert network == q * m;
    if Inside(address, network, prefix) {
      MultipleMod(q, m, address - network);
    }
    if Canonical(address, prefix) == network {
      assert address == network + address % m;
    }
  }

  /** An address that a host of the network may have: up to /30, neither its first nor its last. */
  predicate HostAddress(a: Address, network: Address, prefix: Prefix) {
    Inside(a, network, prefix) && (prefix <= 30 ==> network < a < network + Size(prefix) - 1)
  }

  /** For every CIDR with prefix 0 to 31, host bits set or not: the peer gets the least host address
      of that very network and the veth the least one above it; and `subnet`, recomputed from the
      veth address, is the network. A /32 has no second host. */
  lemma ChosenAddressesFit(cidr: Address, prefix: Prefix)
    ensures Choose(cidr, prefix).None? <==> prefix == 32
    ensures prefix < 32 ==>
              var pair := Choose(cidr, prefix).value;
              var network := Canonical(cidr, prefix);
              && HostAddress(pair.vpeer, network, prefix) && HostAddress(pair.veth, network, prefix) && pair.vpeer < pair.veth
              && (forall a: Address :: HostAddress(a, network, prefix) ==> a == pair.vpeer || a >= pair.veth)
              && (forall a: Address :: HostAddress(a, network, prefix) ==> a >= pair.vpeer)
              && Canonical(pair.veth, prefix) == network && Canonical(pair.vpeer, prefix) == network
  {
    SmallPrefixHasFour(prefix);
    if prefix < 32 {
      NetworkFits(cidr, prefix);
      var pair := Choose(cidr, prefix).value;
      InsideIsCanonical(pair.veth, cidr, prefix);
      InsideIsCanonical(pair.vpeer, cidr, prefix);
    }
  }

  // ------------------------------------------------------------------ slots

  function Decimal(n: nat): (text: string)
    ensures text != [] && AllDigits(text)
    ensures n > 0 ==> text[0] != '0'
  {
    var digit := [('0' as int + n % 10) as char];
    if n < 10 then digit else Decimal(n / 10) + digit
  }

  predicate AllDigits(text: string) {
    forall i :: 0 <= i < |text| ==> '0' <= text[i] <= '9'
  }

  function Value(text: string): nat
    requires AllDigits(text)
  {
    if text == [] then 0 else 10 * Value(text[..|text| - 1]) + (text[|text| - 1] as int - '0' as int)
  }

  lemma {:induction false} ValueOfDecimal(n: nat)
    ensures Value(Decimal(n)) == n
  {
    var text := Decimal(n);
    if n >= 10 {
      ValueOfDecimal(n / 10);
      assert text[..|text| - 1] == Decimal(n / 10);
    } else {
      assert text[..|text| - 1] == [];
    }
  }

  function VethName(slot: nat): string {
    "vpt" + Decimal(slot) + "v"
  }

  function VpeerName(slot: nat): string {
    "vpt" + Decimal(slot) + "p"
  }

  const HASHED_BASE: nat := 10 * 0x100_0000 + 200 * 0x1_0000

  /** `10.200.slot.0`, and the addresses on the two ends. */
  function SlotNetwork(slot: nat): Address
    requires slot <= 255
  {
    HASHED_BASE + 256 * slot
  }

  function SlotPair(slot: nat): Pair
    requires slot <= 255
  {
    Pair(SlotNetwork(slot) + 2, SlotNetwork(slot) + 1)
  }

  /** The number that an interface name spells between its first three letters and its last. */
  function SlotOf(name: string): Option<nat> {
    if |name| >= 4 && AllDigits(name[3..|name| - 1]) then Some(Value(name[3..|name| - 1])) else None
  }

  lemma NamesSpellSlot(slot: nat)
    ensures SlotOf(VethName(slot)) == Some(slot) && SlotOf(VpeerName(slot)) == Some(slot)
  {
    ValueOfDecimal(slot);
    assert VethName(slot)[3..|VethName(slot)| - 1] == Decimal(slot);
    assert VpeerName(slot)[3..|VpeerName(slot)| - 1] == Decimal(slot);
  }

  lemma NamesKeepSlot(a: nat, b: nat)
    ensures VethName(a) == VethName(b) ==> a == b
    ensures VpeerName(a) == VpeerName(b) ==> a == b
    ensures VethName(a) != VpeerName(b)
  {
    NamesSpellSlot(a);
    NamesSpellSlot(b);
    assert VethName(a)[|VethName(a)| - 1] == 'v' && VpeerName(b)[|VpeerName(b)| - 1] == 'p';
  }

  lemma ShortDecimal(n: nat)
    requires n <= 254
    ensures |Decimal(n)| <= 3
  {
    assert n / 10 / 10 < 10;
    assert |Decimal(n / 10 / 10)| == 1;
  }

  /** The four numbers of an address in dotted notation. */
  function Octets(a: Address): seq<nat> {
    [a / 0x100_0000, a / 0x1_0000 % 256, a / 256 % 256, a % 256]
  }

  /** The hashed path takes 10.200.slot.2 and 10.200.slot.1, which is what it would have taken of
      the network 10.200.slot.0/24; and the slot counts the digest round and round from 1 to 254. */
  lemma HashedPathIsThatOfItsNetwork(name: Tunnels.TunnelName)
    ensures var slot := Tunnels.Slot(name);
      && 1 <= slot <= 254 && (name.digest + 1 - slot) % 254 == 0
      && Octets(SlotPair(slot).veth) == [10, 200, slot, 2] && Octets(SlotPair(slot).vpeer) == [10, 200, slot, 1]
      && Octets(SlotNetwork(slot)) == [10, 200, slot, 0]
      && Choose(SlotNetwork(slot), 24) == Some(SlotPair(slot))
  {
    var slot := Tunnels.Slot(name);
    assert Size(24) == 256 by { assert Pow2(4) == 16; }
    assert SlotNetwork(slot) == 256 * (10 * 0x1_0000 + 200 * 256 + slot);
    assert Canonical(SlotNetwork(slot), 24) == SlotNetwork(slot);
  }

  /** On the hashed path, for any names: slots in 1..254, interface names within the kernel's 15
      characters that are equal only for equal slots and match the `vpt*` of every share, and
      for different slots networks without a common address. */
  lemma SlotsAreDisjoint(a: Tunnels.TunnelName, b: Tunnels.TunnelName, address: Address)
    ensures var s, t := Tunnels.Slot(a), Tunnels.Slot(b);
      && 1 <= s <= 254 && |VethName(s)| <= 15 && |VpeerName(s)| <= 15
      && "vpt" <= VethName(s) && VethName(s)[|VethName(s)| - 1] == 'v' && SlotOf(VethName(s)) == Some(s)
      && "vpt" <= VpeerName(s) && VpeerName(s)[|VpeerName(s)| - 1] == 'p' && SlotOf(VpeerName(s)) == Some(s)
      && (VethName(s) == VethName(t) <==> s == t) && (VpeerName(s) == VpeerName(t) <==> s == t)
      && VethName(s) != VpeerName(t)
      && (s != t ==> !(Inside(address, SlotNetwork(s), 24) && Inside(address, SlotNetwork(t), 24)))
      && SlotPair(s).veth != SlotPair(s).vpeer
      && Canonical(SlotPair(s).veth, 24) == SlotNetwork(s) == Canonical(SlotPair(s).vpeer, 24)
  {
    var s, t := Tunnels.Slot(a), Tunnels.Slot(b);
    NamesKeepSlot(s, t);
    NamesSpellSlot(s);
    ShortDecimal(s);
    assert Size(24) == 256 by { assert Pow2(4) == 16; }
  }

  // ------------------------------------------------------------------ the link

  predicate AllOk(steps: seq<bool>) {
    forall i :: 0 <= i < |steps| ==> steps[i]
  }

  class Links {
    var links: set<string>

    /** `ip link add` refuses a name that exists; once it has succeeded, any later failure (one
        flag per command, routes last) deletes the link again. So a failed call leaves the links
        as they were: it never deletes one that it did not create. */
    method Add(slot: nat, steps: seq<bool>, routes: seq<bool>) returns (ok: bool)
      modifies this
      ensures ok <==> VethName(slot) !in old(links) && AllOk(steps) && AllOk(routes)
      ensures links == if ok then old(links) + {VethName(slot)} else old(links)
    {
      var veth := VethName(slot);
      if veth in links {
        return false;
      }
      links := links + {veth};
      ok := true;
      var i := 0;
      while ok && i < |steps|
        invariant 0 <= i <= |steps| && (ok ==> AllOk(steps[..i])) && (!ok ==> !AllOk(steps))
        invariant links == old(links) + {veth}
        decreases |steps| - i
      {
        ok := steps[i];
        i := i + 1;
      }
      var k := 0;
      while ok && k < |routes|
        invariant 0 <= k <= |routes| && (ok ==> AllOk(steps) && AllOk(routes[..k])) && (!ok ==> !AllOk(steps) || !AllOk(routes))
        invariant links == old(links) + {veth}
        decreases |routes| - k
      {
        ok := routes[k];
        k := k + 1;
      }
      if !ok {
        links := links - {veth};
      }
    }
  }
}

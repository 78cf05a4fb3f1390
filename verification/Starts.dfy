/** The handlers of `handle_start_tunnel`, each waiting for the destroy of its tunnel: whom a destroy
    lets go, and what a handler leaves in the two tables that it enters itself in. */
module Starts {
  import opened Prelude
  import Tunnels

  type Id = nat
  type Name = Tunnels.TunnelName

  /** `rebind`: the handler has a rebind task; `stopped`: the future it waits for is done. */
  datatype Handler = Handler(name: Name, rebind: bool, stopped: bool)

  /** `stops` and `emits` map a name to the handler whose future or emit function is filed there;
      `raised` is history: the handlers that ended in the exception of their rebind task. */
  datatype Desk = Desk(handlers: map<Id, Handler>, stops: map<Name, Id>, emits: map<Name, Id>, raised: set<Id>, next: Id)

  const NOBODY: Desk := Desk(map[], map[], map[], {}, 0)

  /** `Releases` is the segment of a destroy that sets the future filed under its name; `Ends`
      is the end of the `finally`, which raises before it has cleared the tables when the rebind
      task has died of an exception. */
  datatype Event =
    | Enters(name: Name, rebind: bool)
    | Releases(name: Name)
    | Ends(handler: Id, raises: bool)

  predicate Enabled(d: Desk, e: Event) {
    e.Ends? ==> e.handler in d.handlers && (e.raises ==> d.handlers[e.handler].rebind)
  }

  function Enter(d: Desk, name: Name, rebind: bool): Desk {
    d.(handlers := d.handlers[d.next := Handler(name, rebind, false)],
       stops := d.stops[name := d.next], emits := d.emits[name := d.next], next := d.next + 1)
  }

  function Release(d: Desk, name: Name): Desk {
    if name in d.stops && d.stops[name] in d.handlers then
      d.(handlers := d.handlers[d.stops[name] := d.handlers[d.stops[name]].(stopped := true)])
    else d
  }

  function End(d: Desk, h: Id, raises: bool): Desk
    requires h in d.handlers
  {
    var name := d.handlers[h].name;
    if raises then d.(handlers := d.handlers - {h}, raised := d.raised + {h})
    else d.(handlers := d.handlers - {h}, stops := d.stops - {name}, emits := d.emits - {name})
  }

  function Step(d: Desk, e: Event): Desk
    requires Enabled(d, e)
  {
    match e
    case Enters(name, rebind) => Enter(d, name, rebind)
    case Releases(name) => Release(d, name)
    case Ends(h, raises) => End(d, h, raises)
  }

  ghost predicate Run(d: Desk, events: seq<Event>, d': Desk)
    decreases |events|
  {
    if events == [] then d == d'
    else Enabled(d, events[0]) && Run(Step(d, events[0]), events[1..], d')
  }

  // ------------------------------------------------------------------ what is left in the tables

  predicate EntryOk(d: Desk, name: Name)
    requires name in d.stops
  {
    var h := d.stops[name];
    (h in d.handlers && d.handlers[h].name == name) || h in d.raised
  }

  ghost predicate DeskInv(d: Desk) {
    && d.stops == d.emits
    && (forall name :: name in d.stops ==> EntryOk(d, name))
    && (forall h :: h in d.handlers ==> h < d.next && h !in d.raised)
    && (forall h :: h in d.raised ==> h < d.next)
  }

  lemma {:induction false} RunKeepsDesk(d: Desk, events: seq<Event>, d': Desk)
    requires DeskInv(d) && Run(d, events, d')
    ensures DeskInv(d')
    decreases |events|
  {
    if events != [] {
      forall name | name in Step(d, events[0]).stops ensures EntryOk(Step(d, events[0]), name) {
        assert name in d.stops ==> EntryOk(d, name);
      }
      RunKeepsDesk(Step(d, events[0]), events[1..], d');
    }
  }

  /** Over every run the two tables agree, and an entry has outlived its handler exactly when that
      handler ended in the exception of its rebind task; otherwise the handler is still waiting, for
      the tunnel of that name. */
  lemma EntryOutlivesHandlerIffItRaised(events: seq<Event>, d: Desk, name: Name)
    requires Run(NOBODY, events, d)
    ensures d.stops == d.emits
    ensures name in d.stops ==>
              && (d.stops[name] !in d.handlers <==> d.stops[name] in d.raised)
              && (d.stops[name] in d.handlers ==> d.handlers[d.stops[name]].name == name)
  {
    RunKeepsDesk(NOBODY, events, d);
  }

  // ------------------------------------------------------------------ whom a destroy lets go

  /** The step takes the entry of `name` from whoever has it. */
  predicate Displaces(d: Desk, e: Event, name: Name)
    requires Enabled(d, e)
  {
    match e
    case Enters(n, _) => n == name
    case Releases(_) => false
    case Ends(h, raises) => !raises && d.handlers[h].name == name
  }

  ghost predicate EverDisplaced(d: Desk, events: seq<Event>, name: Name)
    decreases |events|
  {
    events != [] && Enabled(d, events[0]) && (Displaces(d, events[0], name) || EverDisplaced(Step(d, events[0]), events[1..], name))
  }

  ghost predicate NotIn(d: Desk, name: Name, h: Id) {
    h < d.next && (name in d.stops ==> d.stops[name] != h)
  }

  lemma {:induction false} LostForGood(d: Desk, events: seq<Event>, d': Desk, name: Name, h: Id)
    requires Run(d, events, d') && NotIn(d, name, h)
    ensures NotIn(d', name, h)
    decreases |events|
  {
    if events != [] {
      LostForGood(Step(d, events[0]), events[1..], d', name, h);
    }
  }

  lemma {:induction false} KeptUnlessDisplaced(d: Desk, events: seq<Event>, d': Desk, name: Name, h: Id)
    requires Run(d, events, d') && name in d.stops && d.stops[name] == h && h < d.next
    ensures name in d'.stops && d'.stops[name] == h <==> !EverDisplaced(d, events, name)
    decreases |events|
  {
    if events != [] {
      if Displaces(d, events[0], name) {
        LostForGood(Step(d, events[0]), events[1..], d', name, h);
      } else {
        KeptUnlessDisplaced(Step(d, events[0]), events[1..], d', name, h);
      }
    }
  }

  /** A handler that still waits, whatever has happened since it entered: a destroy of its tunnel
      lets it go if and only if meanwhile no other handler has entered under that name, and none of
      that name has ended without raising. If one has, nothing but a cancellation ends the wait. */
  lemma DestroyReleasesIffNotDisplaced(before: seq<Event>, d: Desk, name: Name, rebind: bool, later: seq<Event>, d': Desk)
    requires Run(NOBODY, before, d) && Run(Enter(d, name, rebind), later, d')
    requires d.next in d'.handlers && !d'.handlers[d.next].stopped
    ensures d.next in Release(d', name).handlers
    ensures Release(d', name).handlers[d.next].stopped <==> !EverDisplaced(Enter(d, name, rebind), later, name)
  {
    KeptUnlessDisplaced(Enter(d, name, rebind), later, d', name, d.next);
  }

  /** What a dead rebind task leaves behind: nobody waits, and both entries stay. */
  lemma RaisingLeavesEntries(name: Name) returns (events: seq<Event>, d: Desk)
    ensures Run(NOBODY, events, d) && events == [Enters(name, true), Releases(name), Ends(0, true)]
    ensures d.handlers == map[] && name in d.stops && name in d.emits
  {
    var d1 := Step(NOBODY, Enters(name, true));
    var d2 := Step(d1, Releases(name));
    d := Step(d2, Ends(0, true));
    events := [Enters(name, true), Releases(name), Ends(0, true)];
    assert Run(d2, [Ends(0, true)], d);
    assert Run(d1, [Releases(name), Ends(0, true)], d);
  }

  /** And a handler that takes its time to end, while the next tunnel of its name is started,
      takes the entries of that one: its destroy then leaves the second handler waiting. */
  lemma FormerHandlerTakesEntry(name: Name) returns (events: seq<Event>, d: Desk)
    ensures Run(NOBODY, events, d)
    ensures events == [Enters(name, true), Releases(name), Enters(name, true), Ends(0, false), Releases(name)]
    ensures d.handlers == map[1 := Handler(name, true, false)] && d.stops == map[]
  {
    var d1 := Step(NOBODY, Enters(name, true));
    var d2 := Step(d1, Releases(name));
    var d3 := Step(d2, Enters(name, true));
    var d4 := Step(d3, Ends(0, false));
    d := Step(d4, Releases(name));
    events := [Enters(name, true), Releases(name), Enters(name, true), Ends(0, false), Releases(name)];
    assert Run(d4, [Releases(name)], d);
    assert Run(d3, [Ends(0, false), Releases(name)], d);
    assert Run(d2, [Enters(name, true), Ends(0, false), Releases(name)], d);
    assert Run(d1, [Releases(name), Enters(name, true), Ends(0, false), Releases(name)], d);
  }
}

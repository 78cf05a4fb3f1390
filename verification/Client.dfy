/** The client's pending table and its event index (`client.py`): the index is a fast form of
    a scan over the pending requests. */
module Client {
  import opened Prelude
  import opened Protocol

  type Routing = map<Class, seq<Id>>

  /** `pending` is the insertion-ordered dictionary of unanswered requests. */
  datatype Table = Table(pending: seq<Request>, routing: Routing)

  const EMPTY: Table := Table([], map[])

  // ------------------------------------------------------------------ the operations

  function Lookup(routing: Routing, c: Class): seq<Id> {
    if c in routing then routing[c] else []
  }

  function Has(pending: seq<Request>, id: Id): bool {
    exists r :: r in pending && r.id == id
  }

  function Drop(pending: seq<Request>, id: Id): seq<Request> {
    if pending == [] then []
    else if pending[0].id == id then Drop(pending[1..], id)
    else [pending[0]] + Drop(pending[1..], id)
  }

  /** Dictionary assignment: an existing key keeps its place. */
  function Put(pending: seq<Request>, r: Request): seq<Request> {
    if pending == [] then [r]
    else if pending[0].id == r.id then [r] + pending[1..]
    else [pending[0]] + Put(pending[1..], r)
  }

  function Without(ids: seq<Id>, id: Id): seq<Id> {
    if ids == [] then []
    else if ids[0] == id then Without(ids[1..], id)
    else [ids[0]] + Without(ids[1..], id)
  }

  function AddAll(routing: Routing, classes: seq<Class>, id: Id): Routing
    decreases classes
  {
    if classes == [] then routing
    else AddAll(routing[classes[0] := Lookup(routing, classes[0]) + [id]], classes[1..], id)
  }

  function RemoveOne(routing: Routing, c: Class, id: Id): Routing {
    if c !in routing then routing
    else
      var left := Without(routing[c], id);
      if left == [] then routing - {c} else routing[c := left]
  }

  function RemoveAll(routing: Routing, classes: seq<Class>, id: Id): Routing
    decreases classes
  {
    if classes == [] then routing else RemoveAll(RemoveOne(routing, classes[0], id), classes[1..], id)
  }

  /** The requests an event of class `c` is handed to: through the index, then the table. */
  function Receivers(t: Table, c: Class): seq<Id> {
    Keep(Lookup(t.routing, c), t.pending)
  }

  /** Callbacks are made in that order; the first that raises, the `raising`-th, ends the loop. */
  function Called(receivers: seq<Id>, raising: Option<nat>): seq<Id> {
    if raising.Some? && raising.value < |receivers| then receivers[..raising.value + 1] else receivers
  }

  function Keep(ids: seq<Id>, pending: seq<Request>): seq<Id> {
    if ids == [] then []
    else if Has(pending, ids[0]) then [ids[0]] + Keep(ids[1..], pending)
    else Keep(ids[1..], pending)
  }

  /** One await-free segment of `request` or of the receive loop. `Leave` is the `finally` of
      `request`; `Clear` is the end of the receive loop and `aclose`. */
  datatype Op = Enter(request: Request) | Answer(id: Id) | Leave(request: Request) | Clear

  function Apply(t: Table, op: Op): Table {
    match op
    case Enter(r) => Table(Put(t.pending, r), AddAll(t.routing, EventClasses(r), r.id))
    case Answer(id) => t.(pending := Drop(t.pending, id))
    case Leave(r) => t.(routing := RemoveAll(t.routing, EventClasses(r), r.id))
    case Clear => EMPTY
  }

  class Client {
    var pending: seq<Request>
    var routing: Routing

    ghost function View(): Table
      reads this
    {
      Table(pending, routing)
    }

    constructor ()
      ensures View() == EMPTY
    {
      pending, routing := [], map[];
    }

    method RegisterEventRouting(request: Request)
      modifies this`routing
      ensures routing == AddAll(old(routing), EventClasses(request), request.id)
    {
      if request.class_.declared.None? {
        return;
      }
      var classes := FlattenEventTypes(request.class_.declared.value.event);
      for i := 0 to |classes|
        invariant AddAll(old(routing), classes, request.id) == AddAll(routing, classes[i..], request.id)
      {
        var existing := if classes[i] in routing then routing[classes[i]] else [];
        routing := routing[classes[i] := existing + [request.id]];
      }
    }

    method UnregisterEventRouting(request: Request)
      modifies this`routing
      ensures routing == RemoveAll(old(routing), EventClasses(request), request.id)
    {
      if request.class_.declared.None? {
        return;
      }
      var classes := FlattenEventTypes(request.class_.declared.value.event);
      for i := 0 to |classes|
        invariant RemoveAll(old(routing), classes, request.id) == RemoveAll(routing, classes[i..], request.id)
      {
        if classes[i] in routing {
          var left := Without(routing[classes[i]], request.id);
          if left == [] {
            routing := routing - {classes[i]};
          } else {
            routing := routing[classes[i] := left];
          }
        }
      }
    }

    /** The table part of `request` before it sends. */
    method EnterRequest(request: Request)
      modifies this
      ensures View() == Apply(old(View()), Enter(request))
    {
      pending := Put(pending, request);
      RegisterEventRouting(request);
    }

    /** The `finally` of `request`. */
    method LeaveRequest(request: Request)
      modifies this
      ensures View() == Apply(old(View()), Leave(request))
    {
      UnregisterEventRouting(request);
    }

    /** The dictionary `pop` of the receive loop. */
    method PopPending(id: Id) returns (entry: Option<Request>)
      modifies this
      ensures View() == Apply(old(View()), Answer(id))
      ensures entry.Some? <==> Has(old(pending), id)
      ensures entry.Some? ==> entry.value in old(pending) && entry.value.id == id
    {
      entry := None;
      for i := 0 to |pending|
        invariant entry.None? ==> forall k :: 0 <= k < i ==> pending[k].id != id
        invariant entry.Some? ==> entry.value in pending && entry.value.id == id
      {
        if pending[i].id == id {
          entry := Some(pending[i]);
        }
      }
      pending := Drop(pending, id);
    }

    /** The event branch of the receive loop: the callbacks made, the last of which may have raised. */
    method RouteEvent(c: Class, raising: Option<nat>) returns (called: seq<Id>)
      ensures called == Called(Receivers(View(), c), raising)
    {
      called := [];
      var ids := if c in routing then routing[c] else [];
      for i := 0 to |ids|
        invariant Keep(ids, pending) == called + Keep(ids[i..], pending)
        invariant raising.Some? ==> |called| <= raising.value
      {
        assert ids[i..][1..] == ids[i + 1..];
        if Has(pending, ids[i]) {
          called := called + [ids[i]];
          if raising == Some(|called| - 1) {
            assert Keep(ids, pending)[..|called|] == called;
            return;
          }
        }
      }
      assert ids[|ids|..] == [];
    }

    method ClearAll()
      modifies this
      ensures View() == Apply(old(View()), Clear)
    {
      pending, routing := [], map[];
    }
  }
}

/** The event index refines a scan of the pending table, over every run of the client. */
module EventIndex {
  import opened Prelude
  import opened Protocol
  import opened Client

  // ------------------------------------------------------------------ the reference

  /** The life of one request: `pending` until it is answered, `inside` until `request` returns,
      `indexed` until its `finally` or the end of the receive loop. */
  datatype Life = Life(request: Request, pending: bool, inside: bool, indexed: bool) {
    predicate Live() { pending || inside }
  }

  function Track(lives: seq<Life>, op: Op): seq<Life> {
    match op
    case Enter(r) => lives + [Life(r, true, true, true)]
    case Answer(id) => Update(lives, id, false)
    case Leave(r) => Update(lives, r.id, true)
    case Clear => Forget(lives)
  }

  function Update(lives: seq<Life>, id: Id, leave: bool): seq<Life> {
    if lives == [] then []
    else [if lives[0].request.id != id then lives[0] else After(lives[0], leave)] + Update(lives[1..], id, leave)
  }

  function After(l: Life, leave: bool): Life {
    if leave then l.(inside := false, indexed := false) else l.(pending := false)
  }

  function Forget(lives: seq<Life>): seq<Life> {
    if lives == [] then []
    else [lives[0].(pending := false, indexed := false)] + Forget(lives[1..])
  }

  function Count(classes: seq<Class>, c: Class): nat {
    if classes == [] then 0 else (if classes[0] == c then 1 else 0) + Count(classes[1..], c)
  }

  function Times(id: Id, n: nat): seq<Id> {
    if n == 0 then [] else [id] + Times(id, n - 1)
  }

  function PendingOf(lives: seq<Life>): seq<Request> {
    if lives == [] then []
    else if lives[0].pending then [lives[0].request] + PendingOf(lives[1..])
    else PendingOf(lives[1..])
  }

  function IndexOf(lives: seq<Life>, c: Class): seq<Id> {
    if lives == [] then []
    else if lives[0].indexed then
      Times(lives[0].request.id, Count(EventClasses(lives[0].request), c)) + IndexOf(lives[1..], c)
    else IndexOf(lives[1..], c)
  }

  /** The ids of the requests still inside `request`. */
  function Inside(lives: seq<Life>): set<Id> {
    set l | l in lives && l.inside :: l.request.id
  }

  /** The naive scan: walk the pending table in order and keep the requests still inside
      `request` whose declared event classes contain `c`. */
  function Scan(pending: seq<Request>, inside: set<Id>, c: Class): seq<Id> {
    if pending == [] then []
    else if pending[0].id in inside then
      Times(pending[0].id, Count(EventClasses(pending[0]), c)) + Scan(pending[1..], inside, c)
    else Scan(pending[1..], inside, c)
  }

  // ------------------------------------------------------------------ the refinement relation

  ghost predicate Distinct(lives: seq<Life>) {
    forall i, j :: 0 <= i < j < |lives| && lives[i].Live() && lives[j].Live() ==>
      lives[i].request.id != lives[j].request.id
  }

  ghost predicate Coherent(lives: seq<Life>) {
    forall l :: l in lives ==> (l.indexed ==> l.inside) && (l.pending && l.inside ==> l.indexed)
  }

  ghost predicate IndexMatches(routing: Routing, lives: seq<Life>) {
    && (forall c :: Lookup(routing, c) == IndexOf(lives, c))
    && NoEmptyEntry(routing)
  }

  ghost predicate NoEmptyEntry(routing: Routing) {
    forall c :: c in routing ==> routing[c] != []
  }

  ghost predicate Refines(t: Table, lives: seq<Life>) {
    Distinct(lives) && Coherent(lives) && t.pending == PendingOf(lives) && IndexMatches(t.routing, lives)
  }

  // ------------------------------------------------------------------ small laws

  lemma {:induction false} TimesAdd(id: Id, m: nat, n: nat)
    ensures Times(id, m) + Times(id, n) == Times(id, m + n)
  {
    if m > 0 {
      TimesAdd(id, m - 1, n);
    }
  }

  lemma {:induction false} WithoutAppend(a: seq<Id>, b: seq<Id>, id: Id)
    ensures Without(a + b, id) == Without(a, id) + Without(b, id)
  {
    if a == [] {
      assert a + b == b;
    } else {
      assert (a + b)[1..] == a[1..] + b;
      WithoutAppend(a[1..], b, id);
    }
  }

  lemma {:induction false} WithoutTimes(id: Id, n: nat, other: Id)
    ensures Without(Times(id, n), other) == if id == other then [] else Times(id, n)
  {
    if n > 0 {
      assert Times(id, n)[1..] == Times(id, n - 1);
      WithoutTimes(id, n - 1, other);
    }
  }

  lemma {:induction false} KeepAppend(a: seq<Id>, b: seq<Id>, pending: seq<Request>)
    ensures Keep(a + b, pending) == Keep(a, pending) + Keep(b, pending)
  {
    if a == [] {
      assert a + b == b;
    } else {
      assert (a + b)[1..] == a[1..] + b;
      KeepAppend(a[1..], b, pending);
    }
  }

  lemma {:induction false} KeepTimes(id: Id, n: nat, pending: seq<Request>)
    ensures Keep(Times(id, n), pending) == if Has(pending, id) then Times(id, n) else []
  {
    if n > 0 {
      assert Times(id, n)[1..] == Times(id, n - 1);
      KeepTimes(id, n - 1, pending);
    }
  }

  lemma {:induction false} PendingMembers(lives: seq<Life>)
    ensures forall r :: r in PendingOf(lives) <==> exists l :: l in lives && l.pending && l.request == r
  {
    if lives != [] {
      PendingMembers(lives[1..]);
      assert forall l :: l in lives <==> l == lives[0] || l in lives[1..];
      assert forall r :: r in PendingOf(lives) <==> (lives[0].pending && lives[0].request == r) || r in PendingOf(lives[1..]);
    }
  }

  lemma AddOneLookup(routing: Routing, d: Class, id: Id, c: Class)
    ensures Lookup(routing[d := Lookup(routing, d) + [id]], c) == Lookup(routing, c) + Times(id, if d == c then 1 else 0)
  {
    assert Times(id, 0) == [];
    assert Times(id, 1) == [id];
  }

  lemma {:induction false} AddAllLookup(routing: Routing, classes: seq<Class>, id: Id, c: Class)
    ensures Lookup(AddAll(routing, classes, id), c) == Lookup(routing, c) + Times(id, Count(classes, c))
    decreases classes
  {
    if classes != [] {
      AddOneLookup(routing, classes[0], id, c);
      AddAllLookup(routing[classes[0] := Lookup(routing, classes[0]) + [id]], classes[1..], id, c);
      TimesAdd(id, if classes[0] == c then 1 else 0, Count(classes[1..], c));
    }
  }

  lemma {:induction false} AddAllNonEmpty(routing: Routing, classes: seq<Class>, id: Id)
    requires NoEmptyEntry(routing)
    ensures NoEmptyEntry(AddAll(routing, classes, id))
    decreases classes
  {
    if classes != [] {
      AddAllNonEmpty(routing[classes[0] := Lookup(routing, classes[0]) + [id]], classes[1..], id);
    }
  }

  lemma {:induction false} RemoveAllLookup(routing: Routing, classes: seq<Class>, id: Id, c: Class)
    ensures Lookup(RemoveAll(routing, classes, id), c) ==
            if Count(classes, c) > 0 then Without(Lookup(routing, c), id) else Lookup(routing, c)
    decreases classes
  {
    if classes != [] {
      var next := RemoveOne(routing, classes[0], id);
      RemoveAllLookup(next, classes[1..], id, c);
      WithoutTwice(Lookup(routing, c), id);
    }
  }

  lemma {:induction false} WithoutTwice(ids: seq<Id>, id: Id)
    ensures Without(Without(ids, id), id) == Without(ids, id)
  {
    if ids != [] {
      WithoutTwice(ids[1..], id);
      if ids[0] != id {
        assert Without(ids, id)[1..] == Without(ids[1..], id);
      }
    }
  }

  lemma {:induction false} RemoveAllNonEmpty(routing: Routing, classes: seq<Class>, id: Id)
    requires NoEmptyEntry(routing)
    ensures NoEmptyEntry(RemoveAll(routing, classes, id))
    decreases classes
  {
    if classes != [] {
      RemoveAllNonEmpty(RemoveOne(routing, classes[0], id), classes[1..], id);
    }
  }

  // ------------------------------------------------------------------ every operation keeps the relation

  /** The hypothesis on identifiers: a new request's id differs from those of the live ones. */
  ghost predicate FreshFor(lives: seq<Life>, op: Op) {
    match op
    case Enter(r) => forall l :: l in lives && l.Live() ==> l.request.id != r.id
    case Leave(r) => forall l :: l in lives && l.Live() && l.request.id == r.id ==> l.request == r
    case _ => true
  }

  lemma {:induction false} PutFresh(pending: seq<Request>, r: Request)
    requires !Has(pending, r.id)
    ensures Put(pending, r) == pending + [r]
  {
    if pending != [] {
      assert pending[0] in pending;
      forall q | q in pending[1..] ensures q.id != r.id {
        assert q in pending;
      }
      PutFresh(pending[1..], r);
    }
  }

  lemma {:induction false} ListsAppend(lives: seq<Life>, l: Life, c: Class)
    ensures PendingOf(lives + [l]) == PendingOf(lives) + (if l.pending then [l.request] else [])
    ensures IndexOf(lives + [l], c) ==
            IndexOf(lives, c) + (if l.indexed then Times(l.request.id, Count(EventClasses(l.request), c)) else [])
  {
    if lives == [] {
      assert lives + [l] == [l];
      assert [l][1..] == [];
    } else {
      assert (lives + [l])[1..] == lives[1..] + [l];
      ListsAppend(lives[1..], l, c);
    }
  }

  lemma EnterKeeps(t: Table, lives: seq<Life>, r: Request)
    requires Refines(t, lives) && FreshFor(lives, Enter(r))
    ensures Refines(Apply(t, Enter(r)), Track(lives, Enter(r)))
  {
    var l := Life(r, true, true, true);
    PendingMembers(lives);
    PutFresh(t.pending, r);
    AddAllNonEmpty(t.routing, EventClasses(r), r.id);
    forall c ensures Lookup(AddAll(t.routing, EventClasses(r), r.id), c) == IndexOf(lives + [l], c) {
      AddAllLookup(t.routing, EventClasses(r), r.id, c);
      ListsAppend(lives, l, c);
    }
    assert PendingOf(lives + [l]) == PendingOf(lives) + [r] by {
      ListsAppend(lives, l, Class("", []));
    }
  }

  lemma {:induction false} UpdateShape(lives: seq<Life>, id: Id, leave: bool)
    ensures var u := Update(lives, id, leave);
            && |u| == |lives|
            && forall i :: 0 <= i < |u| ==>
                 u[i] == if lives[i].request.id != id then lives[i] else After(lives[i], leave)
  {
    if lives != [] {
      UpdateShape(lives[1..], id, leave);
    }
  }

  lemma UpdateKeepsFlags(lives: seq<Life>, id: Id, leave: bool)
    requires Distinct(lives) && Coherent(lives)
    ensures var u := Update(lives, id, leave); Distinct(u) && Coherent(u)
  {
    UpdateShape(lives, id, leave);
    var u := Update(lives, id, leave);
    forall l | l in u ensures (l.indexed ==> l.inside) && (l.pending && l.inside ==> l.indexed) {
      var i :| 0 <= i < |u| && u[i] == l;
      assert lives[i] in lives;
    }
  }

  lemma {:induction false} AnswerLists(lives: seq<Life>, id: Id, c: Class)
    ensures PendingOf(Update(lives, id, false)) == Drop(PendingOf(lives), id)
    ensures IndexOf(Update(lives, id, false), c) == IndexOf(lives, c)
  {
    if lives != [] {
      AnswerLists(lives[1..], id, c);
      assert Update(lives, id, false)[1..] == Update(lives[1..], id, false);
      if lives[0].pending {
        assert PendingOf(lives)[1..] == PendingOf(lives[1..]);
      }
    }
  }

  lemma AnswerKeeps(t: Table, lives: seq<Life>, id: Id)
    requires Refines(t, lives)
    ensures Refines(Apply(t, Answer(id)), Track(lives, Answer(id)))
  {
    UpdateKeepsFlags(lives, id, false);
    AnswerLists(lives, id, Class("", []));
    forall c ensures Lookup(t.routing, c) == IndexOf(Update(lives, id, false), c) {
      AnswerLists(lives, id, c);
    }
  }

  /** `finally` removes exactly the ids of the leaving request from every list. */
  lemma {:induction false} LeaveLists(lives: seq<Life>, r: Request, c: Class)
    requires forall l :: l in lives && l.indexed && l.request.id == r.id ==> l.request == r
    ensures PendingOf(Update(lives, r.id, true)) == PendingOf(lives)
    ensures IndexOf(Update(lives, r.id, true), c) ==
            if Count(EventClasses(r), c) > 0 then Without(IndexOf(lives, c), r.id) else IndexOf(lives, c)
  {
    if lives != [] {
      LeaveLists(lives[1..], r, c);
      assert lives[0] in lives;
      assert Update(lives, r.id, true)[1..] == Update(lives[1..], r.id, true);
      var l := lives[0];
      if l.indexed {
        var n := Count(EventClasses(l.request), c);
        WithoutAppend(Times(l.request.id, n), IndexOf(lives[1..], c), r.id);
        WithoutTimes(l.request.id, n, r.id);
      }
    }
  }

  lemma LeaveKeeps(t: Table, lives: seq<Life>, r: Request)
    requires Refines(t, lives) && FreshFor(lives, Leave(r))
    ensures Refines(Apply(t, Leave(r)), Track(lives, Leave(r)))
  {
    UpdateKeepsFlags(lives, r.id, true);
    LeaveLists(lives, r, Class("", []));
    RemoveAllNonEmpty(t.routing, EventClasses(r), r.id);
    forall c ensures Lookup(RemoveAll(t.routing, EventClasses(r), r.id), c) == IndexOf(Update(lives, r.id, true), c) {
      RemoveAllLookup(t.routing, EventClasses(r), r.id, c);
      LeaveLists(lives, r, c);
    }
  }

  lemma {:induction false} ForgetLists(lives: seq<Life>, c: Class)
    ensures PendingOf(Forget(lives)) == [] && IndexOf(Forget(lives), c) == []
    ensures |Forget(lives)| == |lives|
    ensures forall i :: 0 <= i < |lives| ==> Forget(lives)[i] == lives[i].(pending := false, indexed := false)
  {
    if lives != [] {
      ForgetLists(lives[1..], c);
      assert Forget(lives)[1..] == Forget(lives[1..]);
    }
  }

  lemma ClearKeeps(t: Table, lives: seq<Life>)
    requires Refines(t, lives)
    ensures Refines(Apply(t, Clear), Track(lives, Clear))
  {
    ForgetLists(lives, Class("", []));
    forall c ensures Lookup(map[], c) == IndexOf(Forget(lives), c) {
      ForgetLists(lives, c);
    }
  }

  lemma StepKeeps(t: Table, lives: seq<Life>, op: Op)
    requires Refines(t, lives) && FreshFor(lives, op)
    ensures Refines(Apply(t, op), Track(lives, op))
  {
    match op
    case Enter(r) => EnterKeeps(t, lives, r);
    case Answer(id) => AnswerKeeps(t, lives, id);
    case Leave(r) => LeaveKeeps(t, lives, r);
    case Clear => ClearKeeps(t, lives);
  }

  // ------------------------------------------------------------------ over whole runs

  function RunOps(t: Table, ops: seq<Op>): Table {
    if ops == [] then t else Apply(RunOps(t, ops[..|ops| - 1]), ops[|ops| - 1])
  }

  function History(ops: seq<Op>): seq<Life> {
    if ops == [] then [] else Track(History(ops[..|ops| - 1]), ops[|ops| - 1])
  }

  ghost predicate FreshIds(ops: seq<Op>) {
    forall i :: 0 <= i < |ops| ==> FreshFor(History(ops[..i]), ops[i])
  }

  lemma {:induction false} RunRefines(ops: seq<Op>)
    requires FreshIds(ops)
    ensures Refines(RunOps(EMPTY, ops), History(ops))
  {
    if ops != [] {
      var before, last := ops[..|ops| - 1], ops[|ops| - 1];
      forall i | 0 <= i < |before| ensures FreshFor(History(before[..i]), before[i]) {
        assert before[..i] == ops[..i];
      }
      RunRefines(before);
      StepKeeps(RunOps(EMPTY, before), History(before), last);
    }
  }

  lemma {:induction false} KeepIndex(lives: seq<Life>, all: seq<Life>, c: Class)
    requires Distinct(all) && Coherent(all)
    requires forall l :: l in lives ==> l in all
    ensures Keep(IndexOf(lives, c), PendingOf(all)) == Scan(PendingOf(lives), Inside(all), c)
  {
    if lives != [] {
      var l := lives[0];
      forall k | k in lives[1..] ensures k in all {
        assert k in lives;
      }
      KeepIndex(lives[1..], all, c);
      PendingMembers(all);
      var n := Count(EventClasses(l.request), c);
      assert l in lives;
      KeepAppend(Times(l.request.id, n), IndexOf(lives[1..], c), PendingOf(all));
      KeepTimes(l.request.id, n, PendingOf(all));
      if l.Live() {
        OneLifePerId(all, l);
      }
      if l.pending {
        assert PendingOf(lives)[1..] == PendingOf(lives[1..]);
      }
    }
  }

  /** Among live requests an id determines the request, so looking an id up is looking at its own flags. */
  lemma OneLifePerId(all: seq<Life>, l: Life)
    requires Distinct(all) && l in all && l.Live()
    ensures l.request.id in Inside(all) <==> l.inside
    ensures Has(PendingOf(all), l.request.id) <==> l.pending
  {
    PendingMembers(all);
    var i :| 0 <= i < |all| && all[i] == l;
    forall k | k in all && k.Live() && k.request.id == l.request.id ensures k == l {
      var j :| 0 <= j < |all| && all[j] == k;
      assert i == j;
    }
  }

  /** The refinement: in every state of every run with fresh ids, the receivers found through
      the index are those of the naive scan, in the same order; and no index entry is empty. */
  lemma ReceiversAreTheNaiveScan(ops: seq<Op>, c: Class)
    requires FreshIds(ops)
    ensures var t := RunOps(EMPTY, ops);
            Receivers(t, c) == Scan(t.pending, Inside(History(ops)), c)
    ensures NoEmptyEntry(RunOps(EMPTY, ops).routing)
  {
    RunRefines(ops);
    KeepIndex(History(ops), History(ops), c);
  }

  // ------------------------------------------------------------------ without duplicates

  ghost predicate NoRepeats<T>(s: seq<T>) {
    forall i, j :: 0 <= i < j < |s| ==> s[i] != s[j]
  }

  lemma {:induction false} CountAtMostOne(classes: seq<Class>, c: Class)
    requires NoRepeats(classes)
    ensures Count(classes, c) == if c in classes then 1 else 0
  {
    if classes != [] {
      CountAtMostOne(classes[1..], c);
      assert classes == [classes[0]] + classes[1..];
    }
  }

  lemma {:induction false} ScanMembers(pending: seq<Request>, inside: set<Id>, c: Class)
    requires forall r :: r in pending ==> NoRepeats(EventClasses(r))
    requires DistinctIds(pending)
    ensures NoRepeats(Scan(pending, inside, c))
    ensures forall id :: id in Scan(pending, inside, c) <==>
              exists r :: r in pending && r.id == id && id in inside && c in EventClasses(r)
  {
    if pending != [] {
      var r, rest := pending[0], pending[1..];
      ScanMembers(rest, inside, c);
      CountAtMostOne(EventClasses(r), c);
      assert Times(r.id, 1) == [r.id] by { assert Times(r.id, 0) == []; }
      assert forall q :: q in pending <==> q == r || q in rest;
      assert r.id !in Scan(rest, inside, c);
    }
  }

  ghost predicate DistinctIds(pending: seq<Request>) {
    forall i, j :: 0 <= i < j < |pending| ==> pending[i].id != pending[j].id
  }

  lemma DistinctTail(lives: seq<Life>)
    requires Distinct(lives) && lives != []
    ensures Distinct(lives[1..])
    ensures lives[0].pending ==> forall r :: r in PendingOf(lives[1..]) ==> r.id != lives[0].request.id
  {
    var rest := lives[1..];
    assert forall k :: 0 <= k < |rest| ==> rest[k] == lives[k + 1];
    PendingMembers(rest);
    forall r | r in PendingOf(rest) && lives[0].pending ensures r.id != lives[0].request.id {
      var l :| l in rest && l.pending && l.request == r;
      var k :| 0 <= k < |rest| && rest[k] == l;
      assert lives[k + 1].Live() && lives[0].Live();
    }
  }

  lemma {:induction false} PendingDistinct(lives: seq<Life>)
    requires Distinct(lives)
    ensures DistinctIds(PendingOf(lives))
  {
    if lives != [] {
      DistinctTail(lives);
      PendingDistinct(lives[1..]);
    }
  }

  /** With unions free of repeats, nobody receives an event twice, and the receivers are exactly
      the pending requests inside `request` that declare the event's class. */
  lemma ReceiversAreExactlyTheDeclarers(t: Table, lives: seq<Life>, c: Class)
    requires Refines(t, lives)
    requires forall r :: r in t.pending ==> NoRepeats(EventClasses(r))
    ensures NoRepeats(Receivers(t, c))
    ensures forall id :: id in Receivers(t, c) <==>
              exists r :: r in t.pending && r.id == id && id in Inside(lives) && c in EventClasses(r)
  {
    KeepIndex(lives, lives, c);
    PendingDistinct(lives);
    ScanMembers(t.pending, Inside(lives), c);
  }
}

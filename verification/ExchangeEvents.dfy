/** Events over one connection: who receives them, and that they come before the response. */
module ExchangeEvents {
  import opened Prelude
  import opened Protocol
  import opened Client
  import opened EventIndex
  import opened Exchange

  // ------------------------------------------------------------------ a request's own events

  /** An event that `r`'s handler emitted while running, of a class that `r` declares. */
  predicate Mine(p: Packet, r: Request) {
    p.Notice? && p.timely && p.origin == r.id && p.class_ in EventClasses(r)
  }

  function Own(packets: seq<Packet>, r: Request): seq<nat> {
    if packets == [] then []
    else if Mine(packets[0], r) then [packets[0].serial] + Own(packets[1..], r)
    else Own(packets[1..], r)
  }

  /** The own events that `r`'s callback has received, in order. */
  function Got(receipts: seq<Receipt>, r: Request): seq<nat> {
    if receipts == [] then []
    else if receipts[0].receiver == r.id && Mine(receipts[0].notice, r) then
      [receipts[0].notice.serial] + Got(receipts[1..], r)
    else Got(receipts[1..], r)
  }

  /** No own event is lost, duplicated or reordered: received plus under way is emitted. */
  ghost predicate Balanced(s: State, r: Request) {
    Got(s.received, r) + Own(s.toClient, r) == Own(s.emitted, r)
  }

  predicate From(p: Packet, id: Id) {
    p.Notice? && p.timely && p.origin == id
  }

  /** Behind a reply there is no timely event of the same request. */
  ghost predicate RepliesLast(packets: seq<Packet>) {
    forall i, j :: 0 <= i < j < |packets| && packets[i].Reply? ==> !From(packets[j], packets[i].id)
  }

  /** A timely event under way belongs to a request that is still waiting. */
  ghost predicate OriginsWait(s: State) {
    forall p :: p in s.toClient && p.Notice? && p.timely ==> Waiting(s, p.origin) == 1
  }

  ghost predicate NoStrayEvents(s: State) {
    && RepliesLast(s.toClient) && OriginsWait(s)
    && (forall p :: p in s.emitted ==> p.Notice? && p.origin in s.requests)
  }

  // Laws of the lists.

  lemma {:induction false} OwnAppend(packets: seq<Packet>, p: Packet, r: Request)
    ensures Own(packets + [p], r) == if Mine(p, r) then Own(packets, r) + [p.serial] else Own(packets, r)
  {
    if packets == [] {
      assert packets + [p] == [p];
    } else {
      assert (packets + [p])[1..] == packets[1..] + [p];
      OwnAppend(packets[1..], p, r);
    }
  }

  lemma {:induction false} OwnNone(packets: seq<Packet>, r: Request)
    requires forall p :: p in packets ==> !From(p, r.id)
    ensures Own(packets, r) == []
  {
    if packets != [] {
      assert packets[0] in packets;
      OwnNone(packets[1..], r);
    }
  }

  lemma {:induction false} GotAppend(a: seq<Receipt>, b: seq<Receipt>, r: Request)
    ensures Got(a + b, r) == Got(a, r) + Got(b, r)
  {
    if a == [] {
      assert a + b == b;
    } else {
      assert (a + b)[1..] == a[1..] + b;
      GotAppend(a[1..], b, r);
    }
  }

  lemma {:induction false} GotOfReceipts(ids: seq<Id>, notice: Packet, r: Request)
    requires NoRepeats(ids)
    ensures Got(Receipts(ids, notice), r) == if Mine(notice, r) && r.id in ids then [notice.serial] else []
  {
    if ids != [] {
      assert Receipts(ids, notice)[1..] == Receipts(ids[1..], notice);
      assert ids == [ids[0]] + ids[1..];
      assert ids[0] !in ids[1..];
      GotOfReceipts(ids[1..], notice, r);
    }
  }

  // ------------------------------------------------------------------ who receives an event

  /** A waiting request is pending and still inside `request`. */
  lemma WaitingIsInside(s: State, id: Id)
    requires Inv(s) && Waiting(s, id) > 0
    ensures id in s.requests && s.requests[id] in s.table.pending && id in Inside(s.lives)
  {
    assert Places(s, id) == One(id in s.requests);
    assert Occ(Ids(s.table.pending), id) == Waiting(s, id);
    EntryFinds(s.table.pending, id);
    PendingMembers(s.lives);
    var l :| l in s.lives && l.pending && l.request == s.requests[id];
    assert LifeOk(s, l);
    OccMember(EndedIds(s.ended), id);
  }

  ghost predicate Declares(s: State, id: Id, c: Class) {
    id in s.requests && s.requests[id] in s.table.pending && id in Inside(s.lives) && c in EventClasses(s.requests[id])
  }

  /** An event is handed, once each, to exactly the pending requests that declare its class. */
  lemma ReceiversDeclare(s: State, c: Class)
    requires Inv(s)
    ensures NoRepeats(Receivers(s.table, c))
    ensures forall id :: id in Receivers(s.table, c) <==> Declares(s, id, c)
  {
    forall r | r in s.table.pending ensures NoRepeats(EventClasses(r)) {
      assert s.requests[r.id] == r;
    }
    ReceiversAreExactlyTheDeclarers(s.table, s.lives, c);
  }

  /** When only one pending request declares the class, it alone receives the event. */
  lemma SoleDeclarerReceives(s: State, c: Class, id: Id)
    requires Inv(s) && Declares(s, id, c)
    requires forall other :: Declares(s, other, c) ==> other == id
    ensures Receivers(s.table, c) == [id]
  {
    ReceiversDeclare(s, c);
    var rs := Receivers(s.table, c);
    FirstTwoDiffer(rs);
    assert forall i :: 0 <= i < |rs| ==> rs[i] in rs && rs[i] == id;
  }

  lemma FirstTwoDiffer(ids: seq<Id>)
    requires NoRepeats(ids)
    ensures |ids| >= 2 ==> ids[0] != ids[1]
  {
  }

  // ------------------------------------------------------------------ callbacks that raise

  /** This step offers an own event of `r` to its receivers, and the callback of one ahead of `r`
      raises: the loop ends before it comes to `r`. */
  ghost predicate Skips(s: State, e: Event, r: Request)
    requires Enabled(s, e)
  {
    && e.Receive? && e.raising.Some? && Mine(s.toClient[0], r)
    && e.raising.value < |Receivers(s.table, s.toClient[0].class_)|
    && r.id in Receivers(s.table, s.toClient[0].class_)[e.raising.value + 1..]
  }

  ghost predicate EverSkipped(s: State, events: seq<Event>, r: Request)
    decreases |events|
  {
    events != [] && Enabled(s, events[0]) && (Skips(s, events[0], r) || EverSkipped(Step(s, events[0]), events[1..], r))
  }

  /** How often that happens in a run. */
  ghost function Skipped(s: State, events: seq<Event>, r: Request): nat
    decreases |events|
  {
    if events == [] || !Enabled(s, events[0]) then 0
    else One(Skips(s, events[0], r)) + Skipped(Step(s, events[0]), events[1..], r)
  }

  lemma {:induction false} SkippedCounts(s: State, events: seq<Event>, r: Request)
    ensures Skipped(s, events, r) > 0 <==> EverSkipped(s, events, r)
    decreases |events|
  {
    if events != [] && Enabled(s, events[0]) {
      SkippedCounts(Step(s, events[0]), events[1..], r);
    }
  }

  /** Of the events emitted, `skipped` have been lost; if none has, the rest are where they
      should be, in order. */
  ghost predicate Tally(s: State, r: Request, skipped: nat) {
    && (skipped == 0 ==> Balanced(s, r))
    && |Got(s.received, r)| + |Own(s.toClient, r)| + skipped == |Own(s.emitted, r)|
  }

  // ------------------------------------------------------------------ every step keeps the tally

  /** An own event under way belongs to a request that is still waiting, hence a receiver. */
  lemma NoticeReachesOwner(s: State, n: Packet, r: Request)
    requires Inv(s) && NoStrayEvents(s) && n in s.toClient && n.Notice?
    requires r.id in s.requests ==> s.requests[r.id] == r
    ensures Mine(n, r) ==> r.id in Receivers(s.table, n.class_)
  {
    ReceiversDeclare(s, n.class_);
    if Mine(n, r) {
      WaitingIsInside(s, r.id);
      assert Declares(s, r.id, n.class_);
    }
  }

  /** Who is called: everyone up to the callback that raises. */
  lemma CalledUnlessSkipped(receivers: seq<Id>, raising: Option<nat>, id: Id)
    requires NoRepeats(receivers) && id in receivers
    ensures NoRepeats(Called(receivers, raising))
    ensures id in Called(receivers, raising) <==>
              !(raising.Some? && raising.value < |receivers| && id in receivers[raising.value + 1..])
  {
    if raising.Some? && raising.value < |receivers| {
      assert receivers == receivers[..raising.value + 1] + receivers[raising.value + 1..];
    }
  }

  lemma NoticeKeepsTally(s: State, s': State, raising: Option<nat>, r: Request, skipped: nat)
    requires Tally(s, r, skipped) && NoticeMoves(s, s', raising) && Enabled(s, Receive(raising))
    requires NoRepeats(Receivers(s.table, s.toClient[0].class_))
    requires Mine(s.toClient[0], r) ==> r.id in Receivers(s.table, s.toClient[0].class_)
    ensures Tally(s', r, skipped + One(Skips(s, Receive(raising), r)))
  {
    var n, rs := s.toClient[0], Receivers(s.table, s.toClient[0].class_);
    if Mine(n, r) {
      CalledUnlessSkipped(rs, raising, r.id);
      assert Got(s.received, r) + ([n.serial] + Own(s'.toClient, r)) == (Got(s.received, r) + [n.serial]) + Own(s'.toClient, r);
    }
    assert NoRepeats(Called(rs, raising));
    GotAppend(s.received, Receipts(Called(rs, raising), n), r);
    GotOfReceipts(Called(rs, raising), n, r);
  }

  lemma EmitKeepsTally(s: State, x: Id, c: Class, r: Request, skipped: nat)
    requires Enabled(s, Emit(x, c)) && Tally(s, r, skipped)
    ensures Tally(Step(s, Emit(x, c)), r, skipped)
  {
    var n := Notice(c, x, |s.emitted|, x in s.running);
    OwnAppend(s.toClient, n, r);
    OwnAppend(s.emitted, n, r);
  }

  lemma ReplyKeepsTally(s: State, s': State, p: Packet, r: Request, skipped: nat)
    requires Tally(s, r, skipped) && p.Reply?
    requires s'.received == s.received && s'.emitted == s.emitted
    requires s'.toClient == s.toClient + [p] || s.toClient == [p] + s'.toClient
    ensures Tally(s', r, skipped)
  {
    OwnAppend(s.toClient, p, r);
    if s.toClient == [p] + s'.toClient {
      assert s.toClient[1..] == s'.toClient;
    }
  }

  lemma ReceiveKeepsTally(s: State, raising: Option<nat>, r: Request, skipped: nat)
    requires Inv(s) && NoStrayEvents(s) && Enabled(s, Receive(raising)) && Tally(s, r, skipped)
    requires r.id in s.requests ==> s.requests[r.id] == r
    ensures Tally(Step(s, Receive(raising)), r, skipped + One(Skips(s, Receive(raising), r)))
  {
    ReceiveMoves(s, raising);
    var s', p := Step(s, Receive(raising)), s.toClient[0];
    if p.Reply? {
      ReplyKeepsTally(s, s', p, r, skipped);
    } else {
      ReceiversDeclare(s, p.class_);
      NoticeReachesOwner(s, p, r);
      NoticeKeepsTally(s, s', raising, r, skipped);
    }
  }

  lemma QuietKeepsTally(s: State, s': State, r: Request, skipped: nat)
    requires Tally(s, r, skipped)
    requires s'.received == s.received && s'.toClient == s.toClient && s'.emitted == s.emitted
    ensures Tally(s', r, skipped)
  {
  }

  lemma StepKeepsTally(s: State, e: Event, r: Request, skipped: nat)
    requires Inv(s) && NoStrayEvents(s) && Enabled(s, e) && Tally(s, r, skipped)
    requires r.id in s.requests ==> s.requests[r.id] == r
    ensures Tally(Step(s, e), r, skipped + One(Skips(s, e, r)))
  {
    match e
    case Ask(_) => QuietKeepsTally(s, Step(s, e), r, skipped);
    case Serve => QuietKeepsTally(s, Step(s, e), r, skipped);
    case Emit(x, c) => EmitKeepsTally(s, x, c, r, skipped);
    case Finish(x, outcome) => ReplyKeepsTally(s, Step(s, e), ReplyTo(s.requests[x], outcome), r, skipped);
    case Receive(raising) => ReceiveKeepsTally(s, raising, r, skipped);
    case Resume(_) => QuietKeepsTally(s, Step(s, e), r, skipped);
  }

  // ------------------------------------------------------------------ no stray events

  lemma {:induction false} RepliesAreCounted(packets: seq<Packet>, i: nat)
    requires i < |packets| && packets[i].Reply?
    ensures Occ(ReplyIds(packets), packets[i].id) >= 1
  {
    if i > 0 {
      RepliesAreCounted(packets[1..], i - 1);
    }
  }

  lemma EmitKeepsOrder(s: State, x: Id, c: Class)
    requires Inv(s) && NoStrayEvents(s) && Enabled(s, Emit(x, c))
    ensures NoStrayEvents(Step(s, Emit(x, c)))
  {
    var s' := Step(s, Emit(x, c));
    var n := Notice(c, x, |s.emitted|, x in s.running);
    assert Places(s, x) == 1;
    ReplyIdsAppend(s.toClient, n);
    forall i | 0 <= i < |s.toClient| && s.toClient[i].Reply? ensures !From(n, s.toClient[i].id) {
      RepliesAreCounted(s.toClient, i);
    }
    forall p | p in s'.toClient && p.Notice? && p.timely ensures Waiting(s', p.origin) == 1 {
      assert p in s.toClient || p == n;
    }
  }

  lemma FinishKeepsOrder(s: State, x: Id, outcome: Outcome)
    requires Inv(s) && NoStrayEvents(s) && Enabled(s, Finish(x, outcome))
    ensures NoStrayEvents(Step(s, Finish(x, outcome)))
  {
    var s' := Step(s, Finish(x, outcome));
    var reply := ReplyTo(s.requests[x], outcome);
    ReplyIdsAppend(s.toClient, reply);
    forall p | p in s'.toClient && p.Notice? && p.timely ensures Waiting(s', p.origin) == 1 {
      assert p in s.toClient;
      OccAdd(ReplyIds(s.toClient), x, p.origin);
    }
  }

  lemma ReceiveKeepsOrder(s: State, s': State, raising: Option<nat>)
    requires NoStrayEvents(s) && (ReplyMoves(s, s') || NoticeMoves(s, s', raising))
    ensures NoStrayEvents(s')
  {
    assert forall i :: 0 <= i < |s'.toClient| ==> s'.toClient[i] == s.toClient[i + 1];
    forall p | p in s'.toClient && p.Notice? && p.timely ensures Waiting(s', p.origin) == 1 {
      var j :| 0 <= j < |s'.toClient| && s'.toClient[j] == p;
      assert s.toClient[j + 1] == p && From(p, p.origin);
      assert Waiting(s, p.origin) == 1;
    }
  }

  lemma StepKeepsOrder(s: State, e: Event)
    requires Inv(s) && NoStrayEvents(s) && Enabled(s, e)
    ensures NoStrayEvents(Step(s, e))
  {
    var s' := Step(s, e);
    match e
    case Ask(r) =>
      forall p | p in s'.toClient && p.Notice? && p.timely ensures Waiting(s', p.origin) == 1 {
        assert Places(s, r.id) == 0;
        OccAdd(s.toServer, r.id, p.origin);
      }
    case Serve => assert Places(s, s.toServer[0]) <= 1;
    case Emit(x, c) => EmitKeepsOrder(s, x, c);
    case Finish(x, outcome) => FinishKeepsOrder(s, x, outcome);
    case Receive(raising) =>
      ReceiveMoves(s, raising);
      ReceiveKeepsOrder(s, Step(s, e), raising);
    case Resume(_) =>
  }

  // ------------------------------------------------------------------ over whole runs

  lemma RequestsStay(s: State, e: Event, id: Id)
    requires Inv(s) && Enabled(s, e) && id in s.requests
    ensures id in Step(s, e).requests && Step(s, e).requests[id] == s.requests[id]
  {
    if e.Receive? {
      ReceiveMoves(s, e.raising);
    }
  }

  lemma {:induction false} RequestsStayOverRun(s: State, events: seq<Event>, s': State, id: Id)
    requires Inv(s) && Run(s, events, s') && id in s.requests
    ensures id in s'.requests && s'.requests[id] == s.requests[id]
    decreases |events|
  {
    if events != [] {
      StepConserves(s, events[0]);
      RequestsStay(s, events[0], id);
      RequestsStayOverRun(Step(s, events[0]), events[1..], s', id);
    }
  }

  lemma {:induction false} RunKeepsTally(s: State, events: seq<Event>, s': State, r: Request, skipped: nat)
    requires Inv(s) && NoStrayEvents(s) && Run(s, events, s') && Tally(s, r, skipped)
    requires r.id in s'.requests && s'.requests[r.id] == r
    ensures Inv(s') && NoStrayEvents(s') && Tally(s', r, skipped + Skipped(s, events, r))
    decreases |events|
  {
    if events != [] {
      var e := events[0];
      if r.id in s.requests {
        RequestsStayOverRun(s, events, s', r.id);
      }
      StepConserves(s, e);
      StepKeepsOrder(s, e);
      StepKeepsTally(s, e, r, skipped);
      RunKeepsTally(Step(s, e), events[1..], s', r, skipped + One(Skips(s, e, r)));
    }
  }

  lemma {:induction false} RunKeepsOrder(s: State, events: seq<Event>, s': State)
    requires Inv(s) && NoStrayEvents(s) && Run(s, events, s')
    ensures Inv(s') && NoStrayEvents(s')
    decreases |events|
  {
    if events != [] {
      StepConserves(s, events[0]);
      StepKeepsOrder(s, events[0]);
      RunKeepsOrder(Step(s, events[0]), events[1..], s');
    }
  }

  /** Over every run: by the time a request ends, its callback has been called with every event of
      a declared class that its handler emitted while running, once each and in order, exactly
      when no callback of a receiver ahead of it has raised for one of these events; and otherwise
      precisely those events are missing. */
  lemma EventsComeBeforeTheResponse(events: seq<Event>, s: State, id: Id)
    requires Run(START, events, s) && id in EndedIds(s.ended)
    ensures id in s.requests
    ensures var r := s.requests[id];
      && (Got(s.received, r) == Own(s.emitted, r) <==> !EverSkipped(START, events, r))
      && |Got(s.received, r)| + Skipped(START, events, r) == |Own(s.emitted, r)|
  {
    StartInv();
    RunKeepsOrder(START, events, s);
    OccMember(EndedIds(s.ended), id);
    assert Places(s, id) == One(id in s.requests);
    var r := s.requests[id];
    RunKeepsTally(START, events, s, r, 0);
    SkippedCounts(START, events, r);
    OwnNone(s.toClient, r);
  }

  /** Over every run: the requests looked up for the next event are, once each, exactly the
      pending ones that declare its class; they are called in that order up to the first callback
      that raises. Its own request, if still waiting, is called if and only if it declares that
      very class and is not behind such a callback. */
  lemma EventsReachTheirDeclarers(events: seq<Event>, s: State, raising: Option<nat>)
    requires Run(START, events, s) && s.toClient != [] && s.toClient[0].Notice?
    ensures var n, rs := s.toClient[0], Receivers(s.table, s.toClient[0].class_);
            && Step(s, Receive(raising)).received == s.received + Receipts(Called(rs, raising), n)
            && NoRepeats(rs)
            && (forall id :: id in rs <==> Declares(s, id, n.class_))
            && (n.timely ==> n.origin in s.requests)
            && (n.timely ==>
                  (n.origin in Called(rs, raising) <==>
                     n.class_ in EventClasses(s.requests[n.origin]) && !Skips(s, Receive(raising), s.requests[n.origin])))
  {
    StartInv();
    RunKeepsOrder(START, events, s);
    ReceiversDeclare(s, s.toClient[0].class_);
    if s.toClient[0].timely {
      OriginCalled(s, raising);
    }
  }

  lemma OriginCalled(s: State, raising: Option<nat>)
    requires Inv(s) && NoStrayEvents(s) && s.toClient != [] && s.toClient[0].Notice? && s.toClient[0].timely
    ensures var n, rs := s.toClient[0], Receivers(s.table, s.toClient[0].class_);
      && n.origin in s.requests
      && (n.origin in Called(rs, raising) <==>
            n.class_ in EventClasses(s.requests[n.origin]) && !Skips(s, Receive(raising), s.requests[n.origin]))
  {
    var n, rs := s.toClient[0], Receivers(s.table, s.toClient[0].class_);
    ReceiversDeclare(s, n.class_);
    WaitingIsInside(s, n.origin);
    if n.origin in rs {
      CalledUnlessSkipped(rs, raising, n.origin);
    }
  }
}

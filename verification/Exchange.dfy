/** Client and server over one connection: requests, handlers, events and responses as an
    interleaving of await-free steps (`client.py` and `server.py`). */
module Exchange {
  import opened Prelude
  import opened Protocol
  import opened Client
  import opened EventIndex

  // ------------------------------------------------------------------ state

  /** How a handler ends: with a response object, or with an exception. `errorShaped` says
      that the object also carries `error_type` and `message`. */
  datatype Outcome = Returned(class_: Class, errorShaped: bool) | Raised

  /** What travels to the client. `origin` and `serial` are bookkeeping of the model, since an
      event carries no request id. An event is timely when its handler was still running. */
  datatype Packet =
    | Reply(id: Id, class_: Class, errorShaped: bool)
    | Notice(class_: Class, origin: Id, serial: nat, timely: bool)

  datatype Result = Answered(class_: Class) | RequestFailed

  datatype Ending = Ending(id: Id, result: Result)

  datatype Receipt = Receipt(receiver: Id, notice: Packet)

  /** `requests`, `outcomes`, `emitted` and `lives` are history; `ended` lists the futures
      resolved so far and `received` the event callbacks made so far, in order. `stuck` are
      the requests whose entry was popped but whose future nobody will resolve. */
  datatype State = State(
    requests: map<Id, Request>,
    table: Table,
    lives: seq<Life>,
    toServer: seq<Id>,
    running: set<Id>,
    outcomes: map<Id, Outcome>,
    toClient: seq<Packet>,
    ended: seq<Ending>,
    stuck: seq<Id>,
    emitted: seq<Packet>,
    received: seq<Receipt>)

  const START: State := State(map[], EMPTY, [], [], {}, map[], [], [], [], [], [])

  const FAILURE: Class := Class("RequestFailed", [])

  // ------------------------------------------------------------------ steps

  datatype Event =
    | Ask(request: Request)              // `request` registers and sends
    | Serve                              // the server reads a request and starts its handler
    | Emit(id: Id, class_: Class)        // the emit function of that request is called
    | Finish(id: Id, outcome: Outcome)   // the handler returns or raises, the server replies
    | Receive(raising: Option<nat>)      // the client processes the next frame; its raising-th callback raises
    | Resume(id: Id)                     // `request` returns or raises to its caller

  /** The hypotheses: fresh ids, sends that do not overlap (each send is one step), and event
      unions without repeats. An emit function exists once its handler has started. */
  ghost predicate Enabled(s: State, e: Event) {
    match e
    case Ask(r) => r.id !in s.requests && NoRepeats(EventClasses(r))
    case Serve => s.toServer != []
    case Emit(id, _) => id in s.requests && (id in s.running || id in s.outcomes)
    case Finish(id, _) => id in s.requests && id in s.running
    case Receive(_) => s.toClient != []
    case Resume(id) => id in s.requests && id in EndedIds(s.ended)
  }

  /** The server's own check decides what is sent. */
  function ReplyTo(r: Request, outcome: Outcome): (reply: Packet)
    ensures reply.Reply? && reply.id == r.id
  {
    if outcome.Returned? && ValidResponse(r, outcome.class_) then Reply(r.id, outcome.class_, outcome.errorShaped)
    else Reply(r.id, FAILURE, true)
  }

  function Entry(pending: seq<Request>, id: Id): Option<Request> {
    if pending == [] then None
    else if pending[0].id == id then Some(pending[0])
    else Entry(pending[1..], id)
  }

  function Receipts(ids: seq<Id>, notice: Packet): seq<Receipt> {
    if ids == [] then [] else [Receipt(ids[0], notice)] + Receipts(ids[1..], notice)
  }

  function Perform(s: State, op: Op): State {
    s.(table := Apply(s.table, op), lives := Track(s.lives, op))
  }

  /** The response branch of the receive loop, once the entry is popped: how its future ends. */
  function Resolve(original: Request, reply: Packet, callbackRaises: bool): Option<Result>
    requires reply.Reply?
  {
    if reply.errorShaped then Some(RequestFailed)
    else if ValidResponse(original, reply.class_) && !callbackRaises then Some(Answered(reply.class_))
    else None
  }

  function Accept(s: State, reply: Packet, callbackRaises: bool): State
    requires reply.Reply?
  {
    match Entry(s.table.pending, reply.id)
    case None => s
    case Some(original) =>
      match Resolve(original, reply, callbackRaises)
      case Some(result) => Perform(s, Answer(reply.id)).(ended := s.ended + [Ending(reply.id, result)])
      case None => Perform(s, Answer(reply.id)).(stuck := s.stuck + [reply.id])
  }

  ghost function Step(s: State, e: Event): State
    requires Enabled(s, e)
  {
    match e
    case Ask(r) => Perform(s, Enter(r)).(requests := s.requests[r.id := r], toServer := s.toServer + [r.id])
    case Serve => s.(running := s.running + {s.toServer[0]}, toServer := s.toServer[1..])
    case Emit(id, c) =>
      if ValidEvent(s.requests[id], c) then
        var n := Notice(c, id, |s.emitted|, id in s.running);
        s.(toClient := s.toClient + [n], emitted := s.emitted + [n])
      else s
    case Finish(id, outcome) =>
      s.(running := s.running - {id}, outcomes := s.outcomes[id := outcome],
         toClient := s.toClient + [ReplyTo(s.requests[id], outcome)])
    case Receive(raising) =>
      var packet, s1 := s.toClient[0], s.(toClient := s.toClient[1..]);
      (match packet
       case Reply(_, _, _) => Accept(s1, packet, raising.Some?)
       case Notice(c, _, _, _) =>
         s1.(received := s.received + Receipts(Called(Receivers(s.table, c), raising), packet)))
    case Resume(id) => Perform(s, Leave(s.requests[id]))
  }

  ghost predicate Run(s: State, events: seq<Event>, s': State)
    decreases |events|
  {
    if events == [] then s == s'
    else Enabled(s, events[0]) && Run(Step(s, events[0]), events[1..], s')
  }

  // ------------------------------------------------------------------ conservation of requests

  function Ids(pending: seq<Request>): seq<Id> {
    if pending == [] then [] else [pending[0].id] + Ids(pending[1..])
  }

  function ReplyIds(packets: seq<Packet>): seq<Id> {
    if packets == [] then []
    else if packets[0].Reply? then [packets[0].id] + ReplyIds(packets[1..])
    else ReplyIds(packets[1..])
  }

  function EndedIds(ended: seq<Ending>): seq<Id> {
    if ended == [] then [] else [ended[0].id] + EndedIds(ended[1..])
  }

  function Occ(ids: seq<Id>, id: Id): nat {
    if ids == [] then 0 else (if ids[0] == id then 1 else 0) + Occ(ids[1..], id)
  }

  function One(b: bool): nat {
    if b then 1 else 0
  }

  /** Asked and not yet answered: on its way, with its handler, or on its way back. */
  function Waiting(s: State, id: Id): nat {
    Occ(s.toServer, id) + One(id in s.running) + Occ(ReplyIds(s.toClient), id)
  }

  /** How often a request is anywhere at all. */
  function Places(s: State, id: Id): nat {
    Waiting(s, id) + Occ(EndedIds(s.ended), id) + Occ(s.stuck, id)
  }

  /** Every request issued is in exactly one place. */
  ghost predicate Conserved(s: State) {
    forall id :: Places(s, id) == One(id in s.requests)
  }

  /** The pending table holds exactly the waiting requests. */
  ghost predicate TableMatches(s: State) {
    && (forall id :: Occ(Ids(s.table.pending), id) == Waiting(s, id))
    && (forall r :: r in s.table.pending ==> r.id in s.requests && s.requests[r.id] == r)
  }

  /** The client's index is coherent, and a request leaves only after it has ended. */
  ghost predicate LivesMatch(s: State) {
    && Refines(s.table, s.lives)
    && forall l :: l in s.lives ==> LifeOk(s, l)
  }

  ghost predicate LifeOk(s: State, l: Life) {
    && l.request.id in s.requests && s.requests[l.request.id] == l.request
    && (!l.inside ==> l.request.id in EndedIds(s.ended))
  }

  ghost predicate RequestsOk(s: State) {
    forall id :: id in s.requests ==> s.requests[id].id == id && NoRepeats(EventClasses(s.requests[id]))
  }

  // Laws of the lists.

  lemma {:induction false} OccAppend(a: seq<Id>, b: seq<Id>, id: Id)
    ensures Occ(a + b, id) == Occ(a, id) + Occ(b, id)
  {
    if a == [] {
      assert a + b == b;
    } else {
      assert (a + b)[1..] == a[1..] + b;
      OccAppend(a[1..], b, id);
    }
  }

  lemma OccAdd(a: seq<Id>, x: Id, id: Id)
    ensures Occ(a + [x], id) == Occ(a, id) + One(x == id)
  {
    OccAppend(a, [x], id);
  }

  lemma {:induction false} OccMember(ids: seq<Id>, id: Id)
    ensures Occ(ids, id) > 0 <==> id in ids
  {
    if ids != [] {
      OccMember(ids[1..], id);
    }
  }

  lemma {:induction false} IdsAppend(pending: seq<Request>, r: Request)
    ensures Ids(pending + [r]) == Ids(pending) + [r.id]
  {
    if pending == [] {
      assert pending + [r] == [r];
    } else {
      assert (pending + [r])[1..] == pending[1..] + [r];
      IdsAppend(pending[1..], r);
    }
  }

  lemma {:induction false} ReplyIdsAppend(packets: seq<Packet>, p: Packet)
    ensures ReplyIds(packets + [p]) == if p.Reply? then ReplyIds(packets) + [p.id] else ReplyIds(packets)
  {
    if packets == [] {
      assert packets + [p] == [p];
    } else {
      assert (packets + [p])[1..] == packets[1..] + [p];
      ReplyIdsAppend(packets[1..], p);
    }
  }

  lemma {:induction false} EndedIdsAppend(ended: seq<Ending>, e: Ending)
    ensures EndedIds(ended + [e]) == EndedIds(ended) + [e.id]
  {
    if ended == [] {
      assert ended + [e] == [e];
    } else {
      assert (ended + [e])[1..] == ended[1..] + [e];
      EndedIdsAppend(ended[1..], e);
    }
  }

  lemma {:induction false} DropOcc(pending: seq<Request>, x: Id, id: Id)
    ensures Occ(Ids(Drop(pending, x)), id) == if id == x then 0 else Occ(Ids(pending), id)
  {
    if pending != [] {
      DropOcc(pending[1..], x, id);
    }
  }

  lemma {:induction false} DropMembers(pending: seq<Request>, x: Id)
    ensures forall r :: r in Drop(pending, x) ==> r in pending
  {
    if pending != [] {
      DropMembers(pending[1..], x);
    }
  }

  lemma {:induction false} EntryFinds(pending: seq<Request>, id: Id)
    ensures Entry(pending, id).Some? <==> Occ(Ids(pending), id) > 0
    ensures Entry(pending, id).Some? <==> Has(pending, id)
    ensures Entry(pending, id).Some? ==> Entry(pending, id).value in pending && Entry(pending, id).value.id == id
  {
    if pending != [] {
      EntryFinds(pending[1..], id);
      assert forall r :: r in pending <==> r == pending[0] || r in pending[1..];
    }
  }

  // ------------------------------------------------------------------ every step conserves

  ghost predicate Inv(s: State) {
    RequestsOk(s) && Conserved(s) && TableMatches(s) && LivesMatch(s)
  }

  lemma AskTable(s: State, r: Request)
    requires Inv(s) && Enabled(s, Ask(r))
    ensures Put(s.table.pending, r) == s.table.pending + [r]
    ensures Ids(s.table.pending + [r]) == Ids(s.table.pending) + [r.id]
  {
    assert Places(s, r.id) == 0;
    EntryFinds(s.table.pending, r.id);
    PutFresh(s.table.pending, r);
    IdsAppend(s.table.pending, r);
  }

  lemma AskLives(s: State, r: Request)
    requires Inv(s) && Enabled(s, Ask(r))
    ensures LivesMatch(Step(s, Ask(r)))
  {
    StepKeeps(s.table, s.lives, Enter(r));
    var s' := Step(s, Ask(r));
    forall l | l in s'.lives ensures LifeOk(s', l) {
      assert l == Life(r, true, true, true) || l in s.lives;
    }
  }

  lemma AskCounts(s: State, r: Request, id: Id)
    requires Inv(s) && Enabled(s, Ask(r))
    ensures var s' := Step(s, Ask(r));
            Places(s', id) == One(id in s'.requests) && Occ(Ids(s'.table.pending), id) == Waiting(s', id)
  {
    AskTable(s, r);
    assert Places(s, id) == One(id in s.requests);
    OccAdd(s.toServer, r.id, id);
    OccAdd(Ids(s.table.pending), r.id, id);
  }

  lemma AskConserves(s: State, r: Request)
    requires Inv(s) && Enabled(s, Ask(r))
    ensures Inv(Step(s, Ask(r)))
  {
    var s' := Step(s, Ask(r));
    AskTable(s, r);
    AskLives(s, r);
    forall id
      ensures Places(s', id) == One(id in s'.requests)
      ensures Occ(Ids(s'.table.pending), id) == Waiting(s', id)
    {
      AskCounts(s, r, id);
    }
  }

  lemma ServeConserves(s: State)
    requires Inv(s) && Enabled(s, Serve)
    ensures Inv(Step(s, Serve))
  {
    var s' := Step(s, Serve);
    var x := s.toServer[0];
    assert Places(s, x) <= 1;
    forall id
      ensures Places(s', id) == One(id in s'.requests)
      ensures Occ(Ids(s'.table.pending), id) == Waiting(s', id)
    {
      assert Places(s, id) == One(id in s.requests);
    }
    assert forall l :: l in s.lives ==> LifeOk(s, l) ==> LifeOk(s', l);
  }

  lemma FinishConserves(s: State, x: Id, outcome: Outcome)
    requires Inv(s) && Enabled(s, Finish(x, outcome))
    ensures Inv(Step(s, Finish(x, outcome)))
  {
    var s' := Step(s, Finish(x, outcome));
    ReplyIdsAppend(s.toClient, ReplyTo(s.requests[x], outcome));
    forall id
      ensures Places(s', id) == One(id in s'.requests)
      ensures Occ(Ids(s'.table.pending), id) == Waiting(s', id)
    {
      assert Places(s, id) == One(id in s.requests);
      OccAdd(ReplyIds(s.toClient), x, id);
    }
    assert forall l :: l in s.lives ==> LifeOk(s, l) ==> LifeOk(s', l);
  }

  lemma EmitConserves(s: State, x: Id, c: Class)
    requires Inv(s) && Enabled(s, Emit(x, c))
    ensures Inv(Step(s, Emit(x, c)))
  {
    var s' := Step(s, Emit(x, c));
    ReplyIdsAppend(s.toClient, Notice(c, x, |s.emitted|, x in s.running));
    forall id
      ensures Places(s', id) == One(id in s'.requests)
      ensures Occ(Ids(s'.table.pending), id) == Waiting(s', id)
    {
      assert Places(s, id) == One(id in s.requests);
    }
    assert forall l :: l in s.lives ==> LifeOk(s, l) ==> LifeOk(s', l);
  }

  /** What processing a reply changes: one entry leaves the table, one reply leaves the wire,
      and the request ends or is stuck. */
  ghost predicate ReplyMoves(s: State, s': State) {
    && s.toClient != [] && s.toClient[0].Reply? && s'.toClient == s.toClient[1..]
    && s'.requests == s.requests && s'.outcomes == s.outcomes
    && s'.toServer == s.toServer && s'.running == s.running
    && s'.emitted == s.emitted && s'.received == s.received
    && s'.table == Apply(s.table, Answer(s.toClient[0].id)) && s'.lives == Track(s.lives, Answer(s.toClient[0].id))
    && ((EndsWith(s, s') && s'.stuck == s.stuck) || (s'.stuck == s.stuck + [s.toClient[0].id] && s'.ended == s.ended))
  }

  ghost predicate EndsWith(s: State, s': State)
    requires s.toClient != [] && s.toClient[0].Reply?
  {
    var reply := s.toClient[0];
    && s'.ended == s.ended + [Ending(reply.id, if reply.errorShaped then RequestFailed else Answered(reply.class_))]
    && (reply.errorShaped || (reply.id in s.requests && ValidResponse(s.requests[reply.id], reply.class_)))
  }

  ghost predicate NoticeMoves(s: State, s': State, raising: Option<nat>) {
    && s.toClient != [] && s.toClient[0].Notice? && s'.toClient == s.toClient[1..]
    && s'.received == s.received + Receipts(Called(Receivers(s.table, s.toClient[0].class_), raising), s.toClient[0])
    && s'.requests == s.requests && s'.outcomes == s.outcomes
    && s'.toServer == s.toServer && s'.running == s.running
    && s'.emitted == s.emitted && s'.table == s.table && s'.lives == s.lives
    && s'.ended == s.ended && s'.stuck == s.stuck
  }

  /** A reply always finds its own request in the table. */
  lemma ReplyFindsItsRequest(s: State)
    requires Conserved(s) && TableMatches(s) && s.toClient != [] && s.toClient[0].Reply?
    ensures var id := s.toClient[0].id;
            id in s.requests && Entry(s.table.pending, id) == Some(s.requests[id])
  {
    var id := s.toClient[0].id;
    assert Places(s, id) == One(id in s.requests);
    assert Occ(Ids(s.table.pending), id) == Waiting(s, id);
    EntryFinds(s.table.pending, id);
  }

  lemma AcceptMoves(s: State, raises: bool)
    requires s.toClient != [] && s.toClient[0].Reply?
    requires var entry := Entry(s.table.pending, s.toClient[0].id);
             entry.Some? && s.toClient[0].id in s.requests && entry.value == s.requests[s.toClient[0].id]
    ensures ReplyMoves(s, Accept(s.(toClient := s.toClient[1..]), s.toClient[0], raises))
  {
  }

  lemma ReceiveMoves(s: State, raising: Option<nat>)
    requires Conserved(s) && TableMatches(s) && Enabled(s, Receive(raising))
    ensures var s' := Step(s, Receive(raising)); ReplyMoves(s, s') || NoticeMoves(s, s', raising)
  {
    if s.toClient[0].Reply? {
      ReplyFindsItsRequest(s);
      AcceptMoves(s, raising.Some?);
    }
  }

  lemma NoticeConserves(s: State, s': State, raising: Option<nat>)
    requires Inv(s) && NoticeMoves(s, s', raising)
    ensures Inv(s')
  {
    forall id
      ensures Places(s', id) == One(id in s'.requests)
      ensures Occ(Ids(s'.table.pending), id) == Waiting(s', id)
    {
      assert Places(s, id) == One(id in s.requests);
    }
    assert forall l :: l in s.lives ==> LifeOk(s, l) ==> LifeOk(s', l);
  }

  lemma LifeStays(s: State, s': State, id: Id, leave: bool)
    requires LivesMatch(s) && Refines(s'.table, s'.lives)
    requires s'.lives == Update(s.lives, id, leave) && s'.requests == s.requests
    requires forall k :: k in EndedIds(s.ended) ==> k in EndedIds(s'.ended)
    requires leave ==> id in EndedIds(s'.ended)
    ensures LivesMatch(s')
  {
    UpdateShape(s.lives, id, leave);
    forall l | l in s'.lives ensures LifeOk(s', l) {
      var i :| 0 <= i < |s'.lives| && s'.lives[i] == l;
      assert LifeOk(s, s.lives[i]);
    }
  }

  lemma ReplyLives(s: State, s': State)
    requires LivesMatch(s) && ReplyMoves(s, s')
    ensures LivesMatch(s')
  {
    var id := s.toClient[0].id;
    StepKeeps(s.table, s.lives, Answer(id));
    if s'.ended != s.ended {
      EndedIdsAppend(s.ended, s'.ended[|s.ended|]);
    }
    LifeStays(s, s', id, false);
  }

  lemma ReplyCounts(s: State, s': State, id: Id)
    requires Conserved(s) && TableMatches(s) && ReplyMoves(s, s')
    ensures Places(s', id) == One(id in s'.requests) && Occ(Ids(s'.table.pending), id) == Waiting(s', id)
  {
    var x := s.toClient[0].id;
    assert Places(s, x) == One(x in s.requests);
    assert Places(s, id) == One(id in s.requests);
    assert Occ(Ids(s.table.pending), id) == Waiting(s, id);
    DropOcc(s.table.pending, x, id);
    if s'.ended != s.ended {
      EndedIdsAppend(s.ended, s'.ended[|s.ended|]);
      OccAdd(EndedIds(s.ended), x, id);
    } else {
      OccAdd(s.stuck, x, id);
    }
  }

  lemma ReplyConserves(s: State, s': State)
    requires Inv(s) && ReplyMoves(s, s')
    ensures Inv(s')
  {
    ReplyLives(s, s');
    DropMembers(s.table.pending, s.toClient[0].id);
    forall id
      ensures Places(s', id) == One(id in s'.requests)
      ensures Occ(Ids(s'.table.pending), id) == Waiting(s', id)
    {
      ReplyCounts(s, s', id);
    }
  }

  lemma ResumeConserves(s: State, x: Id)
    requires Inv(s) && Enabled(s, Resume(x))
    ensures Inv(Step(s, Resume(x)))
  {
    var s' := Step(s, Resume(x));
    StepKeeps(s.table, s.lives, Leave(s.requests[x]));
    LifeStays(s, s', x, true);
    forall id
      ensures Places(s', id) == One(id in s'.requests)
      ensures Occ(Ids(s'.table.pending), id) == Waiting(s', id)
    {
      assert Places(s, id) == One(id in s.requests);
    }
  }

  lemma StepConserves(s: State, e: Event)
    requires Inv(s) && Enabled(s, e)
    ensures Inv(Step(s, e))
  {
    match e
    case Ask(r) => AskConserves(s, r);
    case Serve => ServeConserves(s);
    case Emit(id, c) => EmitConserves(s, id, c);
    case Finish(id, outcome) => FinishConserves(s, id, outcome);
    case Receive(raising) =>
      ReceiveMoves(s, raising);
      if s.toClient[0].Reply? {
        ReplyConserves(s, Step(s, e));
      } else {
        NoticeConserves(s, Step(s, e), raising);
      }
    case Resume(id) => ResumeConserves(s, id);
  }

  // ------------------------------------------------------------------ the outcome of every request

  /** What the caller of `request` must see, given how the handler ended. */
  function Expected(r: Request, outcome: Outcome): Result {
    if outcome.Returned? && ValidResponse(r, outcome.class_) && !outcome.errorShaped then Answered(outcome.class_)
    else RequestFailed
  }

  ghost predicate ReplyOk(s: State, p: Packet) {
    p.Reply? ==> p.id in s.requests && p.id in s.outcomes && p == ReplyTo(s.requests[p.id], s.outcomes[p.id])
  }

  ghost predicate EndingOk(s: State, e: Ending) {
    e.id in s.requests && e.id in s.outcomes && e.result == Expected(s.requests[e.id], s.outcomes[e.id])
  }

  ghost predicate OutcomesOk(s: State) {
    && (forall id :: id in s.outcomes ==> id in s.requests && id !in s.running && id !in s.toServer)
    && (forall p :: p in s.toClient ==> ReplyOk(s, p))
    && (forall e :: e in s.ended ==> EndingOk(s, e))
  }

  lemma StepKeepsOutcomes(s: State, e: Event)
    requires Inv(s) && OutcomesOk(s) && Enabled(s, e)
    ensures OutcomesOk(Step(s, e))
  {
    match e
    case Ask(r) => KeepOutcomes(s, Step(s, e));
    case Serve => ServeOutcomes(s);
    case Emit(id, c) => KeepOutcomes(s, Step(s, e));
    case Finish(id, outcome) => FinishOutcomes(s, id, outcome);
    case Receive(raising) =>
      ReceiveMoves(s, raising);
      if s.toClient[0].Reply? {
        ReplyOutcomes(s, Step(s, e));
      } else {
        KeepOutcomes(s, Step(s, e));
      }
    case Resume(id) => KeepOutcomes(s, Step(s, e));
  }

  lemma ServeOutcomes(s: State)
    requires Inv(s) && OutcomesOk(s) && Enabled(s, Serve)
    ensures OutcomesOk(Step(s, Serve))
  {
    var s' := Step(s, Serve);
    assert Places(s, s.toServer[0]) <= 1;
    OccMember(s'.toServer, s.toServer[0]);
    KeepOutcomes(s, s');
  }

  lemma KeepOutcomes(s: State, s': State)
    requires OutcomesOk(s) && s'.outcomes == s.outcomes && s'.ended == s.ended
    requires forall id :: id in s.requests ==> id in s'.requests && s'.requests[id] == s.requests[id]
    requires forall id :: id in s'.running ==> id in s.running || id in s.toServer
    requires forall id :: id in s'.toServer ==> id in s.toServer || id !in s.requests
    requires forall p :: p in s'.toClient ==> p in s.toClient || p.Notice?
    ensures OutcomesOk(s')
  {
    forall p | p in s'.toClient ensures ReplyOk(s', p) {
      assert p in s.toClient ==> ReplyOk(s, p);
    }
    forall e | e in s'.ended ensures EndingOk(s', e) {
      assert EndingOk(s, e);
    }
  }

  lemma FinishOutcomes(s: State, x: Id, outcome: Outcome)
    requires Inv(s) && OutcomesOk(s) && Enabled(s, Finish(x, outcome))
    ensures OutcomesOk(Step(s, Finish(x, outcome)))
  {
    var s' := Step(s, Finish(x, outcome));
    assert Places(s, x) <= 1;
    OccMember(s.toServer, x);
    forall p | p in s'.toClient ensures ReplyOk(s', p) {
      assert p in s.toClient ==> ReplyOk(s, p);
    }
    forall e | e in s'.ended ensures EndingOk(s', e) {
      assert EndingOk(s, e);
    }
  }

  lemma ReplyOutcomes(s: State, s': State)
    requires OutcomesOk(s) && ReplyMoves(s, s')
    ensures OutcomesOk(s')
  {
    assert ReplyOk(s, s.toClient[0]);
    forall p | p in s'.toClient ensures ReplyOk(s', p) {
      assert ReplyOk(s, p);
    }
    forall e | e in s'.ended ensures EndingOk(s', e) {
      assert e in s.ended ==> EndingOk(s, e);
    }
  }

  /** The second type check, on the client, never rejects what the server let through: only a
      raising callback can leave a popped request unresolved. */
  lemma ClientCheckNeverFails(s: State)
    requires Inv(s) && OutcomesOk(s)
    requires s.toClient != [] && s.toClient[0].Reply?
    ensures var reply := s.toClient[0];
            && Entry(s.table.pending, reply.id).Some?
            && Resolve(Entry(s.table.pending, reply.id).value, reply, false).Some?
  {
    ReplyFindsItsRequest(s);
    assert ReplyOk(s, s.toClient[0]);
  }

  lemma {:induction false} RunKeeps(s: State, events: seq<Event>, s': State)
    requires Inv(s) && OutcomesOk(s) && Run(s, events, s')
    ensures Inv(s') && OutcomesOk(s')
    decreases |events|
  {
    if events != [] {
      StepConserves(s, events[0]);
      StepKeepsOutcomes(s, events[0]);
      RunKeeps(Step(s, events[0]), events[1..], s');
    }
  }

  lemma StartInv()
    ensures Inv(START) && OutcomesOk(START)
  {
  }

  /** End to end, over every run: a request ends at most once, and only with the outcome its
      handler earned, which is a result exactly when the handler returned a plain response of
      the declared type. */
  lemma RequestsEndAsEarned(events: seq<Event>, s: State, id: Id)
    requires Run(START, events, s)
    ensures Occ(EndedIds(s.ended), id) <= 1
    ensures forall e :: e in s.ended ==>
              && e.id in s.requests && e.id in s.outcomes
              && e.result == Expected(s.requests[e.id], s.outcomes[e.id])
  {
    StartInv();
    RunKeeps(START, events, s);
    assert Places(s, id) <= 1;
    forall e | e in s.ended ensures EndingOk(s, e) {
    }
  }

  /** This step pops the entry of `id` and its response callback raises. */
  ghost predicate RaisesOn(s: State, e: Event, id: Id)
    requires Enabled(s, e)
  {
    e.Receive? && e.raising.Some? && s.toClient[0].Reply? && s.toClient[0].id == id && !s.toClient[0].errorShaped
  }

  ghost predicate RaisedOn(s: State, events: seq<Event>, id: Id)
    decreases |events|
  {
    events != [] && Enabled(s, events[0]) && (RaisesOn(s, events[0], id) || RaisedOn(Step(s, events[0]), events[1..], id))
  }

  lemma AcceptSticks(s: State, raises: bool, id: Id)
    requires s.toClient != [] && s.toClient[0].Reply?
    requires var entry := Entry(s.table.pending, s.toClient[0].id);
             entry.Some? && Resolve(entry.value, s.toClient[0], false).Some?
    ensures id in Accept(s.(toClient := s.toClient[1..]), s.toClient[0], raises).stuck <==>
              id in s.stuck || (raises && s.toClient[0].id == id && !s.toClient[0].errorShaped)
  {
  }

  lemma StepSticks(s: State, e: Event, id: Id)
    requires Inv(s) && OutcomesOk(s) && Enabled(s, e)
    ensures id in Step(s, e).stuck <==> id in s.stuck || RaisesOn(s, e, id)
  {
    if e.Receive? && s.toClient[0].Reply? {
      ClientCheckNeverFails(s);
      AcceptSticks(s, e.raising.Some?, id);
    }
  }

  /** Over every run: a request is left without an answer exactly when its own response callback
      raised. */
  lemma {:induction false} StuckIffCallbackRaised(s: State, events: seq<Event>, s': State, id: Id)
    requires Inv(s) && OutcomesOk(s) && Run(s, events, s')
    ensures id in s'.stuck <==> id in s.stuck || RaisedOn(s, events, id)
    decreases |events|
  {
    if events != [] {
      StepSticks(s, events[0], id);
      StepConserves(s, events[0]);
      StepKeepsOutcomes(s, events[0]);
      StuckIffCallbackRaised(Step(s, events[0]), events[1..], s', id);
    }
  }

  /** Once the wires are empty and no handler is running, every request issued has ended exactly
      once, unless its own response callback raised; and nothing else has ended. */
  lemma EveryRequestEndsExactlyOnce(events: seq<Event>, s: State, id: Id)
    requires Run(START, events, s)
    requires s.toServer == [] && s.running == {} && s.toClient == []
    ensures Occ(EndedIds(s.ended), id) == One(id in s.requests && !RaisedOn(START, events, id))
  {
    StartInv();
    RunKeeps(START, events, s);
    StuckIffCallbackRaised(START, events, s, id);
    assert Places(s, id) == One(id in s.requests);
    OccMember(s.stuck, id);
  }
}

/** The ports that a running process was started with: when a completed rebind round reaches it,
    and when it keeps the old ones. The machine of `Shutdown`, with the publication of a round's
    ports, which comes before its signal, and a record of what happened when. */
module Renewal {
  import opened Prelude
  import opened Shutdown

  // ------------------------------------------------------------------ history

  /** When each run's command was last rendered, when each waiter joined its set, and when the ports
      of a name were last published and last signalled. */
  datatype History = History(
    status: Status,
    now: nat,
    rendered: map<Id, nat>,
    joined: map<FutureId, nat>,
    published: map<Name, nat>,
    signalled: map<Name, nat>)

  /** `Publishes` puts a round's new ports into the context. */
  datatype Moment = Publishes(name: Name) | Does(e: Event)

  const BEGINNING: History := History(IDLE, 0, map[], map[], map[], map[])

  /** A request renders its command before it spawns. */
  predicate CanHappen(h: History, m: Moment) {
    m.Does? ==>
      && Enabled(h.status, m.e)
      && (m.e.RunReady? ==> m.e.run !in h.rendered)
      && (m.e.Spawned? ==> m.e.run in h.rendered)
  }

  function Happen(h: History, m: Moment): History
    requires CanHappen(h, m)
  {
    History(
      if m.Does? then Step(h.status, m.e) else h.status,
      h.now + 1,
      if m.Does? && (m.e.RunReady? || m.e.Restarts?) then h.rendered[m.e.run := h.now] else h.rendered,
      if m.Does? && m.e.Announced? then h.joined[m.e.future := h.now] else h.joined,
      if m.Publishes? then h.published[m.name := h.now] else h.published,
      if m.Does? && m.e.Rebound? then h.signalled[m.e.name := h.now] else h.signalled)
  }

  ghost predicate Happens(h: History, moments: seq<Moment>, h': History)
    decreases |moments|
  {
    if moments == [] then h == h'
    else CanHappen(h, moments[0]) && Happens(Happen(h, moments[0]), moments[1..], h')
  }

  // ------------------------------------------------------------------ who has been signalled

  predicate HasWaiter(s: Status, r: Id) {
    In(s, r) && WaiterOf(s.gate.runs[r].phase).Some?
  }

  function Waiter(s: Status, r: Id): FutureId
    requires HasWaiter(s, r)
  {
    WaiterOf(s.gate.runs[r].phase).value
  }

  /** The run's waiter is in the set that its tunnel's next signal will go to. */
  predicate InCurrentSet(s: Status, r: Id)
    requires HasWaiter(s, r)
  {
    var name, f := s.gate.runs[r].name, Waiter(s, r);
    name in s.signals.waiters && f in s.signals.futures && s.signals.futures[f].home == s.signals.waiters[name]
  }

  predicate InItsSet(g: Signals, f: FutureId) {
    f in g.futures && g.futures[f].home in g.sets && f in g.sets[g.futures[f].home]
  }

  predicate SignalledSince(h: History, name: Name, f: FutureId)
    requires f in h.joined
  {
    name in h.signalled && h.joined[f] < h.signalled[name]
  }

  predicate RunOk(h: History, r: Id)
    requires HasWaiter(h.status, r)
  {
    var name, f := h.status.gate.runs[r].name, Waiter(h.status, r);
    && InItsSet(h.status.signals, f) && f in h.joined && h.joined[f] < h.now
    && r in h.rendered && h.rendered[r] < h.joined[f]
    && (InCurrentSet(h.status, r) ==> (Signalled(h.status.signals, Some(f)) <==> SignalledSince(h, name, f)))
  }

  ghost predicate WaitersApart(s: Status) {
    forall r, r' :: HasWaiter(s, r) && HasWaiter(s, r') && r != r' ==> Waiter(s, r) != Waiter(s, r')
  }

  ghost predicate RenderedInv(h: History) {
    && (forall r :: r in h.rendered ==> h.rendered[r] < h.now && r < h.status.gate.nextRun)
    && (forall r :: r in h.status.gate.runs && !h.status.gate.runs[r].phase.Preparing? ==> r in h.rendered)
    && RoundsRecorded(h.now, h.published, h.signalled)
  }

  ghost predicate HistoryInv(h: History) {
    && SignalsInv(h.status.signals) && WaitersOk(h.status.gate, h.status.signals)
    && WaitersApart(h.status) && RenderedInv(h)
    && forall r :: HasWaiter(h.status, r) ==> RunOk(h, r)
  }

  lemma StepStartsNone(s: Status, e: Event, r: Id)
    requires Enabled(s, e)
    ensures s.gate.nextRun <= Step(s, e).gate.nextRun
    ensures In(Step(s, e), r) && !Step(s, e).gate.runs[r].phase.Preparing? ==>
              In(s, r) && (!s.gate.runs[r].phase.Preparing? || (e.Spawned? && e.run == r))
  {
  }

  lemma HappenRenders(h: History, m: Moment, r: Id)
    requires CanHappen(h, m) && r in Happen(h, m).rendered && WaitersOk(h.status.gate, h.status.signals)
    requires r in h.rendered ==> h.rendered[r] < h.now && r < h.status.gate.nextRun
    ensures Happen(h, m).rendered[r] < Happen(h, m).now && r < h.status.gate.nextRun
  {
  }

  /** The record of the rounds of a name. */
  ghost predicate RoundsRecorded(now: nat, published: map<Name, nat>, signalled: map<Name, nat>) {
    && (forall n :: n in signalled ==> signalled[n] < now)
    && (forall n :: n in published ==> published[n] < now && (n in signalled ==> published[n] != signalled[n]))
  }

  lemma RoundsStayRecorded(now: nat, published: map<Name, nat>, signalled: map<Name, nat>, name: Name)
    requires RoundsRecorded(now, published, signalled)
    ensures RoundsRecorded(now + 1, published, signalled)
    ensures RoundsRecorded(now + 1, published[name := now], signalled)
    ensures RoundsRecorded(now + 1, published, signalled[name := now])
  {
  }

  lemma HappenKeepsRounds(h: History, m: Moment)
    requires RoundsRecorded(h.now, h.published, h.signalled) && CanHappen(h, m)
    ensures var h' := Happen(h, m); RoundsRecorded(h'.now, h'.published, h'.signalled)
  {
    if m.Publishes? {
      RoundsStayRecorded(h.now, h.published, h.signalled, m.name);
    } else if m.e.Rebound? {
      RoundsStayRecorded(h.now, h.published, h.signalled, m.e.name);
    }
  }

  lemma HappenKeepsRendered(h: History, m: Moment)
    requires RenderedInv(h) && CanHappen(h, m) && WaitersOk(h.status.gate, h.status.signals)
    ensures RenderedInv(Happen(h, m))
  {
    var h' := Happen(h, m);
    HappenKeepsRounds(h, m);
    forall r | r in h'.rendered ensures h'.rendered[r] < h'.now && r < h'.status.gate.nextRun {
      HappenRenders(h, m, r);
      if m.Does? { StepStartsNone(h.status, m.e, r); }
    }
    forall r | r in h'.status.gate.runs && !h'.status.gate.runs[r].phase.Preparing? ensures r in h'.rendered {
      if m.Does? { StepStartsNone(h.status, m.e, r); }
    }
  }

  /** A run that has a waiter has just announced itself, or had that waiter before. */
  lemma WaiterOrigin(s: Status, e: Event, r: Id)
    requires Enabled(s, e) && HasWaiter(Step(s, e), r)
    ensures || (e.Announced? && e.run == r && Waiter(Step(s, e), r) == e.future)
            || (HasWaiter(s, r) && Waiter(Step(s, e), r) == Waiter(s, r) && s.gate.runs[r].name == Step(s, e).gate.runs[r].name
                && !(e.Announced? && e.run == r) && !(e.Restarts? && e.run == r))
  {
  }

  lemma StepKeepsApart(s: Status, e: Event)
    requires Enabled(s, e) && WaitersApart(s) && forall r :: HasWaiter(s, r) ==> Waiter(s, r) in s.signals.futures
    ensures WaitersApart(Step(s, e))
  {
    forall r, r' | HasWaiter(Step(s, e), r) && HasWaiter(Step(s, e), r') && r != r'
      ensures Waiter(Step(s, e), r) != Waiter(Step(s, e), r')
    {
      WaiterOrigin(s, e, r);
      WaiterOrigin(s, e, r');
    }
  }

  lemma AnnouncedOk(h: History, r: Id, f: FutureId)
    requires HistoryInv(h) && CanHappen(h, Does(Announced(r, f))) && HasWaiter(Step(h.status, Announced(r, f)), r)
    ensures RunOk(Happen(h, Does(Announced(r, f))), r)
  {
    var h' := Happen(h, Does(Announced(r, f)));
    var name := h.status.gate.runs[r].name;
    assert name in h.status.signals.waiters && h.status.signals.waiters[name] in h.status.signals.sets;
    assert h'.status.signals == Join(h.status.signals, name, f);
  }

  /** What a step does to a waiter that stays with its run. */
  lemma StepKeepsItsSet(s: Status, e: Event, r: Id)
    requires Enabled(s, e) && SignalsInv(s.signals) && WaitersApart(s)
    requires HasWaiter(s, r) && HasWaiter(Step(s, e), r) && Waiter(Step(s, e), r) == Waiter(s, r)
    requires s.gate.runs[r].name == Step(s, e).gate.runs[r].name
    requires InItsSet(s.signals, Waiter(s, r)) && !(e.Announced? && e.future == Waiter(s, r))
    ensures InItsSet(Step(s, e).signals, Waiter(s, r))
    ensures InCurrentSet(Step(s, e), r) ==> InCurrentSet(s, r)
  {
    var f := Waiter(s, r);
    match e
    case RunFail(q) => assert q == r || !HasWaiter(s, q) || Waiter(s, q) != f;
    case Wakes(q) => assert q == r || !HasWaiter(s, q) || Waiter(s, q) != f;
    case Restarts(q) => assert q == r || !HasWaiter(s, q) || Waiter(s, q) != f;
    case _ =>
  }

  lemma StepSignalsWaiter(s: Status, e: Event, r: Id)
    requires Enabled(s, e) && SignalsInv(s.signals) && WaitersApart(s)
    requires HasWaiter(s, r) && HasWaiter(Step(s, e), r) && Waiter(Step(s, e), r) == Waiter(s, r)
    requires s.gate.runs[r].name == Step(s, e).gate.runs[r].name
    requires InItsSet(s.signals, Waiter(s, r)) && !(e.Announced? && e.future == Waiter(s, r))
    ensures var f := Waiter(s, r);
      Signalled(Step(s, e).signals, Some(f)) <==>
        Signalled(s.signals, Some(f))
        || (e.Rebound? && e.name in s.signals.waiters && s.signals.futures[f].home == s.signals.waiters[e.name])
  {
    var f := Waiter(s, r);
    match e
    case RunFail(q) => assert q == r || !HasWaiter(s, q) || Waiter(s, q) != f;
    case Wakes(q) => assert q == r || !HasWaiter(s, q) || Waiter(s, q) != f;
    case Restarts(q) => assert q == r || !HasWaiter(s, q) || Waiter(s, q) != f;
    case _ =>
  }

  /** What is on record of a run that keeps its waiter. */
  lemma HappenKeepsRecord(h: History, e: Event, r: Id)
    requires CanHappen(h, Does(e)) && HasWaiter(h.status, r) && Waiter(h.status, r) in h.status.signals.futures
    requires !(e.Restarts? && e.run == r)
    ensures var h', f := Happen(h, Does(e)), Waiter(h.status, r);
      && (r in h.rendered ==> r in h'.rendered && h'.rendered[r] == h.rendered[r])
      && (f in h.joined ==> f in h'.joined && h'.joined[f] == h.joined[f])
      && h'.now == h.now + 1 && h'.status == Step(h.status, e)
      && h'.signalled == if e.Rebound? then h.signalled[e.name := h.now] else h.signalled
  {
  }

  lemma HappenKeepsRun(h: History, e: Event, r: Id)
    requires HistoryInv(h) && CanHappen(h, Does(e)) && HasWaiter(h.status, r) && HasWaiter(Step(h.status, e), r)
    requires Waiter(Step(h.status, e), r) == Waiter(h.status, r)
    requires h.status.gate.runs[r].name == Step(h.status, e).gate.runs[r].name && !(e.Restarts? && e.run == r)
    ensures RunOk(Happen(h, Does(e)), r)
  {
    assert RunOk(h, r);
    var name, f := h.status.gate.runs[r].name, Waiter(h.status, r);
    HappenKeepsRecord(h, e, r);
    StepKeepsItsSet(h.status, e, r);
    StepSignalsWaiter(h.status, e, r);
    assert WaiterOk(h.status.signals, name, f);
    assert e.Rebound? && InCurrentSet(h.status, r) && e.name in h.status.signals.waiters ==>
             (h.status.signals.futures[f].home == h.status.signals.waiters[e.name] <==> e.name == name);
  }

  lemma HappenKeepsRuns(h: History, m: Moment, r: Id)
    requires HistoryInv(h) && CanHappen(h, m) && HasWaiter(Happen(h, m).status, r)
    ensures RunOk(Happen(h, m), r)
  {
    if m.Publishes? {
      assert RunOk(h, r);
    } else {
      WaiterOrigin(h.status, m.e, r);
      if m.e.Announced? && m.e.run == r {
        AnnouncedOk(h, r, m.e.future);
      } else {
        HappenKeepsRun(h, m.e, r);
      }
    }
  }

  lemma HappenKeeps(h: History, m: Moment)
    requires HistoryInv(h) && CanHappen(h, m)
    ensures HistoryInv(Happen(h, m))
  {
    if m.Does? {
      StepKeepsSignals(h.status, m.e);
      StepKeepsWaiters(h.status, m.e);
      forall r | HasWaiter(h.status, r) ensures Waiter(h.status, r) in h.status.signals.futures {
        assert RunOk(h, r);
      }
      StepKeepsApart(h.status, m.e);
    }
    HappenKeepsRendered(h, m);
    forall r | HasWaiter(Happen(h, m).status, r) ensures RunOk(Happen(h, m), r) {
      HappenKeepsRuns(h, m, r);
    }
  }

  lemma {:induction false} HappensKeeps(h: History, moments: seq<Moment>, h': History)
    requires HistoryInv(h) && Happens(h, moments, h')
    ensures HistoryInv(h')
    decreases |moments|
  {
    if moments != [] {
      HappenKeeps(h, moments[0]);
      HappensKeeps(Happen(h, moments[0]), moments[1..], h');
    }
  }

  // ------------------------------------------------------------------ who keeps the old ports

  /** The process runs with ports older than the published ones, and nobody has told its run. */
  predicate KeepsOldPorts(h: History, r: Id)
    requires HasWaiter(h.status, r)
  {
    && h.status.gate.runs[r].name in h.published && r in h.rendered
    && h.rendered[r] < h.published[h.status.gate.runs[r].name]
    && !Signalled(h.status.signals, Some(Waiter(h.status, r)))
  }

  /** Over every run: once a round is complete, its ports published and its signal out, a waiting
      run whose tunnel has not been cut off keeps old ports exactly when the whole of that, from
      the publication to the signal, fell between the rendering of its command and the moment it
      joined the waiters. Every other run has the new ports or is about to be restarted. */
  lemma OldPortsKeptIffRoundMissed(moments: seq<Moment>, h: History, r: Id)
    requires Happens(BEGINNING, moments, h) && HasWaiter(h.status, r) && InCurrentSet(h.status, r)
    requires var name := h.status.gate.runs[r].name;
      name in h.published && name in h.signalled && h.published[name] < h.signalled[name]
    ensures r in h.rendered && Waiter(h.status, r) in h.joined
    ensures var name := h.status.gate.runs[r].name;
      KeepsOldPorts(h, r) <==> h.rendered[r] < h.published[name] && h.signalled[name] <= h.joined[Waiter(h.status, r)]
  {
    HappensKeeps(BEGINNING, moments, h);
    assert RunOk(h, r);
  }

  lemma SignalledNow(h: History, name: Name, r: Id)
    requires HasWaiter(h.status, r) && h.status.gate.runs[r].name == name && Waiter(h.status, r) in h.joined
    requires h.joined[Waiter(h.status, r)] < h.now
    requires var h' := Happen(h, Does(Rebound(name))); HasWaiter(h'.status, r) && RunOk(h', r) && InCurrentSet(h'.status, r)
    ensures !KeepsOldPorts(Happen(h, Does(Rebound(name))), r)
  {
    assert SignalledSince(Happen(h, Does(Rebound(name))), name, Waiter(h.status, r));
  }

  /** So right after the signal no waiting run keeps old ports. */
  lemma SignalReachesAllWaiting(moments: seq<Moment>, h: History, name: Name, r: Id)
    requires Happens(BEGINNING, moments, h)
    requires var s' := Step(h.status, Rebound(name)); HasWaiter(s', r) && s'.gate.runs[r].name == name && InCurrentSet(s', r)
    ensures !KeepsOldPorts(Happen(h, Does(Rebound(name))), r)
  {
    HappensKeeps(BEGINNING, moments, h);
    HappenKeepsRuns(h, Does(Rebound(name)), r);
    assert RunOk(h, r);
    SignalledNow(h, name, r);
  }

  lemma {:induction false} HappensMore(h: History, moments: seq<Moment>, h': History, m: Moment)
    requires Happens(h, moments, h') && CanHappen(h', m)
    ensures Happens(h, moments + [m], Happen(h', m))
    decreases |moments|
  {
    if moments == [] {
      assert Happens(Happen(h', m), [], Happen(h', m)) && [m][1..] == [];
    } else {
      HappensMore(Happen(h, moments[0]), moments[1..], h', m);
      assert (moments + [m])[1..] == moments[1..] + [m];
    }
  }

  /** A request renders, and the ports are renewed. */
  lemma RenderedTooEarly(name: Name) returns (moments: seq<Moment>, h: History)
    ensures Happens(BEGINNING, moments, h) && In(h.status, 0) && h.status.gate.runs[0] == Run(name, Preparing, 1)
    ensures name in h.status.signals.waiters && h.status.signals.waiters[name] in h.status.signals.sets
    ensures name in h.status.tables.processes && h.status.tables.spawned == map[] && h.status.signals.futures == map[]
    ensures 0 in h.rendered && name in h.published && name in h.signalled
    ensures h.rendered[0] < h.published[name] < h.signalled[name] < h.now
  {
    var h1 := Happen(BEGINNING, Does(SetupBegins(name)));
    HappensMore(BEGINNING, [], BEGINNING, Does(SetupBegins(name)));
    moments := [] + [Does(SetupBegins(name))];
    var h2 := Happen(h1, Does(RunStart(name)));
    HappensMore(BEGINNING, moments, h1, Does(RunStart(name)));
    moments := moments + [Does(RunStart(name))];
    var h3 := Happen(h2, Does(RunReady(0)));
    HappensMore(BEGINNING, moments, h2, Does(RunReady(0)));
    moments := moments + [Does(RunReady(0))];
    var h4 := Happen(h3, Publishes(name));
    HappensMore(BEGINNING, moments, h3, Publishes(name));
    moments := moments + [Publishes(name)];
    h := Happen(h4, Does(Rebound(name)));
    HappensMore(BEGINNING, moments, h4, Does(Rebound(name)));
    moments := moments + [Does(Rebound(name))];
  }

  /** And the exception is real: then the process is spawned, and joins the waiters. */
  lemma RoundMissed(name: Name, pid: Pid) returns (moments: seq<Moment>, h: History)
    ensures Happens(BEGINNING, moments, h) && HasWaiter(h.status, 0) && InCurrentSet(h.status, 0)
    ensures h.status.gate.runs[0].name == name && h.status.gate.runs[0].phase.Waiting? && KeepsOldPorts(h, 0)
    ensures name in h.published && name in h.signalled && h.published[name] < h.signalled[name]
  {
    var before, h1 := RenderedTooEarly(name);
    var h2 := Happen(h1, Does(Spawned(0, pid)));
    HappensMore(BEGINNING, before, h1, Does(Spawned(0, pid)));
    h := Happen(h2, Does(Announced(0, 0)));
    HappensMore(BEGINNING, before + [Does(Spawned(0, pid))], h2, Does(Announced(0, 0)));
    moments := before + [Does(Spawned(0, pid))] + [Does(Announced(0, 0))];
  }
}

/** Two runs in which a request misses an event that its own handler has emitted. */
module MissedEvents {
  import opened Prelude
  import opened Protocol
  import opened Client
  import opened EventIndex
  import opened Exchange
  import opened ExchangeEvents

  const RESPONSE: Class := Class("Done", [])
  const PROGRESS: Class := Class("Progress", [])
  const DETAILED: Class := Class("DetailedProgress", [PROGRESS])

  function Sample(id: Id): Request {
    Request(id, RequestClass("Work", Some(Declared(Single(RESPONSE), Single(PROGRESS)))))
  }

  lemma {:induction false} RunSnoc(s: State, events: seq<Event>, s': State, e: Event)
    requires Run(s, events, s') && Enabled(s', e)
    ensures Run(s, events + [e], Step(s', e))
    decreases |events|
  {
    if events == [] {
      assert Run(Step(s', e), [], Step(s', e)) && [e][1..] == [];
    } else {
      RunSnoc(Step(s, events[0]), events[1..], s', e);
      assert (events + [e])[1..] == events[1..] + [e];
    }
  }

  lemma SampleChecks(id: Id)
    ensures EventClasses(Sample(id)) == [PROGRESS]
    ensures ValidEvent(Sample(id), PROGRESS) && ValidEvent(Sample(id), DETAILED) && ValidResponse(Sample(id), RESPONSE)
  {
    assert IsSubclass(DETAILED.bases[0], PROGRESS);
  }

  lemma SampleRouting()
    ensures AddAll(map[], [PROGRESS], "a") == map[PROGRESS := ["a"]]
    ensures AddAll(map[PROGRESS := ["a"]], [PROGRESS], "b") == map[PROGRESS := ["a", "b"]]
  {
    var none, one: Routing := map[], map[PROGRESS := ["a"]];
    assert [PROGRESS][1..] == [];
    assert Lookup(none, PROGRESS) + ["a"] == ["a"] && none[PROGRESS := ["a"]] == one;
    assert Lookup(one, PROGRESS) + ["b"] == ["a", "b"] && one[PROGRESS := ["a", "b"]] == map[PROGRESS := ["a", "b"]];
  }

  /** One request whose handler is running. */
  lemma OneRunning() returns (events: seq<Event>, s: State)
    ensures Run(START, events, s)
    ensures s.requests == map["a" := Sample("a")] && s.running == {"a"} && s.outcomes == map[]
    ensures s.table == Table([Sample("a")], map[PROGRESS := ["a"]])
    ensures s.toServer == [] && s.toClient == [] && s.emitted == [] && s.received == [] && s.ended == []
  {
    SampleChecks("a");
    SampleRouting();
    var s1 := Step(START, Ask(Sample("a")));
    RunSnoc(START, [], START, Ask(Sample("a")));
    s := Step(s1, Serve);
    events := [Ask(Sample("a"))];
    RunSnoc(START, events, s1, Serve);
    events := events + [Serve];
  }

  /** An event of a subclass passes the server's check and is offered to nobody, not even to the
      request it was emitted for. */
  lemma SubclassEventReachesNobody() returns (events: seq<Event>, s: State)
    ensures Run(START, events, s) && s.toClient != []
    ensures var n := s.toClient[0];
      && n.Notice? && n.timely && n.origin in s.requests && n.origin in s.running
      && ValidEvent(s.requests[n.origin], n.class_) && Receivers(s.table, n.class_) == []
  {
    SampleChecks("a");
    var s1;
    events, s1 := OneRunning();
    s := Step(s1, Emit("a", DETAILED));
    RunSnoc(START, events, s1, Emit("a", DETAILED));
    events := events + [Emit("a", DETAILED)];
  }

  /** Two requests of one class, with both handlers running. */
  lemma TwoRunning() returns (events: seq<Event>, s: State)
    ensures Run(START, events, s)
    ensures s.requests == map["a" := Sample("a"), "b" := Sample("b")] && s.running == {"a", "b"} && s.outcomes == map[]
    ensures s.table == Table([Sample("a"), Sample("b")], map[PROGRESS := ["a", "b"]])
    ensures s.toServer == [] && s.toClient == [] && s.emitted == [] && s.received == [] && s.ended == []
  {
    SampleChecks("b");
    SampleRouting();
    var s1;
    events, s1 := OneRunning();
    var s2 := Step(s1, Ask(Sample("b")));
    RunSnoc(START, events, s1, Ask(Sample("b")));
    events := events + [Ask(Sample("b"))];
    assert s2.table.pending == [Sample("a")] + Put([], Sample("b"));
    s := Step(s2, Serve);
    RunSnoc(START, events, s2, Serve);
    events := events + [Serve];
  }

  lemma BothReceive(table: Table)
    requires table == Table([Sample("a"), Sample("b")], map[PROGRESS := ["a", "b"]])
    ensures Receivers(table, PROGRESS) == ["a", "b"]
    ensures Entry(table.pending, "b") == Some(Sample("b"))
  {
    assert Sample("a") in table.pending && Sample("b") in table.pending;
    assert ["a", "b"][1..] == ["b"] && ["b"][1..] == [];
    assert Keep(["b"], table.pending) == ["b"];
    assert table.pending[1..] == [Sample("b")];
  }

  const MISSED: Packet := Notice(PROGRESS, "b", 0, true)

  /** `b`'s handler emits, and the callback of `a` raises. */
  lemma RaisedAhead() returns (events: seq<Event>, s: State)
    ensures Run(START, events, s)
    ensures s.requests == map["a" := Sample("a"), "b" := Sample("b")] && s.running == {"a", "b"}
    ensures s.table == Table([Sample("a"), Sample("b")], map[PROGRESS := ["a", "b"]])
    ensures s.toServer == [] && s.toClient == [] && s.emitted == [MISSED] && s.received == [Receipt("a", MISSED)] && s.ended == []
  {
    SampleChecks("b");
    var s1;
    events, s1 := TwoRunning();
    BothReceive(s1.table);
    var s2 := Step(s1, Emit("b", PROGRESS));
    RunSnoc(START, events, s1, Emit("b", PROGRESS));
    events := events + [Emit("b", PROGRESS)];
    s := Step(s2, Receive(Some(0)));
    RunSnoc(START, events, s2, Receive(Some(0)));
    events := events + [Receive(Some(0))];
    CalledFirstOnly();
  }

  lemma CalledFirstOnly()
    ensures Receipts(Called(["a", "b"], Some(0)), MISSED) == [Receipt("a", MISSED)]
  {
    assert Called(["a", "b"], Some(0)) == ["a"] && ["a"][1..] == [];
  }

  /** A callback that raises costs the requests behind it the event: `b` ends without the event
      that its own handler emitted, because the callback of `a` raised. */
  lemma EarlierCallbackCostsTheEvent() returns (events: seq<Event>, s: State)
    ensures Run(START, events, s) && "b" in EndedIds(s.ended) && "b" in s.requests
    ensures Own(s.emitted, s.requests["b"]) == [0] && Got(s.received, s.requests["b"]) == []
    ensures EverSkipped(START, events, s.requests["b"])
  {
    SampleChecks("b");
    var s1;
    events, s1 := RaisedAhead();
    BothReceive(s1.table);
    var finish := Finish("b", Returned(RESPONSE, false));
    var s2 := Step(s1, finish);
    RunSnoc(START, events, s1, finish);
    events := events + [finish];
    assert s2.toClient == [Reply("b", RESPONSE, false)];
    s := Step(s2, Receive(None));
    RunSnoc(START, events, s2, Receive(None));
    events := events + [Receive(None)];
    MissedByB();
    EventsComeBeforeTheResponse(events, s, "b");
  }

  lemma MissedByB()
    ensures Own([MISSED], Sample("b")) == [0] && Got([Receipt("a", MISSED)], Sample("b")) == []
  {
    SampleChecks("b");
    assert [MISSED][1..] == [] && [Receipt("a", MISSED)][1..] == [];
  }
}

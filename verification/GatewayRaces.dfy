/** Runs in which the index and the connections' own maps part, and one in which they only seem to. */
module GatewayRaces {
  import opened Common
  import opened Realtime
  import opened GatewayRuns
  import opened GatewaySteps
  import opened GatewayOrder

  const ANN := AuthContext("u", "d", "r")

  function Authed(subs: Subscriptions): Conn {
    Conn(Registered, true, Some(ANN), subs)
  }

  const MAPPED: Subscriptions := map["i" := "s"]

  // Two connections of one user, who may read the one state there is.
  function Two(a: Conn, b: Conn, index: Index<ConnId, nat>, handlers: map<nat, Handler>, next: nat): State {
    State(MAPPED, {(ANN, "s")}, map[0 := a, 1 := b], index, handlers, next)
  }

  function Ready(): seq<Event> {
    [GetOrCreateMapping("s", "i")] + [SetPermissions({(ANN, "s")})]
    + [Connect(0)] + [AcceptAuth(0, ANN)] + [Connect(1)] + [AcceptAuth(1, ANN)]
  }

  lemma AfterAppend(events: seq<Event>, e: Event)
    ensures After(events + [e]) == Try(After(events), e)
  {
    assert (events + [e])[..|events|] == events;
  }

  lemma AfterReady()
    ensures After(Ready()) == Two(Authed(map[]), Authed(map[]), map[], map[], 0)
  {
    var r1 := [GetOrCreateMapping("s", "i")];
    AfterAppend([], r1[0]);
    assert [] + r1 == r1;
    assert !Mapped(map[], "s");
    assert After(r1) == State(MAPPED, {}, map[], map[], map[], 0);
    var r2 := r1 + [SetPermissions({(ANN, "s")})];
    AfterAppend(r1, SetPermissions({(ANN, "s")}));
    var r3 := r2 + [Connect(0)];
    AfterAppend(r2, Connect(0));
    var r4 := r3 + [AcceptAuth(0, ANN)];
    AfterAppend(r3, AcceptAuth(0, ANN));
    var r5 := r4 + [Connect(1)];
    AfterAppend(r4, Connect(1));
    AfterAppend(r5, AcceptAuth(1, ANN));
  }

  // The id is readable, or already subscribed, and the last in its list.
  lemma SeekOne(known: set<PublicId>)
    ensures Seek(["i"], known) == (if "i" in known then 0 else 1)
    ensures Seek([], known) == 0 && ["i"][1..] == []
  {
    assert ["i"][1..] == [];
  }

  lemma ReadsIt(s: State)
    requires s.mappings == MAPPED && s.canRead == {(ANN, "s")}
    ensures Readable(s, ANN) == MAPPED
  {
  }

  /** The first subscribe to the state makes a set and waits. */
  lemma FirstSubscribes(b: Conn, next: nat)
    ensures Try(Two(Authed(map[]), b, map[], map[], next), Receive(0, Subscribe(["i"])))
         == Two(Authed(MAPPED), b, map["s" := Entry(next, {})],
                map[next := Handler(0, AtSubscribe(next, "i", "s", []))], next + 1)
  {
    SeekOne({"i"});
    ReadsIt(Two(Authed(map[]), b, map[], map[], next));
  }

  // The set a subscribe has made is no longer in the index.
  lemma EntersNothing(s: State, h: nat)
    requires h in s.handlers && s.handlers[h].k in s.conns && s.handlers[h].wait.AtSubscribe?
    requires forall t :: t in s.index ==> s.index[t].me != s.handlers[h].wait.subscribers
    ensures var x := s.handlers[h];
      Try(s, Resume(h)) == s.(handlers := s.handlers[h := Handler(x.k, AtRead(x.wait.id, x.wait.rest))], next := s.next + 1)
  {
    assert Join(s.index, s.handlers[h].wait.subscribers, s.handlers[h].k) == s.index;
    assert s.conns[s.handlers[h].k := s.conns[s.handlers[h].k]] == s.conns;
  }

  lemma Finishes(s: State, h: nat)
    requires h in s.handlers && s.handlers[h].k in s.conns && !s.handlers[h].wait.AtSubscribe? && s.handlers[h].wait.rest == []
    ensures Try(s, Resume(h)) == s.(handlers := s.handlers - {h}, next := s.next + 1)
  {
    assert s.conns[s.handlers[h].k := s.conns[s.handlers[h].k]] == s.conns;
  }

  // ---- Two connections ----

  /** Connection 0 waits to enter the set it has made; connection 1 enters it, leaves it, and the set is
      dropped; then all handlers run to their ends. */
  function SetDropped(): seq<Event> {
    Ready() + [Receive(0, Subscribe(["i"]))] + [Receive(1, Subscribe(["i"]))] + [Receive(1, Unsubscribe(["i"]))]
    + [Resume(0)] + [Resume(0)] + [Resume(1)] + [Resume(2)]
  }

  lemma SecondSubscribes()
    ensures Try(Two(Authed(MAPPED), Authed(map[]), map["s" := Entry(0, {})], map[0 := Handler(0, AtSubscribe(0, "i", "s", []))], 1),
                Receive(1, Subscribe(["i"])))
         == Two(Authed(MAPPED), Authed(MAPPED), map["s" := Entry(0, {1})],
                map[0 := Handler(0, AtSubscribe(0, "i", "s", [])), 1 := Handler(1, AtRead("i", []))], 2)
  {
    SeekOne({"i"});
    ReadsIt(Two(Authed(MAPPED), Authed(map[]), map["s" := Entry(0, {})], map[0 := Handler(0, AtSubscribe(0, "i", "s", []))], 1));
    assert {} + {1} == {1};
  }

  lemma SecondUnsubscribes()
    ensures Try(Two(Authed(MAPPED), Authed(MAPPED), map["s" := Entry(0, {1})],
                    map[0 := Handler(0, AtSubscribe(0, "i", "s", [])), 1 := Handler(1, AtRead("i", []))], 2),
                Receive(1, Unsubscribe(["i"])))
         == Two(Authed(MAPPED), Authed(map[]), map[],
                map[0 := Handler(0, AtSubscribe(0, "i", "s", [])), 1 := Handler(1, AtRead("i", [])), 2 := Handler(1, AtRelease([], true))], 3)
  {
    SeekOne({"i"});
    assert {1} - {1} == {};
  }

  lemma AllFinish()
    ensures var s := Two(Authed(MAPPED), Authed(map[]), map[],
                         map[0 := Handler(0, AtSubscribe(0, "i", "s", [])), 1 := Handler(1, AtRead("i", [])), 2 := Handler(1, AtRelease([], true))], 3);
      Try(Try(Try(Try(s, Resume(0)), Resume(0)), Resume(1)), Resume(2)) == Two(Authed(MAPPED), Authed(map[]), map[], map[], 7)
  {
    var s := Two(Authed(MAPPED), Authed(map[]), map[],
                 map[0 := Handler(0, AtSubscribe(0, "i", "s", [])), 1 := Handler(1, AtRead("i", [])), 2 := Handler(1, AtRelease([], true))], 3);
    EntersNothing(s, 0);
    var s1 := Try(s, Resume(0));
    Finishes(s1, 0);
    var s2 := Try(s1, Resume(0));
    Finishes(s2, 1);
    var s3 := Try(s2, Resume(1));
    Finishes(s3, 2);
    assert Try(s3, Resume(2)).handlers == map[];
  }

  /** In the end nothing is pending, connection 0 is registered and subscribed, and the index does not know
      the state: it is sent none of the changes that a scan would send it. */
  lemma {:induction false} SetDroppedWhileWaiting()
    ensures var s := After(SetDropped());
      && s.handlers == map[] && ScanDelivers(s, "s", 0, "i") && !Delivers(s, "s", 0, "i") && "s" !in s.index
  {
    AfterReady();
    FirstSubscribes(Authed(map[]), 0);
    SecondSubscribes();
    SecondUnsubscribes();
    AllFinish();
    var r1 := Ready() + [Receive(0, Subscribe(["i"]))];
    AfterAppend(Ready(), Receive(0, Subscribe(["i"])));
    var r2 := r1 + [Receive(1, Subscribe(["i"]))];
    AfterAppend(r1, Receive(1, Subscribe(["i"])));
    var r3 := r2 + [Receive(1, Unsubscribe(["i"]))];
    AfterAppend(r2, Receive(1, Unsubscribe(["i"])));
    AfterAppend(r3, Resume(0));
    AfterAppend(r3 + [Resume(0)], Resume(0));
    AfterAppend(r3 + [Resume(0)] + [Resume(0)], Resume(1));
    AfterAppend(r3 + [Resume(0)] + [Resume(0)] + [Resume(1)], Resume(2));
    assert SubscribedAs(MAPPED, "s", "i");
  }

  // ---- A connection that closes while its subscribe waits ----

  /** Connection 1 is in the set that connection 0 has made; connection 0 closes, and its subscribe comes
      back all the same. */
  function ClosedMeanwhile(): seq<Event> {
    Ready() + [Receive(0, Subscribe(["i"]))] + [Receive(1, Subscribe(["i"]))] + [CloseEvent(0)] + [Resume(0)]
  }

  lemma FirstCloses()
    ensures var handlers := map[0 := Handler(0, AtSubscribe(0, "i", "s", [])), 1 := Handler(1, AtRead("i", []))];
      Try(Two(Authed(MAPPED), Authed(MAPPED), map["s" := Entry(0, {1})], handlers, 2), CloseEvent(0))
      == Two(Conn(Closed, false, Some(ANN), MAPPED), Authed(MAPPED), map["s" := Entry(0, {1})], handlers, 2)
  {
    var index: Index<ConnId, nat> := map["s" := Entry(0, {1})];
    assert {1} - {0} == {1};
    assert ReleaseAll(index, MAPPED.Values, 0) == index;
  }

  lemma FirstEnters()
    ensures var handlers := map[0 := Handler(0, AtSubscribe(0, "i", "s", [])), 1 := Handler(1, AtRead("i", []))];
      var s := Try(Two(Conn(Closed, false, Some(ANN), MAPPED), Authed(MAPPED), map["s" := Entry(0, {1})], handlers, 2), Resume(0));
      && Linked(s.index, "s", 0) && s.conns[0].phase == Closed
      && s.handlers == map[0 := Handler(0, AtRead("i", [])), 1 := Handler(1, AtRead("i", []))]
  {
  }

  /** A closed connection in a set, with nothing under way that would take it out. */
  ghost predicate IsStranded(s: State, state: StateId, k: ConnId) {
    && Linked(s.index, state, k) && k in s.conns && s.conns[k].phase == Closed
    && forall h :: h in s.handlers && s.handlers[h].k == k ==> !s.handlers[h].wait.AtRelease?
  }

  lemma StretchLeavesStranded(s: State, h: nat, state: StateId, k: ConnId)
    requires IsStranded(s, state, k) && Enabled(s, Resume(h))
    ensures IsStranded(AfterResume(s, h), state, k)
  {
    var j := s.handlers[h].k;
    if j != k {
      OthersRemain(s.index, state, j, k);
    }
  }

  lemma StepLeavesStranded(s: State, e: Event, state: StateId, k: ConnId)
    requires IsStranded(s, state, k)
    ensures IsStranded(Try(s, e), state, k)
  {
    if Enabled(s, e) {
      match e
      case Receive(j, _) => OthersRemain(s.index, state, j, k);
      case Resume(h) => StretchLeavesStranded(s, h, state, k);
      case Drop(j) => OthersRemain(s.index, state, j, k);
      case CloseEvent(j) => OthersRemain(s.index, state, j, k);
      case _ =>
    }
  }

  lemma {:induction false} StrandedForEver(events: seq<Event>, more: seq<Event>, state: StateId, k: ConnId)
    requires IsStranded(After(events), state, k)
    ensures IsStranded(After(events + more), state, k)
  {
    if more == [] {
      assert events + more == events;
    } else {
      var before, last := more[..|more| - 1], more[|more| - 1];
      StrandedForEver(events, before, state, k);
      AfterAppend(events + before, last);
      assert events + more == events + before + [last];
      StepLeavesStranded(After(events + before), last, state, k);
    }
  }

  /** The closed connection is in the index, and stays there in every continuation of the run. */
  lemma {:induction false} ClosedWhileWaiting(more: seq<Event>)
    ensures var s := After(ClosedMeanwhile() + more);
      Linked(s.index, "s", 0) && 0 in s.conns && s.conns[0].phase == Closed
  {
    AfterReady();
    FirstSubscribes(Authed(map[]), 0);
    SecondSubscribes();
    FirstCloses();
    FirstEnters();
    var r1 := Ready() + [Receive(0, Subscribe(["i"]))];
    AfterAppend(Ready(), Receive(0, Subscribe(["i"])));
    var r2 := r1 + [Receive(1, Subscribe(["i"]))];
    AfterAppend(r1, Receive(1, Subscribe(["i"])));
    AfterAppend(r2, CloseEvent(0));
    AfterAppend(r2 + [CloseEvent(0)], Resume(0));
    StrandedForEver(ClosedMeanwhile(), more, "s", 0);
  }

  /** The same at the second await: whatever closed connection's subscribe goes on from there to a state of
      the index enters its set. */
  lemma ClosedGoesOn(s: State, h: nat)
    requires Enabled(s, Resume(h)) && s.handlers[h].wait.AtRead? && s.conns[s.handlers[h].k].phase == Closed
    requires var known := ReadableBy(s, s.handlers[h].k);
      var i := Seek(s.handlers[h].wait.rest, known.Keys);
      i < |s.handlers[h].wait.rest| && known[s.handlers[h].wait.rest[i]] in s.index
    ensures exists state :: Linked(Try(s, Resume(h)).index, state, s.handlers[h].k)
  {
    var known := ReadableBy(s, s.handlers[h].k);
    var rest := s.handlers[h].wait.rest;
    assert Linked(Try(s, Resume(h)).index, known[rest[Seek(rest, known.Keys)]], s.handlers[h].k);
  }

  // ---- A subscribe that fails at its first await ----

  /** The empty set stays in the index, and the connection's own map has a subscription that is not in it. */
  lemma {:induction false} FailedAtFirstAwait()
    ensures var s := After(Ready() + [Receive(0, Subscribe(["i"]))] + [Fail(0)]);
      && s.handlers == map[] && ScanDelivers(s, "s", 0, "i") && !Delivers(s, "s", 0, "i")
      && "s" in s.index && s.index["s"].members == {}
  {
    AfterReady();
    FirstSubscribes(Authed(map[]), 0);
    var r1 := Ready() + [Receive(0, Subscribe(["i"]))];
    AfterAppend(Ready(), Receive(0, Subscribe(["i"])));
    AfterAppend(r1, Fail(0));
    assert SubscribedAs(MAPPED, "s", "i");
  }

  // ---- A set not found, and no harm done ----

  /** The connection itself unsubscribes while its subscribe waits. */
  function OwnUnsubscribe(): seq<Event> {
    Ready() + [Receive(0, Subscribe(["i"]))] + [Receive(0, Unsubscribe(["i"]))] + [Resume(0)]
  }

  lemma OwnSetDropped()
    ensures Try(Two(Authed(MAPPED), Authed(map[]), map["s" := Entry(0, {})], map[0 := Handler(0, AtSubscribe(0, "i", "s", []))], 1),
                Receive(0, Unsubscribe(["i"])))
         == Two(Authed(map[]), Authed(map[]), map[],
                map[0 := Handler(0, AtSubscribe(0, "i", "s", [])), 1 := Handler(0, AtRelease([], true))], 2)
  {
    SeekOne({"i"});
    assert {} - {0} == {};
  }

  lemma BeforeItsReturn()
    ensures OwnUnsubscribe()[..6] == Ready() && |OwnUnsubscribe()| == 9
    ensures After(OwnUnsubscribe()[..8])
         == Two(Authed(map[]), Authed(map[]), map[],
                map[0 := Handler(0, AtSubscribe(0, "i", "s", [])), 1 := Handler(0, AtRelease([], true))], 2)
  {
    AfterReady();
    FirstSubscribes(Authed(map[]), 0);
    OwnSetDropped();
    var r1 := Ready() + [Receive(0, Subscribe(["i"]))];
    AfterAppend(Ready(), Receive(0, Subscribe(["i"])));
    AfterAppend(r1, Receive(0, Unsubscribe(["i"])));
    assert OwnUnsubscribe()[..8] == r1 + [Receive(0, Unsubscribe(["i"]))];
  }

  lemma ItsReturnFits()
    ensures var s := Two(Authed(map[]), Authed(map[]), map[],
                         map[0 := Handler(0, AtSubscribe(0, "i", "s", [])), 1 := Handler(0, AtRelease([], true))], 2);
      Fits(s, Resume(0)) && !FindsAll(s, Resume(0))
  {
  }

  /** The subscribe that comes back finds neither its set nor its id, and the index is in order all the
      same, throughout: finding them is enough for that, and not needed. */
  lemma {:induction false} OwnUnsubscribeIsHarmless()
    ensures AllFit(OwnUnsubscribe()) && !FindsAllAt(OwnUnsubscribe(), 8)
  {
    var run := OwnUnsubscribe();
    BeforeItsReturn();
    ItsReturnFits();
    AfterReady();
    forall n: nat ensures FitsAt(run, n) {
      if n < 6 {
        assert run[n] == Ready()[n];
        assert !Ready()[n].Receive? && !Ready()[n].Resume? && !Ready()[n].Fail?;
      } else if n == 6 {
        assert IsRegistered(After(run[..6]), 0);
      }
    }
  }
}

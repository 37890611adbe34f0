/** A run in which client and gateway end up disagreeing. */
module RealtimeRaces {
  import opened Common
  import opened Realtime
  import opened GatewayRuns
  import opened GatewaySteps
  import opened GatewayOrder
  import opened RealtimeClient
  import opened P = RealtimeProtocol
  import opened RealtimeSteps
  import opened RealtimeAgreement
  import opened RealtimeDelivery

  const BOB := AuthContext("u", "d", "r")

  const MAPPINGS: Subscriptions := map["i" := "s", "j" := "t"]

  const CFG := Setting(BOB, MAPPINGS, {(BOB, "s"), (BOB, "t")})

  // One socket, open and authenticated.
  function Gateway(subs: Subscriptions, index: Index<ConnId, nat>, handlers: map<nat, Handler>, next: nat): State {
    State(MAPPINGS, CFG.canRead, map[0 := Conn(Registered, true, Some(BOB), subs)], index, handlers, next)
  }

  function At(subs: Subscriptions, index: Index<ConnId, nat>, handlers: map<nat, Handler>, next: nat,
              inFlight: seq<Frame>, wanted: set<PublicId>): World {
    World(Gateway(subs, index, handlers, next), map[0 := Socket(true, inFlight)], Some(0), true, {0}, wanted)
  }

  lemma AfterMore(steps: seq<Step>, step: Step)
    ensures P.After(CFG, steps + [step]) == Proceed(CFG, P.After(CFG, steps), step)
  {
    assert (steps + [step])[..|steps|] == steps;
  }

  function Hello(): seq<Step> {
    [OpenSocket(0, 0)] + [SendAuth(0, true)] + [ServerTakes(0)] + [AuthOkArrives(0, [])]
  }

  lemma AfterHello()
    ensures P.After(CFG, Hello()) == At(map[], map[], map[], 0, [], {})
  {
    var s1 := [OpenSocket(0, 0)];
    AfterMore([], s1[0]);
    assert [] + s1 == s1;
    AfterMore(s1, SendAuth(0, true));
    var s2 := s1 + [SendAuth(0, true)];
    AfterMore(s2, ServerTakes(0));
    var s3 := s2 + [ServerTakes(0)];
    AfterMore(s3, AuthOkArrives(0, []));
    assert [Auth(true)][1..] == [];
  }

  lemma ReadsBoth(s: State)
    requires s.mappings == MAPPINGS && s.canRead == CFG.canRead
    ensures Readable(s, BOB) == MAPPINGS
  {
  }

  lemma SeeksNext(known: set<PublicId>)
    ensures "i" in known ==> Seek(["i", "j"], known) == 0
    ensures Seek(["j"], known) == if "j" in known then 0 else 1
    ensures Seek([], known) == 0 && ["i", "j"][1..] == ["j"] && ["j"][1..] == []
  {
    assert ["j"][1..] == [];
  }

  const FIRST := AtSubscribe(0, "i", "s", ["j"])

  lemma WantsBoth()
    ensures Proceed(CFG, At(map[], map[], map[], 0, [], {}), WantMore(["i", "j"]))
         == At(map[], map[], map[], 0, [Talk(Message.Subscribe(["i", "j"]))], {"i", "j"})
  {
    assert Set(["i", "j"]) == {"i", "j"} && {} + {"i", "j"} == {"i", "j"};
    assert [] + [Talk(Message.Subscribe(["i", "j"]))] == [Talk(Message.Subscribe(["i", "j"]))];
  }

  lemma TakesSubscribe()
    ensures Proceed(CFG, At(map[], map[], map[], 0, [Talk(Message.Subscribe(["i", "j"]))], {"i", "j"}), ServerTakes(0))
         == At(map["i" := "s"], map["s" := Entry(0, {})], map[0 := Handler(0, FIRST)], 1, [], {"i", "j"})
  {
    var w := At(map[], map[], map[], 0, [Talk(Message.Subscribe(["i", "j"]))], {"i", "j"});
    ReadsBoth(w.gw);
    SeeksNext(MAPPINGS.Keys);
    assert [Talk(Message.Subscribe(["i", "j"]))][1..] == [];
  }

  lemma WantsLess()
    ensures var w := At(map["i" := "s"], map["s" := Entry(0, {})], map[0 := Handler(0, FIRST)], 1, [], {"i", "j"});
      Proceed(CFG, w, WantLess(["j"]))
      == At(map["i" := "s"], map["s" := Entry(0, {})], map[0 := Handler(0, FIRST)], 1, [Talk(Message.Unsubscribe(["j"]))], {"i"})
  {
    assert Set(["j"]) == {"j"} && {"i", "j"} - {"j"} == {"i"};
    assert [] + [Talk(Message.Unsubscribe(["j"]))] == [Talk(Message.Unsubscribe(["j"]))];
  }

  lemma TakesUnsubscribe()
    ensures var index: Index<ConnId, nat> := map["s" := Entry(0, {})];
      Proceed(CFG, At(map["i" := "s"], index, map[0 := Handler(0, FIRST)], 1, [Talk(Message.Unsubscribe(["j"]))], {"i"}), ServerTakes(0))
      == At(map["i" := "s"], index, map[0 := Handler(0, FIRST)], 2, [], {"i"})
  {
    var w := At(map["i" := "s"], map["s" := Entry(0, {})], map[0 := Handler(0, FIRST)], 1, [Talk(Message.Unsubscribe(["j"]))], {"i"});
    SeeksNext(w.gw.conns[0].subs.Keys);
    assert [Talk(Message.Unsubscribe(["j"]))][1..] == [];
    assert w.gw.handlers - {1} == w.gw.handlers;
    assert w.gw.conns[0 := w.gw.conns[0]] == w.gw.conns;
  }

  lemma EntersFirst()
    ensures AfterResume(Gateway(map["i" := "s"], map["s" := Entry(0, {})], map[0 := Handler(0, FIRST)], 2), 0)
         == Gateway(map["i" := "s"], map["s" := Entry(0, {0})], map[0 := Handler(0, AtRead("i", ["j"]))], 3)
  {
    assert {} + {0} == {0};
  }

  lemma GoesOn()
    ensures AfterResume(Gateway(map["i" := "s"], map["s" := Entry(0, {0})], map[0 := Handler(0, AtRead("i", ["j"]))], 3), 0)
         == Gateway(MAPPINGS, map["s" := Entry(0, {0}), "t" := Entry(3, {})], map[0 := Handler(0, AtSubscribe(3, "j", "t", []))], 4)
  {
    ReadsBoth(Gateway(map["i" := "s"], map["s" := Entry(0, {0})], map[0 := Handler(0, AtRead("i", ["j"]))], 3));
    SeeksNext(MAPPINGS.Keys);
  }

  lemma EntersSecond()
    ensures AfterResume(Gateway(MAPPINGS, map["s" := Entry(0, {0}), "t" := Entry(3, {})], map[0 := Handler(0, AtSubscribe(3, "j", "t", []))], 4), 0)
         == Gateway(MAPPINGS, map["s" := Entry(0, {0}), "t" := Entry(3, {0})], map[0 := Handler(0, AtRead("j", []))], 5)
  {
    assert {} + {0} == {0};
  }

  lemma Ends()
    ensures AfterResume(Gateway(MAPPINGS, map["s" := Entry(0, {0}), "t" := Entry(3, {0})], map[0 := Handler(0, AtRead("j", []))], 5), 0)
         == Gateway(MAPPINGS, map["s" := Entry(0, {0}), "t" := Entry(3, {0})], map[], 6)
  {
    ReadsBoth(Gateway(MAPPINGS, map["s" := Entry(0, {0}), "t" := Entry(3, {0})], map[0 := Handler(0, AtRead("j", []))], 5));
    SeeksNext(MAPPINGS.Keys);
  }

  /** The client subscribes to two ids and unsubscribes from the second while the gateway is still busy
      with the first. */
  function Overtaken(): seq<Step> {
    Hello() + [WantMore(["i", "j"])] + [ServerTakes(0)] + [WantLess(["j"])] + [ServerTakes(0)]
    + [GatewayEvent(Resume(0))] + [GatewayEvent(Resume(0))] + [GatewayEvent(Resume(0))] + [GatewayEvent(Resume(0))]
  }

  /** In the end nothing is in flight or suspended, and the client is sent the changes of a state it does
      not want. */
  lemma {:induction false} UnsubscribeIsOvertaken()
    ensures var w := P.After(CFG, Overtaken());
      && Greeted(w, 0) && w.sockets[0].inFlight == [] && w.gw.handlers == map[]
      && "j" !in w.wanted && Delivers(w.gw, "t", 0, "j")
  {
    AfterHello();
    WantsBoth();
    TakesSubscribe();
    WantsLess();
    TakesUnsubscribe();
    var s1 := Hello() + [WantMore(["i", "j"])];
    AfterMore(Hello(), WantMore(["i", "j"]));
    var s2 := s1 + [ServerTakes(0)];
    AfterMore(s1, ServerTakes(0));
    var s3 := s2 + [WantLess(["j"])];
    AfterMore(s2, WantLess(["j"]));
    var s4 := s3 + [ServerTakes(0)];
    AfterMore(s3, ServerTakes(0));
    HandlerEnds(s4);
  }

  lemma Resumes(steps: seq<Step>)
    requires 0 in P.After(CFG, steps).gw.handlers && P.After(CFG, steps).gw.handlers[0].k in P.After(CFG, steps).gw.conns
    ensures var w := P.After(CFG, steps);
      P.After(CFG, steps + [GatewayEvent(Resume(0))]) == w.(gw := AfterResume(w.gw, 0))
  {
    AfterMore(steps, GatewayEvent(Resume(0)));
  }

  lemma HandlerEnds(steps: seq<Step>)
    requires P.After(CFG, steps) == At(map["i" := "s"], map["s" := Entry(0, {})], map[0 := Handler(0, FIRST)], 2, [], {"i"})
    ensures P.After(CFG, steps + [GatewayEvent(Resume(0))] + [GatewayEvent(Resume(0))] + [GatewayEvent(Resume(0))] + [GatewayEvent(Resume(0))])
         == At(MAPPINGS, map["s" := Entry(0, {0}), "t" := Entry(3, {0})], map[], 6, [], {"i"})
  {
    var go := GatewayEvent(Resume(0));
    EntersFirst();
    Resumes(steps);
    GoesOn();
    Resumes(steps + [go]);
    EntersSecond();
    Resumes(steps + [go] + [go]);
    Ends();
    Resumes(steps + [go] + [go] + [go]);
  }

  /** The client wants the second id again before its unsubscribe is taken. */
  function NamedAgain(): seq<Step> {
    Hello() + [WantMore(["i", "j"])] + [ServerTakes(0)] + [WantLess(["j"])] + [WantMore(["j"])]
  }

  lemma BothInFlight()
    ensures P.After(CFG, NamedAgain())
         == At(map["i" := "s"], map["s" := Entry(0, {})], map[0 := Handler(0, FIRST)], 1,
               [Talk(Message.Unsubscribe(["j"])), Talk(Message.Subscribe(["j"]))], {"i", "j"})
  {
    AfterHello();
    WantsBoth();
    TakesSubscribe();
    WantsLess();
    var s1 := Hello() + [WantMore(["i", "j"])];
    AfterMore(Hello(), WantMore(["i", "j"]));
    var s2 := s1 + [ServerTakes(0)];
    AfterMore(s1, ServerTakes(0));
    var s3 := s2 + [WantLess(["j"])];
    AfterMore(s2, WantLess(["j"]));
    AfterMore(s3, WantMore(["j"]));
    assert Set(["j"]) == {"j"} && {"i"} + {"j"} == {"i", "j"};
    assert [Talk(Message.Unsubscribe(["j"]))] + [Talk(Message.Subscribe(["j"]))]
        == [Talk(Message.Unsubscribe(["j"])), Talk(Message.Subscribe(["j"]))];
  }

  /** Taking the unsubscribe while the subscribe has the id still to do does no harm then: one message at a
      time is enough for agreement, and not needed. */
  lemma {:induction false} OvertakingIsHarmless()
    ensures var w := P.After(CFG, NamedAgain());
      Possible(w, ServerTakes(0)) && StepFits(CFG, w, ServerTakes(0)) && !OneAtATime(w, ServerTakes(0))
  {
    BothInFlight();
    var w := P.After(CFG, NamedAgain());
    var known := w.gw.conns[0].subs.Keys;
    SeeksNext(known);
    var again := [Talk(Message.Subscribe(["j"]))];
    var said := [Talk(Message.Unsubscribe([]))] + again;
    assert w.sockets[0].inFlight[1..] == again;
    assert Dealt(["j"], known) == ["j"] && Left(["j"], known) == [];
    LastWordOf([Talk(Message.Unsubscribe([]))], again, "j");
    LastWordOfOne(again[0], "j");
    assert LastWord(said, "j") == Some(true);
    assert IsOf(w.gw, 0, 0);
  }
}

/** What the client is sent, and a gateway for which nothing would go astray. */
module RealtimeDelivery {
  import opened Common
  import opened Realtime
  import opened GatewayRuns
  import opened GatewaySteps
  import opened GatewayOrder
  import opened RealtimeClient
  import opened P = RealtimeProtocol
  import opened RealtimeSteps
  import opened RealtimeAgreement

  // ---- A simpler condition ----

  /** No message of a socket is taken while an earlier one is suspended, and none of its handlers fails. */
  ghost predicate OneAtATime(w: World, step: Step) {
    Possible(w, step) ==>
      match step
      case ServerTakes(k) => forall h {:trigger IsOf(w.gw, k, h)} :: !IsOf(w.gw, k, h)
      case GatewayEvent(Fail(h)) => w.gw.handlers[h].k !in w.sockets
      case _ => true
  }

  ghost predicate OneAtATimeAt(cfg: Setting, steps: seq<Step>, n: nat) {
    n < |steps| ==> OneAtATime(P.After(cfg, steps[..n]), steps[n])
  }

  ghost predicate OneHandler(w: World, k: ConnId) {
    k in w.sockets ==> forall h, j {:trigger IsOf(w.gw, k, h), IsOf(w.gw, k, j)} :: IsOf(w.gw, k, h) && IsOf(w.gw, k, j) ==> h == j
  }

  ghost predicate OneHandlerEach(w: World) {
    forall k {:trigger OneHandler(w, k)} :: OneHandler(w, k)
  }

  lemma EventKeepsOne(w: World, e: Event, k: ConnId)
    requires Base(w.gw) && OneHandler(w, k) && k in w.sockets && Enabled(w.gw, e)
    requires e.Receive? && e.k == k ==> forall h {:trigger IsOf(w.gw, k, h)} :: !IsOf(w.gw, k, h)
    ensures OneHandler(w.(gw := Try(w.gw, e)), k)
  {
    assert w.gw.next in w.gw.handlers ==> HandlerOk(w.gw, w.gw.next);
    forall h | e.Receive? && IsOf(Try(w.gw, e), k, h) ensures IsOf(w.gw, k, h) || (h == w.gw.next && e.k == k) {}
    forall h | !e.Receive? && IsOf(Try(w.gw, e), k, h) ensures IsOf(w.gw, k, h) {}
  }

  lemma StepKeepsOneHandler(cfg: Setting, w: World, step: Step, k: ConnId)
    requires ServerOk(cfg, w) && OneHandlerEach(w) && OneAtATime(w, step)
    ensures OneHandler(Proceed(cfg, w, step), k)
  {
    assert OneHandler(w, k);
    if Possible(w, step) {
      StepAtGateway(cfg, w, step);
      var e := EventOf(cfg, w, step);
      if e.Some? && Enabled(w.gw, e.value) && k in w.sockets {
        EventKeepsOne(w, e.value, k);
      }
      if step.OpenSocket? && k == step.k {
        forall h ensures !IsOf(Proceed(cfg, w, step).gw, k, h) {
          assert h in w.gw.handlers ==> HandlerOk(w.gw, h);
        }
      }
    }
  }

  lemma NothingBefore(w: World, k: ConnId, h: nat)
    requires OneHandler(w, k) && k in w.sockets && IsOf(w.gw, k, h)
    ensures Before(w, k, h) == []
  {
    forall j: nat | j < h ensures !IsOf(w.gw, k, j) {
      assert IsOf(w.gw, k, h);
    }
    NothingBeyond(w.gw, k, 0, h);
  }

  lemma OneAtATimeFits(cfg: Setting, w: World, step: Step)
    requires ServerOk(cfg, w) && OneHandlerEach(w) && OneAtATime(w, step)
    ensures StepFits(cfg, w, step)
  {
    if Possible(w, step) {
      match step
      case ServerTakes(k) => NothingBeyond(w.gw, k, 0, w.gw.next);
      case GatewayEvent(Resume(h)) =>
        var k := w.gw.handlers[h].k;
        if k in w.sockets {
          assert OneHandler(w, k) && IsOf(w.gw, k, h);
          NothingBefore(w, k, h);
        }
      case _ =>
    }
  }

  lemma {:induction false} OneHandlerAlways(cfg: Setting, steps: seq<Step>, n: nat)
    requires OneIdPerState(cfg.mappings) && n <= |steps|
    requires forall m: nat {:trigger OneAtATimeAt(cfg, steps, m)} :: OneAtATimeAt(cfg, steps, m)
    ensures OneHandlerEach(P.After(cfg, steps[..n]))
  {
    if n > 0 {
      var m := n - 1;
      OneHandlerAlways(cfg, steps, m);
      ServerAlwaysOk(cfg, steps[..m]);
      AfterOne(cfg, steps, m);
      assert OneAtATimeAt(cfg, steps, m);
      forall k ensures OneHandler(P.After(cfg, steps[..n]), k) {
        StepKeepsOneHandler(cfg, P.After(cfg, steps[..m]), steps[m], k);
      }
    } else {
      forall k ensures OneHandler(P.After(cfg, steps[..0]), k) {}
    }
  }

  /** A gateway that handled the messages of a socket one at a time, and none failed, would always agree. */
  lemma {:induction false} OneAtATimeAgrees(cfg: Setting, steps: seq<Step>)
    requires OneIdPerState(cfg.mappings)
    requires forall m: nat {:trigger OneAtATimeAt(cfg, steps, m)} :: OneAtATimeAt(cfg, steps, m)
    ensures NoneOvertakes(cfg, steps) && forall n: nat {:trigger AgreesAt(cfg, steps, n)} :: AgreesAt(cfg, steps, n)
  {
    forall n: nat ensures StepFitsAt(cfg, steps, n) {
      if n < |steps| {
        assert OneAtATimeAt(cfg, steps, n);
        ServerAlwaysOk(cfg, steps[..n]);
        OneHandlerAlways(cfg, steps, n);
        OneAtATimeFits(cfg, P.After(cfg, steps[..n]), steps[n]);
      }
    }
    SubscriptionsAgreeIff(cfg, steps);
  }

  // ---- What the client hears ----

  ghost predicate EventFits(cfg: Setting, w: World, step: Step) {
    Possible(w, step) && EventOf(cfg, w, step).Some? ==> Fits(w.gw, EventOf(cfg, w, step).value)
  }

  ghost predicate EventFitsAt(cfg: Setting, steps: seq<Step>, n: nat) {
    n < |steps| ==> EventFits(cfg, P.After(cfg, steps[..n]), steps[n])
  }

  ghost predicate AllEventsFit(cfg: Setting, steps: seq<Step>) {
    forall n: nat {:trigger EventFitsAt(cfg, steps, n)} :: EventFitsAt(cfg, steps, n)
  }

  lemma {:induction false} GatewayStaysInOrder(cfg: Setting, steps: seq<Step>, n: nat)
    requires OneIdPerState(cfg.mappings) && AllEventsFit(cfg, steps) && n <= |steps|
    ensures InOrder(P.After(cfg, steps[..n]).gw)
  {
    if n > 0 {
      var m := n - 1;
      var w := P.After(cfg, steps[..m]);
      GatewayStaysInOrder(cfg, steps, m);
      ServerAlwaysOk(cfg, steps[..m]);
      AfterOne(cfg, steps, m);
      assert EventFitsAt(cfg, steps, m);
      if Possible(w, steps[m]) {
        StepAtGateway(cfg, w, steps[m]);
        if EventOf(cfg, w, steps[m]).Some? {
          StepKeepsOrderIff(w.gw, EventOf(cfg, w, steps[m]).value);
        }
      }
    } else {
      forall state, k ensures Right(Boot(cfg).gw, state, k) {}
    }
  }

  /** Where neither the index nor the messages go astray: with nothing in flight or suspended, the client is
      sent exactly the changes of the states it wants and may read. */
  lemma {:induction false} QuietClientHearsWhatItWants(cfg: Setting, steps: seq<Step>, k: ConnId, state: StateId, id: PublicId)
    requires OneIdPerState(cfg.mappings) && NoneOvertakes(cfg, steps) && AllEventsFit(cfg, steps)
    requires Greeted(P.After(cfg, steps), k) && P.After(cfg, steps).sockets[k].inFlight == []
    requires forall h {:trigger IsOf(P.After(cfg, steps).gw, k, h)} :: !IsOf(P.After(cfg, steps).gw, k, h)
    requires IsRegistered(P.After(cfg, steps).gw, k) && P.After(cfg, steps).gw.conns[k].open
    ensures Delivers(P.After(cfg, steps).gw, state, k, id) <==>
      id in P.After(cfg, steps).wanted * ReadableIds(cfg) && cfg.mappings[id] == state
  {
    var w := P.After(cfg, steps);
    assert steps[..|steps|] == steps;
    ServerAlwaysOk(cfg, steps);
    GatewayStaysInOrder(cfg, steps, |steps|);
    SubscriptionsAgree(cfg, steps, k);
    NothingBeyond(w.gw, k, 0, w.gw.next);
    assert ToCome(w, k) == [];
    assert Settled(cfg, w, k) == SideOf(w.gw, k);
    assert ConnOk(w.gw, k) && Right(w.gw, state, k);
    if h :| WaitsIn(w.gw, h, k, state) {
      assert IsOf(w.gw, k, h);
    }
    SubscribedToIs(w.gw.conns[k].subs, state);
    if id in w.gw.conns[k].subs && w.gw.conns[k].subs[id] == state {
      assert SubscribedAs(w.gw.conns[k].subs, state, id);
    }
  }
}

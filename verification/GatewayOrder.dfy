/** When the gateway's index is the inverse of the connections' own maps. */
module GatewayOrder {
  import opened Common
  import opened Realtime
  import opened GatewayRuns
  import opened GatewaySteps

  // ---- Whole runs ----

  ghost predicate OrderedAt(events: seq<Event>, n: nat) {
    n <= |events| ==> InOrder(After(events[..n]))
  }

  ghost predicate FitsAt(events: seq<Event>, n: nat) {
    n < |events| ==> Fits(After(events[..n]), events[n])
  }

  ghost predicate AllFit(events: seq<Event>) {
    forall n: nat {:trigger FitsAt(events, n)} :: FitsAt(events, n)
  }

  lemma AfterStep(events: seq<Event>, n: nat)
    requires n < |events|
    ensures After(events[..n + 1]) == Try(After(events[..n]), events[n])
  {
    assert events[..n + 1][..n] == events[..n];
  }

  lemma {:induction false} FittingStepsKeepOrder(events: seq<Event>, n: nat)
    requires AllFit(events) && n <= |events|
    ensures InOrder(After(events[..n]))
  {
    if n > 0 {
      var m := n - 1;
      FittingStepsKeepOrder(events, m);
      BaseAlways(events[..m]);
      AfterStep(events, m);
      assert FitsAt(events, m);
      StepKeepsOrderIff(After(events[..m]), events[m]);
    }
  }

  /** Over every run, with handlers suspended at their awaits in any number and failing there: the index
      is in order throughout if and only if each subscribe that comes back from its first await, or fails
      there, finds its place, and none enters a set for a connection that has been cleaned up. */
  lemma {:induction false} IndexStaysInOrderIff(events: seq<Event>)
    ensures (forall n: nat {:trigger OrderedAt(events, n)} :: OrderedAt(events, n)) <==> AllFit(events)
  {
    if AllFit(events) {
      forall n: nat ensures OrderedAt(events, n) {
        if n <= |events| {
          FittingStepsKeepOrder(events, n);
        }
      }
    }
    if forall n: nat {:trigger OrderedAt(events, n)} :: OrderedAt(events, n) {
      forall n: nat ensures FitsAt(events, n) {
        if n < |events| {
          var next := n + 1;
          assert OrderedAt(events, n) && OrderedAt(events, next);
          BaseAlways(events[..n]);
          AfterStep(events, n);
          StepKeepsOrderIff(After(events[..n]), events[n]);
        }
      }
    }
  }

  /** A handler that leaves a state's set waits for the adapter exactly if it has just dropped the set. */
  lemma DroppedIsGivenBack(s: State, k: ConnId, ids: seq<PublicId>)
    requires k in s.conns
    ensures var out := UnsubscribeFrom(HubOf(s, k), k, ids);
      var i := Seek(ids, s.conns[k].subs.Keys);
      && (out.wait.None? <==> forall j :: 0 <= j < |ids| ==> ids[j] !in s.conns[k].subs)
      && (out.wait.Some? ==>
            && i < |ids| && out.wait.value.AtRelease? && out.wait.value.rest == ids[i + 1..]
            && (out.wait.value.emptied <==> s.conns[k].subs[ids[i]] in s.index && s.conns[k].subs[ids[i]] !in out.hub.index))
  {
  }

  // ---- What the index means ----

  lemma SubscribedToIs(subs: Subscriptions, state: StateId)
    ensures SubscribedTo(subs, state) <==> exists id :: SubscribedAs(subs, state, id)
  {
    if id :| SubscribedAs(subs, state, id) {
      assert id in subs && subs[id] == state;
    }
    if id :| id in subs && subs[id] == state {
      assert SubscribedAs(subs, state, id);
    }
  }

  /** Where every step fits, the index lists a connection under a state exactly if it is registered and
      has that subscription, unless one of its subscribes is waiting to enter; it knows no closed
      connection besides those, and no empty set of a state that nobody waits for. */
  lemma {:induction false} IndexIsInverse(events: seq<Event>, state: StateId, k: ConnId)
    requires AllFit(events)
    ensures var s := After(events);
      && (!Waits(s, k, state) ==>
            (Linked(s.index, state, k) <==> IsRegistered(s, k) && exists id :: SubscribedAs(s.conns[k].subs, state, id)))
      && ((forall j {:trigger Waits(s, j, state)} :: !Waits(s, j, state)) && state in s.index ==> s.index[state].members != {})
  {
    var s := After(events);
    FittingStepsKeepOrder(events, |events|);
    assert events[..|events|] == events;
    BaseAlways(events);
    assert Right(s, state, k) && Held(s, state);
    if k in s.conns {
      SubscribedToIs(s.conns[k].subs, state);
    }
    if state in s.index && s.index[state].members == {} {
      var h :| HeldBy(s, h, s.index[state].me);
      assert HandlerOk(s, h);
      assert WaitsIn(s, h, s.handlers[h].k, state);
      assert Waits(s, s.handlers[h].k, state);
    }
  }

  // What publishStateChange puts on the wire, told from the index as the method does.
  ghost predicate Delivers(s: State, state: StateId, k: ConnId, id: PublicId) {
    Linked(s.index, state, k) && k in s.conns && s.conns[k].open && SubscribedAs(s.conns[k].subs, state, id)
  }

  // The same told by scanning every registered connection.
  ghost predicate ScanDelivers(s: State, state: StateId, k: ConnId, id: PublicId) {
    k in s.conns && s.conns[k].phase == Registered && s.conns[k].open && SubscribedAs(s.conns[k].subs, state, id)
  }

  ghost predicate IsSent(sent: seq<(ConnId, PublicId)>, k: ConnId, id: PublicId) {
    exists i :: 0 <= i < |sent| && sent[i] == (k, id)
  }

  // The subscribers of a state, as PublishStateChange sees them.
  ghost function Subscribers(s: State, state: StateId): set<ConnId> {
    if state in s.index then set k | k in s.index[state].members && k in s.conns else {}
  }

  ghost predicate PublishedFrom(s: State, state: StateId, sent: seq<(ConnId, PublicId)>) {
    Published(set k | k in Subscribers(s, state) && s.conns[k].open, map k | k in Subscribers(s, state) :: s.conns[k].subs, state, sent)
  }

  lemma OnePublicId(events: seq<Event>, state: StateId, k: ConnId, id: PublicId, other: PublicId)
    requires Delivers(After(events), state, k, id) && Delivers(After(events), state, k, other)
    ensures id == other
  {
    BaseAlways(events);
    assert ConnOk(After(events), k);
  }

  /** What is sent is what the index delivers, in every run. */
  lemma {:induction false} SentIsDelivered(events: seq<Event>, state: StateId, sent: seq<(ConnId, PublicId)>, k: ConnId, id: PublicId)
    requires PublishedFrom(After(events), state, sent)
    ensures IsSent(sent, k, id) <==> Delivers(After(events), state, k, id)
    ensures forall i, j :: 0 <= i < j < |sent| ==> sent[i].0 != sent[j].0
    ensures state in After(events).index ==> Subscribers(After(events), state) == After(events).index[state].members
  {
    var s := After(events);
    BaseAlways(events);
    assert state in s.index ==> EntryOk(s, state);
    if i :| 0 <= i < |sent| && sent[i] == (k, id) {
      assert Delivers(s, state, k, id);
    }
    if Delivers(s, state, k, id) {
      assert SubscribedTo(s.conns[k].subs, state);
      assert Reached(sent, k);
      var i :| 0 <= i < |sent| && sent[i].0 == k;
      OnePublicId(events, state, k, id, sent[i].1);
      assert sent[i] == (k, id);
    }
  }

  /** Where every step fits, whatever publishStateChange sends a connection from the index is what a scan
      of all registered connections would send it, unless one of its subscribes is waiting to enter. */
  lemma {:induction false} PublishedIsScan(events: seq<Event>, state: StateId, sent: seq<(ConnId, PublicId)>, k: ConnId, id: PublicId)
    requires AllFit(events) && PublishedFrom(After(events), state, sent) && !Waits(After(events), k, state)
    ensures IsSent(sent, k, id) <==> ScanDelivers(After(events), state, k, id)
    ensures forall i, j :: 0 <= i < j < |sent| ==> sent[i].0 != sent[j].0
  {
    SentIsDelivered(events, state, sent, k, id);
    PublishIsScan(events, state, k, id, id);
  }

  /** The index publishes what a scan of all connections would, and to each under one public id only. */
  lemma {:induction false} PublishIsScan(events: seq<Event>, state: StateId, k: ConnId, id: PublicId, other: PublicId)
    requires AllFit(events) && !Waits(After(events), k, state)
    ensures Delivers(After(events), state, k, id) <==> ScanDelivers(After(events), state, k, id)
    ensures Delivers(After(events), state, k, id) && Delivers(After(events), state, k, other) ==> id == other
  {
    BaseAlways(events);
    IndexIsInverse(events, state, k);
    assert k in After(events).conns ==> ConnOk(After(events), k);
  }

  lemma ReleasedTwice(index: Index<ConnId, nat>, states: set<StateId>, k: ConnId)
    ensures ReleaseAll(ReleaseAll(index, states, k), states, k) == ReleaseAll(index, states, k)
  {
    var once := ReleaseAll(index, states, k);
    forall state | state in once && state in states
      ensures !Empties(once, state, k) && once[state].(members := once[state].members - {k}) == once[state]
    {
      assert once[state].members == index[state].members - {k};
      assert once[state].members - {k} == once[state].members;
    }
  }

  /** Running cleanup again at once, as 'error' followed by 'close' does, changes nothing. */
  lemma CleanupTwice(s: State, k: ConnId, phase: Phase)
    requires k in s.conns
    ensures AfterCleanup(AfterCleanup(s, k, phase), k, phase) == AfterCleanup(s, k, phase)
  {
    ReleasedTwice(s.index, s.conns[k].subs.Values, k);
  }

  // ---- A simpler condition ----

  /** Each subscribe that comes back from its first await finds its set in the index, its id in the map
      and its connection registered, none fails there, and no stretch of a subscribe starts for a
      connection that has been cleaned up. */
  ghost predicate FindsAll(s: State, e: Event) {
    Enabled(s, e) ==>
      match e
      case Receive(k, Subscribe(_)) => IsRegistered(s, k)
      case Resume(h) =>
        (var k := s.handlers[h].k;
         match s.handlers[h].wait
         case AtSubscribe(subscribers, id, state, _) =>
           state in s.index && s.index[state].me == subscribers && id in s.conns[k].subs && IsRegistered(s, k)
         case AtRead(_, _) => IsRegistered(s, k)
         case AtRelease(_, _) => true)
      case Fail(h) => !s.handlers[h].wait.AtSubscribe?
      case _ => true
  }

  ghost predicate FindsAllAt(events: seq<Event>, n: nat) {
    n < |events| ==> FindsAll(After(events[..n]), events[n])
  }

  /** That is enough for order. It is not needed: see OwnUnsubscribeIsHarmless. */
  lemma {:induction false} FindingAllKeepsOrder(events: seq<Event>)
    requires forall n: nat {:trigger FindsAllAt(events, n)} :: FindsAllAt(events, n)
    ensures AllFit(events) && forall n: nat {:trigger OrderedAt(events, n)} :: OrderedAt(events, n)
  {
    forall n: nat ensures FitsAt(events, n) {
      assert FindsAllAt(events, n);
    }
    IndexStaysInOrderIff(events);
  }
}

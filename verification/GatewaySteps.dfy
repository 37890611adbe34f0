/** What it means for the gateway's index to be in order, and what each kind of step does to that.

    A step fits if it keeps the order; which steps can fail to fit is told by what the handler finds when
    it comes back from an await.
*/
module GatewaySteps {
  import opened Common
  import opened Realtime
  import opened GatewayRuns

  // ---- The index in order ----

  ghost predicate WaitsIn(s: State, h: nat, k: ConnId, state: StateId) {
    h in s.handlers && s.handlers[h].k == k && s.handlers[h].wait.AtSubscribe? && s.handlers[h].wait.stateId == state
  }

  /** A subscribe of the connection waits at its first await for the state. */
  ghost predicate Waits(s: State, k: ConnId, state: StateId) {
    exists h {:trigger WaitsIn(s, h, k, state)} :: WaitsIn(s, h, k, state)
  }

  ghost predicate WaitsBesides(s: State, h: nat, k: ConnId, state: StateId) {
    exists j {:trigger WaitsIn(s, j, k, state)} :: j != h && WaitsIn(s, j, k, state)
  }

  ghost predicate IsRegistered(s: State, k: ConnId) {
    k in s.conns && s.conns[k].phase == Registered
  }

  /** The index lists the connection exactly if it is registered and subscribed. */
  ghost predicate IsExact(s: State, state: StateId, k: ConnId) {
    Linked(s.index, state, k) <==> IsRegistered(s, k) && SubscribedTo(s.conns[k].subs, state)
  }

  ghost predicate Right(s: State, state: StateId, k: ConnId) {
    Waits(s, k, state) || IsExact(s, state, k)
  }

  ghost predicate HeldBy(s: State, h: nat, subscribers: nat) {
    h in s.handlers && s.handlers[h].wait.AtSubscribe? && s.handlers[h].wait.subscribers == subscribers
  }

  /** An empty set of the index is one that a subscribe has just made. */
  ghost predicate Held(s: State, state: StateId) {
    state in s.index && s.index[state].members == {} ==>
      exists h {:trigger HeldBy(s, h, s.index[state].me)} :: HeldBy(s, h, s.index[state].me)
  }

  /** Wherever no subscribe waits at its first await, the index is the inverse of the registered
      connections' maps, and it holds no empty set but those such a subscribe has made. */
  ghost predicate InOrder(s: State) {
    && (forall state, k {:trigger Right(s, state, k)} :: Right(s, state, k))
    && (forall state {:trigger Held(s, state)} :: Held(s, state))
  }

  // ---- Which steps keep it ----

  /** A stretch of a subscribe: of a cleaned-up connection it must not enter a set. */
  ghost predicate MayStart(s: State, k: ConnId, ids: seq<PublicId>)
    requires k in s.conns
  {
    var readable := ReadableBy(s, k);
    var i := Seek(ids, readable.Keys);
    i < |ids| && readable[ids[i]] in s.index ==> IsRegistered(s, k) || Waits(s, k, readable[ids[i]])
  }

  /** A subscribe that comes back from its first await: the set it made is still that of the state, or
      the connection is in that set anyway, exactly if the connection is still registered and subscribed. */
  ghost predicate FindsItsPlace(s: State, h: nat)
    requires h in s.handlers && s.handlers[h].k in s.conns && s.handlers[h].wait.AtSubscribe?
  {
    var k, wait := s.handlers[h].k, s.handlers[h].wait;
    WaitsBesides(s, h, k, wait.stateId) ||
    (wait.stateId in s.index && (s.index[wait.stateId].me == wait.subscribers || k in s.index[wait.stateId].members) <==>
       IsRegistered(s, k) && wait.id in s.conns[k].subs)
  }

  /** A subscribe that fails at its first await: others are in the set it made, or it has been dropped,
      and the connection is in the state's set exactly if it is registered and subscribed. */
  ghost predicate MayFail(s: State, h: nat)
    requires h in s.handlers && s.handlers[h].k in s.conns && s.handlers[h].wait.AtSubscribe?
  {
    var k, wait := s.handlers[h].k, s.handlers[h].wait;
    && (wait.stateId in s.index && s.index[wait.stateId].me == wait.subscribers ==> s.index[wait.stateId].members != {})
    && (WaitsBesides(s, h, k, wait.stateId) ||
        (Linked(s.index, wait.stateId, k) <==> IsRegistered(s, k) && wait.id in s.conns[k].subs))
  }

  ghost predicate Fits(s: State, e: Event) {
    Enabled(s, e) ==>
      match e
      case Receive(k, Subscribe(ids)) => s.conns[k].ctx.Some? ==> MayStart(s, k, ids)
      case Resume(h) =>
        (match s.handlers[h].wait
         case AtSubscribe(_, _, _, _) => FindsItsPlace(s, h)
         case AtRead(_, rest) => MayStart(s, s.handlers[h].k, rest)
         case AtRelease(_, _) => true)
      case Fail(h) => s.handlers[h].wait.AtSubscribe? ==> MayFail(s, h)
      case _ => true
  }

  // A stretch moves one connection at one state.
  ghost predicate LinksMoveAt(index: Index<ConnId, nat>, index': Index<ConnId, nat>, k: ConnId, state: StateId) {
    forall j, t {:trigger Linked(index', t, j)} :: j != k || t != state ==> (Linked(index', t, j) <==> Linked(index, t, j))
  }

  ghost predicate SubsMoveAt(subs: Subscriptions, subs': Subscriptions, state: StateId) {
    forall t {:trigger SubscribedTo(subs', t)} :: t != state ==> (SubscribedTo(subs', t) <==> SubscribedTo(subs, t))
  }

  ghost predicate WaitsMoveAt(s: State, s': State, k: ConnId, state: StateId) {
    forall i, j, t {:trigger WaitsIn(s', i, j, t)} :: j != k || t != state ==> (WaitsIn(s', i, j, t) <==> WaitsIn(s, i, j, t))
  }

  ghost predicate MovesAt(s: State, s': State, k: ConnId, state: StateId) {
    && k in s.conns && k in s'.conns && s'.conns == s.conns[k := s'.conns[k]] && s'.conns[k].phase == s.conns[k].phase
    && SubsMoveAt(s.conns[k].subs, s'.conns[k].subs, state)
    && LinksMoveAt(s.index, s'.index, k, state) && WaitsMoveAt(s, s', k, state)
  }

  ghost predicate WaitsOnlyFor(wait: Option<Wait<nat>>, state: StateId) {
    wait.Some? && wait.value.AtSubscribe? ==> wait.value.stateId == state
  }

  lemma StretchMovesAt(s: State, h: nat, k: ConnId, out: Stretch<ConnId, nat>, state: StateId)
    requires Base(s) && Runs(s, h, k)
    requires SubsMoveAt(s.conns[k].subs, out.hub.subs, state) && LinksMoveAt(s.index, out.hub.index, k, state)
    requires WaitsOnlyFor(out.wait, state) && (h in s.handlers ==> WaitsOnlyFor(Some(s.handlers[h].wait), state))
    ensures MovesAt(s, AfterStretch(s, h, k, out), k, state)
  {
    assert s.next in s.handlers ==> HandlerOk(s, s.next);
  }

  lemma OnlyOneMoves(s: State, s': State, k: ConnId, state: StateId)
    requires InOrder(s) && MovesAt(s, s', k, state)
    ensures forall t, j {:trigger Right(s', t, j)} :: j != k || t != state ==> Right(s', t, j)
  {
    forall t, j | j != k || t != state ensures Right(s', t, j) {
      assert Right(s, t, j);
      if Waits(s, j, t) {
        var i :| WaitsIn(s, i, j, t);
        assert WaitsIn(s', i, j, t);
      }
    }
  }

  // The stretch neither leaves nor takes the first await.
  lemma WaitsStay(s: State, h: nat, k: ConnId, out: Stretch<ConnId, nat>, j: ConnId, state: StateId)
    requires Base(s) && Runs(s, h, k) && !(h in s.handlers && s.handlers[h].wait.AtSubscribe?)
    requires !(out.wait.Some? && out.wait.value.AtSubscribe?)
    ensures Waits(AfterStretch(s, h, k, out), j, state) <==> Waits(s, j, state)
  {
    var s' := AfterStretch(s, h, k, out);
    forall i ensures WaitsIn(s', i, j, state) <==> WaitsIn(s, i, j, state) {
      assert i in s.handlers ==> HandlerOk(s, i);
    }
  }

  lemma HeldStays(s: State, s': State, h: nat, state: StateId)
    requires Base(s) && Held(s, state) && (h in s.handlers ==> !s.handlers[h].wait.AtSubscribe? || !HeldBy(s, h, if state in s.index then s.index[state].me else 0))
    requires state in s'.index && state in s.index && s'.index[state].me == s.index[state].me
    requires s'.index[state].members == {} ==> s.index[state].members == {}
    requires forall j :: j in s.handlers && j != h ==> j in s'.handlers && s'.handlers[j] == s.handlers[j]
    ensures Held(s', state)
  {
    if s'.index[state].members == {} {
      var j :| HeldBy(s, j, s.index[state].me);
      assert HeldBy(s', j, s'.index[state].me);
    }
  }

  lemma SubscribedElsewhere(subs: Subscriptions, id: PublicId, state: StateId, t: StateId)
    requires id !in subs || subs[id] == state
    ensures SubscribedTo(subs[id := state], t) <==> SubscribedTo(subs, t) || t == state
    ensures t != state ==> (SubscribedTo(subs - {id}, t) <==> SubscribedTo(subs, t))
  {
    assert subs[id := state][id] == state;
    if x :| x in subs && subs[x] == t {
      assert subs[id := state][x] == t;
      assert t != state ==> x in subs - {id} && (subs - {id})[x] == t;
    }
  }

  // ---- Each kind of step ----

  lemma SubscribeMoves(s: State, h: nat, k: ConnId, ids: seq<PublicId>)
    requires Base(s) && Runs(s, h, k) && !(h in s.handlers && s.handlers[h].wait.AtSubscribe?)
    ensures var readable := ReadableBy(s, k);
      var i := Seek(ids, readable.Keys);
      var s' := AfterStretch(s, h, k, SubscribeFrom(HubOf(s, k), k, ids, readable, s.next));
      MovesAt(s, s', k, if i < |ids| then readable[ids[i]] else "")
  {
    var readable := ReadableBy(s, k);
    var i := Seek(ids, readable.Keys);
    var out := SubscribeFrom(HubOf(s, k), k, ids, readable, s.next);
    assert ConnOk(s, k);
    if i < |ids| {
      forall t ensures SubscribedTo(out.hub.subs, t) <==> SubscribedTo(s.conns[k].subs, t) || t == readable[ids[i]] {
        SubscribedElsewhere(s.conns[k].subs, ids[i], readable[ids[i]], t);
      }
    }
    StretchMovesAt(s, h, k, out, if i < |ids| then readable[ids[i]] else "");
  }

  lemma SubscribeKeepsHeld(s: State, h: nat, k: ConnId, ids: seq<PublicId>, state: StateId)
    requires Base(s) && InOrder(s) && Runs(s, h, k) && !(h in s.handlers && s.handlers[h].wait.AtSubscribe?)
    ensures Held(AfterStretch(s, h, k, SubscribeFrom(HubOf(s, k), k, ids, ReadableBy(s, k), s.next)), state)
  {
    var s' := AfterStretch(s, h, k, SubscribeFrom(HubOf(s, k), k, ids, ReadableBy(s, k), s.next));
    assert Held(s, state);
    if state in s'.index && state in s.index {
      HeldStays(s, s', h, state);
    } else if state in s'.index {
      assert HeldBy(s', h, s'.index[state].me);
    }
  }

  lemma SubscribeKeepsIff(s: State, h: nat, k: ConnId, ids: seq<PublicId>)
    requires Base(s) && InOrder(s) && Runs(s, h, k) && !(h in s.handlers && s.handlers[h].wait.AtSubscribe?)
    ensures InOrder(AfterStretch(s, h, k, SubscribeFrom(HubOf(s, k), k, ids, ReadableBy(s, k), s.next))) <==> MayStart(s, k, ids)
  {
    var readable := ReadableBy(s, k);
    var i := Seek(ids, readable.Keys);
    var out := SubscribeFrom(HubOf(s, k), k, ids, readable, s.next);
    var s' := AfterStretch(s, h, k, out);
    var state := if i < |ids| then readable[ids[i]] else "";
    SubscribeMoves(s, h, k, ids);
    OnlyOneMoves(s, s', k, state);
    forall t ensures Held(s', t) {
      SubscribeKeepsHeld(s, h, k, ids, t);
    }
    assert Right(s, state, k);
    if i < |ids| {
      SubscribedElsewhere(s.conns[k].subs, ids[i], state, state) by {
        assert ConnOk(s, k);
      }
      if state in s.index {
        WaitsStay(s, h, k, out, k, state);
        assert Right(s', state, k) <==> MayStart(s, k, ids);
      } else {
        assert WaitsIn(s', h, k, state);
        assert Right(s', state, k);
      }
    } else {
      WaitsStay(s, h, k, out, k, state);
      assert Right(s', state, k);
    }
  }

  // Whoever else is in a set is still in it when k leaves.
  lemma OthersRemain(index: Index<ConnId, nat>, state: StateId, k: ConnId, j: ConnId)
    requires Linked(index, state, j) && j != k
    ensures !Empties(index, state, k)
  {
    assert j in index[state].members - {k};
  }

  lemma ReleaseMoves(index: Index<ConnId, nat>, state: StateId, k: ConnId)
    ensures LinksMoveAt(index, Release(index, state, k), k, state)
  {
    forall j, t | j != k || t != state ensures Linked(Release(index, state, k), t, j) <==> Linked(index, t, j) {
      if t == state && Linked(index, t, j) {
        OthersRemain(index, t, k, j);
      }
    }
  }

  lemma UnsubscribeMoves(s: State, h: nat, k: ConnId, ids: seq<PublicId>)
    requires Base(s) && Runs(s, h, k) && !(h in s.handlers && s.handlers[h].wait.AtSubscribe?)
    ensures var subs := s.conns[k].subs;
      var i := Seek(ids, subs.Keys);
      var s' := AfterStretch(s, h, k, UnsubscribeFrom(HubOf(s, k), k, ids));
      MovesAt(s, s', k, if i < |ids| then subs[ids[i]] else "")
  {
    var subs := s.conns[k].subs;
    var i := Seek(ids, subs.Keys);
    var out := UnsubscribeFrom(HubOf(s, k), k, ids);
    if i < |ids| {
      forall t | t != subs[ids[i]] ensures SubscribedTo(out.hub.subs, t) <==> SubscribedTo(subs, t) {
        SubscribedElsewhere(subs, ids[i], subs[ids[i]], t);
      }
      ReleaseMoves(s.index, subs[ids[i]], k);
    }
    StretchMovesAt(s, h, k, out, if i < |ids| then subs[ids[i]] else "");
  }

  lemma UnsubscribeKeeps(s: State, h: nat, k: ConnId, ids: seq<PublicId>)
    requires Base(s) && InOrder(s) && Runs(s, h, k) && !(h in s.handlers && s.handlers[h].wait.AtSubscribe?)
    ensures InOrder(AfterStretch(s, h, k, UnsubscribeFrom(HubOf(s, k), k, ids)))
  {
    var subs := s.conns[k].subs;
    var i := Seek(ids, subs.Keys);
    var out := UnsubscribeFrom(HubOf(s, k), k, ids);
    var s' := AfterStretch(s, h, k, out);
    var state := if i < |ids| then subs[ids[i]] else "";
    UnsubscribeMoves(s, h, k, ids);
    OnlyOneMoves(s, s', k, state);
    forall t ensures Held(s', t) {
      assert Held(s, t);
      if t in s'.index {
        HeldStays(s, s', h, t);
      }
    }
    assert Right(s, state, k);
    assert Right(s', state, k) by {
      if i < |ids| {
        assert ConnOk(s, k);
        assert !SubscribedTo(out.hub.subs, state);
      } else {
        WaitsStay(s, h, k, out, k, state);
      }
    }
  }

  lemma JoinMoves(s: State, h: nat)
    requires Base(s) && h in s.handlers && s.handlers[h].k in s.conns && s.handlers[h].wait.AtSubscribe?
    ensures MovesAt(s, AfterResume(s, h), s.handlers[h].k, s.handlers[h].wait.stateId)
  {
    var k, wait := s.handlers[h].k, s.handlers[h].wait;
    assert HandlerOk(s, h) && Runs(s, h, k);
    StretchMovesAt(s, h, k, Resumed(HubOf(s, k), k, wait, ReadableBy(s, k), s.next), wait.stateId);
  }

  lemma JoinKeepsHeld(s: State, h: nat, state: StateId)
    requires Base(s) && InOrder(s) && h in s.handlers && s.handlers[h].k in s.conns && s.handlers[h].wait.AtSubscribe?
    ensures Held(AfterResume(s, h), state)
  {
    var s' := AfterResume(s, h);
    assert Held(s, state) && HandlerOk(s, h);
    if state in s'.index && s'.index[state].members == {} {
      HeldStays(s, s', h, state);
    }
  }

  // Who else waits is who still waits.
  lemma WaitsOn(s: State, s': State, h: nat, k: ConnId, state: StateId)
    requires h in s.handlers && forall i :: i != h ==> (WaitsIn(s', i, k, state) <==> WaitsIn(s, i, k, state))
    requires h in s'.handlers ==> !s'.handlers[h].wait.AtSubscribe?
    ensures Waits(s', k, state) <==> WaitsBesides(s, h, k, state)
  {
    if i :| i != h && WaitsIn(s, i, k, state) {
      assert WaitsIn(s', i, k, state);
    }
    if i :| WaitsIn(s', i, k, state) {
      assert i != h && WaitsIn(s, i, k, state);
    }
  }

  lemma SubscribedByItsId(s: State, k: ConnId, id: PublicId)
    requires Base(s) && k in s.conns && id in s.mappings
    ensures SubscribedTo(s.conns[k].subs, s.mappings[id]) <==> id in s.conns[k].subs
  {
    assert ConnOk(s, k);
  }

  lemma JoinKeepsIff(s: State, h: nat)
    requires Base(s) && InOrder(s) && h in s.handlers && s.handlers[h].k in s.conns && s.handlers[h].wait.AtSubscribe?
    ensures InOrder(AfterResume(s, h)) <==> FindsItsPlace(s, h)
  {
    var s' := AfterResume(s, h);
    var k, wait := s.handlers[h].k, s.handlers[h].wait;
    JoinMoves(s, h);
    OnlyOneMoves(s, s', k, wait.stateId);
    forall t ensures Held(s', t) {
      JoinKeepsHeld(s, h, t);
    }
    assert HandlerOk(s, h);
    SubscribedByItsId(s, k, wait.id);
    WaitsOn(s, s', h, k, wait.stateId);
    assert Right(s', wait.stateId, k) <==> FindsItsPlace(s, h);
  }

  lemma FailKeepsIff(s: State, h: nat)
    requires Base(s) && InOrder(s) && Enabled(s, Event.Fail(h)) && s.handlers[h].wait.AtSubscribe?
    ensures InOrder(Next(s, Event.Fail(h))) <==> MayFail(s, h)
  {
    var s' := Next(s, Event.Fail(h));
    var k, wait := s.handlers[h].k, s.handlers[h].wait;
    var state := wait.stateId;
    OnlyOneMoves(s, s', k, state);
    assert HandlerOk(s, h);
    SubscribedByItsId(s, k, wait.id);
    WaitsOn(s, s', h, k, state);
    assert Right(s', state, k) <==> WaitsBesides(s, h, k, state) || (Linked(s.index, state, k) <==> IsRegistered(s, k) && wait.id in s.conns[k].subs);
    var taken := state in s.index && s.index[state].me == wait.subscribers && s.index[state].members == {};
    assert taken ==> !Held(s', state);
    if !taken {
      forall t ensures Held(s', t) {
        assert Held(s, t);
        if t in s'.index && s'.index[t].members == {} {
          HeldStays(s, s', h, t);
        }
      }
    }
  }

  // A step that ends no first await and moves no link but those of a connection that leaves.
  lemma QuietStepKeeps(s: State, s': State, k: ConnId)
    requires Base(s) && InOrder(s)
    requires forall h, j, t {:trigger WaitsIn(s', h, j, t)} :: WaitsIn(s', h, j, t) <==> WaitsIn(s, h, j, t)
    requires forall h, m {:trigger HeldBy(s', h, m)} :: HeldBy(s', h, m) <==> HeldBy(s, h, m)
    requires forall j, t {:trigger IsExact(s', t, j)} :: IsExact(s, t, j) ==> IsExact(s', t, j)
    requires forall t :: t in s'.index ==>
      t in s.index && s'.index[t].me == s.index[t].me && (s'.index[t].members == {} ==> s.index[t].members == {})
    ensures InOrder(s')
  {
    forall t, j ensures Right(s', t, j) {
      assert Right(s, t, j);
      if Waits(s, j, t) {
        var h :| WaitsIn(s, h, j, t);
        assert WaitsIn(s', h, j, t);
      } else {
        assert IsExact(s', t, j);
      }
    }
    forall t ensures Held(s', t) {
      assert Held(s, t);
      if t in s'.index && s'.index[t].members == {} {
        var h :| HeldBy(s, h, s.index[t].me);
        assert HeldBy(s', h, s'.index[t].me);
      }
    }
  }

  lemma CleanupKeeps(s: State, k: ConnId, phase: Phase)
    requires Base(s) && InOrder(s) && k in s.conns && phase != Registered
    ensures InOrder(AfterCleanup(s, k, phase))
  {
    var s' := AfterCleanup(s, k, phase);
    forall j, t | IsExact(s, t, j) ensures IsExact(s', t, j) {
      if j != k && Linked(s.index, t, j) {
        OthersRemain(s.index, t, k, j);
      }
      if j == k && Linked(s.index, t, k) {
        var id :| id in s.conns[k].subs && s.conns[k].subs[id] == t;
        assert t in s.conns[k].subs.Values;
      }
    }
    QuietStepKeeps(s, s', k);
  }

  lemma ConnectKeeps(s: State, k: ConnId)
    requires Base(s) && InOrder(s) && k !in s.conns
    ensures InOrder(Next(s, Connect(k)))
  {
    var s' := Next(s, Connect(k));
    forall j, t | IsExact(s, t, j) ensures IsExact(s', t, j) {
      assert t in s.index ==> EntryOk(s, t);
    }
    QuietStepKeeps(s, s', k);
  }

  lemma OtherStepKeeps(s: State, e: Event)
    requires Base(s) && InOrder(s) && Enabled(s, e)
    requires e.AcceptAuth? || e.CloseSocket? || e.GetOrCreateMapping? || e.SetPermissions? || (e.Fail? && !s.handlers[e.h].wait.AtSubscribe?)
    ensures InOrder(Next(s, e))
  {
    QuietStepKeeps(s, Next(s, e), 0);
  }

  /** From an index in order, a step leaves it in order exactly when it fits. */
  lemma StepKeepsOrderIff(s: State, e: Event)
    requires Base(s) && InOrder(s)
    ensures InOrder(Try(s, e)) <==> Fits(s, e)
  {
    if Enabled(s, e) {
      match e
      case Connect(k) => ConnectKeeps(s, k);
      case Receive(k, message) => MessageKeepsIff(s, k, message);
      case Resume(h) => ResumeKeepsIff(s, h);
      case Fail(h) =>
        if s.handlers[h].wait.AtSubscribe? {
          FailKeepsIff(s, h);
        } else {
          OtherStepKeeps(s, e);
        }
      case Drop(k) => CleanupKeeps(s, k, Dropped);
      case CloseEvent(k) => CleanupKeeps(s, k, Closed);
      case _ => OtherStepKeeps(s, e);
    }
  }

  lemma MessageKeepsIff(s: State, k: ConnId, message: Message)
    requires Base(s) && InOrder(s) && Enabled(s, Receive(k, message))
    ensures InOrder(AfterMessage(s, k, message)) <==> Fits(s, Receive(k, message))
  {
    assert s.next in s.handlers ==> HandlerOk(s, s.next);
    if s.conns[k].ctx.Some? {
      match message
      case Subscribe(ids) => SubscribeKeepsIff(s, s.next, k, ids);
      case Unsubscribe(ids) => UnsubscribeKeeps(s, s.next, k, ids);
    }
  }

  lemma ResumeKeepsIff(s: State, h: nat)
    requires Base(s) && InOrder(s) && Enabled(s, Event.Resume(h))
    ensures InOrder(AfterResume(s, h)) <==> Fits(s, Event.Resume(h))
  {
    assert HandlerOk(s, h);
    match s.handlers[h].wait
    case AtSubscribe(_, _, _, _) => JoinKeepsIff(s, h);
    case AtRead(_, rest) => SubscribeKeepsIff(s, h, s.handlers[h].k, rest);
    case AtRelease(rest, _) => UnsubscribeKeeps(s, h, s.handlers[h].k, rest);
  }
}

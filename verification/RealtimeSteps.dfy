/** What it means for client and gateway to agree, and what each kind of step does to that.

    A step fits if it keeps the agreement; only stretches of the client's own messages, and their failures,
    can fail to fit.
*/
module RealtimeSteps {
  import opened Common
  import opened Realtime
  import opened GatewayRuns
  import opened RealtimeClient
  import opened P = RealtimeProtocol

  // ---- What holds in every run ----

  ghost predicate SocketOk(cfg: Setting, w: World, k: ConnId) {
    k in w.sockets ==>
      && (k in w.oks ==> k in w.gw.conns && w.gw.conns[k].ctx.Some?)
      && (k in w.gw.conns ==>
            && w.gw.conns[k].subs.Keys <= ReadableIds(cfg)
            && (w.gw.conns[k].ctx.Some? ==> w.gw.conns[k].ctx.value == cfg.ctx)
            && (w.gw.conns[k].ctx.None? ==> w.gw.conns[k].subs == map[]))
  }

  ghost predicate ServerOk(cfg: Setting, w: World) {
    && Base(w.gw) && w.gw.mappings == cfg.mappings && w.gw.canRead == cfg.canRead
    && (forall k {:trigger SocketOk(cfg, w, k)} :: SocketOk(cfg, w, k))
    && w.oks <= w.sockets.Keys
    && (w.current.Some? ==> w.current.value in w.sockets && w.current.value in w.gw.conns)
  }

  // What a step does at the gateway.
  ghost function EventOf(cfg: Setting, w: World, step: Step): Option<Event>
    requires Possible(w, step)
  {
    match step
    case OpenSocket(k, _) => Some(Connect(k))
    case ServerTakes(k) =>
      (match w.sockets[k].inFlight[0]
       case Auth(accepted) => Some(if accepted then AcceptAuth(k, cfg.ctx) else CloseSocket(k))
       case Talk(message) => Some(Receive(k, message)))
    case GatewayEvent(event) => Some(event)
    case _ => None
  }

  lemma StepAtGateway(cfg: Setting, w: World, step: Step)
    requires Possible(w, step)
    ensures P.Next(cfg, w, step).gw == if EventOf(cfg, w, step).Some? then Try(w.gw, EventOf(cfg, w, step).value) else w.gw
  {
  }

  lemma ReadableIs(cfg: Setting, w: World, k: ConnId)
    requires ServerOk(cfg, w) && k in w.sockets && k in w.gw.conns && w.gw.conns[k].ctx.Some?
    ensures ReadableBy(w.gw, k).Keys == ReadableIds(cfg)
  {
    assert SocketOk(cfg, w, k);
  }

  // ---- What a stretch does to the map of its connection ----

  function Known(gw: State, k: ConnId, message: Message): set<PublicId>
    requires k in gw.conns
  {
    if message.Subscribe? then ReadableBy(gw, k).Keys else gw.conns[k].subs.Keys
  }

  // The ids that one stretch deals with, and those it leaves.
  function Dealt(ids: seq<PublicId>, known: set<PublicId>): seq<PublicId> {
    var i := Seek(ids, known);
    if i < |ids| then ids[..i + 1] else ids
  }

  function Left(ids: seq<PublicId>, known: set<PublicId>): seq<PublicId> {
    ids[|Dealt(ids, known)|..]
  }

  function WithIds(message: Message, ids: seq<PublicId>): Message {
    if message.Subscribe? then Message.Subscribe(ids) else Message.Unsubscribe(ids)
  }

  lemma StretchDeals(gw: State, k: ConnId, message: Message, made: nat, x: PublicId)
    requires k in gw.conns
    ensures var out := Handle(HubOf(gw, k), k, message, ReadableBy(gw, k), made);
      var known := Known(gw, k, message);
      && (x in out.hub.subs <==>
            if x in Dealt(message.ids, known) && (message.Unsubscribe? || x in known) then message.Subscribe? else x in gw.conns[k].subs)
      && (out.wait.None? ==> Left(message.ids, known) == [])
      && (out.wait.Some? ==> StillToDo(out.wait.value) == WithIds(message, Left(message.ids, known)))
  {
    var known := Known(gw, k, message);
    var i := Seek(message.ids, known);
    if i < |message.ids| {
      assert message.ids[..i + 1] == message.ids[..i] + [message.ids[i]];
    }
  }

  // What an event does to a connection: its subscriptions stay among the readable, its handlers its own.
  lemma ConnMoves(gw: State, e: Event, j: ConnId)
    requires Base(gw) && Enabled(gw, e) && j in gw.conns
    ensures j in Try(gw, e).conns
    ensures Try(gw, e).conns[j].subs.Keys <= gw.conns[j].subs.Keys + ReadableBy(gw, j).Keys
    ensures Try(gw, e).conns[j].ctx == if e.AcceptAuth? && e.k == j then Some(e.ctx) else gw.conns[j].ctx
    ensures gw.conns[j].ctx.None? ==> Try(gw, e).conns[j].subs == gw.conns[j].subs
  {
    if e.Resume? {
      ResumeMoves(gw, e.h, j);
    } else if e.Receive? {
      MessageMoves(gw, e.k, e.message, j);
    }
  }

  lemma ResumeMoves(gw: State, h: nat, j: ConnId)
    requires Base(gw) && Enabled(gw, Resume(h)) && j in gw.conns
    ensures var c := AfterResume(gw, h).conns[j];
      && c.subs.Keys <= gw.conns[j].subs.Keys + ReadableBy(gw, j).Keys && c.ctx == gw.conns[j].ctx
      && (gw.conns[j].ctx.None? ==> c.subs == gw.conns[j].subs)
  {
    assert HandlerOk(gw, h);
  }

  lemma MessageMoves(gw: State, k: ConnId, message: Message, j: ConnId)
    requires k in gw.conns && j in gw.conns
    ensures var c := AfterMessage(gw, k, message).conns[j];
      && c.subs.Keys <= gw.conns[j].subs.Keys + ReadableBy(gw, j).Keys && c.ctx == gw.conns[j].ctx
      && (gw.conns[j].ctx.None? ==> c.subs == gw.conns[j].subs)
  {
  }

  lemma SocketsKept(cfg: Setting, w: World, step: Step, k: ConnId)
    requires ServerOk(cfg, w) && Possible(w, step)
    ensures SocketOk(cfg, Proceed(cfg, w, step), k)
  {
    StepAtGateway(cfg, w, step);
    assert SocketOk(cfg, w, k);
    var e := EventOf(cfg, w, step);
    if e.Some? && Enabled(w.gw, e.value) && k in w.gw.conns {
      ConnMoves(w.gw, e.value, k);
      if k in w.sockets && w.gw.conns[k].ctx.Some? {
        ReadableIs(cfg, w, k);
      }
    }
  }

  lemma StepKeepsServer(cfg: Setting, w: World, step: Step)
    requires ServerOk(cfg, w)
    ensures ServerOk(cfg, Proceed(cfg, w, step))
  {
    if Possible(w, step) {
      StepAtGateway(cfg, w, step);
      forall k ensures SocketOk(cfg, Proceed(cfg, w, step), k) {
        SocketsKept(cfg, w, step, k);
      }
      var e := EventOf(cfg, w, step);
      if e.Some? {
        StepKeepsBase(w.gw, e.value);
      }
    }
  }

  lemma {:induction false} ServerAlwaysOk(cfg: Setting, steps: seq<Step>)
    requires OneIdPerState(cfg.mappings)
    ensures ServerOk(cfg, P.After(cfg, steps))
  {
    if |steps| > 0 {
      ServerAlwaysOk(cfg, steps[..|steps| - 1]);
      StepKeepsServer(cfg, P.After(cfg, steps[..|steps| - 1]), steps[|steps| - 1]);
    }
  }

  // ---- Agreement ----

  // Nothing unwanted is on its way, and after the greeting everything wanted is.
  ghost predicate Agrees(side: Side, greeted: bool, wanted: set<PublicId>, readable: set<PublicId>) {
    && side.ids <= wanted * readable
    && (!side.authed ==> side.ids == {})
    && (greeted ==> side.authed && side.ids == wanted * readable)
  }

  ghost predicate IsCurrent(w: World, k: ConnId) {
    w.current == Some(k) && k in w.sockets && w.sockets[k].open
  }

  /** With all that is to come done, the server's side of the current socket is what the client wants. */
  ghost predicate AgreesNow(cfg: Setting, w: World) {
    w.current.Some? && IsCurrent(w, w.current.value) ==>
      Agrees(Settled(cfg, w, w.current.value), w.greeted, w.wanted, ReadableIds(cfg))
  }

  // ---- Which steps keep it ----

  // The client would mind the id's ending up the other way.
  ghost predicate Matters(w: World, adds: bool, x: PublicId) {
    if adds then w.greeted else x !in w.wanted
  }

  /** A stretch overtakes: it deals with an id on which an earlier message, suspended, has still to do the
      opposite, and nothing later names the id. */
  ghost predicate Overtakes(cfg: Setting, w: World, first: seq<Frame>, dealt: seq<PublicId>, later: seq<Frame>, adds: bool) {
    exists x {:trigger x in dealt} :: x in dealt && IsOvertaken(cfg, first, later, adds, x) && Matters(w, adds, x)
  }

  ghost predicate IsOvertaken(cfg: Setting, first: seq<Frame>, later: seq<Frame>, adds: bool, x: PublicId) {
    x in ReadableIds(cfg) && LastWord(first, x) == Some(!adds) && LastWord(later, x).None?
  }

  ghost predicate StretchFits(cfg: Setting, w: World, k: ConnId, first: seq<Frame>, message: Message, after: seq<Frame>)
    requires k in w.gw.conns
  {
    var known := Known(w.gw, k, message);
    !Overtakes(cfg, w, first, Dealt(message.ids, known), [Talk(WithIds(message, Left(message.ids, known)))] + after, message.Subscribe?)
  }

  /** A handler that fails leaves ids undone: each is named later, or ends up the same without it. */
  ghost predicate MayGiveUp(cfg: Setting, w: World, k: ConnId, first: seq<Frame>, message: Message, after: seq<Frame>)
    requires k in w.gw.conns
  {
    forall x {:trigger x in message.ids} ::
      x in message.ids && x in ReadableIds(cfg) && LastWord(after, x).None? && Matters(w, message.Subscribe?, x) ==>
      EndsIn(x in w.gw.conns[k].subs, first, x) == message.Subscribe?
  }

  ghost function Before(w: World, k: ConnId, h: nat): seq<Frame> {
    Suspended(w.gw, k, 0, h)
  }

  ghost function Behind(w: World, k: ConnId, h: nat): seq<Frame>
    requires k in w.sockets
  {
    Suspended(w.gw, k, h + 1, w.gw.next) + w.sockets[k].inFlight
  }

  ghost predicate StepFits(cfg: Setting, w: World, step: Step) {
    Possible(w, step) ==>
      match step
      case ServerTakes(k) =>
        var frame := w.sockets[k].inFlight[0];
        IsCurrent(w, k) && frame.Talk? && w.gw.conns[k].ctx.Some? ==>
          StretchFits(cfg, w, k, Before(w, k, w.gw.next), frame.message, w.sockets[k].inFlight[1..])
      case GatewayEvent(Resume(h)) =>
        var k, wait := w.gw.handlers[h].k, w.gw.handlers[h].wait;
        IsCurrent(w, k) && !wait.AtSubscribe? ==> StretchFits(cfg, w, k, Before(w, k, h), StillToDo(wait), Behind(w, k, h))
      case GatewayEvent(Fail(h)) =>
        var k := w.gw.handlers[h].k;
        IsCurrent(w, k) ==> MayGiveUp(cfg, w, k, Before(w, k, h), StillToDo(w.gw.handlers[h].wait), Behind(w, k, h))
      case _ => true
  }

  // ---- Steps that leave what is to come as it is, or add to it ----

  lemma NothingOfTheUnauthed(cfg: Setting, w: World, k: ConnId, a: nat, b: nat)
    requires ServerOk(cfg, w) && (k in w.gw.conns ==> w.gw.conns[k].ctx.None?)
    ensures Suspended(w.gw, k, a, b) == []
    decreases b
  {
    if a < b {
      NothingOfTheUnauthed(cfg, w, k, a, b - 1);
      var h: nat := b - 1;
      assert h in w.gw.handlers ==> HandlerOk(w.gw, h);
    }
  }

  lemma {:induction false} NothingBeyond(gw: State, k: ConnId, a: nat, b: nat)
    requires forall h {:trigger IsOf(gw, k, h)} :: a <= h < b ==> !IsOf(gw, k, h)
    ensures Suspended(gw, k, a, b) == []
    decreases b
  {
    if a < b {
      NothingBeyond(gw, k, a, b - 1);
    }
  }

  // The gateway does nothing to a socket's connection.
  lemma OthersLeave(cfg: Setting, w: World, w': World, k: ConnId)
    requires ServerOk(cfg, w) && ServerOk(cfg, w') && k in w.sockets && k in w'.sockets
    requires SideOf(w'.gw, k) == SideOf(w.gw, k) && w'.gw.next >= w.gw.next
    requires forall h {:trigger IsOf(w'.gw, k, h)} ::
      IsOf(w'.gw, k, h) == IsOf(w.gw, k, h) && (IsOf(w.gw, k, h) ==> w'.gw.handlers[h] == w.gw.handlers[h])
    ensures w'.sockets[k].inFlight == w.sockets[k].inFlight ==> Settled(cfg, w', k) == Settled(cfg, w, k)
    ensures Suspended(w'.gw, k, 0, w'.gw.next) == Suspended(w.gw, k, 0, w.gw.next)
  {
    SuspendedSplits(w'.gw, k, 0, w.gw.next, w'.gw.next);
    forall h: nat | h < w.gw.next ensures IsOf(w'.gw, k, h) == IsOf(w.gw, k, h) && (IsOf(w.gw, k, h) ==> w'.gw.handlers[h] == w.gw.handlers[h]) {}
    SuspendedSame(w.gw, w'.gw, k, 0, w.gw.next);
    forall h | w.gw.next <= h < w'.gw.next ensures !IsOf(w'.gw, k, h) {
      assert h in w.gw.handlers ==> HandlerOk(w.gw, h);
    }
    NothingBeyond(w'.gw, k, w.gw.next, w'.gw.next);
    assert Suspended(w'.gw, k, 0, w'.gw.next) == Suspended(w.gw, k, 0, w.gw.next);
    assert w'.sockets[k].inFlight == w.sockets[k].inFlight ==> ToCome(w', k) == ToCome(w, k);
  }

  lemma SentSettles(cfg: Setting, w: World, k: ConnId, frame: Frame)
    requires k in w.sockets && w.sockets[k].open
    ensures Settled(cfg, Sent(w, k, frame), k) == Apply(Settled(cfg, w, k), frame, ReadableIds(cfg))
  {
    ApplyLast(SideOf(w.gw, k), ToCome(w, k), frame, ReadableIds(cfg));
    assert ToCome(Sent(w, k, frame), k) == ToCome(w, k) + [frame];
  }

  lemma WantMoreAgrees(cfg: Setting, w: World, ids: seq<PublicId>)
    requires ServerOk(cfg, w) && AgreesNow(cfg, w) && |ids| > 0
    ensures AgreesNow(cfg, Proceed(cfg, w, WantMore(ids)))
  {
    if w.current.Some? && IsCurrent(w, w.current.value) {
      var w' := w.(wanted := w.wanted + Set(ids));
      assert Settled(cfg, w', w.current.value) == Settled(cfg, w, w.current.value);
      SentSettles(cfg, w', w.current.value, Talk(Message.Subscribe(ids)));
    }
  }

  lemma WantLessAgrees(cfg: Setting, w: World, ids: seq<PublicId>)
    requires ServerOk(cfg, w) && AgreesNow(cfg, w) && |ids| > 0
    ensures AgreesNow(cfg, Proceed(cfg, w, WantLess(ids)))
  {
    if w.current.Some? && IsCurrent(w, w.current.value) {
      var w' := w.(wanted := w.wanted - Set(ids));
      assert Settled(cfg, w', w.current.value) == Settled(cfg, w, w.current.value);
      SentSettles(cfg, w', w.current.value, Talk(Message.Unsubscribe(ids)));
    }
  }

  lemma SendAuthAgrees(cfg: Setting, w: World, k: ConnId, accepted: bool)
    requires ServerOk(cfg, w) && AgreesNow(cfg, w) && k in w.sockets
    ensures AgreesNow(cfg, Proceed(cfg, w, SendAuth(k, accepted)))
  {
    if w.sockets[k].open {
      SentSettles(cfg, w, k, Auth(accepted));
      var w' := Sent(w, k, Auth(accepted));
      assert w.current.Some? && w.current.value in w.sockets && w.current.value != k ==>
        Settled(cfg, w', w.current.value) == Settled(cfg, w, w.current.value);
    }
  }

  lemma GreetingAgrees(cfg: Setting, w: World, k: ConnId, list: seq<PublicId>)
    requires ServerOk(cfg, w) && AgreesNow(cfg, w) && Possible(w, AuthOkArrives(k, list))
    ensures AgreesNow(cfg, Proceed(cfg, w, AuthOkArrives(k, list)))
  {
    assert Set(list) == w.wanted;
    if w.current.Some? && IsCurrent(w, w.current.value) {
      var c := w.current.value;
      assert SocketOk(cfg, w, c);
      if c == k {
        AuthedStays(SideOf(w.gw, k), ToCome(w, k), ReadableIds(cfg));
      }
      var heard := w.(greeted := w.greeted || w.current == Some(k));
      assert Settled(cfg, heard, c) == Settled(cfg, w, c);
      SentSettles(cfg, heard, c, Talk(Message.Subscribe(list)));
    }
  }

  lemma OpenAgrees(cfg: Setting, w: World, k: ConnId, keep: nat)
    requires ServerOk(cfg, w) && Possible(w, OpenSocket(k, keep))
    ensures AgreesNow(cfg, Proceed(cfg, w, OpenSocket(k, keep)))
  {
    var w' := Proceed(cfg, w, OpenSocket(k, keep));
    NothingOfTheUnauthed(cfg, w, k, 0, w.gw.next);
    forall h ensures !IsOf(w'.gw, k, h) {
      assert h in w.gw.handlers ==> HandlerOk(w.gw, h);
    }
    NothingBeyond(w'.gw, k, 0, w'.gw.next);
    assert ToCome(w', k) == [];
  }

  lemma BreakAgrees(cfg: Setting, w: World, step: Step)
    requires ServerOk(cfg, w) && AgreesNow(cfg, w) && (step.DropSocket? || step.BreakSocket?)
    ensures AgreesNow(cfg, Proceed(cfg, w, step))
  {
    var w' := Proceed(cfg, w, step);
    if w'.current.Some? && IsCurrent(w', w'.current.value) {
      assert Settled(cfg, w', w'.current.value) == Settled(cfg, w, w.current.value);
    }
  }

  // ---- Steps that do some of what is to come ----

  lemma LastWordOfThree(first: seq<Frame>, frame: Frame, later: seq<Frame>, x: PublicId)
    ensures LastWord(first + [frame] + later, x) ==
      if LastWord(later, x).Some? then LastWord(later, x)
      else if Names(frame, x) then Some(frame.message.Subscribe?) else LastWord(first, x)
    ensures LastWord([frame] + later, x) ==
      if LastWord(later, x).Some? then LastWord(later, x) else if Names(frame, x) then Some(frame.message.Subscribe?) else None
  {
    LastWordOf(first + [frame], later, x);
    LastWordOf(first, [frame], x);
    LastWordOf([frame], later, x);
    LastWordOfOne(frame, x);
  }

  // The rest of a message is still said, or there is no rest and nothing is.
  ghost predicate SaysRest(rest: seq<Frame>, message: Message) {
    rest == [Talk(message)] || (rest == [] && message.ids == [])
  }

  lemma RestSaysTheSame(first: seq<Frame>, rest: seq<Frame>, message: Message, later: seq<Frame>, x: PublicId)
    requires SaysRest(rest, message)
    ensures LastWord(first + rest + later, x) == LastWord(first + [Talk(message)] + later, x)
  {
    if rest == [] {
      assert first + rest + later == first + later;
      LastWordOfThree(first, Talk(message), later, x);
      LastWordOf(first, later, x);
    }
  }

  // How the id ends before and after a stretch that deals with some of a message.
  lemma StretchEnds(cfg: Setting, now: bool, now': bool, first: seq<Frame>, message: Message, dealt: seq<PublicId>, left: seq<PublicId>,
                    later: seq<Frame>, x: PublicId)
    requires message.ids == dealt + left && x in ReadableIds(cfg)
    requires now' == if x in dealt then message.Subscribe? else now
    ensures var rest := Talk(WithIds(message, left));
      var before := EndsIn(now, first + [Talk(message)] + later, x);
      var after := EndsIn(now', first + [rest] + later, x);
      if x in dealt && IsOvertaken(cfg, first, [rest] + later, message.Subscribe?, x) then
        before == message.Subscribe? && after == !message.Subscribe?
      else after == before
  {
    LastWordOfThree(first, Talk(message), later, x);
    LastWordOfThree(first, Talk(WithIds(message, left)), later, x);
  }

  // The readable ids decide whether sides agree with the wanted set.
  lemma AgreesById(side: Side, greeted: bool, wanted: set<PublicId>, readable: set<PublicId>)
    requires side.authed && side.ids <= readable
    ensures Agrees(side, greeted, wanted, readable) <==>
      forall x {:trigger x in side.ids} {:trigger x in wanted} :: x in readable ==>
        (x in side.ids ==> x in wanted) && (greeted && x in wanted ==> x in side.ids)
  {
  }

  // How the id ends for the client's socket.
  ghost predicate Ends(w: World, k: ConnId, x: PublicId)
    requires k in w.sockets && k in w.gw.conns
  {
    EndsIn(x in w.gw.conns[k].subs, ToCome(w, k), x)
  }

  lemma SettledIs(cfg: Setting, w: World, k: ConnId, x: PublicId)
    requires ServerOk(cfg, w) && k in w.sockets && k in w.gw.conns && w.gw.conns[k].ctx.Some?
    ensures Settled(cfg, w, k).authed && (x in Settled(cfg, w, k).ids <==> x in ReadableIds(cfg) && Ends(w, k, x))
  {
    assert SocketOk(cfg, w, k);
    AuthedStays(SideOf(w.gw, k), ToCome(w, k), ReadableIds(cfg));
    LastWordDecides(SideOf(w.gw, k), ToCome(w, k), ReadableIds(cfg), x);
  }

  ghost predicate Minds(w: World, k: ConnId, x: PublicId)
    requires k in w.sockets && k in w.gw.conns
  {
    (Ends(w, k, x) && x !in w.wanted) || (w.greeted && x in w.wanted && !Ends(w, k, x))
  }

  lemma AgreesByEnds(cfg: Setting, w: World, k: ConnId)
    requires ServerOk(cfg, w) && IsCurrent(w, k) && w.gw.conns[k].ctx.Some?
    ensures AgreesNow(cfg, w) <==> forall x {:trigger Minds(w, k, x)} :: x in ReadableIds(cfg) ==> !Minds(w, k, x)
  {
    var side := Settled(cfg, w, k);
    forall x ensures side.authed && (x in side.ids <==> x in ReadableIds(cfg) && Ends(w, k, x)) {
      SettledIs(cfg, w, k, x);
    }
    SettledIs(cfg, w, k, "");
    AgreesById(side, w.greeted, w.wanted, ReadableIds(cfg));
    if AgreesNow(cfg, w) {
      forall x | x in ReadableIds(cfg) ensures !Minds(w, k, x) {
        assert x in side.ids <==> Ends(w, k, x);
      }
    }
    if forall x {:trigger Minds(w, k, x)} :: x in ReadableIds(cfg) ==> !Minds(w, k, x) {
      forall x | x in ReadableIds(cfg) ensures (x in side.ids ==> x in w.wanted) && (w.greeted && x in w.wanted ==> x in side.ids) {
        assert !Minds(w, k, x);
      }
    }
  }

  // One stretch of a message of the current socket.
  lemma StretchAgreesIff(cfg: Setting, w: World, w': World, k: ConnId, first: seq<Frame>, message: Message, rest: seq<Frame>, later: seq<Frame>)
    requires ServerOk(cfg, w) && ServerOk(cfg, w') && AgreesNow(cfg, w)
    requires IsCurrent(w, k) && IsCurrent(w', k) && w'.wanted == w.wanted && w'.greeted == w.greeted
    requires w.gw.conns[k].ctx.Some? && w'.gw.conns[k].ctx.Some?
    requires ToCome(w, k) == first + [Talk(message)] + later && ToCome(w', k) == first + rest + later
    requires SaysRest(rest, WithIds(message, Left(message.ids, Known(w.gw, k, message))))
    requires forall x {:trigger x in w'.gw.conns[k].subs} :: x in ReadableIds(cfg) ==>
      (x in w'.gw.conns[k].subs <==>
         if x in Dealt(message.ids, Known(w.gw, k, message)) then message.Subscribe? else x in w.gw.conns[k].subs)
    ensures AgreesNow(cfg, w') <==> StretchFits(cfg, w, k, first, message, later)
  {
    var known := Known(w.gw, k, message);
    var dealt, left := Dealt(message.ids, known), Left(message.ids, known);
    var said := [Talk(WithIds(message, left))] + later;
    AgreesByEnds(cfg, w, k);
    AgreesByEnds(cfg, w', k);
    forall x | x in ReadableIds(cfg)
      ensures Minds(w', k, x) <==> x in dealt && IsOvertaken(cfg, first, said, message.Subscribe?, x) && Matters(w, message.Subscribe?, x)
    {
      assert !Minds(w, k, x);
      RestSaysTheSame(first, rest, WithIds(message, left), later, x);
      StretchEnds(cfg, x in w.gw.conns[k].subs, x in w'.gw.conns[k].subs, first, message, dealt, left, later, x);
    }
  }

  // ---- The server takes a frame ----

  lemma MessageToCome(cfg: Setting, w: World, k: ConnId)
    requires ServerOk(cfg, w) && Possible(w, ServerTakes(k)) && w.sockets[k].inFlight[0].Talk? && w.gw.conns[k].ctx.Some?
    ensures var message := w.sockets[k].inFlight[0].message;
      var out := Handle(HubOf(w.gw, k), k, message, ReadableBy(w.gw, k), w.gw.next);
      var first, later := Before(w, k, w.gw.next), w.sockets[k].inFlight[1..];
      && ToCome(w, k) == first + [Talk(message)] + later
      && ToCome(Taken(cfg, w, k), k) == first + (if out.wait.Some? then [Talk(StillToDo(out.wait.value))] else []) + later
  {
    var message := w.sockets[k].inFlight[0].message;
    var w' := Taken(cfg, w, k);
    var next := w.gw.next;
    assert w.sockets[k].inFlight == [Talk(message)] + w.sockets[k].inFlight[1..];
    assert next in w.gw.handlers ==> HandlerOk(w.gw, next);
    SuspendedSame(w.gw, w'.gw, k, 0, next);
  }

  lemma MessageAgreesIff(cfg: Setting, w: World, k: ConnId)
    requires ServerOk(cfg, w) && AgreesNow(cfg, w) && Possible(w, ServerTakes(k)) && IsCurrent(w, k)
    requires w.sockets[k].inFlight[0].Talk? && w.gw.conns[k].ctx.Some?
    ensures AgreesNow(cfg, Taken(cfg, w, k)) <==> StepFits(cfg, w, ServerTakes(k))
  {
    var message := w.sockets[k].inFlight[0].message;
    var out := Handle(HubOf(w.gw, k), k, message, ReadableBy(w.gw, k), w.gw.next);
    var w' := Taken(cfg, w, k);
    var rest := if out.wait.Some? then [Talk(StillToDo(out.wait.value))] else [];
    StepKeepsServer(cfg, w, ServerTakes(k));
    assert Proceed(cfg, w, ServerTakes(k)) == w';
    MessageToCome(cfg, w, k);
    ReadableIs(cfg, w, k);
    forall x ensures x in ReadableIds(cfg) ==>
      (x in w'.gw.conns[k].subs <==>
         if x in Dealt(message.ids, Known(w.gw, k, message)) then message.Subscribe? else x in w.gw.conns[k].subs)
    {
      StretchDeals(w.gw, k, message, w.gw.next, x);
    }
    StretchDeals(w.gw, k, message, w.gw.next, "");
    StretchAgreesIff(cfg, w, w', k, Before(w, k, w.gw.next), message, rest, w.sockets[k].inFlight[1..]);
  }

  lemma UnheardApplies(cfg: Setting, w: World, k: ConnId)
    requires ServerOk(cfg, w) && Possible(w, ServerTakes(k)) && w.gw.conns[k].ctx.None?
    ensures var gw' := Taken(cfg, w, k).gw;
      && SideOf(gw', k) == Apply(SideOf(w.gw, k), w.sockets[k].inFlight[0], ReadableIds(cfg))
      && gw'.handlers == w.gw.handlers && gw'.next == w.gw.next
  {
    assert SocketOk(cfg, w, k);
  }

  lemma UnheardAgrees(cfg: Setting, w: World, k: ConnId)
    requires ServerOk(cfg, w) && AgreesNow(cfg, w) && Possible(w, ServerTakes(k)) && IsCurrent(w, k) && w.gw.conns[k].ctx.None?
    ensures AgreesNow(cfg, Taken(cfg, w, k))
  {
    var w' := Taken(cfg, w, k);
    NothingOfTheUnauthed(cfg, w, k, 0, w.gw.next);
    UnheardApplies(cfg, w, k);
    SuspendedSame(w.gw, w'.gw, k, 0, w.gw.next);
    assert ToCome(w, k) == w.sockets[k].inFlight && ToCome(w', k) == w.sockets[k].inFlight[1..];
  }

  lemma AuthAgainAgrees(cfg: Setting, w: World, k: ConnId)
    requires ServerOk(cfg, w) && AgreesNow(cfg, w) && Possible(w, ServerTakes(k)) && IsCurrent(w, k)
    requires w.sockets[k].inFlight[0].Auth? && w.gw.conns[k].ctx.Some?
    ensures AgreesNow(cfg, Taken(cfg, w, k))
  {
    var w' := Taken(cfg, w, k);
    var first, later := Suspended(w.gw, k, 0, w.gw.next), w.sockets[k].inFlight[1..];
    StepKeepsServer(cfg, w, ServerTakes(k));
    assert Proceed(cfg, w, ServerTakes(k)) == w';
    assert w'.gw.handlers == w.gw.handlers && w'.gw.next == w.gw.next;
    SuspendedSame(w.gw, w'.gw, k, 0, w.gw.next);
    assert ToCome(w, k) == first + [w.sockets[k].inFlight[0]] + later;
    assert ToCome(w', k) == first + later;
    forall x ensures EndsIn(x in w.gw.conns[k].subs, first + later, x) == Ends(w, k, x) {
      LastWordOfThree(first, w.sockets[k].inFlight[0], later, x);
      LastWordOf(first, later, x);
    }
    SameEndsAgree(cfg, w, w', k);
  }

  lemma SameEndsAgree(cfg: Setting, w: World, w': World, k: ConnId)
    requires ServerOk(cfg, w) && ServerOk(cfg, w') && AgreesNow(cfg, w) && IsCurrent(w, k) && IsCurrent(w', k)
    requires w.gw.conns[k].ctx.Some? && w'.gw.conns[k].ctx.Some? && w'.wanted == w.wanted && w'.greeted == w.greeted
    requires forall x {:trigger Ends(w', k, x)} :: Ends(w', k, x) == Ends(w, k, x)
    ensures AgreesNow(cfg, w')
  {
    AgreesByEnds(cfg, w, k);
    AgreesByEnds(cfg, w', k);
    forall x | x in ReadableIds(cfg) ensures !Minds(w', k, x) {
      assert !Minds(w, k, x) && Ends(w', k, x) == Ends(w, k, x);
    }
  }

  ghost predicate LeavesAlone(gw: State, gw': State, c: ConnId) {
    && SideOf(gw', c) == SideOf(gw, c) && gw'.next >= gw.next
    && forall h {:trigger IsOf(gw', c, h)} ::
         IsOf(gw', c, h) == IsOf(gw, c, h) && (IsOf(gw, c, h) ==> gw'.handlers[h] == gw.handlers[h])
  }

  lemma StretchLeavesAlone(gw: State, h: nat, k: ConnId, out: Stretch<ConnId, nat>, c: ConnId)
    requires Base(gw) && Runs(gw, h, k) && k != c && c in gw.conns
    ensures LeavesAlone(gw, AfterStretch(gw, h, k, out), c)
  {
    var gw' := AfterStretch(gw, h, k, out);
    assert gw.next in gw.handlers ==> HandlerOk(gw, gw.next);
    forall j: nat ensures IsOf(gw', c, j) == IsOf(gw, c, j) && (IsOf(gw, c, j) ==> gw'.handlers[j] == gw.handlers[j]) {
      if j == h {
        assert !IsOf(gw, c, h) && !IsOf(gw', c, h);
      }
    }
  }

  // An event of another connection, or one that only closes this one.
  lemma EventLeavesAlone(gw: State, e: Event, c: ConnId)
    requires Base(gw) && Enabled(gw, e) && c in gw.conns
    requires e.Resume? || e.Fail? ==> gw.handlers[e.h].k != c
    requires e.Receive? || e.AcceptAuth? ==> e.k != c
    ensures LeavesAlone(gw, Try(gw, e), c)
  {
    match e
    case Receive(k, message) =>
      if gw.conns[k].ctx.Some? {
        StretchLeavesAlone(gw, gw.next, k, Handle(HubOf(gw, k), k, message, ReadableBy(gw, k), gw.next), c);
      }
    case Resume(h) =>
      assert HandlerOk(gw, h);
      var k := gw.handlers[h].k;
      StretchLeavesAlone(gw, h, k, Resumed(HubOf(gw, k), k, gw.handlers[h].wait, ReadableBy(gw, k), gw.next), c);
    case _ =>
  }

  lemma ElsewhereAgrees(cfg: Setting, w: World, w': World)
    requires ServerOk(cfg, w) && ServerOk(cfg, w') && AgreesNow(cfg, w)
    requires w'.current == w.current && w'.wanted == w.wanted && w'.greeted == w.greeted
    requires w.current.Some? ==>
      var c := w.current.value;
      w'.sockets[c] == w.sockets[c] && LeavesAlone(w.gw, w'.gw, c)
    ensures AgreesNow(cfg, w')
  {
    if w.current.Some? {
      OthersLeave(cfg, w, w', w.current.value);
    }
  }

  lemma TakenAgreesIff(cfg: Setting, w: World, k: ConnId)
    requires ServerOk(cfg, w) && AgreesNow(cfg, w) && Possible(w, ServerTakes(k))
    ensures AgreesNow(cfg, Proceed(cfg, w, ServerTakes(k))) <==> StepFits(cfg, w, ServerTakes(k))
  {
    var w' := Taken(cfg, w, k);
    if w.current == Some(k) {
      if IsCurrent(w, k) {
        if w.gw.conns[k].ctx.None? {
          UnheardAgrees(cfg, w, k);
        } else if w.sockets[k].inFlight[0].Auth? {
          AuthAgainAgrees(cfg, w, k);
        } else {
          MessageAgreesIff(cfg, w, k);
        }
      }
    } else if w.current.Some? {
      TakenElsewhere(cfg, w, k, w.current.value);
    }
  }

  lemma TakenElsewhere(cfg: Setting, w: World, k: ConnId, c: ConnId)
    requires ServerOk(cfg, w) && AgreesNow(cfg, w) && Possible(w, ServerTakes(k)) && w.current == Some(c) && c != k
    ensures AgreesNow(cfg, Taken(cfg, w, k))
  {
    var w' := Taken(cfg, w, k);
    StepKeepsServer(cfg, w, ServerTakes(k));
    assert Proceed(cfg, w, ServerTakes(k)) == w';
    StepAtGateway(cfg, w, ServerTakes(k));
    var e := EventOf(cfg, w, ServerTakes(k)).value;
    EventLeavesAlone(w.gw, e, c);
    assert w'.gw == Try(w.gw, e);
    ElsewhereAgrees(cfg, w, w');
  }

  // ---- A handler goes on, or fails ----

  lemma HandlerInPlace(gw: State, k: ConnId, h: nat, end: nat)
    requires h < end && (h in gw.handlers ==> gw.handlers[h].k == k)
    ensures Suspended(gw, k, 0, end) ==
      Suspended(gw, k, 0, h) + (if h in gw.handlers then [Talk(StillToDo(gw.handlers[h].wait))] else []) + Suspended(gw, k, h + 1, end)
  {
    SuspendedSplits(gw, k, 0, h, end);
    SuspendedSplits(gw, k, h, h + 1, end);
    assert Suspended(gw, k, h, h) == [];
    assert Suspended(gw, k, h, h + 1) == if h in gw.handlers then [Talk(StillToDo(gw.handlers[h].wait))] else [];
  }

  ghost predicate OthersStay(gw: State, gw': State, k: ConnId, h: nat) {
    forall j: nat {:trigger IsOf(gw', k, j)} :: j != h ==>
      IsOf(gw', k, j) == IsOf(gw, k, j) && (IsOf(gw, k, j) ==> gw'.handlers[j] == gw.handlers[j])
  }

  lemma AroundStays(gw: State, gw': State, k: ConnId, h: nat)
    requires Base(gw) && OthersStay(gw, gw', k, h) && h < gw.next <= gw'.next
    ensures Suspended(gw', k, 0, h) == Suspended(gw, k, 0, h)
    ensures Suspended(gw', k, h + 1, gw'.next) == Suspended(gw, k, h + 1, gw.next)
  {
    forall j: nat | j != h ensures IsOf(gw', k, j) == IsOf(gw, k, j) && (IsOf(gw, k, j) ==> gw'.handlers[j] == gw.handlers[j]) {}
    SuspendedSame(gw, gw', k, 0, h);
    SuspendedSame(gw, gw', k, h + 1, gw.next);
    SuspendedSplits(gw', k, h + 1, gw.next, gw'.next);
    forall j: nat | gw.next <= j < gw'.next ensures !IsOf(gw', k, j) {
      assert j in gw.handlers ==> HandlerOk(gw, j);
    }
    NothingBeyond(gw', k, gw.next, gw'.next);
  }

  lemma AroundHandler(cfg: Setting, w: World, gw': State, k: ConnId, h: nat)
    requires ServerOk(cfg, w) && k in w.sockets && IsOf(w.gw, k, h) && (h in gw'.handlers ==> gw'.handlers[h].k == k)
    requires OthersStay(w.gw, gw', k, h) && w.gw.next <= gw'.next
    ensures ToCome(w, k) == Before(w, k, h) + [Talk(StillToDo(w.gw.handlers[h].wait))] + Behind(w, k, h)
    ensures ToCome(w.(gw := gw'), k) ==
      Before(w, k, h) + (if h in gw'.handlers then [Talk(StillToDo(gw'.handlers[h].wait))] else []) + Behind(w, k, h)
  {
    assert HandlerOk(w.gw, h);
    HandlerInPlace(w.gw, k, h, w.gw.next);
    HandlerInPlace(gw', k, h, gw'.next);
    AroundStays(w.gw, gw', k, h);
  }

  lemma ResumeIsHandle(gw: State, h: nat)
    requires Enabled(gw, Resume(h)) && !gw.handlers[h].wait.AtSubscribe?
    ensures var k, wait := gw.handlers[h].k, gw.handlers[h].wait;
      Resumed(HubOf(gw, k), k, wait, ReadableBy(gw, k), gw.next) == Handle(HubOf(gw, k), k, StillToDo(wait), ReadableBy(gw, k), gw.next)
  {
  }

  lemma GoingOnAgreesIff(cfg: Setting, w: World, h: nat)
    requires ServerOk(cfg, w) && AgreesNow(cfg, w) && Possible(w, GatewayEvent(Resume(h)))
    requires IsCurrent(w, w.gw.handlers[h].k) && !w.gw.handlers[h].wait.AtSubscribe?
    ensures AgreesNow(cfg, Proceed(cfg, w, GatewayEvent(Resume(h)))) <==> StepFits(cfg, w, GatewayEvent(Resume(h)))
  {
    var k, wait := w.gw.handlers[h].k, w.gw.handlers[h].wait;
    var w' := Proceed(cfg, w, GatewayEvent(Resume(h)));
    var message := StillToDo(wait);
    ResumeIsHandle(w.gw, h);
    var out := Handle(HubOf(w.gw, k), k, message, ReadableBy(w.gw, k), w.gw.next);
    assert w'.gw == AfterStretch(w.gw, h, k, out);
    StepKeepsServer(cfg, w, GatewayEvent(Resume(h)));
    assert HandlerOk(w.gw, h);
    AroundHandler(cfg, w, w'.gw, k, h);
    ReadableIs(cfg, w, k);
    forall x ensures x in ReadableIds(cfg) ==>
      (x in w'.gw.conns[k].subs <==>
         if x in Dealt(message.ids, Known(w.gw, k, message)) then message.Subscribe? else x in w.gw.conns[k].subs)
    {
      StretchDeals(w.gw, k, message, w.gw.next, x);
    }
    StretchDeals(w.gw, k, message, w.gw.next, "");
    var rest := if out.wait.Some? then [Talk(StillToDo(out.wait.value))] else [];
    StretchAgreesIff(cfg, w, w', k, Before(w, k, h), message, rest, Behind(w, k, h));
  }

  lemma EnteringAgrees(cfg: Setting, w: World, h: nat)
    requires ServerOk(cfg, w) && AgreesNow(cfg, w) && Possible(w, GatewayEvent(Resume(h)))
    requires IsCurrent(w, w.gw.handlers[h].k) && w.gw.handlers[h].wait.AtSubscribe?
    ensures AgreesNow(cfg, Proceed(cfg, w, GatewayEvent(Resume(h))))
  {
    var w' := Proceed(cfg, w, GatewayEvent(Resume(h)));
    AroundHandler(cfg, w, w'.gw, w.gw.handlers[h].k, h);
  }

  lemma FailAgreesIff(cfg: Setting, w: World, h: nat)
    requires ServerOk(cfg, w) && AgreesNow(cfg, w) && Possible(w, GatewayEvent(Fail(h))) && IsCurrent(w, w.gw.handlers[h].k)
    ensures AgreesNow(cfg, Proceed(cfg, w, GatewayEvent(Fail(h)))) <==> StepFits(cfg, w, GatewayEvent(Fail(h)))
  {
    var k, message := w.gw.handlers[h].k, StillToDo(w.gw.handlers[h].wait);
    var w' := Proceed(cfg, w, GatewayEvent(Fail(h)));
    var first, later := Before(w, k, h), Behind(w, k, h);
    assert HandlerOk(w.gw, h);
    StepKeepsServer(cfg, w, GatewayEvent(Fail(h)));
    AroundHandler(cfg, w, w'.gw, k, h);
    assert first + [] + later == first + later;
    AgreesByEnds(cfg, w, k);
    AgreesByEnds(cfg, w', k);
    forall x | x in ReadableIds(cfg)
      ensures Minds(w', k, x) <==> x in message.ids && LastWord(later, x).None? && Matters(w, message.Subscribe?, x)
                                   && EndsIn(x in w.gw.conns[k].subs, first, x) != message.Subscribe?
    {
      assert !Minds(w, k, x);
      LastWordOfThree(first, Talk(message), later, x);
      LastWordOf(first, later, x);
    }
  }

  lemma GatewayAgreesIff(cfg: Setting, w: World, e: Event)
    requires ServerOk(cfg, w) && AgreesNow(cfg, w) && Possible(w, GatewayEvent(e))
    ensures AgreesNow(cfg, Proceed(cfg, w, GatewayEvent(e))) <==> StepFits(cfg, w, GatewayEvent(e))
  {
    if (e.Resume? || e.Fail?) && w.current == Some(w.gw.handlers[e.h].k) {
      if IsCurrent(w, w.gw.handlers[e.h].k) {
        OwnAgreesIff(cfg, w, e);
      }
    } else if w.current.Some? {
      var w' := Proceed(cfg, w, GatewayEvent(e));
      StepKeepsServer(cfg, w, GatewayEvent(e));
      EventLeavesAlone(w.gw, e, w.current.value);
      assert w'.gw == Try(w.gw, e);
      ElsewhereAgrees(cfg, w, w');
    }
  }

  lemma OwnAgreesIff(cfg: Setting, w: World, e: Event)
    requires ServerOk(cfg, w) && AgreesNow(cfg, w) && Possible(w, GatewayEvent(e))
    requires (e.Resume? || e.Fail?) && IsCurrent(w, w.gw.handlers[e.h].k)
    ensures AgreesNow(cfg, Proceed(cfg, w, GatewayEvent(e))) <==> StepFits(cfg, w, GatewayEvent(e))
  {
    if e.Fail? {
      FailAgreesIff(cfg, w, e.h);
    } else if w.gw.handlers[e.h].wait.AtSubscribe? {
      EnteringAgrees(cfg, w, e.h);
    } else {
      GoingOnAgreesIff(cfg, w, e.h);
    }
  }

  lemma StepAgreesIff(cfg: Setting, w: World, step: Step)
    requires ServerOk(cfg, w) && AgreesNow(cfg, w)
    ensures AgreesNow(cfg, Proceed(cfg, w, step)) <==> StepFits(cfg, w, step)
  {
    if Possible(w, step) {
      match step
      case WantMore(ids) => WantMoreAgrees(cfg, w, ids);
      case WantLess(ids) => WantLessAgrees(cfg, w, ids);
      case OpenSocket(k, keep) => OpenAgrees(cfg, w, k, keep);
      case DropSocket(_) => BreakAgrees(cfg, w, step);
      case BreakSocket(_, _) => BreakAgrees(cfg, w, step);
      case SendAuth(k, accepted) => SendAuthAgrees(cfg, w, k, accepted);
      case AuthOkArrives(k, list) => GreetingAgrees(cfg, w, k, list);
      case ServerTakes(k) => TakenAgreesIff(cfg, w, k);
      case GatewayEvent(event) => GatewayAgreesIff(cfg, w, event);
    }
  }
}

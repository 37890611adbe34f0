/** The client and the gateway over FIFO sockets that break and are replaced, with a fixed catalog.

    The gateway takes the frames of a socket in order, but does not wait for the handler of one to end
    before it takes the next.
*/
module RealtimeProtocol {
  import opened Common
  import opened Realtime
  import opened GatewayRuns
  import opened RealtimeClient

  datatype Frame = Auth(accepted: bool) | Talk(message: Message)

  /** The client's end of a socket and the frames on their way to the server. */
  datatype Socket = Socket(open: bool, inFlight: seq<Frame>)

  /** `greeted`: auth_ok has been seen from the current socket. `oks`: sockets the server sent one on. */
  datatype World = World(gw: State, sockets: map<ConnId, Socket>, current: Option<ConnId>, greeted: bool,
                         oks: set<ConnId>, wanted: set<PublicId>)

  datatype Step =
    | WantMore(ids: seq<PublicId>)
    | WantLess(ids: seq<PublicId>)
    | OpenSocket(k: ConnId, keep: nat)
    | DropSocket(keep: nat)
    | BreakSocket(k: ConnId, keep: nat)
    | SendAuth(k: ConnId, accepted: bool)
    // An auth_ok may arrive late, from an abandoned socket, or again.
    | AuthOkArrives(k: ConnId, list: seq<PublicId>)
    | ServerTakes(k: ConnId)
    | GatewayEvent(event: Event)

  datatype Setting = Setting(ctx: AuthContext, mappings: Subscriptions, canRead: set<(AuthContext, StateId)>)

  ghost function Boot(cfg: Setting): World {
    World(State(cfg.mappings, cfg.canRead, map[], map[], map[], 0), map[], None, false, {}, {})
  }

  ghost function Set(ids: seq<PublicId>): set<PublicId> {
    set id | id in ids
  }

  // Everything at the gateway that is not this client's traffic and leaves the catalog alone; its own
  // handlers go on, or fail, in this way too.
  ghost predicate Foreign(w: World, e: Event) {
    match e
    case GetOrCreateMapping(_, _) => false
    case SetPermissions(_) => false
    case Connect(k) => k !in w.sockets
    case AcceptAuth(k, _) => k !in w.sockets
    case Receive(k, _) => k !in w.sockets
    case _ => true
  }

  ghost predicate Possible(w: World, step: Step) {
    match step
    case WantMore(ids) => |ids| > 0
    case WantLess(ids) => |ids| > 0
    case OpenSocket(k, _) => k !in w.sockets && k !in w.gw.conns
    case DropSocket(_) => true
    case BreakSocket(k, _) => k in w.sockets
    case SendAuth(k, _) => k in w.sockets
    case AuthOkArrives(k, list) => k in w.oks && Lists(list, w.wanted)
    case ServerTakes(k) => k in w.sockets && |w.sockets[k].inFlight| > 0 && k in w.gw.conns && w.gw.conns[k].phase != Closed
    case GatewayEvent(event) => Enabled(w.gw, event) && Foreign(w, event)
  }

  ghost function Sent(w: World, k: ConnId, frame: Frame): World {
    if k in w.sockets && w.sockets[k].open then
      w.(sockets := w.sockets[k := Socket(true, w.sockets[k].inFlight + [frame])])
    else w
  }

  ghost function SentOnCurrent(w: World, message: Message): World {
    if w.current.Some? then Sent(w, w.current.value, Talk(message)) else w
  }

  // Some of what was on its way may still arrive.
  ghost function Broken(w: World, k: ConnId, keep: nat): World {
    if k in w.sockets then
      var inFlight := w.sockets[k].inFlight;
      w.(sockets := w.sockets[k := Socket(false, if keep <= |inFlight| then inFlight[..keep] else inFlight)])
    else w
  }

  ghost function BrokenCurrent(w: World, keep: nat): World {
    if w.current.Some? then Broken(w, w.current.value, keep) else w
  }

  ghost function Taken(cfg: Setting, w: World, k: ConnId): World
    requires Possible(w, ServerTakes(k))
  {
    var popped := w.(sockets := w.sockets[k := w.sockets[k].(inFlight := w.sockets[k].inFlight[1..])]);
    match w.sockets[k].inFlight[0]
    case Auth(accepted) =>
      if accepted then
        popped.(gw := Try(w.gw, AcceptAuth(k, cfg.ctx)), oks := w.oks + if w.gw.conns[k].open then {k} else {})
      else popped.(gw := Try(w.gw, CloseSocket(k)))
    case Talk(message) => popped.(gw := Try(w.gw, Receive(k, message)))
  }

  ghost function Next(cfg: Setting, w: World, step: Step): World
    requires Possible(w, step)
  {
    match step
    case WantMore(ids) => SentOnCurrent(w.(wanted := w.wanted + Set(ids)), Message.Subscribe(ids))
    case WantLess(ids) => SentOnCurrent(w.(wanted := w.wanted - Set(ids)), Message.Unsubscribe(ids))
    case OpenSocket(k, keep) =>
      var cut := BrokenCurrent(w, keep);
      cut.(gw := Try(w.gw, Connect(k)), sockets := cut.sockets[k := Socket(true, [])], current := Some(k), greeted := false)
    case DropSocket(keep) => BrokenCurrent(w, keep).(current := None, greeted := false)
    case BreakSocket(k, keep) => Broken(w, k, keep)
    case SendAuth(k, accepted) => Sent(w, k, Auth(accepted))
    case AuthOkArrives(k, list) =>
      var heard := w.(greeted := w.greeted || w.current == Some(k));
      if w.wanted == {} then heard else SentOnCurrent(heard, Message.Subscribe(list))
    case ServerTakes(k) => Taken(cfg, w, k)
    case GatewayEvent(event) => w.(gw := Try(w.gw, event))
  }

  ghost function Proceed(cfg: Setting, w: World, step: Step): World {
    if Possible(w, step) then Next(cfg, w, step) else w
  }

  ghost function After(cfg: Setting, steps: seq<Step>): World {
    if |steps| == 0 then Boot(cfg) else Proceed(cfg, After(cfg, steps[..|steps| - 1]), steps[|steps| - 1])
  }

  // ---- What the frames in flight will make of the server's side ----

  datatype Side = Side(authed: bool, ids: set<PublicId>)

  ghost function Apply(side: Side, frame: Frame, readable: set<PublicId>): Side {
    match frame
    case Auth(accepted) => side.(authed := side.authed || accepted)
    case Talk(Subscribe(ids)) => if side.authed then side.(ids := side.ids + Set(ids) * readable) else side
    case Talk(Unsubscribe(ids)) => if side.authed then side.(ids := side.ids - Set(ids)) else side
  }

  ghost function ApplyAll(side: Side, frames: seq<Frame>, readable: set<PublicId>): Side
    decreases |frames|
  {
    if |frames| == 0 then side else ApplyAll(Apply(side, frames[0], readable), frames[1..], readable)
  }

  lemma {:induction false} ApplyLast(side: Side, frames: seq<Frame>, frame: Frame, readable: set<PublicId>)
    ensures ApplyAll(side, frames + [frame], readable) == Apply(ApplyAll(side, frames, readable), frame, readable)
    decreases |frames|
  {
    if |frames| == 0 {
      assert frames + [frame] == [frame] && [frame][1..] == [];
      assert ApplyAll(Apply(side, frame, readable), [], readable) == Apply(side, frame, readable);
    } else {
      assert (frames + [frame])[1..] == frames[1..] + [frame];
      ApplyLast(Apply(side, frames[0], readable), frames[1..], frame, readable);
    }
  }

  ghost function ReadableIds(cfg: Setting): set<PublicId> {
    set id | id in cfg.mappings && (cfg.ctx, cfg.mappings[id]) in cfg.canRead
  }

  ghost function SideOf(gw: State, k: ConnId): Side {
    if k in gw.conns then Side(gw.conns[k].ctx.Some?, gw.conns[k].subs.Keys) else Side(false, {})
  }

  // What a suspended handler has still to do, as the message that would say so.
  function StillToDo(wait: Wait<nat>): Message {
    match wait
    case AtSubscribe(_, _, _, rest) => Message.Subscribe(rest)
    case AtRead(_, rest) => Message.Subscribe(rest)
    case AtRelease(rest, _) => Message.Unsubscribe(rest)
  }

  ghost predicate IsOf(gw: State, k: ConnId, h: nat) {
    h in gw.handlers && gw.handlers[h].k == k
  }

  // Of the connection's suspended handlers, those numbered from a to b, in the order of their messages.
  ghost function Suspended(gw: State, k: ConnId, a: nat, b: nat): seq<Frame>
    decreases b
  {
    if b <= a then [] else
      var h: nat := b - 1;
      Suspended(gw, k, a, h) + if IsOf(gw, k, h) then [Talk(StillToDo(gw.handlers[h].wait))] else []
  }

  /** All that is still to come for a socket: what its suspended handlers have left, then what is in flight. */
  ghost function ToCome(w: World, k: ConnId): seq<Frame>
    requires k in w.sockets
  {
    Suspended(w.gw, k, 0, w.gw.next) + w.sockets[k].inFlight
  }

  /** The server's side of a socket once all that has been done, in the order it was sent. */
  ghost function Settled(cfg: Setting, w: World, k: ConnId): Side
    requires k in w.sockets
  {
    ApplyAll(SideOf(w.gw, k), ToCome(w, k), ReadableIds(cfg))
  }

  // ---- The last word on an id ----

  ghost predicate Names(frame: Frame, x: PublicId) {
    frame.Talk? && x in frame.message.ids
  }

  /** Whether the last of some frames that names the id subscribes to it. */
  ghost function LastWord(frames: seq<Frame>, x: PublicId): Option<bool> {
    if |frames| == 0 then None
    else if Names(frames[|frames| - 1], x) then Some(frames[|frames| - 1].message.Subscribe?)
    else LastWord(frames[..|frames| - 1], x)
  }

  lemma {:induction false} LastWordOf(first: seq<Frame>, later: seq<Frame>, x: PublicId)
    ensures LastWord(first + later, x) == if LastWord(later, x).Some? then LastWord(later, x) else LastWord(first, x)
  {
    if |later| == 0 {
      assert first + later == first;
    } else {
      assert (first + later)[..|first + later| - 1] == first + later[..|later| - 1];
      LastWordOf(first, later[..|later| - 1], x);
    }
  }

  lemma LastWordOfOne(frame: Frame, x: PublicId)
    ensures LastWord([frame], x) == if Names(frame, x) then Some(frame.message.Subscribe?) else None
  {
    assert [frame][..0] == [];
  }

  // Whether the id is subscribed to after some frames, given whether it is before.
  ghost predicate EndsIn(now: bool, frames: seq<Frame>, x: PublicId) {
    if LastWord(frames, x).Some? then LastWord(frames, x).value else now
  }

  // Once authenticated, a connection stays so.
  lemma {:induction false} AuthedStays(side: Side, frames: seq<Frame>, readable: set<PublicId>)
    requires side.authed
    ensures ApplyAll(side, frames, readable).authed
    decreases |frames|
  {
    if |frames| > 0 {
      AuthedStays(Apply(side, frames[0], readable), frames[1..], readable);
    }
  }

  /** After some frames an authenticated side has the readable ids on which the last word was to subscribe. */
  lemma {:induction false} LastWordDecides(side: Side, frames: seq<Frame>, readable: set<PublicId>, x: PublicId)
    requires side.authed && side.ids <= readable
    ensures x in ApplyAll(side, frames, readable).ids <==> x in readable && EndsIn(x in side.ids, frames, x)
  {
    if |frames| > 0 {
      var front, last := frames[..|frames| - 1], frames[|frames| - 1];
      LastWordDecides(side, front, readable, x);
      AuthedStays(side, front, readable);
      ApplyLast(side, front, last, readable);
      assert frames == front + [last];
    }
  }

  lemma {:induction false} SuspendedSplits(gw: State, k: ConnId, a: nat, h: nat, b: nat)
    requires a <= h <= b
    ensures Suspended(gw, k, a, b) == Suspended(gw, k, a, h) + Suspended(gw, k, h, b)
    decreases b
  {
    if h < b {
      SuspendedSplits(gw, k, a, h, b - 1);
    }
  }

  lemma {:induction false} SuspendedSame(gw: State, gw': State, k: ConnId, a: nat, b: nat)
    requires forall h {:trigger IsOf(gw', k, h)} :: a <= h < b ==>
      IsOf(gw', k, h) == IsOf(gw, k, h) && (IsOf(gw, k, h) ==> gw'.handlers[h] == gw.handlers[h])
    ensures Suspended(gw', k, a, b) == Suspended(gw, k, a, b)
    decreases b
  {
    if a < b {
      SuspendedSame(gw, gw', k, a, b - 1);
    }
  }
}

/** Every run of the gateway. Connections come, authenticate, send messages, are dropped by the heartbeat
    and close later, while mappings are created and permissions change. Handlers are suspended at their
    awaits, any number of them at once, also of one connection and after it has closed, and each await may
    fail. */
module GatewayRuns {
  import opened Common
  import opened Realtime

  type ConnId = nat

  /** Dropped: cleaned up by the heartbeat or an error, but frames may still arrive until 'close'. */
  datatype Phase = Registered | Dropped | Closed

  datatype Conn = Conn(phase: Phase, open: bool, ctx: Option<AuthContext>, subs: Subscriptions)

  /** A suspended handler of a connection's message. */
  datatype Handler = Handler(k: ConnId, wait: Wait<nat>)

  /** `next` numbers handlers in the order of their messages, and set objects in the order they are made. */
  datatype State = State(mappings: Subscriptions, canRead: set<(AuthContext, StateId)>, conns: map<ConnId, Conn>,
                         index: Index<ConnId, nat>, handlers: map<nat, Handler>, next: nat)

  datatype Event =
    | Connect(k: ConnId)
    | AcceptAuth(k: ConnId, ctx: AuthContext)
    | CloseSocket(k: ConnId)
    | Receive(k: ConnId, message: Message)
    | Resume(h: nat)
    | Fail(h: nat)
    | Drop(k: ConnId)
    | CloseEvent(k: ConnId)
    | GetOrCreateMapping(stateId: StateId, id: PublicId)
    | SetPermissions(canRead: set<(AuthContext, StateId)>)

  const BOOT := State(map[], {}, map[], map[], map[], 0)

  // resolveAuthorized for every public id at once.
  function Readable(s: State, ctx: AuthContext): Subscriptions {
    map id | id in s.mappings && (ctx, s.mappings[id]) in s.canRead :: s.mappings[id]
  }

  function ReadableBy(s: State, k: ConnId): Subscriptions
    requires k in s.conns
  {
    if s.conns[k].ctx.Some? then Readable(s, s.conns[k].ctx.value) else map[]
  }

  ghost predicate Mapped(mappings: Subscriptions, state: StateId) {
    exists id :: id in mappings && mappings[id] == state
  }

  ghost predicate Enabled(s: State, e: Event) {
    match e
    case Connect(k) => k !in s.conns
    case Resume(h) => h in s.handlers && s.handlers[h].k in s.conns
    // Leaving a set that others are in asks nothing of the adapter.
    case Fail(h) => h in s.handlers && s.handlers[h].k in s.conns && (s.handlers[h].wait.AtRelease? ==> s.handlers[h].wait.emptied)
    case GetOrCreateMapping(_, id) => id !in s.mappings
    case SetPermissions(_) => true
    case _ => e.k in s.conns && s.conns[e.k].phase != Closed
  }

  function WithConn(s: State, k: ConnId, c: Conn): State {
    s.(conns := s.conns[k := c])
  }

  function HubOf(s: State, k: ConnId): Hub<ConnId, nat>
    requires k in s.conns
  {
    Hub(s.conns[k].subs, s.index)
  }

  // Handler h of connection k has run one stretch.
  function AfterStretch(s: State, h: nat, k: ConnId, out: Stretch<ConnId, nat>): State
    requires k in s.conns
  {
    s.(conns := s.conns[k := s.conns[k].(subs := out.hub.subs)], index := out.hub.index,
       handlers := if out.wait.Some? then s.handlers[h := Handler(k, out.wait.value)] else s.handlers - {h},
       next := s.next + 1)
  }

  function AfterMessage(s: State, k: ConnId, message: Message): State
    requires k in s.conns
  {
    if s.conns[k].ctx.None? then s
    else AfterStretch(s, s.next, k, Handle(HubOf(s, k), k, message, ReadableBy(s, k), s.next))
  }

  function AfterResume(s: State, h: nat): State
    requires h in s.handlers && s.handlers[h].k in s.conns
  {
    var k := s.handlers[h].k;
    AfterStretch(s, h, k, Resumed(HubOf(s, k), k, s.handlers[h].wait, ReadableBy(s, k), s.next))
  }

  function AfterCleanup(s: State, k: ConnId, phase: Phase): State
    requires k in s.conns
  {
    var c := s.conns[k];
    s.(conns := s.conns[k := c.(phase := phase, open := false)], index := ReleaseAll(s.index, c.subs.Values, k))
  }

  ghost function Next(s: State, e: Event): State
    requires Enabled(s, e)
  {
    match e
    case Connect(k) => WithConn(s, k, Conn(Registered, true, None, map[]))
    case AcceptAuth(k, ctx) => WithConn(s, k, s.conns[k].(ctx := Some(ctx)))
    case CloseSocket(k) => WithConn(s, k, s.conns[k].(open := false))
    case Receive(k, message) => AfterMessage(s, k, message)
    case Resume(h) => AfterResume(s, h)
    case Fail(h) => s.(handlers := s.handlers - {h})
    case Drop(k) => AfterCleanup(s, k, Dropped)
    case CloseEvent(k) => AfterCleanup(s, k, Closed)
    case GetOrCreateMapping(stateId, id) => if Mapped(s.mappings, stateId) then s else s.(mappings := s.mappings[id := stateId])
    case SetPermissions(canRead) => s.(canRead := canRead)
  }

  ghost function Try(s: State, e: Event): State {
    if Enabled(s, e) then Next(s, e) else s
  }

  ghost function After(events: seq<Event>): State {
    if |events| == 0 then BOOT else Try(After(events[..|events| - 1]), events[|events| - 1])
  }

  // ---- What holds in every run ----

  ghost predicate Linked(index: Index<ConnId, nat>, state: StateId, k: ConnId) {
    state in index && k in index[state].members
  }

  ghost predicate Faithful(subs: Subscriptions, mappings: Subscriptions) {
    forall id :: id in subs ==> id in mappings && subs[id] == mappings[id]
  }

  ghost predicate OneIdPerState(mappings: Subscriptions) {
    forall p, q :: p in mappings && q in mappings && mappings[p] == mappings[q] ==> p == q
  }

  ghost predicate ConnOk(s: State, k: ConnId) {
    k in s.conns && Faithful(s.conns[k].subs, s.mappings) && (s.conns[k].phase != Registered ==> !s.conns[k].open)
  }

  ghost predicate EntryOk(s: State, state: StateId) {
    && state in s.index && s.index[state].me < s.next && s.index[state].members <= s.conns.Keys
    && forall t :: t in s.index && s.index[t].me == s.index[state].me ==> t == state
  }

  ghost predicate HandlerOk(s: State, h: nat) {
    && h in s.handlers && h < s.next && s.handlers[h].k in s.conns && s.conns[s.handlers[h].k].ctx.Some?
    && var wait := s.handlers[h].wait;
    wait.AtSubscribe? ==>
      && wait.subscribers < s.next && wait.id in s.mappings && s.mappings[wait.id] == wait.stateId
      && (forall t :: t in s.index && s.index[t].me == wait.subscribers ==> t == wait.stateId)
      && (forall j :: j in s.handlers && s.handlers[j].wait.AtSubscribe? && s.handlers[j].wait.subscribers == wait.subscribers ==> j == h)
  }

  ghost predicate Base(s: State) {
    && OneIdPerState(s.mappings)
    && (forall k {:trigger ConnOk(s, k)} :: k in s.conns ==> ConnOk(s, k))
    && (forall state {:trigger EntryOk(s, state)} :: state in s.index ==> EntryOk(s, state))
    && (forall h {:trigger HandlerOk(s, h)} :: h in s.handlers ==> HandlerOk(s, h))
  }

  // The handler is one of the connection's, or just begins.
  ghost predicate Runs(s: State, h: nat, k: ConnId) {
    k in s.conns && s.conns[k].ctx.Some? && (h == s.next || (h in s.handlers && s.handlers[h].k == k))
  }

  // Entries stay the objects they were, with at most k joining, or one is new and empty.
  ghost predicate EntryFrom(s: State, index: Index<ConnId, nat>, k: ConnId, state: StateId) {
    state in index &&
    if state in s.index then index[state].me == s.index[state].me && index[state].members <= s.index[state].members + {k}
    else index[state] == Entry(s.next, {}) && forall t :: t in index && t !in s.index ==> t == state
  }

  ghost predicate StretchOk(s: State, k: ConnId, out: Stretch<ConnId, nat>) {
    && Faithful(out.hub.subs, s.mappings)
    && (forall state {:trigger EntryFrom(s, out.hub.index, k, state)} :: state in out.hub.index ==> EntryFrom(s, out.hub.index, k, state))
    && (out.wait.Some? && out.wait.value.AtSubscribe? ==>
          var wait := out.wait.value;
          && wait.subscribers == s.next && wait.id in s.mappings && s.mappings[wait.id] == wait.stateId
          && (forall t :: t in out.hub.index && t !in s.index ==> t == wait.stateId))
  }

  lemma StretchKeepsBase(s: State, h: nat, k: ConnId, out: Stretch<ConnId, nat>)
    requires Base(s) && Runs(s, h, k) && StretchOk(s, k, out)
    ensures Base(AfterStretch(s, h, k, out))
  {
    var s' := AfterStretch(s, h, k, out);
    forall j | j in s'.conns ensures ConnOk(s', j) {
      assert ConnOk(s, j);
    }
    forall state | state in s'.index ensures EntryOk(s', state) {
      assert EntryFrom(s, s'.index, k, state) && (state in s.index ==> EntryOk(s, state));
      forall t | t in s'.index && s'.index[t].me == s'.index[state].me ensures t == state {
        assert EntryFrom(s, s'.index, k, t) && (t in s.index ==> EntryOk(s, t));
      }
    }
    forall j | j in s'.handlers ensures HandlerOk(s', j) {
      HandlerStaysOk(s, h, k, out, j);
    }
  }

  lemma HandlerStaysOk(s: State, h: nat, k: ConnId, out: Stretch<ConnId, nat>, j: nat)
    requires Base(s) && Runs(s, h, k) && StretchOk(s, k, out) && j in AfterStretch(s, h, k, out).handlers
    ensures HandlerOk(AfterStretch(s, h, k, out), j)
  {
    var s' := AfterStretch(s, h, k, out);
    assert j in s.handlers ==> HandlerOk(s, j);
    forall t | t in s'.index ensures EntryFrom(s, s'.index, k, t) && (t in s.index ==> EntryOk(s, t)) {}
    forall i | i in s'.handlers && i != h ensures HandlerOk(s, i) {}
  }

  lemma SubscribeIsOk(s: State, k: ConnId, ids: seq<PublicId>)
    requires Base(s) && k in s.conns
    ensures StretchOk(s, k, SubscribeFrom(HubOf(s, k), k, ids, ReadableBy(s, k), s.next))
  {
    assert ConnOk(s, k);
    var out := SubscribeFrom(HubOf(s, k), k, ids, ReadableBy(s, k), s.next);
    forall state | state in out.hub.index ensures EntryFrom(s, out.hub.index, k, state) {}
  }

  lemma UnsubscribeIsOk(s: State, k: ConnId, ids: seq<PublicId>)
    requires Base(s) && k in s.conns
    ensures StretchOk(s, k, UnsubscribeFrom(HubOf(s, k), k, ids))
  {
    assert ConnOk(s, k);
    var out := UnsubscribeFrom(HubOf(s, k), k, ids);
    forall state | state in out.hub.index ensures EntryFrom(s, out.hub.index, k, state) {}
  }

  lemma JoinIsOk(s: State, k: ConnId, wait: Wait<nat>)
    requires Base(s) && k in s.conns && wait.AtSubscribe?
    ensures StretchOk(s, k, Resumed(HubOf(s, k), k, wait, ReadableBy(s, k), s.next))
  {
    assert ConnOk(s, k);
    var out := Resumed(HubOf(s, k), k, wait, ReadableBy(s, k), s.next);
    forall state | state in out.hub.index ensures EntryFrom(s, out.hub.index, k, state) {}
  }

  lemma MessageKeepsBase(s: State, k: ConnId, message: Message)
    requires Base(s) && k in s.conns
    ensures Base(AfterMessage(s, k, message))
  {
    if s.conns[k].ctx.Some? {
      match message
      case Subscribe(ids) => SubscribeIsOk(s, k, ids);
      case Unsubscribe(ids) => UnsubscribeIsOk(s, k, ids);
    }
    if s.conns[k].ctx.Some? {
      StretchKeepsBase(s, s.next, k, Handle(HubOf(s, k), k, message, ReadableBy(s, k), s.next));
    }
  }

  lemma ResumeKeepsBase(s: State, h: nat)
    requires Base(s) && h in s.handlers && s.handlers[h].k in s.conns
    ensures Base(AfterResume(s, h))
  {
    var k, wait := s.handlers[h].k, s.handlers[h].wait;
    match wait {
      case AtSubscribe(_, _, _, _) => JoinIsOk(s, k, wait);
      case AtRead(_, rest) => SubscribeIsOk(s, k, rest);
      case AtRelease(rest, _) => UnsubscribeIsOk(s, k, rest);
    }
    assert HandlerOk(s, h);
    StretchKeepsBase(s, h, k, Resumed(HubOf(s, k), k, wait, ReadableBy(s, k), s.next));
  }

  // A step that leaves handlers alone, or ends one, and lets connections leave sets.
  lemma QuietStepKeepsBase(s: State, s': State)
    requires Base(s) && OneIdPerState(s'.mappings) && Faithful(s.mappings, s'.mappings) && s'.next == s.next
    requires s.conns.Keys <= s'.conns.Keys
    requires forall k :: k in s'.conns ==>
      && (s'.conns[k].subs == if k in s.conns then s.conns[k].subs else map[])
      && (s'.conns[k].phase != Registered ==> !s'.conns[k].open)
      && (k in s.conns && s.conns[k].ctx.Some? ==> s'.conns[k].ctx.Some?)
    requires forall state :: state in s'.index ==>
      state in s.index && s'.index[state].me == s.index[state].me && s'.index[state].members <= s.index[state].members
    requires forall h :: h in s'.handlers ==> h in s.handlers && s'.handlers[h] == s.handlers[h]
    ensures Base(s')
  {
    forall k | k in s'.conns ensures ConnOk(s', k) {
      assert k in s.conns ==> ConnOk(s, k);
    }
    forall state | state in s'.index ensures EntryOk(s', state) {
      assert EntryOk(s, state);
    }
    forall h | h in s'.handlers ensures HandlerOk(s', h) {
      assert HandlerOk(s, h);
    }
  }

  lemma StepKeepsBase(s: State, e: Event)
    requires Base(s)
    ensures Base(Try(s, e))
  {
    if Enabled(s, e) {
      match e
      case Receive(k, message) => MessageKeepsBase(s, k, message);
      case Resume(h) => ResumeKeepsBase(s, h);
      case Drop(k) => CleanupKeepsBase(s, k, Dropped);
      case CloseEvent(k) => CleanupKeepsBase(s, k, Closed);
      case _ => OtherStepKeepsBase(s, e);
    }
  }

  lemma CleanupKeepsBase(s: State, k: ConnId, phase: Phase)
    requires Base(s) && k in s.conns && phase != Registered
    ensures Base(AfterCleanup(s, k, phase))
  {
    forall j | j in s.conns ensures ConnOk(s, j) {}
    QuietStepKeepsBase(s, AfterCleanup(s, k, phase));
  }

  lemma OtherStepKeepsBase(s: State, e: Event)
    requires Base(s) && Enabled(s, e) && !e.Receive? && !e.Resume? && !e.Drop? && !e.CloseEvent?
    ensures Base(Next(s, e))
  {
    if e.Connect? || e.AcceptAuth? || e.CloseSocket? {
      ConnStepKeepsBase(s, e);
    } else {
      forall k | k in s.conns ensures ConnOk(s, k) {}
      QuietStepKeepsBase(s, Next(s, e));
    }
  }

  lemma ConnStepKeepsBase(s: State, e: Event)
    requires Base(s) && Enabled(s, e) && (e.Connect? || e.AcceptAuth? || e.CloseSocket?)
    ensures Base(Next(s, e))
  {
    forall k | k in s.conns ensures ConnOk(s, k) {}
    QuietStepKeepsBase(s, Next(s, e));
  }

  lemma {:induction false} BaseAlways(events: seq<Event>)
    ensures Base(After(events))
  {
    if |events| > 0 {
      BaseAlways(events[..|events| - 1]);
      StepKeepsBase(After(events[..|events| - 1]), events[|events| - 1]);
    }
  }
}

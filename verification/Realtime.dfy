/** The realtime gateway (src/realtime/index.ts). An index from state to a set of subscribed connections is
    kept beside each connection's own subscription map. A handler is cut at its awaits: each stretch runs
    from a message, or from an await that has just resolved, to the next await. */
module Realtime {
  import opened Common

  type StateId = string

  type PublicId = string

  datatype AuthContext = AuthContext(userId: string, deviceId: string, roleId: string)

  type Subscriptions = map<PublicId, StateId>

  /** A set of the index: which object it is, and who is in it. */
  datatype Entry<!K, S> = Entry(me: S, members: set<K>)

  type Index<!K, S> = map<StateId, Entry<K, S>>

  // A connection's own map together with the shared index.
  datatype Hub<!K, S> = Hub(subs: Subscriptions, index: Index<K, S>)

  /** What a suspended handler holds: where it waits, and the ids it has still to do. */
  datatype Wait<S> =
    | AtSubscribe(subscribers: S, id: PublicId, stateId: StateId, rest: seq<PublicId>)  // the set it has made
    | AtRead(id: PublicId, rest: seq<PublicId>)
    | AtRelease(rest: seq<PublicId>, emptied: bool)

  /** The effect of a stretch, and where the handler waits after it, if it does. */
  datatype Stretch<!K, S> = Stretch(hub: Hub<K, S>, wait: Option<Wait<S>>)

  datatype Message = Subscribe(ids: seq<PublicId>) | Unsubscribe(ids: seq<PublicId>)

  // How many ids the loop passes over before one it knows.
  function Seek(ids: seq<PublicId>, known: set<PublicId>): (i: nat)
    ensures i <= |ids| && (forall j :: 0 <= j < i ==> ids[j] !in known)
    ensures i < |ids| ==> ids[i] in known
  {
    if |ids| == 0 || ids[0] in known then 0 else 1 + Seek(ids[1..], known)
  }

  function Enter<K(==), S>(index: Index<K, S>, state: StateId, k: K): Index<K, S>
    requires state in index
  {
    index[state := index[state].(members := index[state].members + {k})]
  }

  // The set may have been dropped from the index, and then nobody sees the addition.
  function Join<K(==), S(==)>(index: Index<K, S>, subscribers: S, k: K): Index<K, S> {
    map state | state in index ::
      if index[state].me == subscribers then index[state].(members := index[state].members + {k}) else index[state]
  }

  predicate Empties<K(==), S>(index: Index<K, S>, state: StateId, k: K) {
    state in index && index[state].members - {k} == {}
  }

  // releaseSubscription
  function Release<K(==), S>(index: Index<K, S>, state: StateId, k: K): Index<K, S> {
    if state !in index then index
    else if Empties(index, state, k) then index - {state}
    else index[state := index[state].(members := index[state].members - {k})]
  }

  // cleanupConnection: all those releases at once.
  function ReleaseAll<K(==), S>(index: Index<K, S>, states: set<StateId>, k: K): Index<K, S> {
    map state | state in index && !(state in states && Empties(index, state, k)) ::
      if state in states then index[state].(members := index[state].members - {k}) else index[state]
  }

  lemma ReleaseStep<K, S>(index: Index<K, S>, states: set<StateId>, state: StateId, k: K)
    ensures Release(ReleaseAll(index, states, k), state, k) == ReleaseAll(index, states + {state}, k)
  {
    if state in index {
      assert index[state].members - {k} - {k} == index[state].members - {k};
    }
  }

  // subscribe, with `made` the set object it makes if the state has none.
  function SubscribeFrom<K(==), S>(h: Hub<K, S>, k: K, ids: seq<PublicId>, readable: Subscriptions, made: S): Stretch<K, S> {
    var i := Seek(ids, readable.Keys);
    if i == |ids| then Stretch(h, None) else
      var id, state, rest := ids[i], readable[ids[i]], ids[i + 1..];
      if state in h.index then Stretch(Hub(h.subs[id := state], Enter(h.index, state, k)), Some(AtRead(id, rest)))
      else Stretch(Hub(h.subs[id := state], h.index[state := Entry(made, {})]), Some(AtSubscribe(made, id, state, rest)))
  }

  function UnsubscribeFrom<K(==), S>(h: Hub<K, S>, k: K, ids: seq<PublicId>): Stretch<K, S> {
    var i := Seek(ids, h.subs.Keys);
    if i == |ids| then Stretch(h, None) else
      var state := h.subs[ids[i]];
      Stretch(Hub(h.subs - {ids[i]}, Release(h.index, state, k)), Some(AtRelease(ids[i + 1..], Empties(h.index, state, k))))
  }

  function Handle<K(==), S>(h: Hub<K, S>, k: K, message: Message, readable: Subscriptions, made: S): Stretch<K, S> {
    match message
    case Subscribe(ids) => SubscribeFrom(h, k, ids, readable, made)
    case Unsubscribe(ids) => UnsubscribeFrom(h, k, ids)
  }

  // What is sent when the value of an id has been read.
  function UpdateFor(id: PublicId, found: bool, open: bool): seq<PublicId> {
    if found && open then [id] else []
  }

  // The await a handler waits at has resolved.
  function Resumed<K(==), S(==)>(h: Hub<K, S>, k: K, wait: Wait<S>, readable: Subscriptions, made: S): Stretch<K, S> {
    match wait
    case AtSubscribe(subscribers, id, _, rest) => Stretch(h.(index := Join(h.index, subscribers, k)), Some(AtRead(id, rest)))
    case AtRead(_, rest) => SubscribeFrom(h, k, rest, readable, made)
    case AtRelease(rest, _) => UnsubscribeFrom(h, k, rest)
  }

  // What findByState returns for a connection: one of its public ids for that state.
  predicate SubscribedAs(subs: Subscriptions, state: StateId, id: PublicId) {
    id in subs && subs[id] == state
  }

  predicate SubscribedTo(subs: Subscriptions, state: StateId) {
    exists id :: id in subs && subs[id] == state
  }

  predicate Reached<K(==)>(sent: seq<(K, PublicId)>, k: K) {
    exists i :: 0 <= i < |sent| && sent[i].0 == k
  }

  lemma ReachedGrows<K>(sent: seq<(K, PublicId)>, m: (K, PublicId))
    ensures forall k :: Reached(sent + [m], k) <==> Reached(sent, k) || k == m.0
  {
    forall k ensures Reached(sent + [m], k) <==> Reached(sent, k) || k == m.0 {
      assert (sent + [m])[|sent|] == m;
      if i :| 0 <= i < |sent| && sent[i].0 == k {
        assert (sent + [m])[i].0 == k;
      }
    }
  }

  /** What publishing to some open subscribers puts on the wire: one update to each that finds a
      subscription of its own. */
  ghost predicate Published<K>(open: set<K>, subsOf: map<K, Subscriptions>, state: StateId, sent: seq<(K, PublicId)>)
    requires open <= subsOf.Keys
  {
    && (forall i, j :: 0 <= i < j < |sent| ==> sent[i].0 != sent[j].0)
    && (forall i :: 0 <= i < |sent| ==> sent[i].0 in open && SubscribedAs(subsOf[sent[i].0], state, sent[i].1))
    && (forall k :: k in open && SubscribedTo(subsOf[k], state) ==> Reached(sent, k))
  }

  class Connection {
    var open: bool
    var ctx: Option<AuthContext>
    var subscriptions: Subscriptions

    constructor ()
      ensures open && ctx.None? && subscriptions == map[]
    {
      open, ctx, subscriptions := true, None, map[];
    }
  }

  class SubscriberSet {
    var members: set<Connection>

    constructor ()
      ensures members == {}
    {
      members := {};
    }
  }

  class RealtimeGateway {
    var connections: set<Connection>
    var stateSubscribers: map<StateId, SubscriberSet>
    // The states asked of the adapter and not given back.
    var upstream: set<StateId>

    constructor ()
      ensures Valid() && connections == {} && stateSubscribers == map[]
    {
      connections, stateSubscribers, upstream := {}, map[], {};
    }

    /** Each state has a set of its own, and exactly the states of the index are asked of the adapter. */
    ghost predicate Valid()
      reads this
    {
      && upstream == stateSubscribers.Keys
      && forall s, t :: s in stateSubscribers && t in stateSubscribers && s != t ==> stateSubscribers[s] != stateSubscribers[t]
    }

    ghost function IndexNow(): Index<Connection, SubscriberSet?>
      reads this, stateSubscribers.Values
    {
      map state | state in stateSubscribers :: Entry(stateSubscribers[state], stateSubscribers[state].members)
    }

    ghost function HubOf(c: Connection): Hub<Connection, SubscriberSet?>
      reads this, stateSubscribers.Values, c
    {
      Hub(c.subscriptions, IndexNow())
    }

    method HandleConnection() returns (c: Connection)
      modifies this`connections
      ensures fresh(c) && c.open && c.ctx.None? && c.subscriptions == map[]
      ensures connections == old(connections) + {c}
    {
      c := new Connection();
      connections := connections + {c};
    }

    // The set object a stretch has made, if it has.
    static ghost function MadeFor(wait: Option<Wait<SubscriberSet?>>): SubscriberSet? {
      if wait.Some? && wait.value.AtSubscribe? then wait.value.subscribers else null
    }

    /** The gate of handleMessage: nothing but an auth message is heard before authentication. Runs to
        the first await of the handler. */
    method HandleMessage(c: Connection, message: Message, readable: Subscriptions) returns (wait: Option<Wait<SubscriberSet?>>)
      requires Valid()
      modifies this`stateSubscribers, this`upstream, c`subscriptions, stateSubscribers.Values`members
      ensures Valid() && (MadeFor(wait) != null ==> fresh(MadeFor(wait)))
      ensures Stretch(HubOf(c), wait) ==
        if c.ctx.None? then Stretch(old(HubOf(c)), None) else Handle(old(HubOf(c)), c, message, readable, MadeFor(wait))
    {
      if c.ctx.None? {
        return None;
      }
      match message
      case Subscribe(ids) => wait := SubscribeTo(c, ids, readable);
      case Unsubscribe(ids) => wait := UnsubscribeOf(c, ids);
    }

    /** subscribe, from some id of its list to the next await. */
    method SubscribeTo(c: Connection, ids: seq<PublicId>, readable: Subscriptions) returns (wait: Option<Wait<SubscriberSet?>>)
      requires Valid()
      modifies this`stateSubscribers, this`upstream, c`subscriptions, stateSubscribers.Values`members
      ensures Valid() && (MadeFor(wait) != null ==> fresh(MadeFor(wait)))
      ensures Stretch(HubOf(c), wait) == SubscribeFrom(old(HubOf(c)), c, ids, readable, MadeFor(wait))
    {
      var i := 0;
      while i < |ids| && ids[i] !in readable
        invariant i <= Seek(ids, readable.Keys) <= |ids|
        invariant forall j :: 0 <= j < i ==> ids[j] !in readable
      {
        i := i + 1;
      }
      assert i == Seek(ids, readable.Keys);
      if i == |ids| {
        return None;
      }
      var stateId := readable[ids[i]];
      c.subscriptions := c.subscriptions[ids[i] := stateId];
      if stateId !in stateSubscribers {
        var subscribers := new SubscriberSet();
        stateSubscribers := stateSubscribers[stateId := subscribers];
        upstream := upstream + {stateId};
        return Some(AtSubscribe(subscribers, ids[i], stateId, ids[i + 1..]));
      }
      var subscribers := stateSubscribers[stateId];
      subscribers.members := subscribers.members + {c};
      return Some(AtRead(ids[i], ids[i + 1..]));
    }

    /** subscribe, when the adapter has subscribed: the connection enters the set made before the await. */
    method SubscribedUpstream(c: Connection, subscribers: SubscriberSet)
      modifies subscribers`members
      ensures IndexNow() == Join(old(IndexNow()), subscribers, c)
    {
      subscribers.members := subscribers.members + {c};
    }

    /** subscribe, when the value has been read: it is sent, and the loop goes on. */
    method ValueRead(c: Connection, id: PublicId, found: bool, rest: seq<PublicId>, readable: Subscriptions)
      returns (sent: seq<PublicId>, wait: Option<Wait<SubscriberSet?>>)
      requires Valid()
      modifies this`stateSubscribers, this`upstream, c`subscriptions, stateSubscribers.Values`members
      ensures Valid() && (MadeFor(wait) != null ==> fresh(MadeFor(wait)))
      ensures sent == UpdateFor(id, found, c.open)
      ensures Stretch(HubOf(c), wait) == SubscribeFrom(old(HubOf(c)), c, rest, readable, MadeFor(wait))
    {
      sent := if found && c.open then [id] else [];
      wait := SubscribeTo(c, rest, readable);
    }

    /** unsubscribe, from some id of its list to the next await. */
    method UnsubscribeOf(c: Connection, ids: seq<PublicId>) returns (wait: Option<Wait<SubscriberSet?>>)
      requires Valid()
      modifies this`stateSubscribers, this`upstream, c`subscriptions, stateSubscribers.Values`members
      ensures Valid() && MadeFor(wait) == null
      ensures Stretch(HubOf(c), wait) == UnsubscribeFrom(old(HubOf(c)), c, ids)
    {
      var i := 0;
      while i < |ids| && ids[i] !in c.subscriptions
        invariant i <= Seek(ids, c.subscriptions.Keys) <= |ids|
        invariant forall j :: 0 <= j < i ==> ids[j] !in c.subscriptions
      {
        i := i + 1;
      }
      if i == |ids| {
        return None;
      }
      var stateId := c.subscriptions[ids[i]];
      c.subscriptions := c.subscriptions - {ids[i]};
      var emptied := ReleaseSubscription(c, stateId);
      return Some(AtRelease(ids[i + 1..], emptied));
    }

    method ReleaseSubscription(c: Connection, stateId: StateId) returns (emptied: bool)
      requires Valid()
      modifies this`stateSubscribers, this`upstream, stateSubscribers.Values`members
      ensures Valid() && stateSubscribers.Values <= old(stateSubscribers.Values)
      ensures emptied == Empties(old(IndexNow()), stateId, c) && IndexNow() == Release(old(IndexNow()), stateId, c)
    {
      if stateId !in stateSubscribers {
        return false;
      }
      var subscribers := stateSubscribers[stateId];
      subscribers.members := subscribers.members - {c};
      if subscribers.members == {} {
        stateSubscribers := stateSubscribers - {stateId};
        upstream := upstream - {stateId};
        return true;
      }
      return false;
    }

    /** Leaves the connection's own map as it is. */
    method CleanupConnection(c: Connection)
      requires Valid()
      modifies this, stateSubscribers.Values`members
      ensures Valid() && connections == old(connections) - {c}
      ensures IndexNow() == ReleaseAll(old(IndexNow()), c.subscriptions.Values, c)
    {
      connections := connections - {c};
      var todo := c.subscriptions.Keys;
      ghost var done: set<StateId> := {};
      assert IndexNow() == ReleaseAll(IndexNow(), {}, c);
      while todo != {}
        invariant Valid() && connections == old(connections) - {c}
        invariant todo <= c.subscriptions.Keys && done <= c.subscriptions.Values
        invariant forall id :: id in c.subscriptions && id !in todo ==> c.subscriptions[id] in done
        invariant stateSubscribers.Values <= old(stateSubscribers.Values)
        invariant IndexNow() == ReleaseAll(old(IndexNow()), done, c)
        decreases todo
      {
        var id :| id in todo;
        ReleaseStep(old(IndexNow()), done, c.subscriptions[id], c);
        var emptied := ReleaseSubscription(c, c.subscriptions[id]);
        todo, done := todo - {id}, done + {c.subscriptions[id]};
      }
      assert done == c.subscriptions.Values;
    }

    /** What is put on the wire: one update for each open subscriber that finds a subscription of its own. */
    method PublishStateChange(stateId: StateId, gone: bool) returns (sent: seq<(Connection, PublicId)>)
      ensures gone || stateId !in stateSubscribers ==> sent == []
      ensures !gone && stateId in stateSubscribers ==>
        var subscribers := stateSubscribers[stateId].members;
        Published(set c | c in subscribers && c.open, map c | c in subscribers :: c.subscriptions, stateId, sent)
    {
      sent := [];
      if gone || stateId !in stateSubscribers {
        return;
      }
      var subscribers := stateSubscribers[stateId].members;
      var todo := subscribers;
      while todo != {}
        invariant todo <= subscribers
        invariant forall i, j :: 0 <= i < j < |sent| ==> sent[i].0 != sent[j].0
        invariant forall i :: 0 <= i < |sent| ==>
          sent[i].0 in subscribers - todo && sent[i].0.open && SubscribedAs(sent[i].0.subscriptions, stateId, sent[i].1)
        invariant forall c :: c in subscribers - todo && c.open && SubscribedTo(c.subscriptions, stateId) ==> Reached(sent, c)
        decreases todo
      {
        var c :| c in todo;
        todo := todo - {c};
        if id :| id in c.subscriptions && c.subscriptions[id] == stateId {
          if c.open {
            ReachedGrows(sent, (c, id));
            sent := sent + [(c, id)];
          }
        }
      }
    }
  }
}

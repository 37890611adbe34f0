/** Which values a subscribe reads and sends, from its first stretch to its end. */
module RealtimeReads {
  import opened Common
  import opened Realtime

  /** The ids of a list that may be read, in order, each occurrence. */
  function OnlyReadable(ids: seq<PublicId>, readable: set<PublicId>): seq<PublicId> {
    if |ids| == 0 then []
    else if ids[0] in readable then [ids[0]] + OnlyReadable(ids[1..], readable)
    else OnlyReadable(ids[1..], readable)
  }

  function Left<S>(wait: Option<Wait<S>>): nat {
    match wait
    case None => 0
    case Some(AtSubscribe(_, _, _, rest)) => 2 * |rest| + 2
    case Some(AtRead(_, rest)) => 2 * |rest| + 1
    case Some(AtRelease(rest, _)) => 0
  }

  /** The ids whose values it has read, and the updates it has sent. */
  datatype Drained = Drained(asked: seq<PublicId>, updates: seq<PublicId>)

  /** A suspended subscribe resumed again and again until it ends. Whatever else happens to map and index
      between its stretches: `hubs` is what it finds each time, `made` the sets it makes. */
  ghost function Drain<K, S>(hubs: nat -> Hub<K, S>, made: nat -> S, n: nat, k: K, wait: Option<Wait<S>>, readable: Subscriptions,
                             found: bool, open: bool): Drained
    decreases Left(wait)
  {
    if wait.None? || wait.value.AtRelease? then Drained([], []) else
      var next := Resumed(hubs(n), k, wait.value, readable, made(n)).wait;
      var later := Drain(hubs, made, n + 1, k, next, readable, found, open);
      if wait.value.AtRead?
      then Drained([wait.value.id] + later.asked, UpdateFor(wait.value.id, found, open) + later.updates)
      else later
  }

  /** A subscribe reads exactly the readable ids of its list, in order and each as often as it is listed,
      and with values found and the socket open it sends exactly those updates, else none. */
  lemma {:induction false} SubscribeReadsItsList<K, S>(
      h: Hub<K, S>, hubs: nat -> Hub<K, S>, first: S, made: nat -> S, n: nat, k: K, ids: seq<PublicId>, readable: Subscriptions,
      found: bool, open: bool)
    ensures var drained := Drain(hubs, made, n, k, SubscribeFrom(h, k, ids, readable, first).wait, readable, found, open);
      && drained.asked == OnlyReadable(ids, readable.Keys)
      && drained.updates == if found && open then OnlyReadable(ids, readable.Keys) else []
    decreases |ids|
  {
    var i := Seek(ids, readable.Keys);
    PassedOver(ids, readable.Keys);
    if i < |ids| {
      var rest := ids[i + 1..];
      var wait := SubscribeFrom(h, k, ids, readable, first).wait.value;
      if wait.AtSubscribe? {
        SubscribeReadsItsList(hubs(n + 1), hubs, made(n + 1), made, n + 2, k, rest, readable, found, open);
      } else {
        SubscribeReadsItsList(hubs(n), hubs, made(n), made, n + 1, k, rest, readable, found, open);
      }
    }
  }

  lemma {:induction false} PassedOver(ids: seq<PublicId>, readable: set<PublicId>)
    ensures var i := Seek(ids, readable);
      OnlyReadable(ids, readable) == if i < |ids| then [ids[i]] + OnlyReadable(ids[i + 1..], readable) else []
  {
    if |ids| > 0 && ids[0] !in readable {
      var rest := ids[1..];
      var i := Seek(rest, readable);
      PassedOver(rest, readable);
      assert Seek(ids, readable) == i + 1 && OnlyReadable(ids, readable) == OnlyReadable(rest, readable);
      if i < |rest| {
        assert rest[i + 1..] == ids[i + 2..];
      }
    }
  }
}

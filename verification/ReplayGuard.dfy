/** The in-memory replay guard (src/security/replayGuard.ts). */
module ReplayGuards {
  // Times are milliseconds. Every call carries the clock readings the code takes, in the order it
  // takes them, so the delay between two readings of one request is visible in the statements.

  /** nonce key -> expiresAt */
  type Seen = map<string, int>

  function Evict(seen: Seen, now: int): Seen {
    map key | key in seen && now <= seen[key] :: seen[key]
  }

  datatype Checked = Checked(isNew: bool, seen: Seen)

  /** One checkAndRemember: evict with one clock reading, remember with a later one. */
  function Check(seen: Seen, ttlMs: int, key: string, evictAt: int, rememberAt: int): Checked {
    var kept := Evict(seen, evictAt);
    if key in kept then Checked(false, kept) else Checked(true, kept[key := rememberAt + ttlMs])
  }

  class ReplayGuard {
    const ttlMs: int
    var seen: Seen

    constructor (ttlMs: int)
      ensures this.ttlMs == ttlMs && seen == map[]
    {
      this.ttlMs := ttlMs;
      seen := map[];
    }

    method CheckAndRemember(key: string, evictAt: int, rememberAt: int) returns (isNew: bool)
      modifies this`seen
      ensures Checked(isNew, seen) == Check(old(seen), ttlMs, key, evictAt, rememberAt)
    {
      EvictExpired(evictAt);
      if key in seen {
        return false;
      }
      seen := seen[key := rememberAt + ttlMs];
      return true;
    }

    method EvictExpired(now: int)
      modifies this`seen
      ensures seen == Evict(old(seen), now)
    {
      var todo := seen.Keys;
      while todo != {}
        invariant todo <= seen.Keys <= old(seen).Keys
        invariant forall key :: key in seen ==> seen[key] == old(seen)[key]
        invariant forall key :: key in old(seen) && key !in todo ==> (key in seen <==> now <= old(seen)[key])
        decreases todo
      {
        var key :| key in todo;
        if seen[key] < now {
          seen := seen - {key};
        }
        todo := todo - {key};
      }
    }
  }

  // ---- Whole runs of the guard -------------------------------------------------------------

  datatype Call = Call(key: string, evictAt: int, rememberAt: int)

  /** The clock never goes back, inside a call or from one call to the next. */
  ghost predicate Monotone(calls: seq<Call>) {
    && (forall i :: 0 <= i < |calls| ==> calls[i].evictAt <= calls[i].rememberAt)
    && (forall i, j :: 0 <= i < j < |calls| ==> calls[i].rememberAt <= calls[j].evictAt)
  }

  function SeenAfter(ttlMs: int, calls: seq<Call>): Seen {
    if calls == [] then map[] else
      var last := calls[|calls| - 1];
      Check(SeenAfter(ttlMs, calls[..|calls| - 1]), ttlMs, last.key, last.evictAt, last.rememberAt).seen
  }

  /** The answer the guard gives to call i of a run. */
  predicate IsNewAt(ttlMs: int, calls: seq<Call>, i: nat)
    requires i < |calls|
  {
    Check(SeenAfter(ttlMs, calls[..i]), ttlMs, calls[i].key, calls[i].evictAt, calls[i].rememberAt).isNew
  }

  /** The simple form: call j still bars its key at clock reading `now`. */
  ghost predicate Bars(ttlMs: int, calls: seq<Call>, j: nat, key: string, now: int)
    requires j < |calls|
  {
    calls[j].key == key && IsNewAt(ttlMs, calls, j) && now <= calls[j].rememberAt + ttlMs
  }

  lemma {:induction false} SeenComesFromACall(ttlMs: int, calls: seq<Call>, key: string)
    requires key in SeenAfter(ttlMs, calls)
    ensures exists j: nat :: j < |calls| && calls[j].key == key && IsNewAt(ttlMs, calls, j)
                          && SeenAfter(ttlMs, calls)[key] == calls[j].rememberAt + ttlMs
  {
    var n := |calls| - 1;
    var before := SeenAfter(ttlMs, calls[..n]);
    var last := calls[n];
    if last.key == key && key !in Evict(before, last.evictAt) {
      assert IsNewAt(ttlMs, calls, n);
    } else {
      SeenComesFromACall(ttlMs, calls[..n], key);
      var j: nat :| j < n && calls[..n][j].key == key && IsNewAt(ttlMs, calls[..n], j) && before[key] == calls[..n][j].rememberAt + ttlMs;
      assert calls[..n][..j] == calls[..j];
      assert IsNewAt(ttlMs, calls, j);
    }
  }

  lemma {:induction false} LiveEntryIsSeen(ttlMs: int, calls: seq<Call>, j: nat, now: int)
    requires Monotone(calls) && j < |calls| && IsNewAt(ttlMs, calls, j)
    requires forall i :: 0 <= i < |calls| ==> calls[i].rememberAt <= now
    requires now <= calls[j].rememberAt + ttlMs
    ensures calls[j].key in SeenAfter(ttlMs, calls)
    ensures SeenAfter(ttlMs, calls)[calls[j].key] >= calls[j].rememberAt + ttlMs
  {
    var n := |calls| - 1;
    if j < n {
      var before := calls[..n];
      assert before[..j] == calls[..j];
      assert calls[n].evictAt <= calls[n].rememberAt && calls[j].rememberAt <= calls[n].evictAt;
      LiveEntryIsSeen(ttlMs, before, j, calls[n].evictAt);
      assert SeenAfter(ttlMs, before)[calls[j].key] >= calls[j].rememberAt + ttlMs;
    } else {
      assert calls[..j] == calls[..n];
    }
  }

  /** The evicting table answers every call of every run as a full scan of the history would: a key
      is fresh exactly when no earlier fresh call with that key is still within its lifetime. */
  lemma {:induction false} GuardIsScanOfHistory(ttlMs: int, calls: seq<Call>, i: nat)
    requires Monotone(calls) && i < |calls|
    ensures IsNewAt(ttlMs, calls, i) <==> !exists j: nat :: j < i && Bars(ttlMs, calls, j, calls[i].key, calls[i].evictAt)
  {
    var prefix := calls[..i];
    var key, now := calls[i].key, calls[i].evictAt;
    forall j: nat | j < i ensures prefix[j] == calls[j] && IsNewAt(ttlMs, prefix, j) == IsNewAt(ttlMs, calls, j) {
      assert prefix[..j] == calls[..j];
    }
    if j: nat :| j < i && Bars(ttlMs, calls, j, key, now) {
      LiveEntryIsSeen(ttlMs, prefix, j, now);
    }
    if !IsNewAt(ttlMs, calls, i) {
      SeenComesFromACall(ttlMs, prefix, key);
      var j: nat :| j < i && prefix[j].key == key && IsNewAt(ttlMs, prefix, j) && SeenAfter(ttlMs, prefix)[key] == prefix[j].rememberAt + ttlMs;
      assert Bars(ttlMs, calls, j, key, now);
    }
  }
}

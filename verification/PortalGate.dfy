/** The portal gate (src/api/portalGate.ts) in front of every route, driving the abuse guard. */
module PortalGates {
  // Each request carries the two clock readings the gate takes for it: in isBlocked and, later, in
  // recordFailure.

  import opened AbuseGuards

  datatype Event =
    | Request(ip: string, exempt: bool, keyMatches: bool, checkedAt: int, recordedAt: int)
    | AdminSnapshot(at: int)

  datatype Outcome = Passed | RefusedUnread | RefusedWrongKey

  datatype Gated = Gated(outcome: Outcome, slot: Slot)

  function GateSlot(cfg: Config, slot: Slot, r: Event): Gated
    requires r.Request?
  {
    if r.exempt then Gated(Passed, slot)
    else if StillBlocked(slot, r.checkedAt) then Gated(RefusedUnread, slot)
    else if r.keyMatches then Gated(Passed, Empty)
    else Gated(RefusedWrongKey, Full(AfterFailure(cfg, AfterIsBlocked(slot, r.checkedAt), r.recordedAt, "portal_key")))
  }

  function Put(buckets: Buckets, key: string, slot: Slot): Buckets {
    if slot.Full? then buckets[key := slot.bucket] else buckets - {key}
  }

  /** createPortalGateMiddleware: the key is looked at only if the address is not blocked. */
  method PortalGate(guard: AbuseGuard, r: Event) returns (outcome: Outcome)
    requires r.Request?
    modifies guard`buckets
    ensures outcome == GateSlot(guard.config, Lookup(old(guard.buckets), r.ip), r).outcome
    ensures guard.buckets == Put(old(guard.buckets), r.ip, GateSlot(guard.config, Lookup(old(guard.buckets), r.ip), r).slot)
  {
    if r.exempt {
      return Passed;
    }
    var blocked := guard.IsBlocked(r.ip, r.checkedAt);
    if blocked {
      assert guard.buckets == guard.buckets - {r.ip} + map[r.ip := guard.buckets[r.ip]];
      return RefusedUnread;
    }
    if r.keyMatches {
      guard.RecordSuccess(r.ip);
      return Passed;
    }
    var justBlocked := guard.RecordFailure(r.ip, "portal_key", r.recordedAt);
    assert guard.buckets - {r.ip} == old(guard.buckets) - {r.ip};
    assert guard.buckets == guard.buckets - {r.ip} + map[r.ip := guard.buckets[r.ip]];
    return RefusedWrongKey;
  }

  // ---- Whole runs --------------------------------------------------------------------------

  function SlotAfter(cfg: Config, ip: string, events: seq<Event>): Slot {
    if events == [] then Empty else
      SlotStep(cfg, ip, SlotAfter(cfg, ip, events[..|events| - 1]), events[|events| - 1])
  }

  /** What one event does to the place of `ip`. */
  function SlotStep(cfg: Config, ip: string, slot: Slot, e: Event): Slot {
    match e
    case Request(from, _, _, _, _) => if from == ip then GateSlot(cfg, slot, e).slot else slot
    case AdminSnapshot(at) => if slot.Full? && IsStale(cfg, slot.bucket, at) then Empty else slot
  }

  function BucketsAfter(cfg: Config, events: seq<Event>): Buckets {
    if events == [] then map[] else
      var before := BucketsAfter(cfg, events[..|events| - 1]);
      match events[|events| - 1]
      case Request(ip, _, _, _, _) => Put(before, ip, GateSlot(cfg, Lookup(before, ip), events[|events| - 1]).slot)
      case AdminSnapshot(at) => Prune(cfg, before, at)
  }

  /** The shared table treats every address as if it had the guard for itself. */
  lemma {:induction false} AddressesAreIndependent(cfg: Config, ip: string, events: seq<Event>)
    ensures Lookup(BucketsAfter(cfg, events), ip) == SlotAfter(cfg, ip, events)
  {
    if events != [] {
      AddressesAreIndependent(cfg, ip, events[..|events| - 1]);
    }
  }

  function First(e: Event): int {
    if e.Request? then e.checkedAt else e.at
  }

  function Last(e: Event): int {
    if e.Request? then e.recordedAt else e.at
  }

  ghost predicate Monotone(events: seq<Event>) {
    && (forall i :: 0 <= i < |events| ==> 0 < First(events[i]) <= Last(events[i]))
    && (forall i, j :: 0 <= i < j < |events| ==> Last(events[i]) <= First(events[j]))
  }

  function OutcomeOf(cfg: Config, events: seq<Event>, i: nat): Outcome
    requires i < |events| && events[i].Request?
  {
    GateSlot(cfg, SlotAfter(cfg, events[i].ip, events[..i]), events[i]).outcome
  }

  // ---- How many wrong keys can be tried ----------------------------------------------------

  /** Wrong keys from `ip` that were compared with the real one at a time in [from, until). */
  function WrongKeysIn(cfg: Config, ip: string, events: seq<Event>, from: int, until: int): nat {
    if events == [] then 0 else
      var n := |events| - 1;
      WrongKeysIn(cfg, ip, events[..n], from, until) + if IsWrongKey(cfg, ip, events, from, until) then 1 else 0
  }

  predicate IsWrongKey(cfg: Config, ip: string, events: seq<Event>, from: int, until: int)
    requires events != []
  {
    var e := events[|events| - 1];
    e.Request? && e.ip == ip && from <= e.recordedAt < until && OutcomeOf(cfg, events, |events| - 1) == RefusedWrongKey
  }

  function EffectiveMax(cfg: Config): int {
    if cfg.maxFailures < 1 then 1 else cfg.maxFailures
  }

  /** Failures an address can have used up in a window without being blocked, apart from one. */
  function Slack(cfg: Config): int {
    if EffectiveMax(cfg) >= 2 then EffectiveMax(cfg) - 2 else 0
  }

  /** Where `n` wrong keys since `from` can have come from, given the address's place in the table. */
  ghost predicate Tally(cfg: Config, n: int, slot: Slot, from: int) {
    match slot
    case Empty => n <= Slack(cfg)
    case Full(b) =>
      && 1 <= b.failures <= EffectiveMax(cfg)
      && (b.failures < EffectiveMax(cfg) <==> !IsSet(b.blockedUntil))
      && (b.blockedUntil.At? ==> IsSet(b.blockedUntil) && (b.blockedUntil.ms - cfg.blockMs < from ==> n == 0))
      && n <= if b.windowStart < from then b.failures - 1 else Slack(cfg) + b.failures
  }

  lemma WrongKeyStep(cfg: Config, n: int, slot: Slot, from: int, r: Event)
    requires Tally(cfg, n, slot, from) && r.Request? && !r.exempt && !r.keyMatches
    requires 0 < cfg.blockMs && 0 < r.checkedAt <= r.recordedAt
    requires r.recordedAt < from + cfg.windowMs && r.recordedAt < from + cfg.blockMs
    requires r.recordedAt < from ==> n == 0
    requires !StillBlocked(slot, r.checkedAt)
    ensures Tally(cfg, n + (if from <= r.recordedAt then 1 else 0), GateSlot(cfg, slot, r).slot, from)
  {
  }

  lemma {:induction false} NothingBefore(cfg: Config, ip: string, events: seq<Event>, from: int, until: int)
    requires Monotone(events) && events != [] && Last(events[|events| - 1]) < from
    ensures WrongKeysIn(cfg, ip, events, from, until) == 0
  {
    if |events| > 1 {
      NothingBefore(cfg, ip, events[..|events| - 1], from, until);
    }
  }

  /** No request of `ip` in [from, until) carries the right key. */
  ghost predicate NoRightKey(ip: string, events: seq<Event>, from: int, until: int) {
    forall i | 0 <= i < |events| && events[i].Request? && events[i].ip == ip && from <= events[i].recordedAt < until ::
      events[i].exempt || !events[i].keyMatches
  }

  lemma {:induction false} TallyHolds(cfg: Config, ip: string, events: seq<Event>, from: int, until: int)
    requires Monotone(events) && NoRightKey(ip, events, from, until) && 0 < cfg.blockMs
    requires until <= from + cfg.windowMs && until <= from + cfg.blockMs
    requires events != [] ==> Last(events[|events| - 1]) < until
    ensures Tally(cfg, WrongKeysIn(cfg, ip, events, from, until), SlotAfter(cfg, ip, events), from)
  {
    if events != [] {
      var n := |events| - 1;
      var earlier, e := events[..n], events[n];
      TallyHolds(cfg, ip, earlier, from, until);
      if Last(e) < from {
        NothingBefore(cfg, ip, events, from, until);
        if n > 0 {
          NothingBefore(cfg, ip, earlier, from, until);
        }
      }
      var count, slot := WrongKeysIn(cfg, ip, earlier, from, until), SlotAfter(cfg, ip, earlier);
      if e.Request? && e.ip == ip && !e.exempt && !e.keyMatches && !StillBlocked(slot, e.checkedAt) {
        WrongKeyStep(cfg, count, slot, from, e);
      }
    }
  }

  /** Brute-force bound: in any interval no longer than the failure window and no longer than the
      block, one address that never sends the right key has at most max(M, 2M - 2) keys compared,
      whatever other addresses and the admin view do. */
  lemma {:induction false} BruteForceBound(cfg: Config, ip: string, events: seq<Event>, from: int, until: int)
    requires Monotone(events) && NoRightKey(ip, events, from, until)
    requires until <= from + cfg.windowMs && until <= from + cfg.blockMs
    ensures WrongKeysIn(cfg, ip, events, from, until) <= EffectiveMax(cfg) + Slack(cfg)
  {
    if events != [] {
      if Last(events[|events| - 1]) >= until {
        BruteForceBound(cfg, ip, events[..|events| - 1], from, until);
      } else if from < until {
        TallyHolds(cfg, ip, events, from, until);
      } else {
        NothingBefore(cfg, ip, events, from, until);
      }
    }
  }

  // ---- The bound is attained ---------------------------------------------------------------

  function WrongKeys(ip: string, at: int, n: nat): seq<Event> {
    if n == 0 then [] else WrongKeys(ip, at, n - 1) + [Request(ip, false, false, at, at)]
  }

  lemma OneMore(cfg: Config, ip: string, events: seq<Event>, e: Event, from: int, until: int)
    requires e.Request? && e.ip == ip && from <= e.recordedAt < until
    ensures SlotAfter(cfg, ip, events + [e]) == GateSlot(cfg, SlotAfter(cfg, ip, events), e).slot
    ensures WrongKeysIn(cfg, ip, events + [e], from, until) ==
            WrongKeysIn(cfg, ip, events, from, until) + if GateSlot(cfg, SlotAfter(cfg, ip, events), e).outcome == RefusedWrongKey then 1 else 0
  {
    assert (events + [e])[..|events|] == events;
  }

  /** A place that has taken `failures` wrong keys since `start` and is blocked only when full. */
  ghost predicate Holding(cfg: Config, slot: Slot, failures: int, start: int) {
    && slot.Full? && slot.bucket.failures == failures && slot.bucket.windowStart == start
    && (failures < cfg.maxFailures ==> !IsSet(slot.bucket.blockedUntil))
  }

  /** The next wrong key at `at` will be number had + 1 of the window that began at `start`. */
  ghost predicate ReadyFor(cfg: Config, slot: Slot, had: int, start: int, at: int) {
    && (slot.Full? ==> !IsSet(slot.bucket.blockedUntil))
    && Counting(cfg, slot, at).failures == had && Counting(cfg, slot, at).windowStart == start
  }

  lemma AddOne(cfg: Config, slot: Slot, had: int, start: int, r: Event)
    requires 0 < cfg.windowMs && had < cfg.maxFailures
    requires r.Request? && !r.exempt && !r.keyMatches && r.checkedAt == r.recordedAt
    requires ReadyFor(cfg, slot, had, start, r.recordedAt)
    ensures GateSlot(cfg, slot, r).outcome == RefusedWrongKey
    ensures Holding(cfg, GateSlot(cfg, slot, r).slot, had + 1, start)
    ensures had + 1 < cfg.maxFailures ==> ReadyFor(cfg, GateSlot(cfg, slot, r).slot, had + 1, start, r.recordedAt)
  {
  }

  // A run of wrong keys that left its mark on the count and on the address's place.
  ghost predicate AddedUp(cfg: Config, ip: string, events: seq<Event>, after: seq<Event>, at: int, n: nat, had: int, start: int, from: int, until: int) {
    && WrongKeysIn(cfg, ip, after, from, until) == WrongKeysIn(cfg, ip, events, from, until) + n
    && Holding(cfg, SlotAfter(cfg, ip, after), had + n, start)
    && (had + n < cfg.maxFailures ==> ReadyFor(cfg, SlotAfter(cfg, ip, after), had + n, start, at))
  }

  lemma OneMoreWrongKey(cfg: Config, ip: string, events: seq<Event>, at: int, had: int, start: int, from: int, until: int)
    requires 0 < cfg.windowMs && had < cfg.maxFailures && from <= at < until
    requires ReadyFor(cfg, SlotAfter(cfg, ip, events), had, start, at)
    ensures AddedUp(cfg, ip, events, events + [Request(ip, false, false, at, at)], at, 1, had, start, from, until)
  {
    var e := Request(ip, false, false, at, at);
    OneMore(cfg, ip, events, e, from, until);
    AddOne(cfg, SlotAfter(cfg, ip, events), had, start, e);
  }

  lemma LastWrongKey(ip: string, events: seq<Event>, at: int, n: nat)
    requires 1 <= n
    ensures events + WrongKeys(ip, at, n) == events + WrongKeys(ip, at, n - 1) + [Request(ip, false, false, at, at)]
  {
  }

  /** n wrong keys in a row, none of them after a block, add up in one bucket. */
  lemma {:induction false} WrongKeysAddUp(cfg: Config, ip: string, events: seq<Event>, at: int, n: nat, had: int, start: int, from: int, until: int)
    requires 0 < cfg.windowMs && 1 <= n && had + n <= cfg.maxFailures && from <= at < until
    requires ReadyFor(cfg, SlotAfter(cfg, ip, events), had, start, at)
    ensures AddedUp(cfg, ip, events, events + WrongKeys(ip, at, n), at, n, had, start, from, until)
    decreases n
  {
    var shorter := events + WrongKeys(ip, at, n - 1);
    LastWrongKey(ip, events, at, n);
    if n == 1 {
      assert shorter == events;
    } else {
      WrongKeysAddUp(cfg, ip, events, at, n - 1, had, start, from, until);
    }
    OneMoreWrongKey(cfg, ip, shorter, at, had + n - 1, start, from, until);
  }

  /** One failure, the rest of its window just before it ends, then a whole new window. */
  function Worst(cfg: Config, ip: string): seq<Event>
    requires 2 <= cfg.maxFailures
  {
    OldWindow(cfg, ip) + WrongKeys(ip, cfg.windowMs + 1, cfg.maxFailures)
  }

  function OldWindow(cfg: Config, ip: string): seq<Event>
    requires 2 <= cfg.maxFailures
  {
    WrongKeys(ip, 1, 1) + WrongKeys(ip, cfg.windowMs, cfg.maxFailures - 2)
  }

  lemma FirstWrongKey(cfg: Config, ip: string)
    requires 2 <= cfg.maxFailures && 2 <= cfg.windowMs
    ensures WrongKeysIn(cfg, ip, WrongKeys(ip, 1, 1), 2, 2 + cfg.windowMs) == 0
    ensures ReadyFor(cfg, SlotAfter(cfg, ip, WrongKeys(ip, 1, 1)), 1, 1, cfg.windowMs)
    ensures Holding(cfg, SlotAfter(cfg, ip, WrongKeys(ip, 1, 1)), 1, 1)
  {
    assert SlotAfter(cfg, ip, []) == Empty;
    WrongKeysAddUp(cfg, ip, [], 1, 1, 0, 1, 1, 2);
    assert [] + WrongKeys(ip, 1, 1) == WrongKeys(ip, 1, 1);
    NothingBefore(cfg, ip, WrongKeys(ip, 1, 1), 2, 2 + cfg.windowMs);
  }

  lemma NextWindow(cfg: Config, slot: Slot, failures: int, start: int, at: int)
    requires Holding(cfg, slot, failures, start) && failures < cfg.maxFailures && start + cfg.windowMs <= at
    ensures ReadyFor(cfg, slot, 0, at, at)
  {
  }

  lemma OldWindowIsFull(cfg: Config, ip: string)
    requires 2 <= cfg.maxFailures && 2 <= cfg.windowMs
    ensures WrongKeysIn(cfg, ip, OldWindow(cfg, ip), 2, 2 + cfg.windowMs) == cfg.maxFailures - 2
    ensures ReadyFor(cfg, SlotAfter(cfg, ip, OldWindow(cfg, ip)), 0, cfg.windowMs + 1, cfg.windowMs + 1)
  {
    FirstWrongKey(cfg, ip);
    if cfg.maxFailures > 2 {
      WrongKeysAddUp(cfg, ip, WrongKeys(ip, 1, 1), cfg.windowMs, cfg.maxFailures - 2, 1, 1, 2, 2 + cfg.windowMs);
    } else {
      assert OldWindow(cfg, ip) == WrongKeys(ip, 1, 1);
    }
    NextWindow(cfg, SlotAfter(cfg, ip, OldWindow(cfg, ip)), cfg.maxFailures - 1, 1, cfg.windowMs + 1);
  }

  /** Over one whole window the bound is reached. */
  lemma BruteForceBoundIsAttained(cfg: Config, ip: string)
    requires 2 <= cfg.maxFailures && 2 <= cfg.windowMs
    ensures WrongKeysIn(cfg, ip, Worst(cfg, ip), 2, 2 + cfg.windowMs) == EffectiveMax(cfg) + Slack(cfg)
  {
    OldWindowIsFull(cfg, ip);
    WrongKeysAddUp(cfg, ip, OldWindow(cfg, ip), cfg.windowMs + 1, cfg.maxFailures, 0, cfg.windowMs + 1, 2, 2 + cfg.windowMs);
  }

  lemma {:induction false} WrongKeysAre(ip: string, at: int, n: nat)
    ensures |WrongKeys(ip, at, n)| == n && forall i :: 0 <= i < n ==> WrongKeys(ip, at, n)[i] == Request(ip, false, false, at, at)
  {
    if n > 0 {
      WrongKeysAre(ip, at, n - 1);
    }
  }

  lemma WorstIsMonotone(cfg: Config, ip: string)
    requires 2 <= cfg.maxFailures && 2 <= cfg.windowMs
    ensures Monotone(Worst(cfg, ip))
  {
    WrongKeysAre(ip, 1, 1);
    WrongKeysAre(ip, cfg.windowMs, cfg.maxFailures - 2);
    WrongKeysAre(ip, cfg.windowMs + 1, cfg.maxFailures);
  }

  // ---- A block holds for its full length ---------------------------------------------------

  predicate BlockStartsAt(cfg: Config, events: seq<Event>, i: nat)
    requires i < |events| && events[i].Request?
  {
    var slot := SlotAfter(cfg, events[i].ip, events[..i]);
    && OutcomeOf(cfg, events, i) == RefusedWrongKey
    && StartsBlock(cfg, AfterIsBlocked(slot, events[i].checkedAt), events[i].recordedAt)
  }

  lemma {:induction false} StaysBlocked(cfg: Config, events: seq<Event>, i: nat, j: nat)
    requires Monotone(events) && i < j < |events| && events[i].Request? && BlockStartsAt(cfg, events, i)
    requires First(events[j]) < events[i].recordedAt + cfg.blockMs
    ensures var slot := SlotAfter(cfg, events[i].ip, events[..j]);
            slot.Full? && slot.bucket.blockedUntil == At(events[i].recordedAt + cfg.blockMs)
  {
    assert events[..j][..j - 1] == events[..j - 1];
    if i < j - 1 {
      StaysBlocked(cfg, events, i, j - 1);
    }
  }

  /** Once a block starts, every request of that address that is not exempt is refused unread, right
      key or not, until the whole block has passed. */
  lemma BlockIsFullLength(cfg: Config, events: seq<Event>, i: nat, j: nat)
    requires Monotone(events) && i < j < |events| && events[i].Request? && BlockStartsAt(cfg, events, i)
    requires events[j].Request? && events[j].ip == events[i].ip && !events[j].exempt
    requires events[j].checkedAt < events[i].recordedAt + cfg.blockMs
    ensures OutcomeOf(cfg, events, j) == RefusedUnread
  {
    StaysBlocked(cfg, events, i, j);
  }

  // ---- Who is let through ------------------------------------------------------------------

  /** At request i a block started that is still on at that time. */
  ghost predicate IsBlockedBy(cfg: Config, events: seq<Event>, i: nat, ip: string, at: int) {
    && i < |events| && events[i].Request? && events[i].ip == ip && BlockStartsAt(cfg, events, i)
    && at < events[i].recordedAt + cfg.blockMs
  }

  lemma {:induction false} BlockComesFrom(cfg: Config, ip: string, events: seq<Event>) returns (i: nat)
    requires SlotAfter(cfg, ip, events).Full? && IsSet(SlotAfter(cfg, ip, events).bucket.blockedUntil)
    ensures i < |events| && events[i].Request? && events[i].ip == ip && BlockStartsAt(cfg, events, i)
    ensures SlotAfter(cfg, ip, events).bucket.blockedUntil == At(events[i].recordedAt + cfg.blockMs)
  {
    var n := |events| - 1;
    var e, before := events[n], SlotAfter(cfg, ip, events[..n]);
    if e.Request? && e.ip == ip && BlockStartsAt(cfg, events, n) {
      i := n;
    } else {
      i := BlockComesFrom(cfg, ip, events[..n]);
      assert events[..n][..i] == events[..i];
    }
  }

  /** Every answer of the gate, told from the run: an exempt request passes; of the others, one of an address
      on which a block is still on is refused unread, and one of any other address passes with the right key
      and is refused with a wrong one. */
  lemma {:induction false} GateAnswers(cfg: Config, events: seq<Event>, j: nat)
    requires Monotone(events) && j < |events| && events[j].Request?
    ensures var r := events[j];
            OutcomeOf(cfg, events, j) ==
            if r.exempt then Passed
            else if exists i: nat :: i < j && IsBlockedBy(cfg, events, i, r.ip, r.checkedAt) then RefusedUnread
            else if r.keyMatches then Passed
            else RefusedWrongKey
  {
    var r := events[j];
    if i: nat :| i < j && IsBlockedBy(cfg, events, i, r.ip, r.checkedAt) {
      StaysBlocked(cfg, events, i, j);
    } else if StillBlocked(SlotAfter(cfg, r.ip, events[..j]), r.checkedAt) {
      var i := BlockComesFrom(cfg, r.ip, events[..j]);
      assert events[..j][..i] == events[..i];
      assert IsBlockedBy(cfg, events, i, r.ip, r.checkedAt);
    }
  }

  /** The right key wipes the slate: afterwards the address stands as one that was never heard of. */
  lemma {:induction false} RightKeyClears(cfg: Config, events: seq<Event>, j: nat)
    requires j < |events| && events[j].Request? && !events[j].exempt && events[j].keyMatches && OutcomeOf(cfg, events, j) == Passed
    ensures SlotAfter(cfg, events[j].ip, events[..j + 1]) == SlotAfter(cfg, events[j].ip, [])
  {
    assert events[..j + 1][..j] == events[..j];
  }

  predicate IsWrongTry(e: Event, ip: string) {
    e.Request? && e.ip == ip && !e.exempt && !e.keyMatches
  }

  /** What an address is in the table for: wrong keys. */
  lemma {:induction false} OnlyWrongKeysAreKept(cfg: Config, ip: string, events: seq<Event>)
    requires SlotAfter(cfg, ip, events).Full?
    ensures var bucket := SlotAfter(cfg, ip, events).bucket;
            && bucket.lastReason == "portal_key" && bucket.failures >= 1
            && exists j: nat :: j < |events| && IsWrongTry(events[j], ip) && bucket.windowStart == events[j].recordedAt
  {
    var n := |events| - 1;
    var before := SlotAfter(cfg, ip, events[..n]);
    if before.Full? {
      OnlyWrongKeysAreKept(cfg, ip, events[..n]);
      var j: nat :| j < n && IsWrongTry(events[..n][j], ip) && before.bucket.windowStart == events[..n][j].recordedAt;
      assert IsWrongTry(events[j], ip);
    }
    assert SlotAfter(cfg, ip, events) != before ==> IsWrongTry(events[n], ip);
  }

  /** The admin list tells the truth: an address is listed as blocked exactly if the gate would refuse it
      unread at that moment, with what the table holds for it. */
  lemma SnapshotTellsTheTruth(cfg: Config, key: string, bucket: Bucket, now: int)
    requires 0 < now
    ensures var entry := EntryOf(key, bucket, now);
            && (entry.blocked <==> GateSlot(cfg, Full(bucket), Request(key, false, true, now, now)).outcome == RefusedUnread)
            && entry.key == key && entry.failures == bucket.failures && entry.windowStart == bucket.windowStart
            && entry.blockedUntil == bucket.blockedUntil && entry.lastReason == bucket.lastReason
  {
  }

  /** And it leaves out exactly the addresses that are neither blocked nor have failures counting. */
  lemma StaleMeansOver(cfg: Config, key: string, bucket: Bucket, now: int)
    requires bucket.failures >= 1
    ensures IsStale(cfg, bucket, now) <==> !EntryOf(key, bucket, now).blocked && Counting(cfg, Full(bucket), now).failures == 0
  {
  }

  /** Whoever records a failure without asking first: it counts, a deadline that is set stays as it is, and the
      last reason given is kept. */
  lemma FailureIsCounted(cfg: Config, slot: Slot, now: int, reason: string)
    ensures var bucket := AfterFailure(cfg, slot, now, reason);
            if slot.Full? && now < slot.bucket.windowStart + cfg.windowMs then
              && bucket.failures == slot.bucket.failures + 1 && bucket.windowStart == slot.bucket.windowStart
              && bucket.lastReason == (if reason != "" then reason else slot.bucket.lastReason)
              && (IsSet(slot.bucket.blockedUntil) ==> bucket.blockedUntil == slot.bucket.blockedUntil)
              && (!IsSet(slot.bucket.blockedUntil) && bucket.failures >= cfg.maxFailures ==> bucket.blockedUntil == At(now + cfg.blockMs))
              && (!IsSet(slot.bucket.blockedUntil) && bucket.failures < cfg.maxFailures ==> bucket.blockedUntil == slot.bucket.blockedUntil)
            else
              && bucket.failures == 1 && bucket.windowStart == now && bucket.lastReason == reason
              && bucket.blockedUntil == if 1 >= cfg.maxFailures then At(now + cfg.blockMs) else Deadline.None
  {
  }

  // ---- The admin view is invisible ---------------------------------------------------------

  function Outcomes(cfg: Config, events: seq<Event>): seq<Outcome> {
    if events == [] then [] else
      var n := |events| - 1;
      Outcomes(cfg, events[..n]) + if events[n].Request? then [OutcomeOf(cfg, events, n)] else []
  }

  function WithoutSnapshots(events: seq<Event>): seq<Event> {
    if events == [] then [] else
      var n := |events| - 1;
      WithoutSnapshots(events[..n]) + if events[n].Request? then [events[n]] else []
  }

  /** Two places no later request can tell apart. */
  ghost predicate Alike(cfg: Config, pruned: Slot, kept: Slot, now: int) {
    pruned == kept || (pruned == Empty && kept.Full? && IsStale(cfg, kept.bucket, now))
  }

  lemma AlikeStep(cfg: Config, pruned: Slot, kept: Slot, now: int, r: Event)
    requires Alike(cfg, pruned, kept, now) && r.Request? && now <= r.checkedAt <= r.recordedAt
    ensures GateSlot(cfg, pruned, r).outcome == GateSlot(cfg, kept, r).outcome
    ensures Alike(cfg, GateSlot(cfg, pruned, r).slot, GateSlot(cfg, kept, r).slot, r.recordedAt)
  {
  }

  lemma {:induction false} SlotsStayAlike(cfg: Config, ip: string, events: seq<Event>, now: int)
    requires Monotone(events) && (events != [] ==> Last(events[|events| - 1]) <= now)
    ensures Alike(cfg, SlotAfter(cfg, ip, events), SlotAfter(cfg, ip, WithoutSnapshots(events)), now)
  {
    if events != [] {
      var n := |events| - 1;
      var earlier, e := events[..n], events[n];
      SlotsStayAlike(cfg, ip, earlier, First(e));
      var kept := WithoutSnapshots(earlier);
      if e.Request? {
        assert (kept + [e])[..|kept|] == kept;
        AlikeStep(cfg, SlotAfter(cfg, ip, earlier), SlotAfter(cfg, ip, kept), First(e), e);
      } else {
        assert kept + [] == kept;
      }
    }
  }

  /** The pruning done for the admin view changes no answer of the gate, in any run. */
  lemma {:induction false} SnapshotIsInvisible(cfg: Config, events: seq<Event>)
    requires Monotone(events)
    ensures Outcomes(cfg, events) == Outcomes(cfg, WithoutSnapshots(events))
  {
    if events != [] {
      var n := |events| - 1;
      var earlier, e := events[..n], events[n];
      var kept := WithoutSnapshots(earlier);
      SnapshotIsInvisible(cfg, earlier);
      if e.Request? {
        assert (kept + [e])[..|kept|] == kept;
        SlotsStayAlike(cfg, e.ip, earlier, First(e));
        AlikeStep(cfg, SlotAfter(cfg, e.ip, earlier), SlotAfter(cfg, e.ip, kept), First(e), e);
      } else {
        assert kept + [] == kept;
      }
    }
  }
}

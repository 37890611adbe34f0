/** The brute-force guard of src/security/abuseGuard.ts. */
module AbuseGuards {

  datatype Config = Config(maxFailures: int, windowMs: int, blockMs: int)

  datatype Deadline = None | At(ms: int)

  datatype Bucket = Bucket(failures: int, windowStart: int, blockedUntil: Deadline, lastReason: string)

  type Buckets = map<string, Bucket>

  /** A key's place in the table. */
  datatype Slot = Empty | Full(bucket: Bucket)

  function Lookup(buckets: Buckets, key: string): Slot {
    if key in buckets then Full(buckets[key]) else Empty
  }

  /** The code tests blockedUntil for truth, so a deadline of zero counts as none. */
  predicate IsSet(d: Deadline) {
    d.At? && d.ms != 0
  }

  predicate StillBlocked(slot: Slot, now: int) {
    slot.Full? && IsSet(slot.bucket.blockedUntil) && now < slot.bucket.blockedUntil.ms
  }

  function AfterIsBlocked(slot: Slot, now: int): Slot {
    if slot.Full? && IsSet(slot.bucket.blockedUntil) && slot.bucket.blockedUntil.ms <= now then Empty else slot
  }

  function Counting(cfg: Config, slot: Slot, now: int): Bucket {
    if slot.Empty? || now - slot.bucket.windowStart >= cfg.windowMs then Bucket(0, now, None, "") else slot.bucket
  }

  predicate StartsBlock(cfg: Config, slot: Slot, now: int) {
    var bucket := Counting(cfg, slot, now);
    bucket.failures + 1 >= cfg.maxFailures && !IsSet(bucket.blockedUntil)
  }

  function AfterFailure(cfg: Config, slot: Slot, now: int, reason: string): Bucket {
    var bucket := Counting(cfg, slot, now);
    Bucket(bucket.failures + 1, bucket.windowStart,
           if StartsBlock(cfg, slot, now) then At(now + cfg.blockMs) else bucket.blockedUntil,
           if reason == "" then bucket.lastReason else reason)
  }

  predicate IsStale(cfg: Config, bucket: Bucket, now: int) {
    !(bucket.blockedUntil.At? && now < bucket.blockedUntil.ms) && now - bucket.windowStart >= cfg.windowMs
  }

  function Prune(cfg: Config, buckets: Buckets, now: int): Buckets {
    map key | key in buckets && !IsStale(cfg, buckets[key], now) :: buckets[key]
  }

  datatype Entry = Entry(key: string, failures: int, blocked: bool, blockedUntil: Deadline, windowStart: int, lastReason: string)

  function EntryOf(key: string, bucket: Bucket, now: int): Entry {
    Entry(key, bucket.failures, bucket.blockedUntil.At? && now < bucket.blockedUntil.ms,
          bucket.blockedUntil, bucket.windowStart, bucket.lastReason)
  }

  predicate MostFirst(entries: seq<Entry>) {
    forall i, j :: 0 <= i < j < |entries| ==> entries[i].failures >= entries[j].failures
  }

  function Insert(entries: seq<Entry>, entry: Entry): seq<Entry> {
    if |entries| == 0 || entries[|entries| - 1].failures >= entry.failures then entries + [entry]
    else Insert(entries[..|entries| - 1], entry) + [entries[|entries| - 1]]
  }

  // entries.sort: the most failures first, equal ones as they stand.
  function Ranked(entries: seq<Entry>): seq<Entry> {
    if |entries| == 0 then [] else Insert(Ranked(entries[..|entries| - 1]), entries[|entries| - 1])
  }

  lemma {:induction false} InsertRanks(entries: seq<Entry>, entry: Entry)
    requires MostFirst(entries)
    ensures MostFirst(Insert(entries, entry))
    ensures multiset(Insert(entries, entry)) == multiset(entries) + multiset{entry}
  {
    if |entries| > 0 {
      var init, last := entries[..|entries| - 1], entries[|entries| - 1];
      assert entries == init + [last];
      if last.failures < entry.failures {
        InsertRanks(init, entry);
        forall i | 0 <= i < |Insert(init, entry)| ensures Insert(init, entry)[i].failures >= last.failures {
          assert Insert(init, entry)[i] in multiset(Insert(init, entry));
          assert Insert(init, entry)[i] in multiset(init) + multiset{entry};
        }
      }
    }
  }

  lemma {:induction false} RankedIs(entries: seq<Entry>)
    ensures MostFirst(Ranked(entries)) && multiset(Ranked(entries)) == multiset(entries)
  {
    if |entries| > 0 {
      var init, last := entries[..|entries| - 1], entries[|entries| - 1];
      assert entries == init + [last];
      RankedIs(init);
      InsertRanks(Ranked(init), last);
    }
  }

  // The entries of the buckets that are not still to do.
  ghost function Listed(buckets: Buckets, todo: set<string>, now: int): set<Entry> {
    set key | key in buckets && key !in todo :: EntryOf(key, buckets[key], now)
  }

  lemma ListedMore(buckets: Buckets, todo: set<string>, key: string, now: int)
    requires key in buckets && key in todo
    ensures Listed(buckets, todo - {key}, now) == Listed(buckets, todo, now) + {EntryOf(key, buckets[key], now)}
    ensures EntryOf(key, buckets[key], now) !in Listed(buckets, todo, now)
  {
    forall e | e in Listed(buckets, todo, now) ensures e.key != key && e in Listed(buckets, todo - {key}, now) {}
  }

  lemma ListedLess(buckets: Buckets, todo: set<string>, key: string, now: int)
    requires key in buckets && key in todo
    ensures Listed(buckets - {key}, todo - {key}, now) == Listed(buckets, todo, now)
  {
    forall e | e in Listed(buckets, todo, now) ensures e in Listed(buckets - {key}, todo - {key}, now) {
      assert e.key in buckets - {key};
    }
  }

  // Pruned, but for the keys still to do.
  ghost function PrunedBesides(cfg: Config, before: Buckets, todo: set<string>, now: int): Buckets {
    map key | key in before && (key in todo || !IsStale(cfg, before[key], now)) :: before[key]
  }

  lemma PruneOne(cfg: Config, before: Buckets, todo: set<string>, key: string, now: int)
    requires key in before && key in todo
    ensures PrunedBesides(cfg, before, todo - {key}, now) ==
      if IsStale(cfg, before[key], now) then PrunedBesides(cfg, before, todo, now) - {key} else PrunedBesides(cfg, before, todo, now)
  {
  }

  class AbuseGuard {
    const config: Config
    var buckets: Buckets

    constructor (config: Config)
      ensures this.config == config && buckets == map[]
    {
      this.config := config;
      buckets := map[];
    }

    method IsBlocked(key: string, now: int) returns (blocked: bool)
      modifies this`buckets
      ensures blocked == StillBlocked(Lookup(old(buckets), key), now)
      ensures Lookup(buckets, key) == AfterIsBlocked(Lookup(old(buckets), key), now)
      ensures buckets - {key} == old(buckets) - {key}
    {
      if key !in buckets || !IsSet(buckets[key].blockedUntil) {
        return false;
      }
      if now >= buckets[key].blockedUntil.ms {
        buckets := buckets - {key};
        return false;
      }
      return true;
    }

    method RecordFailure(key: string, reason: string, now: int) returns (justBlocked: bool)
      modifies this`buckets
      ensures justBlocked == StartsBlock(config, Lookup(old(buckets), key), now)
      ensures buckets == old(buckets)[key := AfterFailure(config, Lookup(old(buckets), key), now, reason)]
    {
      var bucket := if key in buckets then buckets[key] else Bucket(0, now, None, "");
      if now - bucket.windowStart >= config.windowMs {
        bucket := Bucket(0, now, None, "");
      }
      bucket := bucket.(failures := bucket.failures + 1);
      if reason != "" {
        bucket := bucket.(lastReason := reason);
      }
      justBlocked := bucket.failures >= config.maxFailures && !IsSet(bucket.blockedUntil);
      if justBlocked {
        bucket := bucket.(blockedUntil := At(now + config.blockMs));
      }
      buckets := buckets[key := bucket];
    }

    method RecordSuccess(key: string)
      modifies this`buckets
      ensures buckets == old(buckets) - {key}
    {
      buckets := buckets - {key};
    }

    method GetFailureCount(key: string, now: int) returns (count: int)
      ensures count == Counting(config, Lookup(buckets, key), now).failures
    {
      if key !in buckets || now - buckets[key].windowStart >= config.windowMs {
        return 0;
      }
      return buckets[key].failures;
    }

    /** Deletes while it iterates; the entries are those of the buckets that stay, the most failures first. */
    method Snapshot(now: int) returns (entries: seq<Entry>)
      modifies this`buckets
      ensures buckets == Prune(config, old(buckets), now)
      ensures multiset(entries) == multiset(Listed(buckets, {}, now)) && MostFirst(entries)
    {
      entries := [];
      ghost var found: set<Entry> := {};
      var todo := buckets.Keys;
      while todo != {}
        invariant todo <= buckets.Keys && buckets == PrunedBesides(config, old(buckets), todo, now)
        invariant found == Listed(buckets, todo, now) && multiset(entries) == multiset(found)
        decreases todo
      {
        var key :| key in todo;
        var bucket := buckets[key];
        var blocked := bucket.blockedUntil.At? && bucket.blockedUntil.ms > now;
        var windowActive := now - bucket.windowStart < config.windowMs;
        PruneOne(config, old(buckets), todo, key, now);
        if !blocked && !windowActive {
          ListedLess(buckets, todo, key, now);
          buckets := buckets - {key};
        } else {
          var entry := Entry(key, bucket.failures, blocked, bucket.blockedUntil, bucket.windowStart, bucket.lastReason);
          entries := entries + [entry];
          ListedMore(buckets, todo, key, now);
          found := found + {entry};
        }
        todo := todo - {key};
      }
      RankedIs(entries);
      entries := Ranked(entries);
    }
  }
}

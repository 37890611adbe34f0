/** The signed-request gate shared by the REST router, the tunnel router and the WebSocket handshake. */
module SignedRequests {
  import opened ReplayGuards

  // The clock-skew window first (src/security/requestSignature.ts), then the nonce
  // (src/api/middleware.ts, src/realtime/index.ts). Whether a signature verifies is a field of the
  // request; what is proved does not depend on the cryptography.

  const SIGNATURE_MAX_CLOCK_SKEW_MS := 5 * 60_000
  const SIGNATURE_REPLAY_GUARD_TTL_MS := 10 * 60_000

  datatype Timestamp = NotFinite | Millis(ms: real)

  /** One request with the three clock readings taken for it: in the skew check, in the eviction
      and when the nonce is remembered. */
  datatype Request = Request(
    deviceId: string, nonce: string, timestamp: Timestamp, signatureValid: bool,
    verifiedAt: int, evictAt: int, rememberAt: int)

  datatype Outcome = Admitted | SignatureInvalid | ReplayDetected

  datatype Gated = Gated(outcome: Outcome, seen: Seen)

  function Key(r: Request): string {
    "sig:" + r.deviceId + ":" + r.nonce
  }

  predicate InSkew(skewMs: int, timestamp: Timestamp, now: int) {
    timestamp.Millis? && -(skewMs as real) <= now as real - timestamp.ms <= skewMs as real
  }

  predicate Verified(skewMs: int, r: Request) {
    InSkew(skewMs, r.timestamp, r.verifiedAt) && r.signatureValid
  }

  function Gate(seen: Seen, ttlMs: int, skewMs: int, r: Request): Gated {
    if !Verified(skewMs, r) then Gated(SignatureInvalid, seen) else
      var checked := Check(seen, ttlMs, Key(r), r.evictAt, r.rememberAt);
      Gated(if checked.isNew then Admitted else ReplayDetected, checked.seen)
  }

  /** createSignatureMiddleware and RealtimeGateway.handleAuth: the nonce is consumed only after the
      signature has been verified. */
  method Admit(guard: ReplayGuard, skewMs: int, r: Request) returns (outcome: Outcome)
    modifies guard`seen
    ensures Gated(outcome, guard.seen) == Gate(old(guard.seen), guard.ttlMs, skewMs, r)
  {
    if !Verified(skewMs, r) {
      return SignatureInvalid;
    }
    var isNew := guard.CheckAndRemember(Key(r), r.evictAt, r.rememberAt);
    if !isNew {
      return ReplayDetected;
    }
    return Admitted;
  }

  // ---- Whole runs --------------------------------------------------------------------------

  function SeenBy(ttlMs: int, skewMs: int, rs: seq<Request>): Seen {
    if rs == [] then map[] else
      Gate(SeenBy(ttlMs, skewMs, rs[..|rs| - 1]), ttlMs, skewMs, rs[|rs| - 1]).seen
  }

  predicate IsAdmitted(ttlMs: int, skewMs: int, rs: seq<Request>, i: nat)
    requires i < |rs|
  {
    Gate(SeenBy(ttlMs, skewMs, rs[..i]), ttlMs, skewMs, rs[i]).outcome == Admitted
  }

  ghost predicate ClockNeverGoesBack(rs: seq<Request>) {
    && (forall i :: 0 <= i < |rs| ==> rs[i].verifiedAt <= rs[i].evictAt <= rs[i].rememberAt)
    && (forall i, j :: 0 <= i < j < |rs| ==> rs[i].rememberAt <= rs[j].verifiedAt)
  }

  /** At most delayMs pass between a request's skew check and its nonce check. */
  ghost predicate NoSlowerThan(delayMs: int, rs: seq<Request>) {
    forall i :: 0 <= i < |rs| ==> rs[i].evictAt <= rs[i].verifiedAt + delayMs
  }

  predicate SameMessage(a: Request, b: Request) {
    a.deviceId == b.deviceId && a.nonce == b.nonce && a.timestamp == b.timestamp
  }

  /** The guard calls a run makes, in order: one for each request whose signature verifies. */
  ghost function CallsOf(skewMs: int, rs: seq<Request>): seq<Call> {
    if rs == [] then [] else
      var last := rs[|rs| - 1];
      CallsOf(skewMs, rs[..|rs| - 1]) + if Verified(skewMs, last) then [Call(Key(last), last.evictAt, last.rememberAt)] else []
  }

  lemma {:induction false} CallsTrackTheRun(ttlMs: int, skewMs: int, rs: seq<Request>)
    ensures SeenBy(ttlMs, skewMs, rs) == SeenAfter(ttlMs, CallsOf(skewMs, rs))
  {
    if rs != [] {
      var before := rs[..|rs| - 1];
      CallsTrackTheRun(ttlMs, skewMs, before);
      var calls := CallsOf(skewMs, rs);
      if Verified(skewMs, rs[|rs| - 1]) {
        assert calls[..|calls| - 1] == CallsOf(skewMs, before);
      } else {
        assert calls == CallsOf(skewMs, before);
      }
    }
  }

  lemma {:induction false} CallsGrow(skewMs: int, rs: seq<Request>, i: nat)
    requires i <= |rs|
    ensures CallsOf(skewMs, rs[..i]) <= CallsOf(skewMs, rs)
  {
    if i < |rs| {
      CallsGrow(skewMs, rs[..|rs| - 1], i);
      assert rs[..|rs| - 1][..i] == rs[..i];
    } else {
      assert rs[..i] == rs;
    }
  }

  lemma {:induction false} CallsInTime(skewMs: int, rs: seq<Request>)
    requires ClockNeverGoesBack(rs)
    ensures Monotone(CallsOf(skewMs, rs))
    ensures forall a, i :: 0 <= a < |CallsOf(skewMs, rs)| && |rs| - 1 <= i < |rs| ==> CallsOf(skewMs, rs)[a].rememberAt <= rs[i].rememberAt
  {
    if rs != [] {
      CallsInTime(skewMs, rs[..|rs| - 1]);
    }
  }

  lemma {:induction false} CallComesFrom(skewMs: int, rs: seq<Request>, a: nat) returns (i: nat)
    requires a < |CallsOf(skewMs, rs)|
    ensures i < |rs| && Verified(skewMs, rs[i]) && a == |CallsOf(skewMs, rs[..i])|
    ensures CallsOf(skewMs, rs)[a] == Call(Key(rs[i]), rs[i].evictAt, rs[i].rememberAt)
  {
    var n := |rs| - 1;
    if a < |CallsOf(skewMs, rs[..n])| {
      i := CallComesFrom(skewMs, rs[..n], a);
      assert rs[..n][..i] == rs[..i];
    } else {
      i := n;
    }
  }

  lemma AdmittedIsNew(ttlMs: int, skewMs: int, rs: seq<Request>, i: nat)
    requires i < |rs| && Verified(skewMs, rs[i])
    ensures |CallsOf(skewMs, rs[..i])| < |CallsOf(skewMs, rs)|
    ensures CallsOf(skewMs, rs)[|CallsOf(skewMs, rs[..i])|] == Call(Key(rs[i]), rs[i].evictAt, rs[i].rememberAt)
    ensures IsAdmitted(ttlMs, skewMs, rs, i) == IsNewAt(ttlMs, CallsOf(skewMs, rs), |CallsOf(skewMs, rs[..i])|)
  {
    CallsTrackTheRun(ttlMs, skewMs, rs[..i]);
    CallsGrow(skewMs, rs, i + 1);
    assert rs[..i + 1][..i] == rs[..i];
    var a := |CallsOf(skewMs, rs[..i])|;
    assert CallsOf(skewMs, rs)[..a] == CallsOf(skewMs, rs[..i]);
  }

  /** The simple form: an admitted request bars its (device, nonce) pair for ttlMs from the moment it
      was remembered. */
  ghost predicate BarredBy(ttlMs: int, skewMs: int, rs: seq<Request>, i: nat, j: nat)
    requires i < |rs| && j < |rs|
  {
    && rs[j].deviceId + ":" + rs[j].nonce == rs[i].deviceId + ":" + rs[i].nonce
    && IsAdmitted(ttlMs, skewMs, rs, j) && rs[i].evictAt <= rs[j].rememberAt + ttlMs
  }

  lemma KeysAgree(a: Request, b: Request)
    ensures Key(a) == Key(b) <==> a.deviceId + ":" + a.nonce == b.deviceId + ":" + b.nonce
  {
    assert Key(a) == "sig:" + (a.deviceId + ":" + a.nonce) && Key(b) == "sig:" + (b.deviceId + ":" + b.nonce);
    assert Key(a)[4..] == a.deviceId + ":" + a.nonce && Key(b)[4..] == b.deviceId + ":" + b.nonce;
  }

  lemma BarredIsRefused(ttlMs: int, skewMs: int, rs: seq<Request>, i: nat, j: nat)
    requires ClockNeverGoesBack(rs) && j < i < |rs| && BarredBy(ttlMs, skewMs, rs, i, j)
    ensures !IsAdmitted(ttlMs, skewMs, rs, i)
  {
    if Verified(skewMs, rs[i]) {
      var calls := CallsOf(skewMs, rs);
      var a, b := |CallsOf(skewMs, rs[..i])|, |CallsOf(skewMs, rs[..j])|;
      AdmittedIsNew(ttlMs, skewMs, rs, i);
      AdmittedIsNew(ttlMs, skewMs, rs, j);
      assert b < a by {
        AdmittedIsNew(ttlMs, skewMs, rs[..i], j);
        assert rs[..i][..j] == rs[..j];
      }
      CallsInTime(skewMs, rs);
      GuardIsScanOfHistory(ttlMs, calls, a);
      KeysAgree(rs[i], rs[j]);
      assert Bars(ttlMs, calls, b, calls[a].key, calls[a].evictAt);
    }
  }

  lemma RefusedIsBarred(ttlMs: int, skewMs: int, rs: seq<Request>, i: nat) returns (j: nat)
    requires ClockNeverGoesBack(rs) && i < |rs| && Verified(skewMs, rs[i]) && !IsAdmitted(ttlMs, skewMs, rs, i)
    ensures j < i && BarredBy(ttlMs, skewMs, rs, i, j)
  {
    var calls := CallsOf(skewMs, rs);
    var a := |CallsOf(skewMs, rs[..i])|;
    AdmittedIsNew(ttlMs, skewMs, rs, i);
    CallsInTime(skewMs, rs);
    GuardIsScanOfHistory(ttlMs, calls, a);
    forall k: nat | i <= k <= |rs| ensures a <= |CallsOf(skewMs, rs[..k])| {
      CallsGrow(skewMs, rs[..k], i);
      assert rs[..k][..i] == rs[..i];
    }
    var b: nat :| b < a && Bars(ttlMs, calls, b, calls[a].key, calls[a].evictAt);
    j := CallComesFrom(skewMs, rs, b);
    AdmittedIsNew(ttlMs, skewMs, rs, j);
    KeysAgree(rs[i], rs[j]);
  }

  /** The signature is good, and its timestamp a number no further than the skew from the clock. */
  ghost predicate IsSound(skewMs: int, r: Request) {
    && r.signatureValid && r.timestamp.Millis?
    && r.verifiedAt as real - skewMs as real <= r.timestamp.ms <= r.verifiedAt as real + skewMs as real
  }

  /** In every run the gate admits exactly the sound requests that no earlier admission bars, so a sound
      request with an unused nonce is always admitted; it answers the barred ones with a replay, and all
      that are not sound with an invalid signature. */
  lemma {:induction false} GateIsScanOfHistory(ttlMs: int, skewMs: int, rs: seq<Request>, i: nat)
    requires ClockNeverGoesBack(rs) && i < |rs|
    ensures IsAdmitted(ttlMs, skewMs, rs, i) <==>
            Verified(skewMs, rs[i]) && !exists j: nat :: j < i && BarredBy(ttlMs, skewMs, rs, i, j)
    ensures Gate(SeenBy(ttlMs, skewMs, rs[..i]), ttlMs, skewMs, rs[i]).outcome ==
            if !IsSound(skewMs, rs[i]) then SignatureInvalid
            else if exists j: nat :: j < i && BarredBy(ttlMs, skewMs, rs, i, j) then ReplayDetected
            else Admitted
  {
    if j: nat :| j < i && BarredBy(ttlMs, skewMs, rs, i, j) {
      BarredIsRefused(ttlMs, skewMs, rs, i, j);
    }
    if Verified(skewMs, rs[i]) && !IsAdmitted(ttlMs, skewMs, rs, i) {
      var j := RefusedIsBarred(ttlMs, skewMs, rs, i);
    }
  }

  ghost predicate NeverAdmittedTwice(ttlMs: int, skewMs: int, rs: seq<Request>) {
    forall i: nat, j: nat :: i < j < |rs| && SameMessage(rs[i], rs[j]) ==>
      !(IsAdmitted(ttlMs, skewMs, rs, i) && IsAdmitted(ttlMs, skewMs, rs, j))
  }

  lemma SafeLifetime(ttlMs: int, skewMs: int, delayMs: int, rs: seq<Request>)
    requires 2 * skewMs + delayMs <= ttlMs
    requires ClockNeverGoesBack(rs) && NoSlowerThan(delayMs, rs)
    ensures NeverAdmittedTwice(ttlMs, skewMs, rs)
  {
    forall i: nat, j: nat | i < j < |rs| && SameMessage(rs[i], rs[j])
      ensures !(IsAdmitted(ttlMs, skewMs, rs, i) && IsAdmitted(ttlMs, skewMs, rs, j))
    {
      if IsAdmitted(ttlMs, skewMs, rs, i) && Verified(skewMs, rs[j]) {
        BarredIsRefused(ttlMs, skewMs, rs, j, i);
      }
    }
  }

  /** A captured request replayed at the very end of its window, after the nonce has expired. */
  function ReplayedPair(skewMs: nat, delayMs: nat): seq<Request> {
    var ts := Millis(skewMs as real);
    [Request("d", "n", ts, true, 0, 0, 0),
     Request("d", "n", ts, true, 2 * skewMs, 2 * skewMs + delayMs, 2 * skewMs + delayMs)]
  }

  lemma ShortLifetimeFails(ttlMs: int, skewMs: nat, delayMs: nat)
    requires ttlMs < 2 * skewMs + delayMs
    ensures ClockNeverGoesBack(ReplayedPair(skewMs, delayMs)) && NoSlowerThan(delayMs, ReplayedPair(skewMs, delayMs))
    ensures !NeverAdmittedTwice(ttlMs, skewMs, ReplayedPair(skewMs, delayMs))
  {
    var rs := ReplayedPair(skewMs, delayMs);
    assert IsAdmitted(ttlMs, skewMs, rs, 0);
    var key := Key(rs[0]);
    assert rs[..1] == [rs[0]];
    assert rs[..1][..0] == [];
    assert SeenBy(ttlMs, skewMs, []) == map[];
    assert SeenBy(ttlMs, skewMs, rs[..1]) == map[key := ttlMs];
    assert IsAdmitted(ttlMs, skewMs, rs, 1);
    assert SameMessage(rs[0], rs[1]);
  }

  /** The exact condition: with at most delayMs between skew check and nonce check, no signed message
      is ever admitted twice in any run if and only if the nonce outlives both halves of the skew
      window plus that delay. */
  lemma {:induction false} AdmittedAtMostOnceIff(ttlMs: int, skewMs: nat, delayMs: nat)
    ensures 2 * skewMs + delayMs <= ttlMs <==>
            forall rs :: ClockNeverGoesBack(rs) && NoSlowerThan(delayMs, rs) ==> NeverAdmittedTwice(ttlMs, skewMs, rs)
  {
    if 2 * skewMs + delayMs <= ttlMs {
      forall rs | ClockNeverGoesBack(rs) && NoSlowerThan(delayMs, rs) ensures NeverAdmittedTwice(ttlMs, skewMs, rs) {
        SafeLifetime(ttlMs, skewMs, delayMs, rs);
      }
    } else {
      ShortLifetimeFails(ttlMs, skewMs, delayMs);
    }
  }

  /** The shipped constants leave no slack at all: they are safe when both checks of a request read
      the same millisecond, and for no larger delay. */
  lemma {:induction false} ShippedLifetimeIsExact(delayMs: nat)
    ensures (forall rs :: ClockNeverGoesBack(rs) && NoSlowerThan(delayMs, rs) ==>
               NeverAdmittedTwice(SIGNATURE_REPLAY_GUARD_TTL_MS, SIGNATURE_MAX_CLOCK_SKEW_MS, rs))
            <==> delayMs == 0
    ensures SIGNATURE_REPLAY_GUARD_TTL_MS == 600_000 && SIGNATURE_MAX_CLOCK_SKEW_MS == 300_000
  {
    AdmittedAtMostOnceIff(SIGNATURE_REPLAY_GUARD_TTL_MS, SIGNATURE_MAX_CLOCK_SKEW_MS, delayMs);
  }

  /** A request whose signature does not verify burns no nonce: put anywhere into a run, it changes
      no later answer. */
  lemma {:induction false} ForgeryIsInvisible(ttlMs: int, skewMs: int, rs: seq<Request>, at: nat, forged: Request, i: nat)
    requires at <= i < |rs| && !Verified(skewMs, forged)
    ensures IsAdmitted(ttlMs, skewMs, rs[..at] + [forged] + rs[at..], i + 1) == IsAdmitted(ttlMs, skewMs, rs, i)
  {
    var longer := rs[..at] + [forged] + rs[at..];
    ForgeryLeavesTable(ttlMs, skewMs, rs[..i], at, forged);
    assert longer[..i + 1] == rs[..i][..at] + [forged] + rs[..i][at..];
  }

  lemma {:induction false} ForgeryLeavesTable(ttlMs: int, skewMs: int, rs: seq<Request>, at: nat, forged: Request)
    requires at <= |rs| && !Verified(skewMs, forged)
    ensures SeenBy(ttlMs, skewMs, rs[..at] + [forged] + rs[at..]) == SeenBy(ttlMs, skewMs, rs)
  {
    var longer := rs[..at] + [forged] + rs[at..];
    var n := |rs|;
    if at == n {
      assert longer[..n] == rs;
    } else {
      ForgeryLeavesTable(ttlMs, skewMs, rs[..n - 1], at, forged);
      assert longer[..n] == rs[..n - 1][..at] + [forged] + rs[..n - 1][at..];
    }
  }
}

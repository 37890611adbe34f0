/** The actuator-command service (src/commands/index.ts). */
module Commands {
  // Each method below is one stretch of code that runs without interruption: from entry, or from an
  // await that has just resolved, to the next await. What happens between the stretches is the subject
  // of CommandRuns.

  import opened Common
  import RL = RateLimiters
  import RG = ReplayGuards

  const CONFIRMATION_TIMEOUT_MS := 25_000
  const GRACE_RECHECK_DELAY_MS := 20_000

  /** A state value. NonScalar stands for objects, arrays, null, undefined and functions. */
  datatype Value = Bool(b: bool) | Num(n: real) | Str(s: string) | NonScalar

  datatype ValueType = BooleanType | NumberType | StringType | OtherType

  datatype ConfirmPolicy = NoConfirmation | Dialog | Biometric | Reauthenticate | LocalNetworkOnly | BlockedOnMobile

  datatype Permission = Permission(
    min: Option<real>, max: Option<real>, step: Option<real>, allowedValues: Option<seq<Value>>,
    localOnly: bool, policy: ConfirmPolicy)

  datatype Status = Accepted | Executed | Rejected | Confirmed | TimedOut

  datatype Record = Record(id: string, objectId: string, stateId: string, deviceId: string, value: Value, status: Status)

  datatype Request = Request(
    commandId: string, objectId: string, value: Value, nonce: string, confirmed: bool, deviceId: string, isLocal: bool)

  /** What catalog.resolveAuthorized answers. */
  datatype Resolved = NoAccess | Access(stateId: string, permission: Permission)

  datatype Refusal = RateLimited | ReplayDetected | NotAuthorized | WriteForbidden | LocalOnly | ConfirmationRequired

  datatype Answer = Existing(record: Record) | Refused(code: Refusal) | Continue(stateId: string, permission: Permission)

  datatype Pending = Pending(commandId: string, timer: nat)

  /** A live confirmation timer: the state its callback will look up, the command it was set for and
      the earliest moment it can fire. */
  datatype Timer = Timer(stateId: string, commandId: string, due: int)

  datatype Service = Service(
    store: map<string, Record>, limiter: RL.Buckets, seen: RG.Seen,
    pending: map<string, Pending>, subscribed: set<string>, timers: map<nat, Timer>, nextTimer: nat)

  // ---- Values ------------------------------------------------------------------------------

  const TOLERANCE := 0.000001

  function Round(x: real): int {
    (x + 0.5).Floor
  }

  function Abs(x: real): real {
    if x < 0.0 then -x else x
  }

  predicate HasType(value: Value, expected: ValueType) {
    match expected
    case BooleanType => value.Bool?
    case NumberType => value.Num?
    case StringType => value.Str?
    case OtherType => true
  }

  predicate InRange(n: real, permission: Permission) {
    && (permission.min.Some? ==> permission.min.value <= n)
    && (permission.max.Some? ==> n <= permission.max.value)
  }

  predicate MatchesStep(n: real, permission: Permission) {
    permission.step.Some? && permission.step.value > 0.0 && permission.min.Some? ==>
      var steps := (n - permission.min.value) / permission.step.value;
      Abs(steps - Round(steps) as real) <= TOLERANCE
  }

  predicate IsValid(value: Value, expected: ValueType, permission: Permission) {
    && value != NonScalar
    && HasType(value, expected)
    && (value.Num? ==> InRange(value.n, permission) && MatchesStep(value.n, permission))
    && (permission.allowedValues.Some? ==> value in permission.allowedValues.value)
  }

  /** The rounding test means what it is for: the value lies within the tolerance of some whole
      number of steps above the minimum. */
  lemma StepMeansOnGrid(n: real, permission: Permission)
    requires permission.min.Some? && permission.step.Some? && permission.step.value > 0.0
    ensures MatchesStep(n, permission) <==>
            exists k: int :: OnGrid(n, permission.min.value, permission.step.value, k)
  {
    var low, step := permission.min.value, permission.step.value;
    var steps := (n - low) / step;
    if MatchesStep(n, permission) {
      GridDistance(n, low, step, Round(steps));
      assert OnGrid(n, low, step, Round(steps));
    }
    if k: int :| OnGrid(n, low, step, k) {
      GridDistance(n, low, step, k);
      assert Round(steps) == k;
    }
  }

  /** Within a millionth of a step of the k-th step above the minimum. */
  ghost predicate OnGrid(n: real, low: real, step: real, k: int) {
    -(0.000001 * step) <= n - low - k as real * step <= 0.000001 * step
  }

  /** What the value check comes to: a scalar of the state's type; if a number, no less than the minimum,
      no more than the maximum and on a step; and one of the allowed values if there is a list of them. */
  lemma ValueCheckMeans(value: Value, expected: ValueType, permission: Permission)
    ensures IsValid(value, expected, permission) <==>
              && (value.Bool? || value.Num? || value.Str?)
              && (expected == BooleanType ==> value.Bool?)
              && (expected == NumberType ==> value.Num?)
              && (expected == StringType ==> value.Str?)
              && (value.Num? && permission.min.Some? ==> permission.min.value <= value.n)
              && (value.Num? && permission.max.Some? ==> value.n <= permission.max.value)
              && (value.Num? && permission.min.Some? && permission.step.Some? && permission.step.value > 0.0 ==>
                    exists k: int :: OnGrid(value.n, permission.min.value, permission.step.value, k))
              && (permission.allowedValues.Some? ==> value in permission.allowedValues.value)
  {
    if value.Num? && permission.min.Some? && permission.step.Some? && permission.step.value > 0.0 {
      StepMeansOnGrid(value.n, permission);
    }
  }

  lemma GridDistance(n: real, low: real, step: real, k: int)
    requires step > 0.0
    ensures OnGrid(n, low, step, k) <==> Abs((n - low) / step - k as real) <= TOLERANCE
  {
    var d := (n - low) / step - k as real;
    assert d * step == (n - low) / step * step - k as real * step;
    assert (n - low) / step * step == n - low;
    ScaleAbs(d, TOLERANCE, n - low - k as real * step, step);
  }

  lemma ScaleAbs(d: real, bound: real, off: real, step: real)
    requires step > 0.0 && d * step == off
    ensures Abs(off) <= bound * step <==> Abs(d) <= bound
  {
    assert (-d) * step == -off;
  }

  // ---- The stretches, as functions ---------------------------------------------------------

  predicate NeedsExplicitConfirmation(policy: ConfirmPolicy) {
    policy == Dialog || policy == Biometric || policy == Reauthenticate
  }

  function NonceKey(r: Request): string {
    r.deviceId + ":" + r.nonce
  }

  datatype Begun = Begun(service: Service, answer: Answer)

  function Begin(s: Service, limit: int, ttlMs: int, r: Request, resolved: Resolved, now: int): Begun {
    if r.commandId in s.store then Begun(s, Existing(s.store[r.commandId])) else
      var consumed := RL.Consume(s.limiter, limit, r.deviceId, now);
      var s1 := s.(limiter := consumed.buckets);
      if !consumed.accepted then Begun(s1, Refused(RateLimited)) else
        var checked := RG.Check(s.seen, ttlMs, NonceKey(r), now, now);
        var s2 := s1.(seen := checked.seen);
        Begun(s2, if !checked.isNew then Refused(ReplayDetected) else Judge(r, resolved))
  }

  function Judge(r: Request, resolved: Resolved): Answer {
    match resolved
    case NoAccess => Refused(NotAuthorized)
    case Access(stateId, permission) =>
      if permission.policy == BlockedOnMobile then Refused(WriteForbidden)
      else if permission.localOnly && !r.isLocal then Refused(LocalOnly)
      else if NeedsExplicitConfirmation(permission.policy) && !r.confirmed then Refused(ConfirmationRequired)
      else Continue(stateId, permission)
  }

  function RecordOf(r: Request, stateId: string, status: Status): Record {
    Record(r.commandId, r.objectId, stateId, r.deviceId, r.value, status)
  }

  function Put(s: Service, record: Record): Service {
    s.(store := s.store[record.id := record])
  }

  function Register(s: Service, stateId: string, commandId: string, now: int): Service {
    var timers := if stateId in s.pending then s.timers - {s.pending[stateId].timer} else s.timers;
    s.(timers := timers[s.nextTimer := Timer(stateId, commandId, now + CONFIRMATION_TIMEOUT_MS)],
       pending := s.pending[stateId := Pending(commandId, s.nextTimer)],
       nextTimer := s.nextTimer + 1)
  }

  /** Does this change of a state confirm the command waiting on it? */
  predicate Confirms(s: Service, stateId: string, ack: bool, val: Value) {
    && ack && stateId in s.pending && s.pending[stateId].commandId in s.store
    && var record := s.store[s.pending[stateId].commandId];
    record.status == Executed && val == record.value
  }

  function AfterChange(s: Service, stateId: string, ack: bool, val: Value): Service {
    if !Confirms(s, stateId, ack, val) then s else
      var pending := s.pending[stateId];
      var s1 := s.(timers := s.timers - {pending.timer}, pending := s.pending - {stateId});
      Put(s1, s.store[pending.commandId].(status := Confirmed))
  }

  predicate TimesOut(s: Service, stateId: string) {
    stateId in s.pending && s.pending[stateId].commandId in s.store && s.store[s.pending[stateId].commandId].status == Executed
  }

  /** The callback of timer t: it knows only the state, and takes whatever command waits there. */
  function AfterTimer(s: Service, t: nat): Service
    requires t in s.timers
  {
    var stateId := s.timers[t].stateId;
    var s1 := s.(timers := s.timers - {t});
    if stateId !in s.pending then s1 else
      var s2 := s1.(pending := s.pending - {stateId});
      if TimesOut(s, stateId) then Put(s2, s.store[s.pending[stateId].commandId].(status := TimedOut)) else s2
  }

  /** A command waits on the state, and is still executed. */
  ghost predicate AwaitsStill(s: Service, stateId: string) {
    exists c, timer :: stateId in s.pending && s.pending[stateId] == Pending(c, timer) && c in s.store && s.store[c].status == Executed
  }

  // ---- The class ---------------------------------------------------------------------------

  class CommandsService {
    var store: map<string, Record>
    const rateLimiter: RL.RateLimiter
    const replayGuard: RG.ReplayGuard
    var pendingByStateId: map<string, Pending>
    var subscribedStateIds: set<string>
    var timers: map<nat, Timer>
    var nextTimer: nat

    constructor (rateLimiter: RL.RateLimiter, replayGuard: RG.ReplayGuard)
      ensures this.rateLimiter == rateLimiter && this.replayGuard == replayGuard
      ensures View() == Service(map[], rateLimiter.buckets, replayGuard.seen, map[], {}, map[], 0)
    {
      this.rateLimiter := rateLimiter;
      this.replayGuard := replayGuard;
      store, pendingByStateId, subscribedStateIds, timers, nextTimer := map[], map[], {}, map[], 0;
    }

    ghost function View(): Service
      reads this, rateLimiter, replayGuard
    {
      Service(store, rateLimiter.buckets, replayGuard.seen, pendingByStateId, subscribedStateIds, timers, nextTimer)
    }

    /** execute, up to its first await after the policy checks. */
    method BeginExecute(r: Request, resolved: Resolved, now: int) returns (answer: Answer)
      modifies this, rateLimiter, replayGuard
      ensures Begun(View(), answer) == Begin(old(View()), rateLimiter.limitPerMinute, replayGuard.ttlMs, r, resolved, now)
    {
      if r.commandId in store {
        return Existing(store[r.commandId]);
      }
      var admitted := rateLimiter.TryConsume(r.deviceId, now);
      if !admitted {
        return Refused(RateLimited);
      }
      var isNew := replayGuard.CheckAndRemember(NonceKey(r), now, now);
      if !isNew {
        return Refused(ReplayDetected);
      }
      if resolved.NoAccess? {
        return Refused(NotAuthorized);
      }
      var permission := resolved.permission;
      if permission.policy == BlockedOnMobile {
        return Refused(WriteForbidden);
      }
      if permission.localOnly && !r.isLocal {
        return Refused(LocalOnly);
      }
      if NeedsExplicitConfirmation(permission.policy) && !r.confirmed {
        return Refused(ConfirmationRequired);
      }
      return Continue(resolved.stateId, permission);
    }

    /** execute, once the object has been read: validate and store the accepted record. */
    method SaveAccepted(r: Request, stateId: string, permission: Permission, expected: ValueType) returns (ok: bool)
      modifies this`store
      ensures ok == IsValid(r.value, expected, permission)
      ensures View() == if ok then Put(old(View()), RecordOf(r, stateId, Accepted)) else old(View())
    {
      ok := ValidateValue(r.value, expected, permission);
      if ok {
        store := store[r.commandId := RecordOf(r, stateId, Accepted)];
      }
    }

    static method ValidateValue(value: Value, expected: ValueType, permission: Permission) returns (ok: bool)
      ensures ok == IsValid(value, expected, permission)
      ensures ok <==>
                && (value.Bool? || value.Num? || value.Str?)
                && (expected == BooleanType ==> value.Bool?)
                && (expected == NumberType ==> value.Num?)
                && (expected == StringType ==> value.Str?)
                && (value.Num? && permission.min.Some? ==> permission.min.value <= value.n)
                && (value.Num? && permission.max.Some? ==> value.n <= permission.max.value)
                && (value.Num? && permission.min.Some? && permission.step.Some? && permission.step.value > 0.0 ==>
                      exists k: int :: OnGrid(value.n, permission.min.value, permission.step.value, k))
                && (permission.allowedValues.Some? ==> value in permission.allowedValues.value)
    {
      ValueCheckMeans(value, expected, permission);
      if value == NonScalar {
        return false;
      }
      if (expected == BooleanType && !value.Bool?) || (expected == NumberType && !value.Num?) || (expected == StringType && !value.Str?) {
        return false;
      }
      if value.Num? {
        if permission.min.Some? && value.n < permission.min.value {
          return false;
        }
        if permission.max.Some? && value.n > permission.max.value {
          return false;
        }
        if permission.step.Some? && permission.step.value > 0.0 && permission.min.Some? {
          var stepsFromMin := (value.n - permission.min.value) / permission.step.value;
          if Abs(stepsFromMin - Round(stepsFromMin) as real) > TOLERANCE {
            return false;
          }
        }
      }
      return permission.allowedValues.None? || value in permission.allowedValues.value;
    }

    /** execute, once the write has succeeded or failed. */
    method FinishWrite(r: Request, stateId: string, written: bool)
      modifies this`store
      ensures View() == Put(old(View()), RecordOf(r, stateId, if written then Executed else Rejected))
    {
      store := store[r.commandId := RecordOf(r, stateId, if written then Executed else Rejected)];
    }

    /** awaitConfirmation, after the subscription (if one was needed) has been attempted. */
    method AwaitConfirmation(stateId: string, commandId: string, newlySubscribed: bool, now: int)
      modifies this`subscribedStateIds, this`timers, this`pendingByStateId, this`nextTimer
      ensures View() == Register(
                          old(View()).(subscribed := old(subscribedStateIds) + if newlySubscribed then {stateId} else {}),
                          stateId, commandId, now)
    {
      if newlySubscribed {
        subscribedStateIds := subscribedStateIds + {stateId};
      }
      if stateId in pendingByStateId {
        timers := timers - {pendingByStateId[stateId].timer};
      }
      var timer := nextTimer;
      nextTimer := nextTimer + 1;
      timers := timers[timer := Timer(stateId, commandId, now + CONFIRMATION_TIMEOUT_MS)];
      pendingByStateId := pendingByStateId[stateId := Pending(commandId, timer)];
    }

    method HandleForeignStateChange(stateId: string, ack: bool, val: Value) returns (confirmed: Option<Record>)
      modifies this`store, this`timers, this`pendingByStateId
      ensures View() == AfterChange(old(View()), stateId, ack, val)
      ensures !AwaitsStill(old(View()), stateId) ==> confirmed == None && View() == old(View())
      ensures confirmed == if Confirms(old(View()), stateId, ack, val)
                           then Some(old(store)[old(pendingByStateId)[stateId].commandId].(status := Confirmed)) else None
    {
      if !ack || stateId !in pendingByStateId {
        return None;
      }
      var pending := pendingByStateId[stateId];
      if pending.commandId !in store || store[pending.commandId].status != Executed {
        return None;
      }
      var record := store[pending.commandId];
      if val != record.value {
        return None;
      }
      timers := timers - {pending.timer};
      pendingByStateId := pendingByStateId - {stateId};
      var updated := record.(status := Confirmed);
      store := store[updated.id := updated];
      return Some(updated);
    }

    /** timeoutCommand, as the callback of timer t. */
    method TimeoutCommand(t: nat) returns (timedOut: Option<Record>)
      requires t in timers
      modifies this`store, this`timers, this`pendingByStateId
      ensures View() == AfterTimer(old(View()), t)
      ensures !AwaitsStill(old(View()), old(timers)[t].stateId) ==> timedOut == None && store == old(store)
      ensures timedOut == if TimesOut(old(View()), old(timers)[t].stateId)
                          then Some(old(store)[old(pendingByStateId)[old(timers)[t].stateId].commandId].(status := TimedOut)) else None
    {
      var stateId := timers[t].stateId;
      timers := timers - {t};
      if stateId !in pendingByStateId {
        return None;
      }
      var pending := pendingByStateId[stateId];
      pendingByStateId := pendingByStateId - {stateId};
      if pending.commandId !in store || store[pending.commandId].status != Executed {
        return None;
      }
      var updated := store[pending.commandId].(status := TimedOut);
      store := store[updated.id := updated];
      return Some(updated);
    }

    /** recheckAfterTimeout, before its await: whether there is anything left to look at. */
    method BeginRecheck(commandId: string) returns (record: Option<Record>)
      ensures record == if commandId in store && store[commandId].status == TimedOut then Some(store[commandId]) else None
    {
      if commandId !in store || store[commandId].status != TimedOut {
        return None;
      }
      return Some(store[commandId]);
    }

    /** recheckAfterTimeout, after its await, with the record captured before it. */
    method FinishRecheck(captured: Record, expectedValue: Value, val: Option<Value>) returns (confirmed: bool)
      modifies this`store
      ensures confirmed == (val == Some(expectedValue))
      ensures View() == if confirmed then Put(old(View()), captured.(status := Confirmed)) else old(View())
    {
      if val != Some(expectedValue) {
        return false;
      }
      var updated := captured.(status := Confirmed);
      store := store[updated.id := updated];
      return true;
    }
  }
}

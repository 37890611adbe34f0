/** What the checks of execute come to, in every state: who gets which answer, and who gets a write. */
module CommandChecks {
  import opened Common
  import opened Commands
  import opened CommandRuns
  import opened CommandOwnership

  /** The device has had no call in this minute, or fewer than its limit. */
  ghost predicate LimiterAdmits(s: Service, limit: int, deviceId: string, now: int) {
    deviceId in s.limiter ==> now - s.limiter[deviceId].windowStart >= 60_000 || s.limiter[deviceId].count < limit
  }

  /** The device has not used the nonce, or so long ago that it has been forgotten. */
  ghost predicate NonceIsFree(s: Service, deviceId: string, nonce: string, now: int) {
    deviceId + ":" + nonce in s.seen ==> s.seen[deviceId + ":" + nonce] < now
  }

  ghost predicate IsConfirmedEnough(r: Request, permission: Permission) {
    permission.policy in {Dialog, Biometric, Reauthenticate} ==> r.confirmed
  }

  /** Which answer a request gets: the first of the reasons against it, in this order, or leave to go on. */
  lemma AnswersMean(s: Service, limit: int, ttlMs: int, r: Request, resolved: Resolved, now: int)
    ensures var answer := Begin(s, limit, ttlMs, r, resolved, now).answer;
            if r.commandId in s.store then answer == Existing(s.store[r.commandId])
            else if !LimiterAdmits(s, limit, r.deviceId, now) then answer == Refused(RateLimited)
            else if !NonceIsFree(s, r.deviceId, r.nonce, now) then answer == Refused(ReplayDetected)
            else if resolved == NoAccess then answer == Refused(NotAuthorized)
            else if resolved.permission.policy == BlockedOnMobile then answer == Refused(WriteForbidden)
            else if resolved.permission.localOnly && !r.isLocal then answer == Refused(LocalOnly)
            else if !IsConfirmedEnough(r, resolved.permission) then answer == Refused(ConfirmationRequired)
            else answer == Continue(resolved.stateId, resolved.permission)
  {
  }

  /** What it costs: a known id nothing, a call over the limit nothing, a call within it one of the limit,
      and its nonce for its lifetime unless the nonce was spent. */
  lemma AnswersCost(s: Service, limit: int, ttlMs: int, r: Request, resolved: Resolved, now: int)
    ensures var t := Begin(s, limit, ttlMs, r, resolved, now).service;
            && t.store == s.store && t.pending == s.pending && t.timers == s.timers
            && (r.commandId in s.store || !LimiterAdmits(s, limit, r.deviceId, now) ==> t == s)
            && (r.commandId !in s.store && LimiterAdmits(s, limit, r.deviceId, now) ==>
                  && r.deviceId in t.limiter
                  && t.limiter[r.deviceId].count == 1 + (if r.deviceId in s.limiter && now - s.limiter[r.deviceId].windowStart < 60_000
                                                         then s.limiter[r.deviceId].count else 0)
                  && r.deviceId + ":" + r.nonce in t.seen
                  && t.seen[r.deviceId + ":" + r.nonce] ==
                     if NonceIsFree(s, r.deviceId, r.nonce, now) then now + ttlMs else s.seen[r.deviceId + ":" + r.nonce])
  {
  }

  /** The value meets all that the state and the permission ask for. */
  ghost predicate IsAllowed(value: Value, expected: ValueType, permission: Permission) {
    && (value.Bool? || value.Num? || value.Str?)
    && (expected == BooleanType ==> value.Bool?)
    && (expected == NumberType ==> value.Num?)
    && (expected == StringType ==> value.Str?)
    && (value.Num? && permission.min.Some? ==> permission.min.value <= value.n)
    && (value.Num? && permission.max.Some? ==> value.n <= permission.max.value)
    && (value.Num? && permission.min.Some? && permission.step.Some? && permission.step.value > 0.0 ==>
          exists k: int :: OnGrid(value.n, permission.min.value, permission.step.value, k))
    && (permission.allowedValues.Some? ==> value in permission.allowedValues.value)
  }

  /** Delivered, its object read and its record saved at one moment. */
  ghost function Executed(cfg: Config, s: State, r: Request, resolved: Resolved, expected: ValueType, now: int): State {
    var i := |s.execs|;
    Try(cfg, Try(cfg, Try(cfg, s, Step(now, Post(r, resolved))), Step(now, ObjectRead(i, expected))), Step(now, RecordSaved(i)))
  }

  lemma PostGoesOn(cfg: Config, s: State, r: Request, resolved: Resolved, now: int)
    requires s.clock <= now && OneNonce(s, r)
    ensures var t := Try(cfg, s, Step(now, Post(r, resolved)));
            var answer := Begin(s.service, cfg.limit, cfg.replayTtlMs, r, resolved, now).answer;
            && t.clock == now && t.writes == s.writes && t.service.store == s.service.store
            && t.execs == s.execs + if answer.Continue?
                                    then [Exec(r, answer.stateId, answer.permission, OtherType, now, Resolving)] else []
  {
    BeginStoresNothing(cfg, s.service, r, resolved, now);
  }

  lemma ReadGoesOn(cfg: Config, s: State, i: nat, expected: ValueType, now: int)
    requires s.clock == now && i < |s.execs| && s.execs[i].phase == Resolving && s.execs[i].checkedAt == now && 0 <= cfg.maxWaitMs
    ensures var t := Try(cfg, s, Step(now, ObjectRead(i, expected)));
            var e := s.execs[i];
            && t.clock == now && t.writes == s.writes
            && (if IsAllowed(e.request.value, expected, e.permission)
                then t.execs == s.execs[i := e.(expected := expected, phase := Saving)]
                     && t.service.store == s.service.store[e.request.commandId :=
                          Record(e.request.commandId, e.request.objectId, e.stateId, e.request.deviceId, e.request.value, Accepted)]
                else t.execs == s.execs[i := e.(phase := Unstored)] && t.service.store == s.service.store)
  {
    ValueCheckMeans(s.execs[i].request.value, expected, s.execs[i].permission);
  }

  lemma SaveGoesOn(cfg: Config, s: State, i: nat, now: int)
    requires s.clock == now
    ensures var t := Try(cfg, s, Step(now, RecordSaved(i)));
            && t.service.store == s.service.store
            && t.writes == s.writes + if i < |s.execs| && s.execs[i].phase == Saving
                                      then [Write(i, s.execs[i].request.commandId, s.execs[i].stateId, s.execs[i].request.value)] else []
  {
  }

  /** Which commands are written: in any state, a delivered request causes a write of its value, to the
      state resolved for it, if and only if its id is new, the limiter admits its device, its nonce is free,
      and policy and value are in order; and its record says what was asked. */
  lemma {:induction false} WrittenIff(cfg: Config, s: State, r: Request, resolved: Resolved, expected: ValueType, now: int)
    requires s.clock <= now && OneNonce(s, r) && 0 <= cfg.maxWaitMs
    ensures var t := Executed(cfg, s, r, resolved, expected, now);
            if && r.commandId !in s.service.store && LimiterAdmits(s.service, cfg.limit, r.deviceId, now)
               && NonceIsFree(s.service, r.deviceId, r.nonce, now)
               && resolved.Access? && resolved.permission.policy != BlockedOnMobile
               && (resolved.permission.localOnly ==> r.isLocal) && IsConfirmedEnough(r, resolved.permission)
               && IsAllowed(r.value, expected, resolved.permission)
            then
              && t.writes == s.writes + [Write(|s.execs|, r.commandId, resolved.stateId, r.value)]
              && t.service.store == s.service.store[r.commandId :=
                                      Record(r.commandId, r.objectId, resolved.stateId, r.deviceId, r.value, Accepted)]
            else t.writes == s.writes && t.service.store == s.service.store
  {
    AnswersMean(s.service, cfg.limit, cfg.replayTtlMs, r, resolved, now);
    PostGoesOn(cfg, s, r, resolved, now);
    var i := |s.execs|;
    var t1 := Try(cfg, s, Step(now, Post(r, resolved)));
    if |t1.execs| > i {
      ReadGoesOn(cfg, t1, i, expected, now);
      SaveGoesOn(cfg, Try(cfg, t1, Step(now, ObjectRead(i, expected))), i, now);
    }
  }
}

/** At most one write for each command id: the nonce table and the command store together let only
    one execute call at a time get past the nonce check, as long as no call is suspended for longer
    than a nonce lives, or the limiter keeps the device out for as long. */
module CommandOwnership {
  import opened Common
  import opened Commands
  import opened CommandRuns
  import RL = RateLimiters

  predicate IsSaved(phase: Phase) {
    phase != Resolving && phase != Unstored
  }

  predicate IsWritten(phase: Phase) {
    IsSaved(phase) && phase != Saving && phase != Stopped
  }

  /** Still able to store a record. */
  predicate IsLive(cfg: Config, e: Exec, clock: int) {
    e.phase == Resolving && clock <= e.checkedAt + cfg.maxWaitMs
  }

  /** Each stored command was stored by exactly one call. */
  ghost predicate Owned(s: State) {
    && s.files.Keys == s.service.store.Keys
    && (forall c {:trigger HasOwner(s, c)} :: c in s.files ==> HasOwner(s, c))
    && (forall i {:trigger IsListed(s, i)} :: 0 <= i < |s.execs| ==> IsListed(s, i))
  }

  ghost predicate HasOwner(s: State, c: string) {
    && c in s.files && s.files[c].exec < |s.execs|
    && s.execs[s.files[c].exec].request.commandId == c && IsSaved(s.execs[s.files[c].exec].phase)
  }

  ghost predicate IsListed(s: State, i: nat) {
    i < |s.execs| && (IsSaved(s.execs[i].phase) ==> s.execs[i].request.commandId in s.files && s.files[s.execs[i].request.commandId].exec == i)
  }

  ghost predicate OwnersOk(cfg: Config, s: State) {
    && Owned(s) && Counted(s.service.limiter)
    && forall i {:trigger IsAlone(cfg, s, i)} :: 0 <= i < |s.execs| ==> IsAlone(cfg, s, i)
  }

  /** Every bucket has let a call through. */
  ghost predicate Counted(limiter: RL.Buckets) {
    forall d :: d in limiter ==> limiter[d].count >= 1
  }

  /** A live call has no record yet, bars its copies, and no other live call has its id. */
  ghost predicate IsAlone(cfg: Config, s: State, i: nat) {
    i < |s.execs| && (IsLive(cfg, s.execs[i], s.clock) ==>
      && s.execs[i].request.commandId !in s.service.store
      && Bars(cfg, s.service, s.execs[i])
      && forall j {:trigger Apart(cfg, s, i, j)} :: 0 <= j < |s.execs| ==> Apart(cfg, s, i, j))
  }

  /** The call's nonce is remembered from its check on, or its device's window began no earlier. */
  ghost predicate Bars(cfg: Config, s: Service, e: Exec) {
    if cfg.maxWaitMs <= cfg.replayTtlMs then
      NonceKey(e.request) in s.seen && e.checkedAt + cfg.replayTtlMs <= s.seen[NonceKey(e.request)]
    else
      e.request.deviceId in s.limiter && e.checkedAt <= s.limiter[e.request.deviceId].windowStart
  }

  ghost predicate Apart(cfg: Config, s: State, i: nat, j: nat) {
    i < |s.execs| && j < |s.execs| &&
    (i != j && IsLive(cfg, s.execs[j], s.clock) ==> s.execs[j].request.commandId != s.execs[i].request.commandId)
  }

  // ---- Frames ------------------------------------------------------------------------------

  /** A step that starts no call and stores no new command: calls keep what they are, those saved
      stay saved, none comes back to life. */
  ghost predicate SameOwners(s: State, t: State) {
    && s.clock <= t.clock && t.service.seen == s.service.seen && t.service.limiter == s.service.limiter
    && t.files.Keys == s.files.Keys && t.service.store.Keys == s.service.store.Keys
    && (forall c {:trigger SameOwner(s, t, c)} :: c in s.files ==> SameOwner(s, t, c))
    && |t.execs| == |s.execs|
    && forall i {:trigger SameCall(s, t, i)} :: 0 <= i < |s.execs| ==> SameCall(s, t, i)
  }

  ghost predicate SameOwner(s: State, t: State, c: string) {
    c in s.files && c in t.files && t.files[c].exec == s.files[c].exec
  }

  ghost predicate SameCall(s: State, t: State, i: nat) {
    && i < |s.execs| && i < |t.execs|
    && t.execs[i] == s.execs[i].(phase := t.execs[i].phase)
    && IsSaved(t.execs[i].phase) == IsSaved(s.execs[i].phase)
    && (IsWritten(s.execs[i].phase) ==> IsWritten(t.execs[i].phase))
    && (t.execs[i].phase == Resolving ==> s.execs[i].phase == Resolving)
  }

  lemma OwnersFrame(cfg: Config, s: State, t: State)
    requires OwnersOk(cfg, s) && SameOwners(s, t)
    ensures OwnersOk(cfg, t)
  {
    forall c | c in t.files ensures HasOwner(t, c) {
      assert HasOwner(s, c) && SameOwner(s, t, c) && SameCall(s, t, s.files[c].exec);
    }
    forall i | 0 <= i < |t.execs| ensures IsListed(t, i) {
      assert IsListed(s, i) && SameCall(s, t, i);
      if IsSaved(t.execs[i].phase) {
        assert SameOwner(s, t, t.execs[i].request.commandId);
      }
    }
    forall i | 0 <= i < |t.execs| ensures IsAlone(cfg, t, i) {
      assert IsAlone(cfg, s, i) && SameCall(s, t, i);
      if IsLive(cfg, t.execs[i], t.clock) {
        forall j | 0 <= j < |t.execs| ensures Apart(cfg, t, i, j) {
          assert Apart(cfg, s, i, j) && SameCall(s, t, j);
        }
      }
    }
  }

  /** A step that changes at most call i's phase and command c's file and status. */
  lemma SmallStepIsFrame(s: State, t: State, i: nat, c: string)
    requires t.clock == s.clock && t.service.store.Keys == s.service.store.Keys
    requires t.service.seen == s.service.seen && t.service.limiter == s.service.limiter
    requires t.execs == s.execs || (SameCall(s, t, i) && t.execs == s.execs[i := t.execs[i]])
    requires t.files == s.files || (SameOwner(s, t, c) && t.files == s.files[c := t.files[c]])
    ensures SameOwners(s, t)
  {
    forall d | d in s.files ensures SameOwner(s, t, d) {
    }
    forall j | 0 <= j < |s.execs| ensures SameCall(s, t, j) {
    }
  }

  // ---- The two steps that matter -----------------------------------------------------------

  lemma BeginStoresNothing(cfg: Config, s: Service, r: Request, resolved: Resolved, now: int)
    ensures var t := Begin(s, cfg.limit, cfg.replayTtlMs, r, resolved, now).service;
            t == s.(limiter := t.limiter, seen := t.seen)
  {
  }

  /** A call added after the nonce check. */
  lemma NewCallKeepsOwners(cfg: Config, s: State, t: State)
    requires OwnersOk(cfg, s)
    requires t.clock == s.clock && t.files == s.files && t.service.store == s.service.store && Counted(t.service.limiter)
    requires |t.execs| >= |s.execs| && t.execs[..|s.execs|] == s.execs && |t.execs| <= |s.execs| + 1
    requires forall i {:trigger s.execs[i]} :: 0 <= i < |s.execs| && IsLive(cfg, s.execs[i], s.clock) ==> Bars(cfg, t.service, s.execs[i])
    requires |t.execs| == |s.execs| + 1 ==>
               var e := t.execs[|s.execs|];
               && e.phase == Resolving && e.request.commandId !in s.service.store && Bars(cfg, t.service, e)
               && forall i {:trigger s.execs[i]} :: 0 <= i < |s.execs| && IsLive(cfg, s.execs[i], s.clock) ==> s.execs[i].request.commandId != e.request.commandId
    ensures OwnersOk(cfg, t)
  {
    var n := |s.execs|;
    forall i | 0 <= i < n ensures t.execs[i] == s.execs[i] {
      assert t.execs[..n][i] == s.execs[i];
    }
    forall c | c in t.files ensures HasOwner(t, c) {
      assert HasOwner(s, c);
    }
    forall i | 0 <= i < |t.execs| ensures IsListed(t, i) {
      if i < n {
        assert IsListed(s, i);
      }
    }
    forall i | 0 <= i < |t.execs| ensures IsAlone(cfg, t, i) {
      if i < n {
        assert IsAlone(cfg, s, i);
      }
      if IsLive(cfg, t.execs[i], t.clock) {
        forall j | 0 <= j < |t.execs| ensures Apart(cfg, t, i, j) {
          if i < n && j < n {
            assert Apart(cfg, s, i, j);
          }
        }
      }
    }
  }

  lemma StillBars(cfg: Config, s: Service, e: Exec, r: Request, resolved: Resolved, now: int)
    requires Safe(cfg) && Counted(s.limiter) && IsLive(cfg, e, now) && Bars(cfg, s, e)
    ensures var begun := Begin(s, cfg.limit, cfg.replayTtlMs, r, resolved, now);
            && Bars(cfg, begun.service, e)
            && (e.request.nonce == r.nonce && e.request.deviceId == r.deviceId ==> !begun.answer.Continue?)
  {
  }

  lemma StillCounted(cfg: Config, s: Service, r: Request, resolved: Resolved, now: int)
    requires Counted(s.limiter)
    ensures Counted(Begin(s, cfg.limit, cfg.replayTtlMs, r, resolved, now).service.limiter)
  {
  }

  /** Every call with the same id is dead, or would have kept this one from passing. */
  lemma PostKeepsOwners(cfg: Config, s: State, r: Request, resolved: Resolved)
    requires OwnersOk(cfg, s) && Safe(cfg) && OneNonce(s, r)
    ensures OwnersOk(cfg, AfterPost(cfg, s, r, resolved))
  {
    var begun := Begin(s.service, cfg.limit, cfg.replayTtlMs, r, resolved, s.clock);
    BeginStoresNothing(cfg, s.service, r, resolved, s.clock);
    forall i | 0 <= i < |s.execs| && IsLive(cfg, s.execs[i], s.clock)
      ensures Bars(cfg, begun.service, s.execs[i])
      ensures begun.answer.Continue? ==> s.execs[i].request.commandId != r.commandId
    {
      assert IsAlone(cfg, s, i);
      StillBars(cfg, s.service, s.execs[i], r, resolved, s.clock);
    }
    StillCounted(cfg, s.service, r, resolved, s.clock);
    NewCallKeepsOwners(cfg, s, AfterPost(cfg, s, r, resolved));
  }

  /** A live call stores its record: it was alone, so it becomes the command's one owner. */
  lemma StoreKeepsOwners(cfg: Config, s: State, t: State, i: nat)
    requires OwnersOk(cfg, s) && i < |s.execs| && IsLive(cfg, s.execs[i], s.clock)
    requires t.clock == s.clock && t.service.seen == s.service.seen && t.service.limiter == s.service.limiter
    requires exists expected :: t.execs == s.execs[i := s.execs[i].(expected := expected, phase := Saving)]
    requires s.execs[i].request.commandId in t.files && t.files[s.execs[i].request.commandId].exec == i
    requires t.files == s.files[s.execs[i].request.commandId := t.files[s.execs[i].request.commandId]]
    requires t.service.store.Keys == s.service.store.Keys + {s.execs[i].request.commandId}
    ensures OwnersOk(cfg, t)
  {
    assert IsAlone(cfg, s, i);
    forall c | c in t.files ensures HasOwner(t, c) {
      if c in s.files {
        assert HasOwner(s, c);
      }
    }
    forall j | 0 <= j < |t.execs| ensures IsListed(t, j) {
      assert IsListed(s, j);
    }
    forall j | 0 <= j < |t.execs| ensures IsAlone(cfg, t, j) {
      assert IsAlone(cfg, s, j) && Apart(cfg, s, i, j);
      if IsLive(cfg, t.execs[j], t.clock) {
        forall k | 0 <= k < |t.execs| ensures Apart(cfg, t, j, k) {
          assert Apart(cfg, s, j, k);
        }
      }
    }
  }

  lemma ObjectReadKeepsOwners(cfg: Config, s: State, i: nat, expected: ValueType)
    requires OwnersOk(cfg, s) && i < |s.execs| && IsLive(cfg, s.execs[i], s.clock)
    ensures OwnersOk(cfg, AfterObjectRead(s, i, expected))
  {
    if IsValid(s.execs[i].request.value, expected, s.execs[i].permission) {
      StoreKeepsOwners(cfg, s, AfterObjectRead(s, i, expected), i);
    } else {
      SmallStepIsFrame(s, AfterObjectRead(s, i, expected), i, "");
      OwnersFrame(cfg, s, AfterObjectRead(s, i, expected));
    }
  }

  // ---- All other steps are frames ----------------------------------------------------------

  lemma RecordSavedIsFrame(s: State, i: nat)
    requires ExecIn(s, i, {Saving})
    ensures SameOwners(s, AfterRecordSaved(s, i))
  {
    SmallStepIsFrame(s, AfterRecordSaved(s, i), i, "");
  }

  lemma WriteDoneIsFrame(s: State, i: nat, ok: bool)
    requires Owned(s) && ExecIn(s, i, {Writing})
    ensures SameOwners(s, AfterWriteDone(s, i, ok))
  {
    assert IsListed(s, i);
    SmallStepIsFrame(s, AfterWriteDone(s, i, ok), i, s.execs[i].request.commandId);
  }

  /** Commands that wait are stored. */
  ghost predicate WaitersStored(s: Service) {
    forall st :: st in s.pending ==> s.pending[st].commandId in s.store
  }

  lemma RegisteredIsFrame(s: State, i: nat, newlySubscribed: bool)
    requires s.files.Keys == s.service.store.Keys && WaitersStored(s.service) && ExecIn(s, i, {AnnouncingExecuted, Registering})
    ensures SameOwners(s, Registered(s, i, newlySubscribed))
  {
    var st := s.execs[i].stateId;
    SmallStepIsFrame(s, Registered(s, i, newlySubscribed), i, if st in s.service.pending then s.service.pending[st].commandId else "");
  }

  lemma AnnouncedKeepsOwners(cfg: Config, s: State, i: nat)
    requires OwnersOk(cfg, s) && WaitersStored(s.service) && ExecIn(s, i, {AnnouncingExecuted, AnnouncingRejected})
    ensures OwnersOk(cfg, AfterAnnounced(s, i))
  {
    assert IsListed(s, i);
    var e := s.execs[i];
    var c := e.request.commandId;
    var t := AfterAnnounced(s, i);
    if e.phase == AnnouncingExecuted && e.stateId in s.service.subscribed {
      var s1 := SetFile(s, c, FileOf(s, c).(emitted := FileOf(s, c).emitted + [Executed]));
      SmallStepIsFrame(s, s1, 0, c);
      OwnersFrame(cfg, s, s1);
      RegisteredIsFrame(s1, i, false);
      OwnersFrame(cfg, s1, t);
    } else {
      SmallStepIsFrame(s, t, i, c);
      OwnersFrame(cfg, s, t);
    }
  }

  lemma ExecFailedIsFrame(s: State, i: nat)
    requires Owned(s) && ExecIn(s, i, {Resolving, Saving, AnnouncingExecuted, AnnouncingRejected})
    ensures SameOwners(s, AfterExecFailed(s, i))
  {
    assert IsListed(s, i);
    SmallStepIsFrame(s, AfterExecFailed(s, i), i, s.execs[i].request.commandId);
  }

  /** Records are filed under their own ids, also the one a recheck in progress holds. */
  ghost predicate IdsOk(s: State) {
    && (forall c :: c in s.service.store ==> s.service.store[c].id == c)
    && (forall c :: Runs(s, c) && s.files[c].stage.value.Rereading? ==> s.files[c].stage.value.captured.id == c)
  }

  lemma StateChangedIsFrame(s: State, stateId: string, ack: bool, val: Value)
    requires s.files.Keys == s.service.store.Keys && IdsOk(s)
    ensures SameOwners(s, AfterStateChanged(s, stateId, ack, val))
  {
    var c := if Confirms(s.service, stateId, ack, val) then s.service.pending[stateId].commandId else "";
    SmallStepIsFrame(s, AfterStateChanged(s, stateId, ack, val), 0, c);
  }

  lemma TimerFiredIsFrame(s: State, t: nat)
    requires s.files.Keys == s.service.store.Keys && IdsOk(s) && t in s.service.timers
    ensures SameOwners(s, AfterTimerFired(s, t))
  {
    var stateId := s.service.timers[t].stateId;
    SmallStepIsFrame(s, AfterTimerFired(s, t), 0, if TimesOut(s.service, stateId) then s.service.pending[stateId].commandId else "");
  }

  lemma StateRereadIsFrame(s: State, c: string, found: Option<Value>)
    requires s.files.Keys == s.service.store.Keys && IdsOk(s) && Runs(s, c) && s.files[c].stage.value.Rereading?
    ensures SameOwners(s, AfterStateReread(s, c, found))
  {
    SmallStepIsFrame(s, AfterStateReread(s, c, found), 0, c);
  }

  lemma StepKeepsOwners(cfg: Config, before: State, now: int, e: Event)
    requires OwnersOk(cfg, before) && WaitersStored(before.service) && IdsOk(before) && Safe(cfg)
    requires Enabled(cfg, before, now, e)
    ensures OwnersOk(cfg, Next(cfg, before, now, e))
  {
    var s := before.(clock := now);
    OwnersFrame(cfg, before, s);
    match e
    case Post(r, resolved) => PostKeepsOwners(cfg, s, r, resolved);
    case ObjectRead(i, expected) => ObjectReadKeepsOwners(cfg, s, i, expected);
    case RecordSaved(i) => RecordSavedIsFrame(s, i); OwnersFrame(cfg, s, AfterRecordSaved(s, i));
    case WriteDone(i, ok) => WriteDoneIsFrame(s, i, ok); OwnersFrame(cfg, s, AfterWriteDone(s, i, ok));
    case Announced(i) => AnnouncedKeepsOwners(cfg, s, i);
    case Subscribed(i, ok) => RegisteredIsFrame(s, i, ok); OwnersFrame(cfg, s, Registered(s, i, ok));
    case ExecFailed(i) => ExecFailedIsFrame(s, i); OwnersFrame(cfg, s, AfterExecFailed(s, i));
    case StateChanged(stateId, ack, val) =>
      StateChangedIsFrame(s, stateId, ack, val); OwnersFrame(cfg, s, AfterStateChanged(s, stateId, ack, val));
    case TimerFired(t) => TimerFiredIsFrame(s, t); OwnersFrame(cfg, s, AfterTimerFired(s, t));
    case OutcomeAnnounced(c) => SmallStepIsFrame(s, AfterOutcomeAnnounced(s, c), 0, c); OwnersFrame(cfg, s, AfterOutcomeAnnounced(s, c));
    case RecheckFired(c) => SmallStepIsFrame(s, AfterRecheckFired(s, c), 0, c); OwnersFrame(cfg, s, AfterRecheckFired(s, c));
    case StateReread(c, found) => StateRereadIsFrame(s, c, found); OwnersFrame(cfg, s, AfterStateReread(s, c, found));
    case OutcomeFailed(c) => SmallStepIsFrame(s, AfterOutcomeFailed(s, c), 0, c); OwnersFrame(cfg, s, AfterOutcomeFailed(s, c));
  }
}

/** The pending table and the live confirmation timers are each other's inverse, and every write ever
    issued was cleared by the policy and value checks. */
module CommandTimers {
  import opened Common
  import opened Commands
  import opened CommandRuns
  import opened CommandOwnership

  // ---- Timers ------------------------------------------------------------------------------

  /** The entry pending on a state owns a live timer set for that state and that command. */
  predicate OwnsTimer(s: Service, st: string) {
    && st in s.pending && s.pending[st].timer in s.timers
    && s.timers[s.pending[st].timer].stateId == st
    && s.timers[s.pending[st].timer].commandId == s.pending[st].commandId
  }

  /** A live timer is the one its state's pending entry owns. */
  predicate IsOwned(s: Service, t: nat) {
    && t in s.timers && t < s.nextTimer
    && s.timers[t].stateId in s.pending && s.pending[s.timers[t].stateId].timer == t
  }

  ghost predicate TimersOk(s: Service) {
    && (forall st {:trigger OwnsTimer(s, st)} :: st in s.pending ==> OwnsTimer(s, st))
    && (forall t {:trigger IsOwned(s, t)} :: t in s.timers ==> IsOwned(s, t))
  }

  lemma TimersFrame(s: Service, t: Service)
    requires TimersOk(s) && t.pending == s.pending && t.timers == s.timers && t.nextTimer == s.nextTimer
    ensures TimersOk(t)
  {
    forall st | st in t.pending ensures OwnsTimer(t, st) {
      assert OwnsTimer(s, st);
    }
    forall k | k in t.timers ensures IsOwned(t, k) {
      assert IsOwned(s, k);
    }
  }

  lemma RegisterKeepsTimers(s: Service, stateId: string, commandId: string, now: int)
    requires TimersOk(s)
    ensures TimersOk(Register(s, stateId, commandId, now))
  {
    var t := Register(s, stateId, commandId, now);
    forall st | st in t.pending ensures OwnsTimer(t, st) {
      if st != stateId {
        assert OwnsTimer(s, st) && IsOwned(s, s.pending[st].timer);
        if stateId in s.pending {
          assert OwnsTimer(s, stateId);
        }
      }
    }
    forall k | k in t.timers ensures IsOwned(t, k) {
      if k != s.nextTimer {
        assert IsOwned(s, k);
      }
    }
  }

  /** A state's wait ends, and its timer with it. */
  lemma EndingKeepsTimers(s: Service, t: Service, stateId: string)
    requires TimersOk(s) && stateId in s.pending
    requires t.pending == s.pending - {stateId} && t.timers == s.timers - {s.pending[stateId].timer} && t.nextTimer == s.nextTimer
    ensures TimersOk(t)
  {
    assert OwnsTimer(s, stateId);
    forall st | st in t.pending ensures OwnsTimer(t, st) {
      assert OwnsTimer(s, st);
    }
    forall k | k in t.timers ensures IsOwned(t, k) {
      assert IsOwned(s, k);
    }
  }

  lemma StateChangedKeepsTimers(s: Service, stateId: string, ack: bool, val: Value)
    requires TimersOk(s)
    ensures TimersOk(AfterChange(s, stateId, ack, val))
  {
    if Confirms(s, stateId, ack, val) {
      EndingKeepsTimers(s, AfterChange(s, stateId, ack, val), stateId);
    }
  }

  /** The callback takes whatever command waits on its state; that is the command it was set for. */
  lemma TimerFiresForItsCommand(s: Service, t: nat)
    requires TimersOk(s) && t in s.timers
    ensures s.timers[t].stateId in s.pending && s.pending[s.timers[t].stateId].commandId == s.timers[t].commandId
    ensures TimersOk(AfterTimer(s, t))
  {
    assert IsOwned(s, t);
    assert OwnsTimer(s, s.timers[t].stateId);
    EndingKeepsTimers(s, AfterTimer(s, t), s.timers[t].stateId);
  }

  lemma StepKeepsTimers(cfg: Config, before: State, now: int, e: Event)
    requires TimersOk(before.service) && Enabled(cfg, before, now, e)
    ensures TimersOk(Next(cfg, before, now, e).service)
  {
    var s := before.(clock := now);
    match e
    case Post(r, resolved) =>
      BeginStoresNothing(cfg, s.service, r, resolved, now);
      TimersFrame(s.service, AfterPost(cfg, s, r, resolved).service);
    case ObjectRead(i, expected) => TimersFrame(s.service, AfterObjectRead(s, i, expected).service);
    case RecordSaved(i) =>
    case WriteDone(i, ok) => TimersFrame(s.service, AfterWriteDone(s, i, ok).service);
    case Announced(i) => RegisteringKeepsTimers(s.service, s.execs[i], false, now);
    case Subscribed(i, ok) => RegisteringKeepsTimers(s.service, s.execs[i], ok, now);
    case ExecFailed(i) =>
    case StateChanged(stateId, ack, val) => StateChangedKeepsTimers(s.service, stateId, ack, val);
    case TimerFired(t) => TimerFiresForItsCommand(s.service, t);
    case OutcomeAnnounced(c) =>
    case RecheckFired(c) =>
    case StateReread(c, found) => TimersFrame(s.service, AfterStateReread(s, c, found).service);
    case OutcomeFailed(c) =>
  }

  lemma RegisteringKeepsTimers(s: Service, e: Exec, newlySubscribed: bool, now: int)
    requires TimersOk(s)
    ensures TimersOk(Register(s.(subscribed := s.subscribed + if newlySubscribed then {e.stateId} else {}), e.stateId, e.request.commandId, now))
  {
    var s1 := s.(subscribed := s.subscribed + if newlySubscribed then {e.stateId} else {});
    TimersFrame(s, s1);
    RegisterKeepsTimers(s1, e.stateId, e.request.commandId, now);
  }

  // ---- Writes ------------------------------------------------------------------------------

  /** The checks a call must have passed by the time it is where it is. */
  predicate Cleared(e: Exec) {
    && Judge(e.request, Access(e.stateId, e.permission)) == Continue(e.stateId, e.permission)
    && (IsSaved(e.phase) ==> IsValid(e.request.value, e.expected, e.permission))
  }

  ghost predicate IsCleared(s: State, i: nat) {
    i < |s.execs| && Cleared(s.execs[i])
  }

  /** Write a was issued by a call that has got past its write. */
  ghost predicate IsIssued(s: State, a: nat) {
    && a < |s.writes| && s.writes[a].exec < |s.execs|
    && var e := s.execs[s.writes[a].exec];
    && IsWritten(e.phase)
    && s.writes[a] == Write(s.writes[a].exec, e.request.commandId, e.stateId, e.request.value)
  }

  ghost predicate DifferentCalls(s: State, a: nat, b: nat) {
    a < |s.writes| && b < |s.writes| && s.writes[a].exec != s.writes[b].exec
  }

  ghost predicate WritesOk(s: State) {
    && (forall i {:trigger IsCleared(s, i)} :: 0 <= i < |s.execs| ==> IsCleared(s, i))
    && (forall a {:trigger IsIssued(s, a)} :: 0 <= a < |s.writes| ==> IsIssued(s, a))
    && (forall a, b {:trigger DifferentCalls(s, a, b)} :: 0 <= a < b < |s.writes| ==> DifferentCalls(s, a, b))
  }

  /** A step that moves one call on, issuing no write. */
  lemma CallStepKeepsWrites(s: State, t: State, i: nat)
    requires WritesOk(s) && t.writes == s.writes && i < |s.execs|
    requires exists e :: t.execs == s.execs[i := e] && Cleared(e) && e.request == s.execs[i].request && e.stateId == s.execs[i].stateId
                         && (IsWritten(s.execs[i].phase) ==> IsWritten(e.phase))
    ensures WritesOk(t)
  {
    forall j | 0 <= j < |t.execs| ensures IsCleared(t, j) {
      assert IsCleared(s, j);
    }
    forall a | 0 <= a < |t.writes| ensures IsIssued(t, a) {
      assert IsIssued(s, a);
    }
    forall a, b | 0 <= a < b < |t.writes| ensures DifferentCalls(t, a, b) {
      assert DifferentCalls(s, a, b);
    }
  }

  lemma PhaseStepKeepsWrites(s: State, t: State, i: nat)
    requires WritesOk(s) && t.writes == s.writes && i < |s.execs|
    requires SameCall(s, t, i) && t.execs == s.execs[i := t.execs[i]]
    ensures WritesOk(t)
  {
    assert IsCleared(s, i);
    CallStepKeepsWrites(s, t, i);
  }

  lemma QuietStepKeepsWrites(s: State, t: State)
    requires WritesOk(s) && t.writes == s.writes && s.execs <= t.execs
    requires forall i {:trigger t.execs[i]} :: |s.execs| <= i < |t.execs| ==> Cleared(t.execs[i])
    ensures WritesOk(t)
  {
    forall j | 0 <= j < |t.execs| ensures IsCleared(t, j) {
      assert j < |s.execs| ==> IsCleared(s, j);
    }
    forall a | 0 <= a < |t.writes| ensures IsIssued(t, a) {
      assert IsIssued(s, a);
    }
    forall a, b | 0 <= a < b < |t.writes| ensures DifferentCalls(t, a, b) {
      assert DifferentCalls(s, a, b);
    }
  }

  lemma RecordSavedKeepsWrites(s: State, i: nat)
    requires WritesOk(s) && ExecIn(s, i, {Saving})
    ensures WritesOk(AfterRecordSaved(s, i))
  {
    var t := AfterRecordSaved(s, i);
    forall j | 0 <= j < |t.execs| ensures IsCleared(t, j) {
      assert IsCleared(s, j);
    }
    forall a | 0 <= a < |t.writes| ensures IsIssued(t, a) {
      assert a < |s.writes| ==> IsIssued(s, a);
    }
    forall a, b | 0 <= a < b < |t.writes| ensures DifferentCalls(t, a, b) {
      assert IsIssued(s, a);
      assert b < |s.writes| ==> DifferentCalls(s, a, b);
    }
  }

  lemma AnnouncedKeepsWrites(s: State, i: nat)
    requires WritesOk(s) && ExecIn(s, i, {AnnouncingExecuted, AnnouncingRejected})
    ensures WritesOk(AfterAnnounced(s, i))
  {
    PhaseStepKeepsWrites(s, AfterAnnounced(s, i), i);
  }

  lemma ExecFailedKeepsWrites(s: State, i: nat)
    requires WritesOk(s) && ExecIn(s, i, {Resolving, Saving, AnnouncingExecuted, AnnouncingRejected})
    ensures WritesOk(AfterExecFailed(s, i))
  {
    PhaseStepKeepsWrites(s, AfterExecFailed(s, i), i);
  }

  lemma StepKeepsWrites(cfg: Config, before: State, now: int, e: Event)
    requires WritesOk(before) && Enabled(cfg, before, now, e)
    ensures WritesOk(Next(cfg, before, now, e))
  {
    var s := before.(clock := now);
    QuietStepKeepsWrites(before, s);
    match e
    case Post(r, resolved) =>
      QuietStepKeepsWrites(s, AfterPost(cfg, s, r, resolved));
    case ObjectRead(i, expected) =>
      assert IsCleared(s, i);
      CallStepKeepsWrites(s, AfterObjectRead(s, i, expected), i);
    case RecordSaved(i) => RecordSavedKeepsWrites(s, i);
    case WriteDone(i, ok) => PhaseStepKeepsWrites(s, AfterWriteDone(s, i, ok), i);
    case Announced(i) => AnnouncedKeepsWrites(s, i);
    case Subscribed(i, ok) => PhaseStepKeepsWrites(s, Registered(s, i, ok), i);
    case ExecFailed(i) => ExecFailedKeepsWrites(s, i);
    case StateChanged(stateId, ack, val) => QuietStepKeepsWrites(s, AfterStateChanged(s, stateId, ack, val));
    case TimerFired(t) => QuietStepKeepsWrites(s, AfterTimerFired(s, t));
    case OutcomeAnnounced(c) => QuietStepKeepsWrites(s, AfterOutcomeAnnounced(s, c));
    case RecheckFired(c) => QuietStepKeepsWrites(s, AfterRecheckFired(s, c));
    case StateReread(c, found) => QuietStepKeepsWrites(s, AfterStateReread(s, c, found));
    case OutcomeFailed(c) => QuietStepKeepsWrites(s, AfterOutcomeFailed(s, c));
  }
}

/** When things happen to a command, told by the clock readings of the steps of its run. */
module CommandTimes {
  import opened Common
  import opened Commands
  import opened CommandRuns
  import opened CommandOwnership
  import opened CommandRecords
  import opened CommandTimers
  import opened CommandTheorems

  // ---- What a step does, told from the states before and after it ----------------------------

  ghost predicate StartsToWait(s: State, t: State, c: string) {
    !IsPending(s.service, c) && IsPending(t.service, c)
  }

  ghost predicate TimesOutHere(s: State, t: State, c: string) {
    && c in s.service.store && s.service.store[c].status != TimedOut
    && c in t.service.store && t.service.store[c].status == TimedOut
  }

  ghost predicate TellsOfTimeout(s: State, t: State, c: string) {
    c in t.files && TimedOut in t.files[c].emitted && !(c in s.files && TimedOut in s.files[c].emitted)
  }

  ghost predicate StartsAt(cfg: Config, steps: seq<Step>, k: nat, c: string) {
    k < |steps| && StartsToWait(After(cfg, steps[..k]), After(cfg, steps[..k + 1]), c)
  }

  ghost predicate TimesOutAt(cfg: Config, steps: seq<Step>, k: nat, c: string) {
    k < |steps| && TimesOutHere(After(cfg, steps[..k]), After(cfg, steps[..k + 1]), c)
  }

  ghost predicate TellsAt(cfg: Config, steps: seq<Step>, k: nat, c: string) {
    k < |steps| && TellsOfTimeout(After(cfg, steps[..k]), After(cfg, steps[..k + 1]), c)
  }

  ghost predicate RereadsAt(cfg: Config, steps: seq<Step>, k: nat, c: string) {
    && k < |steps| && steps[k].event.StateReread? && steps[k].event.c == c
    && Enabled(cfg, After(cfg, steps[..k]), steps[k].now, steps[k].event)
  }

  // ---- The confirmation timer ----------------------------------------------------------------

  /** The command started to wait at some step, and the moment is that long after it. */
  ghost predicate SetAtStart(cfg: Config, steps: seq<Step>, c: string, due: int) {
    exists k: nat :: StartsAt(cfg, steps, k, c) && due == steps[k].now + 25_000
  }

  ghost predicate TimerTimed(cfg: Config, steps: seq<Step>, t: nat) {
    var timers := After(cfg, steps).service.timers;
    t in timers ==> SetAtStart(cfg, steps, timers[t].commandId, timers[t].due)
  }

  lemma EarlierStays(cfg: Config, steps: seq<Step>, n: nat, k: nat, c: string)
    requires k < n <= |steps|
    ensures StartsAt(cfg, steps[..n], k, c) <==> StartsAt(cfg, steps, k, c)
    ensures TellsAt(cfg, steps[..n], k, c) <==> TellsAt(cfg, steps, k, c)
  {
    assert steps[..n][..k] == steps[..k] && steps[..n][..k + 1] == steps[..k + 1];
  }

  lemma SetAtStartStays(cfg: Config, steps: seq<Step>, n: nat, c: string, due: int)
    requires n <= |steps| && SetAtStart(cfg, steps[..n], c, due)
    ensures SetAtStart(cfg, steps, c, due)
  {
    var k: nat :| StartsAt(cfg, steps[..n], k, c) && due == steps[..n][k].now + 25_000;
    EarlierStays(cfg, steps, n, k, c);
  }

  /** A timer that a step sets is due 25 seconds later, and its command starts to wait at that step. */
  lemma NewTimers(cfg: Config, s: State, now: int, e: Event, t: nat)
    requires Inv(cfg, s) && Safe(cfg) && Enabled(cfg, s, now, e) && t in Next(cfg, s, now, e).service.timers
    ensures var s' := Next(cfg, s, now, e);
            if t in s.service.timers then s'.service.timers[t] == s.service.timers[t]
            else s'.service.timers[t].due == now + 25_000 && StartsToWait(s, s', s'.service.timers[t].commandId)
  {
    if e.Announced? || e.Subscribed? {
      NewWaits(cfg, s, now, e, t);
    } else {
      OldTimers(cfg, s, now, e);
    }
  }

  lemma OldTimers(cfg: Config, s: State, now: int, e: Event)
    requires Enabled(cfg, s, now, e) && !e.Announced? && !e.Subscribed?
    ensures forall t :: t in Next(cfg, s, now, e).service.timers ==>
              t in s.service.timers && Next(cfg, s, now, e).service.timers[t] == s.service.timers[t]
  {
    if e.Post? {
      BeginStoresNothing(cfg, s.service, e.request, e.resolved, now);
    }
  }

  lemma RegisteredWaits(s: State, i: nat, newlySubscribed: bool, t: nat)
    requires i < |s.execs| && s.execs[i].request.commandId in s.service.store && !IsPending(s.service, s.execs[i].request.commandId)
    requires s.service.store[s.execs[i].request.commandId].stateId == s.execs[i].stateId
    requires t in Registered(s, i, newlySubscribed).service.timers && s.service.nextTimer !in s.service.timers
    ensures var s' := Registered(s, i, newlySubscribed);
            if t in s.service.timers then s'.service.timers[t] == s.service.timers[t]
            else s'.service.timers[t].due == s.clock + 25_000 && StartsToWait(s, s', s'.service.timers[t].commandId)
  {
  }

  lemma NotWaitingYet(cfg: Config, s: State, i: nat)
    requires Inv(cfg, s) && ExecIn(s, i, {AnnouncingExecuted, AnnouncingRejected, Registering})
    ensures s.service.nextTimer !in s.service.timers
    ensures var c := s.execs[i].request.commandId;
            && c in s.service.store && !IsPending(s.service, c) && s.service.store[c].stateId == s.execs[i].stateId
            && c in s.files && s.files[c].exec == i
  {
    var c := s.execs[i].request.commandId;
    assert IsListed(s, i) && Good(s, c);
    assert s.service.nextTimer in s.service.timers ==> IsOwned(s.service, s.service.nextTimer);
  }

  lemma NewWaits(cfg: Config, s: State, now: int, e: Event, t: nat)
    requires Inv(cfg, s) && Enabled(cfg, s, now, e) && (e.Announced? || e.Subscribed?)
    requires t in Next(cfg, s, now, e).service.timers
    ensures var s' := Next(cfg, s, now, e);
            if t in s.service.timers then s'.service.timers[t] == s.service.timers[t]
            else s'.service.timers[t].due == now + 25_000 && StartsToWait(s, s', s'.service.timers[t].commandId)
  {
    var s0 := s.(clock := now);
    NotWaitingYet(cfg, s, e.i);
    if e.Subscribed? {
      RegisteredWaits(s0, e.i, e.ok, t);
    } else if s.execs[e.i].phase == AnnouncingExecuted && s.execs[e.i].stateId in s.service.subscribed {
      var c := s.execs[e.i].request.commandId;
      RegisteredWaits(SetFile(s0, c, FileOf(s0, c).(emitted := FileOf(s0, c).emitted + [Executed])), e.i, false, t);
    }
  }

  lemma {:induction false} TimersAreTimed(cfg: Config, steps: seq<Step>, t: nat)
    requires Safe(cfg)
    ensures TimerTimed(cfg, steps, t)
  {
    if steps != [] {
      var n, s, step := |steps| - 1, After(cfg, steps[..|steps| - 1]), steps[|steps| - 1];
      TimersAreTimed(cfg, steps[..n], t);
      InvAlways(cfg, steps[..n]);
      assert steps[..n + 1] == steps;
      if t in After(cfg, steps).service.timers {
        var timer := After(cfg, steps).service.timers[t];
        if Enabled(cfg, s, step.now, step.event) {
          NewTimers(cfg, s, step.now, step.event, t);
        }
        if t in s.service.timers {
          SetAtStartStays(cfg, steps, n, timer.commandId, timer.due);
        } else {
          assert StartsAt(cfg, steps, n, timer.commandId);
        }
      }
    }
  }

  lemma OnlyTimersTimeOut(cfg: Config, s: State, now: int, e: Event, c: string)
    requires Inv(cfg, s) && Enabled(cfg, s, now, e) && TimesOutHere(s, Next(cfg, s, now, e), c)
    ensures e.TimerFired? && s.service.timers[e.t].commandId == c && s.service.timers[e.t].due <= now
  {
    RecordsAreFiled(s);
    if e.TimerFired? {
      TimerFiresForItsCommand(s.service, e.t);
    } else {
      NoneElseTimesOut(cfg, s, now, e, c);
    }
  }

  lemma NoneElseTimesOut(cfg: Config, s: State, now: int, e: Event, c: string)
    requires Enabled(cfg, s, now, e) && IdsOk(s) && !e.TimerFired?
    ensures !TimesOutHere(s, Next(cfg, s, now, e), c)
  {
    if e.Post? {
      BeginStoresNothing(cfg, s.service, e.request, e.resolved, now);
    }
  }

  /** A command is stored as timed out no earlier than 25 seconds after it started to wait. */
  lemma {:induction false} TimesOutAfter25Seconds(cfg: Config, steps: seq<Step>, n: nat, c: string)
    requires Safe(cfg) && TimesOutAt(cfg, steps, n, c)
    ensures exists k: nat :: k < n && StartsAt(cfg, steps, k, c) && steps[n].now - steps[k].now >= 25_000
  {
    var s := After(cfg, steps[..n]);
    InvAlways(cfg, steps[..n]);
    AfterOneMore(cfg, steps, n);
    OnlyTimersTimeOut(cfg, s, steps[n].now, steps[n].event, c);
    var timer := s.service.timers[steps[n].event.t];
    TimersAreTimed(cfg, steps[..n], steps[n].event.t);
    var k: nat :| StartsAt(cfg, steps[..n], k, timer.commandId) && timer.due == steps[..n][k].now + 25_000;
    EarlierStays(cfg, steps, n, k, c);
  }

  // ---- It starts to wait once, and times out from then on --------------------------------------

  ghost predicate HasSettled(s: State, c: string) {
    c in s.files && s.files[c].exec < |s.execs| && s.execs[s.files[c].exec].phase == Settled
  }

  lemma PendingIsSettled(cfg: Config, s: State, c: string)
    requires Inv(cfg, s) && IsPending(s.service, c)
    ensures HasSettled(s, c)
  {
    assert c in s.files && Good(s, c);
  }

  predicate MovesACall(e: Event) {
    e.RecordSaved? || e.WriteDone? || e.Announced? || e.Subscribed? || e.ExecFailed?
  }

  lemma ReadIsOfAnother(cfg: Config, s: State, now: int, e: Event, c: string)
    requires Inv(cfg, s) && e.ObjectRead? && Enabled(cfg, s, now, e) && HasSettled(s, c)
    ensures s.execs[e.i].request.commandId != c
  {
    OwnersFrame(cfg, s, s.(clock := now));
    assert IsAlone(cfg, s.(clock := now), e.i);
    assert HasOwner(s, c);
  }

  lemma SettledStays(cfg: Config, s: State, step: Step, c: string)
    requires Inv(cfg, s) && HasSettled(s, c)
    ensures HasSettled(Try(cfg, s, step), c)
  {
    var e := step.event;
    if Enabled(cfg, s, step.now, e) {
      if e.ObjectRead? {
        ReadIsOfAnother(cfg, s, step.now, e, c);
        assert HasOwner(s, c);
      } else if MovesACall(e) {
        SettledStaysByCall(cfg, s, step.now, e, c);
      } else {
        SettledStaysElse(cfg, s, step.now, e, c);
      }
    }
  }

  lemma SettledStaysByCall(cfg: Config, s: State, now: int, e: Event, c: string)
    requires HasSettled(s, c) && Enabled(cfg, s, now, e) && MovesACall(e)
    ensures HasSettled(Next(cfg, s, now, e), c)
  {
    assert e.i != s.files[c].exec;
  }

  lemma SettledStaysElse(cfg: Config, s: State, now: int, e: Event, c: string)
    requires HasSettled(s, c) && Enabled(cfg, s, now, e) && !e.ObjectRead? && !MovesACall(e)
    ensures HasSettled(Next(cfg, s, now, e), c)
  {
  }

  lemma SettledStartsNoMore(cfg: Config, s: State, step: Step, c: string)
    requires Inv(cfg, s) && HasSettled(s, c) && Safe(cfg)
    ensures !StartsToWait(s, Try(cfg, s, step), c)
  {
    var e := step.event;
    if Enabled(cfg, s, step.now, e) {
      if e.Announced? || e.Subscribed? {
        NotWaitingYet(cfg, s, e.i);
        OtherWaits(cfg, s, step.now, e, c);
      } else if e.ObjectRead? {
        ReadIsOfAnother(cfg, s, step.now, e, c);
      } else if MovesACall(e) {
        assert IsListed(s, e.i);
      } else {
        NothingStarts(cfg, s, step.now, e, c);
      }
    }
  }

  lemma OtherWaits(cfg: Config, s: State, now: int, e: Event, c: string)
    requires Enabled(cfg, s, now, e) && (e.Announced? || e.Subscribed?) && s.execs[e.i].request.commandId != c
    ensures !StartsToWait(s, Next(cfg, s, now, e), c)
  {
  }

  lemma PendingShrinks(cfg: Config, s: State, now: int, e: Event)
    requires Enabled(cfg, s, now, e) && !e.ObjectRead? && !MovesACall(e)
    ensures forall st :: st in Next(cfg, s, now, e).service.pending ==>
              st in s.service.pending && Next(cfg, s, now, e).service.pending[st] == s.service.pending[st]
  {
    if e.Post? {
      BeginStoresNothing(cfg, s.service, e.request, e.resolved, now);
    }
  }

  lemma StateIdStays(cfg: Config, s: State, now: int, e: Event, c: string)
    requires Enabled(cfg, s, now, e) && !e.ObjectRead? && !MovesACall(e) && IdsOk(s) && c in s.service.store
    requires e.StateReread? && e.c == c ==> Good(s, c)
    ensures c in Next(cfg, s, now, e).service.store
    ensures Next(cfg, s, now, e).service.store[c].stateId == s.service.store[c].stateId
  {
    if e.Post? {
      BeginStoresNothing(cfg, s.service, e.request, e.resolved, now);
    }
  }

  lemma NothingStarts(cfg: Config, s: State, now: int, e: Event, c: string)
    requires Inv(cfg, s) && Enabled(cfg, s, now, e) && !e.ObjectRead? && !MovesACall(e) && HasSettled(s, c)
    ensures !StartsToWait(s, Next(cfg, s, now, e), c)
  {
    RecordsAreFiled(s);
    assert Good(s, c);
    PendingShrinks(cfg, s, now, e);
    StateIdStays(cfg, s, now, e, c);
  }

  lemma {:induction false} SettledFrom(cfg: Config, steps: seq<Step>, k: nat, n: nat, c: string)
    requires Safe(cfg) && k < n <= |steps| && StartsAt(cfg, steps, k, c)
    ensures HasSettled(After(cfg, steps[..n]), c)
    decreases n
  {
    if n == k + 1 {
      InvAlways(cfg, steps[..n]);
      PendingIsSettled(cfg, After(cfg, steps[..n]), c);
    } else {
      var m := n - 1;
      SettledFrom(cfg, steps, k, m, c);
      InvAlways(cfg, steps[..m]);
      AfterOneMore(cfg, steps, m);
      SettledStays(cfg, After(cfg, steps[..m]), steps[m], c);
    }
  }

  /** A command starts to wait at one step at most. */
  lemma {:induction false} StartsOnce(cfg: Config, steps: seq<Step>, k: nat, n: nat, c: string)
    requires Safe(cfg) && StartsAt(cfg, steps, k, c) && StartsAt(cfg, steps, n, c)
    ensures k == n
  {
    var a, b := if k < n then k else n, if k < n then n else k;
    if a < b {
      SettledFrom(cfg, steps, a, b, c);
      InvAlways(cfg, steps[..b]);
      AfterOneMore(cfg, steps, b);
      SettledStartsNoMore(cfg, After(cfg, steps[..b]), steps[b], c);
    }
  }

  /** From 25 seconds after it started to wait, and not before, the timer of a command that still waits can
      fire, and then the command is stored as timed out. */
  lemma {:induction false} TimesOutFrom25Seconds(cfg: Config, steps: seq<Step>, k: nat, c: string, now: int) returns (t: nat)
    requires Safe(cfg) && StartsAt(cfg, steps, k, c) && IsPending(After(cfg, steps).service, c) && After(cfg, steps).clock <= now
    ensures var s := After(cfg, steps);
            && (Enabled(cfg, s, now, TimerFired(t)) <==> now - steps[k].now >= 25_000)
            && (Enabled(cfg, s, now, TimerFired(t)) ==> TimesOutHere(s, Next(cfg, s, now, TimerFired(t)), c))
  {
    InvAlways(cfg, steps);
    var s := After(cfg, steps);
    var st := s.service.store[c].stateId;
    t := s.service.pending[st].timer;
    assert OwnsTimer(s.service, st) && c in s.files && Good(s, c);
    TimersAreTimed(cfg, steps, t);
    var j: nat :| StartsAt(cfg, steps, j, c) && s.service.timers[t].due == steps[j].now + 25_000;
    StartsOnce(cfg, steps, k, j, c);
  }

  // ---- The recheck -----------------------------------------------------------------------------

  /** The timeout was announced at some step, and the moment is that long after it. */
  ghost predicate SetAtTelling(cfg: Config, steps: seq<Step>, c: string, due: int) {
    exists k: nat :: TellsAt(cfg, steps, k, c) && due == steps[k].now + 20_000
  }

  ghost predicate WasToldBefore(cfg: Config, steps: seq<Step>, c: string, now: int) {
    exists due :: SetAtTelling(cfg, steps, c, due) && due <= now
  }

  /** An armed recheck is due 20 seconds after the announcement, and one under way has been due. */
  ghost predicate RecheckTimed(cfg: Config, steps: seq<Step>, c: string) {
    var s := After(cfg, steps);
    Runs(s, c) ==>
      && (s.files[c].stage.value.RecheckArmed? ==> SetAtTelling(cfg, steps, c, s.files[c].stage.value.due))
      && (s.files[c].stage.value.Rereading? ==> WasToldBefore(cfg, steps, c, s.clock))
  }

  lemma SetAtTellingStays(cfg: Config, steps: seq<Step>, n: nat, c: string, due: int)
    requires n <= |steps| && SetAtTelling(cfg, steps[..n], c, due)
    ensures SetAtTelling(cfg, steps, c, due)
  {
    var k: nat :| TellsAt(cfg, steps[..n], k, c) && due == steps[..n][k].now + 20_000;
    EarlierStays(cfg, steps, n, k, c);
  }

  /** What one step can do to the recheck of a command. */
  ghost predicate RecheckMovesTo(s: State, t: State, now: int, c: string) {
    Runs(t, c) ==>
      var stage := t.files[c].stage;
      && (stage.value.RecheckArmed? ==>
            (Runs(s, c) && s.files[c].stage == stage) || (stage.value.due == now + 20_000 && TellsOfTimeout(s, t, c)))
      && (stage.value.Rereading? ==>
            Runs(s, c) && (s.files[c].stage == stage || (s.files[c].stage.value.RecheckArmed? && s.files[c].stage.value.due <= now)))
  }

  lemma CallMovesNoRecheck(cfg: Config, s: State, now: int, e: Event, c: string)
    requires Owned(s) && Enabled(cfg, s, now, e) && (e.ObjectRead? || MovesACall(e))
    requires e.ObjectRead? ==> s.execs[e.i].request.commandId !in s.files
    ensures RecheckMovesTo(s, Next(cfg, s, now, e), now, c)
  {
    assert IsListed(s, e.i);
  }

  lemma OutcomeMovesRecheck(cfg: Config, s: State, now: int, e: Event, c: string)
    requires Enabled(cfg, s, now, e) && (e.OutcomeAnnounced? || e.RecheckFired? || e.StateReread? || e.OutcomeFailed?)
    requires e.c in s.files ==> Good(s, e.c)
    ensures RecheckMovesTo(s, Next(cfg, s, now, e), now, c)
  {
  }

  lemma SourceMovesNoRecheck(cfg: Config, s: State, now: int, e: Event, c: string)
    requires Enabled(cfg, s, now, e) && (e.Post? || e.StateChanged? || e.TimerFired?)
    ensures RecheckMovesTo(s, Next(cfg, s, now, e), now, c)
  {
  }

  lemma RecheckMoves(cfg: Config, s: State, now: int, e: Event, c: string)
    requires Inv(cfg, s) && Enabled(cfg, s, now, e)
    ensures RecheckMovesTo(s, Next(cfg, s, now, e), now, c)
  {
    if e.ObjectRead? {
      OwnersFrame(cfg, s, s.(clock := now));
      assert IsAlone(cfg, s.(clock := now), e.i);
      CallMovesNoRecheck(cfg, s, now, e, c);
    } else if MovesACall(e) {
      CallMovesNoRecheck(cfg, s, now, e, c);
    } else if e.Post? || e.StateChanged? || e.TimerFired? {
      SourceMovesNoRecheck(cfg, s, now, e, c);
    } else {
      assert e.c in s.files ==> Good(s, e.c);
      OutcomeMovesRecheck(cfg, s, now, e, c);
    }
  }

  lemma WasToldStays(cfg: Config, steps: seq<Step>, n: nat, c: string, now: int, later: int)
    requires n <= |steps| && now <= later && WasToldBefore(cfg, steps[..n], c, now)
    ensures WasToldBefore(cfg, steps, c, later)
  {
    var due :| SetAtTelling(cfg, steps[..n], c, due) && due <= now;
    SetAtTellingStays(cfg, steps, n, c, due);
  }

  lemma {:induction false} RechecksAreTimed(cfg: Config, steps: seq<Step>, c: string)
    requires Safe(cfg)
    ensures RecheckTimed(cfg, steps, c)
  {
    if steps != [] {
      var n, s, step := |steps| - 1, After(cfg, steps[..|steps| - 1]), steps[|steps| - 1];
      RechecksAreTimed(cfg, steps[..n], c);
      InvAlways(cfg, steps[..n]);
      assert steps[..n + 1] == steps;
      if Enabled(cfg, s, step.now, step.event) {
        RecheckMoves(cfg, s, step.now, step.event, c);
        OneMoreTimed(cfg, steps, c);
      } else if Runs(s, c) {
        StaysTimed(cfg, steps, c);
      }
    }
  }

  // An armed or running recheck stays as it was.
  lemma StaysTimed(cfg: Config, steps: seq<Step>, c: string)
    requires steps != [] && RecheckTimed(cfg, steps[..|steps| - 1], c)
    requires var s := After(cfg, steps[..|steps| - 1]);
             Runs(s, c) && Runs(After(cfg, steps), c) && After(cfg, steps).files[c].stage == s.files[c].stage && s.clock <= After(cfg, steps).clock
    ensures RecheckTimed(cfg, steps, c)
  {
    var n := |steps| - 1;
    var stage := After(cfg, steps).files[c].stage.value;
    if stage.RecheckArmed? {
      SetAtTellingStays(cfg, steps, n, c, stage.due);
    } else if stage.Rereading? {
      WasToldStays(cfg, steps, n, c, After(cfg, steps[..n]).clock, After(cfg, steps).clock);
    }
  }

  lemma OneMoreTimed(cfg: Config, steps: seq<Step>, c: string)
    requires steps != [] && RecheckTimed(cfg, steps[..|steps| - 1], c)
    requires var s, step := After(cfg, steps[..|steps| - 1]), steps[|steps| - 1];
             Enabled(cfg, s, step.now, step.event) && RecheckMovesTo(s, After(cfg, steps), step.now, c)
    ensures RecheckTimed(cfg, steps, c)
  {
    var n, s, s', now := |steps| - 1, After(cfg, steps[..|steps| - 1]), After(cfg, steps), steps[|steps| - 1].now;
    assert steps[..n + 1] == steps;
    ClockIs(cfg, s, steps[n]);
    if Runs(s', c) {
      var stage := s'.files[c].stage.value;
      if Runs(s, c) && s.files[c].stage == s'.files[c].stage {
        StaysTimed(cfg, steps, c);
      } else if stage.RecheckArmed? {
        assert TellsAt(cfg, steps, n, c);
      } else if stage.Rereading? {
        SetAtTellingStays(cfg, steps, n, c, s.files[c].stage.value.due);
      }
    }
  }

  lemma ClockIs(cfg: Config, s: State, step: Step)
    requires Enabled(cfg, s, step.now, step.event)
    ensures Try(cfg, s, step).clock == step.now && s.clock <= step.now
  {
  }

  /** The state of a timed-out command is read again no earlier than 20 seconds after its timeout was
      announced. */
  lemma {:induction false} RereadAfter20Seconds(cfg: Config, steps: seq<Step>, n: nat, c: string)
    requires Safe(cfg) && RereadsAt(cfg, steps, n, c)
    ensures exists k: nat :: k < n && TellsAt(cfg, steps, k, c) && steps[n].now - steps[k].now >= 20_000
  {
    RechecksAreTimed(cfg, steps[..n], c);
    var s := After(cfg, steps[..n]);
    var due :| SetAtTelling(cfg, steps[..n], c, due) && due <= s.clock;
    var k: nat :| TellsAt(cfg, steps[..n], k, c) && due == steps[..n][k].now + 20_000;
    EarlierStays(cfg, steps, n, k, c);
  }

  /** And as soon as that time is over, the recheck can begin. */
  lemma {:induction false} RecheckFrom20Seconds(cfg: Config, steps: seq<Step>, c: string, now: int)
    requires Safe(cfg) && After(cfg, steps).clock <= now
    requires Runs(After(cfg, steps), c) && After(cfg, steps).files[c].stage.value.RecheckArmed?
    ensures exists k: nat :: TellsAt(cfg, steps, k, c)
              && (Enabled(cfg, After(cfg, steps), now, RecheckFired(c)) <==> now - steps[k].now >= 20_000)
  {
    RechecksAreTimed(cfg, steps, c);
    var due := After(cfg, steps).files[c].stage.value.due;
    var k: nat :| TellsAt(cfg, steps, k, c) && due == steps[k].now + 20_000;
  }

  /** The recheck's verdict: the command is confirmed if the value read is the one it asked for, and stays
      timed out otherwise. */
  lemma {:induction false} RecheckDecides(cfg: Config, steps: seq<Step>, c: string, found: Option<Value>, now: int)
    requires Safe(cfg) && Enabled(cfg, After(cfg, steps), now, StateReread(c, found))
    ensures var s := After(cfg, steps);
            var t := Next(cfg, s, now, StateReread(c, found));
            && c in s.service.store && s.service.store[c].status == TimedOut
            && t.service.store == s.service.store[c := s.service.store[c].(
                                    status := if found == Some(s.service.store[c].value) then Confirmed else TimedOut)]
  {
    InvAlways(cfg, steps);
    assert Good(After(cfg, steps), c);
  }
}

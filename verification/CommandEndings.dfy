/** Which executed commands can still end: the exact condition, and runs that reach both ways out of it. */
module CommandEndings {
  import opened Common
  import opened Commands
  import opened CommandRuns
  import opened CommandOwnership
  import opened CommandRecords
  import opened CommandTheorems
  import RL = RateLimiters

  ghost predicate IsExecuted(s: State, c: string) {
    c in s.service.store && s.service.store[c].status == Executed
  }

  /** Nothing is left that could end the command: no wait of its own, or no announcement to start one. */
  ghost predicate IsStuck(s: State, c: string) {
    IsExecuted(s, c) && c in s.files && (s.files[c].superseded || s.files[c].muted)
  }

  lemma StuckHasSettled(cfg: Config, s: State, c: string)
    requires Inv(cfg, s) && IsStuck(s, c)
    ensures s.files[c].exec < |s.execs| && s.execs[s.files[c].exec].phase == Settled
    ensures !Runs(s, c) && forall st :: st in s.service.pending ==> s.service.pending[st].commandId != c
  {
    assert Good(s, c);
    forall st | st in s.service.pending ensures s.service.pending[st].commandId != c {
      assert Waits(s.service, st);
    }
  }

  lemma CallLeavesStuck(cfg: Config, s: State, now: int, e: Event, c: string)
    requires Inv(cfg, s) && IsStuck(s, c) && Enabled(cfg, s, now, e)
    requires e.RecordSaved? || e.WriteDone? || e.Announced? || e.Subscribed? || e.ExecFailed?
    ensures IsStuck(Next(cfg, s, now, e), c)
  {
    StuckHasSettled(cfg, s, c);
    assert IsListed(s, e.i);
  }

  lemma ReadLeavesStuck(cfg: Config, s: State, now: int, e: Event, c: string)
    requires Inv(cfg, s) && IsStuck(s, c) && Enabled(cfg, s, now, e) && e.ObjectRead?
    ensures IsStuck(Next(cfg, s, now, e), c)
  {
    OwnersFrame(cfg, s, s.(clock := now));
    assert IsAlone(cfg, s.(clock := now), e.i);
  }

  lemma OutcomeLeavesStuck(cfg: Config, s: State, now: int, e: Event, c: string)
    requires Inv(cfg, s) && IsStuck(s, c) && Enabled(cfg, s, now, e)
    requires e.OutcomeAnnounced? || e.RecheckFired? || e.StateReread? || e.OutcomeFailed?
    ensures IsStuck(Next(cfg, s, now, e), c)
  {
    StuckHasSettled(cfg, s, c);
    RecordsAreFiled(s);
  }

  lemma HandlerLeavesStuck(cfg: Config, s: State, now: int, e: Event, c: string)
    requires Inv(cfg, s) && IsStuck(s, c) && Enabled(cfg, s, now, e)
    requires e.StateChanged? || e.TimerFired?
    ensures IsStuck(Next(cfg, s, now, e), c)
  {
    StuckHasSettled(cfg, s, c);
    RecordsAreFiled(s);
  }

  lemma PostLeavesStuck(cfg: Config, s: State, now: int, e: Event, c: string)
    requires IsStuck(s, c) && Enabled(cfg, s, now, e) && e.Post?
    ensures IsStuck(Next(cfg, s, now, e), c)
  {
    BeginStoresNothing(cfg, s.service, e.request, e.resolved, now);
  }

  lemma StepLeavesStuck(cfg: Config, s: State, step: Step, c: string)
    requires Inv(cfg, s) && IsStuck(s, c)
    ensures IsStuck(Try(cfg, s, step), c)
  {
    var e := step.event;
    if Enabled(cfg, s, step.now, e) {
      if e.ObjectRead? {
        ReadLeavesStuck(cfg, s, step.now, e, c);
      } else if e.RecordSaved? || e.WriteDone? || e.Announced? || e.Subscribed? || e.ExecFailed? {
        CallLeavesStuck(cfg, s, step.now, e, c);
      } else if e.Post? {
        PostLeavesStuck(cfg, s, step.now, e, c);
      } else if e.StateChanged? || e.TimerFired? {
        HandlerLeavesStuck(cfg, s, step.now, e, c);
      } else {
        OutcomeLeavesStuck(cfg, s, step.now, e, c);
      }
    }
  }

  lemma AfterAppend(cfg: Config, steps: seq<Step>, step: Step)
    ensures After(cfg, steps + [step]) == Try(cfg, After(cfg, steps), step)
  {
    assert (steps + [step])[..|steps|] == steps;
  }

  lemma {:induction false} StuckForEver(cfg: Config, steps: seq<Step>, more: seq<Step>, c: string)
    requires Safe(cfg) && IsStuck(After(cfg, steps), c)
    ensures IsStuck(After(cfg, steps + more), c)
  {
    if more == [] {
      assert steps + more == steps;
    } else {
      var before := more[..|more| - 1];
      StuckForEver(cfg, steps, before, c);
      var last := more[|more| - 1];
      InvAlways(cfg, steps + before);
      StepLeavesStuck(cfg, After(cfg, steps + before), last, c);
      AfterAppend(cfg, steps + before, last);
      assert steps + more == steps + before + [last];
    }
  }

  /** What is still to come for the command, and then the change that confirms it; a step that has
      been taken already cannot happen again. */
  function Ending(s: State, c: string): seq<Step>
    requires c in s.files && c in s.service.store
  {
    var i := s.files[c].exec;
    [Step(s.clock, Announced(i)), Step(s.clock, Subscribed(i, true)),
     Step(s.clock, StateChanged(s.service.store[c].stateId, true, s.service.store[c].value))]
  }

  /** Executed, and its call stands at one of the phases, or it waits already. */
  ghost predicate IsOnItsWay(s: State, c: string, i: nat, record: Record, phases: set<Phase>) {
    && c in s.files && s.files[c].exec == i < |s.execs| && s.execs[i].request.commandId == c && s.execs[i].stateId == record.stateId
    && c in s.service.store && s.service.store[c] == record && record.status == Executed
    && (s.execs[i].phase in phases || IsPending(s.service, c))
  }

  lemma PendingHasSettled(cfg: Config, s: State, c: string)
    requires Inv(cfg, s) && c in s.files && IsPending(s.service, c)
    ensures s.files[c].exec < |s.execs| && s.execs[s.files[c].exec].phase == Settled
  {
    assert Good(s, c);
  }

  lemma AnnouncedGoesOn(cfg: Config, s: State, c: string, i: nat, record: Record)
    requires Inv(cfg, s) && IsOnItsWay(s, c, i, record, {AnnouncingExecuted, Registering})
    ensures var t := Try(cfg, s, Step(s.clock, Announced(i)));
            t.clock == s.clock && IsOnItsWay(t, c, i, record, {Registering})
  {
    if IsPending(s.service, c) {
      PendingHasSettled(cfg, s, c);
    }
  }

  lemma SubscribedGoesOn(cfg: Config, s: State, c: string, i: nat, record: Record)
    requires Inv(cfg, s) && IsOnItsWay(s, c, i, record, {Registering})
    ensures var t := Try(cfg, s, Step(s.clock, Subscribed(i, true)));
            t.clock == s.clock && IsOnItsWay(t, c, i, record, {})
  {
    if IsPending(s.service, c) {
      PendingHasSettled(cfg, s, c);
    }
  }

  lemma ChangeConfirms(cfg: Config, s: State, c: string, i: nat, record: Record)
    requires IsOnItsWay(s, c, i, record, {}) && record.id == c
    ensures !IsExecuted(Try(cfg, s, Step(s.clock, StateChanged(record.stateId, true, record.value))), c)
  {
  }

  lemma EndingEnds(cfg: Config, s: State, c: string)
    requires Safe(cfg) && Inv(cfg, s) && IsExecuted(s, c) && c in s.files && !IsStuck(s, c)
    ensures !IsExecuted(TryAll(cfg, s, Ending(s, c)), c)
  {
    var all, i, record := Ending(s, c), s.files[c].exec, s.service.store[c];
    assert Good(s, c);
    var s1 := Try(cfg, s, all[0]);
    AnnouncedGoesOn(cfg, s, c, i, record);
    StepKeepsInv(cfg, s, all[0]);
    var s2 := Try(cfg, s1, all[1]);
    SubscribedGoesOn(cfg, s1, c, i, record);
    StepKeepsInv(cfg, s1, all[1]);
    ChangeConfirms(cfg, s2, c, i, record);
    TryThree(cfg, s, all);
  }

  lemma TryThree(cfg: Config, s: State, all: seq<Step>)
    requires |all| == 3
    ensures TryAll(cfg, s, all) == Try(cfg, Try(cfg, Try(cfg, s, all[0]), all[1]), all[2])
  {
    assert all[1..][1..] == [all[2]];
    assert [all[2]][1..] == [];
    var s2 := Try(cfg, Try(cfg, s, all[0]), all[1]);
    assert TryAll(cfg, s, all) == TryAll(cfg, s2, [all[2]]) == TryAll(cfg, Try(cfg, s2, all[2]), []);
  }

  ghost predicate StillExecuted(cfg: Config, steps: seq<Step>, more: seq<Step>, c: string) {
    IsExecuted(After(cfg, steps + more), c)
  }

  /** Which executed commands stay executed however the run goes on: exactly those whose wait was taken
      over by a later command to the same state, and those whose announcement was lost. Every other one
      can still be confirmed. */
  lemma {:induction false} StaysExecutedIff(cfg: Config, steps: seq<Step>, c: string)
    requires Safe(cfg) && IsExecuted(After(cfg, steps), c)
    ensures var s := After(cfg, steps);
            && c in s.files
            && ((forall more {:trigger StillExecuted(cfg, steps, more, c)} :: StillExecuted(cfg, steps, more, c))
                <==> s.files[c].superseded || s.files[c].muted)
  {
    var s := After(cfg, steps);
    InvAlways(cfg, steps);
    StoredIsGood(cfg, s, c);
    if IsStuck(s, c) {
      forall more ensures StillExecuted(cfg, steps, more, c) {
        StuckForEver(cfg, steps, more, c);
      }
    } else {
      var more := Ending(s, c);
      EndingEnds(cfg, s, c);
      AfterSplits(cfg, steps + more, |steps|);
      assert (steps + more)[..|steps|] == steps && (steps + more)[|steps|..] == more;
      assert !StillExecuted(cfg, steps, more, c);
    }
  }

  /** A command written successfully at one moment. */
  function Written(r: Request, i: nat, now: int): seq<Step> {
    [Step(now, Post(r, AN_ACCESS)), Step(now, ObjectRead(i, BooleanType)), Step(now, RecordSaved(i)), Step(now, WriteDone(i, true))]
  }

  const ANOTHER_REQUEST := Request("e", "o", Bool(false), "m", true, "d", true)

  /** Two commands to one state: the second takes over the wait of the first. */
  function TakenOver(): seq<Step> {
    var later := RL.WINDOW_MS;
    Written(AN_REQUEST, 0, 0) + [Step(0, Announced(0)), Step(0, Subscribed(0, true))]
    + Written(ANOTHER_REQUEST, 1, later) + [Step(later, Announced(1))]
  }

  /** One command whose announcement fails. */
  function LeftUnsaid(): seq<Step> {
    Written(AN_REQUEST, 0, 0) + [Step(0, ExecFailed(0))]
  }

  ghost predicate IsReadyFor(cfg: Config, s: State, r: Request, now: int) {
    && s.clock <= now && r.commandId !in s.service.store && OneNonce(s, r) && r.value.Bool?
    && (r.deviceId in s.service.limiter ==> now - s.service.limiter[r.deviceId].windowStart >= RL.WINDOW_MS)
    && NonceKey(r) !in s.service.seen
  }

  lemma {:induction false} AfterAppendAll(cfg: Config, steps: seq<Step>, more: seq<Step>)
    ensures After(cfg, steps + more) == TryAll(cfg, After(cfg, steps), more)
  {
    AfterSplits(cfg, steps + more, |steps|);
    assert (steps + more)[..|steps|] == steps && (steps + more)[|steps|..] == more;
  }

  /** From s, the call for r has come as far as the phase. */
  ghost predicate HasReached(s: State, t: State, r: Request, now: int, phase: Phase) {
    && t.clock == now
    && t.execs == s.execs + [Exec(r, "st", AN_ACCESS.permission, if phase == Resolving then OtherType else BooleanType, now, phase)]
    && t.service == s.service.(limiter := t.service.limiter, seen := t.service.seen, store := t.service.store)
    && t.service.limiter == s.service.limiter[r.deviceId := RL.Bucket(1, now)]
    && t.service.seen.Keys <= s.service.seen.Keys + {NonceKey(r)}
    && if phase == Resolving then t.service.store == s.service.store && t.files == s.files else
         && t.service.store == s.service.store[r.commandId := RecordOf(r, "st", if phase == AnnouncingExecuted then Executed else Accepted)]
         && r.commandId in t.files && t.files == s.files[r.commandId := t.files[r.commandId]]
  }

  lemma PostReaches(cfg: Config, s: State, r: Request, now: int)
    requires IsReadyFor(cfg, s, r, now)
    ensures HasReached(s, Try(cfg, s, Step(now, Post(r, AN_ACCESS))), r, now, Resolving)
  {
    BeginStoresNothing(cfg, s.service, r, AN_ACCESS, now);
  }

  lemma ReadReaches(cfg: Config, s: State, t: State, r: Request, now: int)
    requires HasReached(s, t, r, now, Resolving) && r.value.Bool? && 0 <= cfg.maxWaitMs
    ensures HasReached(s, Try(cfg, t, Step(now, ObjectRead(|s.execs|, BooleanType))), r, now, Saving)
  {
    assert IsValid(r.value, BooleanType, AN_ACCESS.permission);
  }

  lemma SaveReaches(cfg: Config, s: State, t: State, r: Request, now: int)
    requires HasReached(s, t, r, now, Saving)
    ensures HasReached(s, Try(cfg, t, Step(now, RecordSaved(|s.execs|))), r, now, Writing)
  {
  }

  lemma WriteReaches(cfg: Config, s: State, t: State, r: Request, now: int)
    requires HasReached(s, t, r, now, Writing)
    ensures HasReached(s, Try(cfg, t, Step(now, WriteDone(|s.execs|, true))), r, now, AnnouncingExecuted)
  {
  }

  lemma WriteOne(cfg: Config, s: State, r: Request, now: int)
    requires IsReadyFor(cfg, s, r, now) && 0 <= cfg.maxWaitMs
    ensures HasReached(s, TryAll(cfg, s, Written(r, |s.execs|, now)), r, now, AnnouncingExecuted)
  {
    var all := Written(r, |s.execs|, now);
    var s1 := Try(cfg, s, all[0]);
    PostReaches(cfg, s, r, now);
    var s2 := Try(cfg, s1, all[1]);
    ReadReaches(cfg, s, s1, r, now);
    var s3 := Try(cfg, s2, all[2]);
    SaveReaches(cfg, s, s2, r, now);
    WriteReaches(cfg, s, s3, r, now);
    assert all[1..] == [all[1], all[2], all[3]];
    TryThree(cfg, s1, all[1..]);
  }

  lemma RegisteringTakesOver(cfg: Config, s: State, i: nat, now: int, c: string)
    requires s.clock <= now && ExecIn(s, i, {AnnouncingExecuted}) && s.execs[i].stateId in s.service.subscribed
    requires s.execs[i].stateId in s.service.pending && s.service.pending[s.execs[i].stateId].commandId == c
    ensures var t := Try(cfg, s, Step(now, Announced(i)));
            c in t.files && t.files[c].superseded && t.service.store == s.service.store
  {
  }

  lemma FirstWritten(cfg: Config)
    requires 0 <= cfg.maxWaitMs
    ensures HasReached(START, After(cfg, Written(AN_REQUEST, 0, 0)), AN_REQUEST, 0, AnnouncingExecuted)
  {
    var start := Written(AN_REQUEST, 0, 0);
    WriteOne(cfg, START, AN_REQUEST, 0);
    AfterAppendAll(cfg, [], start);
    assert [] + start == start;
  }

  lemma FirstRegisters(cfg: Config, s: State)
    requires HasReached(START, s, AN_REQUEST, 0, AnnouncingExecuted)
    ensures var t := Try(cfg, Try(cfg, s, Step(0, Announced(0))), Step(0, Subscribed(0, true)));
            && IsExecuted(t, "c") && IsPending(t.service, "c") && t.service.store["c"].stateId == "st" && "st" in t.service.subscribed
            && IsReadyFor(cfg, t, ANOTHER_REQUEST, RL.WINDOW_MS) && |t.execs| == 1
  {
    assert NonceKey(AN_REQUEST)[2] != NonceKey(ANOTHER_REQUEST)[2];
  }

  /** After the first command of TakenOver. */
  lemma FirstWaits(cfg: Config)
    requires 0 <= cfg.maxWaitMs
    ensures var s := After(cfg, Written(AN_REQUEST, 0, 0) + [Step(0, Announced(0)), Step(0, Subscribed(0, true))]);
            && IsExecuted(s, "c") && IsPending(s.service, "c") && s.service.store["c"].stateId == "st" && "st" in s.service.subscribed
            && IsReadyFor(cfg, s, ANOTHER_REQUEST, RL.WINDOW_MS) && |s.execs| == 1
  {
    var start := Written(AN_REQUEST, 0, 0);
    FirstWritten(cfg);
    AfterAppend(cfg, start, Step(0, Announced(0)));
    FirstRegisters(cfg, After(cfg, start));
    AfterAppend(cfg, start + [Step(0, Announced(0))], Step(0, Subscribed(0, true)));
    assert start + [Step(0, Announced(0))] + [Step(0, Subscribed(0, true))] == start + [Step(0, Announced(0)), Step(0, Subscribed(0, true))];
  }

  /** The first way to stay executed is taken by a run. */
  lemma SupersededIsReached(cfg: Config)
    requires 0 <= cfg.maxWaitMs
    ensures var s := After(cfg, TakenOver());
            IsExecuted(s, "c") && "c" in s.files && s.files["c"].superseded
  {
    var later := RL.WINDOW_MS;
    var waiting := Written(AN_REQUEST, 0, 0) + [Step(0, Announced(0)), Step(0, Subscribed(0, true))];
    var s := After(cfg, waiting);
    FirstWaits(cfg);
    var second := Written(ANOTHER_REQUEST, 1, later);
    WriteOne(cfg, s, ANOTHER_REQUEST, later);
    AfterAppendAll(cfg, waiting, second);
    RegisteringTakesOver(cfg, After(cfg, waiting + second), 1, later, "c");
    AfterAppend(cfg, waiting + second, Step(later, Announced(1)));
  }

  /** And so is the second. */
  lemma AnnouncementLostIsReached(cfg: Config)
    requires 0 <= cfg.maxWaitMs
    ensures var s := After(cfg, LeftUnsaid());
            IsExecuted(s, "c") && "c" in s.files && s.files["c"].muted
  {
    FirstWritten(cfg);
    AfterAppend(cfg, Written(AN_REQUEST, 0, 0), Step(0, ExecFailed(0)));
  }
}

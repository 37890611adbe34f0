/** What holds after every run of the command service. */
module CommandTheorems {
  import opened Common
  import opened Commands
  import opened CommandRuns
  import opened CommandOwnership
  import opened CommandRecords
  import opened CommandTimers
  import RL = RateLimiters

  ghost predicate Inv(cfg: Config, s: State) {
    OwnersOk(cfg, s) && RecordsOk(s) && TimersOk(s.service) && WritesOk(s)
  }

  lemma StepKeepsInv(cfg: Config, s: State, step: Step)
    requires Inv(cfg, s) && Safe(cfg)
    ensures Inv(cfg, Try(cfg, s, step))
  {
    if Enabled(cfg, s, step.now, step.event) {
      RecordsAreFiled(s);
      StepKeepsOwners(cfg, s, step.now, step.event);
      StepKeepsRecords(cfg, s, step.now, step.event);
      StepKeepsTimers(cfg, s, step.now, step.event);
      StepKeepsWrites(cfg, s, step.now, step.event);
    }
  }

  lemma {:induction false} InvAlways(cfg: Config, steps: seq<Step>)
    requires Safe(cfg)
    ensures Inv(cfg, After(cfg, steps))
  {
    if steps != [] {
      InvAlways(cfg, steps[..|steps| - 1]);
      StepKeepsInv(cfg, After(cfg, steps[..|steps| - 1]), steps[|steps| - 1]);
    }
  }

  // ---- At most one write for each command --------------------------------------------------

  ghost predicate OneWriteEach(s: State) {
    forall a, b :: 0 <= a < b < |s.writes| ==> s.writes[a].commandId != s.writes[b].commandId
  }

  lemma {:induction false} OneWritePerCommand(cfg: Config, steps: seq<Step>)
    requires Safe(cfg)
    ensures OneWriteEach(After(cfg, steps))
  {
    InvAlways(cfg, steps);
    InvGivesOneWriteEach(cfg, After(cfg, steps));
  }

  lemma WriteIsItsCalls(cfg: Config, s: State, a: nat)
    requires Inv(cfg, s) && a < |s.writes|
    ensures s.writes[a].exec < |s.execs|
    ensures var e := s.execs[s.writes[a].exec];
            s.writes[a] == Write(s.writes[a].exec, e.request.commandId, e.stateId, e.request.value)
  {
    assert IsIssued(s, a);
  }

  lemma InvGivesOneWriteEach(cfg: Config, s: State)
    requires Inv(cfg, s)
    ensures OneWriteEach(s)
  {
    forall a, b | 0 <= a < b < |s.writes| ensures s.writes[a].commandId != s.writes[b].commandId {
      assert IsIssued(s, a) && IsIssued(s, b) && DifferentCalls(s, a, b);
      assert IsListed(s, s.writes[a].exec) && IsListed(s, s.writes[b].exec);
    }
  }

  const AN_REQUEST := Request("c", "o", Bool(true), "n", true, "d", true)
  const AN_ACCESS := Access("st", Permission(None, None, None, None, false, NoConfirmation))

  /** The first moment at which neither the nonce nor the limiter stops a second copy. */
  function Late(cfg: Config): int {
    if cfg.limit <= 1 && cfg.replayTtlMs < RL.WINDOW_MS then RL.WINDOW_MS else cfg.replayTtlMs + 1
  }

  /** The same request is delivered again just after its nonce has expired, while the first copy is
      still waiting for the object. */
  function LateDuplicate(cfg: Config): seq<Step> {
    var late := Late(cfg);
    [Step(0, Post(AN_REQUEST, AN_ACCESS)), Step(late, Post(AN_REQUEST, AN_ACCESS)),
     Step(late, ObjectRead(0, BooleanType)), Step(late, ObjectRead(1, BooleanType)),
     Step(late, RecordSaved(0)), Step(late, RecordSaved(1))]
  }

  lemma AfterOneMore(cfg: Config, steps: seq<Step>, n: nat)
    requires n < |steps|
    ensures After(cfg, steps[..n + 1]) == Try(cfg, After(cfg, steps[..n]), steps[n])
  {
    assert steps[..n + 1][..n] == steps[..n];
  }

  lemma TwoPosts(cfg: Config) returns (s: State)
    ensures s == After(cfg, LateDuplicate(cfg)[..2])
    ensures |s.execs| == 2 && s.clock == Late(cfg) && s.writes == [] && s.service.store == map[]
    ensures forall i :: 0 <= i < 2 ==>
      s.execs[i] == Exec(AN_REQUEST, "st", AN_ACCESS.permission, OtherType, if i == 0 then 0 else Late(cfg), Resolving)
  {
    var steps := LateDuplicate(cfg);
    assert steps[..0] == [];
    AfterOneMore(cfg, steps, 0);
    var s1 := After(cfg, steps[..1]);
    assert s1.service.seen == map[NonceKey(AN_REQUEST) := cfg.replayTtlMs];
    assert s1.service.limiter == map["d" := RL.Bucket(1, 0)];
    AfterOneMore(cfg, steps, 1);
    s := After(cfg, steps[..2]);
  }

  lemma ReadOne(cfg: Config, s: State, i: nat, now: int)
    requires s.clock <= now && i < |s.execs| && s.execs[i].request == AN_REQUEST && s.execs[i].permission == AN_ACCESS.permission
    requires s.execs[i].phase == Resolving && now <= s.execs[i].checkedAt + cfg.maxWaitMs
    ensures var t := Try(cfg, s, Step(now, ObjectRead(i, BooleanType)));
            && t.clock == now && t.writes == s.writes && t.execs == s.execs[i := s.execs[i].(expected := BooleanType, phase := Saving)]
  {
    assert IsValid(AN_REQUEST.value, BooleanType, AN_ACCESS.permission);
  }

  lemma SaveOne(cfg: Config, s: State, i: nat, now: int)
    requires s.clock <= now && i < |s.execs| && s.execs[i].phase == Saving
    ensures var t := Try(cfg, s, Step(now, RecordSaved(i)));
            && t.clock == now && t.execs == s.execs[i := s.execs[i].(phase := Writing)]
            && t.writes == s.writes + [Write(i, s.execs[i].request.commandId, s.execs[i].stateId, s.execs[i].request.value)]
  {
  }

  ghost function TryAll(cfg: Config, s: State, steps: seq<Step>): State
    decreases |steps|
  {
    if steps == [] then s else TryAll(cfg, Try(cfg, s, steps[0]), steps[1..])
  }

  lemma {:induction false} AfterSplits(cfg: Config, steps: seq<Step>, n: nat)
    requires n <= |steps|
    ensures After(cfg, steps) == TryAll(cfg, After(cfg, steps[..n]), steps[n..])
    decreases |steps| - n
  {
    if n < |steps| {
      AfterSplits(cfg, steps, n + 1);
      AfterOneMore(cfg, steps, n);
      assert steps[n..][1..] == steps[n + 1..];
    } else {
      assert steps[..n] == steps;
    }
  }

  lemma BothGoOn(cfg: Config, s2: State, rest: seq<Step>, late: int)
    requires s2.clock == late && |s2.execs| == 2 && s2.writes == []
    requires rest == [Step(late, ObjectRead(0, BooleanType)), Step(late, ObjectRead(1, BooleanType)), Step(late, RecordSaved(0)), Step(late, RecordSaved(1))]
    requires forall i :: 0 <= i < 2 ==>
      && s2.execs[i].request == AN_REQUEST && s2.execs[i].permission == AN_ACCESS.permission
      && s2.execs[i].phase == Resolving && late <= s2.execs[i].checkedAt + cfg.maxWaitMs
    ensures !OneWriteEach(TryAll(cfg, s2, rest))
  {
    var s3 := Try(cfg, s2, rest[0]);
    ReadOne(cfg, s2, 0, late);
    assert rest[1..][0] == rest[1];
    var s4 := Try(cfg, s3, rest[1]);
    ReadOne(cfg, s3, 1, late);
    assert rest[1..][1..] == [rest[2], rest[3]];
    var s5 := Try(cfg, s4, rest[2]);
    SaveOne(cfg, s4, 0, late);
    assert [rest[2], rest[3]][1..] == [rest[3]];
    var s6 := Try(cfg, s5, rest[3]);
    SaveOne(cfg, s5, 1, late);
    assert [rest[3]][1..] == [];
    assert TryAll(cfg, s4, [rest[2], rest[3]]) == TryAll(cfg, s5, [rest[3]]) == s6;
    assert s6.writes[0].commandId == s6.writes[1].commandId;
  }

  lemma LateDuplicateWritesTwice(cfg: Config)
    requires !Safe(cfg)
    ensures !OneWriteEach(After(cfg, LateDuplicate(cfg)))
  {
    var late := Late(cfg);
    var s2 := TwoPosts(cfg);
    AfterSplits(cfg, LateDuplicate(cfg), 2);
    RestOfLateDuplicate(cfg);
    forall i | 0 <= i < 2 ensures s2.execs[i].checkedAt <= late <= s2.execs[i].checkedAt + cfg.maxWaitMs {}
    BothGoOn(cfg, s2, LateDuplicate(cfg)[2..], late);
  }

  lemma RestOfLateDuplicate(cfg: Config)
    ensures var late := Late(cfg);
      LateDuplicate(cfg)[2..] == [Step(late, ObjectRead(0, BooleanType)), Step(late, ObjectRead(1, BooleanType)),
                                  Step(late, RecordSaved(0)), Step(late, RecordSaved(1))]
  {
  }

  /** Exactly when a command id never causes two writes, in any run with duplicated deliveries: when no
      execute call may be suspended before storing its record for longer than its nonce lives, or the
      limit is at most one and it is never suspended for a whole window. */
  lemma OneWriteIff(cfg: Config)
    ensures Safe(cfg) <==> forall steps :: OneWriteEach(After(cfg, steps))
  {
    if Safe(cfg) {
      forall steps ensures OneWriteEach(After(cfg, steps)) {
        OneWritePerCommand(cfg, steps);
      }
    } else {
      LateDuplicateWritesTwice(cfg);
    }
  }

  /** Every write ever issued carries the value and goes to the state of a request that had passed the
      policy, not blocked on mobile, local where it must be, confirmed where it must be, and whose value is
      a scalar of the state's type, in the range, on a step and allowed. */
  lemma {:induction false} WritesAreAuthorized(cfg: Config, steps: seq<Step>, a: nat)
    requires Safe(cfg) && a < |After(cfg, steps).writes|
    ensures var s := After(cfg, steps);
            var w := s.writes[a];
            && w.exec < |s.execs|
            && var e := s.execs[w.exec];
            && w.commandId == e.request.commandId && w.value == e.request.value && w.stateId == e.stateId
            && e.permission.policy != BlockedOnMobile
            && (e.permission.localOnly ==> e.request.isLocal)
            && (e.permission.policy in {Dialog, Biometric, Reauthenticate} ==> e.request.confirmed)
            && (w.value.Bool? || w.value.Num? || w.value.Str?)
            && (e.expected == BooleanType ==> w.value.Bool?)
            && (e.expected == NumberType ==> w.value.Num?)
            && (e.expected == StringType ==> w.value.Str?)
            && (w.value.Num? && e.permission.min.Some? ==> e.permission.min.value <= w.value.n)
            && (w.value.Num? && e.permission.max.Some? ==> w.value.n <= e.permission.max.value)
            && (w.value.Num? && e.permission.min.Some? && e.permission.step.Some? && e.permission.step.value > 0.0 ==>
                  exists k: int :: OnGrid(w.value.n, e.permission.min.value, e.permission.step.value, k))
            && (e.permission.allowedValues.Some? ==> w.value in e.permission.allowedValues.value)
  {
    InvAlways(cfg, steps);
    var s := After(cfg, steps);
    assert IsIssued(s, a) && IsCleared(s, s.writes[a].exec);
    var e := s.execs[s.writes[a].exec];
    ValueCheckMeans(s.writes[a].value, e.expected, e.permission);
  }

  // ---- The lifecycle of a command ----------------------------------------------------------

  predicate IsLifecycle(h: seq<Status>) {
    || h == [Accepted] || h == [Accepted, Rejected] || h == [Accepted, Executed]
    || h == [Accepted, Executed, Confirmed] || h == [Accepted, Executed, TimedOut] || h == [Accepted, Executed, TimedOut, Confirmed]
  }

  /** A commandResult event for the command's latest status is still to be emitted. */
  predicate IsAnnouncing(phase: Phase, stage: Option<Stage>) {
    phase == AnnouncingExecuted || phase == AnnouncingRejected || stage == Some(AnnouncingTimeout) || stage == Some(AnnouncingConfirmed)
  }

  /** The events emitted are the history without its first status, and without its last if `untold`. */
  predicate Told(file: File, untold: bool) {
    if untold then |file.history| >= 2 && file.emitted == file.history[1..|file.history| - 1]
    else |file.history| >= 1 && file.emitted == file.history[1..]
  }

  lemma GoodTells(s: State, c: string)
    requires Good(s, c)
    ensures var file := s.files[c];
            && IsLifecycle(file.history) && |file.history| > 0
            && file.history[|file.history| - 1] == s.service.store[c].status
            && Told(file, IsAnnouncing(s.execs[file.exec].phase, file.stage) || file.muted)
  {
  }

  lemma StoredIsGood(cfg: Config, s: State, c: string)
    requires Inv(cfg, s) && c in s.service.store
    ensures Good(s, c)
  {
    RecordsAreFiled(s);
    assert c in s.files;
  }

  /** The statuses ever stored for a command are one of the six lifecycles, ending in its present
      status; the events emitted for it are that history from executed or rejected onward, without
      the last exactly while its announcement is outstanding or when it was lost to a failure. */
  lemma {:induction false} EmittedIsHistory(cfg: Config, steps: seq<Step>, c: string)
    requires Safe(cfg) && c in After(cfg, steps).service.store
    ensures var s := After(cfg, steps);
            && c in s.files && s.files[c].exec < |s.execs|
            && var file := s.files[c];
            && IsLifecycle(file.history)
            && file.history[|file.history| - 1] == s.service.store[c].status
            && Told(file, IsAnnouncing(s.execs[file.exec].phase, file.stage) || file.muted)
  {
    InvAlways(cfg, steps);
    StoredIsGood(cfg, After(cfg, steps), c);
    GoodTells(After(cfg, steps), c);
  }

  predicate MayMove(from: Status, to: Status) {
    || from == to
    || (from == Accepted && (to == Executed || to == Rejected))
    || (from == Executed && (to == Confirmed || to == TimedOut))
    || (from == TimedOut && to == Confirmed)
  }

  lemma OneStepHistory(cfg: Config, s: State, now: int, e: Event, c: string)
    requires RecordsOk(s) && OwnersOk(cfg, s) && Enabled(cfg, s, now, e) && c in s.files
    ensures var t := Next(cfg, s, now, e);
            c in t.files && (t.files[c].history == s.files[c].history
                             || (|t.files[c].history| == |s.files[c].history| + 1 && s.files[c].history <= t.files[c].history))
  {
    if e.ObjectRead? {
      assert IsAlone(cfg, s, e.i);
    }
  }

  /** One more step of any run: no command is forgotten, and its status moves only along the lifecycle. */
  lemma {:induction false} StatusesOnlyMoveForward(cfg: Config, steps: seq<Step>, step: Step, c: string)
    requires Safe(cfg) && c in After(cfg, steps).service.store
    ensures c in After(cfg, steps + [step]).service.store
    ensures MayMove(After(cfg, steps).service.store[c].status, After(cfg, steps + [step]).service.store[c].status)
  {
    assert (steps + [step])[..|steps|] == steps;
    var s, t := After(cfg, steps), After(cfg, steps + [step]);
    InvAlways(cfg, steps);
    InvAlways(cfg, steps + [step]);
    if Enabled(cfg, s, step.now, step.event) {
      OneStepHistory(cfg, s, step.now, step.event, c);
    }
    EmittedIsHistory(cfg, steps, c);
    EmittedIsHistory(cfg, steps + [step], c);
  }

  predicate WasSeen(s: State, k: int, since: nat, fact: Observation) {
    since <= k < |s.observed| && s.observed[k] == fact
  }

  /** A confirmed command that never timed out was confirmed by an acknowledged change of its own state
      to its value after it had been executed; one that timed out, by reading that value there. */
  lemma {:induction false} ConfirmedWasObserved(cfg: Config, steps: seq<Step>, c: string)
    requires Safe(cfg)
    requires c in After(cfg, steps).service.store && After(cfg, steps).service.store[c].status == Confirmed
    ensures var s := After(cfg, steps);
            var record := s.service.store[c];
            && c in s.files
            && if TimedOut in s.files[c].history then
                 exists k :: WasSeen(s, k, s.files[c].executedAt, Reread(record.stateId, Some(record.value)))
               else
                 exists k :: WasSeen(s, k, s.files[c].executedAt, Changed(record.stateId, true, record.value))
  {
    InvAlways(cfg, steps);
    var s := After(cfg, steps);
    assert Good(s, c);
    assert WasSeen(s, s.files[c].confirmedBy, s.files[c].executedAt, ConfirmingFact(s.service.store[c], TimedOut in s.files[c].history));
  }

  /** A stored command says what was asked: of which object and device, for which state and value. */
  lemma {:induction false} RecordsSayWhatWasAsked(cfg: Config, steps: seq<Step>, c: string)
    requires Safe(cfg) && c in After(cfg, steps).service.store
    ensures var s := After(cfg, steps);
            && c in s.files && s.files[c].exec < |s.execs|
            && var e := s.execs[s.files[c].exec];
            && e.request.commandId == c
            && s.service.store[c] == Record(c, e.request.objectId, e.stateId, e.request.deviceId, e.request.value, s.service.store[c].status)
  {
    InvAlways(cfg, steps);
    StoredIsGood(cfg, After(cfg, steps), c);
  }

  /** The record tells whether the write succeeded. */
  lemma {:induction false} WriteDecides(cfg: Config, steps: seq<Step>, i: nat, ok: bool, now: int)
    requires Safe(cfg) && Enabled(cfg, After(cfg, steps), now, WriteDone(i, ok))
    ensures var s := After(cfg, steps).service;
            var c := After(cfg, steps).execs[i].request.commandId;
            && c in s.store && s.store[c].status == Accepted
            && Next(cfg, After(cfg, steps), now, WriteDone(i, ok)).service.store
               == s.store[c := s.store[c].(status := if ok then Executed else Rejected)]
  {
    InvAlways(cfg, steps);
    var s := After(cfg, steps);
    assert IsListed(s, i) && Good(s, s.execs[i].request.commandId);
  }

  /** What a change of its state does to a command that waits: an acknowledged one to its value confirms it
      and ends its wait and its timer, any other leaves it waiting. */
  lemma {:induction false} ChangeDecides(cfg: Config, steps: seq<Step>, st: string, ack: bool, val: Value, now: int)
    requires Safe(cfg) && st in After(cfg, steps).service.pending && After(cfg, steps).clock <= now
    ensures var s := After(cfg, steps).service;
            var t := Next(cfg, After(cfg, steps), now, StateChanged(st, ack, val)).service;
            var c := s.pending[st].commandId;
            && c in s.store
            && if ack && val == s.store[c].value then
                 t == s.(store := s.store[c := s.store[c].(status := Confirmed)], pending := s.pending - {st},
                         timers := s.timers - {s.pending[st].timer})
               else t == s
  {
    InvAlways(cfg, steps);
    RecordsAreFiled(After(cfg, steps));
    PendingOwnsItsTimer(cfg, steps);
  }

  // ---- Pending commands and timers ---------------------------------------------------------

  /** Each pending entry names an executed command of that very state and owns a live timer set for
      it; each live timer is owned by one. So a timer only ever times out the command it was set for. */
  lemma {:induction false} PendingOwnsItsTimer(cfg: Config, steps: seq<Step>)
    requires Safe(cfg)
    ensures var s := After(cfg, steps).service;
            && (forall st :: st in s.pending ==>
                  && s.pending[st].commandId in s.store
                  && s.store[s.pending[st].commandId].status == Executed && s.store[s.pending[st].commandId].stateId == st
                  && s.pending[st].timer in s.timers && s.timers[s.pending[st].timer].commandId == s.pending[st].commandId)
            && (forall t :: t in s.timers ==>
                  && s.timers[t].stateId in s.pending && s.pending[s.timers[t].stateId].timer == t
                  && s.pending[s.timers[t].stateId].commandId == s.timers[t].commandId
                  && TimesOut(s, s.timers[t].stateId))
  {
    InvAlways(cfg, steps);
    var state := After(cfg, steps);
    var s := state.service;
    forall st | st in s.pending
      ensures Waits(s, st) && s.store[s.pending[st].commandId].status == Executed && OwnsTimer(s, st)
    {
      assert Waits(s, st) && Good(state, s.pending[st].commandId) && OwnsTimer(s, st);
    }
    forall t | t in s.timers ensures IsOwned(s, t) && s.pending[s.timers[t].stateId].commandId == s.timers[t].commandId {
      assert IsOwned(s, t) && OwnsTimer(s, s.timers[t].stateId);
    }
  }

  datatype Place = BeingAnnounced | BeingRegistered | OnThePendingTable | Superseded | AnnouncementLost

  ghost predicate IsAt(s: State, c: string, place: Place)
    requires c in s.files && s.files[c].exec < |s.execs|
  {
    match place
    case BeingAnnounced => s.execs[s.files[c].exec].phase == AnnouncingExecuted
    case BeingRegistered => s.execs[s.files[c].exec].phase == Registering
    case OnThePendingTable => IsPending(s.service, c)
    case Superseded => s.files[c].superseded
    case AnnouncementLost => s.files[c].muted
  }

  /** An executed command is in exactly one place: on its way to the pending table, on it, pushed off
      it by a later command to the same state, or left behind by a failed announcement. */
  lemma {:induction false} ExecutedIsInOnePlace(cfg: Config, steps: seq<Step>, c: string)
    requires Safe(cfg)
    requires c in After(cfg, steps).service.store && After(cfg, steps).service.store[c].status == Executed
    ensures var s := After(cfg, steps);
            && c in s.files && s.files[c].exec < |s.execs|
            && exists place :: IsAt(s, c, place) && forall other :: IsAt(s, c, other) ==> other == place
  {
    InvAlways(cfg, steps);
    var s := After(cfg, steps);
    assert Good(s, c);
    var phase := s.execs[s.files[c].exec].phase;
    var place := if phase == AnnouncingExecuted then BeingAnnounced else if phase == Registering then BeingRegistered
                 else if IsPending(s.service, c) then OnThePendingTable else if s.files[c].superseded then Superseded else AnnouncementLost;
    assert IsAt(s, c, place);
  }
}

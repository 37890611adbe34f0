/** Every interleaving of the command service: any number of calls to execute in flight at once, state
    changes, timers and rechecks between any two of their stretches, and any awaited call failing.

    A State is the service object, the suspended calls (their local variables) and a log of what has
    happened. A step is one stretch, at one clock reading. */
module CommandRuns {
  import opened Common
  import opened Commands
  import RL = RateLimiters

  /** maxWaitMs is how long an execute may be suspended between its nonce check and its first put. */
  datatype Config = Config(limit: int, replayTtlMs: nat, maxWaitMs: int)

  /** A call that waits to store its record still bars the other copies of its request: either its nonce
      is remembered for as long as it may wait, or the device's one call per window is spent as long. */
  predicate Safe(cfg: Config) {
    cfg.maxWaitMs <= cfg.replayTtlMs || (cfg.limit <= 1 && cfg.maxWaitMs < RL.WINDOW_MS)
  }

  /** Where a call to execute stands. */
  datatype Phase =
    | Resolving           // waiting for the object
    | Unstored            // ended with no record
    | Saving              // record accepted, waiting for it to be persisted and audited
    | Stopped             // ended after accepting, before the write
    | Writing             // write issued
    | AnnouncingExecuted  // written, record stored, not yet emitted
    | AnnouncingRejected  // write failed, record stored, not yet emitted
    | Closed              // rejected and done
    | Registering         // emitted, waiting for the state subscription
    | Settled             // done after a successful write

  datatype Exec = Exec(request: Request, stateId: string, permission: Permission, expected: ValueType, checkedAt: int, phase: Phase)

  /** What is still running for a command after its execute call has returned. */
  datatype Stage = AnnouncingTimeout | RecheckArmed(due: int) | Rereading(captured: Record) | AnnouncingConfirmed

  datatype Write = Write(exec: nat, commandId: string, stateId: string, value: Value)

  /** A state change the source reported, or what reading the state again gave. */
  datatype Observation =
    | Changed(stateId: string, ack: bool, val: Value)
    | Reread(stateId: string, found: Option<Value>)

  /** All that has happened to one command since it was first stored. */
  datatype File = File(
    exec: nat,               // the execute call that stored it
    stage: Option<Stage>,    // what is still running for it
    history: seq<Status>,    // the statuses stored
    emitted: seq<Status>,    // the commandResult events
    executedAt: nat,         // |observed| when it became executed
    confirmedBy: nat,        // index of the observation that confirmed it
    superseded: bool,        // its pending wait was replaced by another command's
    muted: bool)             // its last announcement was lost to a failure

  const BLANK := File(0, None, [], [], 0, 0, false, false)

  datatype State = State(
    clock: int, service: Service, execs: seq<Exec>, files: map<string, File>,
    writes: seq<Write>, observed: seq<Observation>)

  const START := State(0, Service(map[], map[], map[], map[], {}, map[], 0), [], map[], [], [])

  datatype Event =
    | Post(request: Request, resolved: Resolved)
    | ObjectRead(i: nat, expected: ValueType)
    | RecordSaved(i: nat)
    | WriteDone(i: nat, ok: bool)
    | Announced(i: nat)
    | Subscribed(i: nat, ok: bool)
    | ExecFailed(i: nat)
    | StateChanged(stateId: string, ack: bool, val: Value)
    | TimerFired(t: nat)
    | OutcomeAnnounced(c: string)
    | RecheckFired(c: string)
    | StateReread(c: string, found: Option<Value>)
    | OutcomeFailed(c: string)

  // ---- Steps -------------------------------------------------------------------------------

  function FileOf(s: State, c: string): File {
    if c in s.files then s.files[c] else BLANK
  }

  function SetPhase(s: State, i: nat, phase: Phase): State
    requires i < |s.execs|
  {
    s.(execs := s.execs[i := s.execs[i].(phase := phase)])
  }

  function SetFile(s: State, c: string, file: File): State {
    s.(files := s.files[c := file])
  }

  function AfterPost(cfg: Config, s: State, r: Request, resolved: Resolved): State {
    var begun := Begin(s.service, cfg.limit, cfg.replayTtlMs, r, resolved, s.clock);
    var s1 := s.(service := begun.service);
    if begun.answer.Continue? then
      s1.(execs := s.execs + [Exec(r, begun.answer.stateId, begun.answer.permission, OtherType, s.clock, Resolving)])
    else s1
  }

  function AfterObjectRead(s: State, i: nat, expected: ValueType): State
    requires i < |s.execs|
  {
    var e := s.execs[i];
    if !IsValid(e.request.value, expected, e.permission) then SetPhase(s, i, Unstored) else
      var file := FileOf(s, e.request.commandId);
      SetFile(s, e.request.commandId, file.(exec := i, history := file.history + [Accepted])).(
        execs := s.execs[i := e.(expected := expected, phase := Saving)],
        service := Put(s.service, RecordOf(e.request, e.stateId, Accepted)))
  }

  function AfterRecordSaved(s: State, i: nat): State
    requires i < |s.execs|
  {
    var e := s.execs[i];
    SetPhase(s, i, Writing).(writes := s.writes + [Write(i, e.request.commandId, e.stateId, e.request.value)])
  }

  function AfterWriteDone(s: State, i: nat, ok: bool): State
    requires i < |s.execs|
  {
    var e := s.execs[i];
    var file := FileOf(s, e.request.commandId);
    var status := if ok then Executed else Rejected;
    SetFile(SetPhase(s, i, if ok then AnnouncingExecuted else AnnouncingRejected), e.request.commandId,
            file.(history := file.history + [status], executedAt := |s.observed|)).(
      service := Put(s.service, RecordOf(e.request, e.stateId, status)))
  }

  /** awaitConfirmation's second half: the wait it replaces, if any, is given up. */
  function Registered(s: State, i: nat, newlySubscribed: bool): State
    requires i < |s.execs|
  {
    var e := s.execs[i];
    var subscribed := s.service.subscribed + if newlySubscribed then {e.stateId} else {};
    var s1 := SetPhase(s, i, Settled).(
      service := Register(s.service.(subscribed := subscribed), e.stateId, e.request.commandId, s.clock));
    if e.stateId in s.service.pending then
      var replaced := s.service.pending[e.stateId].commandId;
      SetFile(s1, replaced, FileOf(s, replaced).(superseded := true))
    else s1
  }

  function AfterAnnounced(s: State, i: nat): State
    requires i < |s.execs|
  {
    var e := s.execs[i];
    var file := FileOf(s, e.request.commandId);
    if e.phase == AnnouncingRejected then
      SetFile(SetPhase(s, i, Closed), e.request.commandId, file.(emitted := file.emitted + [Rejected]))
    else
      var s1 := SetFile(s, e.request.commandId, file.(emitted := file.emitted + [Executed]));
      if e.stateId in s.service.subscribed then Registered(s1, i, false) else SetPhase(s1, i, Registering)
  }

  function AfterExecFailed(s: State, i: nat): State
    requires i < |s.execs|
  {
    var e := s.execs[i];
    var silenced := SetFile(s, e.request.commandId, FileOf(s, e.request.commandId).(muted := true));
    match e.phase
    case Resolving => SetPhase(s, i, Unstored)
    case Saving => SetPhase(s, i, Stopped)
    case AnnouncingExecuted => SetPhase(silenced, i, Settled)
    case AnnouncingRejected => SetPhase(silenced, i, Closed)
    case _ => s
  }

  function AfterStateChanged(s: State, stateId: string, ack: bool, val: Value): State {
    var seen := s.(service := AfterChange(s.service, stateId, ack, val), observed := s.observed + [Changed(stateId, ack, val)]);
    if !Confirms(s.service, stateId, ack, val) then seen else
      ConfirmedNow(seen, s.service.pending[stateId].commandId)
  }

  /** The file of a command confirmed by the last observation. */
  function ConfirmedNow(s: State, c: string): State {
    var file := FileOf(s, c);
    SetFile(s, c, file.(stage := Some(AnnouncingConfirmed), history := file.history + [Confirmed],
                        confirmedBy := if s.observed == [] then 0 else |s.observed| - 1))
  }

  function AfterTimerFired(s: State, t: nat): State
    requires t in s.service.timers
  {
    var stateId := s.service.timers[t].stateId;
    var s1 := s.(service := AfterTimer(s.service, t));
    if !TimesOut(s.service, stateId) then s1 else
      var c := s.service.pending[stateId].commandId;
      var file := FileOf(s, c);
      SetFile(s1, c, file.(stage := Some(AnnouncingTimeout), history := file.history + [TimedOut]))
  }

  function AfterOutcomeAnnounced(s: State, c: string): State {
    var file := FileOf(s, c);
    if file.stage == Some(AnnouncingTimeout) then
      SetFile(s, c, file.(stage := Some(RecheckArmed(s.clock + GRACE_RECHECK_DELAY_MS)), emitted := file.emitted + [TimedOut]))
    else
      SetFile(s, c, file.(stage := None, emitted := file.emitted + [Confirmed]))
  }

  function AfterRecheckFired(s: State, c: string): State {
    SetFile(s, c, FileOf(s, c).(
      stage := if c in s.service.store && s.service.store[c].status == TimedOut then Some(Rereading(s.service.store[c])) else None))
  }

  function AfterStateReread(s: State, c: string, found: Option<Value>): State
    requires FileOf(s, c).stage.Some? && FileOf(s, c).stage.value.Rereading?
  {
    var captured := FileOf(s, c).stage.value.captured;
    var seen := s.(observed := s.observed + [Reread(captured.stateId, found)]);
    if found != Some(captured.value) then SetFile(seen, c, FileOf(s, c).(stage := None)) else
      ConfirmedNow(seen.(service := Put(s.service, captured.(status := Confirmed))), c)
  }

  function AfterOutcomeFailed(s: State, c: string): State {
    var file := FileOf(s, c);
    SetFile(s, c, file.(stage := None, muted := file.muted || !(file.stage.Some? && file.stage.value.Rereading?)))
  }

  // ---- Which steps can happen --------------------------------------------------------------

  ghost predicate ExecIn(s: State, i: nat, phases: set<Phase>) {
    i < |s.execs| && s.execs[i].phase in phases
  }

  /** A command id is posted by one device with one nonce only, however often the request is delivered. */
  ghost predicate OneNonce(s: State, r: Request) {
    forall i :: 0 <= i < |s.execs| && s.execs[i].request.commandId == r.commandId ==>
      s.execs[i].request.nonce == r.nonce && s.execs[i].request.deviceId == r.deviceId
  }

  predicate Runs(s: State, c: string) {
    c in s.files && s.files[c].stage.Some?
  }

  ghost predicate Enabled(cfg: Config, s: State, now: int, e: Event) {
    s.clock <= now &&
    match e
    case Post(r, _) => OneNonce(s, r)
    case ObjectRead(i, _) => ExecIn(s, i, {Resolving}) && now <= s.execs[i].checkedAt + cfg.maxWaitMs
    case RecordSaved(i) => ExecIn(s, i, {Saving})
    case WriteDone(i, _) => ExecIn(s, i, {Writing})
    case Announced(i) => ExecIn(s, i, {AnnouncingExecuted, AnnouncingRejected})
    case Subscribed(i, _) => ExecIn(s, i, {Registering})
    case ExecFailed(i) => ExecIn(s, i, {Resolving, Saving, AnnouncingExecuted, AnnouncingRejected})
    case StateChanged(_, _, _) => true
    case TimerFired(t) => t in s.service.timers && s.service.timers[t].due <= now
    case OutcomeAnnounced(c) => Runs(s, c) && (s.files[c].stage.value == AnnouncingTimeout || s.files[c].stage.value == AnnouncingConfirmed)
    case RecheckFired(c) => Runs(s, c) && s.files[c].stage.value.RecheckArmed? && s.files[c].stage.value.due <= now
    case StateReread(c, _) => Runs(s, c) && s.files[c].stage.value.Rereading?
    case OutcomeFailed(c) => Runs(s, c) && !s.files[c].stage.value.RecheckArmed?
  }

  ghost function Next(cfg: Config, before: State, now: int, e: Event): State
    requires Enabled(cfg, before, now, e)
  {
    var s := before.(clock := now);
    match e
    case Post(r, resolved) => AfterPost(cfg, s, r, resolved)
    case ObjectRead(i, expected) => AfterObjectRead(s, i, expected)
    case RecordSaved(i) => AfterRecordSaved(s, i)
    case WriteDone(i, ok) => AfterWriteDone(s, i, ok)
    case Announced(i) => AfterAnnounced(s, i)
    case Subscribed(i, ok) => Registered(s, i, ok)
    case ExecFailed(i) => AfterExecFailed(s, i)
    case StateChanged(stateId, ack, val) => AfterStateChanged(s, stateId, ack, val)
    case TimerFired(t) => AfterTimerFired(s, t)
    case OutcomeAnnounced(c) => AfterOutcomeAnnounced(s, c)
    case RecheckFired(c) => AfterRecheckFired(s, c)
    case StateReread(c, val) => AfterStateReread(s, c, val)
    case OutcomeFailed(c) => AfterOutcomeFailed(s, c)
  }

  datatype Step = Step(now: int, event: Event)

  ghost function Try(cfg: Config, s: State, step: Step): State {
    if Enabled(cfg, s, step.now, step.event) then Next(cfg, s, step.now, step.event) else s
  }

  /** A run is any sequence of steps; one that cannot happen where it stands changes nothing. */
  ghost function After(cfg: Config, steps: seq<Step>): State {
    if steps == [] then START else Try(cfg, After(cfg, steps[..|steps| - 1]), steps[|steps| - 1])
  }
}

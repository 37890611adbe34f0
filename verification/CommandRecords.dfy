/** What the store, the log and the running handlers say about one command always fits together: its
    status is one the lifecycle allows, the statuses stored and the events emitted for it agree, an
    executed command is in exactly one place, and a confirmed one has been seen to take its value. */
module CommandRecords {
  import opened Common
  import opened Commands
  import opened CommandRuns
  import opened CommandOwnership

  predicate IsPending(s: Service, c: string) {
    c in s.store && s.store[c].stateId in s.pending && s.pending[s.store[c].stateId].commandId == c
  }

  /** A pending entry names a stored command of the very state it is filed under. */
  predicate Waits(s: Service, st: string) {
    st in s.pending && s.pending[st].commandId in s.store && s.store[s.pending[st].commandId].stateId == st
  }

  /** Everything the state says about one command. */
  datatype Card = Card(phase: Phase, status: Status, pending: bool, file: File)

  predicate Idle(k: Card) {
    k.file.stage == None && !k.pending && !k.file.superseded && !k.file.muted
  }

  predicate CardOk(k: Card) {
    match k.phase
    case Resolving => false
    case Unstored => false
    case Saving => k.status == Accepted && Idle(k) && k.file.history == [Accepted] && k.file.emitted == []
    case Writing => k.status == Accepted && Idle(k) && k.file.history == [Accepted] && k.file.emitted == []
    case Stopped => k.status == Accepted && Idle(k) && k.file.history == [Accepted] && k.file.emitted == []
    case AnnouncingRejected => k.status == Rejected && Idle(k) && k.file.history == [Accepted, Rejected] && k.file.emitted == []
    case AnnouncingExecuted => k.status == Executed && Idle(k) && k.file.history == [Accepted, Executed] && k.file.emitted == []
    case Registering => k.status == Executed && Idle(k) && k.file.history == [Accepted, Executed] && k.file.emitted == [Executed]
    case Closed =>
      && k.status == Rejected && Idle(k.(file := k.file.(muted := false))) && k.file.history == [Accepted, Rejected]
      && k.file.emitted == if k.file.muted then [] else [Rejected]
    case Settled =>
      match k.status
      case Executed => ExecutedOk(k)
      case TimedOut => TimedOutOk(k)
      case Confirmed => ConfirmedOk(k)
      case _ => false
  }

  predicate ExecutedOk(k: Card) {
    && k.file.stage == None && k.file.history == [Accepted, Executed]
    && OneOf(k.pending, k.file.superseded, k.file.muted)
    && k.file.emitted == if k.file.muted then [] else [Executed]
  }

  predicate OneOf(a: bool, b: bool, c: bool) {
    (a && !b && !c) || (!a && b && !c) || (!a && !b && c)
  }

  predicate TimedOutOk(k: Card) {
    && !k.pending && !k.file.superseded && k.file.history == [Accepted, Executed, TimedOut]
    && (k.file.stage.Some? ==> !k.file.muted && k.file.stage.value != AnnouncingConfirmed)
    && k.file.emitted == if k.file.muted || k.file.stage == Some(AnnouncingTimeout) then [Executed] else [Executed, TimedOut]
  }

  predicate ConfirmedOk(k: Card) {
    && !k.pending && !k.file.superseded
    && (k.file.stage.Some? ==> !k.file.muted && k.file.stage.value == AnnouncingConfirmed)
    && (k.file.history == [Accepted, Executed, Confirmed] || k.file.history == [Accepted, Executed, TimedOut, Confirmed])
    && var told := if k.file.history[2] == TimedOut then [Executed, TimedOut] else [Executed];
    k.file.emitted == if k.file.muted || k.file.stage.Some? then told else told + [Confirmed]
  }

  ghost predicate Good(s: State, c: string) {
    && HasOwner(s, c) && c in s.service.store
    && var e := s.execs[s.files[c].exec];
    && s.service.store[c] == RecordOf(e.request, e.stateId, s.service.store[c].status)
    && CardOk(Card(e.phase, s.service.store[c].status, IsPending(s.service, c), s.files[c]))
    && (s.files[c].stage.Some? && s.files[c].stage.value.Rereading? ==> s.files[c].stage.value.captured == s.service.store[c])
    && Evidence(s.observed, s.service.store[c], s.files[c])
  }

  /** What confirms a command: an acknowledged change of its state to its value, or, once it has timed
      out, the same value read from its state. */
  function ConfirmingFact(record: Record, late: bool): Observation {
    if late then Reread(record.stateId, Some(record.value)) else Changed(record.stateId, true, record.value)
  }

  /** A confirmed command was seen, after it was executed, to have its value in its own state. */
  predicate Evidence(observed: seq<Observation>, record: Record, file: File) {
    && (record.status != Accepted ==> file.executedAt <= |observed|)
    && (record.status == Confirmed ==>
          && file.executedAt <= file.confirmedBy < |observed|
          && observed[file.confirmedBy] == ConfirmingFact(record, TimedOut in file.history))
  }

  ghost predicate RecordsOk(s: State) {
    && Owned(s)
    && (forall c {:trigger Good(s, c)} :: c in s.files ==> Good(s, c))
    && (forall st {:trigger Waits(s.service, st)} :: st in s.service.pending ==> Waits(s.service, st))
  }

  lemma RecordsAreFiled(s: State)
    requires RecordsOk(s)
    ensures IdsOk(s) && WaitersStored(s.service)
  {
    forall c | c in s.files ensures Good(s, c) {
    }
    forall st | st in s.service.pending ensures Waits(s.service, st) {
    }
  }

  /** The same, but for command c. */
  ghost predicate OthersGood(s: State, c: string) {
    && s.files.Keys == s.service.store.Keys
    && (forall d {:trigger Good(s, d)} :: d in s.files && d != c ==> Good(s, d))
  }

  /** Steps that concern one command: everything about the others stays. i is that command's call. */
  lemma OthersFrame(s: State, t: State, c: string, i: nat)
    requires RecordsOk(s) && (c in s.files ==> i == s.files[c].exec)
    requires |t.execs| == |s.execs| && forall j {:trigger t.execs[j]} :: 0 <= j < |s.execs| && j != i ==> t.execs[j] == s.execs[j]
    requires forall d :: d in s.files && d != c ==> d in t.files && t.files[d] == s.files[d]
    requires forall d :: d in s.service.store && d != c ==> d in t.service.store && t.service.store[d] == s.service.store[d]
    requires forall d :: d in t.files ==> d in s.files || d == c
    requires t.files.Keys == t.service.store.Keys
    requires forall d :: d in s.files && d != c ==> IsPending(t.service, d) == IsPending(s.service, d)
    requires s.observed <= t.observed
    requires i < |s.execs| ==> s.execs[i].request.commandId == c
    ensures OthersGood(t, c)
  {
    forall d | d in t.files && d != c ensures Good(t, d) {
      assert Good(s, d) && HasOwner(s, d);
      assert s.files[d].exec != i;
    }
  }

  lemma WaitsFrame(s: Service, t: Service)
    requires forall st {:trigger Waits(s, st)} :: st in s.pending ==> Waits(s, st)
    requires forall st :: st in t.pending ==> st in s.pending && t.pending[st] == s.pending[st]
    requires forall c :: c in s.store ==> c in t.store && t.store[c].stateId == s.store[c].stateId
    ensures forall st {:trigger Waits(t, st)} :: st in t.pending ==> Waits(t, st)
  {
    forall st | st in t.pending ensures Waits(t, st) {
      assert Waits(s, st);
    }
  }

  // ---- Steps of a call ---------------------------------------------------------------------

  lemma NewCallKeepsRecords(s: State, t: State)
    requires RecordsOk(s) && Owned(t)
    requires t.files == s.files && t.service.store == s.service.store && t.service.pending == s.service.pending
    requires |s.execs| <= |t.execs| && forall i {:trigger t.execs[i]} :: 0 <= i < |s.execs| ==> t.execs[i] == s.execs[i]
    requires t.observed == s.observed
    ensures RecordsOk(t)
  {
    forall c | c in t.files ensures Good(t, c) {
      assert Good(s, c) && HasOwner(s, c);
    }
    WaitsFrame(s.service, t.service);
  }

  lemma PostKeepsRecords(cfg: Config, s: State, r: Request, resolved: Resolved)
    requires RecordsOk(s) && Owned(AfterPost(cfg, s, r, resolved))
    ensures RecordsOk(AfterPost(cfg, s, r, resolved))
  {
    BeginStoresNothing(cfg, s.service, r, resolved, s.clock);
    NewCallKeepsRecords(s, AfterPost(cfg, s, r, resolved));
  }

  /** A call that has stored nothing ends. */
  lemma GivenUpKeepsRecords(s: State, i: nat)
    requires RecordsOk(s) && ExecIn(s, i, {Resolving}) && Owned(SetPhase(s, i, Unstored))
    ensures RecordsOk(SetPhase(s, i, Unstored))
  {
    var t := SetPhase(s, i, Unstored);
    forall c | c in t.files ensures Good(t, c) {
      assert Good(s, c) && HasOwner(s, c);
    }
    WaitsFrame(s.service, t.service);
  }

  lemma StoringKeepsRecords(s: State, i: nat, expected: ValueType)
    requires RecordsOk(s) && ExecIn(s, i, {Resolving}) && IsValid(s.execs[i].request.value, expected, s.execs[i].permission)
    requires s.execs[i].request.commandId !in s.service.store
    requires Owned(AfterObjectRead(s, i, expected))
    ensures RecordsOk(AfterObjectRead(s, i, expected))
  {
    var t := AfterObjectRead(s, i, expected);
    var c := s.execs[i].request.commandId;
    assert forall st :: st in s.service.pending ==> Waits(s.service, st);
    OthersFrame(s, t, c, i);
    assert HasOwner(t, c);
    assert Good(t, c);
    WaitsFrame(s.service, t.service);
  }

  /** Call i moves on; its command's file and status may change with it, nothing is filed as waiting. */
  lemma CallStepKeepsOthers(s: State, t: State, i: nat)
    requires RecordsOk(s) && i < |s.execs| == |t.execs| && IsSaved(s.execs[i].phase)
    requires forall j {:trigger t.execs[j]} :: 0 <= j < |s.execs| && j != i ==> t.execs[j] == s.execs[j]
    requires var c := s.execs[i].request.commandId;
             && (t.files == s.files || (c in t.files && t.files == s.files[c := t.files[c]]))
             && (t.service.store == s.service.store ||
                 (c in t.service.store && t.service.store == s.service.store[c := t.service.store[c]]
                  && t.service.store[c].stateId == s.execs[i].stateId))
    requires t.service.pending == s.service.pending && t.observed == s.observed
    ensures OthersGood(t, s.execs[i].request.commandId)
    ensures forall st {:trigger Waits(t.service, st)} :: st in t.service.pending ==> Waits(t.service, st)
    ensures Good(s, s.execs[i].request.commandId) && s.files[s.execs[i].request.commandId].exec == i
  {
    var c := s.execs[i].request.commandId;
    assert IsListed(s, i) && Good(s, c);
    OthersFrame(s, t, c, i);
    WaitsFrame(s.service, t.service);
  }

  lemma RecordSavedKeepsRecords(s: State, i: nat)
    requires RecordsOk(s) && ExecIn(s, i, {Saving}) && Owned(AfterRecordSaved(s, i))
    ensures RecordsOk(AfterRecordSaved(s, i))
  {
    var t := AfterRecordSaved(s, i);
    var c := s.execs[i].request.commandId;
    CallStepKeepsOthers(s, t, i);
    assert HasOwner(t, c) && Good(t, c);
  }

  lemma WriteDoneKeepsRecords(s: State, i: nat, ok: bool)
    requires RecordsOk(s) && ExecIn(s, i, {Writing}) && Owned(AfterWriteDone(s, i, ok))
    ensures RecordsOk(AfterWriteDone(s, i, ok))
  {
    var t := AfterWriteDone(s, i, ok);
    var c := s.execs[i].request.commandId;
    CallStepKeepsOthers(s, t, i);
    assert HasOwner(t, c) && Good(t, c);
  }

  lemma ExecFailedKeepsRecords(s: State, i: nat)
    requires RecordsOk(s) && ExecIn(s, i, {Saving, AnnouncingExecuted, AnnouncingRejected}) && Owned(AfterExecFailed(s, i))
    ensures RecordsOk(AfterExecFailed(s, i))
  {
    var t := AfterExecFailed(s, i);
    var c := s.execs[i].request.commandId;
    CallStepKeepsOthers(s, t, i);
    assert HasOwner(t, c) && Good(t, c);
  }

  /** The announcement alone, when the registration comes later or never. */
  lemma AnnouncedKeepsRecords(s: State, i: nat)
    requires RecordsOk(s) && ExecIn(s, i, {AnnouncingExecuted, AnnouncingRejected}) && Owned(AfterAnnounced(s, i))
    requires s.execs[i].phase == AnnouncingExecuted ==> s.execs[i].stateId !in s.service.subscribed
    ensures RecordsOk(AfterAnnounced(s, i))
  {
    var t := AfterAnnounced(s, i);
    var c := s.execs[i].request.commandId;
    CallStepKeepsOthers(s, t, i);
    assert HasOwner(t, c) && Good(t, c);
  }

  // ---- Registration: one command starts to wait, another may be given up --------------------

  /** The wait for a state is taken over: what was waiting there is superseded. */
  function GivenUp(s: State, st: string): State {
    if st !in s.service.pending then s else
      var c := s.service.pending[st].commandId;
      SetFile(s, c, FileOf(s, c).(superseded := true)).(
        service := s.service.(pending := s.service.pending - {st}, timers := s.service.timers - {s.service.pending[st].timer}))
  }

  lemma GivenUpSplits(s: State, i: nat, newlySubscribed: bool)
    requires i < |s.execs|
    ensures Registered(s, i, newlySubscribed) == Registered(GivenUp(s, s.execs[i].stateId), i, newlySubscribed)
  {
    var st := s.execs[i].stateId;
    if st in s.service.pending {
      var t := GivenUp(s, st);
      assert (s.service.pending - {st})[st := Pending(s.execs[i].request.commandId, s.service.nextTimer)]
          == s.service.pending[st := Pending(s.execs[i].request.commandId, s.service.nextTimer)];
    }
  }

  lemma GivenUpKeepsOwned(s: State, st: string)
    requires RecordsOk(s)
    ensures Owned(GivenUp(s, st))
  {
    var t := GivenUp(s, st);
    if st in s.service.pending {
      assert Waits(s.service, st);
      forall c | c in t.files ensures HasOwner(t, c) {
        assert HasOwner(s, c);
      }
      forall i | 0 <= i < |t.execs| ensures IsListed(t, i) {
        assert IsListed(s, i);
      }
    }
  }

  lemma GivenUpKeepsAll(s: State, st: string)
    requires RecordsOk(s)
    ensures RecordsOk(GivenUp(s, st))
  {
    var t := GivenUp(s, st);
    GivenUpKeepsOwned(s, st);
    if st in s.service.pending {
      var c := s.service.pending[st].commandId;
      assert Waits(s.service, st) && Good(s, c) && HasOwner(s, c);
      OthersFrame(s, t, c, s.files[c].exec);
      assert HasOwner(t, c) && Good(t, c);
      WaitsFrame(s.service, t.service);
    }
  }

  /** Registering on a state nothing waits for. */
  lemma FreshRegistrationKeepsRecords(s: State, i: nat, newlySubscribed: bool)
    requires RecordsOk(s) && ExecIn(s, i, {Registering}) && s.execs[i].stateId !in s.service.pending
    requires Owned(Registered(s, i, newlySubscribed))
    ensures RecordsOk(Registered(s, i, newlySubscribed))
  {
    var t := Registered(s, i, newlySubscribed);
    var c := s.execs[i].request.commandId;
    assert IsListed(s, i) && Good(s, c);
    OthersFrame(s, t, c, i);
    assert HasOwner(t, c) && Good(t, c);
    forall st | st in t.service.pending ensures Waits(t.service, st) {
      assert st in s.service.pending ==> Waits(s.service, st);
    }
  }

  lemma RegisteredKeepsRecords(s: State, i: nat, newlySubscribed: bool)
    requires RecordsOk(s) && ExecIn(s, i, {Registering}) && Owned(Registered(s, i, newlySubscribed))
    ensures RecordsOk(Registered(s, i, newlySubscribed))
  {
    GivenUpSplits(s, i, newlySubscribed);
    GivenUpKeepsAll(s, s.execs[i].stateId);
    FreshRegistrationKeepsRecords(GivenUp(s, s.execs[i].stateId), i, newlySubscribed);
  }

  lemma AnnouncedAloneKeepsRecords(s: State, i: nat, t: State)
    requires RecordsOk(s) && ExecIn(s, i, {AnnouncingExecuted})
    requires var c := s.execs[i].request.commandId;
             t == SetPhase(SetFile(s, c, FileOf(s, c).(emitted := FileOf(s, c).emitted + [Executed])), i, Registering)
    ensures RecordsOk(t)
  {
    var c := s.execs[i].request.commandId;
    CallStepKeepsOthers(s, t, i);
    forall d | d in t.files ensures HasOwner(t, d) {
      assert HasOwner(s, d);
    }
    forall j | 0 <= j < |t.execs| ensures IsListed(t, j) {
      assert IsListed(s, j);
    }
    assert Good(t, c);
  }

  /** Announcing an executed command whose state is subscribed registers at once; that is the same as
      announcing it first. */
  lemma AnnounceAndRegisterKeepsRecords(s: State, i: nat)
    requires RecordsOk(s) && ExecIn(s, i, {AnnouncingExecuted}) && s.execs[i].stateId in s.service.subscribed
    requires Owned(AfterAnnounced(s, i))
    ensures RecordsOk(AfterAnnounced(s, i))
  {
    var c := s.execs[i].request.commandId;
    assert IsListed(s, i);
    var announced := SetPhase(SetFile(s, c, FileOf(s, c).(emitted := FileOf(s, c).emitted + [Executed])), i, Registering);
    AnnouncedAloneKeepsRecords(s, i, announced);
    assert announced.execs[i := announced.execs[i].(phase := Settled)] == s.execs[i := s.execs[i].(phase := Settled)];
    assert Registered(announced, i, false) == AfterAnnounced(s, i);
    RegisteredKeepsRecords(announced, i, false);
  }

  // ---- Steps of the handlers ---------------------------------------------------------------

  /** Command c's file and status change, calls stay; nothing else starts to wait. */
  lemma OutcomeStepKeepsOthers(s: State, t: State, c: string)
    requires RecordsOk(s) && c in s.files && t.execs == s.execs && s.observed <= t.observed
    requires c in t.files && t.files == s.files[c := t.files[c]]
    requires c in t.service.store && t.service.store == s.service.store[c := t.service.store[c]]
    requires t.service.store[c].stateId == s.service.store[c].stateId
    requires t.service.pending == s.service.pending || (IsPending(s.service, c) && t.service.pending == s.service.pending - {s.service.store[c].stateId})
    ensures OthersGood(t, c) && Good(s, c)
    ensures forall st {:trigger Waits(t.service, st)} :: st in t.service.pending ==> Waits(t.service, st)
  {
    assert Good(s, c) && HasOwner(s, c);
    OthersFrame(s, t, c, s.files[c].exec);
    WaitsFrame(s.service, t.service);
  }

  lemma StateChangedKeepsRecords(s: State, stateId: string, ack: bool, val: Value)
    requires RecordsOk(s) && Owned(AfterStateChanged(s, stateId, ack, val))
    ensures RecordsOk(AfterStateChanged(s, stateId, ack, val))
  {
    var t := AfterStateChanged(s, stateId, ack, val);
    if Confirms(s.service, stateId, ack, val) {
      var c := s.service.pending[stateId].commandId;
      assert Waits(s.service, stateId) && Good(s, c);
      OutcomeStepKeepsOthers(s, t, c);
      assert HasOwner(t, c) && Good(t, c);
    } else {
      ObservationKeepsRecords(s, t);
    }
  }

  lemma ObservationKeepsRecords(s: State, t: State)
    requires RecordsOk(s) && Owned(t)
    requires t.files == s.files && t.service.store == s.service.store && t.service.pending == s.service.pending
    requires t.execs == s.execs && s.observed <= t.observed
    ensures RecordsOk(t)
  {
    forall c | c in t.files ensures Good(t, c) {
      assert Good(s, c) && HasOwner(s, c);
    }
    WaitsFrame(s.service, t.service);
  }

  lemma TimerFiredKeepsRecords(s: State, t: nat)
    requires RecordsOk(s) && t in s.service.timers && Owned(AfterTimerFired(s, t))
    ensures RecordsOk(AfterTimerFired(s, t))
  {
    var after := AfterTimerFired(s, t);
    var stateId := s.service.timers[t].stateId;
    if stateId in s.service.pending {
      var c := s.service.pending[stateId].commandId;
      assert Waits(s.service, stateId) && Good(s, c);
      OutcomeStepKeepsOthers(s, after, c);
      assert HasOwner(after, c) && Good(after, c);
    } else {
      ObservationKeepsRecords(s, after);
    }
  }

  lemma OutcomeKeepsRecords(s: State, t: State, c: string)
    requires RecordsOk(s) && Runs(s, c) && Owned(t)
    requires t == if s.files[c].stage.value.RecheckArmed? then AfterRecheckFired(s, c) else AfterOutcomeFailed(s, c)
    ensures RecordsOk(t)
  {
    OutcomeStepKeepsOthers(s, t, c);
    assert HasOwner(t, c) && Good(t, c);
  }

  lemma OutcomeAnnouncedKeepsRecords(s: State, c: string)
    requires RecordsOk(s) && Runs(s, c) && Owned(AfterOutcomeAnnounced(s, c))
    requires s.files[c].stage.value == AnnouncingTimeout || s.files[c].stage.value == AnnouncingConfirmed
    ensures RecordsOk(AfterOutcomeAnnounced(s, c))
  {
    var t := AfterOutcomeAnnounced(s, c);
    OutcomeStepKeepsOthers(s, t, c);
    assert HasOwner(t, c) && Good(t, c);
  }

  lemma RereadIsGood(s: State, c: string, found: Option<Value>)
    requires Good(s, c) && Runs(s, c) && s.files[c].stage.value.Rereading? && HasOwner(AfterStateReread(s, c, found), c)
    ensures Good(AfterStateReread(s, c, found), c)
  {
  }

  lemma StateRereadKeepsRecords(s: State, c: string, found: Option<Value>)
    requires RecordsOk(s) && Runs(s, c) && s.files[c].stage.value.Rereading? && Owned(AfterStateReread(s, c, found))
    ensures RecordsOk(AfterStateReread(s, c, found))
  {
    var t := AfterStateReread(s, c, found);
    assert Good(s, c);
    OutcomeStepKeepsOthers(s, t, c);
    assert HasOwner(t, c);
    RereadIsGood(s, c, found);
  }

  lemma StepKeepsRecords(cfg: Config, before: State, now: int, e: Event)
    requires RecordsOk(before) && OwnersOk(cfg, before) && Enabled(cfg, before, now, e) && OwnersOk(cfg, Next(cfg, before, now, e))
    ensures RecordsOk(Next(cfg, before, now, e))
  {
    var s := before.(clock := now);
    OwnersFrame(cfg, before, s);
    NewCallKeepsRecords(before, s);
    match e
    case Post(r, resolved) => PostKeepsRecords(cfg, s, r, resolved);
    case ObjectRead(i, expected) =>
      if IsValid(s.execs[i].request.value, expected, s.execs[i].permission) {
        assert IsAlone(cfg, s, i);
        StoringKeepsRecords(s, i, expected);
      } else {
        GivenUpKeepsRecords(s, i);
      }
    case RecordSaved(i) => RecordSavedKeepsRecords(s, i);
    case WriteDone(i, ok) => WriteDoneKeepsRecords(s, i, ok);
    case Announced(i) =>
      if s.execs[i].phase == AnnouncingExecuted && s.execs[i].stateId in s.service.subscribed {
        AnnounceAndRegisterKeepsRecords(s, i);
      } else {
        AnnouncedKeepsRecords(s, i);
      }
    case Subscribed(i, ok) => RegisteredKeepsRecords(s, i, ok);
    case ExecFailed(i) =>
      if s.execs[i].phase == Resolving {
        GivenUpKeepsRecords(s, i);
      } else {
        ExecFailedKeepsRecords(s, i);
      }
    case StateChanged(stateId, ack, val) => StateChangedKeepsRecords(s, stateId, ack, val);
    case TimerFired(t) => TimerFiredKeepsRecords(s, t);
    case OutcomeAnnounced(c) => OutcomeAnnouncedKeepsRecords(s, c);
    case RecheckFired(c) => OutcomeKeepsRecords(s, AfterRecheckFired(s, c), c);
    case StateReread(c, found) => StateRereadKeepsRecords(s, c, found);
    case OutcomeFailed(c) => OutcomeKeepsRecords(s, AfterOutcomeFailed(s, c), c);
  }
}

/** App and server together. */
module CommandWorld {
  // A POST may be delivered any number of times, at any time or never, and its reply may be lost, so the
  // app may be told anything about it.

  import opened Common
  import C = Commands
  import S = CommandRuns
  import T = CommandTheorems
  import opened CommandRepositories

  /** The suspended calls of one user action: sendCommand, then the watcher or watchers it started. */
  datatype Task =
    | PostingFirst
    | WatchingFirst(due: int)
    | PostingRetry(retryId: string)
    | WatchingRetry(retryId: string, due: int)
    | Over(retried: Option<string>)

  /** What the user asked for. */
  datatype Action = Action(objectId: string, value: C.Value, confirmed: bool)

  datatype Sent = Sent(publicId: string, nonce: string)

  datatype App = App(
    repository: Repository,
    actions: map<string, Action>,  // public id -> what was asked for
    tasks: map<string, Task>,      // public id -> where its calls stand
    sent: map<string, Sent>,       // server id -> the POST made under it
    closed: set<string>,           // server ids for which a terminal result has arrived since
    failed: set<string>)           // server ids of retries whose POST has failed

  datatype World = World(clock: int, deviceId: string, app: App, server: S.State)

  function Fresh(deviceId: string): World {
    World(0, deviceId, App(Repository(map[], map[]), map[], map[], map[], {}, {}), S.START)
  }

  datatype Reply = Succeeded | FailedLocalOnly | Failed

  datatype Event =
    | Send(publicId: string, action: Action, nonce: string)
    | PostAnswered(publicId: string, reply: Reply)
    | WatchEnds(publicId: string, retryId: string, nonce: string)
    | Result(serverId: string, status: CommandStatus)
    | Deliver(request: C.Request, resolved: C.Resolved)
    | ServerStep(event: S.Event)

  // ---- The app's steps ---------------------------------------------------------------------

  function SetTask(a: App, u: string, task: Task): App {
    a.(tasks := a.tasks[u := task])
  }

  function AfterSend(a: App, u: string, action: Action, nonce: string): App {
    SetTask(a, u, PostingFirst).(
      repository := Shown(a.repository, u, ACCEPTED), actions := a.actions[u := action], sent := a.sent[u := Sent(u, nonce)])
  }

  function AfterPostAnswered(a: App, u: string, reply: Reply, now: int): App
    requires u in a.tasks
  {
    match a.tasks[u]
    case PostingFirst =>
      if reply == Succeeded then SetTask(a, u, WatchingFirst(now + COMMAND_TIMEOUT_MS))
      else SetTask(a, u, Over(None)).(repository := AfterPostFailed(a.repository, u, reply == FailedLocalOnly))
    case PostingRetry(retryId) =>
      if reply == Succeeded then SetTask(a, u, WatchingRetry(retryId, now + COMMAND_TIMEOUT_MS))
      else SetTask(a, u, Over(Some(retryId))).(
             repository := AfterRetryFailed(a.repository, u, retryId), failed := a.failed + {retryId})
    case _ => a
  }

  function AfterWatchEnds(a: App, u: string, retryId: string, nonce: string): App
    requires u in a.tasks
  {
    match a.tasks[u]
    case WatchingFirst(_) =>
      if VerdictFor(a.repository, u, false) == Retry then
        SetTask(a, u, PostingRetry(retryId)).(
          repository := a.repository.(retries := a.repository.retries[retryId := u]), sent := a.sent[retryId := Sent(u, nonce)])
      else SetTask(a, u, Over(None))
    case WatchingRetry(r, _) =>
      var over := SetTask(a, u, Over(Some(r)));
      if VerdictFor(a.repository, u, true) == GiveUp then over.(repository := Shown(a.repository, u, TIMEOUT)) else over
    case _ => a
  }

  function AfterResultOf(a: App, serverId: string, status: CommandStatus): App {
    a.(repository := AfterResult(a.repository, serverId, status),
       closed := if status in {CONFIRMED, TIMEOUT, REJECTED, BLOCKED} && serverId in a.sent then a.closed + {serverId} else a.closed)
  }

  // ---- Steps of the whole ------------------------------------------------------------------

  /** A random id nobody has used before. */
  ghost predicate IsFresh(w: World, id: string) {
    && id !in w.app.sent
    && forall i :: 0 <= i < |w.server.execs| ==> w.server.execs[i].request.commandId != id
  }

  /** A copy of a POST the app has made: the server reads device and network from the connection. */
  predicate IsCopy(w: World, r: C.Request) {
    && r.commandId in w.app.sent && w.app.sent[r.commandId].publicId in w.app.actions
    && var action := w.app.actions[w.app.sent[r.commandId].publicId];
    && r.nonce == w.app.sent[r.commandId].nonce && r.deviceId == w.deviceId
    && r.objectId == action.objectId && r.value == action.value && r.confirmed == action.confirmed
  }

  ghost predicate Enabled(w: World, now: int, e: Event) {
    w.clock <= now &&
    match e
    case Send(u, _, _) => IsFresh(w, u)
    case PostAnswered(u, _) => u in w.app.tasks && (w.app.tasks[u].PostingFirst? || w.app.tasks[u].PostingRetry?)
    case WatchEnds(u, retryId, _) =>
      && u in w.app.tasks && IsFresh(w, retryId)
      && (w.app.tasks[u].WatchingFirst? || w.app.tasks[u].WatchingRetry?) && w.app.tasks[u].due <= now
    case Result(_, _) => true
    case Deliver(r, _) => IsCopy(w, r) || (r.commandId !in w.app.sent && S.OneNonce(w.server, r))
    case ServerStep(event) => !event.Post?
  }

  ghost function Next(cfg: S.Config, w: World, now: int, e: Event): World {
    if !Enabled(w, now, e) then w else
      var w1 := w.(clock := now);
      match e
      case Send(u, action, nonce) => w1.(app := AfterSend(w.app, u, action, nonce))
      case PostAnswered(u, reply) => w1.(app := AfterPostAnswered(w.app, u, reply, now))
      case WatchEnds(u, retryId, nonce) => w1.(app := AfterWatchEnds(w.app, u, retryId, nonce))
      case Result(serverId, status) => w1.(app := AfterResultOf(w.app, serverId, status))
      case Deliver(r, resolved) => w1.(server := S.Try(cfg, w.server, S.Step(now, S.Post(r, resolved))))
      case ServerStep(event) => w1.(server := S.Try(cfg, w.server, S.Step(now, event)))
  }

  datatype Step = Step(now: int, event: Event)

  ghost function After(cfg: S.Config, deviceId: string, steps: seq<Step>): World {
    if steps == [] then Fresh(deviceId) else
      var last := steps[|steps| - 1];
      Next(cfg, After(cfg, deviceId, steps[..|steps| - 1]), last.now, last.event)
  }

  // ---- What the app keeps ------------------------------------------------------------------

  /** The ids an action can have posted under, given where it stands. */
  predicate IsIdOf(task: Task, u: string, x: string) {
    x == u || match task
              case PostingFirst => false
              case WatchingFirst(_) => false
              case PostingRetry(r) => x == r
              case WatchingRetry(r, _) => x == r
              case Over(r) => r == Some(x)
  }

  predicate PostOk(a: App, x: string) {
    && x in a.sent && a.sent[x].publicId in a.tasks && a.sent[x].publicId in a.actions
    && IsIdOf(a.tasks[a.sent[x].publicId], a.sent[x].publicId, x)
  }

  predicate RetryOk(a: App, r: string) {
    r in a.repository.retries && r in a.sent && a.sent[r].publicId == a.repository.retries[r]
  }

  /** The calls of action u: posted under u itself, and under another id if a retry is under way. */
  predicate TaskOk(a: App, u: string) {
    && u in a.tasks && u in a.sent && a.sent[u].publicId == u && u in a.repository.states
    && (a.tasks[u].PostingRetry? || a.tasks[u].WatchingRetry? ==>
          var r := a.tasks[u].retryId;
          r in a.sent && a.sent[r].publicId == u && r != u && r !in a.failed)
  }

  /** The id is that of a retry which has neither failed nor had a terminal result. */
  predicate IsOpenRetry(a: App, x: string) {
    x in a.sent && a.sent[x].publicId != x && x !in a.closed && x !in a.failed
  }

  predicate MappedIff(a: App, x: string) {
    x in a.repository.retries <==> IsOpenRetry(a, x)
  }

  ghost predicate AppOk(a: App) {
    && a.closed <= a.sent.Keys && a.failed <= a.sent.Keys
    && (forall x {:trigger MappedIff(a, x)} :: MappedIff(a, x))
    && (forall x {:trigger PostOk(a, x)} :: x in a.sent ==> PostOk(a, x))
    && (forall r {:trigger RetryOk(a, r)} :: r in a.repository.retries ==> RetryOk(a, r))
    && (forall u {:trigger TaskOk(a, u)} :: u in a.tasks ==> TaskOk(a, u))
  }

  lemma SendKeepsApp(a: App, u: string, action: Action, nonce: string)
    requires AppOk(a) && u !in a.sent
    ensures AppOk(AfterSend(a, u, action, nonce))
  {
    var b := AfterSend(a, u, action, nonce);
    forall x | x in b.sent ensures PostOk(b, x) {
      assert x in a.sent ==> PostOk(a, x);
      assert u in a.tasks ==> TaskOk(a, u);
    }
    forall r | r in b.repository.retries ensures RetryOk(b, r) {
      assert RetryOk(a, r);
    }
    forall v | v in b.tasks ensures TaskOk(b, v) {
      assert v in a.tasks ==> TaskOk(a, v);
    }
    forall x ensures MappedIff(b, x) {
      assert MappedIff(a, x);
    }
  }

  /** Action u moves on, posting nothing new; it stays answerable for the ids it had. */
  lemma TaskStepKeepsApp(a: App, b: App, u: string)
    requires AppOk(a) && u in a.tasks && b.sent == a.sent && b.actions == a.actions && b.closed == a.closed && b.failed == a.failed
    requires u in b.tasks && b.tasks == a.tasks[u := b.tasks[u]] && b.repository.retries == a.repository.retries
    requires forall x :: IsIdOf(a.tasks[u], u, x) ==> IsIdOf(b.tasks[u], u, x)
    requires forall v :: v in a.repository.states ==> v in b.repository.states
    requires b.tasks[u].PostingRetry? || b.tasks[u].WatchingRetry? ==>
               (a.tasks[u].PostingRetry? || a.tasks[u].WatchingRetry?) && b.tasks[u].retryId == a.tasks[u].retryId
    ensures AppOk(b)
  {
    assert TaskOk(a, u);
    forall x | x in b.sent ensures PostOk(b, x) {
      assert PostOk(a, x);
    }
    forall r | r in b.repository.retries ensures RetryOk(b, r) {
      assert RetryOk(a, r);
    }
    forall v | v in b.tasks ensures TaskOk(b, v) {
      assert TaskOk(a, v);
    }
    forall x ensures MappedIff(b, x) {
      assert MappedIff(a, x);
    }
  }

  lemma RetryFailureKeepsApp(a: App, u: string, reply: Reply, now: int)
    requires AppOk(a) && u in a.tasks && a.tasks[u].PostingRetry? && reply != Succeeded
    ensures AppOk(AfterPostAnswered(a, u, reply, now))
  {
    var b := AfterPostAnswered(a, u, reply, now);
    assert TaskOk(a, u);
    forall x | x in b.sent ensures PostOk(b, x) {
      assert PostOk(a, x);
    }
    forall r | r in b.repository.retries ensures RetryOk(b, r) {
      assert RetryOk(a, r);
    }
    forall v | v in b.tasks ensures TaskOk(b, v) {
      assert TaskOk(a, v);
    }
    forall x ensures MappedIff(b, x) {
      assert MappedIff(a, x);
    }
  }

  lemma PostAnsweredKeepsApp(a: App, u: string, reply: Reply, now: int)
    requires AppOk(a) && u in a.tasks
    ensures AppOk(AfterPostAnswered(a, u, reply, now))
  {
    assert TaskOk(a, u);
    if a.tasks[u].PostingRetry? && reply != Succeeded {
      RetryFailureKeepsApp(a, u, reply, now);
    } else if a.tasks[u].PostingFirst? || a.tasks[u].PostingRetry? {
      TaskStepKeepsApp(a, AfterPostAnswered(a, u, reply, now), u);
    }
  }

  lemma WatchEndsKeepsApp(a: App, u: string, retryId: string, nonce: string)
    requires AppOk(a) && u in a.tasks && retryId !in a.sent
    ensures AppOk(AfterWatchEnds(a, u, retryId, nonce))
  {
    assert TaskOk(a, u);
    var b := AfterWatchEnds(a, u, retryId, nonce);
    if a.tasks[u].WatchingFirst? && VerdictFor(a.repository, u, false) == Retry {
      RetryStartKeepsApp(a, u, retryId, nonce);
    } else if a.tasks[u].WatchingFirst? || a.tasks[u].WatchingRetry? {
      TaskStepKeepsApp(a, b, u);
    }
  }

  lemma RetryStartKeepsApp(a: App, u: string, retryId: string, nonce: string)
    requires AppOk(a) && u in a.tasks && retryId !in a.sent && a.tasks[u].WatchingFirst? && VerdictFor(a.repository, u, false) == Retry
    ensures AppOk(AfterWatchEnds(a, u, retryId, nonce))
  {
    var b := AfterWatchEnds(a, u, retryId, nonce);
    assert TaskOk(a, u) && PostOk(a, u);
    forall x | x in b.sent ensures PostOk(b, x) {
      assert x in a.sent ==> PostOk(a, x);
    }
    forall r | r in b.repository.retries ensures RetryOk(b, r) {
      assert r in a.repository.retries ==> RetryOk(a, r);
    }
    forall v | v in b.tasks ensures TaskOk(b, v) {
      assert TaskOk(a, v);
    }
    forall x ensures MappedIff(b, x) {
      assert MappedIff(a, x);
    }
  }

  lemma ResultKeepsApp(a: App, serverId: string, status: CommandStatus)
    requires AppOk(a)
    ensures AppOk(AfterResultOf(a, serverId, status))
  {
    var b := AfterResultOf(a, serverId, status);
    forall x | x in b.sent ensures PostOk(b, x) {
      assert PostOk(a, x);
    }
    forall r | r in b.repository.retries ensures RetryOk(b, r) {
      assert RetryOk(a, r);
    }
    forall v | v in b.tasks ensures TaskOk(b, v) {
      assert TaskOk(a, v);
    }
    assert MappedIff(a, serverId);
    forall x ensures MappedIff(b, x) {
      assert MappedIff(a, x);
    }
  }

  // ---- What app and server keep together ---------------------------------------------------

  /** A call the server has accepted under an id of the app is a copy of what the app sent. */
  ghost predicate CallOk(w: World, i: nat) {
    i < |w.server.execs| && (w.server.execs[i].request.commandId in w.app.sent ==> IsCopy(w, w.server.execs[i].request))
  }

  ghost predicate WorldOk(cfg: S.Config, w: World) {
    && AppOk(w.app) && T.Inv(cfg, w.server)
    && (forall i {:trigger CallOk(w, i)} :: 0 <= i < |w.server.execs| ==> CallOk(w, i))
  }

  ghost predicate SameRequests(s: S.State, t: S.State) {
    |s.execs| <= |t.execs| <= |s.execs| + 1
    && forall i :: 0 <= i < |s.execs| ==> t.execs[i].request == s.execs[i].request && t.execs[i].stateId == s.execs[i].stateId
  }

  predicate IsCallStep(e: S.Event) {
    e.ObjectRead? || e.RecordSaved? || e.WriteDone? || e.Announced? || e.Subscribed? || e.ExecFailed?
  }

  lemma CallStepKeepsRequests(cfg: S.Config, s: S.State, now: int, e: S.Event)
    requires S.Enabled(cfg, s, now, e) && IsCallStep(e)
    ensures SameRequests(s, S.Next(cfg, s, now, e)) && |S.Next(cfg, s, now, e).execs| == |s.execs|
  {
    if e.Announced? || e.Subscribed? {
      RegistrationKeepsRequests(cfg, s, now, e);
    }
  }

  lemma RegistrationKeepsRequests(cfg: S.Config, s: S.State, now: int, e: S.Event)
    requires S.Enabled(cfg, s, now, e) && (e.Announced? || e.Subscribed?)
    ensures SameRequests(s, S.Next(cfg, s, now, e)) && |S.Next(cfg, s, now, e).execs| == |s.execs|
  {
  }

  lemma OtherStepKeepsRequests(cfg: S.Config, s: S.State, now: int, e: S.Event)
    requires S.Enabled(cfg, s, now, e) && !IsCallStep(e) && !e.Post?
    ensures S.Next(cfg, s, now, e).execs == s.execs
  {
  }

  /** Server steps other than Post leave requests and their states alone; Post adds at most its own. */
  lemma RequestsStay(cfg: S.Config, s: S.State, now: int, e: S.Event)
    requires S.Enabled(cfg, s, now, e)
    ensures var t := S.Next(cfg, s, now, e);
            && SameRequests(s, t)
            && (|t.execs| > |s.execs| ==>
                  && e.Post? && t.execs[|s.execs|].request == e.request
                  && e.resolved.Access? && t.execs[|s.execs|].stateId == e.resolved.stateId)
  {
    if IsCallStep(e) {
      CallStepKeepsRequests(cfg, s, now, e);
    } else if !e.Post? {
      OtherStepKeepsRequests(cfg, s, now, e);
    }
  }

  lemma ServerStepKeepsWorld(cfg: S.Config, w: World, now: int, e: S.Event)
    requires WorldOk(cfg, w) && S.Safe(cfg)
    requires e.Post? ==> IsCopy(w, e.request) || e.request.commandId !in w.app.sent
    ensures WorldOk(cfg, w.(clock := now, server := S.Try(cfg, w.server, S.Step(now, e))))
  {
    var v := w.(clock := now, server := S.Try(cfg, w.server, S.Step(now, e)));
    T.StepKeepsInv(cfg, w.server, S.Step(now, e));
    if S.Enabled(cfg, w.server, now, e) {
      RequestsStay(cfg, w.server, now, e);
    }
    forall i | 0 <= i < |v.server.execs| ensures CallOk(v, i) {
      assert i < |w.server.execs| ==> CallOk(w, i);
    }
  }

  /** A copy carries the nonce its id was sent with, so it may always be delivered. */
  lemma CopiesHaveOneNonce(cfg: S.Config, w: World, r: C.Request)
    requires WorldOk(cfg, w) && IsCopy(w, r)
    ensures S.OneNonce(w.server, r)
  {
    forall i | 0 <= i < |w.server.execs| && w.server.execs[i].request.commandId == r.commandId
      ensures w.server.execs[i].request.nonce == r.nonce && w.server.execs[i].request.deviceId == r.deviceId
    {
      assert CallOk(w, i);
    }
  }

  /** The app posts under a fresh id, or nothing. */
  lemma AppStepKeepsWorld(cfg: S.Config, w: World, now: int, b: App, id: string)
    requires WorldOk(cfg, w) && AppOk(b) && IsFresh(w, id)
    requires forall x :: x in b.sent ==> x in w.app.sent || x == id
    requires forall x :: x in w.app.sent ==> x in b.sent && b.sent[x] == w.app.sent[x]
    requires forall u :: u in w.app.actions && u != id ==> u in b.actions && b.actions[u] == w.app.actions[u]
    ensures WorldOk(cfg, w.(clock := now, app := b))
  {
    var v := w.(clock := now, app := b);
    forall i | 0 <= i < |v.server.execs| ensures CallOk(v, i) {
      assert CallOk(w, i);
      var c := w.server.execs[i].request.commandId;
      if c in w.app.sent {
        assert PostOk(w.app, c) && TaskOk(w.app, w.app.sent[c].publicId);
      }
    }
  }

  lemma QuietAppStepKeepsWorld(cfg: S.Config, w: World, now: int, b: App)
    requires WorldOk(cfg, w) && AppOk(b) && b.sent == w.app.sent && b.actions == w.app.actions
    ensures WorldOk(cfg, w.(clock := now, app := b))
  {
    var v := w.(clock := now, app := b);
    forall i | 0 <= i < |v.server.execs| ensures CallOk(v, i) {
      assert CallOk(w, i);
    }
  }

  lemma StepKeepsWorld(cfg: S.Config, w: World, now: int, e: Event)
    requires WorldOk(cfg, w) && S.Safe(cfg)
    ensures WorldOk(cfg, Next(cfg, w, now, e))
  {
    if Enabled(w, now, e) {
      match e
      case Send(u, action, nonce) =>
        SendKeepsApp(w.app, u, action, nonce);
        AppStepKeepsWorld(cfg, w, now, AfterSend(w.app, u, action, nonce), u);
      case PostAnswered(u, reply) =>
        PostAnsweredKeepsApp(w.app, u, reply, now);
        QuietAppStepKeepsWorld(cfg, w, now, AfterPostAnswered(w.app, u, reply, now));
      case WatchEnds(u, retryId, nonce) =>
        WatchEndsKeepsApp(w.app, u, retryId, nonce);
        AppStepKeepsWorld(cfg, w, now, AfterWatchEnds(w.app, u, retryId, nonce), retryId);
      case Result(serverId, status) =>
        ResultKeepsApp(w.app, serverId, status);
        QuietAppStepKeepsWorld(cfg, w, now, AfterResultOf(w.app, serverId, status));
      case Deliver(r, resolved) => ServerStepKeepsWorld(cfg, w, now, S.Post(r, resolved));
      case ServerStep(event) => ServerStepKeepsWorld(cfg, w, now, event);
    }
  }

  lemma {:induction false} WorldAlwaysOk(cfg: S.Config, deviceId: string, steps: seq<Step>)
    requires S.Safe(cfg)
    ensures WorldOk(cfg, After(cfg, deviceId, steps))
  {
    if steps != [] {
      var last := steps[|steps| - 1];
      WorldAlwaysOk(cfg, deviceId, steps[..|steps| - 1]);
      StepKeepsWorld(cfg, After(cfg, deviceId, steps[..|steps| - 1]), last.now, last.event);
    }
  }

  // ---- At most two writes for each user action ---------------------------------------------

  /** The server ids action u has posted under. */
  ghost function IdsOf(a: App, u: string): set<string> {
    set x | x in a.sent && a.sent[x].publicId == u
  }

  lemma AtMostTwoIds(a: App, u: string)
    requires AppOk(a) && u in a.tasks
    ensures |IdsOf(a, u)| <= 2
  {
    var second := match a.tasks[u]
                  case PostingRetry(r) => r
                  case WatchingRetry(r, _) => r
                  case Over(r) => if r.Some? then r.value else u
                  case _ => u;
    forall x | x in IdsOf(a, u) ensures x in {u, second} {
      assert PostOk(a, x);
    }
    SubsetIsSmaller(IdsOf(a, u), {u, second});
  }

  lemma SubsetIsSmaller<X>(a: set<X>, b: set<X>)
    requires a <= b
    ensures |a| <= |b|
  {
    assert b == a + (b - a);
  }

  /** The writes the server has issued for action u. */
  ghost function WritesFor(w: World, u: string): set<nat> {
    set a: nat | a < |w.server.writes| && w.server.writes[a].commandId in IdsOf(w.app, u)
  }

  /** Writes of different commands are no more than the commands. */
  lemma {:induction false} WritesUpTo(w: World, ids: set<string>, n: nat)
    requires T.OneWriteEach(w.server) && n <= |w.server.writes|
    ensures |set a: nat | a < n && w.server.writes[a].commandId in ids| <= |ids|
    decreases n
  {
    var now := set a: nat | a < n && w.server.writes[a].commandId in ids;
    if n == 0 {
      assert now == {};
    } else {
      var c := w.server.writes[n - 1].commandId;
      var before := set a: nat | a < n - 1 && w.server.writes[a].commandId in ids;
      if c in ids {
        var others := set a: nat | a < n - 1 && w.server.writes[a].commandId in ids - {c};
        WritesUpTo(w, ids - {c}, n - 1);
        assert now == others + {n - 1};
      } else {
        WritesUpTo(w, ids, n - 1);
        assert now == before;
      }
    }
  }

  lemma ServerWritesOnce(cfg: S.Config, w: World)
    requires WorldOk(cfg, w)
    ensures T.OneWriteEach(w.server)
  {
    T.InvGivesOneWriteEach(cfg, w.server);
  }

  /** However POSTs are lost, duplicated and delayed and whatever the app is told about them: one user
      action never causes more than two writes, provided no call on the server is suspended before
      storing its record for longer than a nonce lives. */
  lemma AtMostTwoWritesPerAction(cfg: S.Config, deviceId: string, steps: seq<Step>, u: string)
    requires S.Safe(cfg) && u in After(cfg, deviceId, steps).app.actions
    ensures |WritesFor(After(cfg, deviceId, steps), u)| <= 2
  {
    var w := After(cfg, deviceId, steps);
    WorldAlwaysOk(cfg, deviceId, steps);
    ServerWritesOnce(cfg, w);
    ActionsHaveTasks(cfg, deviceId, steps, u);
    AtMostTwoIds(w.app, u);
    WritesUpTo(w, IdsOf(w.app, u), |w.server.writes|);
    assert WritesFor(w, u) == set a: nat | a < |w.server.writes| && w.server.writes[a].commandId in IdsOf(w.app, u);
  }

  lemma {:induction false} ActionsHaveTasks(cfg: S.Config, deviceId: string, steps: seq<Step>, u: string)
    requires u in After(cfg, deviceId, steps).app.actions
    ensures u in After(cfg, deviceId, steps).app.tasks
  {
    if steps != [] {
      var w := After(cfg, deviceId, steps[..|steps| - 1]);
      if u in w.app.actions {
        ActionsHaveTasks(cfg, deviceId, steps[..|steps| - 1], u);
      }
    }
  }

  // ---- What those writes write -------------------------------------------------------------

  ghost predicate Resolves(step: Step, objectId: string, stateId: string) {
    && step.event.Deliver? && step.event.request.objectId == objectId
    && step.event.resolved.Access? && step.event.resolved.stateId == stateId
  }

  /** At some delivery of the run the catalog answered that the object is this state. */
  ghost predicate WasResolved(steps: seq<Step>, objectId: string, stateId: string) {
    exists k :: 0 <= k < |steps| && Resolves(steps[k], objectId, stateId)
  }

  lemma StaysResolved(steps: seq<Step>, objectId: string, stateId: string)
    requires steps != [] && WasResolved(steps[..|steps| - 1], objectId, stateId)
    ensures WasResolved(steps, objectId, stateId)
  {
    var before := steps[..|steps| - 1];
    var k :| 0 <= k < |before| && Resolves(before[k], objectId, stateId);
    assert Resolves(steps[k], objectId, stateId);
  }

  ghost predicate CallResolved(steps: seq<Step>, server: S.State, i: nat) {
    i < |server.execs| && WasResolved(steps, server.execs[i].request.objectId, server.execs[i].stateId)
  }

  lemma {:induction false} CallsWereResolved(cfg: S.Config, deviceId: string, steps: seq<Step>, i: nat)
    requires i < |After(cfg, deviceId, steps).server.execs|
    ensures CallResolved(steps, After(cfg, deviceId, steps).server, i)
  {
    if steps != [] {
      var before, last := steps[..|steps| - 1], steps[|steps| - 1];
      var w := After(cfg, deviceId, before);
      StepResolves(cfg, w, last, i);
      if i < |w.server.execs| {
        CallsWereResolved(cfg, deviceId, before, i);
        StaysResolved(steps, w.server.execs[i].request.objectId, w.server.execs[i].stateId);
      }
    }
  }

  lemma StepResolves(cfg: S.Config, w: World, step: Step, i: nat)
    requires i < |Next(cfg, w, step.now, step.event).server.execs|
    ensures var e := Next(cfg, w, step.now, step.event).server.execs[i];
            if i < |w.server.execs| then e.request == w.server.execs[i].request && e.stateId == w.server.execs[i].stateId
            else Resolves(step, e.request.objectId, e.stateId)
  {
    if step.event.Deliver? || step.event.ServerStep? {
      var event := if step.event.Deliver? then S.Post(step.event.request, step.event.resolved) else step.event.event;
      if S.Enabled(cfg, w.server, step.now, event) {
        RequestsStay(cfg, w.server, step.now, event);
      }
    }
  }

  /** Each write issued for an action carries the value the user asked for, to the object the user
      asked for: its state is one the catalog gave for that object when a copy was delivered. */
  lemma WritesCarryTheAction(cfg: S.Config, deviceId: string, steps: seq<Step>, u: string, a: nat)
    requires S.Safe(cfg) && a in WritesFor(After(cfg, deviceId, steps), u)
    ensures var w := After(cfg, deviceId, steps);
            && u in w.app.actions && w.server.writes[a].value == w.app.actions[u].value
            && WasResolved(steps, w.app.actions[u].objectId, w.server.writes[a].stateId)
  {
    var w := After(cfg, deviceId, steps);
    WorldAlwaysOk(cfg, deviceId, steps);
    T.WriteIsItsCalls(cfg, w.server, a);
    assert CallOk(w, w.server.writes[a].exec);
    CallsWereResolved(cfg, deviceId, steps, w.server.writes[a].exec);
  }

  // ---- Where results are shown -------------------------------------------------------------

  lemma StepKeepsApp(cfg: S.Config, w: World, now: int, e: Event)
    requires AppOk(w.app)
    ensures AppOk(Next(cfg, w, now, e).app)
  {
    if Enabled(w, now, e) {
      match e
      case Send(u, action, nonce) => SendKeepsApp(w.app, u, action, nonce);
      case PostAnswered(u, reply) => PostAnsweredKeepsApp(w.app, u, reply, now);
      case WatchEnds(u, retryId, nonce) => WatchEndsKeepsApp(w.app, u, retryId, nonce);
      case Result(serverId, status) => ResultKeepsApp(w.app, serverId, status);
      case _ =>
    }
  }

  lemma {:induction false} AppAlwaysOk(cfg: S.Config, deviceId: string, steps: seq<Step>)
    ensures AppOk(After(cfg, deviceId, steps).app)
  {
    if steps != [] {
      var last := steps[|steps| - 1];
      AppAlwaysOk(cfg, deviceId, steps[..|steps| - 1]);
      StepKeepsApp(cfg, After(cfg, deviceId, steps[..|steps| - 1]), last.now, last.event);
    } else {
      forall x ensures MappedIff(Fresh(deviceId).app, x) {}
    }
  }

  /** A result is shown under an id of the action it belongs to: under the public id exactly if that is its
      own, or if it is a retry's whose post has not failed and which has had no terminal result yet, and
      under its own id otherwise. */
  lemma {:induction false} ResultsStayWithTheirAction(cfg: S.Config, deviceId: string, steps: seq<Step>, serverId: string)
    requires serverId in After(cfg, deviceId, steps).app.sent
    ensures var app := After(cfg, deviceId, steps).app;
            var shown := PublicId(app.repository, serverId);
            var u := app.sent[serverId].publicId;
            && u in app.tasks && shown in app.sent && app.sent[shown].publicId == u && (shown == u || shown == serverId)
            && (shown == u <==> serverId == u || (serverId !in app.closed && serverId !in app.failed))
            && ((app.tasks[u].PostingRetry? || app.tasks[u].WatchingRetry?) && serverId !in app.closed ==> shown == u)
  {
    AppAlwaysOk(cfg, deviceId, steps);
    var app := After(cfg, deviceId, steps).app;
    assert PostOk(app, serverId) && MappedIff(app, serverId) && TaskOk(app, app.sent[serverId].publicId);
    if serverId in app.repository.retries {
      assert RetryOk(app, serverId);
    }
  }

  const ASKED := Action("o", C.Bool(true), false)

  /** One action whose retry times out at the server and is confirmed by the recheck. */
  function ConfirmedLate(): seq<Step> {
    [Step(0, Send("u", ASKED, "m"))] + [Step(0, PostAnswered("u", Succeeded))]
    + [Step(COMMAND_TIMEOUT_MS, WatchEnds("u", "r", "n"))] + [Step(COMMAND_TIMEOUT_MS, PostAnswered("u", Succeeded))]
    + [Step(COMMAND_TIMEOUT_MS, Result("r", TIMEOUT))] + [Step(COMMAND_TIMEOUT_MS, Result("r", CONFIRMED))]
  }

  lemma AfterMore(cfg: S.Config, deviceId: string, steps: seq<Step>, step: Step)
    ensures After(cfg, deviceId, steps + [step]) == Next(cfg, After(cfg, deviceId, steps), step.now, step.event)
  {
    assert (steps + [step])[..|steps|] == steps;
  }

  // The retry has been posted, and waits.
  lemma RetryPosted(cfg: S.Config, deviceId: string)
    ensures var w := After(cfg, deviceId, ConfirmedLate()[..4]);
            w.clock == COMMAND_TIMEOUT_MS && w.app.repository == Repository(map["u" := ACCEPTED], map["r" := "u"])
  {
    var s1 := [Step(0, Send("u", ASKED, "m"))];
    AfterMore(cfg, deviceId, [], s1[0]);
    assert [] + s1 == s1;
    var s2 := s1 + [Step(0, PostAnswered("u", Succeeded))];
    AfterMore(cfg, deviceId, s1, Step(0, PostAnswered("u", Succeeded)));
    var w2 := After(cfg, deviceId, s2);
    assert w2.app.tasks == map["u" := WatchingFirst(COMMAND_TIMEOUT_MS)];
    RetryStarts(cfg, w2);
    AfterMore(cfg, deviceId, s2, Step(COMMAND_TIMEOUT_MS, WatchEnds("u", "r", "n")));
    AfterMore(cfg, deviceId, s2 + [Step(COMMAND_TIMEOUT_MS, WatchEnds("u", "r", "n"))], Step(COMMAND_TIMEOUT_MS, PostAnswered("u", Succeeded)));
    assert ConfirmedLate()[..4] == s2 + [Step(COMMAND_TIMEOUT_MS, WatchEnds("u", "r", "n"))] + [Step(COMMAND_TIMEOUT_MS, PostAnswered("u", Succeeded))];
  }

  lemma RetryStarts(cfg: S.Config, w: World)
    requires w.clock == 0 && w.app.tasks == map["u" := WatchingFirst(COMMAND_TIMEOUT_MS)] && w.app.sent.Keys == {"u"}
    requires w.app.repository == Repository(map["u" := ACCEPTED], map[]) && w.server == S.START
    ensures var w' := Next(cfg, w, COMMAND_TIMEOUT_MS, WatchEnds("u", "r", "n"));
            && w'.clock == COMMAND_TIMEOUT_MS && w'.app.tasks == map["u" := PostingRetry("r")]
            && w'.app.repository == Repository(map["u" := ACCEPTED], map["r" := "u"])
  {
    assert IsFresh(w, "r");
  }

  /** The late confirmation is shown under the retry's own id, and the action itself still as timed out. */
  lemma {:induction false} LateResultIsShownApart(cfg: S.Config, deviceId: string)
    ensures var states := After(cfg, deviceId, ConfirmedLate()).app.repository.states;
            "u" in states && states["u"] == TIMEOUT && "r" in states && states["r"] == CONFIRMED
  {
    var s4 := ConfirmedLate()[..4];
    RetryPosted(cfg, deviceId);
    var s5 := s4 + [Step(COMMAND_TIMEOUT_MS, Result("r", TIMEOUT))];
    AfterMore(cfg, deviceId, s4, Step(COMMAND_TIMEOUT_MS, Result("r", TIMEOUT)));
    assert After(cfg, deviceId, s5).app.repository == Repository(map["u" := TIMEOUT], map[]);
    AfterMore(cfg, deviceId, s5, Step(COMMAND_TIMEOUT_MS, Result("r", CONFIRMED)));
    assert ConfirmedLate() == s5 + [Step(COMMAND_TIMEOUT_MS, Result("r", CONFIRMED))];
  }
}

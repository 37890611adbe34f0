/** Which status the app shows for an action, and when it gives up waiting. */
module CommandShown {
  import opened Common
  import C = Commands
  import S = CommandRuns
  import opened CommandRepositories
  import opened CommandWorld

  predicate IsUnresolved(a: App, u: string) {
    u in a.repository.states && a.repository.states[u] !in {CONFIRMED, TIMEOUT, REJECTED, BLOCKED}
  }

  /** Whom a server id's result is about: the action of a retry that is still open, else the id itself. */
  function About(a: App, x: string): string {
    if IsOpenRetry(a, x) then a.sent[x].publicId else x
  }

  /** What a step tells the user about u, if anything. */
  ghost function Tells(w: World, step: Step, u: string): Option<CommandStatus> {
    if !Enabled(w, step.now, step.event) then None else
    match step.event
    case Send(v, _, _) => if v == u then Some(ACCEPTED) else None
    case PostAnswered(v, reply) =>
      if v != u || reply == Succeeded then None
      else if w.app.tasks[u].PostingRetry? then Some(TIMEOUT)
      else Some(if reply == FailedLocalOnly then BLOCKED else REJECTED)
    case WatchEnds(v, _, _) =>
      if v == u && w.app.tasks[u].WatchingRetry? && IsUnresolved(w.app, u) then Some(TIMEOUT) else None
    case Result(x, status) => if About(w.app, x) == u then Some(status) else None
    case _ => None
  }

  lemma AboutIsShown(a: App, x: string)
    requires AppOk(a)
    ensures PublicId(a.repository, x) == About(a, x)
  {
    assert MappedIff(a, x);
    if x in a.repository.retries {
      assert RetryOk(a, x);
    }
  }

  lemma StepShows(cfg: S.Config, w: World, step: Step, u: string)
    requires AppOk(w.app)
    ensures var states, told := Next(cfg, w, step.now, step.event).app.repository.states, Tells(w, step, u);
            && (u in states <==> told.Some? || u in w.app.repository.states)
            && (u in states ==> states[u] == if told.Some? then told.value else w.app.repository.states[u])
  {
    if step.event.Result? {
      AboutIsShown(w.app, step.event.serverId);
    }
  }

  ghost predicate TellsAt(cfg: S.Config, deviceId: string, steps: seq<Step>, k: nat, u: string, status: CommandStatus) {
    k < |steps| && Tells(After(cfg, deviceId, steps[..k]), steps[k], u) == Some(status)
  }

  /** From step k on, nothing more is told about u. */
  ghost predicate SilentFrom(cfg: S.Config, deviceId: string, steps: seq<Step>, k: nat, u: string) {
    forall j: nat {:trigger steps[j]} :: k <= j < |steps| ==> Tells(After(cfg, deviceId, steps[..j]), steps[j], u).None?
  }

  ghost predicate LastTold(cfg: S.Config, deviceId: string, steps: seq<Step>, k: nat, u: string, status: CommandStatus) {
    TellsAt(cfg, deviceId, steps, k, u, status) && SilentFrom(cfg, deviceId, steps, k + 1, u)
  }

  /** Over every run, the app shows for an action what it was last told about it: accepted when it was sent;
      blocked after a local-only failure of its first post and rejected after any other failure of it;
      timed out after a failed post of the retry or a second watch that ended unresolved; and otherwise the
      status of a result that arrived for it, or for its retry while that was open. */
  lemma {:induction false} ShownIsLastTold(cfg: S.Config, deviceId: string, steps: seq<Step>, u: string, status: CommandStatus)
    ensures var states := After(cfg, deviceId, steps).app.repository.states;
            u in states && states[u] == status <==> exists k: nat :: LastTold(cfg, deviceId, steps, k, u, status)
  {
    if steps != [] {
      var n, last := |steps| - 1, steps[|steps| - 1];
      var before := steps[..n];
      var w := After(cfg, deviceId, before);
      ShownIsLastTold(cfg, deviceId, before, u, status);
      AppAlwaysOk(cfg, deviceId, before);
      StepShows(cfg, w, last, u);
      if Tells(w, last, u).Some? {
        assert Tells(w, last, u) == Some(status) ==> LastTold(cfg, deviceId, steps, n, u, status);
        forall k: nat | LastTold(cfg, deviceId, steps, k, u, status) ensures k == n {
          assert steps[n] == last;
        }
      } else {
        forall k: nat ensures LastTold(cfg, deviceId, steps, k, u, status) <==> LastTold(cfg, deviceId, before, k, u, status) {
          SilentStepKeeps(cfg, deviceId, steps, k, u, status);
        }
      }
    }
  }

  lemma SilentStepKeeps(cfg: S.Config, deviceId: string, steps: seq<Step>, k: nat, u: string, status: CommandStatus)
    requires steps != [] && Tells(After(cfg, deviceId, steps[..|steps| - 1]), steps[|steps| - 1], u).None?
    ensures LastTold(cfg, deviceId, steps, k, u, status) <==> LastTold(cfg, deviceId, steps[..|steps| - 1], k, u, status)
  {
    var before := steps[..|steps| - 1];
    forall j: nat | j < |before| ensures before[..j] == steps[..j] && before[j] == steps[j] {}
  }

  /** Nobody is shown a confirmation that did not arrive. */
  lemma {:induction false} ConfirmedWasReported(cfg: S.Config, deviceId: string, steps: seq<Step>, u: string)
    requires u in After(cfg, deviceId, steps).app.repository.states
    requires After(cfg, deviceId, steps).app.repository.states[u] == CONFIRMED
    ensures exists k: nat :: k < |steps| && steps[k].event.Result? && steps[k].event.status == CONFIRMED
              && About(After(cfg, deviceId, steps[..k]).app, steps[k].event.serverId) == u
  {
    ShownIsLastTold(cfg, deviceId, steps, u, CONFIRMED);
    var k: nat :| LastTold(cfg, deviceId, steps, k, u, CONFIRMED);
  }

  // ---- The watches -------------------------------------------------------------------------

  /** At step k a post of action u was answered. */
  ghost predicate AnsweredAt(cfg: S.Config, deviceId: string, steps: seq<Step>, k: nat, u: string) {
    && k < |steps| && steps[k].event == PostAnswered(u, Succeeded)
    && Enabled(After(cfg, deviceId, steps[..k]), steps[k].now, steps[k].event)
  }

  /** And no later one. */
  ghost predicate LastAnswered(cfg: S.Config, deviceId: string, steps: seq<Step>, k: nat, u: string) {
    AnsweredAt(cfg, deviceId, steps, k, u)
    && forall j: nat {:trigger steps[j]} :: k < j < |steps| ==> !AnsweredAt(cfg, deviceId, steps, j, u)
  }

  predicate IsWatched(a: App, u: string) {
    u in a.tasks && (a.tasks[u].WatchingFirst? || a.tasks[u].WatchingRetry?)
  }

  lemma StepWatches(cfg: S.Config, w: World, step: Step, u: string)
    requires IsWatched(Next(cfg, w, step.now, step.event).app, u)
    ensures var t := Next(cfg, w, step.now, step.event);
            if step.event == PostAnswered(u, Succeeded) && Enabled(w, step.now, step.event)
            then t.app.tasks[u].due == step.now + 30_000
            else IsWatched(w.app, u) && t.app.tasks[u] == w.app.tasks[u]
  {
  }

  lemma {:induction false} WatchesAreTimed(cfg: S.Config, deviceId: string, steps: seq<Step>, u: string) returns (k: nat)
    requires IsWatched(After(cfg, deviceId, steps).app, u)
    ensures LastAnswered(cfg, deviceId, steps, k, u)
    ensures After(cfg, deviceId, steps).app.tasks[u].due == steps[k].now + 30_000
  {
    var n, last := |steps| - 1, steps[|steps| - 1];
    var w := After(cfg, deviceId, steps[..n]);
    StepWatches(cfg, w, last, u);
    if last.event == PostAnswered(u, Succeeded) && Enabled(w, last.now, last.event) {
      k := n;
    } else {
      k := WatchesAreTimed(cfg, deviceId, steps[..n], u);
      forall j: nat | j < n ensures steps[..n][..j] == steps[..j] && steps[..n][j] == steps[j] {}
      assert !AnsweredAt(cfg, deviceId, steps, n, u);
      forall j: nat | k < j < |steps| ensures !AnsweredAt(cfg, deviceId, steps, j, u) {
        assert j < n ==> !AnsweredAt(cfg, deviceId, steps[..n], j, u);
      }
      assert AnsweredAt(cfg, deviceId, steps[..n], k, u);
    }
  }

  /** A watch ends no earlier than 30 seconds after the post it watches was answered, and can from then on;
      the first one ends in a retry if nothing has resolved the action yet, and in nothing otherwise; the
      second one in a timeout or in nothing. */
  lemma {:induction false} WatchEndsAfter30Seconds(
      cfg: S.Config, deviceId: string, steps: seq<Step>, u: string, retryId: string, nonce: string, now: int) returns (k: nat)
    requires IsWatched(After(cfg, deviceId, steps).app, u) && IsFresh(After(cfg, deviceId, steps), retryId)
    requires After(cfg, deviceId, steps).clock <= now
    ensures var w := After(cfg, deviceId, steps);
            var e := WatchEnds(u, retryId, nonce);
            var t := Next(cfg, w, now, e).app;
            && LastAnswered(cfg, deviceId, steps, k, u)
            && (Enabled(w, now, e) <==> now - steps[k].now >= 30_000)
            && (Enabled(w, now, e) && w.app.tasks[u].WatchingFirst? ==>
                  if IsUnresolved(w.app, u)
                  then t.tasks[u] == PostingRetry(retryId) && retryId in t.sent && t.sent[retryId] == Sent(u, nonce)
                       && t.repository.states == w.app.repository.states
                  else t == w.app.(tasks := w.app.tasks[u := Over(None)]))
            && (Enabled(w, now, e) && w.app.tasks[u].WatchingRetry? ==>
                  t.tasks[u].Over? && t.sent == w.app.sent
                  && t.repository.states == if IsUnresolved(w.app, u) then w.app.repository.states[u := TIMEOUT] else w.app.repository.states)
  {
    k := WatchesAreTimed(cfg, deviceId, steps, u);
  }
}

/** What holds of refresh tokens in every run of the session service. */
module SessionTheorems {
  import opened Common
  import opened Sessions
  import opened SessionRuns

  /** The answer a refresh deserves, told from the chain of tokens alone: only the last token of an
      unrevoked, unexpired session of that device is accepted, only the one before it is reuse. */
  ghost function Verdict(s: State, deviceId: string, presented: Token, now: int): Rotation
    requires Inv(s)
  {
    if presented !in s.issued then UnknownToken else
      assert FiledOk(s, presented);
      var place := s.issued[presented];
      var x := s.store[place.id];
      if x.revoked || x.deviceId != deviceId || place.index + 2 < |s.chains[place.id]| then UnknownToken
      else if x.expiresAt < now then Expired
      else if place.index + 2 == |s.chains[place.id]| then Reused
      else Rotated(place.id)
  }

  lemma HolderIsOwner(s: State, id: string, presented: Token)
    requires Inv(s) && id in s.store && !s.store[id].revoked
    requires s.store[id].refreshTokenHash == Sha256(presented) || s.store[id].previousRefreshTokenHash == Some(Sha256(presented))
    ensures presented in s.issued && s.issued[presented].id == id
    ensures s.store[id].refreshTokenHash == Sha256(presented) <==> s.issued[presented].index + 1 == |s.chains[id]|
    ensures s.store[id].previousRefreshTokenHash == Some(Sha256(presented)) <==> s.issued[presented].index + 2 == |s.chains[id]|
  {
    assert CardOk(s, id);
    var n := |s.chains[id]|;
    assert ChainOk(s, id, n - 1);
    if n > 1 {
      assert ChainOk(s, id, n - 2);
    }
  }

  lemma {:induction false} RefreshFollowsTheChain(events: seq<Event>, deviceId: string, presented: Token, found: Option<string>, now: int)
    requires Finds(After(events).store, deviceId, presented, found)
    ensures Inv(After(events))
    ensures Answer(After(events).store, found, presented, now) == Verdict(After(events), deviceId, presented, now)
  {
    InvAlways(events);
    FollowsFrom(After(events), deviceId, presented, found, now);
  }

  lemma FollowsFrom(s: State, deviceId: string, presented: Token, found: Option<string>, now: int)
    requires Inv(s) && Finds(s.store, deviceId, presented, found)
    ensures Answer(s.store, found, presented, now) == Verdict(s, deviceId, presented, now)
  {
    match found
    case Some(id) =>
      HolderIsOwner(s, id, presented);
      assert CardOk(s, id);
    case None =>
      if presented in s.issued {
        assert FiledOk(s, presented);
        var id := s.issued[presented].id;
        assert CardOk(s, id) && !Matches(s.store[id], deviceId, Sha256(presented));
      }
  }

  // ---- Each token is redeemed at most once ----

  ghost predicate Accepts(s: State, e: Event) {
    Enabled(s, e) && e.Refresh? && Answer(s.store, e.found, e.presented, e.now).Rotated?
  }

  ghost predicate Accepted(events: seq<Event>, i: nat, token: Token) {
    i < |events| && Accepts(After(events[..i]), events[i]) && events[i].presented == token
  }

  // A later token of the same session has been issued.
  ghost predicate Superseded(s: State, token: Token) {
    token in s.issued && s.issued[token].id in s.chains && s.issued[token].index + 1 < |s.chains[s.issued[token].id]|
  }

  lemma AcceptanceSupersedes(s: State, e: Event)
    requires Inv(s) && Accepts(s, e)
    ensures !Superseded(s, e.presented) && Superseded(Try(s, e), e.presented)
  {
    HolderIsOwner(s, e.found.value, e.presented);
  }

  lemma SupersededStays(s: State, e: Event, token: Token)
    requires Inv(s) && Superseded(s, token)
    ensures Superseded(Try(s, e), token)
  {
    StepKeeps(s, e);
    var s' := Try(s, e);
    var place := s.issued[token];
    assert FiledOk(s, token) && Grows(s, s', place.id) && ChainOk(s', place.id, place.index);
  }

  lemma {:induction false} SupersededFrom(events: seq<Event>, i: nat, token: Token)
    requires Accepted(events, i, token)
    ensures Superseded(After(events), token)
  {
    var before := events[..|events| - 1];
    InvAlways(before);
    if i == |events| - 1 {
      AcceptanceSupersedes(After(before), events[i]);
    } else {
      assert before[..i] == events[..i];
      SupersededFrom(before, i, token);
      SupersededStays(After(before), events[|events| - 1], token);
    }
  }

  lemma {:induction false} AcceptedAtMostOnce(events: seq<Event>, i: nat, j: nat, token: Token)
    requires Accepted(events, i, token) && Accepted(events, j, token)
    ensures i == j
  {
    var a, b := if i < j then i else j, if i < j then j else i;
    if a < b {
      assert events[..b][..a] == events[..a];
      SupersededFrom(events[..b], a, token);
      InvAlways(events[..b]);
      AcceptanceSupersedes(After(events[..b]), events[b]);
    }
  }

  // ---- The generation counts the accepted rotations ----

  ghost function Rotations(events: seq<Event>, id: string): nat {
    if |events| == 0 then 0 else
      var before := events[..|events| - 1];
      var e := events[|events| - 1];
      Rotations(before, id) + if Accepts(After(before), e) && e.found == Some(id) then 1 else 0
  }

  ghost function ChainLength(s: State, id: string): nat {
    if id in s.chains then |s.chains[id]| else 0
  }

  lemma ChainStep(s: State, e: Event, id: string)
    requires Inv(s)
    ensures ChainLength(Try(s, e), id) == ChainLength(s, id) +
      (if (Accepts(s, e) && e.found == Some(id)) || (Enabled(s, e) && e.Create? && e.id == id) then 1 else 0)
    ensures Enabled(s, e) && e.Create? && e.id == id ==> ChainLength(s, id) == 0
    ensures Accepts(s, e) && e.found == Some(id) ==> ChainLength(s, id) > 0
  {
    if Accepts(s, e) {
      assert CardOk(s, e.found.value);
    }
  }

  lemma {:induction false} ChainCountsRotations(events: seq<Event>, id: string)
    ensures ChainLength(After(events), id) == (if id in After(events).chains then Rotations(events, id) + 1 else 0)
    ensures id !in After(events).chains ==> Rotations(events, id) == 0
  {
    if |events| > 0 {
      var before := events[..|events| - 1];
      ChainCountsRotations(before, id);
      InvAlways(before);
      InvAlways(events);
      ChainStep(After(before), events[|events| - 1], id);
      assert id in After(events).chains ==> CardOk(After(events), id);
      assert id in After(before).chains ==> CardOk(After(before), id);
    }
  }

  lemma {:induction false} GenerationCountsRotations(events: seq<Event>, id: string)
    requires id in After(events).store && !After(events).store[id].revoked
    ensures After(events).store[id].refreshGeneration == Rotations(events, id)
  {
    InvAlways(events);
    ChainCountsRotations(events, id);
    assert CardOk(After(events), id);
  }

  // ---- Revocation ----

  lemma {:induction false} RevokedForever(events: seq<Event>, n: nat, id: string)
    requires n <= |events| && id in After(events[..n]).store && After(events[..n]).store[id].revoked
    ensures id in After(events).store && After(events).store[id].revoked
    ensures Rotations(events, id) == Rotations(events[..n], id)
    decreases |events|
  {
    InvAlways(events[..n]);
    RunsGrow(events, n);
    assert Grows(After(events[..n]), After(events), id);
    if n == |events| {
      assert events[..n] == events;
    } else {
      var before := events[..|events| - 1];
      assert before[..n] == events[..n];
      RevokedForever(before, n, id);
    }
  }

  lemma SingleSweep(s: State, id: string)
    requires id in s.store && s.store[id].id == id
    ensures AfterBegin(s, [id]).store == s.store[id := s.store[id].(revoked := true)]
  {
    var targets := seq(1, i requires 0 <= i < 1 => s.store[[id][i]]);
    assert targets[0] == s.store[id];
  }

  lemma OnlyListed(store: Store, scope: Scope, order: seq<string>, id: string)
    requires Lists(store, scope, order) && id in order && forall other :: other in order ==> other == id
    ensures order == [id]
  {
    assert |order| < 2 || order[0] != order[1];
    forall k | 0 <= k < |order| ensures order[k] == id {
      assert order[k] in order;
    }
  }

  lemma ReuseRevokes(s: State, e: Event)
    requires Inv(s) && Enabled(s, e) && e.Refresh? && Answer(s.store, e.found, e.presented, e.now).Reused?
    ensures e.found.Some? && e.found.value in s.store
    ensures Try(s, e).store == s.store[e.found.value := s.store[e.found.value].(revoked := true)]
  {
    var id := e.found.value;
    assert CardOk(s, id) && id in e.order;
    OnlyListed(s.store, OneFamily(s.store[id].tokenFamily), e.order, id);
    SingleSweep(s, id);
  }

  /** Token families are unique to a session, so reuse revokes the one session, and at once. */
  lemma ReuseRevokesThatSession(events: seq<Event>, e: Event)
    requires Enabled(After(events), e) && e.Refresh? && Answer(After(events).store, e.found, e.presented, e.now).Reused?
    ensures e.found.Some? && e.found.value in After(events).store
    ensures After(events + [e]).store ==
      After(events).store[e.found.value := After(events).store[e.found.value].(revoked := true)]
  {
    InvAlways(events);
    ReuseRevokes(After(events), e);
    assert (events + [e])[..|events|] == events;
  }

  lemma FinishedSweepRevokedAll(events: seq<Event>, sweep: nat, k: nat)
    requires sweep < |After(events).sweeps|
    requires k < |After(events).sweeps[sweep].targets| == After(events).sweeps[sweep].next
    ensures var s := After(events); var id := s.sweeps[sweep].targets[k].id; id in s.store && s.store[id].revoked
  {
    InvAlways(events);
    assert TargetOk(After(events), sweep, k);
  }

  lemma SweepTargetsItsScope(events: seq<Event>, scope: Scope, order: seq<string>, id: string)
    requires Enabled(After(events), BeginSweep(scope, order))
    ensures var s := After(events);
      var s' := Try(s, BeginSweep(scope, order));
      && |s'.sweeps| == |s.sweeps| + 1 && |s'.sweeps[|s.sweeps|].targets| == |order|
      && (id in s.store && InScope(scope, s.store[id]) <==>
          exists k :: 0 <= k < |order| && s'.sweeps[|s.sweeps|].targets[k].id == id)
  {
    InvAlways(events);
    var s := After(events);
    var s' := Try(s, BeginSweep(scope, order));
    var targets := s'.sweeps[|s.sweeps|].targets;
    forall k | 0 <= k < |order| ensures targets[k].id == order[k] {
      assert order[k] in order && CardOk(s, order[k]);
    }
    if id in order {
      var k :| 0 <= k < |order| && order[k] == id;
      assert targets[k].id == id;
    }
  }

  lemma TargetsStayStep(s: State, e: Event, sweep: nat)
    requires sweep < |s.sweeps|
    ensures sweep < |Try(s, e).sweeps| && Try(s, e).sweeps[sweep].targets == s.sweeps[sweep].targets
  {}

  lemma {:induction false} TargetsStay(events: seq<Event>, n: nat, sweep: nat)
    requires n <= |events| && sweep < |After(events[..n]).sweeps|
    ensures sweep < |After(events).sweeps|
    ensures After(events).sweeps[sweep].targets == After(events[..n]).sweeps[sweep].targets
  {
    if n == |events| {
      assert events[..n] == events;
    } else {
      var before := events[..|events| - 1];
      assert before[..n] == events[..n];
      TargetsStay(before, n, sweep);
      TargetsStayStep(After(before), events[|events| - 1], sweep);
    }
  }

  ghost predicate IsFinished(s: State, sweep: nat) {
    sweep < |s.sweeps| && s.sweeps[sweep].next == |s.sweeps[sweep].targets|
  }

  /** Once a revoke loop has run to its end, however often it was interrupted and whatever was created,
      rotated or touched meanwhile, every session that was in its scope when it began is revoked. */
  lemma {:induction false} FinishedSweepRevokedItsScope(events: seq<Event>, n: nat, id: string)
    requires n < |events| && events[n].BeginSweep? && Enabled(After(events[..n]), events[n])
    requires IsFinished(After(events), |After(events[..n]).sweeps|)
    requires id in After(events[..n]).store && InScope(events[n].scope, After(events[..n]).store[id])
    ensures id in After(events).store && After(events).store[id].revoked
  {
    var begun, sweep := events[..n + 1], |After(events[..n]).sweeps|;
    assert begun[..n] == events[..n];
    SweepTargetsItsScope(events[..n], events[n].scope, events[n].order, id);
    var k :| 0 <= k < |events[n].order| && After(begun).sweeps[sweep].targets[k].id == id;
    TargetsStay(events, n + 1, sweep);
    FinishedSweepRevokedAll(events, sweep, k);
  }

  // ---- The four loops ----

  /** What each of the four loops is for. */
  lemma ScopesMean(scope: Scope, x: Session)
    ensures scope.OneFamily? ==> (InScope(scope, x) <==> x.tokenFamily == scope.family)
    ensures scope.OneUser? ==> (InScope(scope, x) <==> x.userId == scope.userId)
    ensures scope.OneDevice? ==> (InScope(scope, x) <==> x.deviceId == scope.deviceId)
    ensures scope.Everyone? ==> InScope(scope, x)
  {
  }

  ghost predicate BeginsAndEnds(events: seq<Event>, n: nat, scope: Scope, order: seq<string>) {
    && n < |events| && events[n] == BeginSweep(scope, order) && Enabled(After(events[..n]), events[n])
    && IsFinished(After(events), |After(events[..n]).sweeps|)
  }

  /** When the loop for a user has run to its end, every session the user had when it began is revoked. */
  lemma {:induction false} UserIsRevoked(events: seq<Event>, n: nat, userId: string, order: seq<string>, id: string)
    requires BeginsAndEnds(events, n, OneUser(userId), order)
    requires id in After(events[..n]).store && After(events[..n]).store[id].userId == userId
    ensures id in After(events).store && After(events).store[id].revoked
  {
    FinishedSweepRevokedItsScope(events, n, id);
  }

  lemma {:induction false} DeviceIsRevoked(events: seq<Event>, n: nat, deviceId: string, order: seq<string>, id: string)
    requires BeginsAndEnds(events, n, OneDevice(deviceId), order)
    requires id in After(events[..n]).store && After(events[..n]).store[id].deviceId == deviceId
    ensures id in After(events).store && After(events).store[id].revoked
  {
    FinishedSweepRevokedItsScope(events, n, id);
  }

  lemma {:induction false} FamilyIsRevoked(events: seq<Event>, n: nat, family: string, order: seq<string>, id: string)
    requires BeginsAndEnds(events, n, OneFamily(family), order)
    requires id in After(events[..n]).store && After(events[..n]).store[id].tokenFamily == family
    ensures id in After(events).store && After(events).store[id].revoked
  {
    FinishedSweepRevokedItsScope(events, n, id);
  }

  lemma {:induction false} EveryoneIsRevoked(events: seq<Event>, n: nat, order: seq<string>, id: string)
    requires BeginsAndEnds(events, n, Everyone, order) && id in After(events[..n]).store
    ensures id in After(events).store && After(events).store[id].revoked
  {
    FinishedSweepRevokedItsScope(events, n, id);
  }

  /** A session that is not the loop's to revoke. */
  ghost predicate IsSpared(scope: Scope, x: Session) {
    match scope
    case OneFamily(family) => x.tokenFamily != family
    case OneUser(userId) => x.userId != userId
    case OneDevice(deviceId) => x.deviceId != deviceId
    case Everyone => false
  }

  // The copies a loop has read are of sessions in its scope.
  ghost predicate SweepsScope(s: State, sweep: nat, scope: Scope) {
    sweep < |s.sweeps| && forall k :: 0 <= k < |s.sweeps[sweep].targets| ==> !IsSpared(scope, s.sweeps[sweep].targets[k])
  }

  lemma BegunSweepsScope(events: seq<Event>, scope: Scope, order: seq<string>)
    requires Enabled(After(events), BeginSweep(scope, order))
    ensures SweepsScope(Try(After(events), BeginSweep(scope, order)), |After(events).sweeps|, scope)
  {
    InvAlways(events);
    var s := After(events);
    var s' := Try(s, BeginSweep(scope, order));
    forall k | 0 <= k < |order| ensures !IsSpared(scope, s'.sweeps[|s.sweeps|].targets[k]) {
      assert order[k] in order;
      ScopesMean(scope, s.store[order[k]]);
    }
  }

  lemma PutSpares(s: State, sweep: nat, scope: Scope, id: string)
    requires Inv(s) && SweepsScope(s, sweep, scope) && id in s.store && IsSpared(scope, s.store[id])
    ensures var s' := Try(s, ResumeSweep(sweep)); id in s'.store && s'.store[id] == s.store[id]
  {
    if Enabled(s, ResumeSweep(sweep)) {
      var k := s.sweeps[sweep].next;
      assert TargetOk(s, sweep, k);
      assert !IsSpared(scope, s.sweeps[sweep].targets[k]);
    }
  }

  lemma BeginSpares(s: State, scope: Scope, order: seq<string>, id: string)
    requires Inv(s) && Enabled(s, BeginSweep(scope, order)) && id in s.store && IsSpared(scope, s.store[id])
    ensures var s' := Try(s, BeginSweep(scope, order)); id in s'.store && s'.store[id] == s.store[id]
  {
    ScopesMean(scope, s.store[id]);
    if |order| > 0 {
      assert order[0] in order && CardOk(s, order[0]);
    }
  }

  lemma SweepsScopeStays(events: seq<Event>, n: nat, m: nat)
    requires n < m < |events| && events[n].BeginSweep? && Enabled(After(events[..n]), events[n])
    ensures SweepsScope(After(events[..m]), |After(events[..n]).sweeps|, events[n].scope)
  {
    assert events[..n + 1][..n] == events[..n] && events[..m][..n + 1] == events[..n + 1];
    BegunSweepsScope(events[..n], events[n].scope, events[n].order);
    TargetsStay(events[..m], n + 1, |After(events[..n]).sweeps|);
  }

  /** However a loop is interrupted, none of its puts touches a session of another user, device or family. */
  lemma {:induction false} SweepSparesOthers(events: seq<Event>, n: nat, m: nat, id: string)
    requires n <= m < |events| && events[n].BeginSweep? && Enabled(After(events[..n]), events[n])
    requires m > n ==> events[m] == ResumeSweep(|After(events[..n]).sweeps|)
    requires id in After(events[..m]).store && IsSpared(events[n].scope, After(events[..m]).store[id])
    ensures id in After(events[..m + 1]).store && After(events[..m + 1]).store[id] == After(events[..m]).store[id]
  {
    assert events[..m + 1][..m] == events[..m];
    InvAlways(events[..m]);
    if m == n {
      BeginSpares(After(events[..m]), events[n].scope, events[n].order, id);
    } else {
      SweepsScopeStays(events, n, m);
      PutSpares(After(events[..m]), |After(events[..n]).sweeps|, events[n].scope, id);
    }
  }

  // ---- What a session says about its login ----

  ghost predicate CreatedAt(events: seq<Event>, n: nat, id: string, params: NewSessionParams, family: string, token: Token, now: int) {
    n < |events| && events[n] == Create(id, params, family, token, now) && Enabled(After(events[..n]), events[n])
  }

  /** Whatever happens to it, a session goes on saying whose it is, for which device and role, from when, and
      until when: the days asked for after its creation. */
  lemma {:induction false} SessionSaysItsLogin(
      events: seq<Event>, n: nat, id: string, params: NewSessionParams, family: string, token: Token, now: int)
    requires CreatedAt(events, n, id, params, family, token, now)
    ensures id in After(events).store
    ensures var x := After(events).store[id];
      && x.id == id && x.userId == params.userId && x.deviceId == params.deviceId && x.roleId == params.roleId
      && x.tokenFamily == family && x.userAgent == params.userAgent
      && x.createdAt == now && x.expiresAt == now + params.ttlDays * 86_400_000
  {
    var begun := events[..n + 1];
    assert begun[..n] == events[..n];
    InvAlways(events[..n]);
    RunsGrow(events, n + 1);
    assert Grows(After(begun), After(events), id);
  }

  /** A refresh of an unrevoked session is answered as expired exactly after those days. */
  lemma {:induction false} ExpiresAfterItsDays(
      events: seq<Event>, n: nat, id: string, params: NewSessionParams, family: string, token: Token, now: int, presented: Token, at: int)
    requires CreatedAt(events, n, id, params, family, token, now)
    requires id in After(events).store && !After(events).store[id].revoked
    ensures Answer(After(events).store, Some(id), presented, at).Expired? <==> at > now + params.ttlDays * 86_400_000
  {
    SessionSaysItsLogin(events, n, id, params, family, token, now);
  }

  /** When the session was last used and from where, told from the run: its login, its accepted refreshes and
      its touches. */
  datatype Use = Use(at: int, ip: Option<string>)

  ghost function LastUse(events: seq<Event>, id: string): Option<Use> {
    if |events| == 0 then None else
      var before := LastUse(events[..|events| - 1], id);
      var s, e := After(events[..|events| - 1]), events[|events| - 1];
      if Enabled(s, e) && e.Create? && e.id == id then Some(Use(e.now, e.params.ip))
      else if before.None? then None
      else if Accepts(s, e) && e.found == Some(id) then Some(before.value.(at := e.now))
      else if e.Touch? && e.id == id then Some(Use(e.now, if e.ip.Some? then e.ip else before.value.ip))
      else before
  }

  // A put of a loop revokes, so a session that is not revoked was not put.
  lemma SweepLeavesUse(s: State, e: Event, id: string)
    requires Inv(s) && Enabled(s, e) && (e.BeginSweep? || e.ResumeSweep?)
    requires id in Try(s, e).store && !Try(s, e).store[id].revoked
    ensures id in s.store && Try(s, e).store[id] == s.store[id]
  {
    if e.ResumeSweep? {
      assert TargetOk(s, e.sweep, s.sweeps[e.sweep].next);
    } else if |e.order| > 0 {
      assert e.order[0] in e.order && CardOk(s, e.order[0]);
    }
  }

  lemma RefreshUse(s: State, e: Event, id: string)
    requires Inv(s) && Enabled(s, e) && e.Refresh? && id in Try(s, e).store && !Try(s, e).store[id].revoked
    ensures id in s.store && !s.store[id].revoked
    ensures var x := Try(s, e).store[id];
      x.lastIp == s.store[id].lastIp && x.lastActivityAt == if Accepts(s, e) && e.found == Some(id) then e.now else s.store[id].lastActivityAt
  {
    if Answer(s.store, e.found, e.presented, e.now).Reused? {
      ReuseRevokes(s, e);
    }
    assert e.found.Some? ==> CardOk(s, e.found.value);
  }

  // What a step makes of a session that is not revoked afterwards.
  ghost predicate UseMoves(s: State, e: Event, id: string)
    requires id in Try(s, e).store
  {
    var x := Try(s, e).store[id];
    if Enabled(s, e) && e.Create? && e.id == id then x.lastActivityAt == e.now && x.lastIp == e.params.ip
    else
      && id in s.store && !s.store[id].revoked
      && x.lastActivityAt == (if (Accepts(s, e) && e.found == Some(id)) || (e.Touch? && e.id == id) then e.now else s.store[id].lastActivityAt)
      && x.lastIp == if e.Touch? && e.id == id && e.ip.Some? then e.ip else s.store[id].lastIp
  }

  lemma UseStep(s: State, e: Event, id: string)
    requires Inv(s) && id in Try(s, e).store && !Try(s, e).store[id].revoked
    ensures UseMoves(s, e, id)
  {
    if Enabled(s, e) {
      match e
      case Refresh(_, _, _, _, _, _) => RefreshUse(s, e, id);
      case BeginSweep(_, _) => SweepLeavesUse(s, e, id);
      case ResumeSweep(_) => SweepLeavesUse(s, e, id);
      case _ =>
    }
  }

  /** An unrevoked session knows when and from where it was last used, whatever loops have put back. */
  lemma {:induction false} ActivityIsLastUse(events: seq<Event>, id: string)
    requires id in After(events).store && !After(events).store[id].revoked
    ensures LastUse(events, id) == Some(Use(After(events).store[id].lastActivityAt, After(events).store[id].lastIp))
  {
    var before := events[..|events| - 1];
    InvAlways(before);
    UseStep(After(before), events[|events| - 1], id);
    if id in After(before).store && !After(before).store[id].revoked {
      ActivityIsLastUse(before, id);
    }
  }
}

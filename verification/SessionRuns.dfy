/** Every run of the session service: logins, refreshes, touches, revocations, and revoke loops that
    are interrupted between two puts and go on with the copies they read at their start. */
module SessionRuns {
  import opened Common
  import opened Sessions

  /** Where an issued token sits in its session's chain of refresh tokens. */
  datatype Place = Place(id: string, index: nat)

  /** A revoke loop: the copies it read, and how many of them it has put back. */
  datatype Sweep = Sweep(targets: seq<Session>, next: nat)

  /** `chains` and `issued` are history: the tokens of each session in the order they were issued. */
  datatype State = State(store: Store, chains: map<string, seq<Token>>, issued: map<Token, Place>, sweeps: seq<Sweep>)

  datatype Event =
    | Create(id: string, params: NewSessionParams, family: string, token: Token, now: int)
    | Refresh(deviceId: string, presented: Token, found: Option<string>, successor: Token, now: int, order: seq<string>)
    | Touch(id: string, ip: Option<string>, now: int)
    | Revoke(id: string)
    | BeginSweep(scope: Scope, order: seq<string>)
    | ResumeSweep(sweep: nat)

  const START := State(map[], map[], map[], [])

  // What findByRefreshToken may return.
  ghost predicate Finds(store: Store, deviceId: string, presented: Token, found: Option<string>) {
    match found
    case Some(id) => id in store && Matches(store[id], deviceId, Sha256(presented))
    case None => forall id :: id in store ==> !Matches(store[id], deviceId, Sha256(presented))
  }

  // The refresh route: find, then rotate, with no await in between.
  ghost function Answer(store: Store, found: Option<string>, presented: Token, now: int): Rotation {
    if found.Some? && found.value in store then Judge(store[found.value], presented, now) else UnknownToken
  }

  ghost predicate Lists(store: Store, scope: Scope, order: seq<string>) {
    && (forall i, j :: 0 <= i < j < |order| ==> order[i] != order[j])
    && (forall id :: id in order <==> id in store && InScope(scope, store[id]))
  }

  ghost predicate Enabled(s: State, e: Event) {
    match e
    case Create(id, _, family, token, _) =>
      id !in s.store && token !in s.issued && forall other :: other in s.store ==> s.store[other].tokenFamily != family
    case Refresh(deviceId, presented, found, successor, now, order) =>
      && Finds(s.store, deviceId, presented, found)
      && successor !in s.issued
      && (Answer(s.store, found, presented, now).Reused? ==>
            Lists(s.store, OneFamily(s.store[found.value].tokenFamily), order))
    case Touch(_, _, _) => true
    case Revoke(_) => true
    case BeginSweep(scope, order) => Lists(s.store, scope, order)
    case ResumeSweep(sweep) => sweep < |s.sweeps| && s.sweeps[sweep].next < |s.sweeps[sweep].targets|
  }

  ghost function AfterCreate(s: State, id: string, session: Session, token: Token): State {
    s.(store := s.store[id := session], chains := s.chains[id := [token]], issued := s.issued[token := Place(id, 0)])
  }

  ghost function AfterRotation(s: State, id: string, successor: Token, now: int): State
    requires id in s.store && id in s.chains
  {
    s.(store := s.store[id := Advance(s.store[id], successor, now)],
       chains := s.chains[id := s.chains[id] + [successor]],
       issued := s.issued[successor := Place(id, |s.chains[id]|)])
  }

  ghost function AfterPut(s: State, sweep: nat): State
    requires sweep < |s.sweeps| && s.sweeps[sweep].next < |s.sweeps[sweep].targets|
  {
    var w := s.sweeps[sweep];
    var copy := w.targets[w.next];
    s.(store := s.store[copy.id := copy.(revoked := true)], sweeps := s.sweeps[sweep := w.(next := w.next + 1)])
  }

  // The loop lists its targets and puts the first one without awaiting.
  ghost function AfterBegin(s: State, order: seq<string>): State
    requires forall id :: id in order ==> id in s.store
  {
    var targets := seq(|order|, i requires 0 <= i < |order| => s.store[order[i]]);
    var begun := s.(sweeps := s.sweeps + [Sweep(targets, 0)]);
    if |order| == 0 then begun else AfterPut(begun, |s.sweeps|)
  }

  ghost function WithSession(s: State, id: string, session: Session): State {
    s.(store := s.store[id := session])
  }

  ghost function Next(s: State, e: Event): State
    requires s.store.Keys == s.chains.Keys && Enabled(s, e)
  {
    match e
    case Create(id, params, family, token, now) =>
      AfterCreate(s, id, NewSession(id, params, family, token, now), token)
    case Refresh(_, presented, found, successor, now, order) =>
      (match Answer(s.store, found, presented, now)
       case Rotated(_) => AfterRotation(s, found.value, successor, now)
       case Reused => AfterBegin(s, order)
       case _ => s)
    case Touch(id, ip, now) => if id in s.store then WithSession(s, id, Touched(s.store[id], ip, now)) else s
    case Revoke(id) => if id in s.store then WithSession(s, id, s.store[id].(revoked := true)) else s
    case BeginSweep(_, order) => AfterBegin(s, order)
    case ResumeSweep(sweep) => AfterPut(s, sweep)
  }

  /** Events that cannot happen are skipped, so any sequence of events is a run. */
  ghost function Try(s: State, e: Event): State {
    if s.store.Keys == s.chains.Keys && Enabled(s, e) then Next(s, e) else s
  }

  ghost function After(events: seq<Event>): State {
    if |events| == 0 then START else Try(After(events[..|events| - 1]), events[|events| - 1])
  }

  // ---- The invariant ----

  // An unrevoked session holds the last two tokens of its chain.
  ghost predicate Current(x: Session, chain: seq<Token>)
    requires |chain| > 0
  {
    && x.refreshTokenHash == Sha256(chain[|chain| - 1])
    && x.previousRefreshTokenHash == (if |chain| == 1 then None else Some(Sha256(chain[|chain| - 2])))
    && x.refreshGeneration == |chain| - 1
  }

  ghost predicate CardOk(s: State, id: string) {
    id in s.store && id in s.chains && |s.chains[id]| > 0 && s.store[id].id == id &&
    (!s.store[id].revoked ==> Current(s.store[id], s.chains[id]))
  }

  ghost predicate FiledOk(s: State, t: Token) {
    t in s.issued && s.issued[t].id in s.chains && s.issued[t].index < |s.chains[s.issued[t].id]| &&
    s.chains[s.issued[t].id][s.issued[t].index] == t
  }

  ghost predicate ChainOk(s: State, id: string, k: nat) {
    id in s.chains && k < |s.chains[id]| ==>
      s.chains[id][k] in s.issued && s.issued[s.chains[id][k]] == Place(id, k)
  }

  ghost predicate SameOwner(x: Session, y: Session) {
    && x.id == y.id && x.userId == y.userId && x.deviceId == y.deviceId && x.roleId == y.roleId && x.tokenFamily == y.tokenFamily
    && x.createdAt == y.createdAt && x.expiresAt == y.expiresAt && x.userAgent == y.userAgent
  }

  ghost predicate SameOwnerIn(x: Session, store: Store) {
    x.id in store && SameOwner(x, store[x.id])
  }

  ghost predicate TargetOk(s: State, sweep: nat, k: nat) {
    sweep < |s.sweeps| && k < |s.sweeps[sweep].targets| ==>
      var copy := s.sweeps[sweep].targets[k];
      SameOwnerIn(copy, s.store) && (k < s.sweeps[sweep].next ==> s.store[copy.id].revoked)
  }

  ghost predicate Families(store: Store) {
    forall i, j :: i in store && j in store && store[i].tokenFamily == store[j].tokenFamily ==> i == j
  }

  ghost predicate Inv(s: State) {
    && s.store.Keys == s.chains.Keys
    && (forall id {:trigger CardOk(s, id)} :: id in s.store ==> CardOk(s, id))
    && (forall t {:trigger FiledOk(s, t)} :: t in s.issued ==> FiledOk(s, t))
    && (forall id, k: nat {:trigger ChainOk(s, id, k)} :: ChainOk(s, id, k))
    && (forall sweep: nat, k: nat {:trigger TargetOk(s, sweep, k)} :: TargetOk(s, sweep, k))
    && Families(s.store)
  }

  // What every step does to the sessions that are already there.
  ghost predicate Grows(s: State, s': State, id: string) {
    id in s.store && id in s.chains ==>
      && id in s'.store && id in s'.chains
      && SameOwner(s.store[id], s'.store[id])
      && (s.store[id].revoked ==> s'.store[id].revoked)
      && s.chains[id] <= s'.chains[id]
  }

  ghost predicate AllGrow(s: State, s': State) {
    forall id {:trigger Grows(s, s', id)} :: Grows(s, s', id)
  }

  lemma TargetsKept(s: State, s': State)
    requires Inv(s) && AllGrow(s, s') && s'.sweeps == s.sweeps
    ensures forall sweep: nat, k: nat {:trigger TargetOk(s', sweep, k)} :: TargetOk(s', sweep, k)
  {
    forall sweep: nat, k: nat ensures TargetOk(s', sweep, k) {
      assert TargetOk(s, sweep, k);
      if sweep < |s.sweeps| && k < |s.sweeps[sweep].targets| {
        assert Grows(s, s', s.sweeps[sweep].targets[k].id);
      }
    }
  }

  lemma CreateKeeps(s: State, id: string, x: Session, token: Token)
    requires Inv(s) && id !in s.store && token !in s.issued
    requires x.id == id && !x.revoked && Current(x, [token])
    requires forall other :: other in s.store ==> s.store[other].tokenFamily != x.tokenFamily
    ensures Inv(AfterCreate(s, id, x, token)) && AllGrow(s, AfterCreate(s, id, x, token))
  {
    var s' := AfterCreate(s, id, x, token);
    forall i | i in s'.store ensures CardOk(s', i) {
      assert i != id ==> CardOk(s, i);
    }
    forall t | t in s'.issued ensures FiledOk(s', t) {
      assert t != token ==> FiledOk(s, t);
    }
    forall i, k: nat ensures ChainOk(s', i, k) {
      assert ChainOk(s, i, k);
      if i in s.chains && k < |s.chains[i]| {
        assert s.chains[i][k] != token;
      }
    }
    forall i ensures Grows(s, s', i) {}
    TargetsKept(s, s');
  }

  lemma RotationKeeps(s: State, id: string, successor: Token, now: int)
    requires Inv(s) && id in s.store && !s.store[id].revoked && successor !in s.issued
    ensures Inv(AfterRotation(s, id, successor, now)) && AllGrow(s, AfterRotation(s, id, successor, now))
  {
    var s' := AfterRotation(s, id, successor, now);
    assert CardOk(s, id);
    forall i | i in s'.store ensures CardOk(s', i) {
      assert CardOk(s, i);
    }
    forall t | t in s'.issued ensures FiledOk(s', t) {
      assert t != successor ==> FiledOk(s, t);
    }
    forall i, k: nat ensures ChainOk(s', i, k) {
      assert ChainOk(s, i, k);
      if i in s.chains && k < |s.chains[i]| {
        assert s.chains[i][k] != successor;
      }
    }
    forall i ensures Grows(s, s', i) {}
    TargetsKept(s, s');
  }

  // A put that leaves the chains alone and either keeps the token fields or revokes.
  ghost predicate Harmless(x: Session, y: Session) {
    SameOwner(x, y) && (x.revoked ==> y.revoked) &&
    (y.revoked ||
     (y.refreshTokenHash == x.refreshTokenHash && y.previousRefreshTokenHash == x.previousRefreshTokenHash &&
      y.refreshGeneration == x.refreshGeneration))
  }

  lemma PutKeeps(s: State, id: string, y: Session)
    requires Inv(s) && id in s.store && Harmless(s.store[id], y)
    ensures Inv(WithSession(s, id, y)) && AllGrow(s, WithSession(s, id, y))
  {
    var s' := WithSession(s, id, y);
    forall i | i in s'.store ensures CardOk(s', i) {
      assert CardOk(s, i);
    }
    forall t | t in s'.issued ensures FiledOk(s', t) {
      assert FiledOk(s, t);
    }
    forall i, k: nat ensures ChainOk(s', i, k) {
      assert ChainOk(s, i, k);
    }
    forall i ensures Grows(s, s', i) {}
    TargetsKept(s, s');
  }

  lemma SweepPutKeeps(s: State, sweep: nat)
    requires Inv(s) && sweep < |s.sweeps| && s.sweeps[sweep].next < |s.sweeps[sweep].targets|
    ensures Inv(AfterPut(s, sweep)) && AllGrow(s, AfterPut(s, sweep))
  {
    var w := s.sweeps[sweep];
    var copy := w.targets[w.next];
    assert TargetOk(s, sweep, w.next);
    PutKeeps(s, copy.id, copy.(revoked := true));
    var mid := WithSession(s, copy.id, copy.(revoked := true));
    var s' := AfterPut(s, sweep);
    forall i | i in s'.store ensures CardOk(s', i) {
      assert CardOk(mid, i);
    }
    forall t | t in s'.issued ensures FiledOk(s', t) {
      assert FiledOk(mid, t);
    }
    forall i, k: nat ensures ChainOk(s', i, k) {
      assert ChainOk(mid, i, k);
    }
    forall v: nat, k: nat ensures TargetOk(s', v, k) {
      assert TargetOk(mid, v, k);
    }
    forall i ensures Grows(s, s', i) {
      assert Grows(s, mid, i);
    }
  }

  lemma BeginKeeps(s: State, order: seq<string>)
    requires Inv(s) && forall id :: id in order ==> id in s.store
    ensures Inv(AfterBegin(s, order)) && AllGrow(s, AfterBegin(s, order))
  {
    var targets := seq(|order|, i requires 0 <= i < |order| => s.store[order[i]]);
    var begun := s.(sweeps := s.sweeps + [Sweep(targets, 0)]);
    forall i | i in begun.store ensures CardOk(begun, i) {
      assert CardOk(s, i);
    }
    forall t | t in begun.issued ensures FiledOk(begun, t) {
      assert FiledOk(s, t);
    }
    forall i, k: nat ensures ChainOk(begun, i, k) {
      assert ChainOk(s, i, k);
    }
    forall v: nat, k: nat ensures TargetOk(begun, v, k) {
      assert TargetOk(s, v, k);
      if v == |s.sweeps| && k < |order| {
        assert order[k] in order;
        assert CardOk(s, order[k]);
      }
    }
    forall i ensures Grows(s, begun, i) {}
    if |order| > 0 {
      SweepPutKeeps(begun, |s.sweeps|);
      forall i ensures Grows(s, AfterBegin(s, order), i) {
        assert Grows(begun, AfterBegin(s, order), i);
      }
    }
  }

  lemma StepKeeps(s: State, e: Event)
    requires Inv(s)
    ensures Inv(Try(s, e)) && AllGrow(s, Try(s, e))
  {
    forall i ensures Grows(s, s, i) {}
    if Enabled(s, e) {
      match e
      case Create(id, params, family, token, now) =>
        CreateKeeps(s, id, NewSession(id, params, family, token, now), token);
      case Refresh(_, presented, found, successor, now, order) =>
        if Answer(s.store, found, presented, now).Rotated? {
          RotationKeeps(s, found.value, successor, now);
        } else if Answer(s.store, found, presented, now).Reused? {
          BeginKeeps(s, order);
        }
      case Touch(id, ip, now) =>
        if id in s.store {
          PutKeeps(s, id, Touched(s.store[id], ip, now));
        }
      case Revoke(id) =>
        if id in s.store {
          PutKeeps(s, id, s.store[id].(revoked := true));
        }
      case BeginSweep(_, order) => BeginKeeps(s, order);
      case ResumeSweep(sweep) => SweepPutKeeps(s, sweep);
    }
  }

  lemma {:induction false} InvAlways(events: seq<Event>)
    ensures Inv(After(events))
  {
    if |events| > 0 {
      InvAlways(events[..|events| - 1]);
      StepKeeps(After(events[..|events| - 1]), events[|events| - 1]);
    }
  }

  lemma {:induction false} RunsGrow(events: seq<Event>, n: nat)
    requires n <= |events|
    ensures AllGrow(After(events[..n]), After(events))
  {
    var s := After(events[..n]);
    if n == |events| {
      assert events[..n] == events;
      forall id ensures Grows(s, After(events), id) {}
    } else {
      var before := events[..|events| - 1];
      RunsGrow(before, n);
      assert before[..n] == events[..n];
      InvAlways(before);
      StepKeeps(After(before), events[|events| - 1]);
      forall id ensures Grows(s, After(events), id) {
        assert Grows(s, After(before), id) && Grows(After(before), After(events), id);
      }
    }
  }
}

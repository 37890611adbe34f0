/** One device, its refreshes and logins in and outside the lock, lost replies, and the session service. */
module LockedClient {
  import opened Common
  import opened Sessions
  import opened SessionRuns
  import opened SessionTheorems
  import opened TokenAuthenticators

  /** The thread that holds the lock. A refresh remembers how many steps had been taken when its token
      was read from the store. */
  datatype Holder =
    | Free
    | Refreshing(token: Token, readAt: nat)
    | RefreshAnswered(reply: Reply)
    | LoggingIn
    | LoginAnswered(reply: Reply)

  datatype Redemption = Redemption(successor: Token, delivered: bool)

  /** `loose` are the refreshes under way outside the lock, by the moment they read their token, and
      `inbox` the tokens of refreshes and logins outside the lock that have arrived but are not stored.
      The rest is history: `known` is every refresh token the server has issued to this client, `taken`
      every one that was ever in the store, and `redeemed` every one the server has accepted. */
  datatype World = World(
    server: State, tokens: Tokens, holder: Holder, loose: map<nat, Token>, inbox: set<Token>,
    age: nat, known: set<Token>, taken: set<Token>, redeemed: map<Token, Redemption>)

  datatype Step =
    | Authenticate(response: Response)
    | ServeRefresh(found: Option<string>, successor: Token, now: int, order: seq<string>, delivered: bool,
                   access: string, code: ErrorCode)
    | RefreshUnserved(code: ErrorCode)
    | TakeRefreshReply
    | ServeLogin(login: Event, access: string, delivered: bool, code: ErrorCode)
    | LoginUnserved(code: ErrorCode)
    | TakeLoginReply
    | ReadLoose
    | ServeLoose(readAt: nat, found: Option<string>, successor: Token, now: int, order: seq<string>, delivered: bool)
    | LooseUnserved(readAt: nat)
    | ServeOtherLogin(login: Event)
    | StoreAnswer(token: Token, access: string)
    | Logout
    | Environment(event: Event)

  const BOOT := World(START, NO_TOKENS, Free, map[], {}, 0, {}, {}, map[])

  // ---- Requests ----

  // The server answers a refresh this client has sent.
  predicate Presents(w: World, step: Step) {
    (step.ServeRefresh? && w.holder.Refreshing?) || (step.ServeLoose? && step.readAt in w.loose)
  }

  function TokenOf(w: World, step: Step): Token
    requires Presents(w, step)
  {
    if step.ServeRefresh? then w.holder.token else w.loose[step.readAt]
  }

  function ReadAt(w: World, step: Step): nat
    requires Presents(w, step)
  {
    if step.ServeRefresh? then w.holder.readAt else step.readAt
  }

  ghost function RefreshEvent(device: string, w: World, step: Step): Event
    requires Presents(w, step)
  {
    Refresh(device, TokenOf(w, step), step.found, step.successor, step.now, step.order)
  }

  ghost predicate IsLogin(device: string, server: State, login: Event) {
    Enabled(server, login) && login.Create? && login.params.deviceId == device
  }

  // ---- Steps ----

  ghost predicate Possible(device: string, w: World, step: Step) {
    match step
    case Authenticate(_) => w.holder.Free?
    case ServeRefresh(_, _, _, _, _, _, _) => Presents(w, step) && Enabled(w.server, RefreshEvent(device, w, step))
    case RefreshUnserved(_) => w.holder.Refreshing?
    case TakeRefreshReply => w.holder.RefreshAnswered?
    case ServeLogin(login, _, _, _) => w.holder.LoggingIn? && IsLogin(device, w.server, login)
    case LoginUnserved(_) => w.holder.LoggingIn?
    case TakeLoginReply => w.holder.LoginAnswered?
    case ReadLoose => w.tokens.refresh.Some?
    case ServeLoose(_, _, _, _, _, _) => Presents(w, step) && Enabled(w.server, RefreshEvent(device, w, step))
    case LooseUnserved(readAt) => readAt in w.loose
    case ServeOtherLogin(login) => IsLogin(device, w.server, login)
    case StoreAnswer(token, _) => token in w.inbox
    case Logout => true
    // Nobody else presents this client's tokens.
    case Environment(event) => Enabled(w.server, event) && (event.Refresh? ==> event.presented !in w.known)
  }

  ghost function AfterServe(device: string, w: World, step: Step): World
    requires Presents(w, step)
  {
    var e := RefreshEvent(device, w, step);
    var accepted := Accepts(w.server, e);
    var granted := accepted && step.delivered;
    var served := w.(
      server := Try(w.server, e),
      known := if accepted then w.known + {step.successor} else w.known,
      redeemed := if accepted then w.redeemed[e.presented := Redemption(step.successor, step.delivered)] else w.redeemed);
    if step.ServeRefresh? then
      served.(holder := RefreshAnswered(if granted then Granted(step.access, step.successor) else Refused(step.code)))
    else
      served.(loose := w.loose - {step.readAt}, inbox := if granted then w.inbox + {step.successor} else w.inbox)
  }

  function Stored(w: World, tokens: Tokens): World {
    w.(tokens := tokens, taken := if tokens.refresh.Some? then w.taken + {tokens.refresh.value} else w.taken)
  }

  function Released(w: World, outcome: (Tokens, Decision)): World {
    Stored(w, outcome.0).(holder := if outcome.1.CallLogin? then LoggingIn else Free)
  }

  ghost function Next(device: string, w: World, step: Step): World
    requires Possible(device, w, step)
  {
    match step
    case Authenticate(response) =>
      var decision := OnUnauthorized(w.tokens, Some(device), response);
      if decision.CallRefresh? then w.(holder := Refreshing(decision.token, w.age)) else w
    case ServeRefresh(_, _, _, _, _, _, _) => AfterServe(device, w, step)
    case RefreshUnserved(code) => w.(holder := RefreshAnswered(Refused(code)))
    case TakeRefreshReply => Released(w, OnRefreshReply(w.tokens, w.holder.reply))
    case ServeLogin(login, access, delivered, code) =>
      w.(server := Try(w.server, login), known := w.known + {login.token},
         holder := LoginAnswered(if delivered then Granted(access, login.token) else Refused(code)))
    case LoginUnserved(code) => w.(holder := LoginAnswered(Refused(code)))
    case TakeLoginReply => Released(w, OnLoginReply(w.tokens, w.holder.reply))
    case ReadLoose => w.(loose := w.loose[w.age := w.tokens.refresh.value])
    case ServeLoose(_, _, _, _, _, _) => AfterServe(device, w, step)
    case LooseUnserved(readAt) => w.(loose := w.loose - {readAt})
    case ServeOtherLogin(login) =>
      w.(server := Try(w.server, login), known := w.known + {login.token}, inbox := w.inbox + {login.token})
    case StoreAnswer(token, access) => Stored(w, Tokens(Some(access), Some(token))).(inbox := w.inbox - {token})
    case Logout => w.(tokens := NO_TOKENS)
    case Environment(event) => w.(server := Try(w.server, event))
  }

  ghost function Proceed(device: string, w: World, step: Step): World {
    (if Possible(device, w, step) then Next(device, w, step) else w).(age := w.age + 1)
  }

  ghost function WorldAfter(device: string, steps: seq<Step>): World {
    if |steps| == 0 then BOOT else Proceed(device, WorldAfter(device, steps[..|steps| - 1]), steps[|steps| - 1])
  }

  // ---- The invariant ----

  // The token is the last one issued in its session.
  ghost predicate IsLast(s: State, t: Token) {
    t in s.issued && s.issued[t].id in s.chains && s.issued[t].index + 1 == |s.chains[s.issued[t].id]|
  }

  ghost predicate IsNext(s: State, t: Token, u: Token) {
    t in s.issued && u in s.issued && s.issued[u] == Place(s.issued[t].id, s.issued[t].index + 1)
  }

  // A token of this client is the last of its session until it is redeemed, and then its answer follows it.
  ghost predicate TokenOk(device: string, s: State, known: set<Token>, redeemed: map<Token, Redemption>, t: Token) {
    && t in s.issued && s.issued[t].id in s.store && s.store[s.issued[t].id].deviceId == device
    && if t in redeemed then redeemed[t].successor in known && IsNext(s, t, redeemed[t].successor) else IsLast(s, t)
  }

  ghost predicate TokensOk(device: string, s: State, known: set<Token>, redeemed: map<Token, Redemption>) {
    Inv(s) && forall t {:trigger TokenOk(device, s, known, redeemed, t)} :: t in known ==> TokenOk(device, s, known, redeemed, t)
  }

  predicate IsGrant(holder: Holder, t: Token) {
    (holder.RefreshAnswered? || holder.LoginAnswered?) && holder.reply.Granted? && holder.reply.refresh == t
  }

  // On its way to the store.
  predicate Arrives(w: World, t: Token) {
    t in w.inbox || IsGrant(w.holder, t)
  }

  ghost predicate ClientOk(w: World) {
    && w.redeemed.Keys <= w.taken <= w.known
    && w.inbox <= w.known && w.inbox !! w.taken
    && (forall t :: IsGrant(w.holder, t) ==> t in w.known - w.inbox - w.taken)
    && (w.tokens.refresh.Some? ==> w.tokens.refresh.value in w.taken)
    && (w.holder.Refreshing? ==> w.holder.token in w.taken)
    && (forall r :: r in w.loose ==> w.loose[r] in w.taken && r < w.age)
  }

  // The answer of a redeemed token has not been stored while that token still is; a lost one never is.
  ghost predicate AnswersOk(w: World) {
    && (w.tokens.refresh.Some? && w.tokens.refresh.value in w.redeemed ==> w.redeemed[w.tokens.refresh.value].successor !in w.taken)
    && (forall t :: t in w.redeemed && !w.redeemed[t].delivered ==>
          w.redeemed[t].successor !in w.taken && !Arrives(w, w.redeemed[t].successor))
  }

  ghost predicate WorldOk(device: string, w: World) {
    TokensOk(device, w.server, w.known, w.redeemed) && ClientOk(w) && AnswersOk(w)
  }

  lemma SupersededIffRedeemed(device: string, s: State, known: set<Token>, redeemed: map<Token, Redemption>, t: Token)
    requires TokensOk(device, s, known, redeemed) && t in known
    ensures Superseded(s, t) <==> t in redeemed
    ensures IsLast(s, t) <==> t !in redeemed
  {
    assert TokenOk(device, s, known, redeemed, t);
    assert t in redeemed ==> FiledOk(s, redeemed[t].successor);
  }

  lemma OnlyLastIsAccepted(s: State, e: Event, t: Token)
    requires Inv(s) && Accepts(s, e) && IsLast(s, t) && e.found == Some(s.issued[t].id)
    ensures e.presented == t
  {
    HolderIsOwner(s, s.issued[t].id, e.presented);
    assert FiledOk(s, e.presented) && FiledOk(s, t);
  }

  lemma LastStays(s: State, e: Event, t: Token)
    requires Inv(s) && IsLast(s, t) && !(Accepts(s, e) && e.presented == t)
    ensures IsLast(Try(s, e), t)
  {
    StepKeeps(s, e);
    var place := s.issued[t];
    assert FiledOk(s, t) && Grows(s, Try(s, e), place.id) && ChainOk(Try(s, e), place.id, place.index);
    ChainStep(s, e, place.id);
    if Accepts(s, e) && e.found == Some(place.id) {
      OnlyLastIsAccepted(s, e, t);
    }
  }

  lemma IssuedStays(s: State, e: Event, t: Token)
    requires t in s.issued
    ensures t in Try(s, e).issued && Try(s, e).issued[t] == s.issued[t]
  {
  }

  lemma TokenStays(device: string, s: State, e: Event, known: set<Token>, redeemed: map<Token, Redemption>, t: Token)
    requires Inv(s) && TokenOk(device, s, known, redeemed, t) && !(Accepts(s, e) && e.presented == t)
    ensures TokenOk(device, Try(s, e), known, redeemed, t)
  {
    StepKeeps(s, e);
    IssuedStays(s, e, t);
    assert CardOk(s, s.issued[t].id) && Grows(s, Try(s, e), s.issued[t].id);
    if t in redeemed {
      IssuedStays(s, e, redeemed[t].successor);
    } else {
      LastStays(s, e, t);
    }
  }

  // A step of the server that accepts none of this client's tokens.
  lemma ServerMoves(device: string, s: State, e: Event, known: set<Token>, redeemed: map<Token, Redemption>)
    requires TokensOk(device, s, known, redeemed) && !(Accepts(s, e) && e.presented in known)
    ensures TokensOk(device, Try(s, e), known, redeemed)
  {
    StepKeeps(s, e);
    forall t | t in known ensures TokenOk(device, Try(s, e), known, redeemed, t) {
      TokenStays(device, s, e, known, redeemed, t);
    }
  }

  lemma LoginIssues(device: string, s: State, e: Event, known: set<Token>, redeemed: map<Token, Redemption>)
    requires TokensOk(device, s, known, redeemed) && IsLogin(device, s, e) && redeemed.Keys <= known
    ensures TokensOk(device, Try(s, e), known + {e.token}, redeemed)
    ensures e.token !in known
  {
    assert e.token in known ==> TokenOk(device, s, known, redeemed, e.token);
    ServerMoves(device, s, e, known, redeemed);
    forall t | t in known + {e.token} ensures TokenOk(device, Try(s, e), known + {e.token}, redeemed, t) {
      assert t in known ==> TokenOk(device, Try(s, e), known, redeemed, t);
    }
  }

  lemma AcceptedIsNext(s: State, e: Event)
    requires Inv(s) && Accepts(s, e)
    ensures e.presented in s.issued && IsLast(s, e.presented) && e.successor !in s.issued
    ensures IsNext(Try(s, e), e.presented, e.successor) && IsLast(Try(s, e), e.successor)
  {
    HolderIsOwner(s, e.found.value, e.presented);
    assert CardOk(s, e.found.value);
  }

  lemma RedemptionIssues(device: string, s: State, e: Event, known: set<Token>, redeemed: map<Token, Redemption>, delivered: bool)
    requires TokensOk(device, s, known, redeemed) && Accepts(s, e) && e.presented in known && redeemed.Keys <= known
    ensures TokensOk(device, Try(s, e), known + {e.successor}, redeemed[e.presented := Redemption(e.successor, delivered)])
    ensures e.presented !in redeemed && e.successor !in known
  {
    StepKeeps(s, e);
    AcceptedIsNext(s, e);
    SupersededIffRedeemed(device, s, known, redeemed, e.presented);
    assert TokenOk(device, s, known, redeemed, e.presented);
    assert e.successor in known ==> TokenOk(device, s, known, redeemed, e.successor);
    var known', redeemed' := known + {e.successor}, redeemed[e.presented := Redemption(e.successor, delivered)];
    assert Grows(s, Try(s, e), s.issued[e.presented].id);
    forall t | t in known' ensures TokenOk(device, Try(s, e), known', redeemed', t) {
      if t in known && t != e.presented {
        assert TokenOk(device, s, known, redeemed, t);
        TokenStays(device, s, e, known, redeemed, t);
      }
    }
  }

  lemma ServeKeeps(device: string, w: World, step: Step)
    requires WorldOk(device, w) && Possible(device, w, step) && Presents(w, step)
    ensures WorldOk(device, AfterServe(device, w, step))
    ensures Accepts(w.server, RefreshEvent(device, w, step)) ==>
              TokenOf(w, step) !in w.redeemed && step.successor !in w.known
  {
    var e := RefreshEvent(device, w, step);
    if Accepts(w.server, e) {
      RedemptionIssues(device, w.server, e, w.known, w.redeemed, step.delivered);
      RedeemedStayOk(device, w, step);
    } else {
      ServerMoves(device, w.server, e, w.known, w.redeemed);
    }
  }

  lemma RedeemedStayOk(device: string, w: World, step: Step)
    requires WorldOk(device, w) && Presents(w, step) && Accepts(w.server, RefreshEvent(device, w, step))
    requires TokenOf(w, step) !in w.redeemed && step.successor !in w.known
    ensures ClientOk(AfterServe(device, w, step)) && AnswersOk(AfterServe(device, w, step))
  {
    var w' := AfterServe(device, w, step);
    forall t | t in w'.redeemed && !w'.redeemed[t].delivered
      ensures w'.redeemed[t].successor !in w'.taken && !Arrives(w', w'.redeemed[t].successor)
    {
      assert t in w.redeemed ==> TokenOk(device, w.server, w.known, w.redeemed, t);
    }
  }

  // A token on its way is stored: it was never in the store before.
  lemma StoringKeeps(device: string, w: World, t: Token, access: string, w': World)
    requires WorldOk(device, w) && Arrives(w, t)
    requires w' == Stored(w, Tokens(Some(access), Some(t))).(inbox := w.inbox - {t}, holder := if IsGrant(w.holder, t) then Free else w.holder)
    ensures WorldOk(device, w')
  {
  }

  lemma StepKeepsWorld(device: string, w: World, step: Step)
    requires WorldOk(device, w)
    ensures WorldOk(device, Proceed(device, w, step))
  {
    if Possible(device, w, step) {
      match step
      case ServeRefresh(_, _, _, _, _, _, _) => ServeKeeps(device, w, step);
      case ServeLoose(_, _, _, _, _, _) => ServeKeeps(device, w, step);
      case ServeLogin(login, _, _, _) => LoginIssues(device, w.server, login, w.known, w.redeemed); LoginAnswersOk(device, w, step);
      case ServeOtherLogin(login) => LoginIssues(device, w.server, login, w.known, w.redeemed); LoginAnswersOk(device, w, step);
      case Environment(event) => ServerMoves(device, w.server, event, w.known, w.redeemed);
      case TakeRefreshReply => ReplyKeeps(device, w, step);
      case TakeLoginReply => ReplyKeeps(device, w, step);
      case StoreAnswer(token, access) => StoringKeeps(device, w, token, access, Next(device, w, step));
      case _ =>
    }
  }

  lemma LoginAnswersOk(device: string, w: World, step: Step)
    requires WorldOk(device, w) && Possible(device, w, step) && (step.ServeLogin? || step.ServeOtherLogin?)
    requires step.login.token !in w.known
    ensures ClientOk(Next(device, w, step)) && AnswersOk(Next(device, w, step))
  {
    forall t | t in w.redeemed ensures w.redeemed[t].successor in w.known {
      assert TokenOk(device, w.server, w.known, w.redeemed, t);
    }
  }

  lemma ReplyKeeps(device: string, w: World, step: Step)
    requires WorldOk(device, w) && Possible(device, w, step) && (step.TakeRefreshReply? || step.TakeLoginReply?)
    ensures WorldOk(device, Next(device, w, step))
  {
    if w.holder.reply.Granted? {
      StoringKeeps(device, w, w.holder.reply.refresh, w.holder.reply.access, Next(device, w, step));
    }
  }

  lemma {:induction false} WorldAlwaysOk(device: string, steps: seq<Step>)
    ensures WorldOk(device, WorldAfter(device, steps)) && WorldAfter(device, steps).age == |steps|
  {
    if |steps| > 0 {
      WorldAlwaysOk(device, steps[..|steps| - 1]);
      StepKeepsWorld(device, WorldAfter(device, steps[..|steps| - 1]), steps[|steps| - 1]);
    }
  }

  // ---- Redemptions, told from the run ----

  /** Step a of the run is an accepted refresh of this client that presents the token. */
  ghost predicate Redeems(device: string, steps: seq<Step>, a: nat, token: Token) {
    a < |steps| &&
    var w := WorldAfter(device, steps[..a]);
    && Presents(w, steps[a]) && TokenOf(w, steps[a]) == token
    && Accepts(w.server, RefreshEvent(device, w, steps[a]))
  }

  ghost predicate WasRedeemed(device: string, steps: seq<Step>, token: Token) {
    exists a: nat :: Redeems(device, steps, a, token)
  }

  lemma RedeemedStep(device: string, w: World, step: Step)
    requires WorldOk(device, w)
    ensures var w' := Proceed(device, w, step);
      if Presents(w, step) && Accepts(w.server, RefreshEvent(device, w, step)) then
        && TokenOf(w, step) !in w.redeemed
        && w'.redeemed == w.redeemed[TokenOf(w, step) := Redemption(step.successor, step.delivered)]
      else w'.redeemed == w.redeemed
  {
    if Presents(w, step) && Possible(device, w, step) {
      ServeKeeps(device, w, step);
    }
  }

  lemma {:induction false} RedemptionIsKept(device: string, steps: seq<Step>, a: nat, token: Token)
    requires Redeems(device, steps, a, token)
    ensures token in WorldAfter(device, steps).redeemed
    ensures WorldAfter(device, steps).redeemed[token] == Redemption(steps[a].successor, steps[a].delivered)
  {
    var before := steps[..|steps| - 1];
    WorldAlwaysOk(device, before);
    RedeemedStep(device, WorldAfter(device, before), steps[|steps| - 1]);
    if a < |before| {
      assert before[..a] == steps[..a];
      RedemptionIsKept(device, before, a, token);
    }
  }

  lemma {:induction false} RedemptionHappened(device: string, steps: seq<Step>, token: Token) returns (a: nat)
    requires token in WorldAfter(device, steps).redeemed
    ensures Redeems(device, steps, a, token)
    ensures WorldAfter(device, steps).redeemed[token] == Redemption(steps[a].successor, steps[a].delivered)
  {
    var before := steps[..|steps| - 1];
    WorldAlwaysOk(device, before);
    RedeemedStep(device, WorldAfter(device, before), steps[|steps| - 1]);
    if token in WorldAfter(device, before).redeemed {
      a := RedemptionHappened(device, before, token);
      assert before[..a] == steps[..a];
    } else {
      a := |before|;
    }
    RedemptionIsKept(device, steps, a, token);
  }

  // ---- When a token is presented twice ----

  ghost predicate ReadFrom(device: string, steps: seq<Step>, r: nat, token: Token) {
    r < |steps| && WorldAfter(device, steps[..r]).tokens.refresh == Some(token)
  }

  lemma ReadStays(device: string, steps: seq<Step>, r: nat, token: Token)
    requires steps != [] && ReadFrom(device, steps[..|steps| - 1], r, token)
    ensures ReadFrom(device, steps, r, token)
  {
    assert steps[..|steps| - 1][..r] == steps[..r];
  }

  ghost predicate RequestRead(device: string, steps: seq<Step>, w: World, step: Step) {
    Presents(w, step) ==> ReadFrom(device, steps, ReadAt(w, step), TokenOf(w, step))
  }

  ghost predicate SameRequest(w: World, w': World, step: Step) {
    Presents(w, step) && Presents(w', step) && ReadAt(w, step) == ReadAt(w', step) && TokenOf(w, step) == TokenOf(w', step)
  }

  lemma RequestStep(device: string, w: World, taken: Step, step: Step)
    requires ClientOk(w) && Presents(Proceed(device, w, taken), step)
    ensures var w' := Proceed(device, w, taken);
      SameRequest(w, w', step) || (ReadAt(w', step) == w.age && w.tokens.refresh == Some(TokenOf(w', step)))
  {
  }

  // Every request under way presents what the store held when it read it.
  lemma {:induction false} RequestsAreRead(device: string, steps: seq<Step>, step: Step)
    ensures RequestRead(device, steps, WorldAfter(device, steps), step)
  {
    if |steps| > 0 {
      var before := steps[..|steps| - 1];
      var w := WorldAfter(device, before);
      WorldAlwaysOk(device, before);
      RequestsAreRead(device, before, step);
      var w' := WorldAfter(device, steps);
      if Presents(w', step) {
        RequestStep(device, w, steps[|steps| - 1], step);
        if SameRequest(w, w', step) {
          ReadStays(device, steps, ReadAt(w, step), TokenOf(w, step));
        }
      }
    }
  }

  /** By step r the token had never been in the store. */
  ghost predicate NotStoredBy(device: string, steps: seq<Step>, r: nat, token: Token) {
    forall j :: 0 <= j <= r && j <= |steps| ==> WorldAfter(device, steps[..j]).tokens.refresh != Some(token)
  }

  lemma {:induction false} HistoryGrows(device: string, steps: seq<Step>, n: nat)
    requires n <= |steps|
    ensures WorldAfter(device, steps[..n]).taken <= WorldAfter(device, steps).taken
    ensures WorldAfter(device, steps[..n]).known <= WorldAfter(device, steps).known
  {
    if n == |steps| {
      assert steps[..n] == steps;
    } else {
      var before := steps[..|steps| - 1];
      assert before[..n] == steps[..n];
      HistoryGrows(device, before, n);
    }
  }

  lemma AnswerIsNew(device: string, steps: seq<Step>, a: nat, r: nat, token: Token)
    requires Redeems(device, steps, a, token) && r <= a
    ensures steps[a].successor !in WorldAfter(device, steps[..r]).taken
  {
    WorldAlwaysOk(device, steps[..a]);
    ServeKeeps(device, WorldAfter(device, steps[..a]), steps[a]);
    assert steps[..a][..r] == steps[..r];
    HistoryGrows(device, steps[..a], r);
  }

  /** A request that read a token redeemed at step a did so before that redemption's answer was stored. */
  lemma ReadBeforeTheAnswer(device: string, steps: seq<Step>, a: nat, r: nat, token: Token)
    requires Redeems(device, steps, a, token) && ReadFrom(device, steps, r, token)
    ensures NotStoredBy(device, steps, r, steps[a].successor)
  {
    var answer := steps[a].successor;
    if a < r {
      WorldAlwaysOk(device, steps[..r]);
      assert steps[..r][..a] == steps[..a];
      RedemptionIsKept(device, steps[..r], a, token);
    } else {
      AnswerIsNew(device, steps, a, r, token);
    }
    assert answer !in WorldAfter(device, steps[..r]).taken;
    forall j | 0 <= j <= r ensures WorldAfter(device, steps[..j]).tokens.refresh != Some(answer) {
      WorldAlwaysOk(device, steps[..j]);
      assert steps[..r][..j] == steps[..j];
      HistoryGrows(device, steps[..r], j);
    }
  }

  /** Exactly when a refresh presents a token the server has already redeemed, over every run with
      refreshes in and outside the lock: when an earlier one presented it, and this one read its token
      before the answer to that one was stored. */
  lemma {:induction false} PresentedTwiceIff(device: string, steps: seq<Step>, step: Step)
    requires Possible(device, WorldAfter(device, steps), step) && Presents(WorldAfter(device, steps), step)
    ensures var w := WorldAfter(device, steps);
      Superseded(w.server, TokenOf(w, step)) <==>
        exists a: nat :: Redeems(device, steps, a, TokenOf(w, step)) && NotStoredBy(device, steps, ReadAt(w, step), steps[a].successor)
  {
    var w := WorldAfter(device, steps);
    var token := TokenOf(w, step);
    WorldAlwaysOk(device, steps);
    SupersededIffRedeemed(device, w.server, w.known, w.redeemed, token);
    if token in w.redeemed {
      var a := RedemptionHappened(device, steps, token);
      RequestsAreRead(device, steps, step);
      ReadBeforeTheAnswer(device, steps, a, ReadAt(w, step), token);
    } else if a: nat :| Redeems(device, steps, a, token) {
      RedemptionIsKept(device, steps, a, token);
    }
  }

  ghost predicate IsOpen(s: State, t: Token, now: int)
    requires t in s.issued && s.issued[t].id in s.store
  {
    var x := s.store[s.issued[t].id];
    !x.revoked && now <= x.expiresAt
  }

  lemma KnownIsIssued(device: string, w: World, t: Token)
    requires WorldOk(device, w) && t in w.known
    ensures t in w.server.issued && w.server.issued[t].id in w.server.store
  {
    assert TokenOk(device, w.server, w.known, w.redeemed, t);
  }

  ghost predicate IsReuse(device: string, w: World, step: Step)
    requires Presents(w, step)
  {
    Answer(w.server.store, step.found, TokenOf(w, step), step.now).Reused?
  }

  lemma ReuseOfRedeemed(device: string, w: World, step: Step)
    requires WorldOk(device, w) && Possible(device, w, step) && Presents(w, step)
    ensures var t := TokenOf(w, step);
      && t in w.server.issued && w.server.issued[t].id in w.server.store
      && (IsReuse(device, w, step) <==>
            t in w.redeemed && w.redeemed[t].successor !in w.redeemed && IsOpen(w.server, t, step.now))
  {
    var s, t := w.server, TokenOf(w, step);
    KnownIsIssued(device, w, t);
    FollowsFrom(s, device, t, step.found, step.now);
    assert FiledOk(s, t) && TokenOk(device, s, w.known, w.redeemed, t);
    if t in w.redeemed {
      var u := w.redeemed[t].successor;
      SupersededIffRedeemed(device, s, w.known, w.redeemed, u);
      assert FiledOk(s, u) && TokenOk(device, s, w.known, w.redeemed, u);
    }
  }

  /** Exactly when a refresh of this client is judged reuse: when its token was redeemed, the token
      issued for it was not, and the session is neither revoked nor expired. */
  lemma {:induction false} ReuseIff(device: string, steps: seq<Step>, step: Step)
    requires Possible(device, WorldAfter(device, steps), step) && Presents(WorldAfter(device, steps), step)
    ensures var w := WorldAfter(device, steps);
      var t := TokenOf(w, step);
      && t in w.server.issued && w.server.issued[t].id in w.server.store
      && (IsReuse(device, w, step) <==>
            && IsOpen(w.server, t, step.now)
            && exists a: nat :: Redeems(device, steps, a, t) && !WasRedeemed(device, steps, steps[a].successor))
  {
    var w := WorldAfter(device, steps);
    var t := TokenOf(w, step);
    WorldAlwaysOk(device, steps);
    ReuseOfRedeemed(device, w, step);
    forall x ensures x in w.redeemed <==> WasRedeemed(device, steps, x) {
      if x in w.redeemed {
        var a := RedemptionHappened(device, steps, x);
      } else if a: nat :| Redeems(device, steps, a, x) {
        RedemptionIsKept(device, steps, a, x);
      }
    }
    forall a: nat | Redeems(device, steps, a, t) ensures w.redeemed[t].successor == steps[a].successor {
      RedemptionIsKept(device, steps, a, t);
    }
  }

  /** Two refreshes with one token under way at once: the server accepts the first, judges the second
      reuse and revokes their session. */
  lemma {:induction false} OverlapTripsReuse(device: string, steps: seq<Step>, first: Step, second: Step)
    requires var w := WorldAfter(device, steps);
      && Possible(device, w, first) && Presents(w, first) && Accepts(w.server, RefreshEvent(device, w, first))
      && var w' := Proceed(device, w, first);
      && Possible(device, w', second) && Presents(w', second) && TokenOf(w', second) == TokenOf(w, first)
      && second.now <= w.server.store[first.found.value].expiresAt
    ensures var w' := Proceed(device, WorldAfter(device, steps), first);
      && IsReuse(device, w', second)
      && second.found == first.found && first.found.value in Proceed(device, w', second).server.store
      && Proceed(device, w', second).server.store[first.found.value].revoked
  {
    var w := WorldAfter(device, steps);
    WorldAlwaysOk(device, steps);
    StepKeepsWorld(device, w, first);
    AcceptedThenPresented(device, w, first, Proceed(device, w, first), second);
  }

  const A_DEVICE := NewSessionParams("u", "d", "r", 1, None, None)
  const A_LOGIN := Create("s", A_DEVICE, "f", 0, 0)
  const A_RESPONSE := Response(Some("a"), None)

  /** A refresh outside the lock and one under it read the same token. */
  function BothRead(): seq<Step> {
    [ServeOtherLogin(A_LOGIN), StoreAnswer(0, "a"), ReadLoose, Authenticate(A_RESPONSE)]
  }

  lemma AfterOneMore(device: string, steps: seq<Step>, step: Step)
    ensures WorldAfter(device, steps + [step]) == Proceed(device, WorldAfter(device, steps), step)
  {
    assert (steps + [step])[..|steps|] == steps;
  }

  lemma LoggedIn()
    ensures Enabled(START, A_LOGIN)
    ensures Proceed("d", Proceed("d", BOOT, ServeOtherLogin(A_LOGIN)), StoreAnswer(0, "a"))
         == World(Try(START, A_LOGIN), Tokens(Some("a"), Some(0)), Free, map[], {}, 2, {0}, {0}, map[])
  {
    assert Possible("d", BOOT, ServeOtherLogin(A_LOGIN));
  }

  lemma {:induction false} BothReadOneToken()
    ensures var w := WorldAfter("d", BothRead());
      && w.server == Try(START, A_LOGIN) && Enabled(START, A_LOGIN)
      && w.holder == Refreshing(0, 3) && w.loose == map[2 := 0]
  {
    var steps := BothRead();
    LoggedIn();
    AfterOneMore("d", [], steps[0]);
    assert [] + [steps[0]] == [steps[0]];
    AfterOneMore("d", [steps[0]], steps[1]);
    assert [steps[0]] + [steps[1]] == [steps[0], steps[1]];
    AfterOneMore("d", [steps[0], steps[1]], steps[2]);
    assert [steps[0], steps[1]] + [steps[2]] == [steps[0], steps[1], steps[2]];
    AfterOneMore("d", [steps[0], steps[1], steps[2]], steps[3]);
    assert [steps[0], steps[1], steps[2]] + [steps[3]] == steps;
    assert Attempts(A_RESPONSE) == 1;
  }

  lemma OneSession()
    ensures var s := Try(START, A_LOGIN);
      && Enabled(START, A_LOGIN)
      && s.store == map["s" := NewSession("s", A_DEVICE, "f", 0, 0)] && s.issued.Keys == {0}
      && Finds(s.store, "d", 0, Some("s")) && Accepts(s, Refresh("d", 0, Some("s"), 1, 0, []))
  {
  }

  lemma OneSessionRotated()
    ensures var s := Try(Try(START, A_LOGIN), Refresh("d", 0, Some("s"), 1, 0, []));
      && s.store == map["s" := Advance(NewSession("s", A_DEVICE, "f", 0, 0), 1, 0)] && s.issued.Keys == {0, 1}
      && Finds(s.store, "d", 0, Some("s")) && Lists(s.store, OneFamily("f"), ["s"])
      && Enabled(s, Refresh("d", 0, Some("s"), 2, 0, ["s"]))
  {
    OneSession();
  }

  /** That can happen: a run in which the client trips reuse detection though no reply was lost. */
  lemma {:induction false} OverlapIsReached()
    ensures var second := ServeLoose(2, Some("s"), 2, 0, ["s"], true);
      var w := WorldAfter("d", BothRead() + [ServeRefresh(Some("s"), 1, 0, [], true, "b", UNKNOWN)]);
      Possible("d", w, second) && Presents(w, second) && IsReuse("d", w, second)
  {
    var first := ServeRefresh(Some("s"), 1, 0, [], true, "b", UNKNOWN);
    BothReadOneToken();
    OneSession();
    OneSessionRotated();
    AfterOneMore("d", BothRead(), first);
    OverlapTripsReuse("d", BothRead(), first, ServeLoose(2, Some("s"), 2, 0, ["s"], true));
  }

  // A token accepted at step `first` and presented again while the server has done nothing else.
  lemma AcceptedThenPresented(device: string, w0: World, first: Step, w: World, again: Step)
    requires WorldOk(device, w0) && Presents(w0, first) && Accepts(w0.server, RefreshEvent(device, w0, first))
    requires WorldOk(device, w) && w.server == Try(w0.server, RefreshEvent(device, w0, first))
    requires Possible(device, w, again) && Presents(w, again) && TokenOf(w, again) == TokenOf(w0, first)
    requires again.now <= w0.server.store[first.found.value].expiresAt
    ensures IsReuse(device, w, again) && again.found == first.found
    ensures first.found.value in Proceed(device, w, again).server.store
    ensures Proceed(device, w, again).server.store[first.found.value].revoked
  {
    var t := TokenOf(w, again);
    AcceptedStaysOpen(w0.server, RefreshEvent(device, w0, first), again.now);
    KnownIsIssued(device, w, t);
    FollowsFrom(w.server, device, t, again.found, again.now);
    assert FiledOk(w.server, t) && TokenOk(device, w.server, w.known, w.redeemed, t);
    HolderIsOwner(w.server, again.found.value, t);
    ReuseRevokes(w.server, RefreshEvent(device, w, again));
  }

  lemma AcceptedStaysOpen(s: State, e: Event, now: int)
    requires Inv(s) && Accepts(s, e) && now <= s.store[e.found.value].expiresAt
    ensures var s' := Try(s, e);
      && e.presented in s'.issued && s'.issued[e.presented].id == e.found.value && e.found.value in s'.store && e.found.value in s'.chains
      && s'.issued[e.presented].index + 2 == |s'.chains[e.found.value]| && IsOpen(s', e.presented, now)
  {
    AcceptedIsNext(s, e);
    HolderIsOwner(s, e.found.value, e.presented);
  }

  // ---- What becomes of the stored tokens ----

  /** The answers that count as a rejection of the device or its tokens; all others may be passing troubles. */
  predicate RejectsForGood(reply: Reply) {
    reply.Refused? && (
      || reply.code == AUTH_REQUIRED || reply.code == TOKEN_EXPIRED || reply.code == SESSION_REVOKED || reply.code == DEVICE_REVOKED
      || reply.code == CHALLENGE_INVALID || reply.code == SIGNATURE_INVALID || reply.code == PAIRING_INVALID || reply.code == PAIRING_EXPIRED)
  }

  /** The stored tokens change only when an answer granting new ones is taken, and are lost only by a logout
      or when a login, tried after a rejected refresh, is itself rejected for good. */
  lemma TokensChangeOnlyWhen(device: string, w: World, step: Step)
    requires Possible(device, w, step)
    ensures Proceed(device, w, step).tokens ==
      if step.Logout? || (step.TakeLoginReply? && RejectsForGood(w.holder.reply)) then Tokens(None, None)
      else if (step.TakeRefreshReply? || step.TakeLoginReply?) && w.holder.reply.Granted? then
        Tokens(Some(w.holder.reply.access), Some(w.holder.reply.refresh))
      else if step.StoreAnswer? then Tokens(Some(step.access), Some(step.token))
      else w.tokens
  {
  }

  /** Who holds the lock next: a 401 leads to a refresh exactly if it is the first of its request, the refused
      access token is the stored one or none is stored, and there is a refresh token; a refresh leads to a
      login exactly if it is rejected for good; and every other decision frees the lock. */
  lemma LockGoesOn(device: string, w: World, step: Step)
    requires Possible(device, w, step)
    ensures step.Authenticate? ==>
      Proceed(device, w, step).holder ==
      if step.response.prior.None? && (w.tokens.access.None? || w.tokens.access == step.response.deviceToken) && w.tokens.refresh.Some?
      then Refreshing(w.tokens.refresh.value, w.age) else Free
    ensures step.TakeRefreshReply? ==>
      Proceed(device, w, step).holder == if RejectsForGood(w.holder.reply) then LoggingIn else Free
    ensures step.TakeLoginReply? ==> Proceed(device, w, step).holder == Free
  {
    if step.Authenticate? {
      AttemptsAre(step.response);
    }
  }

  lemma AttemptsAre(response: Response)
    ensures Attempts(response) >= 1 && (Attempts(response) == 1 <==> response.prior.None?)
  {
  }

  /** What the refused request is told: nothing on its second attempt, without a device or without tokens to
      refresh; the stored access token if another thread has renewed it meanwhile. */
  lemma FirstAttemptsGoOn(tokens: Tokens, deviceId: Option<string>, response: Response)
    ensures OnUnauthorized(tokens, deviceId, response) ==
      if response.prior.Some? || deviceId.None? then GiveUp
      else match tokens.access
           case Some(access) =>
             if response.deviceToken == Some(access)
             then (if tokens.refresh.Some? then CallRefresh(tokens.refresh.value) else GiveUp)
             else Retry(access)
           case None => if tokens.refresh.Some? then CallRefresh(tokens.refresh.value) else GiveUp
  {
    AttemptsAre(response);
  }

  /** What it is told at the end: the new access token if there is one, and a notice of revocation exactly if
      the login was rejected for good. */
  lemma RepliesDecide(tokens: Tokens, reply: Reply)
    ensures OnRefreshReply(tokens, reply).1 ==
      if reply.Granted? then Retry(reply.access) else if RejectsForGood(reply) then CallLogin else GiveUp
    ensures OnLoginReply(tokens, reply).1 ==
      if reply.Granted? then Retry(reply.access) else if RejectsForGood(reply) then NotifyRevoked else GiveUp
  {
  }

  // ---- Refreshes under the lock alone ----

  /** AuthRepositoryImpl.refresh is never called. */
  ghost predicate NoneOutsideTheLock(steps: seq<Step>) {
    forall i :: 0 <= i < |steps| ==> !steps[i].ReadLoose?
  }

  /** A refresh the server accepted always gets its reply. Login replies may still be lost. */
  ghost predicate RefreshRepliesArrive(steps: seq<Step>) {
    forall i :: 0 <= i < |steps| && steps[i].ServeRefresh? ==> steps[i].delivered
  }

  // A delivered answer is stored before the lock is free, so only a lost one leaves its token behind.
  ghost predicate LockedOk(w: World) {
    && w.loose == map[]
    && (forall t :: t in w.redeemed && w.redeemed[t].delivered ==>
          w.redeemed[t].successor in w.taken || (w.holder.RefreshAnswered? && IsGrant(w.holder, w.redeemed[t].successor)))
    && (w.holder.Refreshing? && w.holder.token in w.redeemed ==> !w.redeemed[w.holder.token].delivered)
  }

  lemma StepKeepsLocked(device: string, w: World, step: Step)
    requires WorldOk(device, w) && LockedOk(w) && !step.ReadLoose?
    ensures LockedOk(Proceed(device, w, step))
  {
  }

  lemma {:induction false} LockedAlwaysOk(device: string, steps: seq<Step>)
    requires NoneOutsideTheLock(steps)
    ensures LockedOk(WorldAfter(device, steps))
  {
    if |steps| > 0 {
      WorldAlwaysOk(device, steps[..|steps| - 1]);
      LockedAlwaysOk(device, steps[..|steps| - 1]);
      StepKeepsLocked(device, WorldAfter(device, steps[..|steps| - 1]), steps[|steps| - 1]);
    }
  }

  /** The reply to an accepted refresh of the token was lost at step a. */
  ghost predicate LosesTheReply(device: string, steps: seq<Step>, a: nat, token: Token) {
    Redeems(device, steps, a, token) && !steps[a].delivered
  }

  /** Exactly when a refresh under the lock presents a redeemed token, and exactly when that is judged
      reuse: when the reply to an accepted refresh of the same token was lost before, however that loss
      looked to the client and whatever it did since. */
  lemma {:induction false} ReuseIffReplyLost(device: string, steps: seq<Step>, step: Step)
    requires NoneOutsideTheLock(steps) && step.ServeRefresh? && Possible(device, WorldAfter(device, steps), step)
    ensures var w := WorldAfter(device, steps);
      var t := w.holder.token;
      && (Superseded(w.server, t) <==> exists a: nat :: LosesTheReply(device, steps, a, t))
      && t in w.server.issued && w.server.issued[t].id in w.server.store
      && (IsReuse(device, w, step) <==> IsOpen(w.server, t, step.now) && exists a: nat :: LosesTheReply(device, steps, a, t))
  {
    var w := WorldAfter(device, steps);
    var t := w.holder.token;
    WorldAlwaysOk(device, steps);
    LockedAlwaysOk(device, steps);
    SupersededIffRedeemed(device, w.server, w.known, w.redeemed, t);
    ReuseOfRedeemed(device, w, step);
    if t in w.redeemed {
      var a := RedemptionHappened(device, steps, t);
      assert LosesTheReply(device, steps, a, t);
    } else if a: nat :| LosesTheReply(device, steps, a, t) {
      RedemptionIsKept(device, steps, a, t);
    }
  }

  /** Each refresh authenticate() sends presents a token that was never redeemed, and is never judged reuse. */
  lemma {:induction false} NeverTripsReuse(device: string, steps: seq<Step>, step: Step)
    requires NoneOutsideTheLock(steps) && RefreshRepliesArrive(steps)
    requires step.ServeRefresh? && Possible(device, WorldAfter(device, steps), step)
    ensures var w := WorldAfter(device, steps);
      !Superseded(w.server, w.holder.token) && !IsReuse(device, w, step)
  {
    ReuseIffReplyLost(device, steps, step);
    forall a: nat ensures !LosesTheReply(device, steps, a, WorldAfter(device, steps).holder.token) {
      if a < |steps| && steps[a].ServeLoose? {
        assert steps[..a][..a] == steps[..a];
        LockedAlwaysOk(device, steps[..a]);
      }
    }
  }

  lemma {:induction false} StoredTokenIsCurrent(device: string, steps: seq<Step>)
    requires NoneOutsideTheLock(steps) && RefreshRepliesArrive(steps)
    requires WorldAfter(device, steps).holder.Free? && WorldAfter(device, steps).tokens.refresh.Some?
    ensures IsLast(WorldAfter(device, steps).server, WorldAfter(device, steps).tokens.refresh.value)
  {
    var w := WorldAfter(device, steps);
    var t := w.tokens.refresh.value;
    WorldAlwaysOk(device, steps);
    LockedAlwaysOk(device, steps);
    SupersededIffRedeemed(device, w.server, w.known, w.redeemed, t);
    if t in w.redeemed {
      var a := RedemptionHappened(device, steps, t);
      LockedAlwaysOk(device, steps[..a]);
    }
  }

  /** The reply to an accepted refresh is lost, a login the client falls back on is inconclusive, and
      the client handles the next 401. */
  ghost function AfterLoss(device: string, w: World, lost: Step, login: ErrorCode, response: Response): World {
    var w1 := Proceed(device, Proceed(device, w, lost), Step.TakeRefreshReply);
    var w2 := Proceed(device, Proceed(device, w1, Step.LoginUnserved(login)), Step.TakeLoginReply);
    Proceed(device, w2, Step.Authenticate(response))
  }

  ghost predicate Loses(device: string, w: World, lost: Step) {
    && Possible(device, w, lost) && lost.ServeRefresh? && !lost.delivered
    && Accepts(w.server, RefreshEvent(device, w, lost))
    && w.tokens.refresh == Some(w.holder.token)
  }

  /** What such a loss leads to: the very next refresh is judged reuse and revokes the session. */
  lemma {:induction false} LostReplyTripsReuse(
      device: string, steps: seq<Step>, lost: Step, login: ErrorCode, response: Response, again: Step)
    requires Loses(device, WorldAfter(device, steps), lost) && !IsDefiniteRejection(login)
    requires OnUnauthorized(WorldAfter(device, steps).tokens, Some(device), response).CallRefresh?
    requires again.ServeRefresh? && Possible(device, AfterLoss(device, WorldAfter(device, steps), lost, login, response), again)
    requires again.now <= WorldAfter(device, steps).server.store[lost.found.value].expiresAt
    ensures var w := AfterLoss(device, WorldAfter(device, steps), lost, login, response);
      && w.holder.Refreshing?
      && IsReuse(device, w, again) && again.found == lost.found
      && lost.found.value in Proceed(device, w, again).server.store
      && Proceed(device, w, again).server.store[lost.found.value].revoked
  {
    var w0 := WorldAfter(device, steps);
    WorldAlwaysOk(device, steps);
    LossKeeps(device, w0, lost, login, response);
    AcceptedThenPresented(device, w0, lost, AfterLoss(device, w0, lost, login, response), again);
  }

  lemma LossKeeps(device: string, w: World, lost: Step, login: ErrorCode, response: Response)
    requires WorldOk(device, w) && Loses(device, w, lost) && !IsDefiniteRejection(login)
    requires OnUnauthorized(w.tokens, Some(device), response).CallRefresh?
    ensures var w' := AfterLoss(device, w, lost, login, response);
      && WorldOk(device, w') && w'.server == Try(w.server, RefreshEvent(device, w, lost))
      && w'.holder.Refreshing? && w'.holder.token == w.holder.token
  {
    var w1 := Proceed(device, w, lost);
    StepKeepsWorld(device, w, lost);
    RefusedRefreshKeeps(device, w1);
    var w2 := Proceed(device, w1, Step.TakeRefreshReply);
    FailedLoginKeeps(device, w2, login);
    var w3 := Proceed(device, Proceed(device, w2, Step.LoginUnserved(login)), Step.TakeLoginReply);
    StepKeepsWorld(device, w3, Step.Authenticate(response));
  }

  lemma RefusedRefreshKeeps(device: string, w: World)
    requires WorldOk(device, w) && w.holder.RefreshAnswered? && w.holder.reply.Refused?
    ensures var w' := Proceed(device, w, Step.TakeRefreshReply);
      && WorldOk(device, w') && w'.server == w.server && w'.tokens == w.tokens && (w'.holder.Free? || w'.holder.LoggingIn?)
  {
    StepKeepsWorld(device, w, Step.TakeRefreshReply);
  }

  lemma FailedLoginKeeps(device: string, w: World, login: ErrorCode)
    requires WorldOk(device, w) && !IsDefiniteRejection(login) && (w.holder.Free? || w.holder.LoggingIn?)
    ensures var w' := Proceed(device, Proceed(device, w, Step.LoginUnserved(login)), Step.TakeLoginReply);
      && WorldOk(device, w') && w'.server == w.server && w'.tokens == w.tokens && w'.holder.Free?
  {
    StepKeepsWorld(device, w, Step.LoginUnserved(login));
    StepKeepsWorld(device, Proceed(device, w, Step.LoginUnserved(login)), Step.TakeLoginReply);
  }

  /** One refresh under the lock, whose reply is lost in the given way. */
  function LostOnce(code: ErrorCode): seq<Step> {
    [ServeOtherLogin(A_LOGIN)] + [StoreAnswer(0, "a")] + [Authenticate(A_RESPONSE)] + [ServeRefresh(Some("s"), 1, 0, [], false, "b", code)]
    + [Step.TakeRefreshReply] + [LoginUnserved(SERVER_UNAVAILABLE)] + [Step.TakeLoginReply] + [Authenticate(A_RESPONSE)]
  }

  lemma {:induction false} FirstRefresh()
    ensures WorldAfter("d", [ServeOtherLogin(A_LOGIN)] + [StoreAnswer(0, "a")] + [Authenticate(A_RESPONSE)])
         == FIRST_REFRESH
  {
    var steps := [ServeOtherLogin(A_LOGIN)];
    LoggedIn();
    AfterOneMore("d", [], steps[0]);
    assert [] + steps == steps;
    AfterOneMore("d", steps, StoreAnswer(0, "a"));
    AfterOneMore("d", steps + [StoreAnswer(0, "a")], Authenticate(A_RESPONSE));
    assert Attempts(A_RESPONSE) == 1;
  }

  ghost const FIRST_REFRESH := World(Try(START, A_LOGIN), Tokens(Some("a"), Some(0)), Refreshing(0, 2), map[], {}, 3, {0}, {0}, map[])

  lemma FirstReplyIsLost(code: ErrorCode)
    ensures var lost := ServeRefresh(Some("s"), 1, 0, [], false, "b", code);
      var w := Proceed("d", FIRST_REFRESH, lost);
      && Loses("d", FIRST_REFRESH, lost) && OnUnauthorized(w.tokens, Some("d"), A_RESPONSE).CallRefresh?
      && w.holder == RefreshAnswered(Refused(code)) && w.tokens == FIRST_REFRESH.tokens
      && w.server == Try(FIRST_REFRESH.server, Refresh("d", 0, Some("s"), 1, 0, []))
  {
    OneSession();
    assert Attempts(A_RESPONSE) == 1;
  }

  lemma Refuses(w: World, code: ErrorCode)
    requires w.holder == RefreshAnswered(Refused(code))
    ensures var w' := Proceed("d", w, Step.TakeRefreshReply);
      w'.tokens == w.tokens && w'.server == w.server && (w'.holder.Free? || w'.holder.LoggingIn?)
  {
  }

  lemma LoginFails(w: World)
    requires w.holder.Free? || w.holder.LoggingIn?
    ensures var w' := Proceed("d", Proceed("d", w, LoginUnserved(SERVER_UNAVAILABLE)), Step.TakeLoginReply);
      w'.tokens == w.tokens && w'.server == w.server && w'.holder.Free?
  {
  }

  // Whatever the loss looked like, the client ends up sending the same token again.
  lemma LossRecovered(code: ErrorCode)
    ensures var lost := ServeRefresh(Some("s"), 1, 0, [], false, "b", code);
      var w := AfterLoss("d", FIRST_REFRESH, lost, SERVER_UNAVAILABLE, A_RESPONSE);
      && Loses("d", FIRST_REFRESH, lost) && OnUnauthorized(FIRST_REFRESH.tokens, Some("d"), A_RESPONSE).CallRefresh?
      && w.holder.Refreshing? && w.holder.token == 0
      && w.server == Try(FIRST_REFRESH.server, Refresh("d", 0, Some("s"), 1, 0, []))
  {
    var w1 := Proceed("d", FIRST_REFRESH, ServeRefresh(Some("s"), 1, 0, [], false, "b", code));
    FirstReplyIsLost(code);
    Refuses(w1, code);
    LoginFails(Proceed("d", w1, Step.TakeRefreshReply));
  }

  lemma SecondIsServed(w: World)
    requires w.holder.Refreshing? && w.holder.token == 0
    requires w.server == Try(Try(START, A_LOGIN), Refresh("d", 0, Some("s"), 1, 0, []))
    ensures var again := ServeRefresh(Some("s"), 2, 0, ["s"], true, "c", UNKNOWN);
      Possible("d", w, again) && Presents(w, again)
  {
    OneSessionRotated();
  }

  lemma LossTrips(steps: seq<Step>, code: ErrorCode)
    requires WorldAfter("d", steps) == FIRST_REFRESH
    ensures var again := ServeRefresh(Some("s"), 2, 0, ["s"], true, "c", UNKNOWN);
      var w := AfterLoss("d", FIRST_REFRESH, ServeRefresh(Some("s"), 1, 0, [], false, "b", code), SERVER_UNAVAILABLE, A_RESPONSE);
      Possible("d", w, again) && Presents(w, again) && IsReuse("d", w, again)
  {
    var lost := ServeRefresh(Some("s"), 1, 0, [], false, "b", code);
    LossRecovered(code);
    OneSession();
    SecondIsServed(AfterLoss("d", FIRST_REFRESH, lost, SERVER_UNAVAILABLE, A_RESPONSE));
    LostReplyTripsReuse("d", steps, lost, SERVER_UNAVAILABLE, A_RESPONSE, ServeRefresh(Some("s"), 2, 0, ["s"], true, "c", UNKNOWN));
  }

  /** That can happen: a run under the lock alone in which the client trips reuse detection, whatever the
      one loss looked like. */
  lemma {:induction false} LossIsReached(code: ErrorCode)
    ensures var again := ServeRefresh(Some("s"), 2, 0, ["s"], true, "c", UNKNOWN);
      var w := WorldAfter("d", LostOnce(code));
      && NoneOutsideTheLock(LostOnce(code))
      && Possible("d", w, again) && Presents(w, again) && IsReuse("d", w, again)
  {
    LostOnceIs(code);
    LostOnceIsLocked(code);
    FirstRefresh();
    LossTrips([ServeOtherLogin(A_LOGIN)] + [StoreAnswer(0, "a")] + [Authenticate(A_RESPONSE)], code);
  }

  lemma LostOnceIs(code: ErrorCode)
    ensures WorldAfter("d", LostOnce(code))
         == AfterLoss("d", FIRST_REFRESH, ServeRefresh(Some("s"), 1, 0, [], false, "b", code), SERVER_UNAVAILABLE, A_RESPONSE)
  {
    FirstRefresh();
    AfterLossIsRun([ServeOtherLogin(A_LOGIN)] + [StoreAnswer(0, "a")] + [Authenticate(A_RESPONSE)],
                   ServeRefresh(Some("s"), 1, 0, [], false, "b", code));
  }

  lemma LostOnceIsLocked(code: ErrorCode)
    ensures NoneOutsideTheLock(LostOnce(code))
  {
  }

  lemma AfterLossIsRun(steps: seq<Step>, lost: Step)
    ensures WorldAfter("d", steps + [lost] + [Step.TakeRefreshReply] + [LoginUnserved(SERVER_UNAVAILABLE)] + [Step.TakeLoginReply]
                            + [Authenticate(A_RESPONSE)])
         == AfterLoss("d", WorldAfter("d", steps), lost, SERVER_UNAVAILABLE, A_RESPONSE)
  {
    AfterOneMore("d", steps, lost);
    AfterOneMore("d", steps + [lost], Step.TakeRefreshReply);
    AfterOneMore("d", steps + [lost] + [Step.TakeRefreshReply], LoginUnserved(SERVER_UNAVAILABLE));
    AfterOneMore("d", steps + [lost] + [Step.TakeRefreshReply] + [LoginUnserved(SERVER_UNAVAILABLE)], Step.TakeLoginReply);
    AfterOneMore("d", steps + [lost] + [Step.TakeRefreshReply] + [LoginUnserved(SERVER_UNAVAILABLE)] + [Step.TakeLoginReply], Authenticate(A_RESPONSE));
  }
}

/**
 Sessions and single-use tokens under interleaving: any number of requests look a token up in one step and
 commit in a later one; any request may stop in between. A commit is one atomic transaction of the repository, except
 that a password reset's statement on the sessions sees the rows that were committed when it began, as the database's
 default isolation level has it: that scan is a step of its own.
 */
module AuthProtocol {
  import opened Common
  import opened AuthTokens

  type RequestId = nat

  datatype Outcome = Exchanged(replaced: TokenId, successor: TokenId) | Used(id: TokenId) | Mailed(id: TokenId) | Saved | SignedOut | Refused

  datatype Stage =
    | Refreshing(id: TokenId, userId: UserId)
    | SigningOut(id: TokenId)
    | Holding(id: TokenId, userId: UserId, purpose: Purpose, at: int, scanned: Option<set<TokenId>>)
    | Issuing(userId: UserId, purpose: Purpose, email: string)          // the address the link will be sent to
    | Checking(userId: UserId, wanted: Option<string>, seen: string)     // the requested address may be in use
    | Saving(userId: UserId, wanted: Option<string>, seen: string)
    | Done(outcome: Outcome)

  /** issued remembers every auth token id, mailed the address its link went to; parent the token each successor replaced; chain the login or
      registration each refresh token descends from, numbered below chains. */
  datatype State = State(now: int, db: Db, issued: set<TokenId>, mailed: map<TokenId, string>, parent: map<TokenId, TokenId>, chain: map<TokenId, nat>,
                         chains: nat, requests: map<RequestId, Stage>)

  datatype Action =
    | Advance(ms: nat)
    | Register(userId: UserId, email: string, passwordHash: string, refreshId: TokenId, refreshUntil: int, authId: TokenId, authUntil: int)
    | Login(userId: UserId, refreshId: TokenId, refreshUntil: int)
    | LookUpRefresh(r: RequestId, id: TokenId)
    | Exchange(r: RequestId, refreshId: TokenId, refreshUntil: int)
    | LookUpLogout(r: RequestId, id: TokenId)
    | Logout(r: RequestId)
    | LookUpUser(r: RequestId, userId: UserId, purpose: Purpose)
    | Issue(r: RequestId, authId: TokenId, authUntil: int)
    | LookUpProfile(r: RequestId, userId: UserId, wanted: Option<string>)
    | CheckAddress(r: RequestId)
    | Save(r: RequestId)
    | LookUpToken(r: RequestId, id: TokenId, purpose: Purpose)
    | Scan(r: RequestId)
    | Consume(r: RequestId, passwordHash: string)
    | Stop(r: RequestId)

  predicate Enabled(s: State, a: Action) {
    match a
    case Advance(_) => true
    case Register(u, email, _, refreshId, _, authId, _) =>
      u !in s.db.users && !EmailTaken(s.db, u, email) && refreshId !in s.db.refresh && authId !in s.issued
    case Login(u, refreshId, _) => u in s.db.users && refreshId !in s.db.refresh
    case LookUpRefresh(r, _) => r !in s.requests
    case Exchange(r, refreshId, _) => r in s.requests && s.requests[r].Refreshing? && refreshId !in s.db.refresh
    case LookUpLogout(r, _) => r !in s.requests
    case Logout(r) => r in s.requests && s.requests[r].SigningOut?
    case LookUpUser(r, _, _) => r !in s.requests
    case Issue(r, authId, _) => r in s.requests && s.requests[r].Issuing? && authId !in s.issued
    case LookUpProfile(r, _, _) => r !in s.requests
    case CheckAddress(r) => r in s.requests && s.requests[r].Checking?
    case Save(r) => r in s.requests && s.requests[r].Saving?
    case LookUpToken(r, _, _) => r !in s.requests
    case Scan(r) =>
      r in s.requests && s.requests[r].Holding? && s.requests[r].purpose == PasswordReset && s.requests[r].scanned.None?
    case Consume(r, _) =>
      r in s.requests && s.requests[r].Holding? && (s.requests[r].purpose == PasswordReset ==> s.requests[r].scanned.Some?)
    case Stop(r) => r in s.requests && !s.requests[r].Done?
  }

  function Goto(s: State, r: RequestId, stage: Stage): State { s.(requests := s.requests[r := stage]) }

  /** A new chain begins. */
  function Opened(s: State, userId: UserId, id: TokenId, until: int): State {
    s.(db := WithRefresh(s.db, id, userId, until), chain := s.chain[id := s.chains], chains := s.chains + 1)
  }

  function ExchangeCommit(s: State, r: RequestId, id: TokenId, until: int): State
    requires r in s.requests && s.requests[r].Refreshing?
  {
    var Refreshing(id0, userId) := s.requests[r];
    if Active(s.db, id0) then
      Goto(s, r, Done(Exchanged(id0, id))).(
        db := Rotated(s.db, id0, id, userId, until, s.now),
        parent := s.parent[id := id0], chain := s.chain[id := Lookup(s.chain, id0, s.chains)])
    else Goto(s, r, Done(Refused))
  }

  function Issued(s: State, userId: UserId, purpose: Purpose, id: TokenId, until: int, email: string): State {
    s.(db := WithAuthToken(s.db, id, userId, purpose, until), issued := s.issued + {id}, mailed := s.mailed[id := email])
  }

  /** findByEmail: no link for an unknown user, or for one who is verified already. */
  function UserFound(s: State, userId: UserId, purpose: Purpose): Stage {
    if userId !in s.db.users || (purpose == EmailVerification && s.db.users[userId].emailVerifiedAt.Some?) then Done(Refused)
    else Issuing(userId, purpose, s.db.users[userId].email)
  }

  function SaveCommit(s: State, r: RequestId): State
    requires r in s.requests && s.requests[r].Saving?
  {
    var Saving(userId, email, seen) := s.requests[r];
    Goto(s, r, Done(if UpdateSucceeds(s.db, userId, email) then Saved else Refused)).(
      db := Updated(s.db, userId, email, EmailChanged(seen, email)))
  }

  function ConsumeCommit(s: State, r: RequestId, passwordHash: string): State
    requires r in s.requests && s.requests[r].Holding?
  {
    var Holding(id, userId, purpose, at, scanned) := s.requests[r];
    Goto(s, r, Done(if ConsumeSucceeds(s.db, id, userId) then Used(id) else Refused)).(
      db := if purpose == EmailVerification then VerifiedBy(s.db, id, userId, at) 
            else ResetAmong(s.db, id, userId, passwordHash, scanned.GetOr({}), at))
  }

  function Next(s: State, a: Action): State
    requires Enabled(s, a)
  {
    match a
    case Advance(ms) => s.(now := s.now + ms)
    case Register(u, email, hash, refreshId, refreshUntil, authId, authUntil) =>
      Issued(Opened(s.(db := WithUser(s.db, u, email, hash)), u, refreshId, refreshUntil), u, EmailVerification, authId, authUntil, email)
    case Login(u, id, until) => Opened(s, u, id, until)
    case LookUpRefresh(r, id) =>
      Goto(s, r, if Refreshable(s.db, id, s.now) then Refreshing(id, s.db.refresh[id].userId) else Done(Refused))
    case Exchange(r, id, until) => ExchangeCommit(s, r, id, until)
    case LookUpLogout(r, id) => Goto(s, r, if id in s.db.refresh then SigningOut(id) else Done(SignedOut))
    case Logout(r) => Goto(s, r, Done(SignedOut)).(db := Revoked(s.db, s.requests[r].id, s.now))
    case LookUpUser(r, u, purpose) => Goto(s, r, UserFound(s, u, purpose))
    case Issue(r, id, until) =>
      var Issuing(u, purpose, email) := s.requests[r];
      Issued(Goto(s, r, Done(Mailed(id))), u, purpose, id, until, email)
    case LookUpProfile(r, u, email) =>
      Goto(s, r,
           if u !in s.db.users then Done(Refused)
           else if email.Some? then Checking(u, email, s.db.users[u].email)
           else Saving(u, email, s.db.users[u].email))
    case CheckAddress(r) =>
      var Checking(u, email, seen) := s.requests[r];
      Goto(s, r, if email.Some? && EmailTaken(s.db, u, email.value) then Done(Refused) else Saving(u, email, seen))
    case Save(r) => SaveCommit(s, r)
    case LookUpToken(r, id, purpose) =>
      Goto(s, r, if Consumable(s.db, id, purpose, s.now) then Holding(id, s.db.auth[id].userId, purpose, s.now, None) else Done(Refused))
    case Scan(r) => Goto(s, r, s.requests[r].(scanned := Some(s.db.refresh.Keys)))
    case Consume(r, hash) => ConsumeCommit(s, r, hash)
    case Stop(r) => Goto(s, r, Done(Refused))
  }

  predicate CanRun(s: State, run: seq<Action>)
    decreases |run|
  {
    run != [] ==> Enabled(s, run[0]) && CanRun(Next(s, run[0]), run[1..])
  }

  function Run(s: State, run: seq<Action>): State
    requires CanRun(s, run)
    decreases |run|
  {
    if run == [] then s else Run(Next(s, run[0]), run[1..])
  }

  function Start(now: int): State { State(now, Db(map[], map[], map[]), {}, map[], map[], map[], 0, map[]) }

  /******* What every step keeps *******/

  /** The successor c replaced a revoked token of the same user and stays in its chain. */
  predicate LinkSound(s: State, c: TokenId, p: TokenId) {
    && c in s.db.refresh && c in s.chain && p in s.db.refresh && p in s.chain
    && !Active(s.db, p)
    && s.chain[c] == s.chain[p]
    && s.db.refresh[c].userId == s.db.refresh[p].userId
  }

  predicate ParentsSound(s: State) {
    && (forall c <- s.parent :: LinkSound(s, c, s.parent[c]))
    && (forall c <- s.parent, d <- s.parent :: c != d ==> s.parent[c] != s.parent[d])
  }

  predicate ChainsSound(s: State) {
    && s.chain.Keys == s.db.refresh.Keys
    && (forall i <- s.chain :: s.chain[i] < s.chains)
    && (forall i <- s.chain, j <- s.chain :: i != j && Active(s.db, i) && Active(s.db, j) ==> s.chain[i] != s.chain[j])
  }

  predicate TokensSound(s: State) { WellKept(s.db) && s.db.auth.Keys <= s.issued == s.mailed.Keys }

  predicate StageSound(s: State, stage: Stage) {
    match stage
    case Refreshing(id, u) => id in s.db.refresh && s.db.refresh[id].userId == u
    case SigningOut(id) => id in s.db.refresh
    case Holding(id, u, p, _, _) => id in s.issued && u in s.db.users && (id in s.db.auth ==> IsFor(s.db.auth[id], u, p))
    case Issuing(u, _, _) => u in s.db.users
    case Checking(u, _, _) => u in s.db.users
    case Saving(u, _, _) => u in s.db.users
    case Done(Mailed(id)) => id in s.issued
    case Done(Exchanged(replaced, id)) => id in s.parent && s.parent[id] == replaced
    case Done(Used(id)) => id in s.issued && !Unused(s.db, id)
    case Done(_) => true
  }

  /** An outcome that took a token. */
  predicate Takes(stage: Stage) { stage.Done? && (stage.outcome.Exchanged? || stage.outcome.Used?) }

  predicate RequestsSound(s: State) {
    && (forall r <- s.requests :: StageSound(s, s.requests[r]))
    && (forall r <- s.requests, q <- s.requests :: r != q && Takes(s.requests[r]) ==> s.requests[r] != s.requests[q])
  }

  predicate Sound(s: State) { ParentsSound(s) && ChainsSound(s) && TokensSound(s) && RequestsSound(s) }

  /** Tokens may only be revoked from s to t. */
  predicate OnlyRevokes(s: State, t: State) {
    && t.parent == s.parent && t.chain == s.chain && t.chains == s.chains && t.db.refresh.Keys == s.db.refresh.Keys
    && (forall i <- s.db.refresh :: t.db.refresh[i].userId == s.db.refresh[i].userId && (Active(t.db, i) ==> Active(s.db, i)))
  }

  predicate OpensChain(a: Action) { a.Register? || a.Login? }

  lemma RevokesKeepChains(s: State, t: State)
    requires OnlyRevokes(s, t) && ParentsSound(s) && ChainsSound(s)
    ensures ParentsSound(t) && ChainsSound(t)
  {
  }

  lemma NextOnlyRevokes(s: State, a: Action)
    requires Enabled(s, a) && !OpensChain(a) && !a.Exchange?
    ensures OnlyRevokes(s, Next(s, a))
  {
    match a
    case Logout(_) =>
    case Consume(_, _) =>
    case _ =>
  }

  lemma OpenedKeepsChains(s: State, userId: UserId, id: TokenId, until: int)
    requires ParentsSound(s) && ChainsSound(s) && id !in s.db.refresh
    ensures ParentsSound(Opened(s, userId, id, until)) && ChainsSound(Opened(s, userId, id, until))
  {
  }

  lemma ExchangeKeepsParents(s: State, r: RequestId, id: TokenId, until: int)
    requires ParentsSound(s) && s.chain.Keys == s.db.refresh.Keys && Enabled(s, Exchange(r, id, until)) && StageSound(s, s.requests[r])
    ensures ParentsSound(ExchangeCommit(s, r, id, until))
  {
    var t := ExchangeCommit(s, r, id, until);
    forall c <- t.parent ensures LinkSound(t, c, t.parent[c]) {
      if c in s.parent { assert LinkSound(s, c, s.parent[c]); }
    }
    if t.parent != s.parent {
      var replaced := s.requests[r].id;
      forall c <- s.parent ensures s.parent[c] != replaced {
        assert LinkSound(s, c, s.parent[c]);
      }
    }
  }

  lemma ExchangeKeepsChains(s: State, r: RequestId, id: TokenId, until: int)
    requires ChainsSound(s) && Enabled(s, Exchange(r, id, until)) && StageSound(s, s.requests[r])
    ensures ChainsSound(ExchangeCommit(s, r, id, until))
  {
  }

  lemma RegisterKeepsChains(s: State, a: Action)
    requires ParentsSound(s) && ChainsSound(s) && a.Register? && Enabled(s, a)
    ensures ParentsSound(Next(s, a)) && ChainsSound(Next(s, a))
  {
    var t := s.(db := WithUser(s.db, a.userId, a.email, a.passwordHash));
    RevokesKeepChains(s, t);
    OpenedKeepsChains(t, a.userId, a.refreshId, a.refreshUntil);
    RevokesKeepChains(Opened(t, a.userId, a.refreshId, a.refreshUntil), Next(s, a));
  }

  lemma NextKeepsChains(s: State, a: Action)
    requires Sound(s) && Enabled(s, a)
    ensures ParentsSound(Next(s, a)) && ChainsSound(Next(s, a))
  {
    if a.Register? {
      RegisterKeepsChains(s, a);
    } else if a.Login? {
      OpenedKeepsChains(s, a.userId, a.refreshId, a.refreshUntil);
    } else if a.Exchange? {
      assert StageSound(s, s.requests[a.r]);
      ExchangeKeepsParents(s, a.r, a.refreshId, a.refreshUntil);
      ExchangeKeepsChains(s, a.r, a.refreshId, a.refreshUntil);
    } else {
      NextOnlyRevokes(s, a);
      RevokesKeepChains(s, Next(s, a));
    }
  }

  lemma IssuedKeepsTokens(s: State, userId: UserId, purpose: Purpose, id: TokenId, until: int, email: string)
    requires TokensSound(s) && userId in s.db.users && id !in s.issued
    ensures TokensSound(Issued(s, userId, purpose, id, until, email))
  {
    AuthTokenKeeps(s.db, id, userId, purpose, until);
  }

  lemma AuthTokenKeeps(db: Db, id: TokenId, userId: UserId, purpose: Purpose, until: int)
    requires WellKept(db) && userId in db.users
    ensures WellKept(WithAuthToken(db, id, userId, purpose, until))
    ensures WithAuthToken(db, id, userId, purpose, until).auth.Keys <= db.auth.Keys + {id}
  {
  }

  lemma ConsumeKeepsTokens(s: State, r: RequestId, passwordHash: string)
    requires TokensSound(s) && Enabled(s, Consume(r, passwordHash))
    ensures TokensSound(ConsumeCommit(s, r, passwordHash))
  {
    var Holding(id, u, purpose, at, scanned) := s.requests[r];
    if purpose == EmailVerification { VerifiedKeeps(s.db, id, u, at); } else { ResetKeeps(s.db, id, u, passwordHash, scanned.GetOr({}), at); }
  }

  lemma VerifiedKeeps(db: Db, id: TokenId, u: UserId, at: int)
    requires WellKept(db)
    ensures WellKept(VerifiedBy(db, id, u, at)) && VerifiedBy(db, id, u, at).auth.Keys == db.auth.Keys
  {
  }

  lemma ResetKeeps(db: Db, id: TokenId, u: UserId, passwordHash: string, rows: set<TokenId>, at: int)
    requires WellKept(db)
    ensures WellKept(ResetAmong(db, id, u, passwordHash, rows, at)) && ResetAmong(db, id, u, passwordHash, rows, at).auth.Keys == db.auth.Keys
  {
  }

  lemma RefreshKeepsTokens(s: State, a: Action)
    requires TokensSound(s) && Enabled(s, a) && (a.Login? || a.Exchange? || a.Logout?)
    requires a.Exchange? ==> StageSound(s, s.requests[a.r])
    ensures TokensSound(Next(s, a))
  {
    match a
    case Login(u, id, until) => RefreshRowKeeps(s.db, id, u, until);
    case Exchange(r, id, until) =>
      RevokedKeeps(s.db, s.requests[r].id, s.now);
      RefreshRowKeeps(Revoked(s.db, s.requests[r].id, s.now), id, s.requests[r].userId, until);
    case Logout(r) => RevokedKeeps(s.db, s.requests[r].id, s.now);
  }

  lemma RevokedKeeps(db: Db, id: TokenId, now: int)
    requires WellKept(db)
    ensures WellKept(Revoked(db, id, now))
  {
  }

  lemma RefreshRowKeeps(db: Db, id: TokenId, userId: UserId, until: int)
    requires WellKept(db) && userId in db.users
    ensures WellKept(WithRefresh(db, id, userId, until))
  {
  }

  lemma RegisterKeepsTokens(s: State, u: UserId, email: string, hash: string, refreshId: TokenId, refreshUntil: int)
    requires TokensSound(s) && u !in s.db.users && !EmailTaken(s.db, u, email)
    ensures TokensSound(Opened(s.(db := WithUser(s.db, u, email, hash)), u, refreshId, refreshUntil))
  {
  }

  lemma SaveKeepsTokens(s: State, r: RequestId)
    requires TokensSound(s) && Enabled(s, Save(r))
    ensures TokensSound(SaveCommit(s, r))
  {
  }

  lemma NextKeepsTokens(s: State, a: Action)
    requires TokensSound(s) && Enabled(s, a)
    requires a.Exchange? || a.Issue? ==> StageSound(s, s.requests[a.r])
    ensures TokensSound(Next(s, a))
  {
    match a
    case Register(u, email, hash, refreshId, refreshUntil, authId, authUntil) =>
      RegisterKeepsTokens(s, u, email, hash, refreshId, refreshUntil);
      var t := Opened(s.(db := WithUser(s.db, u, email, hash)), u, refreshId, refreshUntil);
      IssuedKeepsTokens(t, u, EmailVerification, authId, authUntil, email);
    case Issue(r, id, until) =>
      var Issuing(u, purpose, email) := s.requests[r];
      IssuedKeepsTokens(Goto(s, r, Done(Mailed(id))), u, purpose, id, until, email);
    case Save(r) => SaveKeepsTokens(s, r);
    case Consume(r, hash) => ConsumeKeepsTokens(s, r, hash);
    case _ => if a.Login? || a.Exchange? || a.Logout? { RefreshKeepsTokens(s, a); }
  }

  predicate TokenLasts(s: State, t: State, i: TokenId) {
    && (Unused(t.db, i) ==> Unused(s.db, i))
    && (i in t.db.auth ==> i in s.db.auth && IsFor(s.db.auth[i], t.db.auth[i].userId, t.db.auth[i].purpose))
  }

  /** Nothing is forgotten from s to t, and what was used or deleted stays so. */
  predicate Grows(s: State, t: State) {
    && s.db.users.Keys <= t.db.users.Keys
    && s.db.refresh.Keys <= t.db.refresh.Keys && (forall i <- s.db.refresh :: t.db.refresh[i].userId == s.db.refresh[i].userId)
    && s.parent.Keys <= t.parent.Keys && (forall c <- s.parent :: t.parent[c] == s.parent[c])
  }

  predicate TokensLast(s: State, t: State) {
    s.issued <= t.issued && forall i <- s.issued :: TokenLasts(s, t, i)
  }

  lemma ExchangeGrows(s: State, r: RequestId, id: TokenId, until: int)
    requires s.parent.Keys <= s.db.refresh.Keys && Enabled(s, Exchange(r, id, until))
    ensures Grows(s, ExchangeCommit(s, r, id, until))
  {
    assert id !in s.parent;
  }

  lemma NextGrows(s: State, a: Action)
    requires s.parent.Keys <= s.db.refresh.Keys && Enabled(s, a)
    ensures Grows(s, Next(s, a))
  {
    match a
    case Exchange(r, id, until) => ExchangeGrows(s, r, id, until);
    case Register(_, _, _, _, _, _, _) =>
    case Login(_, _, _) =>
    case _ => NextOnlyRevokes(s, a);
  }

  lemma NextTokensLast(s: State, a: Action)
    requires Enabled(s, a)
    ensures TokensLast(s, Next(s, a))
  {
    match a
    case Consume(_, _) =>
    case Exchange(r, _, _) =>
    case _ =>
  }

  lemma StageLasts(s: State, t: State, stage: Stage)
    requires Grows(s, t) && TokensLast(s, t) && StageSound(s, stage)
    ensures StageSound(t, stage)
  {
  }

  predicate Moves(a: Action) {
    || a.LookUpRefresh? || a.Exchange? || a.LookUpLogout? || a.Logout? || a.LookUpToken? || a.Scan? || a.Consume? || a.Stop?
    || a.LookUpUser? || a.Issue? || a.LookUpProfile? || a.CheckAddress? || a.Save?
  }

  lemma ExchangerSound(s: State, r: RequestId, id: TokenId, until: int)
    requires Enabled(s, Exchange(r, id, until))
    ensures var t := ExchangeCommit(s, r, id, until); StageSound(t, t.requests[r])
  {
  }

  lemma ConsumerSound(s: State, r: RequestId, passwordHash: string)
    requires TokensSound(s) && Enabled(s, Consume(r, passwordHash)) && StageSound(s, s.requests[r])
    ensures var t := ConsumeCommit(s, r, passwordHash); StageSound(t, t.requests[r])
  {
  }

  predicate LooksUp(a: Action) { a.LookUpRefresh? || a.LookUpLogout? || a.LookUpToken? || a.LookUpUser? || a.LookUpProfile? }

  lemma LookerSound(s: State, a: Action)
    requires TokensSound(s) && Enabled(s, a) && LooksUp(a)
    ensures StageSound(Next(s, a), Next(s, a).requests[a.r])
  {
  }

  lemma MoverSound(s: State, a: Action)
    requires TokensSound(s) && Enabled(s, a) && Moves(a) && (a.r in s.requests ==> StageSound(s, s.requests[a.r]))
    ensures StageSound(Next(s, a), Next(s, a).requests[a.r])
  {
    if a.Exchange? {
      ExchangerSound(s, a.r, a.refreshId, a.refreshUntil);
    } else if a.Consume? {
      ConsumerSound(s, a.r, a.passwordHash);
    } else if LooksUp(a) {
      LookerSound(s, a);
    }
  }

  lemma MoverOnlyMoves(s: State, a: Action)
    requires Enabled(s, a)
    ensures var t := Next(s, a); if Moves(a) then a.r in t.requests && t.requests == s.requests[a.r := t.requests[a.r]] else t.requests == s.requests
  {
  }

  lemma ExchangeTakesFresh(s: State, r: RequestId, id: TokenId, until: int, q: RequestId)
    requires ParentsSound(s) && Enabled(s, Exchange(r, id, until)) && q in s.requests && StageSound(s, s.requests[q])
    ensures s.requests[q] != Done(Exchanged(s.requests[r].id, id))
  {
    assert id in s.parent ==> LinkSound(s, id, s.parent[id]);
  }

  /** A token that is taken was free, so no earlier outcome took it. */
  lemma MoverTakesFresh(s: State, a: Action, q: RequestId)
    requires ParentsSound(s) && Enabled(s, a) && Moves(a) && Takes(Next(s, a).requests[a.r])
    requires q in s.requests && StageSound(s, s.requests[q])
    ensures s.requests[q] != Next(s, a).requests[a.r]
  {
    if a.Exchange? {
      ExchangeTakesFresh(s, a.r, a.refreshId, a.refreshUntil, q);
    } else {
      assert a.Consume?;
    }
  }

  lemma RequestsLast(s: State, a: Action)
    requires Sound(s) && Enabled(s, a)
    ensures forall r <- s.requests :: StageSound(Next(s, a), s.requests[r])
  {
    assert forall c <- s.parent :: LinkSound(s, c, s.parent[c]);
    NextGrows(s, a);
    NextTokensLast(s, a);
    forall r <- s.requests ensures StageSound(Next(s, a), s.requests[r]) {
      StageLasts(s, Next(s, a), s.requests[r]);
    }
  }

  lemma MovedKeepsRequests(s: State, t: State, r: RequestId)
    requires RequestsSound(s) && r in t.requests && t.requests == s.requests[r := t.requests[r]] && StageSound(t, t.requests[r])
    requires forall q <- s.requests :: StageSound(t, s.requests[q])
    requires Takes(t.requests[r]) ==> forall q <- s.requests :: s.requests[q] != t.requests[r]
    ensures RequestsSound(t)
  {
  }

  lemma NextKeepsRequests(s: State, a: Action)
    requires Sound(s) && Enabled(s, a)
    ensures RequestsSound(Next(s, a))
  {
    var t := Next(s, a);
    RequestsLast(s, a);
    MoverOnlyMoves(s, a);
    if Moves(a) {
      MoverSound(s, a);
      if Takes(t.requests[a.r]) {
        forall q <- s.requests ensures s.requests[q] != t.requests[a.r] { MoverTakesFresh(s, a, q); }
      }
      MovedKeepsRequests(s, t, a.r);
    }
  }

  lemma NextSound(s: State, a: Action)
    requires Sound(s) && Enabled(s, a)
    ensures Sound(Next(s, a))
  {
    NextKeepsChains(s, a);
    if a.Exchange? || a.Issue? { assert StageSound(s, s.requests[a.r]); }
    NextKeepsTokens(s, a);
    NextKeepsRequests(s, a);
  }

  lemma {:induction false} RunSound(s: State, run: seq<Action>)
    requires Sound(s) && CanRun(s, run)
    ensures Sound(Run(s, run))
    decreases |run|
  {
    if run != [] {
      NextSound(s, run[0]);
      RunSound(Next(s, run[0]), run[1..]);
    }
  }

  /******* What holds over whole runs *******/

  lemma ExchangesDiffer(s: State, r: RequestId, q: RequestId)
    requires ParentsSound(s) && RequestsSound(s) && r in s.requests && q in s.requests && r != q
    requires s.requests[r].Done? && s.requests[q].Done? && s.requests[r].outcome.Exchanged? && s.requests[q].outcome.Exchanged?
    ensures s.requests[r].outcome.replaced != s.requests[q].outcome.replaced
  {
    assert StageSound(s, s.requests[r]) && StageSound(s, s.requests[q]);
  }

  /** A refresh token has at most one successor, and no two requests both exchange it. */
  lemma OneSuccessor(now: int, run: seq<Action>)
    requires CanRun(Start(now), run)
    ensures
      var t := Run(Start(now), run);
      && (forall c <- t.parent, d <- t.parent :: t.parent[c] == t.parent[d] ==> c == d)
      && (forall r <- t.requests, q <- t.requests ::
            t.requests[r].Done? && t.requests[q].Done? && t.requests[r].outcome.Exchanged? && t.requests[q].outcome.Exchanged? && r != q ==>
              t.requests[r].outcome.replaced != t.requests[q].outcome.replaced)
  {
    RunSound(Start(now), run);
    var t := Run(Start(now), run);
    forall r <- t.requests, q <- t.requests |
      t.requests[r].Done? && t.requests[q].Done? && t.requests[r].outcome.Exchanged? && t.requests[q].outcome.Exchanged? && r != q
      ensures t.requests[r].outcome.replaced != t.requests[q].outcome.replaced
    {
      ExchangesDiffer(t, r, q);
    }
  }

  /** Each login or registration has at most one token that is not revoked, and it is its chain's last. */
  lemma OneLiveTokenPerChain(now: int, run: seq<Action>, i: TokenId)
    requires CanRun(Start(now), run) && Active(Run(Start(now), run).db, i)
    ensures
      var t := Run(Start(now), run);
      && i in t.chain
      && (forall j <- t.chain :: Active(t.db, j) && t.chain[j] == t.chain[i] ==> j == i)
      && (forall c <- t.parent :: t.parent[c] != i)
  {
    RunSound(Start(now), run);
  }

  lemma NextKeepsRevokedRow(s: State, a: Action, id: TokenId)
    requires Enabled(s, a) && id in s.db.refresh && !Active(s.db, id)
    ensures id in Next(s, a).db.refresh && Next(s, a).db.refresh[id] == s.db.refresh[id]
  {
    match a
    case Exchange(_, _, _) =>
    case Consume(_, _) =>
    case Register(_, _, _, _, _, _, _) =>
    case Login(_, _, _) =>
    case _ => NextOnlyRevokesRows(s, a);
  }

  /** Apart from logins and uses, only active rows are touched. */
  lemma NextOnlyRevokesRows(s: State, a: Action)
    requires Enabled(s, a) && !OpensChain(a) && !a.Exchange? && !a.Consume?
    ensures var t := Next(s, a); t.db.refresh == if a.Logout? then Revoked(s.db, s.requests[a.r].id, s.now).refresh else s.db.refresh
  {
  }

  lemma NextKeepsRevoked(s: State, a: Action, id: TokenId)
    requires Enabled(s, a) && id in s.db.refresh && !Active(s.db, id)
    ensures
      var t := Next(s, a);
      && id in t.db.refresh && t.db.refresh[id] == s.db.refresh[id]
      && (forall r <- t.requests :: t.requests[r].Done? && t.requests[r].outcome.Exchanged? && t.requests[r].outcome.replaced == id ==>
            r in s.requests && s.requests[r] == t.requests[r])
  {
    NextKeepsRevokedRow(s, a, id);
    MoverOnlyMoves(s, a);
  }

  /** Revocation is permanent, and what is revoked is never exchanged again. */
  lemma {:induction false} RevocationIsPermanent(s: State, run: seq<Action>, id: TokenId)
    requires CanRun(s, run) && id in s.db.refresh && !Active(s.db, id)
    ensures
      var t := Run(s, run);
      && id in t.db.refresh && t.db.refresh[id] == s.db.refresh[id]
      && (forall r <- t.requests :: t.requests[r].Done? && t.requests[r].outcome.Exchanged? && t.requests[r].outcome.replaced == id ==>
            r in s.requests && s.requests[r] == t.requests[r])
    decreases |run|
  {
    if run != [] {
      NextKeepsRevoked(s, run[0], id);
      RevocationIsPermanent(Next(s, run[0]), run[1..], id);
    }
  }

  /** At most one auth token per user and purpose; no two requests use the same one. */
  lemma TokensAreSingleUse(now: int, run: seq<Action>)
    requires CanRun(Start(now), run)
    ensures
      var t := Run(Start(now), run);
      && (forall i <- t.db.auth, j <- t.db.auth :: IsFor(t.db.auth[i], t.db.auth[j].userId, t.db.auth[j].purpose) ==> i == j)
      && (forall r <- t.requests, q <- t.requests ::
            t.requests[r].Done? && t.requests[q].Done? && t.requests[r].outcome.Used? && t.requests[q].outcome.Used? && r != q ==>
              t.requests[r].outcome.id != t.requests[q].outcome.id)
  {
    RunSound(Start(now), run);
    var t := Run(Start(now), run);
    forall r <- t.requests, q <- t.requests |
      t.requests[r].Done? && t.requests[q].Done? && t.requests[r].outcome.Used? && t.requests[q].outcome.Used? && r != q
      ensures t.requests[r].outcome.id != t.requests[q].outcome.id
    {
      assert t.requests[r] != t.requests[q];
    }
  }

  lemma NextKeepsDeleted(s: State, a: Action, id: TokenId)
    requires Enabled(s, a) && id in s.issued && id !in s.db.auth
    ensures
      var t := Next(s, a);
      && id in t.issued && id !in t.db.auth
      && (forall r <- t.requests :: t.requests[r] == Done(Used(id)) ==> r in s.requests && s.requests[r] == t.requests[r])
  {
    NextTokensLast(s, a);
    assert TokenLasts(s, Next(s, a), id);
    MoverOnlyMoves(s, a);
    if a.Consume? { assert Next(s, a).requests[a.r] != Done(Used(id)); }
  }

  lemma {:induction false} DeletedTokensStayDead(s: State, run: seq<Action>, id: TokenId)
    requires CanRun(s, run) && id in s.issued && id !in s.db.auth
    ensures
      var t := Run(s, run);
      && id !in t.db.auth
      && (forall r <- t.requests :: t.requests[r] == Done(Used(id)) ==> r in s.requests && s.requests[r] == t.requests[r])
    decreases |run|
  {
    if run != [] {
      NextKeepsDeleted(s, run[0], id);
      DeletedTokensStayDead(Next(s, run[0]), run[1..], id);
    }
  }

  lemma IssueSupersedes(s: State, a: Action, run: seq<Action>, id: TokenId, q: RequestId)
    requires TokensSound(s) && a.Issue? && Enabled(s, a) && id in s.db.auth
    requires IsFor(s.db.auth[id], s.requests[a.r].userId, s.requests[a.r].purpose) && CanRun(Next(s, a), run)
    ensures
      var t := Run(Next(s, a), run);
      && id !in t.db.auth
      && (q in t.requests && t.requests[q] == Done(Used(id)) ==> q in s.requests && s.requests[q] == t.requests[q])
  {
    DeletedTokensStayDead(Next(s, a), run, id);
  }

  /** Once a token is issued again, the earlier one takes no further effect, even for a request that already holds it. */
  lemma ReissueSupersedes(now: int, prefix: seq<Action>, a: Action, run: seq<Action>, id: TokenId, q: RequestId)
    requires CanRun(Start(now), prefix)
    requires
      var s := Run(Start(now), prefix);
      && a.Issue? && Enabled(s, a) && id in s.db.auth && IsFor(s.db.auth[id], s.requests[a.r].userId, s.requests[a.r].purpose)
      && CanRun(Next(s, a), run)
    ensures
      var s := Run(Start(now), prefix);
      var t := Run(Next(s, a), run);
      && id !in t.db.auth
      && (q in t.requests && t.requests[q] == Done(Used(id)) ==> q in s.requests && s.requests[q] == t.requests[q])
  {
    RunSound(Start(now), prefix);
    IssueSupersedes(Run(Start(now), prefix), a, run, id, q);
  }

  /******* Particular runs *******/

  predicate Leads(s: State, run: seq<Action>, t: State) { CanRun(s, run) && Run(s, run) == t }

  lemma LeadsFirst(s: State, a: Action, rest: seq<Action>, t: State)
    requires Enabled(s, a) && Leads(Next(s, a), rest, t)
    ensures Leads(s, [a] + rest, t)
  {
    assert ([a] + rest)[1..] == rest;
  }

  lemma {:induction false} LeadsOn(s: State, first: seq<Action>, t: State, rest: seq<Action>, u: State)
    requires Leads(s, first, t) && Leads(t, rest, u)
    ensures Leads(s, first + rest, u)
    decreases |first|
  {
    if first == [] {
      assert first + rest == rest;
    } else {
      LeadsOn(Next(s, first[0]), first[1..], t, rest, u);
      LeadsFirst(s, first[0], first[1..] + rest, u);
      assert [first[0]] + (first[1..] + rest) == first + rest;
    }
  }
}

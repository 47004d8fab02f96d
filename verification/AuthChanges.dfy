/** Which steps begin and end a session, and which make and spend a single-use token. */
module AuthChanges {
  import opened Common
  import opened AuthTokens
  import opened AuthProtocol

  /******* Sessions *******/

  /** A registration, a login, or an exchange of a token that is not revoked. */
  predicate Begins(s: State, a: Action, id: TokenId)
    requires Enabled(s, a)
  {
    match a
    case Register(_, _, _, refreshId, _, _, _) => refreshId == id
    case Login(_, refreshId, _) => refreshId == id
    case Exchange(r, refreshId, _) =>
      refreshId == id && s.requests[r].id in s.db.refresh && s.db.refresh[s.requests[r].id].revokedAt.None?
    case _ => false
  }

  function Owner(s: State, a: Action): UserId
    requires Enabled(s, a) && (a.Register? || a.Login? || a.Exchange?)
  {
    if a.Exchange? then s.requests[a.r].userId else a.userId
  }

  /** An exchange or logout of this very token, or a reset of its user's password whose statement saw it. */
  predicate Ends(s: State, a: Action, id: TokenId)
    requires Enabled(s, a)
  {
    && id in s.db.refresh
    && match a
       case Exchange(r, _, _) => s.requests[r].id == id
       case Logout(r) => s.requests[r].id == id
       case Consume(r, _) =>
         var Holding(token, u, purpose, _, scanned) := s.requests[r];
         && purpose == PasswordReset && scanned.Some? && id in scanned.value && s.db.refresh[id].userId == u
         && token in s.db.auth && s.db.auth[token].consumedAt.None? && u in s.db.users
       case _ => false
  }

  function EndedAt(s: State, a: Action): int
    requires Enabled(s, a)
  {
    if a.Consume? then s.requests[a.r].at else s.now
  }

  predicate SameRow<T(==)>(id: TokenId, before: map<TokenId, T>, after: map<TokenId, T>) {
    (id in after <==> id in before) && (id in before ==> after[id] == before[id])
  }

  /** One step: a session appears as it begins and is marked as it ends; otherwise its row stays as it is. */
  lemma SessionsChange(s: State, a: Action, id: TokenId)
    requires Enabled(s, a)
    ensures
      var t := Next(s, a);
      if Begins(s, a, id) then id in t.db.refresh && t.db.refresh[id] == RefreshRow(Owner(s, a), a.refreshUntil, None)
      else if Ends(s, a, id) && s.db.refresh[id].revokedAt.None? then
        id in t.db.refresh && t.db.refresh[id] == s.db.refresh[id].(revokedAt := Some(EndedAt(s, a)))
      else SameRow(id, s.db.refresh, t.db.refresh)
  {
    match a
    case Exchange(_, _, _) =>
    case Consume(_, _) =>
    case Logout(_) =>
    case _ =>
  }

  ghost predicate EndedIn(s: State, run: seq<Action>, id: TokenId)
    requires CanRun(s, run)
    decreases |run|
  {
    run != [] && (Ends(s, run[0], id) || EndedIn(Next(s, run[0]), run[1..], id))
  }

  lemma {:induction false} RunSessionActiveIff(s: State, run: seq<Action>, id: TokenId)
    requires CanRun(s, run) && id in s.db.refresh
    ensures
      var t := Run(s, run);
      && id in t.db.refresh && t.db.refresh[id].userId == s.db.refresh[id].userId && t.db.refresh[id].expiresAt == s.db.refresh[id].expiresAt
      && (t.db.refresh[id].revokedAt.None? <==> s.db.refresh[id].revokedAt.None? && !EndedIn(s, run, id))
    decreases |run|
  {
    if run != [] {
      SessionsChange(s, run[0], id);
      RunSessionActiveIff(Next(s, run[0]), run[1..], id);
    }
  }

  /** In every run a session, from the step that begins it, belongs to that step's user with the expiry it was given, and
      is active for exactly as long as nothing has ended it. */
  lemma SessionIsActiveIff(now: int, prefix: seq<Action>, a: Action, rest: seq<Action>, id: TokenId)
    requires CanRun(Start(now), prefix) && Enabled(Run(Start(now), prefix), a) && Begins(Run(Start(now), prefix), a, id)
    requires CanRun(Next(Run(Start(now), prefix), a), rest)
    ensures
      var s := Run(Start(now), prefix);
      var t := Run(Next(s, a), rest);
      && id in t.db.refresh && t.db.refresh[id].userId == Owner(s, a) && t.db.refresh[id].expiresAt == a.refreshUntil
      && (t.db.refresh[id].revokedAt.None? <==> !EndedIn(Next(s, a), rest, id))
  {
    var s := Run(Start(now), prefix);
    SessionsChange(s, a, id);
    RunSessionActiveIff(Next(s, a), rest, id);
  }

  /******* Single-use tokens *******/

  /** The user and purpose of the token that the step makes, if it makes one. */
  function Made(s: State, a: Action): Option<(UserId, Purpose)>
    requires Enabled(s, a)
  {
    match a
    case Register(u, _, _, _, _, _, _) => Some((u, EmailVerification))
    case Issue(r, _, _) => Some((s.requests[r].userId, s.requests[r].purpose))
    case _ => None
  }

  /** A use of this very token that finds it unused; a verification also needs its user. */
  predicate Spends(s: State, a: Action, id: TokenId)
    requires Enabled(s, a)
  {
    && a.Consume? && s.requests[a.r].id == id && id in s.db.auth && s.db.auth[id].consumedAt.None?
    && (s.requests[a.r].purpose == EmailVerification ==> s.requests[a.r].userId in s.db.users)
  }

  /** Another token of the same user and purpose is made. */
  predicate Replaces(s: State, a: Action, id: TokenId)
    requires Enabled(s, a)
  {
    && Made(s, a).Some? && a.authId != id
    && id in s.db.auth && (s.db.auth[id].userId, s.db.auth[id].purpose) == Made(s, a).value
  }

  /** One step: a token appears as it is made, is marked as it is spent and deleted as it is replaced; otherwise its row
      stays as it is. */
  lemma TokensChange(s: State, a: Action, id: TokenId)
    requires Enabled(s, a)
    ensures
      var t := Next(s, a);
      if Made(s, a).Some? && a.authId == id then
        id in t.db.auth && t.db.auth[id] == AuthRow(Made(s, a).value.0, Made(s, a).value.1, a.authUntil, None)
      else if Replaces(s, a, id) then id !in t.db.auth
      else if Spends(s, a, id) then id in t.db.auth && t.db.auth[id] == s.db.auth[id].(consumedAt := Some(s.requests[a.r].at))
      else SameRow(id, s.db.auth, t.db.auth)
  {
    match a
    case Consume(_, _) =>
    case Issue(_, _, _) =>
    case Exchange(_, _, _) =>
    case _ =>
  }

  ghost predicate GoneIn(s: State, run: seq<Action>, id: TokenId)
    requires CanRun(s, run)
    decreases |run|
  {
    run != [] && (Spends(s, run[0], id) || Replaces(s, run[0], id) || GoneIn(Next(s, run[0]), run[1..], id))
  }

  lemma {:induction false} RunTokenUnusedIff(s: State, run: seq<Action>, id: TokenId)
    requires CanRun(s, run) && id in s.issued && Sound(s)
    ensures Unused(Run(s, run).db, id) <==> Unused(s.db, id) && !GoneIn(s, run, id)
    ensures Unused(Run(s, run).db, id) ==> Run(s, run).db.auth[id] == s.db.auth[id]
    decreases |run|
  {
    if run != [] {
      TokensChange(s, run[0], id);
      NextSound(s, run[0]);
      NextTokensLast(s, run[0]);
      RunTokenUnusedIff(Next(s, run[0]), run[1..], id);
    }
  }

  /** In every run a single-use token, from the step that makes it, is of that step's user and purpose with the expiry it
      was given, and is unused for exactly as long as it has been neither spent nor replaced. */
  lemma TokenIsUnusedIff(now: int, prefix: seq<Action>, a: Action, rest: seq<Action>)
    requires CanRun(Start(now), prefix) && Enabled(Run(Start(now), prefix), a) && Made(Run(Start(now), prefix), a).Some?
    requires CanRun(Next(Run(Start(now), prefix), a), rest)
    ensures
      var s := Run(Start(now), prefix);
      var t := Run(Next(s, a), rest);
      && (Unused(t.db, a.authId) <==> !GoneIn(Next(s, a), rest, a.authId))
      && (Unused(t.db, a.authId) ==> t.db.auth[a.authId] == AuthRow(Made(s, a).value.0, Made(s, a).value.1, a.authUntil, None))
  {
    RunSound(Start(now), prefix);
    var s := Run(Start(now), prefix);
    NextSound(s, a);
    TokensChange(s, a, a.authId);
    RunTokenUnusedIff(Next(s, a), rest, a.authId);
  }

  /******* Users, lookups and outcomes *******/

  /** A user appears by registering, unverified, and in no other way. */
  lemma UsersAppear(s: State, a: Action, u: UserId)
    requires Enabled(s, a) && u !in s.db.users
    ensures
      var t := Next(s, a);
      && (u in t.db.users <==> a.Register? && a.userId == u)
      && (u in t.db.users ==> t.db.users[u] == User(a.email, a.passwordHash, None))
  {
    match a
    case Consume(_, _) =>
    case Save(_) =>
    case _ =>
  }

  /** What a lookup admits, on the row itself, and which commits succeed. */
  lemma AdmissionsAreExact(s: State, a: Action)
    requires Enabled(s, a)
    ensures
      var t := Next(s, a);
      match a
      case LookUpRefresh(r, id) =>
        t.requests[r] == if id in s.db.refresh && s.db.refresh[id].revokedAt.None? && s.now < s.db.refresh[id].expiresAt
                         then Refreshing(id, s.db.refresh[id].userId) else Done(Refused)
      case Exchange(r, id, _) =>
        var old' := s.requests[r].id;
        t.requests[r] == if old' in s.db.refresh && s.db.refresh[old'].revokedAt.None? then Done(Exchanged(old', id)) else Done(Refused)
      case LookUpLogout(r, id) => t.requests[r] == if id in s.db.refresh then SigningOut(id) else Done(SignedOut)
      case LookUpUser(r, u, purpose) =>
        t.requests[r] == if u in s.db.users && (purpose == PasswordReset || s.db.users[u].emailVerifiedAt.None?)
                         then Issuing(u, purpose, s.db.users[u].email) else Done(Refused)
      case LookUpToken(r, id, purpose) =>
        t.requests[r] == if id in s.db.auth && s.db.auth[id].purpose == purpose && s.db.auth[id].consumedAt.None? && s.now < s.db.auth[id].expiresAt
                         then Holding(id, s.db.auth[id].userId, purpose, s.now, None) else Done(Refused)
      case CheckAddress(r) =>
        var Checking(u, wanted, seen) := s.requests[r];
        t.requests[r] == if wanted.Some? && exists v <- s.db.users :: v != u && s.db.users[v].email == wanted.value
                         then Done(Refused) else Saving(u, wanted, seen)
      case Save(r) =>
        var Saving(u, wanted, _) := s.requests[r];
        t.requests[r] == if u in s.db.users && (wanted.Some? ==> forall v <- s.db.users :: s.db.users[v].email == wanted.value ==> v == u)
                         then Done(Saved) else Done(Refused)
      case _ => true
  {
  }
}

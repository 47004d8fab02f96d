/** Refresh tokens, single-use auth tokens and the guarded commits on them. A token stands for its row: hashes are unique. */
module AuthTokens {
  import opened Common

  type UserId = string
  type TokenId = nat

  datatype Purpose = EmailVerification | PasswordReset

  datatype User = User(email: string, passwordHash: string, emailVerifiedAt: Option<int>)

  datatype RefreshRow = RefreshRow(userId: UserId, expiresAt: int, revokedAt: Option<int>)

  datatype AuthRow = AuthRow(userId: UserId, purpose: Purpose, expiresAt: int, consumedAt: Option<int>)

  datatype Db = Db(users: map<UserId, User>, refresh: map<TokenId, RefreshRow>, auth: map<TokenId, AuthRow>)

  /** The row a guarded updateMany would touch. */
  predicate Active(db: Db, id: TokenId) { id in db.refresh && db.refresh[id].revokedAt.None? }

  predicate Unused(db: Db, id: TokenId) { id in db.auth && db.auth[id].consumedAt.None? }

  /******* Commits of the repository *******/

  function Revoked(db: Db, id: TokenId, now: int): Db {
    if Active(db, id) then db.(refresh := db.refresh[id := db.refresh[id].(revokedAt := Some(now))]) else db
  }

  function WithRefresh(db: Db, id: TokenId, userId: UserId, expiresAt: int): Db {
    db.(refresh := db.refresh[id := RefreshRow(userId, expiresAt, None)])
  }

  /** Revocation of the old row and insertion of the new one, or nothing at all. */
  function Rotated(db: Db, oldId: TokenId, newId: TokenId, userId: UserId, expiresAt: int, now: int): Db {
    if Active(db, oldId) then WithRefresh(Revoked(db, oldId, now), newId, userId, expiresAt) else db
  }

  predicate EmailTaken(db: Db, userId: UserId, email: string) { exists v <- db.users :: v != userId && db.users[v].email == email }

  function WithUser(db: Db, userId: UserId, email: string, passwordHash: string): Db {
    db.(users := db.users[userId := User(email, passwordHash, None)])
  }

  function LowerChar(c: char): char { if 'A' <= c <= 'Z' then c - 'A' + 'a' else c }

  /** Addresses have passed a check that admits ASCII only. */
  function LowerCase(s: string): string { seq(|s|, i requires 0 <= i < |s| => LowerChar(s[i])) }

  /** The characters are equal, or the two cases of one letter. */
  predicate SameLetter(c: char, d: char) {
    c == d || ('A' <= c <= 'Z' && d as int == c as int + 32) || ('A' <= d <= 'Z' && c as int == d as int + 32)
  }

  /** Lower-case forms are equal exactly for addresses that differ in letter case alone. */
  lemma LowerCaseEqualIff(s: string, t: string)
    ensures LowerCase(s) == LowerCase(t) <==> |s| == |t| && forall i | 0 <= i < |s| :: SameLetter(s[i], t[i])
  {
    if LowerCase(s) == LowerCase(t) {
      assert |s| == |LowerCase(s)| == |LowerCase(t)| == |t|;
      forall i | 0 <= i < |s| ensures SameLetter(s[i], t[i]) { assert LowerCase(s)[i] == LowerCase(t)[i]; }
    }
    if |s| == |t| && forall i | 0 <= i < |s| :: SameLetter(s[i], t[i]) {
      forall i | 0 <= i < |s| ensures LowerCase(s)[i] == LowerCase(t)[i] { assert SameLetter(s[i], t[i]); }
    }
  }

  /** The service's comparison of a requested address with the one it has read before. */
  predicate EmailChanged(seen: string, email: Option<string>) { email.Some? && LowerCase(email.value) != LowerCase(seen) }

  /** The user exists, and the unique address column admits the value. */
  predicate UpdateSucceeds(db: Db, userId: UserId, email: Option<string>) {
    userId in db.users && (email.Some? ==> !EmailTaken(db, userId, email.value))
  }

  function WithProfile(user: User, email: Option<string>, clear: bool): User {
    user.(email := email.GetOr(user.email), emailVerifiedAt := if clear then None else user.emailVerifiedAt)
  }

  function Updated(db: Db, userId: UserId, email: Option<string>, clear: bool): Db {
    if UpdateSucceeds(db, userId, email) then db.(users := db.users[userId := WithProfile(db.users[userId], email, clear)]) else db
  }

  predicate IsFor(row: AuthRow, userId: UserId, purpose: Purpose) { row.userId == userId && row.purpose == purpose }

  function WithoutTokens(auth: map<TokenId, AuthRow>, userId: UserId, purpose: Purpose): map<TokenId, AuthRow> {
    map i | i in auth && !IsFor(auth[i], userId, purpose) :: auth[i]
  }

  /** Any token of the same user and purpose is deleted first. */
  function WithAuthToken(db: Db, id: TokenId, userId: UserId, purpose: Purpose, expiresAt: int): Db {
    db.(auth := WithoutTokens(db.auth, userId, purpose)[id := AuthRow(userId, purpose, expiresAt, None)])
  }

  function Consumed(db: Db, id: TokenId, now: int): Db
    requires id in db.auth
  {
    db.(auth := db.auth[id := db.auth[id].(consumedAt := Some(now))])
  }

  /** A missing user makes the update throw, which undoes the consumption. */
  function VerifiedBy(db: Db, id: TokenId, userId: UserId, now: int): Db {
    if Unused(db, id) && userId in db.users
    then Consumed(db, id, now).(users := db.users[userId := db.users[userId].(emailVerifiedAt := Some(now))])
    else db
  }

  function AllRevoked(refresh: map<TokenId, RefreshRow>, userId: UserId, now: int): map<TokenId, RefreshRow> {
    map i | i in refresh ::
      if refresh[i].userId == userId && refresh[i].revokedAt.None? then refresh[i].(revokedAt := Some(now)) else refresh[i]
  }

  function RevokedAmong(refresh: map<TokenId, RefreshRow>, userId: UserId, rows: set<TokenId>, now: int): map<TokenId, RefreshRow> {
    map i | i in refresh ::
      if i in rows && refresh[i].userId == userId && refresh[i].revokedAt.None? then refresh[i].(revokedAt := Some(now)) else refresh[i]
  }

  /** The reset of a transaction whose statement on the sessions has seen these rows. */
  function ResetAmong(db: Db, id: TokenId, userId: UserId, passwordHash: string, rows: set<TokenId>, now: int): Db {
    if !Unused(db, id) then db
    else if userId !in db.users then Consumed(db, id, now)
    else
      Consumed(db, id, now).(
        users := db.users[userId := db.users[userId].(passwordHash := passwordHash)],
        refresh := RevokedAmong(db.refresh, userId, rows, now))
  }

  /** A missing user ends the transaction early, which still commits the consumption. */
  function ResetBy(db: Db, id: TokenId, userId: UserId, passwordHash: string, now: int): Db {
    if !Unused(db, id) then db
    else if userId !in db.users then Consumed(db, id, now)
    else
      Consumed(db, id, now).(
        users := db.users[userId := db.users[userId].(passwordHash := passwordHash)],
        refresh := AllRevoked(db.refresh, userId, now))
  }

  /** With nothing committed in between, the statement sees every row. */
  lemma ResetSeesAll(db: Db, id: TokenId, userId: UserId, passwordHash: string, now: int)
    ensures ResetAmong(db, id, userId, passwordHash, db.refresh.Keys, now) == ResetBy(db, id, userId, passwordHash, now)
  {
    assert RevokedAmong(db.refresh, userId, db.refresh.Keys, now) == AllRevoked(db.refresh, userId, now);
  }

  predicate ConsumeSucceeds(db: Db, id: TokenId, userId: UserId) { Unused(db, id) && userId in db.users }

  /******* Checks of the service *******/

  predicate Refreshable(db: Db, id: TokenId, now: int) { Active(db, id) && now < db.refresh[id].expiresAt }

  predicate Consumable(db: Db, id: TokenId, purpose: Purpose, now: int) {
    Unused(db, id) && db.auth[id].purpose == purpose && now < db.auth[id].expiresAt
  }

  datatype Failure = InvalidToken | UsedToken | ExpiredToken

  /** The three failures of a lookup, in the order they are checked. */
  function LookupFailure(db: Db, id: TokenId, purpose: Purpose, now: int): (f: Option<Failure>)
    ensures f.None? <==> Consumable(db, id, purpose, now)
    ensures f == Some(InvalidToken) <==> !(id in db.auth && db.auth[id].purpose == purpose)
    ensures f == Some(UsedToken) <==> id in db.auth && db.auth[id].purpose == purpose && db.auth[id].consumedAt != None
    ensures f == Some(ExpiredToken) <==> Unused(db, id) && db.auth[id].purpose == purpose && now >= db.auth[id].expiresAt
  {
    if id !in db.auth || db.auth[id].purpose != purpose then Some(InvalidToken)
    else if db.auth[id].consumedAt.Some? then Some(UsedToken)
    else if db.auth[id].expiresAt <= now then Some(ExpiredToken)
    else None
  }

  datatype ProfileFailure = UserNotFound | EmailInUse

  function ProfileFailureOf(db: Db, userId: UserId, email: Option<string>): (f: Option<ProfileFailure>)
    ensures f.None? <==> UpdateSucceeds(db, userId, email)
    ensures f == Some(UserNotFound) <==> userId !in db.users
    ensures f == Some(EmailInUse) <==>
              userId in db.users && email.Some? && exists v <- db.users :: db.users[v].email == email.value && v != userId
  {
    if userId !in db.users then Some(UserNotFound)
    else if email.Some? && EmailTaken(db, userId, email.value) then Some(EmailInUse)
    else None
  }

  /** Foreign keys, the unique address, and the unique pair of user and purpose. */
  predicate WellKept(db: Db) {
    && (forall u <- db.users, v <- db.users :: db.users[u].email == db.users[v].email ==> u == v)
    && (forall i <- db.refresh :: db.refresh[i].userId in db.users)
    && (forall i <- db.auth :: db.auth[i].userId in db.users)
    && (forall i <- db.auth, j <- db.auth :: IsFor(db.auth[i], db.auth[j].userId, db.auth[j].purpose) ==> i == j)
  }

  /******* The repository and the service, one operation at a time *******/

  class AuthRepository {
    var db: Db

    constructor (db: Db)
      ensures this.db == db
    {
      this.db := db;
    }

    method RevokeRefreshTokenById(id: TokenId, now: int) returns (count: nat)
      modifies this
      ensures db == Revoked(old(db), id, now)
      ensures count == if id in old(db).refresh && old(db).refresh[id].revokedAt.None? then 1 else 0
    {
      if id !in db.refresh || db.refresh[id].revokedAt.Some? { return 0; }
      db := db.(refresh := db.refresh[id := db.refresh[id].(revokedAt := Some(now))]);
      return 1;
    }

    method CreateRefreshToken(id: TokenId, userId: UserId, expiresAt: int)
      modifies this
      ensures db == WithRefresh(old(db), id, userId, expiresAt)
    {
      db := db.(refresh := db.refresh[id := RefreshRow(userId, expiresAt, None)]);
    }

    method RotateRefreshToken(oldId: TokenId, newId: TokenId, userId: UserId, expiresAt: int, now: int) returns (rotated: Option<RefreshRow>)
      modifies this
      ensures db == Rotated(old(db), oldId, newId, userId, expiresAt, now)
      ensures rotated == if Active(old(db), oldId) then Some(db.refresh[newId]) else None
    {
      var count := RevokeRefreshTokenById(oldId, now);
      if count == 0 { return None; }
      CreateRefreshToken(newId, userId, expiresAt);
      return Some(db.refresh[newId]);
    }

    /** All three rows, or none when the address is in use. */
    method CreateUserWithAuthData(userId: UserId, email: string, passwordHash: string, refreshId: TokenId, refreshExpiresAt: int, authId: TokenId, authExpiresAt: int)
      returns (created: bool)
      requires WellKept(db) && userId !in db.users && authId !in db.auth // new row ids
      modifies this
      ensures created <==> !EmailTaken(old(db), userId, email)
      ensures db == if created then
                      WithAuthToken(WithRefresh(WithUser(old(db), userId, email, passwordHash), refreshId, userId, refreshExpiresAt),
                                    authId, userId, EmailVerification, authExpiresAt)
                    else old(db)
    {
      if EmailTaken(db, userId, email) { return false; }
      db := WithUser(db, userId, email, passwordHash);
      CreateRefreshToken(refreshId, userId, refreshExpiresAt);
      assert WithoutTokens(db.auth, userId, EmailVerification) == db.auth;
      db := db.(auth := db.auth[authId := AuthRow(userId, EmailVerification, authExpiresAt, None)]);
      return true;
    }

    /** A missing user is answered with no result; an address in use makes the update throw. */
    method Update(userId: UserId, email: Option<string>, clearVerification: bool) returns (updated: bool)
      modifies this
      ensures db == Updated(old(db), userId, email, clearVerification)
      ensures updated == UpdateSucceeds(old(db), userId, email)
    {
      if userId !in db.users { return false; }
      if email.Some? && EmailTaken(db, userId, email.value) { return false; }
      var user := db.users[userId];
      if email.Some? { user := user.(email := email.value); }
      if clearVerification { user := user.(emailVerifiedAt := None); }
      db := db.(users := db.users[userId := user]);
      return true;
    }

    /** deleteMany over the rows. */
    method DeleteAuthTokens(userId: UserId, purpose: Purpose)
      modifies this
      ensures db == old(db).(auth := WithoutTokens(old(db).auth, userId, purpose))
    {
      var left := db.auth.Keys;
      ghost var all := db.auth;
      while left != {}
        invariant left <= db.auth.Keys && db == old(db).(auth := db.auth)
        invariant forall i <- db.auth :: i in all && db.auth[i] == all[i] && (i in left || !IsFor(all[i], userId, purpose))
        invariant forall i <- all :: i in db.auth || IsFor(all[i], userId, purpose)
        decreases |left|
      {
        var i :| i in left;
        if IsFor(db.auth[i], userId, purpose) { db := db.(auth := db.auth - {i}); }
        left := left - {i};
      }
      assert db.auth == WithoutTokens(all, userId, purpose);
    }

    method CreateAuthToken(id: TokenId, userId: UserId, purpose: Purpose, expiresAt: int)
      modifies this
      ensures db == WithAuthToken(old(db), id, userId, purpose, expiresAt)
    {
      DeleteAuthTokens(userId, purpose);
      db := db.(auth := db.auth[id := AuthRow(userId, purpose, expiresAt, None)]);
    }

    /** The guarded consumption both operations start with. */
    method Consume(id: TokenId, now: int) returns (count: nat)
      modifies this
      ensures db == if Unused(old(db), id) then Consumed(old(db), id, now) else old(db)
      ensures count == if Unused(old(db), id) then 1 else 0
    {
      if id !in db.auth || db.auth[id].consumedAt.Some? { return 0; }
      db := db.(auth := db.auth[id := db.auth[id].(consumedAt := Some(now))]);
      return 1;
    }

    method ConsumeVerificationTokenAndVerifyUser(id: TokenId, userId: UserId, now: int) returns (verified: bool)
      modifies this
      ensures db == VerifiedBy(old(db), id, userId, now)
      ensures verified <==> id in old(db).auth && old(db).auth[id].consumedAt.None? && userId in old(db).users
    {
      var before := db;
      var count := Consume(id, now);
      if count == 0 { return false; }
      if userId !in db.users {
        db := before; // the exception rolls the transaction back
        return false;
      }
      db := db.(users := db.users[userId := db.users[userId].(emailVerifiedAt := Some(now))]);
      return true;
    }

    /** updateMany over the user's rows that are not revoked. */
    method RevokeAll(userId: UserId, now: int)
      modifies this
      ensures db == old(db).(refresh := AllRevoked(old(db).refresh, userId, now))
    {
      var left := db.refresh.Keys;
      ghost var all := db.refresh;
      while left != {}
        invariant left <= all.Keys == db.refresh.Keys && db == old(db).(refresh := db.refresh)
        invariant forall i <- db.refresh :: db.refresh[i] == if i in left then all[i] else AllRevoked(all, userId, now)[i]
        decreases |left|
      {
        var i :| i in left;
        if db.refresh[i].userId == userId && db.refresh[i].revokedAt.None? {
          db := db.(refresh := db.refresh[i := db.refresh[i].(revokedAt := Some(now))]);
        }
        left := left - {i};
      }
      assert db.refresh == AllRevoked(all, userId, now);
    }

    method ConsumePasswordResetTokenAndUpdatePassword(id: TokenId, userId: UserId, passwordHash: string, now: int) returns (updated: bool)
      modifies this
      ensures db == ResetBy(old(db), id, userId, passwordHash, now)
      ensures updated <==> id in old(db).auth && old(db).auth[id].consumedAt.None? && userId in old(db).users
    {
      var count := Consume(id, now);
      if count == 0 || userId !in db.users { return false; }
      db := db.(users := db.users[userId := db.users[userId].(passwordHash := passwordHash)]);
      RevokeAll(userId, now);
      return true;
    }
  }

  class AuthService {
    const repository: AuthRepository

    constructor (repository: AuthRepository)
      ensures this.repository == repository
    {
      this.repository := repository;
    }

    method Refresh(id: TokenId, newId: TokenId, expiresAt: int, now: int) returns (next: Option<TokenId>)
      modifies repository
      ensures next.Some? <==>
        var db := old(repository.db);
        id in db.refresh && db.refresh[id].revokedAt.None? && now < db.refresh[id].expiresAt
      ensures repository.db == if next.Some? then Rotated(old(repository.db), id, newId, old(repository.db).refresh[id].userId, expiresAt, now)
                               else old(repository.db)
      ensures next.Some? ==> next == Some(newId)
    {
      var db := repository.db;
      if id !in db.refresh || db.refresh[id].revokedAt.Some? || db.refresh[id].expiresAt <= now { return None; }
      var rotated := repository.RotateRefreshToken(id, newId, db.refresh[id].userId, expiresAt, now);
      return if rotated.Some? then Some(newId) else None;
    }

    method Logout(id: TokenId, now: int)
      modifies repository
      ensures repository.db == Revoked(old(repository.db), id, now)
    {
      if id in repository.db.refresh {
        var count := repository.RevokeRefreshTokenById(id, now);
      }
    }

    method VerifyEmailAddress(id: TokenId, now: int) returns (failure: Option<Failure>)
      requires WellKept(repository.db)
      modifies repository
      ensures failure == LookupFailure(old(repository.db), id, EmailVerification, now)
      ensures repository.db == if failure.None? then VerifiedBy(old(repository.db), id, old(repository.db).auth[id].userId, now) else old(repository.db)
    {
      var db := repository.db;
      if id !in db.auth || db.auth[id].purpose != EmailVerification { return Some(InvalidToken); }
      if db.auth[id].consumedAt.Some? { return Some(UsedToken); }
      if db.auth[id].expiresAt <= now { return Some(ExpiredToken); }
      var verified := repository.ConsumeVerificationTokenAndVerifyUser(id, db.auth[id].userId, now);
      return if verified then None else Some(UsedToken);
    }

    method ResetUserPassword(id: TokenId, passwordHash: string, now: int) returns (failure: Option<Failure>)
      requires WellKept(repository.db)
      modifies repository
      ensures failure == LookupFailure(old(repository.db), id, PasswordReset, now)
      ensures repository.db == if failure.None? then ResetBy(old(repository.db), id, old(repository.db).auth[id].userId, passwordHash, now) else old(repository.db)
    {
      var db := repository.db;
      if id !in db.auth || db.auth[id].purpose != PasswordReset { return Some(InvalidToken); }
      if db.auth[id].consumedAt.Some? { return Some(UsedToken); }
      if db.auth[id].expiresAt <= now { return Some(ExpiredToken); }
      var updated := repository.ConsumePasswordResetTokenAndUpdatePassword(id, db.auth[id].userId, passwordHash, now);
      return if updated then None else Some(UsedToken);
    }

    /** Alone, a saved address that differs beyond case clears the verification, and no other one does. */
    method UpdateCurrentUser(userId: UserId, email: Option<string>) returns (failure: Option<ProfileFailure>)
      modifies repository
      ensures failure == ProfileFailureOf(old(repository.db), userId, email)
      ensures repository.db == if failure.Some? then old(repository.db)
              else Updated(old(repository.db), userId, email, EmailChanged(old(repository.db).users[userId].email, email))
    {
      var db := repository.db;
      if userId !in db.users { return Some(UserNotFound); }
      if email.Some? && EmailTaken(db, userId, email.value) { return Some(EmailInUse); }
      var emailChanged := email.Some? && LowerCase(email.value) != LowerCase(db.users[userId].email);
      var updated := repository.Update(userId, email, emailChanged);
      return if updated then None else Some(UserNotFound);
    }
  }
}

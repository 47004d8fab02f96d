/** Group reads and writes that do not overlap: the cache adapter and the service over one database. */
module GroupService {
  import opened Common
  import opened GroupDetails

  datatype Error = GroupNotFound | UserNotFound | EmailInUse | NotGroupOwner | NotGroupMember | AlreadyGroupMember | CannotRemoveOwner

  datatype Result<+T> = Ok(value: T) | Err(error: Error)

  /******* Committed writes *******/

  /** Foreign keys hold, and every owner is a member. */
  predicate WellKept(db: Db) {
    && (forall p <- db.memberships :: p.0 in db.groups && p.1 in db.users)
    && (forall g <- db.groups :: IsMember(db, g, db.groups[g].createdById))
  }

  function WithGroup(db: Db, id: GroupId, owner: UserId, name: string, at: int): Db {
    db.(groups := db.groups[id := Row(name, owner, at, at)], memberships := db.memberships + {(id, owner)})
  }

  function Renamed(db: Db, id: GroupId, name: string, at: int): Db
    requires id in db.groups
  {
    db.(groups := db.groups[id := db.groups[id].(name := name, updatedAt := at)])
  }

  function WithoutGroup(db: Db, id: GroupId): Db {
    db.(groups := db.groups - {id}, memberships := set p <- db.memberships | p.0 != id)
  }

  function WithMember(db: Db, id: GroupId, user: UserId): Db { db.(memberships := db.memberships + {(id, user)}) }

  function WithoutMember(db: Db, id: GroupId, user: UserId): Db { db.(memberships := db.memberships - {(id, user)}) }

  function WithProfile(db: Db, user: UserId, p: Profile): Db { db.(users := db.users[user := p]) }

  /** The databases agree on everything a detail takes from this group, names and emails aside. */
  predicate SameGroup(a: Db, b: Db, id: GroupId) {
    && (id in a.groups <==> id in b.groups)
    && (id in a.groups ==> a.groups[id] == b.groups[id])
    && MembersOf(a, id) == MembersOf(b, id)
  }

  /******* The cache adapter *******/

  function CacheKey(groupId: GroupId): string { "cache:group:" + groupId }

  lemma CacheKeyInjective(a: GroupId, b: GroupId)
    ensures CacheKey(a) == CacheKey(b) <==> a == b
  {
    assert CacheKey(a)[|"cache:group:"|..] == a;
    assert CacheKey(b)[|"cache:group:"|..] == b;
  }

  datatype CacheOperation = GetOp | SetOp | DeleteOp

  function Failed(failures: map<CacheOperation, nat>, op: CacheOperation): map<CacheOperation, nat> {
    failures[op := Lookup(failures, op, 0) + 1]
  }

  type Entries = map<string, Entry<Option<Json>>>

  /** What a working store answers for this group; an unreadable entry counts as none. */
  function CachedDetail(dates: DateText, entries: Entries, groupId: GroupId, now: int): Option<Detail> {
    if Live(entries, CacheKey(groupId), now) then Deserialize(dates, entries[CacheKey(groupId)].value, groupId) else None
  }

  /** Every readable entry agrees with the database. */
  ghost predicate Coherent(dates: DateText, entries: Entries, db: Db, now: int) {
    forall id: GroupId :: CachedDetail(dates, entries, id, now).Some? ==> Agrees(db, id, CachedDetail(dates, entries, id, now).value)
  }

  /** Entries only expire while time passes, and no write of another group reaches them. */
  lemma CoherentLasts(dates: DateText, entries: Entries, db: Db, now: int, left: Entries, after: Db, later: int, written: set<GroupId>)
    requires Coherent(dates, entries, db, now) && now <= later
    requires forall k <- left :: k in entries && left[k] == entries[k]
    requires forall id <- written :: CacheKey(id) !in left
    requires forall id: GroupId :: id !in written ==> SameGroup(db, after, id)
    ensures Coherent(dates, left, after, later)
  {
    forall id: GroupId | CachedDetail(dates, left, id, later).Some?
      ensures Agrees(after, id, CachedDetail(dates, left, id, later).value)
    {
      assert CachedDetail(dates, entries, id, now) == CachedDetail(dates, left, id, later);
      assert id !in written;
    }
  }

  lemma CoherentStored(dates: DateText, entries: Entries, db: Db, now: int, d: Detail, until: int)
    requires Faithful(dates) && Coherent(dates, entries, db, now) && Agrees(db, d.id, d)
    ensures Coherent(dates, entries[CacheKey(d.id) := Entry(Some(Serialize(dates, d)), until)], db, now)
  {
    var stored := entries[CacheKey(d.id) := Entry(Some(Serialize(dates, d)), until)];
    forall id: GroupId | CachedDetail(dates, stored, id, now).Some?
      ensures Agrees(db, id, CachedDetail(dates, stored, id, now).value)
    {
      CacheKeyInjective(id, d.id);
      if id == d.id {
        DeserializeInvertsSerialize(dates, d, id);
      } else {
        assert CachedDetail(dates, entries, id, now) == CachedDetail(dates, stored, id, now);
      }
    }
  }

  /** What is stored is what is read, by its own group until it expires; other groups' entries are not affected. */
  lemma StoredIsRead(dates: DateText, entries: Entries, d: Detail, until: int, id: GroupId, now: int)
    requires Faithful(dates)
    ensures CachedDetail(dates, entries[CacheKey(d.id) := Entry(Some(Serialize(dates, d)), until)], id, now) ==
            if id != d.id then CachedDetail(dates, entries, id, now) else if now < until then Some(d) else None
  {
    CacheKeyInjective(id, d.id);
    DeserializeInvertsSerialize(dates, d, id);
  }

  class GroupCache {
    const dates: DateText
    const ttlMs: nat
    var entries: Entries
    var failures: map<CacheOperation, nat>

    constructor (dates: DateText, ttlSeconds: nat)
      ensures this.dates == dates && ttlMs == 1000 * ttlSeconds && entries == map[] && failures == map[]
    {
      this.dates, ttlMs, entries, failures := dates, 1000 * ttlSeconds, map[], map[];
    }

    method Fail(op: CacheOperation)
      modifies this`failures
      ensures failures == Failed(old(failures), op)
    {
      failures := failures[op := Lookup(failures, op, 0) + 1];
    }

    /** `up` is false when the Redis command fails. */
    method Get(groupId: GroupId, now: int, up: bool) returns (cached: Option<Detail>)
      modifies this`failures
      ensures cached == if up then CachedDetail(dates, entries, groupId, now) else None
      ensures failures == if up then old(failures) else Failed(old(failures), GetOp)
    {
      if !up {
        Fail(GetOp);
        return None;
      }
      if !Live(entries, CacheKey(groupId), now) { return None; }
      return Deserialize(dates, entries[CacheKey(groupId)].value, groupId);
    }

    method Set(groupId: GroupId, group: Detail, now: int, up: bool)
      modifies this`failures, this`entries
      ensures entries == if up then old(entries)[CacheKey(groupId) := Entry(Some(Serialize(dates, group)), now + ttlMs)] else old(entries)
      ensures failures == if up then old(failures) else Failed(old(failures), SetOp)
    {
      if up {
        entries := entries[CacheKey(groupId) := Entry(Some(Serialize(dates, group)), now + ttlMs)];
      } else {
        Fail(SetOp);
      }
    }

    method Invalidate(groupId: GroupId, up: bool)
      modifies this`failures, this`entries
      ensures entries == if up then old(entries) - {CacheKey(groupId)} else old(entries)
      ensures failures == if up then old(failures) else Failed(old(failures), DeleteOp)
    {
      if up { entries := entries - {CacheKey(groupId)}; } else { Fail(DeleteOp); }
    }
  }

  /******* The service *******/

  /** What a read must answer, cache or no cache. */
  ghost predicate Answers(db: Db, userId: UserId, groupId: GroupId, r: Result<Detail>) {
    if groupId !in db.groups then r == Err(GroupNotFound)
    else if !IsMember(db, groupId, userId) then r == Err(NotGroupMember)
    else r.Ok? && Agrees(db, groupId, r.value)
  }

  predicate Owns(db: Db, userId: UserId, groupId: GroupId) { groupId in db.groups && db.groups[groupId].createdById == userId }

  /** One operation of the service. */
  datatype Operation =
    | Read(userId: UserId, groupId: GroupId)
    | Create(userId: UserId, groupId: GroupId, groupName: string)
    | Rename(userId: UserId, groupId: GroupId, groupName: string)
    | Delete(userId: UserId, groupId: GroupId)
    | AddMember(userId: UserId, groupId: GroupId, memberId: UserId)
    | RemoveMember(userId: UserId, groupId: GroupId, memberId: UserId)
    | ChangeProfile(userId: UserId, name: Option<string>, email: Option<string>)

  /** An operation after a pause; `up` is false when Redis fails meanwhile. */
  datatype Call = Call(pause: nat, op: Operation, up: bool)

  function Elapsed(calls: seq<Call>): nat {
    if calls == [] then 0 else Elapsed(calls[..|calls| - 1]) + calls[|calls| - 1].pause
  }

  /******* What a write changes *******/

  /** No user, and no row or membership of any other group. */
  ghost predicate OnlyGroup(was: Db, db: Db, groupId: GroupId) {
    && db.users == was.users && db.groups - {groupId} == was.groups - {groupId}
    && forall g, u :: g != groupId ==> (IsMember(db, g, u) <==> IsMember(was, g, u))
  }

  /** No row or user, and no membership but this one. */
  ghost predicate OnlyMembership(was: Db, db: Db, groupId: GroupId, userId: UserId) {
    && db.users == was.users && db.groups == was.groups
    && forall g, u :: (g, u) != (groupId, userId) ==> (IsMember(db, g, u) <==> IsMember(was, g, u))
  }

  /** The database after the operation: as it was for a read or a refused write, otherwise with exactly this change. */
  ghost predicate Effect(was: Db, db: Db, op: Operation, at: int) {
    match op
    case Read(_, _) => db == was
    case Create(u, g, name) =>
      if u in was.users && g !in was.groups
      then OnlyGroup(was, db, g) && g in db.groups && db.groups[g] == Row(name, u, at, at) && forall v :: IsMember(db, g, v) <==> v == u
      else db == was
    case Rename(u, g, name) =>
      if Owns(was, u, g)
      then
        && OnlyGroup(was, db, g) && (forall v :: IsMember(db, g, v) <==> IsMember(was, g, v))
        && g in db.groups && db.groups[g] == Row(name, u, was.groups[g].createdAt, at)
      else db == was
    case Delete(u, g) =>
      if Owns(was, u, g) then OnlyGroup(was, db, g) && g !in db.groups && forall v :: !IsMember(db, g, v) else db == was
    case AddMember(u, g, m) =>
      if Owns(was, u, g) && m in was.users && !IsMember(was, g, m)
      then OnlyMembership(was, db, g, m) && IsMember(db, g, m)
      else db == was
    case RemoveMember(u, g, m) =>
      if Owns(was, u, g) && m != u && IsMember(was, g, m)
      then OnlyMembership(was, db, g, m) && !IsMember(db, g, m)
      else db == was
    case ChangeProfile(u, name, email) =>
      if u in was.users && (email.Some? ==> !EmailTaken(was, u, email.value))
      then
        && db.groups == was.groups && db.memberships == was.memberships
        && db.users - {u} == was.users - {u} && u in db.users
        && db.users[u].name == (if name.Some? then name.value else was.users[u].name)
        && db.users[u].email == (if email.Some? then email.value else was.users[u].email)
      else db == was
  }

  /** The operation makes the user a member of the group. */
  predicate Grants(db: Db, op: Operation, groupId: GroupId, userId: UserId) {
    match op
    case Create(u, g, _) => g == groupId && u == userId && u in db.users && g !in db.groups
    case AddMember(u, g, m) => g == groupId && m == userId && Owns(db, u, g) && m in db.users && !IsMember(db, g, m)
    case _ => false
  }

  /** The operation ends the membership. */
  predicate Revokes(db: Db, op: Operation, groupId: GroupId, userId: UserId) {
    match op
    case Delete(u, g) => g == groupId && Owns(db, u, g)
    case RemoveMember(u, g, m) => g == groupId && m == userId && Owns(db, u, g) && m != u
    case _ => false
  }

  /** The databases that the operations lead through. */
  ghost predicate Traces(dbs: seq<Db>, calls: seq<Call>, start: int) {
    && |dbs| == |calls| + 1
    && forall i | 0 <= i < |calls| :: Effect(dbs[i], dbs[i + 1], calls[i].op, start + Elapsed(calls[..i + 1]))
  }

  /** The last operation among the first n that touched the membership granted it; without one it is as at the start. */
  ghost predicate LastGranted(dbs: seq<Db>, calls: seq<Call>, n: nat, groupId: GroupId, userId: UserId)
    requires |dbs| == |calls| + 1 && n <= |calls|
  {
    if n == 0 then IsMember(dbs[0], groupId, userId)
    else
      || Grants(dbs[n - 1], calls[n - 1].op, groupId, userId)
      || (LastGranted(dbs, calls, n - 1, groupId, userId) && !Revokes(dbs[n - 1], calls[n - 1].op, groupId, userId))
  }

  lemma MembershipChanges(was: Db, db: Db, op: Operation, at: int, groupId: GroupId, userId: UserId)
    requires WellKept(was) && Effect(was, db, op, at)
    ensures IsMember(db, groupId, userId)
            <==> Grants(was, op, groupId, userId) || (IsMember(was, groupId, userId) && !Revokes(was, op, groupId, userId))
  {
    match op
    case Create(_, g, _) => assert g == groupId && IsMember(was, groupId, userId) ==> g in was.groups;
    case _ =>
  }

  /** After any sequence of operations the members of a group are those to whom membership was granted last. */
  lemma {:induction false} MembersAreLastGranted(dbs: seq<Db>, calls: seq<Call>, start: int, n: nat, groupId: GroupId, userId: UserId)
    requires Traces(dbs, calls, start) && n <= |calls| && forall i | 0 <= i < n :: WellKept(dbs[i])
    ensures IsMember(dbs[n], groupId, userId) <==> LastGranted(dbs, calls, n, groupId, userId)
    decreases n
  {
    if n > 0 {
      MembersAreLastGranted(dbs, calls, start, n - 1, groupId, userId);
      MembershipChanges(dbs[n - 1], dbs[n], calls[n - 1].op, start + Elapsed(calls[..n]), groupId, userId);
    }
  }

  lemma MemberIdsSnoc(members: seq<Member>, m: Member)
    ensures MemberIds(members + [m]) == MemberIds(members) + {m.id}
  {
    var both := members + [m];
    forall x ensures x in MemberIds(both) <==> x in MemberIds(members) + {m.id} {
      if x in MemberIds(members) {
        var y :| y in members && y.id == x;
        assert y in both;
      }
      assert m in both;
    }
  }

  /** The members listed so far; `left` are the ones still to come. */
  predicate Listing(db: Db, groupId: GroupId, members: seq<Member>, left: set<UserId>) {
    && DistinctMembers(members)
    && (forall m <- members :: m.id in db.users && db.users[m.id] == Profile(m.name, m.email))
    && MemberIds(members) !! left
    && MemberIds(members) + left == MembersOf(db, groupId)
  }

  lemma ListNext(db: Db, groupId: GroupId, members: seq<Member>, left: set<UserId>, u: UserId)
    requires Listing(db, groupId, members, left) && u in left && u in db.users
    ensures Listing(db, groupId, members + [Member(u, db.users[u].name, db.users[u].email)], left - {u})
  {
    var m := Member(u, db.users[u].name, db.users[u].email);
    MemberIdsSnoc(members, m);
    forall i | 0 <= i < |members| ensures members[i].id != u { assert members[i].id in MemberIds(members); }
    assert MemberIds(members) + {u} + (left - {u}) == MemberIds(members) + left;
  }

  predicate EmailTaken(db: Db, userId: UserId, email: string) { exists u <- db.users :: u != userId && db.users[u].email == email }

  class GroupService {
    var db: Db
    const cache: GroupCache

    ghost predicate Valid()
      reads this
    {
      WellKept(db) && Faithful(cache.dates)
    }

    ghost predicate InStep(now: int)
      reads this, cache
    {
      Coherent(cache.dates, cache.entries, db, now)
    }

    constructor (dates: DateText, ttlSeconds: nat, users: map<UserId, Profile>)
      requires Faithful(dates)
      ensures Valid() && fresh(cache) && (forall now: int :: InStep(now)) && db == Db(map[], {}, users)
    {
      cache := new GroupCache(dates, ttlSeconds);
      db := Db(map[], {}, users);
    }

    /** findGroupByIdWithMembers: the members come in no particular order. */
    method Find(groupId: GroupId) returns (found: Option<Detail>)
      requires Valid()
      ensures found.Some? <==> groupId in db.groups
      ensures found.Some? ==> Shows(db, groupId, found.value)
    {
      if groupId !in db.groups { return None; }
      var row := db.groups[groupId];
      var members: seq<Member> := [];
      var left := MembersOf(db, groupId);
      while left != {}
        invariant Listing(db, groupId, members, left)
        decreases |left|
      {
        var u :| u in left;
        assert (groupId, u) in db.memberships;
        ListNext(db, groupId, members, left, u);
        members, left := members + [Member(u, db.users[u].name, db.users[u].email)], left - {u};
      }
      return Some(Detail(groupId, row.name, row.createdById, row.createdAt, row.updatedAt, members));
    }

    /** A read answers as the database would, whether or not the cache answers, and keeps the cache in step. */
    method GetGroupById(userId: UserId, groupId: GroupId, now: int, up: bool) returns (r: Result<Detail>)
      requires Valid() && InStep(now)
      modifies cache
      ensures Valid() && InStep(now)
      ensures Answers(db, userId, groupId, r)
      ensures r.Err? ==> cache.entries == old(cache.entries)
      ensures up && r.Ok? && cache.ttlMs > 0 ==> CachedDetail(cache.dates, cache.entries, groupId, now) == Some(r.value)
      ensures var cached := CachedDetail(cache.dates, old(cache.entries), groupId, now);
              up && cached.Some? && r.Ok? ==> r == Ok(cached.value) && cache.entries == old(cache.entries)
    {
      var cached := cache.Get(groupId, now, up);
      if cached.Some? {
        assert Agrees(db, groupId, cached.value);
        if !IsMember(db, groupId, userId) { return Err(NotGroupMember); }
        return Ok(cached.value);
      }
      r := ReadThrough(userId, groupId, now, up);
    }

    /** The read of the database, which populates the cache for an authorized requester only. */
    method ReadThrough(userId: UserId, groupId: GroupId, now: int, up: bool) returns (r: Result<Detail>)
      requires Valid() && InStep(now)
      modifies cache
      ensures Valid() && InStep(now)
      ensures Answers(db, userId, groupId, r)
      ensures r.Err? ==> cache.entries == old(cache.entries)
      ensures up && r.Ok? && cache.ttlMs > 0 ==> CachedDetail(cache.dates, cache.entries, groupId, now) == Some(r.value)
    {
      var group := Find(groupId);
      if group.None? { return Err(GroupNotFound); }
      if !IsMember(db, groupId, userId) { return Err(NotGroupMember); }
      CoherentStored(cache.dates, cache.entries, db, now, group.value, now + cache.ttlMs);
      StoredIsRead(cache.dates, cache.entries, group.value, now + cache.ttlMs, groupId, now);
      cache.Set(groupId, group.value, now, up);
      return Ok(group.value);
    }

    method CreateGroup(userId: UserId, name: string, id: GroupId, now: int)
      requires Valid() && InStep(now) && userId in db.users && id !in db.groups // a new row id
      modifies this`db
      ensures Valid() && InStep(now) && Effect(old(db), db, Create(userId, id, name), now)
      ensures forall u, r :: Answers(db, u, id, r) ==> (r.Ok? <==> u == userId)
    {
      db := WithGroup(db, id, userId, name, now);
      InStepElsewhere(old(db), id, now);
    }

    /** A write of another group, or of one no entry is readable for, leaves the cache in step. */
    lemma InStepElsewhere(was: Db, id: GroupId, now: int)
      requires Coherent(cache.dates, cache.entries, was, now)
      requires forall other: GroupId :: other != id ==> SameGroup(was, db, other)
      requires id !in was.groups
      ensures InStep(now)
    {
      forall g: GroupId | CachedDetail(cache.dates, cache.entries, g, now).Some?
        ensures Agrees(db, g, CachedDetail(cache.dates, cache.entries, g, now).value)
      {
        assert Agrees(was, g, CachedDetail(cache.dates, cache.entries, g, now).value);
        assert SameGroup(was, db, g);
      }
    }

    method UpdateGroup(userId: UserId, groupId: GroupId, name: string, now: int, up: bool) returns (r: Result<Row>)
      requires Valid() && InStep(now)
      modifies this`db, cache
      ensures Valid() && (up || r.Err? ==> InStep(now))
      ensures r == Err(GroupNotFound) <==> groupId !in old(db).groups
      ensures r == Err(NotGroupOwner) <==> groupId in old(db).groups && !Owns(old(db), userId, groupId)
      ensures r.Ok? <==> Owns(old(db), userId, groupId)
      ensures Effect(old(db), db, Rename(userId, groupId, name), now)
      ensures r.Ok? ==> groupId in db.groups && r.value == db.groups[groupId]
      ensures r.Ok? ==> forall u, read :: Answers(db, u, groupId, read) && read.Ok? ==> read.value.name == name
    {
      if groupId !in db.groups { return Err(GroupNotFound); }
      if db.groups[groupId].createdById != userId { return Err(NotGroupOwner); }
      db := Renamed(db, groupId, name, now);
      RenamedInStep(old(db), groupId, name, now);
      cache.Invalidate(groupId, up);
      return Ok(db.groups[groupId]);
    }

    lemma RenamedInStep(was: Db, groupId: GroupId, name: string, now: int)
      requires Coherent(cache.dates, cache.entries, was, now) && groupId in was.groups
      ensures Coherent(cache.dates, cache.entries - {CacheKey(groupId)}, Renamed(was, groupId, name, now), now)
    {
      CoherentLasts(cache.dates, cache.entries, was, now, cache.entries - {CacheKey(groupId)}, Renamed(was, groupId, name, now), now, {groupId});
    }

    method DeleteGroup(userId: UserId, groupId: GroupId, now: int, up: bool) returns (r: Result<()>)
      requires Valid() && InStep(now)
      modifies this`db, cache
      ensures Valid() && (up || r.Err? ==> InStep(now))
      ensures r == Err(GroupNotFound) <==> groupId !in old(db).groups
      ensures r == Err(NotGroupOwner) <==> groupId in old(db).groups && !Owns(old(db), userId, groupId)
      ensures r.Ok? <==> Owns(old(db), userId, groupId)
      ensures Effect(old(db), db, Delete(userId, groupId), now)
      ensures r.Ok? ==> forall u, read :: Answers(db, u, groupId, read) ==> read == Err(GroupNotFound)
    {
      if groupId !in db.groups { return Err(GroupNotFound); }
      if db.groups[groupId].createdById != userId { return Err(NotGroupOwner); }
      db := WithoutGroup(db, groupId);
      DropInStep(old(db), db, groupId, now);
      cache.Invalidate(groupId, up);
      return Ok(());
    }

    /** Dropping the entry of the one written group leaves the others in step. */
    lemma DropInStep(was: Db, after: Db, groupId: GroupId, now: int)
      requires Coherent(cache.dates, cache.entries, was, now)
      requires forall other: GroupId :: other != groupId ==> SameGroup(was, after, other)
      ensures Coherent(cache.dates, cache.entries - {CacheKey(groupId)}, after, now)
    {
      CoherentLasts(cache.dates, cache.entries, was, now, cache.entries - {CacheKey(groupId)}, after, now, {groupId});
    }

    method AddGroupMember(userId: UserId, groupId: GroupId, memberId: UserId, now: int, up: bool) returns (r: Result<()>)
      requires Valid() && InStep(now)
      modifies this`db, cache
      ensures Valid() && (up || r.Err? ==> InStep(now))
      ensures r == Err(GroupNotFound) <==> groupId !in old(db).groups
      ensures r == Err(NotGroupOwner) <==> groupId in old(db).groups && !Owns(old(db), userId, groupId)
      ensures r == Err(UserNotFound) <==> Owns(old(db), userId, groupId) && memberId !in old(db).users
      ensures r == Err(AlreadyGroupMember) <==> Owns(old(db), userId, groupId) && IsMember(old(db), groupId, memberId)
      ensures r.Ok? <==> Owns(old(db), userId, groupId) && memberId in old(db).users && !IsMember(old(db), groupId, memberId)
      ensures Effect(old(db), db, AddMember(userId, groupId, memberId), now)
      ensures r.Ok? ==> forall read :: Answers(db, memberId, groupId, read) ==> read.Ok?
    {
      if groupId !in db.groups { return Err(GroupNotFound); }
      if db.groups[groupId].createdById != userId { return Err(NotGroupOwner); }
      if memberId !in db.users { return Err(UserNotFound); }
      if IsMember(db, groupId, memberId) { return Err(AlreadyGroupMember); }
      db := WithMember(db, groupId, memberId);
      DropInStep(old(db), db, groupId, now);
      cache.Invalidate(groupId, up);
      return Ok(());
    }

    method RemoveGroupMember(userId: UserId, groupId: GroupId, memberId: UserId, now: int, up: bool) returns (r: Result<()>)
      requires Valid() && InStep(now)
      modifies this`db, cache
      ensures Valid() && (up || r.Err? ==> InStep(now))
      ensures r == Err(GroupNotFound) <==> groupId !in old(db).groups
      ensures r == Err(NotGroupOwner) <==> groupId in old(db).groups && !Owns(old(db), userId, groupId)
      ensures r == Err(CannotRemoveOwner) <==> Owns(old(db), userId, groupId) && memberId == userId
      ensures r == Err(NotGroupMember) <==> Owns(old(db), userId, groupId) && memberId != userId && !IsMember(old(db), groupId, memberId)
      ensures r.Ok? <==> Owns(old(db), userId, groupId) && memberId != userId && IsMember(old(db), groupId, memberId)
      ensures Effect(old(db), db, RemoveMember(userId, groupId, memberId), now)
      ensures r.Ok? ==> forall read :: Answers(db, memberId, groupId, read) ==> read == Err(NotGroupMember)
    {
      if groupId !in db.groups { return Err(GroupNotFound); }
      if db.groups[groupId].createdById != userId { return Err(NotGroupOwner); }
      if memberId == db.groups[groupId].createdById { return Err(CannotRemoveOwner); }
      if !IsMember(db, groupId, memberId) { return Err(NotGroupMember); }
      db := WithoutMember(db, groupId, memberId);
      DropInStep(old(db), db, groupId, now);
      cache.Invalidate(groupId, up);
      return Ok(());
    }

    /** A profile change invalidates nothing: cached names and emails may go stale, nothing else does. */
    method UpdateProfile(userId: UserId, name: Option<string>, email: Option<string>, now: int) returns (r: Result<Profile>)
      requires Valid() && InStep(now)
      modifies this`db
      ensures Valid() && InStep(now)
      ensures r == Err(UserNotFound) <==> userId !in old(db).users
      ensures r == Err(EmailInUse) <==>
                userId in old(db).users && email.Some? && exists u <- old(db).users :: u != userId && old(db).users[u].email == email.value
      ensures r.Err? ==> r.error.UserNotFound? || r.error.EmailInUse?
      ensures Effect(old(db), db, ChangeProfile(userId, name, email), now)
      ensures r.Ok? ==> userId in db.users && r.value == db.users[userId]
    {
      if userId !in db.users { return Err(UserNotFound); }
      if email.Some? && EmailTaken(db, userId, email.value) { return Err(EmailInUse); }
      var profile := Profile(name.GetOr(db.users[userId].name), email.GetOr(db.users[userId].email));
      db := WithProfile(db, userId, profile);
      CoherentLasts(cache.dates, cache.entries, old(db), now, cache.entries, db, now, {});
      return Ok(profile);
    }

    /** Time passing between operations keeps the cache in step. */
    lemma InStepLater(now: int, later: int)
      requires InStep(now) && now <= later
      ensures InStep(later)
    {
      CoherentLasts(cache.dates, cache.entries, db, now, cache.entries, db, later, {});
    }

    method Perform(op: Operation, now: int, up: bool)
      requires Valid() && InStep(now) && (up || op.Read?)
      modifies this`db, cache
      ensures Valid() && InStep(now) && Effect(old(db), db, op, now)
    {
      match op
      case Read(u, g) => var r := GetGroupById(u, g, now, up);
      case Create(u, g, name) => if u in db.users && g !in db.groups { CreateGroup(u, name, g, now); }
      case Rename(u, g, name) => var r := UpdateGroup(u, g, name, now, up);
      case Delete(u, g) => var r := DeleteGroup(u, g, now, up);
      case AddMember(u, g, m) => var r := AddGroupMember(u, g, m, now, up);
      case RemoveMember(u, g, m) => var r := RemoveGroupMember(u, g, m, now, up);
      case ChangeProfile(u, name, email) => var r := UpdateProfile(u, name, email, now);
    }

    /** After any sequence of operations and pauses in which no invalidation fails, every readable entry agrees
        with the database on name, owner, dates and member ids; the database has gone through each operation's effect. */
    method PerformAll(calls: seq<Call>, start: int) returns (now: int, ghost dbs: seq<Db>)
      requires Valid() && InStep(start) && forall c <- calls :: c.up || c.op.Read?
      modifies this`db, cache
      ensures Valid() && InStep(now) && now == start + Elapsed(calls)
      ensures Traces(dbs, calls, start) && dbs[0] == old(db) && dbs[|calls|] == db
      ensures forall g, u :: IsMember(db, g, u) <==> LastGranted(dbs, calls, |calls|, g, u)
    {
      now, dbs := start, [db];
      for i := 0 to |calls|
        invariant Valid() && InStep(now) && now == start + Elapsed(calls[..i])
        invariant |dbs| == i + 1 && dbs[0] == old(db) && dbs[i] == db && forall d <- dbs :: WellKept(d)
        invariant forall k | 0 <= k < i :: Effect(dbs[k], dbs[k + 1], calls[k].op, start + Elapsed(calls[..k + 1]))
      {
        assert calls[..i + 1][..i] == calls[..i] && calls[i] in calls;
        InStepLater(now, now + calls[i].pause);
        now := now + calls[i].pause;
        Perform(calls[i].op, now, calls[i].up);
        dbs := dbs + [db];
      }
      assert calls[..|calls|] == calls;
      forall g, u ensures IsMember(db, g, u) <==> LastGranted(dbs, calls, |calls|, g, u) {
        MembersAreLastGranted(dbs, calls, start, |calls|, g, u);
      }
    }
  }
}

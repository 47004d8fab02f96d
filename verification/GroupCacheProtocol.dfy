/**
 Cached group reads under interleaving: each read is a cache GET, a database query, a membership query
 and a cache SET as separate steps; database writes of any kind commit between them; an invalidation may
 come late, come alone or never come; any Redis command may fail with or without having taken effect;
 any reader may crash. Cache entries are kept as details: their stored text reads back unchanged.
 */
module GroupCacheProtocol {
  import opened Common
  import opened GroupDetails

  type ReaderId = nat

  datatype Version = Version(since: int, db: Db)

  /** Which version of the database a query saw, and when. */
  datatype Origin = Origin(version: nat, at: int)

  datatype Cached = Cached(detail: Detail, expiresAt: int, setAt: int, origin: Origin)

  /** A cache answer: when it came, and when the key had last been deleted before. */
  datatype Hit = Hit(at: int, deletedAt: Option<int>)

  datatype Reply = Served(detail: Detail, origin: Origin, hit: Option<Hit>, membership: Origin) | GroupNotFound(query: Origin) | NotMember(membership: Origin)

  datatype Stage =
    | Asking
    | Cacheless
    | Answered(detail: Detail, origin: Origin, hit: Option<Hit>) // a group in hand, membership not yet checked
    | Admitted(detail: Detail, origin: Origin, membership: Origin) // read from the database, to be cached
    | Done(reply: Reply)

  datatype Reader = Reader(userId: UserId, groupId: GroupId, stage: Stage)

  /** history ends with the current database; slowest is the longest time any SET came after its query. */
  datatype State = State(now: int, history: seq<Version>, cache: map<GroupId, Cached>, deletedAt: map<GroupId, int>,
                         slowest: nat, readers: map<ReaderId, Reader>)

  datatype Action =
    | Advance(ms: nat)
    | Write(db: Db)
    | Invalidate(groupId: GroupId)
    | Ask(r: ReaderId, userId: UserId, groupId: GroupId)
    | Get(r: ReaderId, failed: bool)
    | Query(r: ReaderId, detail: Detail)
    | Check(r: ReaderId)
    | Populate(r: ReaderId, applied: bool)
    | Crash(r: ReaderId)

  predicate WellFormed(s: State) { s.history != [] && s.history[|s.history| - 1].since <= s.now }

  function Current(s: State): Db
    requires WellFormed(s)
  {
    s.history[|s.history| - 1].db
  }

  function Here(s: State): Origin
    requires WellFormed(s)
  {
    Origin(|s.history| - 1, s.now)
  }

  predicate At(s: State, r: ReaderId) { r in s.readers }

  predicate Fresh(s: State, groupId: GroupId) { groupId in s.cache && s.now < s.cache[groupId].expiresAt }

  predicate Enabled(s: State, a: Action)
    requires WellFormed(s)
  {
    match a
    case Advance(_) => true
    case Write(_) => true
    case Invalidate(_) => true
    case Ask(r, _, _) => r !in s.readers
    case Get(r, _) => At(s, r) && s.readers[r].stage.Asking?
    case Query(r, d) =>
      && At(s, r) && s.readers[r].stage.Cacheless?
      && (s.readers[r].groupId in Current(s).groups ==> Shows(Current(s), s.readers[r].groupId, d))
    case Check(r) => At(s, r) && s.readers[r].stage.Answered?
    case Populate(r, _) => At(s, r) && s.readers[r].stage.Admitted?
    case Crash(r) => At(s, r)
  }

  function Move(s: State, r: ReaderId, stage: Stage): State
    requires At(s, r)
  {
    s.(readers := s.readers[r := s.readers[r].(stage := stage)])
  }

  function AfterGet(s: State, groupId: GroupId, failed: bool): Stage {
    if failed || !Fresh(s, groupId) then Cacheless
    else
      var c := s.cache[groupId];
      Answered(c.detail, c.origin, Some(Hit(s.now, if groupId in s.deletedAt then Some(s.deletedAt[groupId]) else None)))
  }

  /** The membership query: a cached answer is served, one read from the database is cached first. */
  function AfterCheck(s: State, reader: Reader): Stage
    requires WellFormed(s) && reader.stage.Answered?
  {
    var Answered(detail, origin, hit) := reader.stage;
    if !IsMember(Current(s), reader.groupId, reader.userId) then Done(NotMember(Here(s)))
    else if hit.Some? then Done(Served(detail, origin, hit, Here(s)))
    else Admitted(detail, origin, Here(s))
  }

  function Stored(ttlMs: nat, s: State, groupId: GroupId, detail: Detail, origin: Origin): State {
    s.(cache := s.cache[groupId := Cached(detail, s.now + ttlMs, s.now, origin)],
       slowest := if s.now - origin.at > s.slowest then s.now - origin.at else s.slowest)
  }

  function Next(ttlMs: nat, s: State, a: Action): State
    requires WellFormed(s) && Enabled(s, a)
  {
    match a
    case Advance(ms) => s.(now := s.now + ms)
    case Write(db) => s.(history := s.history + [Version(s.now, db)])
    case Invalidate(groupId) => s.(cache := s.cache - {groupId}, deletedAt := s.deletedAt[groupId := s.now])
    case Ask(r, userId, groupId) => s.(readers := s.readers[r := Reader(userId, groupId, Asking)])
    case Get(r, failed) => Move(s, r, AfterGet(s, s.readers[r].groupId, failed))
    case Query(r, detail) =>
      Move(s, r, if s.readers[r].groupId in Current(s).groups then Answered(detail, Here(s), None) else Done(GroupNotFound(Here(s))))
    case Check(r) => Move(s, r, AfterCheck(s, s.readers[r]))
    case Populate(r, applied) =>
      var Admitted(detail, origin, membership) := s.readers[r].stage;
      var t := Move(s, r, Done(Served(detail, origin, None, membership)));
      if applied then Stored(ttlMs, t, s.readers[r].groupId, detail, origin) else t
    case Crash(r) => s.(readers := s.readers - {r})
  }

  predicate CanRun(ttlMs: nat, s: State, run: seq<Action>)
    decreases |run|
  {
    && WellFormed(s)
    && (run != [] ==> Enabled(s, run[0]) && CanRun(ttlMs, Next(ttlMs, s, run[0]), run[1..]))
  }

  function Run(ttlMs: nat, s: State, run: seq<Action>): State
    requires CanRun(ttlMs, s, run)
    decreases |run|
  {
    if run == [] then s else Run(ttlMs, Next(ttlMs, s, run[0]), run[1..])
  }

  function Start(now: int, db: Db): State { State(now, [Version(now, db)], map[], map[], 0, map[]) }

  /******* What every step keeps *******/

  /** The version was the database's contents at that moment. */
  predicate Held(s: State, o: Origin) {
    && o.version < |s.history|
    && s.history[o.version].since <= o.at <= s.now
    && (o.version + 1 < |s.history| ==> o.at <= s.history[o.version + 1].since)
  }

  /** The detail was what the database showed of the group at that moment. */
  predicate Shown(s: State, groupId: GroupId, d: Detail, o: Origin) {
    Held(s, o) && Shows(s.history[o.version].db, groupId, d)
  }

  predicate EntrySound(ttlMs: nat, s: State, groupId: GroupId, c: Cached) {
    && Shown(s, groupId, c.detail, c.origin)
    && c.setAt <= s.now && c.expiresAt == c.setAt + ttlMs
    && c.origin.at >= c.setAt - s.slowest
    && (groupId in s.deletedAt ==> c.setAt >= s.deletedAt[groupId])
  }

  /** How old an answer can be: bounded by the TTL, and by the last deletion of its key. */
  predicate RecentEnough(ttlMs: nat, s: State, o: Origin, hit: Hit) {
    && hit.at <= s.now
    && o.at > hit.at - ttlMs - s.slowest
    && (hit.deletedAt.Some? ==> o.at >= hit.deletedAt.value - s.slowest)
  }

  predicate MemberThen(s: State, reader: Reader, o: Origin) {
    Held(s, o) && IsMember(s.history[o.version].db, reader.groupId, reader.userId)
  }

  predicate ReaderSound(ttlMs: nat, s: State, reader: Reader) {
    match reader.stage
    case Answered(d, o, hit) =>
      Shown(s, reader.groupId, d, o) && (hit.Some? ==> RecentEnough(ttlMs, s, o, hit.value))
    case Admitted(d, o, m) => Shown(s, reader.groupId, d, o) && MemberThen(s, reader, m) && m.at >= o.at
    case Done(Served(d, o, hit, m)) =>
      && Shown(s, reader.groupId, d, o) && MemberThen(s, reader, m)
      && (if hit.Some? then RecentEnough(ttlMs, s, o, hit.value) && m.at >= hit.value.at else m.at >= o.at)
    case Done(GroupNotFound(o)) => Held(s, o) && reader.groupId !in s.history[o.version].db.groups
    case Done(NotMember(m)) => Held(s, m) && !IsMember(s.history[m.version].db, reader.groupId, reader.userId)
    case _ => true
  }

  predicate Sound(ttlMs: nat, s: State) {
    && WellFormed(s)
    && (forall g <- s.cache :: EntrySound(ttlMs, s, g, s.cache[g]))
    && (forall g <- s.deletedAt :: s.deletedAt[g] <= s.now)
    && (forall r <- s.readers :: ReaderSound(ttlMs, s, s.readers[r]))
  }

  /** Time passes, the history grows, SETs get no faster. */
  predicate Later(s: State, t: State) {
    && s.now <= t.now && s.slowest <= t.slowest && s.history <= t.history
    && (|s.history| < |t.history| ==> t.history[|s.history|].since >= s.now)
  }

  lemma NextLater(ttlMs: nat, s: State, a: Action)
    requires WellFormed(s) && Enabled(s, a)
    ensures Later(s, Next(ttlMs, s, a)) && WellFormed(Next(ttlMs, s, a))
  {
  }

  lemma HeldLasts(s: State, t: State, o: Origin)
    requires Later(s, t) && Held(s, o)
    ensures Held(t, o) && t.history[o.version] == s.history[o.version]
  {
    if o.version + 1 < |s.history| {
      assert t.history[o.version + 1] == s.history[o.version + 1];
    }
  }

  lemma ReaderLasts(ttlMs: nat, s: State, t: State, reader: Reader)
    requires Later(s, t) && ReaderSound(ttlMs, s, reader)
    ensures ReaderSound(ttlMs, t, reader)
  {
    match reader.stage
    case Answered(_, o, _) => HeldLasts(s, t, o);
    case Admitted(_, o, m) =>
      HeldLasts(s, t, o);
      HeldLasts(s, t, m);
    case Done(Served(_, o, _, m)) =>
      HeldLasts(s, t, o);
      HeldLasts(s, t, m);
    case Done(GroupNotFound(o)) => HeldLasts(s, t, o);
    case Done(NotMember(m)) => HeldLasts(s, t, m);
    case _ =>
  }

  lemma GetSound(ttlMs: nat, s: State, r: ReaderId, failed: bool)
    requires Sound(ttlMs, s) && Enabled(s, Get(r, failed))
    ensures ReaderSound(ttlMs, s, s.readers[r].(stage := AfterGet(s, s.readers[r].groupId, failed)))
  {
    var g := s.readers[r].groupId;
    if Fresh(s, g) { assert EntrySound(ttlMs, s, g, s.cache[g]); }
  }

  lemma QuerySound(ttlMs: nat, s: State, r: ReaderId, detail: Detail)
    requires WellFormed(s) && Enabled(s, Query(r, detail))
    ensures ReaderSound(ttlMs, Next(ttlMs, s, Query(r, detail)), Next(ttlMs, s, Query(r, detail)).readers[r])
  {
  }

  lemma CheckSound(ttlMs: nat, s: State, r: ReaderId)
    requires WellFormed(s) && Enabled(s, Check(r)) && ReaderSound(ttlMs, s, s.readers[r])
    ensures ReaderSound(ttlMs, s, s.readers[r].(stage := AfterCheck(s, s.readers[r])))
  {
  }

  /** The reader that moves. */
  lemma MoverSound(ttlMs: nat, s: State, a: Action)
    requires Sound(ttlMs, s) && Enabled(s, a) && (a.Get? || a.Query? || a.Check? || a.Populate?)
    ensures ReaderSound(ttlMs, Next(ttlMs, s, a), Next(ttlMs, s, a).readers[a.r])
  {
    var t := Next(ttlMs, s, a);
    NextLater(ttlMs, s, a);
    assert ReaderSound(ttlMs, s, s.readers[a.r]);
    match a
    case Get(r, failed) =>
      GetSound(ttlMs, s, r, failed);
      ReaderLasts(ttlMs, s, t, t.readers[r]);
    case Query(r, detail) => QuerySound(ttlMs, s, r, detail);
    case Check(r) =>
      CheckSound(ttlMs, s, r);
      ReaderLasts(ttlMs, s, t, t.readers[r]);
    case Populate(r, _) => ReaderLasts(ttlMs, s, t, s.readers[r]);
  }

  lemma EntryLasts(ttlMs: nat, s: State, t: State, g: GroupId, c: Cached)
    requires Later(s, t) && EntrySound(ttlMs, s, g, c)
    requires g in t.deletedAt ==> g in s.deletedAt && t.deletedAt[g] == s.deletedAt[g]
    ensures EntrySound(ttlMs, t, g, c)
  {
    HeldLasts(s, t, c.origin);
  }

  lemma PopulateSound(ttlMs: nat, s: State, r: ReaderId)
    requires Sound(ttlMs, s) && Enabled(s, Populate(r, true))
    ensures
      var t, g := Next(ttlMs, s, Populate(r, true)), s.readers[r].groupId;
      g in t.cache && EntrySound(ttlMs, t, g, t.cache[g])
  {
    assert ReaderSound(ttlMs, s, s.readers[r]);
  }

  lemma CacheSound(ttlMs: nat, s: State, a: Action, g: GroupId)
    requires Sound(ttlMs, s) && Enabled(s, a) && g in Next(ttlMs, s, a).cache
    ensures EntrySound(ttlMs, Next(ttlMs, s, a), g, Next(ttlMs, s, a).cache[g])
  {
    if a.Populate? && a.applied && g == s.readers[a.r].groupId {
      PopulateSound(ttlMs, s, a.r);
    } else {
      NextLater(ttlMs, s, a);
      EntryLasts(ttlMs, s, Next(ttlMs, s, a), g, s.cache[g]);
    }
  }

  lemma NextSound(ttlMs: nat, s: State, a: Action)
    requires Sound(ttlMs, s) && Enabled(s, a)
    ensures Sound(ttlMs, Next(ttlMs, s, a))
  {
    var t := Next(ttlMs, s, a);
    NextLater(ttlMs, s, a);
    forall g <- t.cache ensures EntrySound(ttlMs, t, g, t.cache[g]) { CacheSound(ttlMs, s, a, g); }
    forall r <- t.readers ensures ReaderSound(ttlMs, t, t.readers[r]) {
      if (a.Get? || a.Query? || a.Check? || a.Populate?) && r == a.r {
        MoverSound(ttlMs, s, a);
      } else if r in s.readers {
        ReaderLasts(ttlMs, s, t, s.readers[r]);
      }
    }
  }

  lemma {:induction false} RunSound(ttlMs: nat, s: State, run: seq<Action>)
    requires Sound(ttlMs, s) && CanRun(ttlMs, s, run)
    ensures Sound(ttlMs, Run(ttlMs, s, run))
    decreases |run|
  {
    if run != [] {
      NextSound(ttlMs, s, run[0]);
      RunSound(ttlMs, Next(ttlMs, s, run[0]), run[1..]);
    }
  }

  /** Every served group was, whole, the database's at one moment; a cached one at a moment later than the
      cache answer less the TTL and the slowest SET; and the requester was a member when that was checked. */
  lemma ServedGroupsAreRecent(ttlMs: nat, now: int, db: Db, run: seq<Action>, r: ReaderId)
    requires CanRun(ttlMs, Start(now, db), run) && r in Run(ttlMs, Start(now, db), run).readers
    ensures
      var s := Run(ttlMs, Start(now, db), run);
      var reader := s.readers[r];
      match reader.stage
      case Done(Served(d, o, hit, m)) =>
        && Held(s, o) && Shows(s.history[o.version].db, reader.groupId, d)
        && Held(s, m) && IsMember(s.history[m.version].db, reader.groupId, reader.userId)
        && (match hit
            case Some(h) => h.at - ttlMs - s.slowest < o.at && h.at <= m.at
            case None => o.at <= m.at)
      case _ => true
  {
    RunSound(ttlMs, Start(now, db), run);
    var s := Run(ttlMs, Start(now, db), run);
    assert ReaderSound(ttlMs, s, s.readers[r]);
  }

  /** Every refusal was true at one moment: the group was missing when it was queried, or the requester no member when
      that was checked, whatever the cache held. */
  lemma RefusalsAreTrue(ttlMs: nat, now: int, db: Db, run: seq<Action>, r: ReaderId)
    requires CanRun(ttlMs, Start(now, db), run) && r in Run(ttlMs, Start(now, db), run).readers
    ensures
      var s := Run(ttlMs, Start(now, db), run);
      var reader := s.readers[r];
      match reader.stage
      case Done(GroupNotFound(o)) => Held(s, o) && reader.groupId !in s.history[o.version].db.groups
      case Done(NotMember(m)) => Held(s, m) && !IsMember(s.history[m.version].db, reader.groupId, reader.userId)
      case _ => true
  {
    RunSound(ttlMs, Start(now, db), run);
    var s := Run(ttlMs, Start(now, db), run);
    assert ReaderSound(ttlMs, s, s.readers[r]);
  }

  /** After an invalidation took effect, no later hit is older than that moment less the slowest SET. */
  lemma InvalidationBoundsHits(ttlMs: nat, now: int, db: Db, run: seq<Action>, r: ReaderId)
    requires CanRun(ttlMs, Start(now, db), run) && r in Run(ttlMs, Start(now, db), run).readers
    ensures
      var s := Run(ttlMs, Start(now, db), run);
      match s.readers[r].stage
      case Done(Served(_, o, Some(h), _)) => h.deletedAt.Some? ==> h.deletedAt.value - s.slowest <= o.at
      case _ => true
  {
    RunSound(ttlMs, Start(now, db), run);
    var s := Run(ttlMs, Start(now, db), run);
    assert ReaderSound(ttlMs, s, s.readers[r]);
  }

  /******* Both bounds are reached *******/

  const OLD := Detail("g", "old", "u", 0, 0, [Member("u", "U", "u@x")])

  function Named(name: string): Db {
    Db(map["g" := Row(name, "u", 0, 0)], {("g", "u")}, map["u" := Profile("U", "u@x")])
  }

  predicate Leads(ttlMs: nat, s: State, run: seq<Action>, t: State) { CanRun(ttlMs, s, run) && Run(ttlMs, s, run) == t }

  lemma LeadsFirst(ttlMs: nat, s: State, a: Action, rest: seq<Action>, t: State)
    requires WellFormed(s) && Enabled(s, a) && Leads(ttlMs, Next(ttlMs, s, a), rest, t)
    ensures Leads(ttlMs, s, [a] + rest, t)
  {
    assert ([a] + rest)[1..] == rest;
  }

  /** Reader 0 has read the old name and was admitted; the rename has committed; the SET is still to come. */
  function Delayed(): State {
    State(0, [Version(0, Named("old")), Version(0, Named("new"))], map[], map[], 0,
          map[0 := Reader("u", "g", Admitted(OLD, Origin(0, 0), Origin(0, 0)))])
  }

  lemma ReachDelayed(ttlMs: nat) returns (run: seq<Action>)
    ensures Leads(ttlMs, Start(0, Named("old")), run, Delayed())
  {
    var s0 := Start(0, Named("old"));
    var s1 := Next(ttlMs, s0, Ask(0, "u", "g"));
    var s2 := Next(ttlMs, s1, Get(0, false));
    OldIsShown();
    var s3 := Next(ttlMs, s2, Query(0, OLD));
    var s4 := Next(ttlMs, s3, Check(0));
    var t := Next(ttlMs, s4, Write(Named("new")));
    assert t == Delayed();
    LeadsFirst(ttlMs, s4, Write(Named("new")), [], t);
    LeadsFirst(ttlMs, s3, Check(0), [Write(Named("new"))] + [], t);
    run := [Check(0)] + ([Write(Named("new"))] + []);
    LeadsFirst(ttlMs, s2, Query(0, OLD), run, t);
    run := [Query(0, OLD)] + run;
    LeadsFirst(ttlMs, s1, Get(0, false), run, t);
    run := [Get(0, false)] + run;
    LeadsFirst(ttlMs, s0, Ask(0, "u", "g"), run, t);
    run := [Ask(0, "u", "g")] + run;
  }

  lemma OldIsShown()
    ensures Shows(Named("old"), "g", OLD)
  {
    assert MembersOf(Named("old"), "g") == {"u"};
    assert OLD.members[0] == Member("u", "U", "u@x");
    assert MemberIds(OLD.members) == {"u"};
  }

  /** The key has been deleted after the rename, and only then has the SET arrived. */
  function Repopulated(ttlMs: nat, lag: nat): State {
    State(lag, Delayed().history, map["g" := Cached(OLD, lag + ttlMs, lag, Origin(0, 0))], map["g" := lag], lag,
          map[0 := Reader("u", "g", Done(Served(OLD, Origin(0, 0), None, Origin(0, 0))))])
  }

  lemma ReachRepopulated(ttlMs: nat, lag: nat, rest: seq<Action>, t: State) returns (run: seq<Action>)
    requires Leads(ttlMs, Repopulated(ttlMs, lag), rest, t)
    ensures Leads(ttlMs, Delayed(), run, t)
  {
    var s1 := Next(ttlMs, Delayed(), Advance(lag));
    var s2 := Next(ttlMs, s1, Invalidate("g"));
    assert Next(ttlMs, s2, Populate(0, true)) == Repopulated(ttlMs, lag);
    LeadsFirst(ttlMs, s2, Populate(0, true), rest, t);
    run := [Populate(0, true)] + rest;
    LeadsFirst(ttlMs, s1, Invalidate("g"), run, t);
    run := [Invalidate("g")] + run;
    LeadsFirst(ttlMs, Delayed(), Advance(lag), run, t);
    run := [Advance(lag)] + run;
  }

  function LateHit(ttlMs: nat, lag: nat): State
    requires ttlMs > 0
  {
    var s := Repopulated(ttlMs, lag);
    var at := lag + ttlMs - 1;
    s.(now := at, readers := s.readers[1 := Reader("u", "g", Done(Served(OLD, Origin(0, 0), Some(Hit(at, Some(lag))), Origin(1, at))))])
  }

  lemma ReachLateHit(ttlMs: nat, lag: nat) returns (run: seq<Action>)
    requires ttlMs > 0
    ensures Leads(ttlMs, Repopulated(ttlMs, lag), run, LateHit(ttlMs, lag))
  {
    var t := LateHit(ttlMs, lag);
    var s4 := Next(ttlMs, Repopulated(ttlMs, lag), Advance(ttlMs - 1));
    var s5 := Next(ttlMs, s4, Ask(1, "u", "g"));
    var s6 := Next(ttlMs, s5, Get(1, false));
    assert Next(ttlMs, s6, Check(1)) == t;
    LeadsFirst(ttlMs, s6, Check(1), [], t);
    run := [Check(1)] + [];
    LeadsFirst(ttlMs, s5, Get(1, false), run, t);
    run := [Get(1, false)] + run;
    LeadsFirst(ttlMs, s4, Ask(1, "u", "g"), run, t);
    run := [Ask(1, "u", "g")] + run;
    LeadsFirst(ttlMs, Repopulated(ttlMs, lag), Advance(ttlMs - 1), run, t);
    run := [Advance(ttlMs - 1)] + run;
  }

  /** However a SET may lag: a rename whose invalidation succeeded is still unseen by a later read, at the far end of both bounds. */
  lemma BoundsAreReached(ttlMs: nat, lag: nat) returns (prefix: seq<Action>, run: seq<Action>)
    requires ttlMs > 0
    ensures CanRun(ttlMs, Start(0, Named("old")), prefix) && Run(ttlMs, Start(0, Named("old")), prefix) == Delayed()
    ensures CanRun(ttlMs, Delayed(), run)
    ensures
      var t := Run(ttlMs, Delayed(), run);
      && 1 in t.readers && t.readers[1].stage.Done? && t.readers[1].stage.reply.Served?
      && var Served(d, o, hit, _) := t.readers[1].stage.reply;
      && t.history == Delayed().history && d.name == "old" && t.slowest == lag
      && hit.Some? && hit.value.deletedAt == Some(o.at + lag) && hit.value.at - ttlMs - lag == o.at - 1
  {
    prefix := ReachDelayed(ttlMs);
    run := ReachLateHit(ttlMs, lag);
    run := ReachRepopulated(ttlMs, lag, run, LateHit(ttlMs, lag));
  }
}

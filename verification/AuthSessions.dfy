/** What a password reset ends: every session that its statement saw, and exactly those. */
module AuthSessions {
  import opened Common
  import opened AuthTokens
  import opened AuthProtocol

  /** The request has scanned these rows, or has ended. */
  predicate HasScanned(s: State, r: RequestId, u: UserId, rows: set<TokenId>) {
    && r in s.requests
    && match s.requests[r]
       case Holding(_, v, p, _, scanned) => v == u && p == PasswordReset && scanned == Some(rows)
       case Done(_) => true
       case _ => false
  }

  lemma NextHasScanned(s: State, a: Action, r: RequestId, u: UserId, rows: set<TokenId>)
    requires Enabled(s, a) && HasScanned(s, r, u, rows)
    ensures HasScanned(Next(s, a), r, u, rows)
  {
    MoverOnlyMoves(s, a);
    if Moves(a) && a.r == r { assert a.Consume? || a.Stop?; }
  }

  /** Rows stay, with their user. */
  lemma NextKeepsRow(s: State, a: Action, id: TokenId)
    requires Enabled(s, a) && id in s.db.refresh
    ensures id in Next(s, a).db.refresh && Next(s, a).db.refresh[id].userId == s.db.refresh[id].userId
  {
    match a
    case Exchange(_, _, _) =>
    case Consume(_, _) =>
    case Register(_, _, _, _, _, _, _) =>
    case Login(_, _, _) =>
    case _ => NextOnlyRevokesRows(s, a);
  }

  lemma {:induction false} RunKeepsRow(s: State, run: seq<Action>, id: TokenId)
    requires CanRun(s, run) && id in s.db.refresh
    ensures id in Run(s, run).db.refresh && Run(s, run).db.refresh[id].userId == s.db.refresh[id].userId
    decreases |run|
  {
    if run != [] {
      NextKeepsRow(s, run[0], id);
      RunKeepsRow(Next(s, run[0]), run[1..], id);
    }
  }

  lemma {:induction false} RunHasScanned(s: State, run: seq<Action>, r: RequestId, u: UserId, rows: set<TokenId>)
    requires CanRun(s, run) && HasScanned(s, r, u, rows)
    ensures HasScanned(Run(s, run), r, u, rows)
    decreases |run|
  {
    if run != [] {
      NextHasScanned(s, run[0], r, u, rows);
      RunHasScanned(Next(s, run[0]), run[1..], r, u, rows);
    }
  }

  /** From the scan of request `r` to its commit, in which the token was used. */
  predicate Resets(s: State, r: RequestId, between: seq<Action>, passwordHash: string) {
    && Enabled(s, Scan(r)) && CanRun(Next(s, Scan(r)), between)
    && var end := Run(Next(s, Scan(r)), between);
    && Enabled(end, Consume(r, passwordHash)) && ConsumeSucceeds(end.db, end.requests[r].id, end.requests[r].userId)
  }

  function ResetCommitted(s: State, r: RequestId, between: seq<Action>, passwordHash: string): State
    requires Resets(s, r, between, passwordHash)
  {
    Next(Run(Next(s, Scan(r)), between), Consume(r, passwordHash))
  }

  /** Whatever commits between the scan and the reset, of the user's sessions just those stay active that were
      active before the commit and had not been there at the scan. */
  lemma ResetSparesExactlyNewcomers(s: State, r: RequestId, between: seq<Action>, passwordHash: string, id: TokenId)
    requires Resets(s, r, between, passwordHash)
    requires
      var end := Run(Next(s, Scan(r)), between);
      id in end.db.refresh && end.db.refresh[id].userId == s.requests[r].userId
    ensures
      var end := Run(Next(s, Scan(r)), between);
      Active(ResetCommitted(s, r, between, passwordHash).db, id) <==> Active(end.db, id) && id !in s.db.refresh
  {
    RunHasScanned(Next(s, Scan(r)), between, r, s.requests[r].userId, s.db.refresh.Keys);
  }

  /** No session that was there at the scan is ever active or exchanged after the commit, whoever had looked it up. */
  lemma ResetEndsSessions(s: State, r: RequestId, between: seq<Action>, passwordHash: string, run: seq<Action>, id: TokenId, q: RequestId)
    requires Resets(s, r, between, passwordHash) && id in s.db.refresh && s.db.refresh[id].userId == s.requests[r].userId
    requires CanRun(ResetCommitted(s, r, between, passwordHash), run)
    ensures
      var committed := ResetCommitted(s, r, between, passwordHash);
      var t := Run(committed, run);
      && !Active(t.db, id)
      && (q in t.requests && t.requests[q].Done? && t.requests[q].outcome.Exchanged? && t.requests[q].outcome.replaced == id ==>
            q in committed.requests && committed.requests[q] == t.requests[q])
  {
    var committed := ResetCommitted(s, r, between, passwordHash);
    RunKeepsRow(Next(s, Scan(r)), between, id);
    ResetSparesExactlyNewcomers(s, r, between, passwordHash, id);
    NextKeepsRow(Run(Next(s, Scan(r)), between), Consume(r, passwordHash), id);
    RevocationIsPermanent(committed, run, id);
  }

  /******* A session that outlives the reset *******/

  /** Request 1 holds the reset token 1; request 2 has looked up session 0. */
  function Ready(): State {
    State(0, Db(map["u" := User("u@x", "old", None)], map[0 := RefreshRow("u", 100, None)],
                map[0 := AuthRow("u", EmailVerification, 100, None), 1 := AuthRow("u", PasswordReset, 100, None)]),
          {0, 1}, map[0 := "u@x", 1 := "u@x"], map[], map[0 := 0], 1,
          map[0 := Done(Mailed(1)), 1 := Holding(1, "u", PasswordReset, 0, None), 2 := Refreshing(0, "u")])
  }

  const REGISTER := Register("u", "u@x", "old", 0, 100, 0, 100)
  const ASK := LookUpUser(0, "u", PasswordReset)
  const MAIL := Issue(0, 1, 100)
  const HOLD := LookUpToken(1, 1, PasswordReset)
  const REFRESH := LookUpRefresh(2, 0)

  function Registered(): State {
    State(0, Db(Ready().db.users, Ready().db.refresh, map[0 := AuthRow("u", EmailVerification, 100, None)]),
          {0}, map[0 := "u@x"], map[], map[0 := 0], 1, map[])
  }

  function Asked(): State { Registered().(requests := map[0 := Issuing("u", PasswordReset, "u@x")]) }

  function Issued(): State { Ready().(requests := map[0 := Done(Mailed(1))]) }

  lemma ReachIssued()
    ensures Enabled(Start(0), REGISTER) && Next(Start(0), REGISTER) == Registered()
    ensures Enabled(Registered(), ASK) && Next(Registered(), ASK) == Asked()
    ensures Enabled(Asked(), MAIL) && Next(Asked(), MAIL) == Issued()
  {
    assert Next(Start(0), REGISTER).db.auth == Registered().db.auth;
    assert Next(Asked(), MAIL).db.auth == Issued().db.auth;
  }

  lemma ReachReady() returns (run: seq<Action>)
    ensures Leads(Start(0), run, Ready())
  {
    var s4 := Next(Issued(), HOLD);
    assert Next(s4, REFRESH) == Ready();
    LeadsFirst(s4, REFRESH, [], Ready());
    LeadsFirst(Issued(), HOLD, [REFRESH] + [], Ready());
    run := [HOLD] + ([REFRESH] + []);
    ReachIssued();
    LeadsFirst(Asked(), MAIL, run, Ready());
    run := [MAIL] + run;
    LeadsFirst(Registered(), ASK, run, Ready());
    run := [ASK] + run;
    LeadsFirst(Start(0), REGISTER, run, Ready());
    run := [REGISTER] + run;
  }

  function Scanning(): State {
    Ready().(requests := Ready().requests[1 := Holding(1, "u", PasswordReset, 0, Some(Ready().db.refresh.Keys))])
  }

  function AfterRotation(): State {
    Scanning().(
      db := Ready().db.(refresh := map[0 := RefreshRow("u", 100, Some(0)), 5 := RefreshRow("u", 100, None)]),
      parent := map[5 := 0], chain := map[0 := 0, 5 := 0],
      requests := Scanning().requests[2 := Done(Exchanged(0, 5))])
  }

  lemma ReachRotated()
    ensures Enabled(Ready(), Scan(1)) && Next(Ready(), Scan(1)) == Scanning()
    ensures Enabled(Scanning(), Exchange(2, 5, 100)) && Next(Scanning(), Exchange(2, 5, 100)) == AfterRotation()
  {
  }

  lemma RotationBeforeCommit()
    ensures Resets(Ready(), 1, [Exchange(2, 5, 100)], "new")
    ensures Run(Next(Ready(), Scan(1)), [Exchange(2, 5, 100)]) == AfterRotation()
  {
    ReachRotated();
    LeadsFirst(Scanning(), Exchange(2, 5, 100), [], AfterRotation());
    assert [Exchange(2, 5, 100)] + [] == [Exchange(2, 5, 100)];
  }

  /** A rotation that commits between the scan and the reset leaves its successor active. */
  lemma RotationOutlivesReset() returns (prefix: seq<Action>)
    ensures Leads(Start(0), prefix, Ready()) && Resets(Ready(), 1, [Exchange(2, 5, 100)], "new")
    ensures
      var t := ResetCommitted(Ready(), 1, [Exchange(2, 5, 100)], "new");
      t.requests[1] == Done(Used(1)) && t.db.users["u"].passwordHash == "new" && Active(t.db, 5) && t.db.refresh[5].userId == "u"
  {
    prefix := ReachReady();
    RotationBeforeCommit();
    ResetSparesExactlyNewcomers(Ready(), 1, [Exchange(2, 5, 100)], "new", 5);
  }
}

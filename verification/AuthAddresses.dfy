/** What becomes of a user's password, address and verification, and which address a link verifies. */
module AuthAddresses {
  import opened Common
  import opened AuthTokens
  import opened AuthProtocol

  predicate UsesTokenOf(s: State, a: Action, u: UserId) {
    a.Consume? && a.r in s.requests && s.requests[a.r].Holding? && s.requests[a.r].userId == u
    && ConsumeSucceeds(s.db, s.requests[a.r].id, u)
  }

  predicate SavesProfileOf(s: State, a: Action, u: UserId) {
    a.Save? && a.r in s.requests && s.requests[a.r].Saving? && s.requests[a.r].userId == u
    && UpdateSucceeds(s.db, u, s.requests[a.r].wanted)
  }

  /** A user changes by the use of a token and by a saved profile, and by nothing else: the first to what the
      token is for; the second to the wanted address, and to unverified exactly when that address differs
      from the one looked up. */
  lemma UsersChange(s: State, a: Action, u: UserId)
    requires Enabled(s, a) && u in s.db.users
    ensures
      var t := Next(s, a);
      && u in t.db.users
      && var before, after := s.db.users[u], t.db.users[u];
      if UsesTokenOf(s, a, u) then
        match s.requests[a.r].purpose
        case EmailVerification => after == before.(emailVerifiedAt := Some(s.requests[a.r].at))
        case PasswordReset => after == before.(passwordHash := a.passwordHash)
      else if SavesProfileOf(s, a, u) then
        var Saving(_, wanted, seen) := s.requests[a.r];
        && after.email == wanted.GetOr(before.email) && after.passwordHash == before.passwordHash
        && after.emailVerifiedAt == if EmailChanged(seen, wanted) then None else before.emailVerifiedAt
      else after == before
  {
    match a
    case Consume(_, _) =>
    case Save(_) =>
    case _ =>
  }

  /** The address committed last for the user in the run, if any was. */
  ghost function LastSaved(s: State, run: seq<Action>, u: UserId): Option<string>
    requires CanRun(s, run)
    decreases |run|
  {
    if run == [] then None
    else
      var later := LastSaved(Next(s, run[0]), run[1..], u);
      if later.Some? then later
      else if SavesProfileOf(s, run[0], u) then s.requests[run[0].r].wanted
      else None
  }

  lemma {:induction false} AddressIsLastSaved(s: State, run: seq<Action>, u: UserId)
    requires CanRun(s, run) && u in s.db.users
    ensures u in Run(s, run).db.users && Run(s, run).db.users[u].email == LastSaved(s, run, u).GetOr(s.db.users[u].email)
    decreases |run|
  {
    if run != [] {
      UsersChange(s, run[0], u);
      AddressIsLastSaved(Next(s, run[0]), run[1..], u);
    }
  }

  /** The request is about to issue a token of this kind whose link goes to this address, or has done so, or has stopped. */
  predicate Mails(s: State, q: RequestId, u: UserId, purpose: Purpose, email: string) {
    && q in s.requests
    && match s.requests[q]
       case Issuing(v, p, e) => v == u && p == purpose && e == email
       case Done(Mailed(id)) => Linked(s, id, u, purpose, email)
       case Done(Refused) => true
       case _ => false
  }

  predicate Linked(s: State, id: TokenId, u: UserId, purpose: Purpose, email: string) {
    && id in s.issued && id in s.mailed && s.mailed[id] == email
    && (id in s.db.auth ==> IsFor(s.db.auth[id], u, purpose))
  }

  lemma LinkLasts(s: State, a: Action, id: TokenId, u: UserId, purpose: Purpose, email: string)
    requires Enabled(s, a) && Linked(s, id, u, purpose, email)
    ensures Linked(Next(s, a), id, u, purpose, email)
  {
    NextTokensLast(s, a);
    assert TokenLasts(s, Next(s, a), id);
    match a
    case Issue(_, _, _) =>
    case _ =>
  }

  lemma {:induction false} RunLinkLasts(s: State, run: seq<Action>, id: TokenId, u: UserId, purpose: Purpose, email: string)
    requires CanRun(s, run) && Linked(s, id, u, purpose, email)
    ensures Linked(Run(s, run), id, u, purpose, email)
    decreases |run|
  {
    if run != [] {
      LinkLasts(s, run[0], id, u, purpose, email);
      RunLinkLasts(Next(s, run[0]), run[1..], id, u, purpose, email);
    }
  }

  lemma {:induction false} RunMails(s: State, run: seq<Action>, q: RequestId, u: UserId, purpose: Purpose, email: string)
    requires CanRun(s, run) && Mails(s, q, u, purpose, email)
    ensures Mails(Run(s, run), q, u, purpose, email)
    decreases |run|
  {
    if run != [] {
      NextMails(s, run[0], q, u, purpose, email);
      RunMails(Next(s, run[0]), run[1..], q, u, purpose, email);
    }
  }

  lemma NextMails(s: State, a: Action, q: RequestId, u: UserId, purpose: Purpose, email: string)
    requires Enabled(s, a) && Mails(s, q, u, purpose, email)
    ensures Mails(Next(s, a), q, u, purpose, email)
  {
    MoverOnlyMoves(s, a);
    if s.requests[q].Issuing? {
      IssuerMails(s, a, q, u, purpose, email);
    } else if s.requests[q].outcome.Mailed? {
      LinkLasts(s, a, s.requests[q].outcome.id, u, purpose, email);
    }
  }

  lemma IssuerMails(s: State, a: Action, q: RequestId, u: UserId, purpose: Purpose, email: string)
    requires Enabled(s, a) && Mails(s, q, u, purpose, email) && s.requests[q].Issuing?
    ensures Mails(Next(s, a), q, u, purpose, email)
  {
    MoverOnlyMoves(s, a);
    if Moves(a) && a.r == q { assert a.Issue? || a.Stop?; }
  }

  /** The use of a linked verification token, in a run that starts when the user has the address the link goes to. */
  predicate Verifies(s: State, a: Action, id: TokenId) {
    && a.Consume? && Enabled(s, a) && s.requests[a.r].id == id && s.requests[a.r].purpose == EmailVerification
    && ConsumeSucceeds(s.db, id, s.requests[a.r].userId)
  }

  lemma UseVerifies(s: State, run: seq<Action>, a: Action, id: TokenId, u: UserId)
    requires Sound(s) && CanRun(s, run) && u in s.db.users && Verifies(Run(s, run), a, id)
    requires Linked(Run(s, run), id, u, EmailVerification, s.db.users[u].email)
    ensures
      var t := Next(Run(s, run), a);
      && u in t.db.users && t.db.users[u].emailVerifiedAt.Some?
      && (t.db.users[u].email == Run(s, run).mailed[id]
          <==> LastSaved(s, run, u).None? || LastSaved(s, run, u) == Some(Run(s, run).mailed[id]))
  {
    RunSound(s, run);
    var end := Run(s, run);
    assert StageSound(end, end.requests[a.r]);
    AddressIsLastSaved(s, run, u);
    UsersChange(end, a, u);
  }

  lemma LookupVerifies(s: State, q: RequestId, u: UserId, run: seq<Action>, a: Action, id: TokenId)
    requires Sound(s) && Enabled(s, LookUpUser(q, u, EmailVerification)) && u in s.db.users
    requires CanRun(Next(s, LookUpUser(q, u, EmailVerification)), run)
    requires
      var end := Run(Next(s, LookUpUser(q, u, EmailVerification)), run);
      Verifies(end, a, id) && q in end.requests && end.requests[q] == Done(Mailed(id))
    ensures
      var looked := Next(s, LookUpUser(q, u, EmailVerification));
      var t := Next(Run(looked, run), a);
      && u in t.db.users && t.db.users[u].emailVerifiedAt.Some? && id in t.mailed && t.mailed[id] == s.db.users[u].email
      && (t.db.users[u].email == t.mailed[id]
          <==> LastSaved(looked, run, u).None? || LastSaved(looked, run, u) == Some(t.mailed[id]))
  {
    var looked := Next(s, LookUpUser(q, u, EmailVerification));
    NextSound(s, LookUpUser(q, u, EmailVerification));
    RunMails(looked, run, q, u, EmailVerification, s.db.users[u].email);
    UseVerifies(looked, run, a, id, u);
  }

  /** A link asked for by `q` marks as verified the address it was sent to exactly when, between the lookup and
      the use, no other address was saved for the user, or that address was saved last. */
  lemma LinkVerifiesItsAddress(now: int, prefix: seq<Action>, q: RequestId, u: UserId, run: seq<Action>, a: Action, id: TokenId)
    requires CanRun(Start(now), prefix)
    requires
      var s := Run(Start(now), prefix);
      && Enabled(s, LookUpUser(q, u, EmailVerification)) && u in s.db.users
      && CanRun(Next(s, LookUpUser(q, u, EmailVerification)), run)
      && var end := Run(Next(s, LookUpUser(q, u, EmailVerification)), run);
      Verifies(end, a, id) && q in end.requests && end.requests[q] == Done(Mailed(id))
    ensures
      var s := Run(Start(now), prefix);
      var looked := Next(s, LookUpUser(q, u, EmailVerification));
      var t := Next(Run(looked, run), a);
      && u in t.db.users && t.db.users[u].emailVerifiedAt.Some? && id in t.mailed && t.mailed[id] == s.db.users[u].email
      && (t.db.users[u].email == t.mailed[id]
          <==> LastSaved(looked, run, u).None? || LastSaved(looked, run, u) == Some(t.mailed[id]))
  {
    RunSound(Start(now), prefix);
    LookupVerifies(Run(Start(now), prefix), q, u, run, a, id);
  }

  /** The same for the link sent at registration. */
  lemma FirstLinkVerifiesItsAddress(now: int, prefix: seq<Action>, first: Action, run: seq<Action>, a: Action)
    requires CanRun(Start(now), prefix) && first.Register?
    requires
      var s := Run(Start(now), prefix);
      && Enabled(s, first) && CanRun(Next(s, first), run)
      && Verifies(Run(Next(s, first), run), a, first.authId)
    ensures
      var registered := Next(Run(Start(now), prefix), first);
      var t := Next(Run(registered, run), a);
      var u := first.userId;
      && u in t.db.users && t.db.users[u].emailVerifiedAt.Some?
      && (t.db.users[u].email == first.email
          <==> LastSaved(registered, run, u).None? || LastSaved(registered, run, u) == Some(first.email))
  {
    RunSound(Start(now), prefix);
    var s := Run(Start(now), prefix);
    var registered := Next(s, first);
    NextSound(s, first);
    RunLinkLasts(registered, run, first.authId, first.userId, EmailVerification, first.email);
    UseVerifies(registered, run, a, first.authId, first.userId);
  }

  /** The request has looked this address up and wants that one. */
  predicate Edits(s: State, q: RequestId, u: UserId, wanted: string, seen: string) {
    && q in s.requests
    && match s.requests[q]
       case Checking(v, w, e) => v == u && w == Some(wanted) && e == seen
       case Saving(v, w, e) => v == u && w == Some(wanted) && e == seen
       case Done(_) => true
       case _ => false
  }

  lemma NextEdits(s: State, a: Action, q: RequestId, u: UserId, wanted: string, seen: string)
    requires Enabled(s, a) && Edits(s, q, u, wanted, seen)
    ensures Edits(Next(s, a), q, u, wanted, seen)
  {
    MoverOnlyMoves(s, a);
    if Moves(a) && a.r == q { assert a.CheckAddress? || a.Save? || a.Stop?; }
  }

  lemma {:induction false} RunEdits(s: State, run: seq<Action>, q: RequestId, u: UserId, wanted: string, seen: string)
    requires CanRun(s, run) && Edits(s, q, u, wanted, seen)
    ensures Edits(Run(s, run), q, u, wanted, seen)
    decreases |run|
  {
    if run != [] {
      NextEdits(s, run[0], q, u, wanted, seen);
      RunEdits(Next(s, run[0]), run[1..], q, u, wanted, seen);
    }
  }

  /** A saved address clears the verification exactly when it differs, beyond case, from the address at the
      lookup; the address it replaces is the one saved last since. */
  lemma SaveComparesWithLookup(s: State, q: RequestId, u: UserId, wanted: string, run: seq<Action>)
    requires Enabled(s, LookUpProfile(q, u, Some(wanted))) && u in s.db.users
    requires CanRun(Next(s, LookUpProfile(q, u, Some(wanted))), run)
    requires
      var end := Run(Next(s, LookUpProfile(q, u, Some(wanted))), run);
      Enabled(end, Save(q)) && UpdateSucceeds(end.db, u, Some(wanted))
    ensures
      var looked := Next(s, LookUpProfile(q, u, Some(wanted)));
      var end := Run(looked, run);
      var t := Next(end, Save(q));
      && u in end.db.users && end.db.users[u].email == LastSaved(looked, run, u).GetOr(s.db.users[u].email)
      && t.db.users[u].email == wanted
      && t.db.users[u].emailVerifiedAt ==
         if LowerCase(wanted) != LowerCase(s.db.users[u].email) then None else end.db.users[u].emailVerifiedAt
  {
    var looked := Next(s, LookUpProfile(q, u, Some(wanted)));
    AddressIsLastSaved(looked, run, u);
    RunEdits(looked, run, q, u, wanted, s.db.users[u].email);
    UsersChange(Run(looked, run), Save(q), u);
  }

  /** A step leaves a user marked as verified at an address that differs, beyond case, from the one it replaces
      exactly when it saves the address looked up before for a verified user who had another one by then. */
  lemma MarkOutlivesAddressIff(s: State, a: Action, u: UserId)
    requires Enabled(s, a) && u in s.db.users
    ensures
      var t := Next(s, a);
      && u in t.db.users
      && (t.db.users[u].emailVerifiedAt.Some? && LowerCase(t.db.users[u].email) != LowerCase(s.db.users[u].email)
          <==> SavesProfileOf(s, a, u) && s.db.users[u].emailVerifiedAt.Some?
               && var Saving(_, wanted, seen) := s.requests[a.r];
               wanted.Some? && LowerCase(wanted.value) == LowerCase(seen) && LowerCase(wanted.value) != LowerCase(s.db.users[u].email))
  {
    UsersChange(s, a, u);
  }

  /** Over a run from the lookup to the save: exactly when the user is verified, the wanted address is, beyond case, the
      one looked up, and another one was saved last since. */
  lemma StaleSaveKeepsMarkIff(s: State, q: RequestId, u: UserId, wanted: string, run: seq<Action>)
    requires Enabled(s, LookUpProfile(q, u, Some(wanted))) && u in s.db.users
    requires CanRun(Next(s, LookUpProfile(q, u, Some(wanted))), run)
    requires
      var end := Run(Next(s, LookUpProfile(q, u, Some(wanted))), run);
      Enabled(end, Save(q)) && UpdateSucceeds(end.db, u, Some(wanted))
    ensures
      var looked := Next(s, LookUpProfile(q, u, Some(wanted)));
      var end := Run(looked, run);
      var t := Next(end, Save(q));
      && u in end.db.users && u in t.db.users
      && (t.db.users[u].emailVerifiedAt.Some? && LowerCase(t.db.users[u].email) != LowerCase(end.db.users[u].email)
          <==> end.db.users[u].emailVerifiedAt.Some? && LowerCase(wanted) == LowerCase(s.db.users[u].email)
               && LastSaved(looked, run, u).Some? && LowerCase(LastSaved(looked, run, u).value) != LowerCase(wanted))
  {
    SaveComparesWithLookup(s, q, u, wanted, run);
  }

  /** A held token's user exists, so a use fails only when the token was used or replaced, and then changes nothing. */
  lemma UseFailsOnlyWhenSpent(now: int, run: seq<Action>, r: RequestId, passwordHash: string)
    requires CanRun(Start(now), run)
    requires Enabled(Run(Start(now), run), Consume(r, passwordHash))
    ensures
      var s := Run(Start(now), run);
      var t := Next(s, Consume(r, passwordHash));
      && s.requests[r].userId in s.db.users
      && (t.requests[r] == Done(Used(s.requests[r].id)) <==> Unused(s.db, s.requests[r].id))
      && (!Unused(s.db, s.requests[r].id) ==> t.db == s.db)
  {
    RunSound(Start(now), run);
    var s := Run(Start(now), run);
    assert StageSound(s, s.requests[r]);
  }

  /******* A link that verifies another address *******/

  const FIRST := Register("u", "a@x", "hash", 0, 100, 0, 100)

  /** Registered under one address, moved to another; the first link has not been followed. */
  function Moved(): State {
    State(0, Db(map["u" := User("b@x", "hash", None)], map[0 := RefreshRow("u", 100, None)],
                map[0 := AuthRow("u", EmailVerification, 100, None)]),
          {0}, map[0 := "a@x"], map[], map[0 := 0], 1, map[0 := Done(Saved)])
  }

  function Registered(): State {
    State(0, Db(map["u" := User("a@x", "hash", None)], map[0 := RefreshRow("u", 100, None)],
                map[0 := AuthRow("u", EmailVerification, 100, None)]),
          {0}, map[0 := "a@x"], map[], map[0 := 0], 1, map[])
  }

  lemma ReachRegistered()
    ensures Enabled(Start(0), FIRST) && Next(Start(0), FIRST) == Registered()
  {
    assert Next(Start(0), FIRST).db.auth == Registered().db.auth;
  }

  lemma ReachMoved() returns (run: seq<Action>)
    ensures Leads(Start(0), run, Moved())
  {
    var s2 := Next(Registered(), LookUpProfile(0, "u", Some("b@x")));
    var s3 := Next(s2, CheckAddress(0));
    assert LowerCase("b@x")[0] == 'b' && LowerCase("a@x")[0] == 'a';
    assert Next(s3, Save(0)) == Moved();
    LeadsFirst(s3, Save(0), [], Moved());
    run := [Save(0)] + [];
    LeadsFirst(s2, CheckAddress(0), run, Moved());
    run := [CheckAddress(0)] + run;
    LeadsFirst(Registered(), LookUpProfile(0, "u", Some("b@x")), run, Moved());
    run := [LookUpProfile(0, "u", Some("b@x"))] + run;
    ReachRegistered();
    LeadsFirst(Start(0), FIRST, run, Moved());
    run := [FIRST] + run;
  }

  /** A link sent to the address left behind verifies the new one. */
  lemma OldLinkVerifiesNewAddress() returns (prefix: seq<Action>, run: seq<Action>)
    ensures Leads(Start(0), prefix, Moved()) && CanRun(Moved(), run)
    ensures
      var t := Run(Moved(), run);
      "u" in t.db.users && t.db.users["u"].email == "b@x" && t.db.users["u"].emailVerifiedAt.Some?
      && 1 in t.requests && t.requests[1] == Done(Used(0)) && t.mailed == map[0 := "a@x"]
  {
    prefix := ReachMoved();
    var s1 := Next(Moved(), LookUpToken(1, 0, EmailVerification));
    var t := Next(s1, Consume(1, ""));
    LeadsFirst(s1, Consume(1, ""), [], t);
    LeadsFirst(Moved(), LookUpToken(1, 0, EmailVerification), [Consume(1, "")] + [], t);
    run := [LookUpToken(1, 0, EmailVerification)] + ([Consume(1, "")] + []);
  }

  /******* A mark that outlives its address *******/

  /** Request 0 has looked up a@x and is about to save it again; request 1 has moved the user to b@x. */
  function MovedMeanwhile(): State {
    Registered().(
      db := Registered().db.(users := map["u" := User("b@x", "hash", None)]),
      requests := map[0 := Saving("u", Some("a@x"), "a@x"), 1 := Done(Saved)])
  }

  lemma ReachMovedMeanwhile() returns (run: seq<Action>)
    ensures Leads(Registered(), run, MovedMeanwhile())
  {
    var s1 := Next(Registered(), LookUpProfile(0, "u", Some("a@x")));
    var s2 := Next(s1, CheckAddress(0));
    var s3 := Next(s2, LookUpProfile(1, "u", Some("b@x")));
    var s4 := Next(s3, CheckAddress(1));
    assert LowerCase("b@x")[0] == 'b' && LowerCase("a@x")[0] == 'a';
    assert Next(s4, Save(1)) == MovedMeanwhile();
    LeadsFirst(s4, Save(1), [], MovedMeanwhile());
    run := [Save(1)] + [];
    LeadsFirst(s3, CheckAddress(1), run, MovedMeanwhile());
    run := [CheckAddress(1)] + run;
    LeadsFirst(s2, LookUpProfile(1, "u", Some("b@x")), run, MovedMeanwhile());
    run := [LookUpProfile(1, "u", Some("b@x"))] + run;
    LeadsFirst(s1, CheckAddress(0), run, MovedMeanwhile());
    run := [CheckAddress(0)] + run;
    LeadsFirst(Registered(), LookUpProfile(0, "u", Some("a@x")), run, MovedMeanwhile());
    run := [LookUpProfile(0, "u", Some("a@x"))] + run;
  }

  /** A link sent to b@x has been used. */
  function VerifiedThere(): State {
    MovedMeanwhile().(
      db := Db(map["u" := User("b@x", "hash", Some(0))], MovedMeanwhile().db.refresh,
               map[1 := AuthRow("u", EmailVerification, 100, Some(0))]),
      issued := {0, 1}, mailed := map[0 := "a@x", 1 := "b@x"],
      requests := MovedMeanwhile().requests[2 := Done(Mailed(1))][3 := Done(Used(1))])
  }

  function LinkSent(): State {
    VerifiedThere().(
      db := Db(map["u" := User("b@x", "hash", None)], MovedMeanwhile().db.refresh, map[1 := AuthRow("u", EmailVerification, 100, None)]),
      requests := MovedMeanwhile().requests[2 := Done(Mailed(1))])
  }

  lemma ReachLinkSent()
    ensures var asked := Next(MovedMeanwhile(), LookUpUser(2, "u", EmailVerification));
            Enabled(asked, Issue(2, 1, 100)) && Next(asked, Issue(2, 1, 100)) == LinkSent()
  {
    var asked := Next(MovedMeanwhile(), LookUpUser(2, "u", EmailVerification));
    assert Next(asked, Issue(2, 1, 100)).db.auth == LinkSent().db.auth;
  }

  function LinkHeld(): State {
    LinkSent().(requests := LinkSent().requests[3 := Holding(1, "u", EmailVerification, 0, None)])
  }

  lemma HoldLink()
    ensures Enabled(LinkSent(), LookUpToken(3, 1, EmailVerification))
    ensures Next(LinkSent(), LookUpToken(3, 1, EmailVerification)) == LinkHeld()
  {
  }

  lemma UseLink()
    ensures Enabled(LinkHeld(), Consume(3, "")) && Next(LinkHeld(), Consume(3, "")) == VerifiedThere()
  {
  }

  lemma FollowLink() returns (run: seq<Action>)
    ensures Leads(LinkSent(), run, VerifiedThere())
  {
    HoldLink();
    UseLink();
    LeadsFirst(LinkHeld(), Consume(3, ""), [], VerifiedThere());
    LeadsFirst(LinkSent(), LookUpToken(3, 1, EmailVerification), [Consume(3, "")] + [], VerifiedThere());
    run := [LookUpToken(3, 1, EmailVerification)] + ([Consume(3, "")] + []);
  }

  lemma ReachVerifiedThere() returns (run: seq<Action>)
    ensures Leads(MovedMeanwhile(), run, VerifiedThere())
  {
    run := FollowLink();
    ReachLinkSent();
    LeadsFirst(Next(MovedMeanwhile(), LookUpUser(2, "u", EmailVerification)), Issue(2, 1, 100), run, VerifiedThere());
    run := [Issue(2, 1, 100)] + run;
    LeadsFirst(MovedMeanwhile(), LookUpUser(2, "u", EmailVerification), run, VerifiedThere());
    run := [LookUpUser(2, "u", EmailVerification)] + run;
  }

  lemma SaveThere()
    ensures Enabled(VerifiedThere(), Save(0))
    ensures
      var t := Next(VerifiedThere(), Save(0));
      && "u" in t.db.users && t.db.users["u"].email == "a@x" && t.db.users["u"].emailVerifiedAt.Some?
      && t.requests == VerifiedThere().requests[0 := Done(Saved)] && t.mailed == VerifiedThere().mailed
  {
  }

  /** After the save of request 0 the user is marked as verified at a@x, and the only link used went to b@x. */
  lemma StaleSaveVerifiesUnusedAddress() returns (run: seq<Action>)
    ensures Leads(Start(0), run, VerifiedThere()) && Enabled(VerifiedThere(), Save(0))
    ensures
      var t := Next(VerifiedThere(), Save(0));
      && "u" in t.db.users && t.db.users["u"].email == "a@x" && t.db.users["u"].emailVerifiedAt.Some?
      && (forall q <- t.requests :: t.requests[q].Done? && t.requests[q].outcome.Used? ==>
            t.requests[q].outcome.id in t.mailed && t.mailed[t.requests[q].outcome.id] == "b@x")
  {
    SaveThere();
    var first := ReachMovedMeanwhile();
    var rest := ReachVerifiedThere();
    LeadsOn(Registered(), first, MovedMeanwhile(), rest, VerifiedThere());
    ReachRegistered();
    LeadsFirst(Start(0), FIRST, first + rest, VerifiedThere());
    run := [FIRST] + (first + rest);
  }
}

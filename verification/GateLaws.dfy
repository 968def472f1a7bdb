/** Who is behind a request, how sessions come about, and what a change of an account takes; by the records themselves. */
module GateLaws {
  import opened Wrappers
  import opened Sequences
  import opened Sessions
  import opened Accounts
  import opened AccountLaws
  import opened SessionLaws

  // ---- The session shown ----

  /** Not run out, no denial of it in force, and its user not suspended. */
  predicate InForce(w: World, t: Token, now: int) {
    && now / 1000 < t.exp
    && !(t.jti in w.board.denied && now <= w.board.denied[t.jti])
    && !(t.userId in w.users && w.users[t.userId].suspended)
  }

  /** A session is taken for its user exactly while it is in force. */
  lemma IdentifiedIffInForce(w: World, t: Token, now: int)
    ensures SessionUser(w, t, now) == if InForce(w, t, now) then Some(t.userId) else None
    ensures Identified(w, BySession(t), now) == if InForce(w, t, now) then Some(t.userId) else None
  {
  }

  /** The events that are let in on a session. Leaving is not one: it takes any signed session. */
  predicate Admitted(ev: Event) { Shown(ev).Some? && !ev.Logout? }

  /** What an admitted event asks for besides the session. */
  predicate Granted(h: History, te: Timely) {
    match te.event
    case Enroll(BySession(t), _) => t.userId in h.w.users
    case Confirm(BySession(t), totpOk, _, _) => t.userId in h.w.users && h.w.users[t.userId].totpSecret.Some? && totpOk
    case Disable(t, totpOk) =>
      t.userId in h.w.users && h.w.users[t.userId].totpSecret.Some? && h.w.users[t.userId].totpEnabled && totpOk
    case ChangePassword(t, currentOk, policyOk, _) => t.userId in h.w.users && currentOk && policyOk
    case RevokeOthers(_) => true
    case RevokeOne(t, jti) =>
      t.userId in h.w.board.index && te.at <= h.w.board.index[t.userId].until && jti in h.w.board.index[t.userId].value
    case _ => false
  }

  /** It is served exactly if the session shown is in force and the rest is granted; else refused, with nothing changed. */
  lemma ServedIffInForce(h: History, te: Timely, cfg: Config)
    requires Admitted(te.event)
    ensures var turn := TurnOf(h, te, cfg);
            if InForce(h.w, Shown(te.event).value, te.at) && Granted(h, te) then turn.answer == Done
            else turn == Turn(h.w, Refused)
  {
    IdentifiedIffInForce(h.w, Shown(te.event).value, te.at);
  }

  /** From the moment a session has run out or a denial of it was recorded, every event showing it is refused, in every run. */
  lemma {:induction false} StoppedIsRefusedForGood(h: History, evs: seq<Timely>, late: Timely, t: Token, cfg: Config)
    requires Inv(h, cfg) && Feasible(h, evs, cfg) && Possible(Run(h, evs, cfg), late)
    requires t.jti in h.sessions && h.sessions[t.jti] == t && (t.exp <= h.now / 1000 || t.jti in h.w.board.denied)
    requires Admitted(late.event) && Shown(late.event) == Some(t)
    ensures TurnOf(Run(h, evs, cfg), late, cfg) == Turn(Run(h, evs, cfg).w, Refused)
    decreases |evs|
  {
    if evs == [] {
      assert Outlasts(h.w.board, t);
      ServedIffInForce(h, late, cfg);
    } else {
      NextKeepsInv(h, evs[0], cfg);
      StoppedIsRefusedForGood(Next(h, evs[0], cfg), evs[1..], late, t, cfg);
    }
  }

  /** The list of a user's sessions, as it can be read. */
  predicate IsListed(b: Board, userId: string, jti: string, now: int) {
    userId in b.index && now <= b.index[userId].until && jti in b.index[userId].value
  }

  /** What records a denial of a session: leaving, revoking it, or being passed over or reset while it is listed. */
  predicate Stops(h: History, te: Timely, t: Token, cfg: Config) {
    !TurnOf(h, te, cfg).answer.Refused? &&
    match te.event
    case Logout(s) => s == t && te.at / 1000 < t.exp
    case RevokeOne(_, jti) => jti == t.jti
    case RevokeOthers(s) => s.userId == t.userId && s.jti != t.jti && IsListed(h.w.board, t.userId, t.jti, te.at)
    case ChangePassword(s, _, _, _) => s.userId == t.userId && s.jti != t.jti && IsListed(h.w.board, t.userId, t.jti, te.at)
    case ResetPassword(hash, _, _) =>
      hash in h.w.resets && h.w.resets[hash].userId == t.userId && IsListed(h.w.board, t.userId, t.jti, te.at)
    case _ => false
  }

  lemma AllRevokedDenies(b: Board, sessions: Ledger, userId: string, t: Token, now: int, lifetime: nat)
    requires Sound(b, sessions, now, lifetime) && t.jti in sessions && sessions[t.jti] == t
    ensures t.jti in AllRevoked(b, userId, now, lifetime).denied <==>
            t.jti in b.denied || (t.userId == userId && IsListed(b, userId, t.jti, now))
  {
    var jtis := JtisFor(b, userId, now);
    assert jtis[..|jtis|] == jtis;
    ListIsBounded(b, sessions, userId, now, lifetime);
    DeniedAllAt(b.denied, jtis, |jtis|, None, now + KeptMs(lifetime), t.jti);
  }

  lemma OthersRevokedDenies(b: Board, sessions: Ledger, userId: string, kept: string, t: Token, now: int, lifetime: nat)
    requires Sound(b, sessions, now, lifetime) && t.jti in sessions && sessions[t.jti] == t
    ensures t.jti in OthersRevoked(b, userId, Some(kept), now, lifetime).denied <==>
            t.jti in b.denied || (t.userId == userId && t.jti != kept && IsListed(b, userId, t.jti, now))
  {
    var jtis := JtisFor(b, userId, now);
    assert jtis[..|jtis|] == jtis;
    ListIsBounded(b, sessions, userId, now, lifetime);
    DeniedAllAt(b.denied, jtis, |jtis|, Some(kept), now + KeptMs(lifetime), t.jti);
  }

  lemma MovedDenies(b: Board, sessions: Ledger, m: Move, t: Token, now: int, lifetime: nat)
    requires Sound(b, sessions, now, lifetime) && t.jti in sessions && sessions[t.jti] == t
    ensures t.jti in Moved(b, m, now, lifetime).denied <==>
            || t.jti in b.denied
            || match m
               case RevokeAllOf(u) => t.userId == u && IsListed(b, u, t.jti, now)
               case RevokeAllBut(u, kept) => t.userId == u && t.jti != kept && IsListed(b, u, t.jti, now)
               case DenyOne(jti) => jti == t.jti
               case Leave(s) => s.jti == t.jti && now / 1000 < s.exp
               case _ => false
  {
    match m
    case RevokeAllOf(u) => AllRevokedDenies(b, sessions, u, t, now, lifetime);
    case RevokeAllBut(u, kept) => OthersRevokedDenies(b, sessions, u, kept, t, now, lifetime);
    case _ =>
  }

  lemma StopsIsMove(h: History, te: Timely, t: Token, cfg: Config)
    requires Possible(h, te) && t.jti in h.sessions && h.sessions[t.jti] == t
    ensures Stops(h, te, t, cfg) <==>
            match MoveOf(h, te, cfg)
            case RevokeAllOf(u) => t.userId == u && IsListed(h.w.board, u, t.jti, te.at)
            case RevokeAllBut(u, kept) => t.userId == u && t.jti != kept && IsListed(h.w.board, u, t.jti, te.at)
            case DenyOne(jti) => jti == t.jti
            case Leave(s) => s.jti == t.jti && te.at / 1000 < s.exp
            case _ => false
  {
  }

  /** These events record a denial of the session, and no other event does. */
  lemma DeniedIffStopped(h: History, te: Timely, t: Token, cfg: Config)
    requires Inv(h, cfg) && Possible(h, te) && t.jti in h.sessions && h.sessions[t.jti] == t
    ensures t.jti in Next(h, te, cfg).w.board.denied <==> t.jti in h.w.board.denied || Stops(h, te, t, cfg)
  {
    TimePasses(h.w.board, h.sessions, h.now, te.at, cfg.lifetime);
    EveryEventMoves(h, te, cfg);
    MovedDenies(h.w.board, h.sessions, MoveOf(h, te, cfg), t, te.at, cfg.lifetime);
    StopsIsMove(h, te, t, cfg);
  }

  /** A session revoked by itself is denied for the lifetime of sessions, a minute at least; one left until it runs out. */
  lemma DenialsLast(h: History, te: Timely, cfg: Config)
    requires !TurnOf(h, te, cfg).answer.Refused?
    ensures var denied := Next(h, te, cfg).w.board.denied;
            && (te.event.RevokeOne? ==>
                  var jti := te.event.jti;
                  jti in denied && denied[jti] == te.at + 1000 * (if cfg.lifetime < 60 then 60 else cfg.lifetime))
            && (te.event.Logout? && te.at / 1000 < te.event.token.exp ==>
                  var t := te.event.token;
                  t.jti in denied && denied[t.jti] == te.at + 1000 * (t.exp - te.at / 1000))
  {
  }

  /** After signing out, being revoked or being reset, a session is refused whatever happens next and whatever it is shown for. */
  lemma StoppedSessionsAreRefused(h: History, te: Timely, evs: seq<Timely>, late: Timely, t: Token, cfg: Config)
    requires Inv(h, cfg) && Possible(h, te) && t.jti in h.sessions && h.sessions[t.jti] == t && Stops(h, te, t, cfg)
    requires Feasible(Next(h, te, cfg), evs, cfg) && Possible(Run(Next(h, te, cfg), evs, cfg), late)
    requires Admitted(late.event) && Shown(late.event) == Some(t)
    ensures var r := Run(Next(h, te, cfg), evs, cfg); TurnOf(r, late, cfg) == Turn(r.w, Refused)
  {
    DeniedIffStopped(h, te, t, cfg);
    NextKeepsInv(h, te, cfg);
    StoppedIsRefusedForGood(Next(h, te, cfg), evs, late, t, cfg);
  }

  /** With at most 20 sessions issued to the user, a reset does that to every one of them. */
  lemma ResetShutsOut(h: History, te: Timely, x: string, evs: seq<Timely>, late: Timely, t: Token, cfg: Config)
    requires Inv(h, cfg) && ResetsKnown(h) && Possible(h, te) && Spends(h, te, x, cfg) && x in h.resetFor
    requires t.jti in h.sessions && h.sessions[t.jti] == t && t.userId == h.resetFor[x]
    requires |IssuedTo(h.sessions, t.userId)| <= 20
    requires Feasible(Next(h, te, cfg), evs, cfg) && Possible(Run(Next(h, te, cfg), evs, cfg), late)
    requires Admitted(late.event) && Shown(late.event) == Some(t)
    ensures var r := Run(Next(h, te, cfg), evs, cfg); TurnOf(r, late, cfg) == Turn(r.w, Refused)
  {
    ResetStopsAll(h, te, x, t.jti, cfg);
    NextKeepsInv(h, te, cfg);
    StoppedIsRefusedForGood(Next(h, te, cfg), evs, late, t, cfg);
  }

  // ---- How sessions come about ----

  /** What it takes to be given a session: a sign-up, a password with nothing more to ask, a second factor, or a setup completed. */
  predicate Earns(h: History, te: Timely, userId: string) {
    match te.event
    case Signup(u, _, _) => u == userId
    case Login(u, passwordOk, orgRequiresMfa, _) =>
      && u == userId && u in h.w.users && passwordOk && !h.w.users[u].suspended && !orgRequiresMfa
      && !(h.w.users[u].totpEnabled && h.w.users[u].totpSecret.Some?)
    case MfaVerify(ticket, totpOk, hash, _) =>
      && ticket in h.w.mfaTickets && te.at <= h.w.mfaTickets[ticket].until && h.w.mfaTickets[ticket].value == userId
      && userId in h.w.users && h.w.users[userId].totpEnabled && h.w.users[userId].totpSecret.Some?
      && (totpOk || hash in h.w.users[userId].backupCodeHashes)
    case Confirm(BySetupTicket(ticket), totpOk, _, _) =>
      && ticket in h.w.setupTickets && te.at <= h.w.setupTickets[ticket].until && h.w.setupTickets[ticket].value == userId
      && userId in h.w.users && h.w.users[userId].totpSecret.Some? && totpOk
    case _ => false
  }

  lemma RemovedIffPresent(codes: seq<string>, hash: string)
    ensures |Without(codes, hash)| != |codes| <==> hash in codes
  {
    if hash in codes {
      var at := FilterEmbeds(IsNot(hash), codes);
      if |Without(codes, hash)| == |codes| {
        var i :| 0 <= i < |codes| && codes[i] == hash;
        AllAreKept(codes, hash, |codes|);
      }
    } else {
      FilterAll(IsNot(hash), codes, |codes|);
    }
  }

  lemma {:induction false} AllAreKept(codes: seq<string>, hash: string, n: nat)
    requires n <= |codes| && |FilterUpTo(IsNot(hash), codes, n)| == n
    ensures hash !in codes[..n]
  {
    if n > 0 {
      FilterReadsPositions(IsNot(hash), codes, n - 1);
      AllAreKept(codes, hash, n - 1);
      assert codes[..n] == codes[..n - 1] + [codes[n - 1]];
    }
  }

  /** A session is issued to a user exactly by those events, and runs for the lifetime from then. */
  lemma IssuedIffEarned(h: History, te: Timely, userId: string, cfg: Config)
    ensures var a := TurnOf(h, te, cfg).answer;
            && (a.SignedIn? && a.token.userId == userId <==> Earns(h, te, userId))
            && (a.SignedIn? ==> Drawn(te.event).Some? && a.token.jti == Drawn(te.event).value.jti
                                && a.token.exp == te.at / 1000 + cfg.lifetime)
  {
    if te.event.MfaVerify? && userId in h.w.users {
      RemovedIffPresent(h.w.users[userId].backupCodeHashes, te.event.hash);
    }
  }

  /** In every run from a new system each session was earned by its user at the moment it was issued. */
  ghost predicate EarnedAt(h: History, evs: seq<Timely>, k: nat, j: string, cfg: Config)
    decreases |evs|
  {
    k < |evs| && if k == 0 then (exists u :: Earns(h, evs[0], u) && Next(h, evs[0], cfg).sessions.Keys == h.sessions.Keys + {j}
                                            && j in Next(h, evs[0], cfg).sessions
                                            && Next(h, evs[0], cfg).sessions[j] == Token(j, u, evs[0].at / 1000 + cfg.lifetime))
                 else EarnedAt(Next(h, evs[0], cfg), evs[1..], k - 1, j, cfg)
  }

  lemma SessionsStay(h: History, te: Timely, cfg: Config, j: string)
    requires Possible(h, te) && j in h.sessions
    ensures j in Next(h, te, cfg).sessions && Next(h, te, cfg).sessions[j] == h.sessions[j]
  {
    if TurnOf(h, te, cfg).answer.SignedIn? {
      IssuedIsSigned(h, te, cfg);
    }
  }

  lemma {:induction false} EverySessionWasEarned(h: History, evs: seq<Timely>, j: string, cfg: Config)
    requires Feasible(h, evs, cfg) && j !in h.sessions && j in Run(h, evs, cfg).sessions
    ensures exists k :: EarnedAt(h, evs, k, j, cfg)
    decreases |evs|
  {
    var next := Next(h, evs[0], cfg);
    if j in next.sessions {
      var t := TurnOf(h, evs[0], cfg).answer.token;
      IssuedIffEarned(h, evs[0], t.userId, cfg);
      assert EarnedAt(h, evs, 0, j, cfg);
    } else {
      EverySessionWasEarned(next, evs[1..], j, cfg);
      var k: nat :| EarnedAt(next, evs[1..], k, j, cfg);
      assert EarnedAt(h, evs, k + 1, j, cfg);
    }
  }

  // ---- Tickets and tokens, and how long they last ----

  /** A right password is answered with a ticket if the factor is on, and with a setup ticket if one is only required. */
  lemma TicketsMintedIff(h: History, te: Timely, cfg: Config)
    requires te.event.Login?
    ensures var u, a, w := te.event.userId, TurnOf(h, te, cfg).answer, Next(h, te, cfg).w;
            var asked := u in h.w.users && te.event.passwordOk && !h.w.users[u].suspended;
            var on := u in h.w.users && h.w.users[u].totpEnabled && h.w.users[u].totpSecret.Some?;
            var ticket := te.event.draw.ticket;
            && (a == MfaRequired(ticket) <==> asked && on)
            && (a == MfaSetupRequired(ticket) <==> asked && !on && te.event.orgRequiresMfa)
            && (a == Refused <==> !asked)
            && w.mfaTickets == (if asked && on then h.w.mfaTickets[ticket := Timed(u, te.at + 300_000)] else h.w.mfaTickets)
            && w.setupTickets == (if asked && !on && te.event.orgRequiresMfa then h.w.setupTickets[ticket := Timed(u, te.at + 600_000)]
                                  else h.w.setupTickets)
  {
  }

  /** A ticket once handed out keeps its time. */
  lemma TicketKeepsItsTime(h: History, te: Timely, kind: Kind, x: string, cfg: Config)
    requires Possible(h, te) && x in MintedFor(h, kind)
    ensures x in MintedFor(Next(h, te, cfg), kind)
    ensures x in Held(Next(h, te, cfg).w, kind) ==> x in Held(h.w, kind) && Held(Next(h, te, cfg).w, kind)[x] == Held(h.w, kind)[x]
  {
    if kind.Mfa? && !te.event.Login? && !te.event.MfaVerify? {
      MfaTicketsUntouched(h, te, cfg);
    }
    if kind.Setup? && !te.event.Login? && !te.event.Confirm? {
      SetupTicketsUntouched(h, te, cfg);
    }
  }

  lemma {:induction false} TicketKeepsItsTimeInRuns(h: History, evs: seq<Timely>, kind: Kind, x: string, cfg: Config)
    requires Feasible(h, evs, cfg) && x in MintedFor(h, kind)
    ensures x in Held(Run(h, evs, cfg).w, kind) ==> x in Held(h.w, kind) && Held(Run(h, evs, cfg).w, kind)[x] == Held(h.w, kind)[x]
    decreases |evs|
  {
    if evs != [] {
      TicketKeepsItsTime(h, evs[0], kind, x, cfg);
      TicketKeepsItsTimeInRuns(Next(h, evs[0], cfg), evs[1..], kind, x, cfg);
    }
  }

  /** A ticket serves for five minutes after the password was given, a setup ticket for ten, in every run. */
  lemma TicketsLastMinutes(h: History, login: Timely, evs: seq<Timely>, late: Timely, kind: Kind, x: string, cfg: Config)
    requires Possible(h, login) && Feasible(Next(h, login, cfg), evs, cfg)
    requires TurnOf(h, login, cfg).answer == if kind.Mfa? then MfaRequired(x) else MfaSetupRequired(x)
    requires Redeems(Run(Next(h, login, cfg), evs, cfg), late, kind, x, cfg)
    ensures late.at <= login.at + if kind.Mfa? then 300_000 else 600_000
    ensures TurnOf(Run(Next(h, login, cfg), evs, cfg), late, cfg).answer.token.userId == login.event.userId
  {
    assert login.event.Login?;
    TicketsMintedIff(h, login, cfg);
    TicketKeepsItsTimeInRuns(Next(h, login, cfg), evs, kind, x, cfg);
  }

  lemma ResetKeepsItsTime(h: History, te: Timely, x: string, cfg: Config)
    requires Possible(h, te) && x in h.resetFor
    ensures x in Next(h, te, cfg).resetFor
    ensures x in Next(h, te, cfg).w.resets ==> x in h.w.resets && Next(h, te, cfg).w.resets[x] == h.w.resets[x]
  {
    if !te.event.Forgot? && !te.event.ResetPassword? {
      ResetsUntouched(h, te, cfg);
    }
  }

  lemma {:induction false} ResetKeepsItsTimeInRuns(h: History, evs: seq<Timely>, x: string, cfg: Config)
    requires Feasible(h, evs, cfg) && x in h.resetFor
    ensures x in Run(h, evs, cfg).w.resets ==> x in h.w.resets && Run(h, evs, cfg).w.resets[x] == h.w.resets[x]
    decreases |evs|
  {
    if evs != [] {
      ResetKeepsItsTime(h, evs[0], x, cfg);
      ResetKeepsItsTimeInRuns(Next(h, evs[0], cfg), evs[1..], x, cfg);
    }
  }

  /** A reset token sets the password of the user it was asked for, and only before its time is over, in every run. */
  lemma ResetTokensLast(h: History, asked: Timely, evs: seq<Timely>, late: Timely, x: string, cfg: Config)
    requires Possible(h, asked) && asked.event.Forgot? && asked.event.hash == x && Feasible(Next(h, asked, cfg), evs, cfg)
    requires x !in h.w.resets && asked.event.userId in h.w.users
    requires Spends(Run(Next(h, asked, cfg), evs, cfg), late, x, cfg)
    ensures late.at < asked.at + cfg.resetTtl * 1000
    ensures var r := Run(Next(h, asked, cfg), evs, cfg); x in r.w.resets && r.w.resets[x].userId == asked.event.userId
  {
    ResetKeepsItsTimeInRuns(Next(h, asked, cfg), evs, x, cfg);
  }

  /** Asking for a reset is answered alike for every address, and stores a token for a known one only. */
  lemma ForgotAnswersAlike(h: History, te: Timely, cfg: Config)
    requires te.event.Forgot?
    ensures var turn, u, x := TurnOf(h, te, cfg), te.event.userId, te.event.hash;
            && turn.answer == Done
            && turn.world == if u in h.w.users then h.w.(resets := h.w.resets[x := Reset(u, te.at + cfg.resetTtl * 1000, false)]) else h.w
  {
  }

  // ---- What changes an account ----

  /** The event is made by this user: on a session in force, or on a setup ticket in time. */
  predicate MadeBy(h: History, who: Identity, at: int, userId: string) {
    match who
    case BySession(t) => t.userId == userId && InForce(h.w, t, at)
    case BySetupTicket(x) => x in h.w.setupTickets && at <= h.w.setupTickets[x].until && h.w.setupTickets[x].value == userId
  }

  /** The account after an event, by what the event needs. */
  function AccountAfter(h: History, te: Timely, userId: string): User
    requires userId in h.w.users
  {
    var u := h.w.users[userId];
    match te.event
    // A new password takes a token for the account, in time and unused, or the old password on a session in force.
    case ResetPassword(x, policyOk, password) =>
      if x in h.w.resets && !h.w.resets[x].consumed && te.at < h.w.resets[x].expiresAt && h.w.resets[x].userId == userId && policyOk
      then u.(passwordHash := password) else u
    case ChangePassword(t, currentOk, policyOk, password) =>
      if MadeBy(h, BySession(t), te.at, userId) && currentOk && policyOk then u.(passwordHash := password) else u
    // An enrolment switches the factor off, a confirmed code switches it on, and a code drops it.
    case Enroll(who, secret) =>
      if MadeBy(h, who, te.at, userId) then u.(totpSecret := Some(secret), totpEnabled := false) else u
    case Confirm(who, totpOk, hashes, _) =>
      if MadeBy(h, who, te.at, userId) && u.totpSecret.Some? && totpOk then u.(totpEnabled := true, backupCodeHashes := hashes) else u
    case Disable(t, totpOk) =>
      if MadeBy(h, BySession(t), te.at, userId) && u.totpEnabled && u.totpSecret.Some? && totpOk
      then u.(totpSecret := None, totpEnabled := false, backupCodeHashes := []) else u
    // A backup code is used up where the one-time code is wrong.
    case MfaVerify(ticket, totpOk, hash, _) =>
      if && ticket in h.w.mfaTickets && te.at <= h.w.mfaTickets[ticket].until && h.w.mfaTickets[ticket].value == userId
         && u.totpEnabled && u.totpSecret.Some? && !totpOk
      then u.(backupCodeHashes := Filter((code: string) => code != hash, u.backupCodeHashes)) else u
    case Suspend(who, suspended) => if who == userId then u.(suspended := suspended) else u
    case _ => u
  }

  /** A new account has the password given, no second factor, and is not suspended. */
  lemma SignupStores(h: History, te: Timely, cfg: Config)
    requires te.event.Signup?
    ensures Next(h, te, cfg).w.users == h.w.users[te.event.userId := User(te.event.passwordHash, None, false, [], false)]
  {
  }

  ghost predicate ChangesSo(h: History, te: Timely, userId: string, cfg: Config)
    requires userId in h.w.users
  {
    var users := Next(h, te, cfg).w.users;
    userId in users && users[userId] == AccountAfter(h, te, userId)
  }

  lemma PasswordChangesSo(h: History, te: Timely, userId: string, cfg: Config)
    requires userId in h.w.users && (te.event.ResetPassword? || te.event.ChangePassword?)
    ensures ChangesSo(h, te, userId, cfg)
  {
    if te.event.ChangePassword? {
      IdentifiedIffInForce(h.w, te.event.token, te.at);
    }
  }

  lemma EnrollingChangesSo(h: History, te: Timely, userId: string, cfg: Config)
    requires userId in h.w.users && te.event.Enroll?
    ensures ChangesSo(h, te, userId, cfg)
  {
    if te.event.who.BySession? {
      IdentifiedIffInForce(h.w, te.event.who.token, te.at);
    }
  }

  lemma ConfirmingChangesSo(h: History, te: Timely, userId: string, cfg: Config)
    requires userId in h.w.users && te.event.Confirm?
    ensures ChangesSo(h, te, userId, cfg)
  {
    if te.event.who.BySession? {
      IdentifiedIffInForce(h.w, te.event.who.token, te.at);
    }
  }

  lemma DisablingChangesSo(h: History, te: Timely, userId: string, cfg: Config)
    requires userId in h.w.users && te.event.Disable?
    ensures ChangesSo(h, te, userId, cfg)
  {
    IdentifiedIffInForce(h.w, te.event.token, te.at);
  }

  lemma VerifyingChangesSo(h: History, te: Timely, userId: string, cfg: Config)
    requires userId in h.w.users && te.event.MfaVerify?
    ensures ChangesSo(h, te, userId, cfg)
  {
    var codes, hash := h.w.users[userId].backupCodeHashes, te.event.hash;
    RemovedIffPresent(codes, hash);
    FilterAgrees(IsNot(hash), (code: string) => code != hash, codes, |codes|);
    if hash !in codes {
      FilterAll(IsNot(hash), codes, |codes|);
      assert codes[..|codes|] == codes;
    }
  }

  lemma SuspendingChangesSo(h: History, te: Timely, userId: string, cfg: Config)
    requires userId in h.w.users && te.event.Suspend?
    ensures ChangesSo(h, te, userId, cfg)
  {
  }

  /** Every change of an account, and what it takes; nothing else changes one. */
  lemma AccountChangesSo(h: History, te: Timely, userId: string, cfg: Config)
    requires Possible(h, te) && userId in h.w.users
    ensures ChangesSo(h, te, userId, cfg)
  {
    match te.event
    case ResetPassword(_, _, _) => PasswordChangesSo(h, te, userId, cfg);
    case ChangePassword(_, _, _, _) => PasswordChangesSo(h, te, userId, cfg);
    case Enroll(_, _) => EnrollingChangesSo(h, te, userId, cfg);
    case Confirm(_, _, _, _) => ConfirmingChangesSo(h, te, userId, cfg);
    case Disable(_, _) => DisablingChangesSo(h, te, userId, cfg);
    case MfaVerify(_, _, _, _) => VerifyingChangesSo(h, te, userId, cfg);
    case Suspend(_, _) => SuspendingChangesSo(h, te, userId, cfg);
    case Signup(_, _, _) =>
    case _ => UsersUntouched(h, te, cfg);
  }
}

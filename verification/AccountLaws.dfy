/** Single use over whole runs: reset tokens, tickets and backup codes. */
module AccountLaws {
  import opened Wrappers
  import opened Sequences
  import opened Sessions
  import opened Accounts

  datatype Event =
    | Signup(userId: string, passwordHash: string, draw: Draw)
    | Login(userId: string, passwordOk: bool, orgRequiresMfa: bool, draw: Draw)
    | MfaVerify(ticket: string, totpOk: bool, hash: string, draw: Draw)
    | Enroll(who: Identity, secret: string)
    | Confirm(who: Identity, totpOk: bool, hashes: seq<string>, draw: Draw)
    | Disable(token: Token, totpOk: bool)
    | Forgot(userId: string, hash: string)
    | ResetPassword(hash: string, policyOk: bool, passwordHash: string)
    | ChangePassword(token: Token, currentOk: bool, policyOk: bool, passwordHash: string)
    | RevokeOthers(token: Token)
    | RevokeOne(token: Token, jti: string)
    | Logout(token: Token)
    | Suspend(userId: string, suspended: bool)

  function Take(w: World, ev: Event, now: int, cfg: Config): Turn {
    match ev
    case Signup(userId, passwordHash, draw) => SignupTurn(w, userId, passwordHash, draw, now, cfg)
    case Login(userId, passwordOk, orgRequiresMfa, draw) => LoginTurn(w, userId, passwordOk, orgRequiresMfa, draw, now, cfg)
    case MfaVerify(ticket, totpOk, hash, draw) => MfaVerifyTurn(w, ticket, totpOk, hash, draw, now, cfg)
    case Enroll(who, secret) => EnrollTurn(w, who, secret, now)
    case Confirm(who, totpOk, hashes, draw) => ConfirmTurn(w, who, totpOk, hashes, draw, now, cfg)
    case Disable(token, totpOk) => DisableTurn(w, token, totpOk, now)
    case Forgot(userId, hash) => ForgotTurn(w, userId, hash, now, cfg)
    case ResetPassword(hash, policyOk, passwordHash) => ResetTurn(w, hash, policyOk, passwordHash, now, cfg)
    case ChangePassword(token, currentOk, policyOk, passwordHash) =>
      ChangePasswordTurn(w, token, currentOk, policyOk, passwordHash, now, cfg)
    case RevokeOthers(token) => RevokeOthersTurn(w, token, now, cfg)
    case RevokeOne(token, jti) => RevokeOneTurn(w, token, jti, now, cfg)
    case Logout(token) => LogoutTurn(w, token, now, cfg)
    case Suspend(userId, suspended) => SuspendTurn(w, userId, suspended)
  }

  /** The world at a time, with the history of what was handed out, and to whom. */
  datatype History = History(
    w: World,
    now: int,
    sessions: map<string, Token>,
    mfaFor: map<string, string>,
    setupFor: map<string, string>,
    resetFor: map<string, string>
  )

  datatype Timely = Timely(event: Event, at: int)

  function Drawn(ev: Event): Option<Draw> {
    match ev
    case Signup(_, _, draw) => Some(draw)
    case Login(_, _, _, draw) => Some(draw)
    case MfaVerify(_, _, _, draw) => Some(draw)
    case Confirm(_, _, _, draw) => Some(draw)
    case _ => None
  }

  /** The session a request is made with, if any. */
  function Shown(ev: Event): Option<Token> {
    match ev
    case Enroll(BySession(t), _) => Some(t)
    case Confirm(BySession(t), _, _, _) => Some(t)
    case Disable(t, _) => Some(t)
    case ChangePassword(t, _, _, _) => Some(t)
    case RevokeOthers(t) => Some(t)
    case RevokeOne(t, _) => Some(t)
    case Logout(t) => Some(t)
    case _ => None
  }

  /** Time does not run backwards, random identifiers are new, and only tokens once issued carry a valid signature. */
  predicate Possible(h: History, te: Timely) {
    var ev := te.event;
    && h.now <= te.at
    && (Drawn(ev).Some? ==>
          && Drawn(ev).value.jti !in h.sessions
          && Drawn(ev).value.ticket !in h.mfaFor && Drawn(ev).value.ticket !in h.setupFor)
    && (ev.Forgot? ==> ev.hash !in h.resetFor)
    && (ev.Signup? ==> ev.userId !in h.w.users)
    && (Shown(ev).Some? ==> Shown(ev).value.jti in h.sessions && h.sessions[Shown(ev).value.jti] == Shown(ev).value)
  }

  function TurnOf(h: History, te: Timely, cfg: Config): Turn { Take(h.w, te.event, te.at, cfg) }

  function Next(h: History, te: Timely, cfg: Config): History {
    var Turn(w, a) := TurnOf(h, te, cfg);
    History(w, te.at,
            if a.SignedIn? then h.sessions[a.token.jti := a.token] else h.sessions,
            if a.MfaRequired? then h.mfaFor[a.ticket := te.event.userId] else h.mfaFor,
            if a.MfaSetupRequired? then h.setupFor[a.setupTicket := te.event.userId] else h.setupFor,
            if te.event.Forgot? && te.event.userId in h.w.users then h.resetFor[te.event.hash := te.event.userId] else h.resetFor)
  }

  predicate Feasible(h: History, evs: seq<Timely>, cfg: Config)
    decreases |evs|
  {
    evs == [] || (Possible(h, evs[0]) && Feasible(Next(h, evs[0], cfg), evs[1..], cfg))
  }

  function Run(h: History, evs: seq<Timely>, cfg: Config): History
    decreases |evs|
  {
    if evs == [] then h else Run(Next(h, evs[0], cfg), evs[1..], cfg)
  }

  predicate IsNew(h: History) {
    && h.w == World(map[], map[], map[], map[], Board(map[], map[]))
    && h.sessions == map[] && h.mfaFor == map[] && h.setupFor == map[] && h.resetFor == map[]
  }

  // ---- Reset tokens ----

  ghost predicate ResetsKnown(h: History) {
    forall x :: x in h.w.resets ==> x in h.resetFor && h.w.resets[x].userId == h.resetFor[x]
  }

  predicate ResetGone(h: History, x: string) { x in h.resetFor && x !in h.w.resets }

  lemma ResetRowAfter(h: History, te: Timely, x: string, cfg: Config)
    requires ResetsKnown(h) && Possible(h, te)
    ensures var r := Next(h, te, cfg);
            && (x in r.w.resets ==> x in r.resetFor && r.w.resets[x].userId == r.resetFor[x])
            && (x in h.resetFor ==> x in r.resetFor && r.resetFor[x] == h.resetFor[x])
            && (ResetGone(h, x) ==> ResetGone(r, x))
  {
    if !te.event.Forgot? && !te.event.ResetPassword? {
      ResetsUntouched(h, te, cfg);
    }
  }

  lemma ResetsUntouched(h: History, te: Timely, cfg: Config)
    requires !te.event.Forgot? && !te.event.ResetPassword?
    ensures var r := Next(h, te, cfg); r.w.resets == h.w.resets && r.resetFor == h.resetFor
  {
  }

  lemma NextKeepsResets(h: History, te: Timely, cfg: Config)
    requires ResetsKnown(h) && Possible(h, te)
    ensures ResetsKnown(Next(h, te, cfg))
    ensures forall x :: ResetGone(h, x) ==> ResetGone(Next(h, te, cfg), x)
  {
    var r := Next(h, te, cfg);
    forall x
      ensures x in r.w.resets ==> x in r.resetFor && r.w.resets[x].userId == r.resetFor[x]
      ensures ResetGone(h, x) ==> ResetGone(r, x)
    {
      ResetRowAfter(h, te, x, cfg);
    }
  }

  /** The event sets a password by the token with this fingerprint. */
  predicate Spends(h: History, te: Timely, x: string, cfg: Config) {
    te.event.ResetPassword? && te.event.hash == x && TurnOf(h, te, cfg).answer.Done?
  }

  /** A reset needs a token handed out to that user, and is the end of every token of that user. */
  lemma ResetSpendsAll(h: History, te: Timely, x: string, y: string, cfg: Config)
    requires ResetsKnown(h) && Possible(h, te) && Spends(h, te, x, cfg)
    ensures x in h.resetFor && x in h.w.resets
    ensures y in h.resetFor && h.resetFor[y] == h.resetFor[x] ==> ResetGone(Next(h, te, cfg), y)
    ensures var w, u := Next(h, te, cfg).w, h.resetFor[x];
            && u in h.w.users && w.users == h.w.users[u := h.w.users[u].(passwordHash := te.event.passwordHash)]
  {
  }

  /** How often a token sets a password in a run. */
  function Uses(h: History, evs: seq<Timely>, x: string, cfg: Config): nat
    decreases |evs|
  {
    if evs == [] then 0
    else (if Spends(h, evs[0], x, cfg) then 1 else 0) + Uses(Next(h, evs[0], cfg), evs[1..], x, cfg)
  }

  lemma {:induction false} GoneIsUseless(h: History, evs: seq<Timely>, x: string, cfg: Config)
    requires ResetsKnown(h) && Feasible(h, evs, cfg) && ResetGone(h, x)
    ensures Uses(h, evs, x, cfg) == 0
    decreases |evs|
  {
    if evs != [] {
      if Spends(h, evs[0], x, cfg) {
        ResetSpendsAll(h, evs[0], x, x, cfg);
      }
      NextKeepsResets(h, evs[0], cfg);
      GoneIsUseless(Next(h, evs[0], cfg), evs[1..], x, cfg);
    }
  }

  /** In every run a reset token sets a password at most once. */
  lemma {:induction false} ResetTokensWorkOnce(h: History, evs: seq<Timely>, x: string, cfg: Config)
    requires ResetsKnown(h) && Feasible(h, evs, cfg)
    ensures Uses(h, evs, x, cfg) <= 1
    decreases |evs|
  {
    if evs != [] {
      NextKeepsResets(h, evs[0], cfg);
      if Spends(h, evs[0], x, cfg) {
        ResetSpendsAll(h, evs[0], x, x, cfg);
        GoneIsUseless(Next(h, evs[0], cfg), evs[1..], x, cfg);
      } else {
        ResetTokensWorkOnce(Next(h, evs[0], cfg), evs[1..], x, cfg);
      }
    }
  }

  /** After a successful reset no token handed out to that user before is ever of use again. */
  lemma EarlierTokensAreUseless(h: History, te: Timely, x: string, y: string, evs: seq<Timely>, cfg: Config)
    requires ResetsKnown(h) && Possible(h, te) && Spends(h, te, x, cfg) && x in h.resetFor
    requires y in h.resetFor && h.resetFor[y] == h.resetFor[x]
    requires Feasible(Next(h, te, cfg), evs, cfg)
    ensures Uses(Next(h, te, cfg), evs, y, cfg) == 0
  {
    ResetSpendsAll(h, te, x, y, cfg);
    NextKeepsResets(h, te, cfg);
    GoneIsUseless(Next(h, te, cfg), evs, y, cfg);
  }

  // ---- Tickets ----

  datatype Kind = Mfa | Setup

  function Held(w: World, kind: Kind): map<string, Timed<string>> { if kind.Mfa? then w.mfaTickets else w.setupTickets }

  function MintedFor(h: History, kind: Kind): map<string, string> { if kind.Mfa? then h.mfaFor else h.setupFor }

  ghost predicate TicketsKnown(h: History, kind: Kind) {
    forall x :: x in Held(h.w, kind) ==> x in MintedFor(h, kind) && Held(h.w, kind)[x].value == MintedFor(h, kind)[x]
  }

  predicate TicketGone(h: History, kind: Kind, x: string) { x in MintedFor(h, kind) && x !in Held(h.w, kind) }

  lemma MfaTicketAfter(h: History, te: Timely, x: string, cfg: Config)
    requires TicketsKnown(h, Mfa) && Possible(h, te)
    ensures var r := Next(h, te, cfg);
            && (x in r.w.mfaTickets ==> x in r.mfaFor && r.w.mfaTickets[x].value == r.mfaFor[x])
            && (x in h.mfaFor && x !in h.w.mfaTickets ==> x in r.mfaFor && x !in r.w.mfaTickets)
  {
    assert Held(h.w, Mfa) == h.w.mfaTickets && MintedFor(h, Mfa) == h.mfaFor;
    if !te.event.Login? && !te.event.MfaVerify? {
      MfaTicketsUntouched(h, te, cfg);
    }
  }

  lemma MfaTicketsUntouched(h: History, te: Timely, cfg: Config)
    requires !te.event.Login? && !te.event.MfaVerify?
    ensures var r := Next(h, te, cfg); r.w.mfaTickets == h.w.mfaTickets && r.mfaFor == h.mfaFor
  {
  }

  lemma SetupTicketAfter(h: History, te: Timely, x: string, cfg: Config)
    requires TicketsKnown(h, Setup) && Possible(h, te)
    ensures var r := Next(h, te, cfg);
            && (x in r.w.setupTickets ==> x in r.setupFor && r.w.setupTickets[x].value == r.setupFor[x])
            && (x in h.setupFor && x !in h.w.setupTickets ==> x in r.setupFor && x !in r.w.setupTickets)
  {
    assert Held(h.w, Setup) == h.w.setupTickets && MintedFor(h, Setup) == h.setupFor;
    if !te.event.Login? && !te.event.Confirm? {
      SetupTicketsUntouched(h, te, cfg);
    }
  }

  lemma SetupTicketsUntouched(h: History, te: Timely, cfg: Config)
    requires !te.event.Login? && !te.event.Confirm?
    ensures var r := Next(h, te, cfg); r.w.setupTickets == h.w.setupTickets && r.setupFor == h.setupFor
  {
  }

  lemma NextKeepsTickets(h: History, te: Timely, kind: Kind, cfg: Config)
    requires TicketsKnown(h, kind) && Possible(h, te)
    ensures TicketsKnown(Next(h, te, cfg), kind)
    ensures forall x :: TicketGone(h, kind, x) ==> TicketGone(Next(h, te, cfg), kind, x)
  {
    var r := Next(h, te, cfg);
    forall x
      ensures x in Held(r.w, kind) ==> x in MintedFor(r, kind) && Held(r.w, kind)[x].value == MintedFor(r, kind)[x]
      ensures TicketGone(h, kind, x) ==> TicketGone(r, kind, x)
    {
      if kind.Mfa? {
        MfaTicketAfter(h, te, x, cfg);
      } else {
        SetupTicketAfter(h, te, x, cfg);
      }
    }
  }

  /** The event presents this ticket and is answered with a session. */
  predicate Redeems(h: History, te: Timely, kind: Kind, x: string, cfg: Config) {
    && TurnOf(h, te, cfg).answer.SignedIn?
    && if kind.Mfa? then te.event.MfaVerify? && te.event.ticket == x
       else te.event.Confirm? && te.event.who == BySetupTicket(x)
  }

  /** A ticket yields a session of the user it was minted for only, and is spent by it. */
  lemma RedeemedForItsUser(h: History, te: Timely, kind: Kind, x: string, cfg: Config)
    requires TicketsKnown(h, kind) && Possible(h, te) && Redeems(h, te, kind, x, cfg)
    ensures x in MintedFor(h, kind) && x in Held(h.w, kind) && te.at <= Held(h.w, kind)[x].until
    ensures TurnOf(h, te, cfg).answer.token.userId == MintedFor(h, kind)[x]
    ensures TicketGone(Next(h, te, cfg), kind, x)
  {
  }

  function Redemptions(h: History, evs: seq<Timely>, kind: Kind, x: string, cfg: Config): nat
    decreases |evs|
  {
    if evs == [] then 0
    else (if Redeems(h, evs[0], kind, x, cfg) then 1 else 0) + Redemptions(Next(h, evs[0], cfg), evs[1..], kind, x, cfg)
  }

  lemma {:induction false} SpentTicketIsUseless(h: History, evs: seq<Timely>, kind: Kind, x: string, cfg: Config)
    requires TicketsKnown(h, kind) && Feasible(h, evs, cfg) && TicketGone(h, kind, x)
    ensures Redemptions(h, evs, kind, x, cfg) == 0
    decreases |evs|
  {
    if evs != [] {
      if Redeems(h, evs[0], kind, x, cfg) {
        RedeemedForItsUser(h, evs[0], kind, x, cfg);
      }
      NextKeepsTickets(h, evs[0], kind, cfg);
      SpentTicketIsUseless(Next(h, evs[0], cfg), evs[1..], kind, x, cfg);
    }
  }

  /** In every run a ticket of either kind yields at most one session. */
  lemma {:induction false} TicketsWorkOnce(h: History, evs: seq<Timely>, kind: Kind, x: string, cfg: Config)
    requires TicketsKnown(h, kind) && Feasible(h, evs, cfg)
    ensures Redemptions(h, evs, kind, x, cfg) <= 1
    decreases |evs|
  {
    if evs != [] {
      NextKeepsTickets(h, evs[0], kind, cfg);
      if Redeems(h, evs[0], kind, x, cfg) {
        RedeemedForItsUser(h, evs[0], kind, x, cfg);
        SpentTicketIsUseless(Next(h, evs[0], cfg), evs[1..], kind, x, cfg);
      } else {
        TicketsWorkOnce(Next(h, evs[0], cfg), evs[1..], kind, x, cfg);
      }
    }
  }

  // ---- Backup codes ----

  /** The event is accepted on the strength of this backup code of the user. */
  predicate AcceptsCode(h: History, te: Timely, userId: string, hash: string, cfg: Config) {
    && te.event.MfaVerify? && !te.event.totpOk && te.event.hash == hash
    && TurnOf(h, te, cfg).answer == SignedIn(Signed(userId, te.event.draw.jti, te.at, cfg.lifetime))
  }

  function Codes(h: History, userId: string): seq<string> {
    if userId in h.w.users then h.w.users[userId].backupCodeHashes else []
  }

  /** The event gives the user a new set of codes: a confirmation that is not refused. */
  predicate Regenerates(h: History, te: Timely, userId: string, cfg: Config) {
    te.event.Confirm? && Identified(h.w, te.event.who, te.at) == Some(userId) && !TurnOf(h, te, cfg).answer.Refused?
  }

  /** A refused event, a mistyped confirmation among them, changes nothing at all. */
  lemma RefusedChangesNothing(h: History, te: Timely, cfg: Config)
    requires TurnOf(h, te, cfg).answer.Refused?
    ensures Next(h, te, cfg).w == h.w
  {
  }

  /** And a confirmation that is not refused does give exactly the new codes. */
  lemma RegeneratesNewCodes(h: History, te: Timely, userId: string, cfg: Config)
    requires Regenerates(h, te, userId, cfg)
    ensures Codes(Next(h, te, cfg), userId) == te.event.hashes
  {
  }

  /** Acceptance takes every copy of the code out: the set shrinks, and by nothing else. */
  lemma AcceptedCodeIsRemoved(h: History, te: Timely, userId: string, hash: string, cfg: Config)
    requires AcceptsCode(h, te, userId, hash, cfg)
    ensures var r := Next(h, te, cfg);
            && hash in Codes(h, userId) && hash !in Codes(r, userId)
            && |Codes(r, userId)| < |Codes(h, userId)|
            && forall c :: c != hash ==> (c in Codes(r, userId) <==> c in Codes(h, userId))
  {
    var codes := Codes(h, userId);
    var at := FilterEmbeds(IsNot(hash), codes);
    forall c
      ensures c in Without(codes, hash) <==> c in codes && c != hash
    {
      FilterMembers(IsNot(hash), codes, c);
    }
    if hash !in codes {
      FilterAll(IsNot(hash), codes, |codes|);
    }
  }

  lemma VerifyOnlyShrinksCodes(h: History, te: Timely, userId: string, c: string, cfg: Config)
    requires te.event.MfaVerify? && c !in Codes(h, userId)
    ensures c !in Codes(Next(h, te, cfg), userId)
  {
    FilterMembers(IsNot(te.event.hash), Codes(h, userId), c);
  }

  /** Between two generations no event adds a code. */
  lemma CodesOnlyShrink(h: History, te: Timely, userId: string, c: string, cfg: Config)
    requires Possible(h, te) && !Regenerates(h, te, userId, cfg) && c !in Codes(h, userId)
    ensures c !in Codes(Next(h, te, cfg), userId)
  {
    if te.event.MfaVerify? {
      VerifyOnlyShrinksCodes(h, te, userId, c, cfg);
    } else {
      UserAfter(h, te, userId, cfg);
    }
  }

  /** Other events either leave a user's codes alone or empty them. */
  lemma UserAfter(h: History, te: Timely, userId: string, cfg: Config)
    requires Possible(h, te) && !Regenerates(h, te, userId, cfg) && !te.event.MfaVerify?
    ensures var r := Next(h, te, cfg); Codes(r, userId) == Codes(h, userId) || Codes(r, userId) == []
  {
    if !te.event.Signup? && !te.event.Confirm? && !te.event.Disable? {
      CodesUntouched(h, te, userId, cfg);
    } else if TurnOf(h, te, cfg).answer.Refused? {
      RefusedChangesNothing(h, te, cfg);
    }
  }

  lemma CodesUntouched(h: History, te: Timely, userId: string, cfg: Config)
    requires !te.event.Signup? && !te.event.MfaVerify? && !te.event.Confirm? && !te.event.Disable?
    ensures Codes(Next(h, te, cfg), userId) == Codes(h, userId)
  {
    var ev := te.event;
    if ev.Login? || ev.Forgot? || ev.RevokeOthers? || ev.RevokeOne? || ev.Logout? {
      UsersUntouched(h, te, cfg);
    }
  }

  lemma UsersUntouched(h: History, te: Timely, cfg: Config)
    requires var ev := te.event; ev.Login? || ev.Forgot? || ev.RevokeOthers? || ev.RevokeOne? || ev.Logout?
    ensures Next(h, te, cfg).w.users == h.w.users
  {
  }

  predicate NoNewCodes(h: History, evs: seq<Timely>, userId: string, cfg: Config)
    decreases |evs|
  {
    evs == [] || (!Regenerates(h, evs[0], userId, cfg) && NoNewCodes(Next(h, evs[0], cfg), evs[1..], userId, cfg))
  }

  function Acceptances(h: History, evs: seq<Timely>, userId: string, hash: string, cfg: Config): nat
    decreases |evs|
  {
    if evs == [] then 0
    else (if AcceptsCode(h, evs[0], userId, hash, cfg) then 1 else 0) + Acceptances(Next(h, evs[0], cfg), evs[1..], userId, hash, cfg)
  }

  lemma {:induction false} AbsentCodeIsUseless(h: History, evs: seq<Timely>, userId: string, hash: string, cfg: Config)
    requires Feasible(h, evs, cfg) && NoNewCodes(h, evs, userId, cfg) && hash !in Codes(h, userId)
    ensures Acceptances(h, evs, userId, hash, cfg) == 0
    decreases |evs|
  {
    if evs != [] {
      if AcceptsCode(h, evs[0], userId, hash, cfg) {
        AcceptedCodeIsRemoved(h, evs[0], userId, hash, cfg);
      }
      CodesOnlyShrink(h, evs[0], userId, hash, cfg);
      AbsentCodeIsUseless(Next(h, evs[0], cfg), evs[1..], userId, hash, cfg);
    }
  }

  /** Within one generation a backup code is accepted at most once, even if the set holds it twice. */
  lemma {:induction false} BackupCodesWorkOnce(h: History, evs: seq<Timely>, userId: string, hash: string, cfg: Config)
    requires Feasible(h, evs, cfg) && NoNewCodes(h, evs, userId, cfg)
    ensures Acceptances(h, evs, userId, hash, cfg) <= 1
    decreases |evs|
  {
    if evs != [] {
      if AcceptsCode(h, evs[0], userId, hash, cfg) {
        AcceptedCodeIsRemoved(h, evs[0], userId, hash, cfg);
        AbsentCodeIsUseless(Next(h, evs[0], cfg), evs[1..], userId, hash, cfg);
      } else {
        BackupCodesWorkOnce(Next(h, evs[0], cfg), evs[1..], userId, hash, cfg);
      }
    }
  }

  // ---- The second factor ----

  ghost predicate SecretsKept(h: History) {
    forall u :: u in h.w.users && h.w.users[u].totpEnabled ==> h.w.users[u].totpSecret.Some?
  }

  lemma {:induction false} RunKeepsSecrets(h: History, evs: seq<Timely>, cfg: Config)
    requires SecretsKept(h) && Feasible(h, evs, cfg)
    ensures SecretsKept(Run(h, evs, cfg))
    decreases |evs|
  {
    if evs != [] {
      NextKeepsSecrets(h, evs[0], cfg);
      RunKeepsSecrets(Next(h, evs[0], cfg), evs[1..], cfg);
    }
  }

  lemma NextKeepsSecrets(h: History, te: Timely, cfg: Config)
    requires SecretsKept(h)
    ensures SecretsKept(Next(h, te, cfg))
  {
  }

  /** In every reachable state a password alone never signs in a user whose second factor is on. */
  lemma PasswordAloneIsNotEnough(h: History, evs: seq<Timely>, te: Timely, cfg: Config)
    requires IsNew(h) && Feasible(h, evs, cfg)
    requires te.event.Login?
    ensures var r := Run(h, evs, cfg);
            te.event.userId in r.w.users && r.w.users[te.event.userId].totpEnabled ==> !TurnOf(r, te, cfg).answer.SignedIn?
  {
    RunKeepsSecrets(h, evs, cfg);
  }

  /** Until it is confirmed, a new enrolment switches the second factor off: the password signs in again. */
  lemma EnrollingSwitchesOff(h: History, te: Timely, login: Timely, cfg: Config)
    requires te.event.Enroll? && TurnOf(h, te, cfg).answer.Done?
    requires login.event.Login? && login.event.passwordOk && !login.event.orgRequiresMfa
    requires Identified(h.w, te.event.who, te.at) == Some(login.event.userId) && !h.w.users[login.event.userId].suspended
    ensures TurnOf(Next(h, te, cfg), login, cfg).answer.SignedIn?
  {
  }

  // ---- When the second factor can be passed by ----

  predicate FactorOn(h: History, userId: string) {
    userId in h.w.users && h.w.users[userId].totpEnabled && h.w.users[userId].totpSecret.Some?
  }

  /** A setup ticket of this user can still be used. */
  predicate SetupOpen(h: History, userId: string) {
    exists x :: x in h.w.setupTickets && h.w.setupTickets[x].value == userId && h.now <= h.w.setupTickets[x].until
  }

  predicate IssuesTo(h: History, te: Timely, userId: string, cfg: Config) {
    TurnOf(h, te, cfg).answer.SignedIn? && TurnOf(h, te, cfg).answer.token.userId == userId
  }

  /** The event rests on the factor in force, or on a session of the user. */
  predicate RestsOnFactor(h: History, te: Timely, userId: string, cfg: Config) {
    || (te.event.MfaVerify? && IssuesTo(h, te, userId, cfg))
    || (te.event.Confirm? && te.event.totpOk && FactorOn(h, userId) && Identified(h.w, te.event.who, te.at) == Some(userId))
    || (Shown(te.event).Some? && Shown(te.event).value.userId == userId)
  }

  predicate NeverRests(h: History, evs: seq<Timely>, userId: string, cfg: Config)
    decreases |evs|
  {
    evs == [] || (!RestsOnFactor(h, evs[0], userId, cfg) && NeverRests(Next(h, evs[0], cfg), evs[1..], userId, cfg))
  }

  predicate SignsInDuring(h: History, evs: seq<Timely>, userId: string, cfg: Config)
    decreases |evs|
  {
    evs != [] && (IssuesTo(h, evs[0], userId, cfg) || SignsInDuring(Next(h, evs[0], cfg), evs[1..], userId, cfg))
  }

  /** A run that rests neither on the factor in force nor on a session of the user, and signs the user in. */
  ghost predicate PassesFactorBy(h: History, userId: string, cfg: Config) {
    exists evs :: Feasible(h, evs, cfg) && NeverRests(h, evs, userId, cfg) && SignsInDuring(h, evs, userId, cfg)
  }

  /** A setup ticket was there before, or is minted by a login of a user whose factor is not on. */
  lemma SetupTicketFrom(h: History, te: Timely, x: string, cfg: Config)
    requires x in Next(h, te, cfg).w.setupTickets
    ensures var t := Next(h, te, cfg).w.setupTickets[x];
            || (x in h.w.setupTickets && h.w.setupTickets[x] == t)
            || (te.event.Login? && te.event.userId == t.value && !FactorOn(h, t.value))
  {
    if !te.event.Login? && !te.event.Confirm? {
      SetupTicketsUntouched(h, te, cfg);
    }
  }

  lemma NoTicketOpens(h: History, te: Timely, userId: string, cfg: Config)
    requires FactorOn(h, userId) && !SetupOpen(h, userId) && Possible(h, te)
    ensures !SetupOpen(Next(h, te, cfg), userId)
  {
    var r := Next(h, te, cfg);
    forall x | x in r.w.setupTickets && r.w.setupTickets[x].value == userId
      ensures r.w.setupTickets[x].until < r.now
    {
      SetupTicketFrom(h, te, x, cfg);
    }
  }

  /** Nobody is known as this user but by a session of the user's own. */
  lemma IdentifiedBySession(h: History, who: Identity, at: int, userId: string)
    requires !SetupOpen(h, userId) && h.now <= at && Identified(h.w, who, at) == Some(userId)
    ensures who.BySession? && who.token.userId == userId
  {
  }

  lemma EnrolmentSparesFactor(h: History, te: Timely, userId: string, cfg: Config)
    requires te.event.Enroll? || te.event.Confirm?
    requires FactorOn(h, userId) && !SetupOpen(h, userId) && Possible(h, te) && !RestsOnFactor(h, te, userId, cfg)
    ensures FactorOn(Next(h, te, cfg), userId)
  {
    if Identified(h.w, te.event.who, te.at) == Some(userId) {
      IdentifiedBySession(h, te.event.who, te.at, userId);
    }
  }

  lemma VerifyingSparesFactor(h: History, te: Timely, userId: string, cfg: Config)
    requires te.event.MfaVerify? && FactorOn(h, userId)
    ensures FactorOn(Next(h, te, cfg), userId)
  {
  }

  lemma FactorStaysOn(h: History, te: Timely, userId: string, cfg: Config)
    requires FactorOn(h, userId) && !SetupOpen(h, userId) && Possible(h, te) && !RestsOnFactor(h, te, userId, cfg)
    ensures FactorOn(Next(h, te, cfg), userId)
  {
    var ev := te.event;
    if ev.Login? || ev.Forgot? || ev.RevokeOthers? || ev.RevokeOne? || ev.Logout? {
      UsersUntouched(h, te, cfg);
    } else if ev.Enroll? || ev.Confirm? {
      EnrolmentSparesFactor(h, te, userId, cfg);
    } else if ev.MfaVerify? {
      VerifyingSparesFactor(h, te, userId, cfg);
    }
  }

  lemma NoSessionIssued(h: History, te: Timely, userId: string, cfg: Config)
    requires FactorOn(h, userId) && !SetupOpen(h, userId) && Possible(h, te) && !RestsOnFactor(h, te, userId, cfg)
    ensures !IssuesTo(h, te, userId, cfg)
  {
    if te.event.Confirm? && Identified(h.w, te.event.who, te.at) == Some(userId) {
      IdentifiedBySession(h, te.event.who, te.at, userId);
    }
  }

  /** Without an open setup ticket no run of such events signs the user in. */
  lemma {:induction false} GuardHoldsThroughout(h: History, evs: seq<Timely>, userId: string, cfg: Config)
    requires FactorOn(h, userId) && !SetupOpen(h, userId) && Feasible(h, evs, cfg) && NeverRests(h, evs, userId, cfg)
    ensures !SignsInDuring(h, evs, userId, cfg)
    decreases |evs|
  {
    if evs != [] {
      NoSessionIssued(h, evs[0], userId, cfg);
      FactorStaysOn(h, evs[0], userId, cfg);
      NoTicketOpens(h, evs[0], userId, cfg);
      GuardHoldsThroughout(Next(h, evs[0], cfg), evs[1..], userId, cfg);
    }
  }

  /** With an open setup ticket a new enrolment and its confirmation sign the user in. */
  lemma OpenTicketSignsIn(h: History, userId: string, x: string, draw: Draw, cfg: Config)
    requires FactorOn(h, userId)
    requires x in h.w.setupTickets && h.w.setupTickets[x].value == userId && h.now <= h.w.setupTickets[x].until
    requires draw.jti !in h.sessions && draw.ticket !in h.mfaFor && draw.ticket !in h.setupFor
    ensures PassesFactorBy(h, userId, cfg)
  {
    var enroll, confirm := Timely(Enroll(BySetupTicket(x), ""), h.now), Timely(Confirm(BySetupTicket(x), true, [], draw), h.now);
    var evs := [enroll, confirm];
    assert evs[1..] == [confirm] && evs[1..][1..] == [];
    var h1 := Next(h, enroll, cfg);
    assert !FactorOn(h1, userId) && Possible(h, enroll) && Possible(h1, confirm);
    assert Feasible(h1, [confirm], cfg) && NeverRests(h1, [confirm], userId, cfg) && SignsInDuring(h1, [confirm], userId, cfg);
    assert Feasible(h, evs, cfg) && NeverRests(h, evs, userId, cfg) && SignsInDuring(h, evs, userId, cfg);
  }

  /** A session of a user whose factor is on can arise without that factor exactly if a setup ticket of the user is open. */
  lemma FactorIsPassedByIff(h: History, userId: string, draw: Draw, cfg: Config)
    requires FactorOn(h, userId)
    requires draw.jti !in h.sessions && draw.ticket !in h.mfaFor && draw.ticket !in h.setupFor
    ensures PassesFactorBy(h, userId, cfg) <==> SetupOpen(h, userId)
  {
    if SetupOpen(h, userId) {
      var x :| x in h.w.setupTickets && h.w.setupTickets[x].value == userId && h.now <= h.w.setupTickets[x].until;
      OpenTicketSignsIn(h, userId, x, draw, cfg);
    } else {
      forall evs | Feasible(h, evs, cfg) && NeverRests(h, evs, userId, cfg)
        ensures !SignsInDuring(h, evs, userId, cfg)
      {
        GuardHoldsThroughout(h, evs, userId, cfg);
      }
    }
  }
}

/** The account protocol: sign-in with a second factor, enrolment, password change and reset, sign-out. */
module Accounts {
  import opened Wrappers
  import opened Sequences
  import opened Sessions

  datatype User = User(
    passwordHash: string,
    totpSecret: Option<string>,
    totpEnabled: bool,
    backupCodeHashes: seq<string>,
    suspended: bool
  )

  datatype Reset = Reset(userId: string, expiresAt: int, consumed: bool)

  /** Tickets name the user they were minted for. */
  datatype World = World(
    users: map<string, User>,
    resets: map<string, Reset>,
    mfaTickets: map<string, Timed<string>>,
    setupTickets: map<string, Timed<string>>,
    board: Board
  )

  datatype Answer = SignedIn(token: Token) | MfaRequired(ticket: string) | MfaSetupRequired(setupTicket: string) | Done | Refused

  datatype Turn = Turn(world: World, answer: Answer)

  datatype Config = Config(lifetime: nat, resetTtl: nat)

  const MFA_TICKET_MS: int := 300_000
  const SETUP_TICKET_MS: int := 600_000

  /** The identifiers a request draws: random, so never drawn before. */
  datatype Draw = Draw(jti: string, ticket: string)

  /** A caller is known by a session or, when enrolling, by a setup ticket. */
  datatype Identity = BySession(token: Token) | BySetupTicket(ticket: string)

  // ---- The rules ----

  function SignIn(w: World, userId: string, draw: Draw, now: int, cfg: Config): Turn {
    Turn(w.(board := Issued(w.board, userId, draw.jti, now, cfg.lifetime)),
         SignedIn(Signed(userId, draw.jti, now, cfg.lifetime)))
  }

  function Refuse(w: World): Turn { Turn(w, Refused) }

  function WithUser(w: World, userId: string, u: User): World { w.(users := w.users[userId := u]) }

  function SignupTurn(w: World, userId: string, passwordHash: string, draw: Draw, now: int, cfg: Config): Turn {
    SignIn(WithUser(w, userId, User(passwordHash, None, false, [], false)), userId, draw, now, cfg)
  }

  /** An operator suspends an account or lets it back in. */
  function SuspendTurn(w: World, userId: string, suspended: bool): Turn {
    if userId !in w.users then Refuse(w)
    else Turn(WithUser(w, userId, w.users[userId].(suspended := suspended)), Done)
  }

  /** `passwordOk` is the verdict on the password, `orgRequiresMfa` that of the user's organizations. */
  function LoginTurn(w: World, userId: string, passwordOk: bool, orgRequiresMfa: bool, draw: Draw, now: int, cfg: Config): Turn {
    if userId !in w.users || !passwordOk || w.users[userId].suspended then Refuse(w)
    else if w.users[userId].totpEnabled && w.users[userId].totpSecret.Some? then
      Turn(w.(mfaTickets := w.mfaTickets[draw.ticket := Timed(userId, now + MFA_TICKET_MS)]), MfaRequired(draw.ticket))
    else if orgRequiresMfa then
      Turn(w.(setupTickets := w.setupTickets[draw.ticket := Timed(userId, now + SETUP_TICKET_MS)]), MfaSetupRequired(draw.ticket))
    else SignIn(w, userId, draw, now, cfg)
  }

  function Without(codes: seq<string>, hash: string): seq<string> { Filter(IsNot(hash), codes) }

  /** `totpOk` is the verdict on the code as a one-time password, `hash` its fingerprint as a backup code. */
  function MfaVerifyTurn(w: World, ticket: string, totpOk: bool, hash: string, draw: Draw, now: int, cfg: Config): Turn {
    var held := Current(w.mfaTickets, ticket, now);
    if held.None? || held.value !in w.users then Refuse(w)
    else
      var u := w.users[held.value];
      if u.totpSecret.None? || !u.totpEnabled then Refuse(w)
      else if totpOk then SignIn(w.(mfaTickets := w.mfaTickets - {ticket}), held.value, draw, now, cfg)
      else if |Without(u.backupCodeHashes, hash)| != |u.backupCodeHashes| then
        SignIn(WithUser(w, held.value, u.(backupCodeHashes := Without(u.backupCodeHashes, hash))).(mfaTickets := w.mfaTickets - {ticket}),
               held.value, draw, now, cfg)
      else Refuse(w)
  }

  /** The gate of every authenticated request. */
  function SessionUser(w: World, t: Token, now: int): Option<string> {
    if !IsLive(w.board, t, now) || (t.userId in w.users && w.users[t.userId].suspended) then None else Some(t.userId)
  }

  function Identified(w: World, who: Identity, now: int): Option<string> {
    match who
    case BySession(t) => SessionUser(w, t, now)
    case BySetupTicket(ticket) => Current(w.setupTickets, ticket, now)
  }

  function EnrollTurn(w: World, who: Identity, secret: string, now: int): Turn {
    var userId := Identified(w, who, now);
    if userId.None? || userId.value !in w.users then Refuse(w)
    else Turn(WithUser(w, userId.value, w.users[userId.value].(totpSecret := Some(secret), totpEnabled := false)), Done)
  }

  function ConfirmTurn(w: World, who: Identity, totpOk: bool, hashes: seq<string>, draw: Draw, now: int, cfg: Config): Turn {
    var userId := Identified(w, who, now);
    if userId.None? || userId.value !in w.users || w.users[userId.value].totpSecret.None? || !totpOk then Refuse(w)
    else
      var enabled := WithUser(w, userId.value, w.users[userId.value].(totpEnabled := true, backupCodeHashes := hashes));
      if who.BySession? then Turn(enabled, Done)
      else SignIn(enabled.(setupTickets := w.setupTickets - {who.ticket}), userId.value, draw, now, cfg)
  }

  function DisableTurn(w: World, t: Token, totpOk: bool, now: int): Turn {
    var userId := SessionUser(w, t, now);
    if userId.None? || userId.value !in w.users then Refuse(w)
    else
      var u := w.users[userId.value];
      if u.totpSecret.None? || !u.totpEnabled || !totpOk then Refuse(w)
      else Turn(WithUser(w, userId.value, u.(totpSecret := None, totpEnabled := false, backupCodeHashes := [])), Done)
  }

  /** The answer is the same whether or not the address is known; `hash` is the fingerprint of the token mailed. */
  function ForgotTurn(w: World, userId: string, hash: string, now: int, cfg: Config): Turn {
    if userId in w.users then Turn(w.(resets := w.resets[hash := Reset(userId, now + cfg.resetTtl * 1000, false)]), Done)
    else Turn(w, Done)
  }

  function Usable(resets: map<string, Reset>, hash: string, now: int): Option<Reset> {
    if hash in resets && !resets[hash].consumed && now < resets[hash].expiresAt then Some(resets[hash]) else None
  }

  function WithoutUser(resets: map<string, Reset>, userId: string): map<string, Reset> {
    map h | h in resets && resets[h].userId != userId :: resets[h]
  }

  function ResetTurn(w: World, hash: string, policyOk: bool, passwordHash: string, now: int, cfg: Config): Turn {
    var rec := Usable(w.resets, hash, now);
    if rec.None? || rec.value.userId !in w.users || !policyOk then Refuse(w)
    else
      var userId := rec.value.userId;
      Turn(WithUser(w, userId, w.users[userId].(passwordHash := passwordHash))
             .(resets := WithoutUser(w.resets, userId), board := AllRevoked(w.board, userId, now, cfg.lifetime)), Done)
  }

  function ChangePasswordTurn(w: World, t: Token, currentOk: bool, policyOk: bool, passwordHash: string, now: int, cfg: Config): Turn {
    var userId := SessionUser(w, t, now);
    if userId.None? || userId.value !in w.users || !currentOk || !policyOk then Refuse(w)
    else
      Turn(WithUser(w, userId.value, w.users[userId.value].(passwordHash := passwordHash))
             .(board := OthersRevoked(w.board, userId.value, Some(t.jti), now, cfg.lifetime)), Done)
  }

  function RevokeOthersTurn(w: World, t: Token, now: int, cfg: Config): Turn {
    if SessionUser(w, t, now).None? then Refuse(w)
    else Turn(w.(board := OthersRevoked(w.board, t.userId, Some(t.jti), now, cfg.lifetime)), Done)
  }

  /** One session of one's own denied; it stays on the list. */
  function RevokeOneTurn(w: World, t: Token, jti: string, now: int, cfg: Config): Turn {
    if SessionUser(w, t, now).None? || jti !in JtisFor(w.board, t.userId, now) then Refuse(w)
    else Turn(w.(board := w.board.(denied := w.board.denied[jti := now + KeptMs(cfg.lifetime)])), Done)
  }

  function LogoutTurn(w: World, t: Token, now: int, cfg: Config): Turn {
    Turn(w.(board := LoggedOut(w.board, t, now, cfg.lifetime)), Done)
  }

  // ---- The stores and the handlers ----

  class MemoryPasswordResets {
    var rows: map<string, Reset>

    constructor ()
      ensures rows == map[]
    {
      rows := map[];
    }

    method Save(hash: string, rec: Reset)
      modifies this
      ensures rows == old(rows)[hash := rec]
    {
      rows := rows[hash := rec];
    }

    method FindUsable(hash: string, now: int) returns (rec: Option<Reset>)
      ensures rec == Usable(rows, hash, now)
    {
      if hash !in rows || rows[hash].consumed {
        return None;
      }
      if rows[hash].expiresAt <= now {
        return None;
      }
      rec := Some(rows[hash]);
    }

    method Consume(hash: string)
      modifies this
      ensures rows == if hash in old(rows) then old(rows)[hash := old(rows)[hash].(consumed := true)] else old(rows)
    {
      if hash in rows {
        rows := rows[hash := rows[hash].(consumed := true)];
      }
    }

    method DeleteForUser(userId: string)
      modifies this
      ensures rows == WithoutUser(old(rows), userId)
    {
      rows := map h | h in rows && rows[h].userId != userId :: rows[h];
    }
  }

  class PlatformAuth {
    const cfg: Config
    const resets: MemoryPasswordResets
    const sessions: SessionCache
    var users: map<string, User>
    var mfaTickets: map<string, Timed<string>>
    var setupTickets: map<string, Timed<string>>

    ghost predicate Valid() { sessions.lifetime == cfg.lifetime }

    constructor (cfg: Config)
      ensures Valid() && this.cfg == cfg && fresh(resets) && fresh(sessions)
      ensures Contents() == World(map[], map[], map[], map[], Board(map[], map[]))
    {
      this.cfg := cfg;
      resets := new MemoryPasswordResets();
      sessions := new SessionCache(cfg.lifetime);
      users, mfaTickets, setupTickets := map[], map[], map[];
    }

    function Contents(): World
      reads this, resets, sessions
    {
      World(users, resets.rows, mfaTickets, setupTickets, sessions.Contents())
    }

    /** `userId` is new: an address already registered is refused before. */
    method Signup(userId: string, passwordHash: string, draw: Draw, now: int) returns (a: Answer)
      requires Valid()
      modifies this, sessions
      ensures Turn(Contents(), a) == SignupTurn(old(Contents()), userId, passwordHash, draw, now, cfg)
    {
      users := users[userId := User(passwordHash, None, false, [], false)];
      var token := sessions.IssueSession(userId, draw.jti, now);
      a := SignedIn(token);
    }

    method SetSuspended(userId: string, suspended: bool) returns (a: Answer)
      modifies this
      ensures Turn(Contents(), a) == SuspendTurn(old(Contents()), userId, suspended)
    {
      if userId !in users {
        return Refused;
      }
      users := users[userId := users[userId].(suspended := suspended)];
      a := Done;
    }

    method Login(userId: string, passwordOk: bool, orgRequiresMfa: bool, draw: Draw, now: int) returns (a: Answer)
      requires Valid()
      modifies this, sessions
      ensures Turn(Contents(), a) == LoginTurn(old(Contents()), userId, passwordOk, orgRequiresMfa, draw, now, cfg)
    {
      if userId !in users || !passwordOk {
        return Refused;
      }
      var user := users[userId];
      if user.suspended {
        return Refused;
      }
      if user.totpEnabled && user.totpSecret.Some? {
        mfaTickets := mfaTickets[draw.ticket := Timed(userId, now + MFA_TICKET_MS)];
        return MfaRequired(draw.ticket);
      }
      if orgRequiresMfa {
        setupTickets := setupTickets[draw.ticket := Timed(userId, now + SETUP_TICKET_MS)];
        return MfaSetupRequired(draw.ticket);
      }
      var token := sessions.IssueSession(userId, draw.jti, now);
      a := SignedIn(token);
    }

    method MfaVerify(ticket: string, totpOk: bool, hash: string, draw: Draw, now: int) returns (a: Answer)
      requires Valid()
      modifies this, sessions
      ensures Turn(Contents(), a) == MfaVerifyTurn(old(Contents()), ticket, totpOk, hash, draw, now, cfg)
    {
      var userId := Current(mfaTickets, ticket, now);
      if userId.None? || userId.value !in users {
        return Refused;
      }
      var user := users[userId.value];
      if user.totpSecret.None? || !user.totpEnabled {
        return Refused;
      }
      var verified := totpOk;
      if !verified {
        var remaining := Filter(IsNot(hash), user.backupCodeHashes);
        if |remaining| != |user.backupCodeHashes| {
          users := users[userId.value := user.(backupCodeHashes := remaining)];
          verified := true;
        }
      }
      if !verified {
        return Refused;
      }
      mfaTickets := mfaTickets - {ticket};
      var token := sessions.IssueSession(userId.value, draw.jti, now);
      a := SignedIn(token);
    }

    method Identify(who: Identity, now: int) returns (userId: Option<string>)
      ensures userId == Identified(Contents(), who, now)
    {
      match who
      case BySetupTicket(ticket) => userId := Current(setupTickets, ticket, now);
      case BySession(t) => userId := VerifySession(t, now);
    }

    method VerifySession(t: Token, now: int) returns (userId: Option<string>)
      ensures userId == SessionUser(Contents(), t, now)
    {
      if Expired(t, now) || (t.jti in sessions.denied && now <= sessions.denied[t.jti]) {
        return None;
      }
      if t.userId in users && users[t.userId].suspended {
        return None;
      }
      userId := Some(t.userId);
    }

    method Enroll(who: Identity, secret: string, now: int) returns (a: Answer)
      modifies this
      ensures Turn(Contents(), a) == EnrollTurn(old(Contents()), who, secret, now)
    {
      var userId := Identify(who, now);
      if userId.None? || userId.value !in users {
        return Refused;
      }
      users := users[userId.value := users[userId.value].(totpSecret := Some(secret), totpEnabled := false)];
      a := Done;
    }

    method Confirm(who: Identity, totpOk: bool, hashes: seq<string>, draw: Draw, now: int) returns (a: Answer)
      requires Valid()
      modifies this, sessions
      ensures Turn(Contents(), a) == ConfirmTurn(old(Contents()), who, totpOk, hashes, draw, now, cfg)
    {
      var userId := Identify(who, now);
      if userId.None? || userId.value !in users || users[userId.value].totpSecret.None? || !totpOk {
        return Refused;
      }
      users := users[userId.value := users[userId.value].(totpEnabled := true, backupCodeHashes := hashes)];
      if who.BySetupTicket? {
        setupTickets := setupTickets - {who.ticket};
        var token := sessions.IssueSession(userId.value, draw.jti, now);
        return SignedIn(token);
      }
      a := Done;
    }

    method Disable(t: Token, totpOk: bool, now: int) returns (a: Answer)
      modifies this
      ensures Turn(Contents(), a) == DisableTurn(old(Contents()), t, totpOk, now)
    {
      var userId := VerifySession(t, now);
      if userId.None? || userId.value !in users {
        return Refused;
      }
      var user := users[userId.value];
      if user.totpSecret.None? || !user.totpEnabled || !totpOk {
        return Refused;
      }
      users := users[userId.value := user.(totpSecret := None, totpEnabled := false, backupCodeHashes := [])];
      a := Done;
    }

    method Forgot(userId: string, hash: string, now: int) returns (a: Answer)
      modifies resets
      ensures Turn(Contents(), a) == ForgotTurn(old(Contents()), userId, hash, now, cfg)
    {
      if userId in users {
        resets.Save(hash, Reset(userId, now + cfg.resetTtl * 1000, false));
      }
      a := Done;
    }

    method ResetPassword(hash: string, policyOk: bool, passwordHash: string, now: int) returns (a: Answer)
      requires Valid()
      modifies this, resets, sessions
      ensures Turn(Contents(), a) == ResetTurn(old(Contents()), hash, policyOk, passwordHash, now, cfg)
    {
      var rec := resets.FindUsable(hash, now);
      if rec.None? || rec.value.userId !in users || !policyOk {
        return Refused;
      }
      var userId := rec.value.userId;
      resets.Consume(hash);
      users := users[userId := users[userId].(passwordHash := passwordHash)];
      resets.DeleteForUser(userId);
      ConsumedIsDeleted(old(resets.rows), hash);
      sessions.RevokeAll(userId, now);
      a := Done;
    }

    method ChangePassword(t: Token, currentOk: bool, policyOk: bool, passwordHash: string, now: int) returns (a: Answer)
      requires Valid()
      modifies this, sessions
      ensures Turn(Contents(), a) == ChangePasswordTurn(old(Contents()), t, currentOk, policyOk, passwordHash, now, cfg)
    {
      var userId := VerifySession(t, now);
      if userId.None? || userId.value !in users || !currentOk || !policyOk {
        return Refused;
      }
      users := users[userId.value := users[userId.value].(passwordHash := passwordHash)];
      var revoked := sessions.RevokeOthers(userId.value, t.jti, now);
      a := Done;
    }

    method RevokeOthers(t: Token, now: int) returns (a: Answer)
      requires Valid()
      modifies sessions
      ensures Turn(Contents(), a) == RevokeOthersTurn(old(Contents()), t, now, cfg)
    {
      var userId := VerifySession(t, now);
      if userId.None? {
        return Refused;
      }
      var revoked := sessions.RevokeOthers(t.userId, t.jti, now);
      a := Done;
    }

    method RevokeOne(t: Token, jti: string, now: int) returns (a: Answer)
      requires Valid()
      modifies sessions
      ensures Turn(Contents(), a) == RevokeOneTurn(old(Contents()), t, jti, now, cfg)
    {
      var userId := VerifySession(t, now);
      if userId.None? {
        return Refused;
      }
      var own := sessions.Jtis(t.userId, now);
      if jti !in own {
        return Refused;
      }
      sessions.RevokeByJti(jti, now);
      a := Done;
    }

    method Logout(t: Token, now: int) returns (a: Answer)
      requires Valid()
      modifies sessions
      ensures Turn(Contents(), a) == LogoutTurn(old(Contents()), t, now, cfg)
    {
      sessions.Logout(t, now);
      a := Done;
    }
  }

  /** Consuming first makes no difference to what the deletion leaves. */
  lemma ConsumedIsDeleted(rows: map<string, Reset>, hash: string)
    requires hash in rows
    ensures WithoutUser(rows[hash := rows[hash].(consumed := true)], rows[hash].userId) == WithoutUser(rows, rows[hash].userId)
  {
  }
}

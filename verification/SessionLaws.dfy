/** Revocation over whole runs: what a password reset does to the sessions issued before it. */
module SessionLaws {
  import opened Wrappers
  import opened Sequences
  import opened Sessions
  import opened Accounts
  import opened AccountLaws

  type Ledger = map<string, Token>

  ghost predicate Dated(sessions: Ledger, now: int, lifetime: nat) {
    forall j :: j in sessions ==> sessions[j].jti == j && sessions[j].exp <= now / 1000 + lifetime
  }

  ghost predicate DenialsOutlast(b: Board, sessions: Ledger) {
    forall j :: j in sessions ==> Outlasts(b, sessions[j])
  }

  /** The list of a user: sessions of that user, each once, and kept as long as the longest of them. */
  ghost predicate Fits(list: Timed<seq<string>>, sessions: Ledger, u: string) {
    && NoDuplicates(list.value) && |list.value| <= INDEX_LIMIT
    && forall j :: j in list.value ==> j in sessions && sessions[j].userId == u && sessions[j].exp * 1000 <= list.until
  }

  ghost predicate Sound(b: Board, sessions: Ledger, now: int, lifetime: nat) {
    && Dated(sessions, now, lifetime) && DenialsOutlast(b, sessions)
    && forall u :: u in b.index ==> Fits(b.index[u], sessions, u)
  }

  function IssuedTo(sessions: Ledger, u: string): set<string> {
    set j | j in sessions && sessions[j].userId == u
  }

  predicate Covered(b: Board, t: Token, now: int) {
    Expired(t, now) || t.jti in b.denied || (t.userId in b.index && t.jti in b.index[t.userId].value)
  }

  /** As long as a user was issued at most 20 sessions, each of them is over, denied or listed. */
  ghost predicate Complete(b: Board, sessions: Ledger, now: int) {
    forall j :: j in sessions && |IssuedTo(sessions, sessions[j].userId)| <= INDEX_LIMIT ==> Covered(b, sessions[j], now)
  }

  // ---- The operations on a board ----

  lemma FreshIsOneMore(sessions: Ledger, t: Token, u: string)
    requires t.jti !in sessions
    ensures IssuedTo(sessions[t.jti := t], u) == IssuedTo(sessions, u) + (if t.userId == u then {t.jti} else {})
    ensures |IssuedTo(sessions, u)| <= |IssuedTo(sessions[t.jti := t], u)|
  {
    SubsetSize(IssuedTo(sessions, u), IssuedTo(sessions[t.jti := t], u));
  }

  /** What is read as the list of a user: no more than its sessions. */
  lemma ListIsBounded(b: Board, sessions: Ledger, u: string, now: int, lifetime: nat)
    requires Sound(b, sessions, now, lifetime)
    ensures var list := JtisFor(b, u, now);
            && NoDuplicates(list) && |list| <= |IssuedTo(sessions, u)|
            && forall j :: j in list ==> j in sessions && sessions[j].userId == u
  {
    var list := JtisFor(b, u, now);
    if list != [] {
      assert Fits(b.index[u], sessions, u);
    }
    DistinctInSet(list, IssuedTo(sessions, u));
  }

  /** A list that can no longer be read lists only sessions that are over. */
  lemma UnreadableIsOver(b: Board, sessions: Ledger, t: Token, now: int, lifetime: nat)
    requires Sound(b, sessions, now, lifetime) && t.jti in sessions && sessions[t.jti] == t && Covered(b, t, now)
    ensures Expired(t, now) || t.jti in b.denied || t.jti in JtisFor(b, t.userId, now)
  {
    if t.userId in b.index {
      assert Fits(b.index[t.userId], sessions, t.userId);
    }
  }

  lemma TimePasses(b: Board, sessions: Ledger, now: int, later: int, lifetime: nat)
    requires Sound(b, sessions, now, lifetime) && Complete(b, sessions, now) && now <= later
    ensures Sound(b, sessions, later, lifetime) && Complete(b, sessions, later)
  {
    forall j | j in sessions && |IssuedTo(sessions, sessions[j].userId)| <= INDEX_LIMIT
      ensures Covered(b, sessions[j], later)
    {
      assert Covered(b, sessions[j], now);
    }
  }

  lemma NewListFits(list: seq<string>, sessions: Ledger, t: Token, now: int, lifetime: nat)
    requires Dated(sessions, now, lifetime) && t.jti !in sessions && t == Signed(t.userId, t.jti, now, lifetime)
    requires NoDuplicates(list) && forall j :: j in list ==> j in sessions && sessions[j].userId == t.userId
    ensures Fits(Timed(Last20(list + [t.jti]), now + KeptMs(lifetime)), sessions[t.jti := t], t.userId)
  {
    var all, until := list + [t.jti], now + KeptMs(lifetime);
    assert NoDuplicates(all);
    forall j | j in Last20(all)
      ensures j in all
    {
    }
    forall j | j in all
      ensures var s := sessions[t.jti := t]; j in s && s[j].userId == t.userId && s[j].exp * 1000 <= until
    {
    }
  }

  lemma IssuingKeepsSound(b: Board, sessions: Ledger, t: Token, now: int, lifetime: nat)
    requires Sound(b, sessions, now, lifetime)
    requires t.jti !in sessions && t.jti !in b.denied && t == Signed(t.userId, t.jti, now, lifetime)
    ensures Sound(Issued(b, t.userId, t.jti, now, lifetime), sessions[t.jti := t], now, lifetime)
  {
    var list := JtisFor(b, t.userId, now);
    ListIsBounded(b, sessions, t.userId, now, lifetime);
    NewListFits(list, sessions, t, now, lifetime);
    var r, s := Issued(b, t.userId, t.jti, now, lifetime), sessions[t.jti := t];
    forall u | u in r.index
      ensures Fits(r.index[u], s, u)
    {
      assert u == t.userId || (u in b.index && Fits(b.index[u], sessions, u));
    }
  }

  lemma IssuingKeepsComplete(b: Board, sessions: Ledger, t: Token, now: int, lifetime: nat)
    requires Sound(b, sessions, now, lifetime) && Complete(b, sessions, now)
    requires t.jti !in sessions && t == Signed(t.userId, t.jti, now, lifetime)
    ensures Complete(Issued(b, t.userId, t.jti, now, lifetime), sessions[t.jti := t], now)
  {
    var r, s := Issued(b, t.userId, t.jti, now, lifetime), sessions[t.jti := t];
    var list := JtisFor(b, t.userId, now);
    ListIsBounded(b, sessions, t.userId, now, lifetime);
    forall j | j in s && |IssuedTo(s, s[j].userId)| <= INDEX_LIMIT
      ensures Covered(r, s[j], now)
    {
      FreshIsOneMore(sessions, t, s[j].userId);
      if s[j].userId == t.userId {
        assert |list| < INDEX_LIMIT;
        assert r.index[t.userId].value == list + [t.jti];
      }
      if j != t.jti {
        assert Covered(b, sessions[j], now);
        UnreadableIsOver(b, sessions, sessions[j], now, lifetime);
      }
    }
  }

  /** Only denials are added, each long enough. */
  ghost predicate DeniesMore(b: Board, r: Board, sessions: Ledger) {
    && (forall j :: j in b.denied ==> j in r.denied)
    && DenialsOutlast(r, sessions)
  }

  lemma DenyingManyOutlasts(b: Board, sessions: Ledger, jtis: seq<string>, kept: Option<string>, now: int, lifetime: nat)
    requires Dated(sessions, now, lifetime) && DenialsOutlast(b, sessions)
    ensures var denied := DeniedAll(b.denied, jtis, |jtis|, kept, now + KeptMs(lifetime));
            && DeniesMore(b, b.(denied := denied), sessions)
            && forall j :: j in jtis && kept != Some(j) ==> j in denied
  {
    var until := now + KeptMs(lifetime);
    var denied := DeniedAll(b.denied, jtis, |jtis|, kept, until);
    assert jtis[..|jtis|] == jtis;
    forall j
      ensures j in b.denied ==> j in denied
      ensures j in sessions ==> Outlasts(b.(denied := denied), sessions[j])
      ensures j in jtis && kept != Some(j) ==> j in denied
    {
      DeniedAllAt(b.denied, jtis, |jtis|, kept, until, j);
    }
  }

  lemma RevokingAllKeeps(b: Board, sessions: Ledger, u: string, now: int, lifetime: nat)
    requires Sound(b, sessions, now, lifetime) && Complete(b, sessions, now)
    ensures var r := AllRevoked(b, u, now, lifetime);
            && Sound(r, sessions, now, lifetime) && Complete(r, sessions, now) && DeniesMore(b, r, sessions)
            && forall j :: j in JtisFor(b, u, now) ==> j in r.denied
  {
    DenyingManyOutlasts(b, sessions, JtisFor(b, u, now), None, now, lifetime);
    var r := AllRevoked(b, u, now, lifetime);
    forall j | j in sessions && |IssuedTo(sessions, sessions[j].userId)| <= INDEX_LIMIT
      ensures Covered(r, sessions[j], now)
    {
      assert Covered(b, sessions[j], now);
    }
  }

  lemma FilteredListFits(list: Timed<seq<string>>, p: string -> bool, sessions: Ledger, u: string, now: int, lifetime: nat)
    requires Fits(list, sessions, u) && Dated(sessions, now, lifetime)
    ensures Fits(Timed(Filter(p, list.value), now + KeptMs(lifetime)), sessions, u)
    ensures forall j :: j in Filter(p, list.value) <==> j in list.value && p(j)
  {
    FilterNoDuplicates(p, list.value);
    var at := FilterEmbeds(p, list.value);
    forall j
      ensures j in Filter(p, list.value) <==> j in list.value && p(j)
    {
      FilterMembers(p, list.value, j);
    }
  }

  /** A list replaced by part of it, the rest being denied. */
  lemma CutKeeps(b: Board, r: Board, sessions: Ledger, u: string, p: string -> bool, now: int, lifetime: nat)
    requires Sound(b, sessions, now, lifetime) && Complete(b, sessions, now) && DeniesMore(b, r, sessions)
    requires r.index == b.index[u := Timed(Filter(p, JtisFor(b, u, now)), now + KeptMs(lifetime))]
    requires forall j :: j in JtisFor(b, u, now) && !p(j) ==> j in r.denied
    ensures Sound(r, sessions, now, lifetime) && Complete(r, sessions, now)
  {
    var list := JtisFor(b, u, now);
    if list != [] {
      assert Fits(b.index[u], sessions, u);
      FilteredListFits(b.index[u], p, sessions, u, now, lifetime);
    }
    assert Fits(r.index[u], sessions, u);
    forall v | v in r.index
      ensures Fits(r.index[v], sessions, v)
    {
      assert v == u || Fits(b.index[v], sessions, v);
    }
    forall j | j in sessions && |IssuedTo(sessions, sessions[j].userId)| <= INDEX_LIMIT
      ensures Covered(r, sessions[j], now)
    {
      assert Covered(b, sessions[j], now);
      UnreadableIsOver(b, sessions, sessions[j], now, lifetime);
    }
  }

  lemma RevokingOthersKeeps(b: Board, sessions: Ledger, u: string, kept: string, now: int, lifetime: nat)
    requires Sound(b, sessions, now, lifetime) && Complete(b, sessions, now)
    ensures var r := OthersRevoked(b, u, Some(kept), now, lifetime);
            Sound(r, sessions, now, lifetime) && Complete(r, sessions, now) && DeniesMore(b, r, sessions)
  {
    var r := OthersRevoked(b, u, Some(kept), now, lifetime);
    DenyingManyOutlasts(b, sessions, JtisFor(b, u, now), Some(kept), now, lifetime);
    CutKeeps(b, r, sessions, u, Is(Some(kept)), now, lifetime);
  }

  lemma DenyingOneKeeps(b: Board, sessions: Ledger, jti: string, now: int, lifetime: nat)
    requires Sound(b, sessions, now, lifetime) && Complete(b, sessions, now)
    ensures var r := b.(denied := b.denied[jti := now + KeptMs(lifetime)]);
            Sound(r, sessions, now, lifetime) && Complete(r, sessions, now) && DeniesMore(b, r, sessions)
  {
    var r := b.(denied := b.denied[jti := now + KeptMs(lifetime)]);
    forall j | j in sessions && |IssuedTo(sessions, sessions[j].userId)| <= INDEX_LIMIT
      ensures Covered(r, sessions[j], now)
    {
      assert Covered(b, sessions[j], now);
    }
  }

  lemma LoggingOutKeeps(b: Board, sessions: Ledger, t: Token, now: int, lifetime: nat)
    requires Sound(b, sessions, now, lifetime) && Complete(b, sessions, now) && t.jti in sessions && sessions[t.jti] == t
    ensures var r := LoggedOut(b, t, now, lifetime);
            && Sound(r, sessions, now, lifetime) && Complete(r, sessions, now) && DeniesMore(b, r, sessions)
            && Stopped(r, t, now)
  {
    var r := LoggedOut(b, t, now, lifetime);
    if !Expired(t, now) {
      var d := b.(denied := r.denied);
      assert DeniesMore(b, d, sessions);
      if Current(b.index, t.userId, now).Some? {
        CutKeeps(b, r, sessions, t.userId, IsNot(t.jti), now, lifetime);
      } else {
        forall j | j in sessions && |IssuedTo(sessions, sessions[j].userId)| <= INDEX_LIMIT
          ensures Covered(r, sessions[j], now)
        {
          assert Covered(b, sessions[j], now);
        }
      }
    }
  }

  // ---- Runs ----

  ghost predicate Inv(h: History, cfg: Config) {
    Sound(h.w.board, h.sessions, h.now, cfg.lifetime) && Complete(h.w.board, h.sessions, h.now)
    && forall j :: j in h.w.board.denied ==> j in h.sessions
  }

  /** What an event can do to the board. */
  datatype Move =
    | Nothing
    | Issue(token: Token)
    | RevokeAllOf(userId: string)
    | RevokeAllBut(userId: string, kept: string)
    | DenyOne(jti: string)
    | Leave(token: Token)

  function Moved(b: Board, m: Move, now: int, lifetime: nat): Board {
    match m
    case Nothing => b
    case Issue(t) => Issued(b, t.userId, t.jti, now, lifetime)
    case RevokeAllOf(u) => AllRevoked(b, u, now, lifetime)
    case RevokeAllBut(u, kept) => OthersRevoked(b, u, Some(kept), now, lifetime)
    case DenyOne(jti) => b.(denied := b.denied[jti := now + KeptMs(lifetime)])
    case Leave(t) => LoggedOut(b, t, now, lifetime)
  }

  function MoveOf(h: History, te: Timely, cfg: Config): Move {
    var a := TurnOf(h, te, cfg).answer;
    if a.Refused? then Nothing
    else if a.SignedIn? then Issue(a.token)
    else
      match te.event
      case ResetPassword(hash, _, _) => RevokeAllOf(if hash in h.w.resets then h.w.resets[hash].userId else "")
      case ChangePassword(t, _, _, _) => RevokeAllBut(t.userId, t.jti)
      case RevokeOthers(t) => RevokeAllBut(t.userId, t.jti)
      case RevokeOne(_, jti) => DenyOne(jti)
      case Logout(t) => Leave(t)
      case _ => Nothing
  }

  lemma EveryEventMoves(h: History, te: Timely, cfg: Config)
    ensures Next(h, te, cfg).w.board == Moved(h.w.board, MoveOf(h, te, cfg), te.at, cfg.lifetime)
  {
    var ev := te.event;
    if ev.Enroll? || ev.Disable? || ev.Forgot? || ev.Suspend? {
      BoardUntouched(h, te, cfg);
    } else if Drawn(ev).Some? {
      SignInsIssue(h, te, cfg);
    } else {
      RevocationsRevoke(h, te, cfg);
    }
  }

  lemma BoardUntouched(h: History, te: Timely, cfg: Config)
    requires var ev := te.event; ev.Enroll? || ev.Disable? || ev.Forgot? || ev.Suspend?
    ensures TurnOf(h, te, cfg).world.board == h.w.board && MoveOf(h, te, cfg).Nothing?
  {
  }

  lemma SignInsIssue(h: History, te: Timely, cfg: Config)
    requires Drawn(te.event).Some?
    ensures TurnOf(h, te, cfg).world.board == Moved(h.w.board, MoveOf(h, te, cfg), te.at, cfg.lifetime)
  {
  }

  lemma RevocationsRevoke(h: History, te: Timely, cfg: Config)
    requires var ev := te.event; ev.ResetPassword? || ev.ChangePassword? || ev.RevokeOthers? || ev.RevokeOne? || ev.Logout?
    ensures TurnOf(h, te, cfg).world.board == Moved(h.w.board, MoveOf(h, te, cfg), te.at, cfg.lifetime)
  {
  }

  lemma IssuedIsSigned(h: History, te: Timely, cfg: Config)
    requires TurnOf(h, te, cfg).answer.SignedIn? && Possible(h, te)
    ensures var t := TurnOf(h, te, cfg).answer.token;
            t == Signed(t.userId, t.jti, te.at, cfg.lifetime) && t.jti !in h.sessions
  {
  }

  lemma MoveKeeps(b: Board, sessions: Ledger, m: Move, now: int, lifetime: nat)
    requires Sound(b, sessions, now, lifetime) && Complete(b, sessions, now)
    requires m.Issue? ==> m.token.jti !in sessions && m.token.jti !in b.denied && m.token == Signed(m.token.userId, m.token.jti, now, lifetime)
    requires m.Leave? ==> m.token.jti in sessions && sessions[m.token.jti] == m.token
    ensures var r, s := Moved(b, m, now, lifetime), if m.Issue? then sessions[m.token.jti := m.token] else sessions;
            Sound(r, s, now, lifetime) && Complete(r, s, now) && DeniesMore(b, r, sessions)
  {
    match m
    case Nothing =>
    case Issue(t) =>
      IssuingKeepsSound(b, sessions, t, now, lifetime);
      IssuingKeepsComplete(b, sessions, t, now, lifetime);
    case RevokeAllOf(u) => RevokingAllKeeps(b, sessions, u, now, lifetime);
    case RevokeAllBut(u, kept) => RevokingOthersKeeps(b, sessions, u, kept, now, lifetime);
    case DenyOne(jti) => DenyingOneKeeps(b, sessions, jti, now, lifetime);
    case Leave(t) => LoggingOutKeeps(b, sessions, t, now, lifetime);
  }

  lemma MoveDeniesIssued(b: Board, sessions: Ledger, m: Move, now: int, lifetime: nat, j: string)
    requires Sound(b, sessions, now, lifetime) && (j in b.denied ==> j in sessions)
    requires m.DenyOne? ==> m.jti in sessions
    requires m.Leave? ==> m.token.jti in sessions
    requires j in Moved(b, m, now, lifetime).denied
    ensures j in sessions
  {
    match m
    case RevokeAllOf(u) =>
      ListIsBounded(b, sessions, u, now, lifetime);
      DeniedAllAt(b.denied, JtisFor(b, u, now), |JtisFor(b, u, now)|, None, now + KeptMs(lifetime), j);
    case RevokeAllBut(u, kept) =>
      ListIsBounded(b, sessions, u, now, lifetime);
      DeniedAllAt(b.denied, JtisFor(b, u, now), |JtisFor(b, u, now)|, Some(kept), now + KeptMs(lifetime), j);
    case _ =>
  }

  lemma DeniedOneIsIssued(h: History, te: Timely, cfg: Config)
    requires Inv(h, cfg) && Possible(h, te) && te.event.RevokeOne? && !TurnOf(h, te, cfg).answer.Refused?
    ensures te.event.jti in h.sessions
  {
    TimePasses(h.w.board, h.sessions, h.now, te.at, cfg.lifetime);
    ListIsBounded(h.w.board, h.sessions, te.event.token.userId, te.at, cfg.lifetime);
  }

  lemma MoveIsAllowed(h: History, te: Timely, cfg: Config)
    requires Inv(h, cfg) && Possible(h, te)
    ensures var m := MoveOf(h, te, cfg);
            && (m.Issue? ==> m.token.jti !in h.sessions && m.token == Signed(m.token.userId, m.token.jti, te.at, cfg.lifetime)
                             && Next(h, te, cfg).sessions == h.sessions[m.token.jti := m.token])
            && (!m.Issue? ==> Next(h, te, cfg).sessions == h.sessions)
            && (m.Leave? ==> m.token.jti in h.sessions && h.sessions[m.token.jti] == m.token)
            && (m.DenyOne? ==> m.jti in h.sessions)
  {
    var m := MoveOf(h, te, cfg);
    if m.Issue? {
      IssuedIsSigned(h, te, cfg);
    }
    if m.DenyOne? {
      DeniedOneIsIssued(h, te, cfg);
    }
  }

  lemma NextKeepsInv(h: History, te: Timely, cfg: Config)
    requires Inv(h, cfg) && Possible(h, te)
    ensures Inv(Next(h, te, cfg), cfg) && DeniesMore(h.w.board, Next(h, te, cfg).w.board, h.sessions)
    ensures forall j :: j in h.sessions ==> j in Next(h, te, cfg).sessions && Next(h, te, cfg).sessions[j] == h.sessions[j]
  {
    var b, m := h.w.board, MoveOf(h, te, cfg);
    TimePasses(b, h.sessions, h.now, te.at, cfg.lifetime);
    EveryEventMoves(h, te, cfg);
    MoveIsAllowed(h, te, cfg);
    MoveKeeps(b, h.sessions, m, te.at, cfg.lifetime);
    forall j | j in Moved(b, m, te.at, cfg.lifetime).denied
      ensures j in h.sessions
    {
      MoveDeniesIssued(b, h.sessions, m, te.at, cfg.lifetime, j);
    }
  }

  lemma {:induction false} RunKeepsInv(h: History, evs: seq<Timely>, cfg: Config)
    requires Inv(h, cfg) && Feasible(h, evs, cfg)
    ensures Inv(Run(h, evs, cfg), cfg)
    decreases |evs|
  {
    if evs != [] {
      NextKeepsInv(h, evs[0], cfg);
      RunKeepsInv(Next(h, evs[0], cfg), evs[1..], cfg);
    }
  }

  lemma StartIsSound(h: History, cfg: Config)
    requires IsNew(h)
    ensures Inv(h, cfg)
  {
  }

  /** A stopped session is never live again. */
  lemma {:induction false} StoppedForGood(h: History, evs: seq<Timely>, t: Token, cfg: Config)
    requires Inv(h, cfg) && Feasible(h, evs, cfg) && t.jti in h.sessions && h.sessions[t.jti] == t && Stopped(h.w.board, t, h.now)
    ensures var r := Run(h, evs, cfg); !IsLive(r.w.board, t, r.now)
    decreases |evs|
  {
    if evs == [] {
      StoppedIsNotLive(h.w.board, t, h.now, h.now);
    } else {
      NextKeepsInv(h, evs[0], cfg);
      assert Outlasts(Next(h, evs[0], cfg).w.board, t);
      StoppedForGood(Next(h, evs[0], cfg), evs[1..], t, cfg);
    }
  }

  /** With at most 20 sessions issued to the user so far, a reset stops every one of them. */
  lemma ResetStopsAll(h: History, te: Timely, x: string, j: string, cfg: Config)
    requires Inv(h, cfg) && ResetsKnown(h) && Possible(h, te) && Spends(h, te, x, cfg) && x in h.resetFor
    requires j in h.sessions && h.sessions[j].userId == h.resetFor[x]
    requires |IssuedTo(h.sessions, h.resetFor[x])| <= INDEX_LIMIT
    ensures Stopped(Next(h, te, cfg).w.board, h.sessions[j], te.at)
  {
    var u, b := h.resetFor[x], h.w.board;
    TimePasses(b, h.sessions, h.now, te.at, cfg.lifetime);
    RevokingAllKeeps(b, h.sessions, u, te.at, cfg.lifetime);
    assert Covered(b, h.sessions[j], te.at);
    UnreadableIsOver(b, h.sessions, h.sessions[j], te.at, cfg.lifetime);
    EveryEventMoves(h, te, cfg);
    assert Outlasts(AllRevoked(b, u, te.at, cfg.lifetime), h.sessions[j]);
  }

  /**
   * From a new system: while the user has been issued at most 20 sessions, none issued before a successful
   * reset is live at any moment after it.
   */
  lemma NoSessionSurvivesAReset(h: History, before: seq<Timely>, te: Timely, after: seq<Timely>, x: string, j: string, cfg: Config)
    requires IsNew(h) && Feasible(h, before, cfg)
    requires var m := Run(h, before, cfg);
             && Possible(m, te) && Spends(m, te, x, cfg) && x in m.resetFor
             && j in m.sessions && m.sessions[j].userId == m.resetFor[x]
             && |IssuedTo(m.sessions, m.resetFor[x])| <= INDEX_LIMIT
             && Feasible(Next(m, te, cfg), after, cfg)
    ensures var r := Run(Next(Run(h, before, cfg), te, cfg), after, cfg);
            !IsLive(r.w.board, Run(h, before, cfg).sessions[j], r.now)
  {
    var m := Run(h, before, cfg);
    StartIsSound(h, cfg);
    RunKeepsInv(h, before, cfg);
    RunKeepsResets(h, before, cfg);
    ResetStopsAll(m, te, x, j, cfg);
    NextKeepsInv(m, te, cfg);
    StoppedForGood(Next(m, te, cfg), after, m.sessions[j], cfg);
  }

  lemma {:induction false} RunKeepsResets(h: History, evs: seq<Timely>, cfg: Config)
    requires ResetsKnown(h) && Feasible(h, evs, cfg)
    ensures ResetsKnown(Run(h, evs, cfg))
    decreases |evs|
  {
    if evs != [] {
      NextKeepsResets(h, evs[0], cfg);
      RunKeepsResets(Next(h, evs[0], cfg), evs[1..], cfg);
    }
  }

  /** In general, a session of the user is live right after a reset exactly if it was before and was not listed. */
  lemma LiveAfterResetIffUnlisted(h: History, te: Timely, x: string, j: string, cfg: Config)
    requires Inv(h, cfg) && ResetsKnown(h) && Possible(h, te) && Spends(h, te, x, cfg) && x in h.resetFor
    requires j in h.sessions && h.sessions[j].userId == h.resetFor[x]
    ensures var t := h.sessions[j];
            IsLive(Next(h, te, cfg).w.board, t, te.at) <==>
            IsLive(h.w.board, t, te.at) && j !in JtisFor(h.w.board, h.resetFor[x], te.at)
  {
    EveryEventMoves(h, te, cfg);
    RevokedExactlyIfListed(h.w.board, h.sessions[j], te.at, cfg.lifetime);
  }
}

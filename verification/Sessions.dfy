/**
 * Signed sessions, the bounded list of a user's sessions, and the denylist. Times are in milliseconds, the
 * expiry of a session in seconds; cached records are readable up to and including the instant they expire.
 */
module Sessions {
  import opened Wrappers
  import opened Sequences

  /** A session token that carries a valid signature. */
  datatype Token = Token(jti: string, userId: string, exp: int)

  datatype Timed<+T> = Timed(value: T, until: int)

  function Current<T>(m: map<string, Timed<T>>, key: string, now: int): Option<T> {
    if key in m && now <= m[key].until then Some(m[key].value) else None
  }

  /** The per-user index of session identifiers, and until when an identifier is denied. */
  datatype Board = Board(index: map<string, Timed<seq<string>>>, denied: map<string, int>)

  const INDEX_LIMIT: nat := 20

  /** How long index and denylist records are kept, for sessions of `lifetime` seconds. */
  function KeptMs(lifetime: nat): nat { (if lifetime < 60 then 60 else lifetime) * 1000 }

  function Signed(userId: string, jti: string, now: int, lifetime: nat): Token {
    Token(jti, userId, now / 1000 + lifetime)
  }

  predicate Expired(t: Token, now: int) { t.exp <= now / 1000 }

  predicate IsDenied(b: Board, jti: string, now: int) { jti in b.denied && now <= b.denied[jti] }

  predicate IsLive(b: Board, t: Token, now: int) { !Expired(t, now) && !IsDenied(b, t.jti, now) }

  function JtisFor(b: Board, userId: string, now: int): seq<string> {
    match Current(b.index, userId, now)
    case Some(jtis) => jtis
    case None => []
  }

  function Last20(s: seq<string>): seq<string> { if |s| <= INDEX_LIMIT then s else s[|s| - INDEX_LIMIT..] }

  function Issued(b: Board, userId: string, jti: string, now: int, lifetime: nat): Board {
    var list := JtisFor(b, userId, now);
    if jti in list then b
    else b.(index := b.index[userId := Timed(Last20(list + [jti]), now + KeptMs(lifetime))])
  }

  /** The first `n` identifiers denied, sparing the one kept. */
  function DeniedAll(denied: map<string, int>, jtis: seq<string>, n: nat, kept: Option<string>, until: int): map<string, int>
    requires n <= |jtis|
  {
    if n == 0 then denied
    else
      var before := DeniedAll(denied, jtis, n - 1, kept, until);
      if kept == Some(jtis[n - 1]) then before else before[jtis[n - 1] := until]
  }

  /** Every listed session of the user denied; the list itself stays. */
  function AllRevoked(b: Board, userId: string, now: int, lifetime: nat): Board {
    var jtis := JtisFor(b, userId, now);
    b.(denied := DeniedAll(b.denied, jtis, |jtis|, None, now + KeptMs(lifetime)))
  }

  function Is(kept: Option<string>): string -> bool { (jti: string) => kept == Some(jti) }

  function IsNot(jti: string): string -> bool { (j: string) => j != jti }

  /** Every other listed session of the user denied, and the list cut down to the one kept. */
  function OthersRevoked(b: Board, userId: string, kept: Option<string>, now: int, lifetime: nat): Board {
    var jtis := JtisFor(b, userId, now);
    Board(b.index[userId := Timed(Filter(Is(kept), jtis), now + KeptMs(lifetime))],
          DeniedAll(b.denied, jtis, |jtis|, kept, now + KeptMs(lifetime)))
  }

  /** Denied until it expires of itself, and taken off the list. */
  function LoggedOut(b: Board, t: Token, now: int, lifetime: nat): Board {
    if Expired(t, now) then b
    else
      Board(match Current(b.index, t.userId, now)
            case Some(jtis) => b.index[t.userId := Timed(Filter(IsNot(t.jti), jtis), now + KeptMs(lifetime))]
            case None => b.index,
            b.denied[t.jti := now + (t.exp - now / 1000) * 1000])
  }

  class SessionCache {
    const lifetime: nat
    var index: map<string, Timed<seq<string>>>
    var denied: map<string, int>

    constructor (lifetime: nat)
      ensures this.lifetime == lifetime && Contents() == Board(map[], map[])
    {
      this.lifetime := lifetime;
      index, denied := map[], map[];
    }

    function Contents(): Board
      reads this
    {
      Board(index, denied)
    }

    method Jtis(userId: string, now: int) returns (jtis: seq<string>)
      ensures jtis == JtisFor(Contents(), userId, now)
    {
      var raw := Current(index, userId, now);
      jtis := if raw.Some? then raw.value else [];
    }

    method IssueSession(userId: string, jti: string, now: int) returns (t: Token)
      modifies this
      ensures t == Signed(userId, jti, now, lifetime)
      ensures Contents() == Issued(old(Contents()), userId, jti, now, lifetime)
    {
      t := Token(jti, userId, now / 1000 + lifetime);
      var list := Jtis(userId, now);
      if jti !in list {
        list := list + [jti];
        index := index[userId := Timed(Last20(list), now + KeptMs(lifetime))];
      }
    }

    method RevokeByJti(jti: string, now: int)
      modifies this`denied
      ensures denied == old(denied)[jti := now + KeptMs(lifetime)]
    {
      denied := denied[jti := now + KeptMs(lifetime)];
    }

    method RevokeAll(userId: string, now: int)
      modifies this`denied
      ensures Contents() == AllRevoked(old(Contents()), userId, now, lifetime)
    {
      var jtis := Jtis(userId, now);
      for i := 0 to |jtis|
        invariant denied == DeniedAll(old(denied), jtis, i, None, now + KeptMs(lifetime))
      {
        RevokeByJti(jtis[i], now);
      }
    }

    method RevokeOthers(userId: string, current: string, now: int) returns (revoked: nat)
      modifies this
      ensures Contents() == OthersRevoked(old(Contents()), userId, Some(current), now, lifetime)
      ensures revoked + |Filter(Is(Some(current)), JtisFor(old(Contents()), userId, now))| == |JtisFor(old(Contents()), userId, now)|
    {
      var jtis := Jtis(userId, now);
      var remaining: seq<string> := [];
      revoked := 0;
      for i := 0 to |jtis|
        invariant index == old(index)
        invariant denied == DeniedAll(old(denied), jtis, i, Some(current), now + KeptMs(lifetime))
        invariant remaining == FilterUpTo(Is(Some(current)), jtis, i)
        invariant revoked + |remaining| == i
      {
        if jtis[i] == current {
          remaining := remaining + [jtis[i]];
        } else {
          RevokeByJti(jtis[i], now);
          revoked := revoked + 1;
        }
      }
      index := index[userId := Timed(remaining, now + KeptMs(lifetime))];
    }

    method Logout(t: Token, now: int)
      modifies this
      ensures Contents() == LoggedOut(old(Contents()), t, now, lifetime)
    {
      if Expired(t, now) {
        return;
      }
      var left := t.exp - now / 1000;
      var ttl := if left < 1 then 1 else left;
      denied := denied[t.jti := now + ttl * 1000];
      var raw := Current(index, t.userId, now);
      if raw.Some? {
        index := index[t.userId := Timed(Filter(IsNot(t.jti), raw.value), now + KeptMs(lifetime))];
      }
    }
  }

  // ---- What a board keeps ----

  /** A denial lasts at least as long as the session it stops. */
  predicate Outlasts(b: Board, t: Token) {
    t.jti in b.denied ==> b.denied[t.jti] >= t.exp * 1000
  }

  /** Once stopped, a session stays stopped. */
  predicate Stopped(b: Board, t: Token, now: int) {
    Expired(t, now) || (t.jti in b.denied && b.denied[t.jti] >= t.exp * 1000)
  }

  lemma StoppedIsNotLive(b: Board, t: Token, now: int, later: int)
    requires Stopped(b, t, now) && now <= later
    ensures !IsLive(b, t, later) && Stopped(b, t, later)
  {
  }

  lemma {:induction false} DeniedAllAt(denied: map<string, int>, jtis: seq<string>, n: nat, kept: Option<string>, until: int, jti: string)
    requires n <= |jtis|
    ensures var r := DeniedAll(denied, jtis, n, kept, until);
            if jti in jtis[..n] && kept != Some(jti) then jti in r && r[jti] == until
            else (jti in r <==> jti in denied) && (jti in r ==> r[jti] == denied[jti])
  {
    if n > 0 {
      DeniedAllAt(denied, jtis, n - 1, kept, until, jti);
      assert jtis[..n] == jtis[..n - 1] + [jtis[n - 1]];
    }
  }

  /** Right after everything listed is revoked, a session lives exactly if it did before and was not listed. */
  lemma RevokedExactlyIfListed(b: Board, t: Token, now: int, lifetime: nat)
    ensures IsLive(AllRevoked(b, t.userId, now, lifetime), t, now) <==>
            IsLive(b, t, now) && t.jti !in JtisFor(b, t.userId, now)
  {
    var jtis := JtisFor(b, t.userId, now);
    DeniedAllAt(b.denied, jtis, |jtis|, None, now + KeptMs(lifetime), t.jti);
    assert jtis[..|jtis|] == jtis;
  }

  /** The same when one session is kept. */
  lemma OthersRevokedExactlyIfListed(b: Board, t: Token, kept: string, now: int, lifetime: nat)
    ensures IsLive(OthersRevoked(b, t.userId, Some(kept), now, lifetime), t, now) <==>
            IsLive(b, t, now) && (t.jti == kept || t.jti !in JtisFor(b, t.userId, now))
  {
    var jtis := JtisFor(b, t.userId, now);
    DeniedAllAt(b.denied, jtis, |jtis|, Some(kept), now + KeptMs(lifetime), t.jti);
    assert jtis[..|jtis|] == jtis;
  }

  /** The board after `n` sign-ins of one user at one instant. */
  function ManyIssued(b: Board, userId: string, jtis: seq<string>, n: nat, now: int, lifetime: nat): Board
    requires n <= |jtis|
  {
    if n == 0 then b else Issued(ManyIssued(b, userId, jtis, n - 1, now, lifetime), userId, jtis[n - 1], now, lifetime)
  }

  lemma {:induction false} TheListIsTheLast20(userId: string, jtis: seq<string>, n: nat, now: int, lifetime: nat)
    requires n <= |jtis| && NoDuplicates(jtis)
    ensures var b := ManyIssued(Board(map[], map[]), userId, jtis, n, now, lifetime);
            JtisFor(b, userId, now) == Last20(jtis[..n]) && b.denied == map[]
  {
    if n > 0 {
      TheListIsTheLast20(userId, jtis, n - 1, now, lifetime);
      OneMoreListed(ManyIssued(Board(map[], map[]), userId, jtis, n - 1, now, lifetime), userId, jtis, n, now, lifetime);
    }
  }

  lemma OneMoreListed(b: Board, userId: string, jtis: seq<string>, n: nat, now: int, lifetime: nat)
    requires 0 < n <= |jtis| && NoDuplicates(jtis) && JtisFor(b, userId, now) == Last20(jtis[..n - 1])
    ensures var r := Issued(b, userId, jtis[n - 1], now, lifetime);
            JtisFor(r, userId, now) == Last20(jtis[..n]) && r.denied == b.denied
  {
    LastOfLast(jtis, n);
  }

  lemma LastOfLast(jtis: seq<string>, n: nat)
    requires 0 < n <= |jtis| && NoDuplicates(jtis)
    ensures Last20(Last20(jtis[..n - 1]) + [jtis[n - 1]]) == Last20(jtis[..n])
    ensures jtis[n - 1] !in Last20(jtis[..n - 1])
  {
    assert jtis[..n] == jtis[..n - 1] + [jtis[n - 1]];
  }

  /** After a twenty-first sign-in the first session is listed no more, and outlives a revocation of them all. */
  lemma TheTwentyFirstHidesTheFirst(userId: string, jtis: seq<string>, now: int, lifetime: nat)
    requires |jtis| == 21 && NoDuplicates(jtis) && lifetime > 0
    ensures var b := ManyIssued(Board(map[], map[]), userId, jtis, |jtis|, now, lifetime);
            IsLive(AllRevoked(b, userId, now, lifetime), Signed(userId, jtis[0], now, lifetime), now)
  {
    var b := ManyIssued(Board(map[], map[]), userId, jtis, |jtis|, now, lifetime);
    TheListIsTheLast20(userId, jtis, |jtis|, now, lifetime);
    assert jtis[..|jtis|] == jtis;
    RevokedExactlyIfListed(b, Signed(userId, jtis[0], now, lifetime), now, lifetime);
  }
}

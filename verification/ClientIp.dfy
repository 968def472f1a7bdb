/** Which address a request is attributed to, behind a number of trusted proxies. */
module ClientIp {
  import opened Wrappers
  import opened Strings

  predicate IsSpace(c: char) {
    var code := c as int;
    9 <= code <= 13 || 0x2000 <= code <= 0x200a
    || code in {0x20, 0xa0, 0x1680, 0x2028, 0x2029, 0x202f, 0x205f, 0x3000, 0xfeff}
  }

  function TrimStart(s: string): string {
    if s != "" && IsSpace(s[0]) then TrimStart(s[1..]) else s
  }

  function Trim(s: string): string
    decreases |s|
  {
    if s != "" && IsSpace(s[|s| - 1]) then Trim(s[..|s| - 1]) else TrimStart(s)
  }

  /** map(trim).filter(Boolean) */
  function Cleaned(parts: seq<string>): seq<string> {
    if parts == [] then []
    else (if Trim(parts[0]) == "" then [] else [Trim(parts[0])]) + Cleaned(parts[1..])
  }

  function Entries(header: string): seq<string> {
    Cleaned(Split(header, ','))
  }

  /** The header as received: absent, one value, or one value for each header line. */
  datatype Forwarded = Absent | One(value: string) | Many(values: seq<string>)

  function HeaderOf(f: Forwarded): string {
    match f
    case Absent => ""
    case One(v) => v
    case Many(vs) => Join(vs, ',')
  }

  function ClientIpOf(socketIp: Option<string>, forwarded: Forwarded, trustedProxyHops: int): Option<string> {
    if trustedProxyHops <= 0 then socketIp
    else
      var header := HeaderOf(forwarded);
      if header == "" then socketIp
      else Chosen(socketIp, Entries(header), trustedProxyHops)
  }

  /** The entry just left of those the trusted proxies appended. */
  function Chosen(socketIp: Option<string>, entries: seq<string>, hops: nat): Option<string> {
    if |entries| <= hops then socketIp else Some(entries[|entries| - hops - 1])
  }

  function RateLimitIp(socketIp: Option<string>, forwarded: Forwarded, trustedProxyHops: int): string {
    var ip := ClientIpOf(socketIp, forwarded, trustedProxyHops);
    if ip.Some? then ip.value else "unknown"
  }

  // ── Suffix dependence ──

  lemma {:induction false} CleanedAppend(a: seq<string>, b: seq<string>)
    ensures Cleaned(a + b) == Cleaned(a) + Cleaned(b)
  {
    if a == [] {
      assert a + b == b;
    } else {
      assert (a + b)[1..] == a[1..] + b;
      CleanedAppend(a[1..], b);
    }
  }

  lemma EntriesAppend(a: string, b: string)
    ensures Entries(a + "," + b) == Entries(a) + Entries(b)
  {
    SplitAtSeparator(a, ',', b);
    CleanedAppend(Split(a, ','), Split(b, ','));
  }

  /** Whatever a caller puts in front of what the trusted proxies appended, the chosen address is the same. */
  lemma ForgedPrefixIgnored(socketIp: Option<string>, header: string, hops: int, forged: string)
    requires |Entries(header)| > hops
    ensures ClientIpOf(socketIp, One(forged + "," + header), hops) == ClientIpOf(socketIp, One(header), hops)
  {
    if hops > 0 {
      NoEntriesInEmpty();
      assert header != "";
      var whole := forged + "," + header;
      assert |whole| > 0;
      assert Entries(whole) == Entries(forged) + Entries(header) by {
        EntriesAppend(forged, header);
      }
      FrontIgnored(socketIp, Entries(forged), Entries(header), hops);
    }
  }

  /** So no forged entry moves a caller to another rate-limit bucket. */
  lemma BucketIsFixed(socketIp: Option<string>, header: string, hops: int, forged: string)
    requires hops > 0 && |Entries(header)| > hops
    ensures RateLimitIp(socketIp, One(forged + "," + header), hops) == RateLimitIp(socketIp, One(header), hops)
    ensures RateLimitIp(socketIp, One(header), hops) == Entries(header)[|Entries(header)| - hops - 1]
  {
    ForgedPrefixIgnored(socketIp, header, hops, forged);
    NoEntriesInEmpty();
  }

  lemma FrontIgnored(socketIp: Option<string>, front: seq<string>, entries: seq<string>, hops: nat)
    requires |entries| > hops
    ensures Chosen(socketIp, front + entries, hops) == Chosen(socketIp, entries, hops)
  {
  }

  lemma NoEntriesInEmpty()
    ensures Entries("") == []
  {
    assert Split("", ',') == [""];
    assert Trim("") == "";
    assert [""][1..] == [];
  }

  /** `n` copies of an address, comma-separated. */
  function Copies(v: string, n: nat): string
    requires n >= 1
  {
    if n == 1 then v else v + "," + Copies(v, n - 1)
  }

  lemma {:induction false} CopiesEntries(v: string, n: nat)
    requires n >= 1 && v in {"x", "y"}
    ensures |Entries(Copies(v, n))| == n && forall i :: 0 <= i < n ==> Entries(Copies(v, n))[i] == v
  {
    SplitWithoutSeparator(v, ',');
    assert Split(v, ',')[1..] == [];
    assert Entries(v) == [v];
    if n > 1 {
      EntriesAppend(v, Copies(v, n - 1));
      CopiesEntries(v, n - 1);
    }
  }

  /** With fewer entries than that, some forged prefix does choose the address: the guard is exact. */
  lemma PrefixIndependenceIffEnoughEntries(socketIp: Option<string>, header: string, hops: int)
    requires hops > 0
    ensures (forall forged :: ClientIpOf(socketIp, One(forged + "," + header), hops) == ClientIpOf(socketIp, One(header), hops))
            <==> |Entries(header)| > hops
  {
    if |Entries(header)| > hops {
      forall forged {
        ForgedPrefixIgnored(socketIp, header, hops, forged);
      }
    } else {
      var x, y := Copies("x", hops + 1), Copies("y", hops + 1);
      ForgedPrefixChooses(socketIp, header, hops, "x");
      ForgedPrefixChooses(socketIp, header, hops, "y");
      assert ClientIpOf(socketIp, One(x + "," + header), hops) != ClientIpOf(socketIp, One(y + "," + header), hops);
    }
  }

  lemma ForgedPrefixChooses(socketIp: Option<string>, header: string, hops: int, v: string)
    requires hops > 0 && |Entries(header)| <= hops && v in {"x", "y"}
    ensures ClientIpOf(socketIp, One(Copies(v, hops + 1) + "," + header), hops) == Some(v)
  {
    CopiesEntries(v, hops + 1);
    EntriesAppend(Copies(v, hops + 1), header);
  }

  // ── What is chosen ──

  /** Without trusted hops, without the header, or with no more entries than hops, the socket's own address; else the entry before them. */
  lemma ChosenByHops(socketIp: Option<string>, forwarded: Forwarded, hops: int)
    ensures var header := match forwarded case Absent => "" case One(v) => v case Many(vs) => Join(vs, ',');
            var entries := Entries(header);
            && (hops <= 0 || header == "" || |entries| <= hops ==> ClientIpOf(socketIp, forwarded, hops) == socketIp)
            && (hops > 0 && header != "" && |entries| > hops ==>
                  ClientIpOf(socketIp, forwarded, hops) == Some(entries[|entries| - 1 - hops]))
            && RateLimitIp(socketIp, forwarded, hops)
               == if ClientIpOf(socketIp, forwarded, hops).Some? then ClientIpOf(socketIp, forwarded, hops).value else "unknown"
  {
  }

  predicate AllSpace(s: string) { forall i :: 0 <= i < |s| ==> IsSpace(s[i]) }

  lemma {:induction false} StartTrimmed(s: string) returns (lead: string)
    ensures s == lead + TrimStart(s) && AllSpace(lead)
    ensures TrimStart(s) != "" ==> !IsSpace(TrimStart(s)[0])
  {
    lead := "";
    if s != "" && IsSpace(s[0]) {
      var more := StartTrimmed(s[1..]);
      lead := [s[0]] + more;
      assert s == [s[0]] + s[1..];
    }
  }

  /** Trimming takes the white space off both ends, and nothing else. */
  lemma {:induction false} TrimmedIsCore(s: string) returns (lead: string, tail: string)
    ensures s == lead + Trim(s) + tail && AllSpace(lead) && AllSpace(tail)
    ensures Trim(s) != "" ==> !IsSpace(Trim(s)[0]) && !IsSpace(Trim(s)[|Trim(s)| - 1])
    decreases |s|
  {
    if s != "" && IsSpace(s[|s| - 1]) {
      lead, tail := TrimmedIsCore(s[..|s| - 1]);
      tail := tail + [s[|s| - 1]];
      assert s == s[..|s| - 1] + [s[|s| - 1]];
    } else {
      lead := StartTrimmed(s);
      tail := "";
      assert Trim(s) != "" ==> Trim(s)[|Trim(s)| - 1] == s[|s| - 1];
    }
  }

  lemma {:induction false} CleanedIsTrimmed(parts: seq<string>, entry: string)
    ensures entry in Cleaned(parts) <==> entry != "" && exists i :: 0 <= i < |parts| && Trim(parts[i]) == entry
  {
    if parts != [] {
      CleanedIsTrimmed(parts[1..], entry);
      if i: int :| 0 <= i < |parts| && Trim(parts[i]) == entry {
        assert i > 0 ==> parts[1..][i - 1] == parts[i];
      }
      if i: int :| 0 <= i < |parts[1..]| && Trim(parts[1..][i]) == entry {
        assert parts[i + 1] == parts[1..][i];
      }
    }
  }

  /** Digits, hexadecimal letters, dots and colons. */
  predicate IsAddress(s: string) {
    s != "" && forall i :: 0 <= i < |s| ==> '0' <= s[i] <= '9' || 'a' <= s[i] <= 'f' || 'A' <= s[i] <= 'F' || s[i] == '.' || s[i] == ':'
  }

  /** An address is an entry as it stands. */
  lemma AddressIsEntry(s: string)
    requires IsAddress(s)
    ensures Entries(s) == [s]
  {
    SplitWithoutSeparator(s, ',');
    assert Trim(s) == s;
    assert [s][1..] == [] && Cleaned([s]) == [s];
  }

  /** Appended by the last proxy, an address is what one trusted hop leaves of a header of two. */
  lemma OneHopChoosesTheLastButOne(socketIp: Option<string>, forged: string, client: string, proxy: string)
    requires IsAddress(client) && IsAddress(proxy)
    ensures ClientIpOf(socketIp, One(forged + "," + (client + "," + proxy)), 1) == Some(client)
  {
    AddressIsEntry(client);
    AddressIsEntry(proxy);
    EntriesAppend(client, proxy);
    EntriesAppend(forged, client + "," + proxy);
    assert Entries(client + "," + proxy) == [client, proxy];
    var header := forged + "," + (client + "," + proxy);
    assert |header| > 0 && Entries(header) == Entries(forged) + [client, proxy];
    ChosenByHops(socketIp, One(header), 1);
  }
}

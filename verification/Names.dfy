/**
 Sandbox names and the engine names derived from them.
 */
module Names {
  import opened GoStrings

  // ----- sanitizeName -----

  predicate Alphabet(c: char) {
    'a' <= c <= 'z' || '0' <= c <= '9' || c == '-'
  }

  function Kept(s: string): (r: string)
    ensures forall c :: c in r ==> Alphabet(c)
  {
    if s == "" then ""
    else
      var rest, c := Kept(s[..|s| - 1]), s[|s| - 1];
      if 'a' <= c <= 'z' || '0' <= c <= '9' then rest + [c]
      else if c == '-' || c == '_' then rest + ['-']
      else rest
  }

  function TrimDashesLeft(s: string): (r: string)
    ensures r != "" ==> r[0] != '-'
    ensures forall c :: c in r ==> c in s
  {
    if s != "" && s[0] == '-' then TrimDashesLeft(s[1..]) else s
  }

  function TrimDashesRight(s: string): (r: string)
    ensures r <= s
    ensures r != "" ==> r[|r| - 1] != '-'
  {
    if s != "" && s[|s| - 1] == '-' then TrimDashesRight(s[..|s| - 1]) else s
  }

  /** strings.Trim(s, "-"). */
  function TrimDashes(s: string): (r: string)
    ensures r != "" ==> r[0] != '-' && r[|r| - 1] != '-'
    ensures forall c :: c in r ==> c in s
  {
    TrimDashesRight(TrimDashesLeft(s))
  }

  function Truncated(s: string): string {
    if |s| > 63 then s[..63] else s
  }

  function Sanitized(name: string): (r: string)
    ensures |r| <= 63
    ensures forall c :: c in r ==> Alphabet(c)
    ensures r != "" ==> r[0] != '-'
  {
    Truncated(TrimDashes(Kept(TrimSpace(ToLower(name)))))
  }

  method SanitizeName(name: string) returns (r: string)
    ensures r == Sanitized(name)
  {
    var s := TrimSpace(ToLower(name));
    var b := "";
    for i := 0 to |s|
      invariant b == Kept(s[..i])
    {
      var c := s[i];
      if 'a' <= c <= 'z' || '0' <= c <= '9' {
        b := b + [c];
      } else if c == '-' || c == '_' {
        b := b + ['-'];
      }
      assert s[..i + 1][..i] == s[..i];
    }
    assert s[..|s|] == s;
    r := TrimDashes(b);
    if |r| > 63 {
      r := r[..63];
    }
  }

  lemma {:induction false} KeptConcat(a: string, b: string)
    ensures Kept(a + b) == Kept(a) + Kept(b)
  {
    if b == "" {
      assert a + b == a;
    } else {
      KeptConcat(a, b[..|b| - 1]);
      assert (a + b)[..|a + b| - 1] == a + b[..|b| - 1];
    }
  }

  /** Character by character: small letters, digits and dashes stay, an underscore becomes a dash, all else is dropped. */
  lemma KeptIsExact(a: string, c: char, b: string)
    ensures Kept(a + [c] + b) ==
            Kept(a) + (if c == '_' then "-" else if 'a' <= c <= 'z' || '0' <= c <= '9' || c == '-' then [c] else "") + Kept(b)
  {
    KeptConcat(a + [c], b);
    KeptConcat(a, [c]);
    KeptOne(c);
  }

  lemma KeptOne(c: char)
    ensures Kept([c]) == if c == '_' then "-" else if 'a' <= c <= 'z' || '0' <= c <= '9' || c == '-' then [c] else ""
  {
    assert [c][..0] == "";
  }

  /** Nothing but the dashes at both ends is cut. */
  lemma TrimDashesIsExact(s: string) returns (i: nat, j: nat)
    ensures i <= j <= |s| && TrimDashes(s) == s[i..j]
    ensures forall k :: 0 <= k < |s| && (k < i || j <= k) ==> s[k] == '-'
  {
    i := TrimLeftIsExact(s);
    var r := TrimDashesLeft(s);
    TrimRightIsExact(r);
    j := i + |TrimDashesRight(r)|;
  }

  lemma {:induction false} TrimLeftIsExact(s: string) returns (i: nat)
    ensures i <= |s| && TrimDashesLeft(s) == s[i..] && forall k :: 0 <= k < i ==> s[k] == '-'
  {
    i := 0;
    if s != "" && s[0] == '-' {
      var n := TrimLeftIsExact(s[1..]);
      i := n + 1;
      assert forall k :: 1 <= k < i ==> s[k] == s[1..][k - 1];
    }
  }

  lemma {:induction false} TrimRightIsExact(s: string)
    ensures TrimDashesRight(s) <= s && forall k :: |TrimDashesRight(s)| <= k < |s| ==> s[k] == '-'
  {
    if s != "" && s[|s| - 1] == '-' {
      TrimRightIsExact(s[..|s| - 1]);
    }
  }

  lemma {:induction false} KeptOfClean(s: string)
    requires forall c :: c in s ==> Alphabet(c)
    ensures Kept(s) == s
  {
    if s != "" {
      assert s == s[..|s| - 1] + [s[|s| - 1]];
      assert s[|s| - 1] in s;
      KeptOfClean(s[..|s| - 1]);
    }
  }

  lemma CleanIsPlain(s: string)
    requires forall c :: c in s ==> Alphabet(c)
    ensures TrimSpace(ToLower(s)) == s
  {
    forall i | 0 <= i < |s|
      ensures Lower(s[i]) == s[i] && !IsSpace(s[i])
    {
      assert Alphabet(s[i]);
    }
    assert ToLower(s) == s;
    TrimSpaceFixed(s);
  }

  /**
   Sanitizing again changes nothing exactly when the name fits into 63 characters or the
   cut does not fall behind a dash.
   */
  lemma SanitizedAgain(name: string)
    ensures var k := TrimDashes(Kept(TrimSpace(ToLower(name))));
            Sanitized(Sanitized(name)) == Sanitized(name) <==> |k| <= 63 || k[62] != '-'
  {
    var s := Sanitized(name);
    CleanIsPlain(s);
    KeptOfClean(s);
    assert TrimDashesLeft(s) == s;
  }

  /** A name that a second pass shortens: 62 letters, a dash, a letter. */
  lemma SanitizeNotIdempotent()
    ensures exists name :: Sanitized(Sanitized(name)) != Sanitized(name)
  {
    var a := seq(62, _ => 'a');
    var name := a + "-b";
    assert forall c :: c in name ==> c == 'a' || c == '-' || c == 'b';
    CleanIsPlain(name);
    KeptOfClean(name);
    assert TrimDashesLeft(name) == name;
    assert TrimDashesRight(name) == name;
    assert Sanitized(name) == a + "-";
    SanitizedAgain(name);
  }

  // ----- engine names -----

  function CtrName(n: string): string {
    "cauteum-" + n
  }

  function ProxyName(n: string): string {
    "cauteum-proxy-" + n
  }

  function CaVolume(n: string): string {
    "cauteum-ca-" + n
  }

  function SshVolume(n: string): string {
    "cauteum-ssh-" + n
  }

  function DataVolume(n: string): string {
    "cauteum-data-" + n
  }

  function NetName(prefix: string, n: string): string {
    prefix + "-" + n
  }

  function Ctrs(n: string): set<string> {
    {CtrName(n), ProxyName(n)}
  }

  function Vols(n: string): set<string> {
    {CaVolume(n), SshVolume(n), DataVolume(n)}
  }

  /** Two sandbox names that cannot meet in the engine. */
  predicate Apart(m: string, n: string) {
    m != n && m != "proxy-" + n && n != "proxy-" + m
  }

  lemma SamePrefix(p: string, a: string, b: string)
    requires p + a == p + b
    ensures a == b
  {
    assert (p + a)[|p|..] == a;
    assert (p + b)[|p|..] == b;
  }

  lemma ProxyIsProxySandbox(n: string)
    ensures ProxyName(n) == CtrName("proxy-" + n)
  {
    assert "cauteum-proxy-" + n == "cauteum-" + ("proxy-" + n);
  }

  /** The containers, volumes and networks of two apart sandboxes all differ. */
  lemma ApartNames(prefix: string, m: string, n: string)
    requires Apart(m, n)
    ensures Ctrs(m) !! Ctrs(n)
    ensures Vols(m) !! Vols(n)
    ensures NetName(prefix, m) != NetName(prefix, n)
  {
    ProxyIsProxySandbox(m);
    ProxyIsProxySandbox(n);
    if CtrName(m) == CtrName(n) { SamePrefix("cauteum-", m, n); }
    if CtrName(m) == ProxyName(n) { SamePrefix("cauteum-", m, "proxy-" + n); }
    if ProxyName(m) == CtrName(n) { SamePrefix("cauteum-", "proxy-" + m, n); }
    if ProxyName(m) == ProxyName(n) { SamePrefix("cauteum-proxy-", m, n); }
    if CaVolume(m) == CaVolume(n) { SamePrefix("cauteum-ca-", m, n); }
    if SshVolume(m) == SshVolume(n) { SamePrefix("cauteum-ssh-", m, n); }
    if DataVolume(m) == DataVolume(n) { SamePrefix("cauteum-data-", m, n); }
    VolumeKinds(m, n);
    VolumeKinds(n, m);
    if NetName(prefix, m) == NetName(prefix, n) { SamePrefix(prefix + "-", m, n); }
  }

  lemma VolumeKinds(m: string, n: string)
    ensures CaVolume(m) != SshVolume(n) && CaVolume(m) != DataVolume(n) && SshVolume(m) != DataVolume(n)
  {
    assert CaVolume(m)[8] == 'c' && SshVolume(m)[8] == SshVolume(n)[8] == 's' && DataVolume(n)[8] == 'd';
  }

  /** Two different sandboxes share a container name exactly when one is called "proxy-" plus the other. */
  lemma ApartIsExact(m: string, n: string)
    ensures Ctrs(m) !! Ctrs(n) <==> Apart(m, n)
  {
    if Apart(m, n) {
      ApartNames("", m, n);
    } else {
      ProxyIsProxySandbox(m);
      ProxyIsProxySandbox(n);
      assert CtrName(m) in Ctrs(m) && CtrName(n) in Ctrs(n) && ProxyName(m) in Ctrs(m) && ProxyName(n) in Ctrs(n);
    }
  }

  lemma OwnNamesDiffer(prefix: string, n: string)
    ensures CtrName(n) != ProxyName(n)
    ensures NetName(prefix, n) != "bridge"
  {
    assert |CtrName(n)| == 8 + |n| && |ProxyName(n)| == 14 + |n|;
    assert NetName(prefix, n)[|prefix|] == '-';
    assert "bridge"[0] == 'b';
    assert '-' !in "bridge";
    assert '-' in NetName(prefix, n);
  }
}

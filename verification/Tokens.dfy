/** Dot-separated token texts: the refresh token's three parts and the signed double-submit CSRF token. The message
    authentication code is a parameter: nothing here depends on which function it is. */
module Tokens {
  import opened Wrappers
  import opened Decimal

  // ---------- splitting at dots ----------

  predicate DotFree(s: string) {
    forall i :: 0 <= i < |s| ==> s[i] != '.'
  }

  predicate AllDotFree(parts: seq<string>) {
    forall i :: 0 <= i < |parts| ==> DotFree(parts[i])
  }

  function Parts(v: string): (parts: seq<string>)
    ensures |parts| >= 1
    decreases |v|
  {
    var i := DotIndex(v);
    if i == |v| then [v] else [v[..i]] + Parts(v[i + 1..])
  }

  function Join(parts: seq<string>): string
    requires parts != []
  {
    if |parts| == 1 then parts[0] else parts[0] + "." + Join(parts[1..])
  }

  lemma DotIndexUnique(v: string, i: nat)
    requires i <= |v| && DotFree(v[..i]) && (i < |v| ==> v[i] == '.')
    ensures DotIndex(v) == i
  {
    assert forall j :: 0 <= j < i ==> v[j] == v[..i][j];
  }

  lemma SplitStep(v: string, start: nat, i: nat)
    requires start <= i < |v| && v[i] == '.' && DotFree(v[start..i])
    ensures Parts(v[start..]) == [v[start..i]] + Parts(v[i + 1..])
  {
    var rest := v[start..];
    assert rest[..i - start] == v[start..i];
    DotIndexUnique(rest, i - start);
    assert rest[i - start + 1..] == v[i + 1..];
  }

  lemma SplitEnd(v: string)
    requires DotFree(v)
    ensures Parts(v) == [v]
  {
    assert v[..|v|] == v;
    DotIndexUnique(v, |v|);
  }

  method Split(v: string) returns (out: seq<string>)
    ensures out == Parts(v)
  {
    hide Parts;
    out := [];
    var start := 0;
    assert v[start..] == v;
    for i := 0 to |v|
      invariant 0 <= start <= i
      invariant DotFree(v[start..i])
      invariant Parts(v) == out + Parts(v[start..])
    {
      if v[i] == '.' {
        SplitStep(v, start, i);
        assert out + ([v[start..i]] + Parts(v[i + 1..])) == out + [v[start..i]] + Parts(v[i + 1..]);
        out := out + [v[start..i]];
        start := i + 1;
      } else {
        assert v[start..i + 1] == v[start..i] + [v[i]];
      }
    }
    assert v[start..|v|] == v[start..];
    SplitEnd(v[start..]);
    out := out + [v[start..]];
  }

  lemma JoinCons(first: string, rest: seq<string>)
    requires rest != []
    ensures Join([first] + rest) == first + "." + Join(rest)
  {
    assert ([first] + rest)[1..] == rest;
  }

  lemma PartsStep(v: string)
    ensures var i := DotIndex(v);
      Parts(v) == if i == |v| then [v] else [v[..i]] + Parts(v[i + 1..])
  {
    hide DotIndex;
  }

  lemma JoinOne(v: string)
    ensures Join([v]) == v
  {
  }

  /** Splitting loses nothing. */
  lemma {:induction false} JoinUndoesSplit(v: string)
    ensures Join(Parts(v)) == v
    decreases |v|
  {
    hide Parts, Join;
    var i := DotIndex(v);
    PartsStep(v);
    if i < |v| {
      JoinUndoesSplit(v[i + 1..]);
      JoinCons(v[..i], Parts(v[i + 1..]));
      assert v == v[..i] + "." + v[i + 1..];
    } else {
      JoinOne(v);
    }
  }

  /** Splitting leaves no dot. */
  lemma {:induction false} PartsDotFree(v: string)
    ensures AllDotFree(Parts(v))
    decreases |v|
  {
    var i := DotIndex(v);
    if i < |v| {
      PartsDotFree(v[i + 1..]);
    }
  }

  /** Dot-free parts are recovered from their join. */
  lemma {:induction false} SplitUndoesJoin(parts: seq<string>)
    requires parts != [] && AllDotFree(parts)
    ensures Parts(Join(parts)) == parts
    decreases |parts|
  {
    var v, n := Join(parts), |parts[0]|;
    assert v[..n] == parts[0];
    DotIndexUnique(v, n);
    if |parts| > 1 {
      assert v[n + 1..] == Join(parts[1..]);
      SplitUndoesJoin(parts[1..]);
    } else {
      assert [v] == parts;
    }
  }

  // ---------- refresh tokens ----------

  datatype RefreshToken = RefreshToken(fam: string, jti: string, secret: string)

  function TokenText(t: RefreshToken): string {
    t.fam + "." + t.jti + "." + t.secret
  }

  predicate WellFormed(t: RefreshToken) {
    t.fam != "" && t.jti != "" && t.secret != "" && DotFree(t.fam) && DotFree(t.jti) && DotFree(t.secret)
  }

  function ParseRefreshToken(tok: string): Option<RefreshToken> {
    var parts := Parts(tok);
    if |parts| != 3 || parts[0] == "" || parts[1] == "" || parts[2] == "" then None
    else Some(RefreshToken(parts[0], parts[1], parts[2]))
  }

  lemma JoinThree(a: string, b: string, c: string)
    ensures Join([a, b, c]) == a + "." + b + "." + c
  {
    JoinTwo(b, c);
    JoinCons(a, [b, c]);
    assert [a] + [b, c] == [a, b, c];
    assert a + "." + (b + "." + c) == a + "." + b + "." + c;
  }

  lemma ParsedIsText(tok: string, t: RefreshToken)
    requires ParseRefreshToken(tok) == Some(t)
    ensures WellFormed(t) && tok == TokenText(t)
  {
    hide Parts, Join;
    var parts := Parts(tok);
    assert parts == [t.fam, t.jti, t.secret];
    JoinUndoesSplit(tok);
    PartsDotFree(tok);
    assert DotFree(parts[0]) && DotFree(parts[1]) && DotFree(parts[2]);
    JoinThree(t.fam, t.jti, t.secret);
  }

  lemma TextIsParsed(t: RefreshToken)
    requires WellFormed(t)
    ensures ParseRefreshToken(TokenText(t)) == Some(t)
  {
    hide Parts, Join;
    var parts := [t.fam, t.jti, t.secret];
    assert Parts(TokenText(t)) == parts by {
      JoinThree(t.fam, t.jti, t.secret);
      SplitUndoesJoin(parts);
    }
  }

  /** A text parses to exactly the well-formed token it is the text of. */
  lemma ParseIff(tok: string, t: RefreshToken)
    ensures ParseRefreshToken(tok) == Some(t) <==> WellFormed(t) && tok == TokenText(t)
  {
    hide ParseRefreshToken, WellFormed, TokenText;
    if ParseRefreshToken(tok) == Some(t) {
      ParsedIsText(tok, t);
    } else if WellFormed(t) {
      TextIsParsed(t);
    }
  }

  // ---------- hexadecimal ----------

  type Byte = b: nat | b < 256

  function HexDigit(d: nat): char
    requires d < 16
  {
    if d < 10 then ('0' as int + d) as char else ('a' as int + d - 10) as char
  }

  function HexText(bytes: seq<Byte>): string {
    if bytes == [] then "" else [HexDigit(bytes[0] / 16), HexDigit(bytes[0] % 16)] + HexText(bytes[1..])
  }

  function HexValue(c: char): Option<nat> {
    if '0' <= c <= '9' then Some(c as int - '0' as int)
    else if 'a' <= c <= 'f' then Some(c as int - 'a' as int + 10)
    else if 'A' <= c <= 'F' then Some(c as int - 'A' as int + 10)
    else None
  }

  /** hex.DecodeString: either case, pairs only. */
  function HexDecode(s: string): Option<seq<Byte>> {
    if s == "" then Some([])
    else if |s| == 1 then None
    else
      match (HexValue(s[0]), HexValue(s[1]), HexDecode(s[2..]))
      case (Some(hi), Some(lo), Some(rest)) =>
        HexValueRange(s[0]);
        HexValueRange(s[1]);
        Some([hi * 16 + lo] + rest)
      case _ => None
  }

  lemma HexValueRange(c: char)
    ensures HexValue(c).Some? ==> HexValue(c).value < 16
  {
  }

  function LowerChar(c: char): char {
    if 'A' <= c <= 'F' then (c as int - 'A' as int + 'a' as int) as char else c
  }

  /** A text with its hexadecimal letters in lower case. */
  function Lower(s: string): (t: string)
    ensures |t| == |s| && forall i :: 0 <= i < |s| ==> t[i] == LowerChar(s[i])
  {
    seq(|s|, i requires 0 <= i < |s| => LowerChar(s[i]))
  }

  lemma HexCharIff(c: char, d: nat)
    requires d < 16
    ensures HexValue(c) == Some(d) <==> LowerChar(c) == HexDigit(d)
  {
  }

  lemma PairIff(c: char, d: char, b: Byte)
    ensures HexValue(c).Some? && HexValue(d).Some? && HexValue(c).value * 16 + HexValue(d).value == b
       <==> LowerChar(c) == HexDigit(b / 16) && LowerChar(d) == HexDigit(b % 16)
  {
    HexCharIff(c, b / 16);
    HexCharIff(d, b % 16);
    HexValueRange(c);
    HexValueRange(d);
  }

  /** Decoding succeeds on exactly the case variants of an encoding, and undoes it. */
  lemma {:induction false} DecodeIff(s: string, bytes: seq<Byte>)
    ensures HexDecode(s) == Some(bytes) <==> Lower(s) == HexText(bytes)
    decreases |s|
  {
    if |s| >= 2 && bytes != [] {
      hide HexValue, LowerChar, HexDigit;
      var (l, h) := (Lower(s), HexText(bytes));
      PairIff(s[0], s[1], bytes[0]);
      DecodeIff(s[2..], bytes[1..]);
      assert l == [l[0], l[1]] + Lower(s[2..]);
      assert h == [h[0], h[1]] + HexText(bytes[1..]);
      assert bytes == [bytes[0]] + bytes[1..];
      assert l == h <==> l[0] == h[0] && l[1] == h[1] && Lower(s[2..]) == HexText(bytes[1..]) by {
        assert l[2..] == Lower(s[2..]) && h[2..] == HexText(bytes[1..]);
      }
    }
  }

  lemma {:induction false} HexTextDotFree(bytes: seq<Byte>)
    ensures DotFree(HexText(bytes)) && |HexText(bytes)| == 2 * |bytes|
  {
    if bytes != [] {
      HexTextDotFree(bytes[1..]);
    }
  }

  // ---------- CSRF tokens ----------

  type Mac = (string, seq<Byte>) -> seq<Byte>

  function IssueCsrf(mac: Mac, secret: string, nonce: seq<Byte>): string {
    HexText(nonce) + "." + HexText(mac(secret, nonce))
  }

  predicate VerifyCsrf(mac: Mac, secret: string, cookie: string, header: string) {
    if cookie == "" || header == "" || cookie != header then false
    else
      var parts := Parts(cookie);
      if |parts| != 2 then false
      else
        var nonce := HexDecode(parts[0]);
        if nonce.None? || |nonce.value| == 0 then false
        else HexDecode(parts[1]) == Some(mac(secret, nonce.value))
  }

  lemma JoinTwo(a: string, b: string)
    ensures Join([a, b]) == a + "." + b
  {
    assert [a, b][1..] == [b];
  }

  lemma LowerJoin(a: string, b: string)
    ensures Lower(a + "." + b) == Lower(a) + "." + Lower(b)
  {
  }

  lemma LowerDots(s: string)
    ensures DotFree(Lower(s)) <==> DotFree(s)
  {
    assert forall i :: 0 <= i < |s| ==> (LowerChar(s[i]) == '.' <==> s[i] == '.');
    if DotFree(Lower(s)) {
      assert forall i :: 0 <= i < |s| ==> Lower(s)[i] != '.';
    }
  }

  /** An accepted pair is a repeated case variant of the token issued for some nonce. */
  lemma AcceptedWasIssued(mac: Mac, secret: string, cookie: string, header: string) returns (nonce: seq<Byte>)
    requires VerifyCsrf(mac, secret, cookie, header)
    ensures nonce != [] && Lower(cookie) == IssueCsrf(mac, secret, nonce) && header == cookie
  {
    var parts := Parts(cookie);
    nonce := HexDecode(parts[0]).value;
    DecodeIff(parts[0], nonce);
    DecodeIff(parts[1], mac(secret, nonce));
    JoinUndoesSplit(cookie);
    hide Join, Parts;
    assert parts == [parts[0], parts[1]];
    JoinTwo(parts[0], parts[1]);
    LowerJoin(parts[0], parts[1]);
  }

  /** Every case variant of an issued token, echoed in the header, is accepted. */
  lemma IssuedIsAccepted(mac: Mac, secret: string, nonce: seq<Byte>, cookie: string)
    requires nonce != [] && Lower(cookie) == IssueCsrf(mac, secret, nonce)
    ensures VerifyCsrf(mac, secret, cookie, cookie)
  {
    var sum := mac(secret, nonce);
    HexTextDotFree(nonce);
    HexTextDotFree(sum);
    var n := |HexText(nonce)|;
    var a, b := cookie[..n], cookie[n + 1..];
    assert LowerChar(cookie[n]) == Lower(cookie)[n] == '.';
    assert cookie == a + "." + b;
    assert Lower(a) == HexText(nonce) by { assert Lower(a) == Lower(cookie)[..n]; }
    assert Lower(b) == HexText(sum) by { assert Lower(b) == Lower(cookie)[n + 1..]; }
    LowerDots(a);
    LowerDots(b);
    JoinTwo(a, b);
    SplitUndoesJoin([a, b]);
    DecodeIff(a, nonce);
    DecodeIff(b, sum);
  }

  lemma IssuedIsLower(mac: Mac, secret: string, nonce: seq<Byte>)
    ensures Lower(IssueCsrf(mac, secret, nonce)) == IssueCsrf(mac, secret, nonce)
  {
    LowerHex(nonce);
    LowerHex(mac(secret, nonce));
    LowerJoin(HexText(nonce), HexText(mac(secret, nonce)));
  }

  lemma {:induction false} LowerHex(bytes: seq<Byte>)
    ensures Lower(HexText(bytes)) == HexText(bytes)
  {
    if bytes != [] {
      LowerHex(bytes[1..]);
      assert Lower(HexText(bytes)) == [HexText(bytes)[0], HexText(bytes)[1]] + Lower(HexText(bytes[1..]));
    }
  }

  /** Verify accepts a cookie and header if and only if they are the same case variant of a token issued for some
      non-empty nonce; in particular every issued token echoed back. */
  lemma VerifyIff(mac: Mac, secret: string, cookie: string, header: string)
    ensures VerifyCsrf(mac, secret, cookie, header)
       <==> cookie == header && exists nonce: seq<Byte> :: nonce != [] && Lower(cookie) == IssueCsrf(mac, secret, nonce)
  {
    if VerifyCsrf(mac, secret, cookie, header) {
      var nonce := AcceptedWasIssued(mac, secret, cookie, header);
    } else if cookie == header && exists nonce: seq<Byte> :: nonce != [] && Lower(cookie) == IssueCsrf(mac, secret, nonce) {
      var nonce: seq<Byte> :| nonce != [] && Lower(cookie) == IssueCsrf(mac, secret, nonce);
      IssuedIsAccepted(mac, secret, nonce, cookie);
    }
  }

  lemma IssuedEchoAccepted(mac: Mac, secret: string, nonce: seq<Byte>)
    requires nonce != []
    ensures VerifyCsrf(mac, secret, IssueCsrf(mac, secret, nonce), IssueCsrf(mac, secret, nonce))
  {
    IssuedIsLower(mac, secret, nonce);
    IssuedIsAccepted(mac, secret, nonce, IssueCsrf(mac, secret, nonce));
  }
}

/** Reconnect tokens: what is issued validates for its own pair until it expires, and
    for nobody else.  The MAC is an abstract function. */
module ReconnectToken {
  import opened MachineIntegers
  import opened Wrappers
  import opened SignalingTypes
  import HubSpec

  // ----- decimal numbers ----------------------------------------------------------------

  function Digit(d: nat): char
    requires d < 10
  {
    '0' + d as char
  }

  function Decimal(n: nat): (s: string)
    ensures s != []
  {
    if n < 10 then [Digit(n)] else Decimal(n / 10) + [Digit(n % 10)]
  }

  /** strconv.FormatInt in base 10. */
  function FormatInt(n: int): string {
    if n < 0 then "-" + Decimal(-n) else Decimal(n)
  }

  predicate AllDigits(s: string) {
    forall i :: 0 <= i < |s| ==> '0' <= s[i] <= '9'
  }

  function Value(s: string): nat
    requires AllDigits(s)
  {
    if s == [] then 0 else 10 * Value(s[..|s| - 1]) + (s[|s| - 1] as int - '0' as int)
  }

  /** strconv.ParseInt in base 10 with 64 bits: a sign, then digits, within the range. */
  function ParseInt(s: string): Option<int> {
    var signed := s != [] && (s[0] == '-' || s[0] == '+');
    var digits := if signed then s[1..] else s;
    if digits == [] || !AllDigits(digits) then None
    else
      var v: int := if signed && s[0] == '-' then 0 - Value(digits) else Value(digits);
      if -LONG / 2 <= v < LONG / 2 then Some(v) else None
  }

  lemma {:induction false} DecimalParses(n: nat)
    ensures AllDigits(Decimal(n)) && Value(Decimal(n)) == n
  {
    if n >= 10 {
      DecimalParses(n / 10);
      var front := Decimal(n / 10);
      assert Decimal(n)[..|front|] == front;
    }
  }

  lemma IntRoundTrip(n: int)
    requires -LONG / 2 <= n < LONG / 2
    ensures ParseInt(FormatInt(n)) == Some(n)
  {
    hide Decimal, Value;
    DecimalParses(if n < 0 then -n else n);
    var s := FormatInt(n);
    if n < 0 {
      assert s[1..] == Decimal(-n);
    } else {
      assert '0' <= s[0] <= '9';
    }
  }

  // ----- tokens ----------------------------------------------------------------------------

  function LastIndex(s: string, c: char): (i: int)
    ensures -1 <= i < |s| && (i >= 0 ==> s[i] == c)
  {
    if s == [] then -1 else if s[|s| - 1] == c then |s| - 1 else LastIndex(s[..|s| - 1], c)
  }

  type Mac = string -> string

  ghost predicate Injective(mac: Mac) {
    forall m, n :: mac(m) == mac(n) ==> m == n
  }

  function Bound(cid: CID, rid: RID): string {
    cid.name + "|" + rid.name
  }

  function Signed(cid: CID, rid: RID, exp: int): string {
    Bound(cid, rid) + "|" + FormatInt(exp)
  }

  /** issueReconnectTokenWithExpiry: without a secret there are no tokens. */
  function Issue(secret: Option<Mac>, cid: CID, rid: RID, exp: int): string {
    match secret
    case None => ""
    case Some(mac) => mac(Signed(cid, rid, exp)) + "." + FormatInt(exp)
  }

  /** validateReconnectToken, as the pair (ok, expired). */
  function Validate(secret: Option<Mac>, token: string, cid: CID, rid: RID, now: int): (bool, bool) {
    if token == "" then (false, false)
    else
      match secret
      case None => (true, false)
      case Some(mac) =>
        var dot := LastIndex(token, '.');
        if dot < 0 then (false, mac(Bound(cid, rid)) == token)
        else
          match ParseInt(token[dot + 1..])
          case None => (false, false)
          case Some(exp) =>
            if mac(Signed(cid, rid, exp)) != token[..dot] then (false, false)
            else if now > exp then (false, true)
            else (true, false)
  }

  /** What the join handler makes of a presented token. */
  function VerdictOf(secret: Option<Mac>, token: string, cid: CID, rid: RID, now: int): HubSpec.Verdict {
    var (ok, expired) := Validate(secret, token, cid, rid, now);
    if ok then HubSpec.TokenOk else if expired then HubSpec.TokenExpired else HubSpec.TokenBad
  }

  lemma {:induction false} LastDot(a: string, b: string)
    requires '.' !in b
    ensures LastIndex(a + "." + b, '.') == |a|
    decreases |b|
  {
    var s := a + "." + b;
    if b == [] {
      assert s[|s| - 1] == '.';
    } else {
      var c := b[..|b| - 1];
      assert s[|s| - 1] == b[|b| - 1] && b[|b| - 1] in b;
      assert s[..|s| - 1] == a + "." + c;
      LastDot(a, c);
    }
  }

  lemma {:induction false} NoDots(n: nat)
    ensures '.' !in Decimal(n) && '|' !in Decimal(n)
  {
    if n >= 10 {
      NoDots(n / 10);
    }
  }

  lemma FormatNoDot(n: int)
    ensures '.' !in FormatInt(n) && '|' !in FormatInt(n)
  {
    NoDots(if n < 0 then -n else n);
  }

  lemma SplitIssued(a: string, digits: string)
    requires '.' !in digits
    ensures
      var token := a + "." + digits;
      && LastIndex(token, '.') == |a| && token[..|a|] == a && token[|a| + 1..] == digits && token != ""
  {
    hide LastIndex;
    LastDot(a, digits);
  }

  /** An issued token, presented for any pair at any time: it verifies if and only if the
      pair reads the same as the one it was issued for, and is good until its expiry
      second inclusive. */
  lemma IssuedToken(mac: Mac, cid: CID, rid: RID, exp: int, other: CID, room: RID, now: int)
    requires Injective(mac) && -LONG / 2 <= exp < LONG / 2
    ensures VerdictOf(Some(mac), Issue(Some(mac), cid, rid, exp), other, room, now)
         == if Bound(other, room) != Bound(cid, rid) then HubSpec.TokenBad
            else if now > exp then HubSpec.TokenExpired
            else HubSpec.TokenOk
  {
    hide LastIndex, FormatInt, ParseInt, Bound;
    IntRoundTrip(exp);
    FormatNoDot(exp);
    SplitIssued(mac(Signed(cid, rid, exp)), FormatInt(exp));
    SameBinding(Bound(other, room), Bound(cid, rid), "|" + FormatInt(exp));
    assert Signed(other, room, exp) == Bound(other, room) + ("|" + FormatInt(exp));
    assert Signed(cid, rid, exp) == Bound(cid, rid) + ("|" + FormatInt(exp));
  }

  lemma SameBinding(a: string, b: string, tail: string)
    ensures a + tail == b + tail <==> a == b
  {
    if a + tail == b + tail {
      assert |a| == |b| && a == (a + tail)[..|a|] && b == (b + tail)[..|b|];
    }
  }

  /** Only the very pair reads like the given one, whatever is presented. */
  ghost predicate ReadsAlone(cid: CID, rid: RID) {
    forall other, room :: Bound(other, room) == Bound(cid, rid) ==> other == cid && room == rid
  }

  predicate BarFree(cid: CID, rid: RID) {
    '|' !in cid.name && '|' !in rid.name
  }

  /** A pair reads like no other one if and only if neither of its identifiers contains
      the separator; what is presented may contain anything. */
  lemma BindingExact(cid: CID, rid: RID)
    ensures ReadsAlone(cid, rid) <==> BarFree(cid, rid)
  {
    if BarFree(cid, rid) {
      forall other, room | Bound(other, room) == Bound(cid, rid)
        ensures other == cid && room == rid
      {
        OneBar(cid.name, rid.name, other.name, room.name);
      }
    } else {
      var other, room := Resplit(cid, rid);
    }
  }

  /** A string with one separator splits in one way. */
  lemma OneBar(a: string, b: string, c: string, d: string)
    requires '|' !in a && '|' !in b && a + "|" + b == c + "|" + d
    ensures a == c && b == d
  {
    var s, n, k := a + "|" + b, |a|, |c|;
    assert s[k] == '|' && s[..n] == a && s[n + 1..] == b && s[..k] == c && s[k + 1..] == d;
    forall i | 0 <= i < |s| && i != n
      ensures s[i] != '|'
    {
      assert if i < n then s[i] == a[i] && a[i] in a else s[i] == b[i - n - 1] && b[i - n - 1] in b;
    }
  }

  /** With a separator inside an identifier the pair can be split elsewhere. */
  lemma Resplit(cid: CID, rid: RID) returns (other: CID, room: RID)
    requires !BarFree(cid, rid)
    ensures Bound(other, room) == Bound(cid, rid) && other != cid
  {
    if i :| 0 <= i < |cid.name| && cid.name[i] == '|' {
      other, room := CID(cid.name[..i]), RID(cid.name[i + 1..] + "|" + rid.name);
      assert cid.name == cid.name[..i] + "|" + cid.name[i + 1..];
      assert |other.name| < |cid.name|;
    } else {
      var i :| 0 <= i < |rid.name| && rid.name[i] == '|';
      other, room := CID(cid.name + "|" + rid.name[..i]), RID(rid.name[i + 1..]);
      assert rid.name == rid.name[..i] + "|" + rid.name[i + 1..];
      assert |other.name| > |cid.name|;
    }
  }

  /** An issued token is good for its own pair only, whatever pair it is presented with
      and whenever, if and only if the identifiers it was issued for are free of bars. */
  lemma TokenBindsExactly(mac: Mac, cid: CID, rid: RID, exp: int)
    requires Injective(mac) && -LONG / 2 <= exp < LONG / 2
    ensures
      (forall other, room, now ::
         VerdictOf(Some(mac), Issue(Some(mac), cid, rid, exp), other, room, now) != HubSpec.TokenBad
         <==> other == cid && room == rid)
      <==> BarFree(cid, rid)
  {
    hide VerdictOf, Issue;
    BindingExact(cid, rid);
    forall other, room, now: int
      ensures VerdictOf(Some(mac), Issue(Some(mac), cid, rid, exp), other, room, now) != HubSpec.TokenBad
         <==> Bound(other, room) == Bound(cid, rid)
    {
      IssuedToken(mac, cid, rid, exp, other, room, now);
    }
    if !BarFree(cid, rid) {
      var other, room := Resplit(cid, rid);
      assert VerdictOf(Some(mac), Issue(Some(mac), cid, rid, exp), other, room, 0) != HubSpec.TokenBad;
    }
  }

  /** The alphabet of generated participant identifiers: a prefix and hexadecimal digits. */
  predicate GeneratedCid(cid: CID) {
    forall c :: c in cid.name ==> c == 'C' || c == '-' || '0' <= c <= '9' || 'a' <= c <= 'f'
  }

  /** The alphabet of room identifiers that validate: base64url without padding. */
  predicate Base64Url(rid: RID) {
    forall c :: c in rid.name ==> c == '-' || c == '_' || '0' <= c <= '9' || 'a' <= c <= 'z' || 'A' <= c <= 'Z'
  }

  /** So for the identifiers of the server every token binds its very pair. */
  lemma ServerTokensBind(mac: Mac, cid: CID, rid: RID, exp: int, other: CID, room: RID, now: int)
    requires Injective(mac) && -LONG / 2 <= exp < LONG / 2 && GeneratedCid(cid) && Base64Url(rid)
    ensures VerdictOf(Some(mac), Issue(Some(mac), cid, rid, exp), other, room, now)
         == if !(other == cid && room == rid) then HubSpec.TokenBad
            else if now > exp then HubSpec.TokenExpired
            else HubSpec.TokenOk
  {
    hide VerdictOf, Issue, Bound;
    BindingExact(cid, rid);
    IssuedToken(mac, cid, rid, exp, other, room, now);
  }

  /** The token is the MAC of the pair with this expiry, and the digits of that expiry. */
  predicate Genuine(mac: Mac, token: string, cid: CID, rid: RID, exp: int, digits: string) {
    && token == mac(cid.name + "|" + rid.name + "|" + FormatInt(exp)) + "." + digits
    && '.' !in digits && ParseInt(digits) == Some(exp)
  }

  /** Nothing else is accepted: a good token carries the MAC of the presented pair with
      an expiry that has not passed. */
  lemma AcceptedTokens(mac: Mac, token: string, cid: CID, rid: RID, now: int)
    ensures VerdictOf(Some(mac), token, cid, rid, now) == HubSpec.TokenOk
       <==> exists exp, digits :: Genuine(mac, token, cid, rid, exp, digits) && now <= exp
  {
    hide ParseInt, Genuine, Validate;
    if VerdictOf(Some(mac), token, cid, rid, now) == HubSpec.TokenOk {
      var exp, digits := AcceptedIsGenuine(mac, token, cid, rid, now);
    }
    if exp, digits :| Genuine(mac, token, cid, rid, exp, digits) && now <= exp {
      GenuineVerdict(mac, token, cid, rid, now, exp, digits);
    }
  }

  /** A token counts as expired - which gives up a suspended record - exactly if it is
      the MAC of the presented pair with an expiry that has passed, or the MAC of the
      pair alone, as tokens were before they carried an expiry. */
  lemma ExpiredTokens(mac: Mac, token: string, cid: CID, rid: RID, now: int)
    ensures VerdictOf(Some(mac), token, cid, rid, now) == HubSpec.TokenExpired
       <==> || (token != "" && '.' !in token && token == mac(cid.name + "|" + rid.name))
            || exists exp, digits :: Genuine(mac, token, cid, rid, exp, digits) && now > exp
  {
    hide ParseInt, Genuine, Validate;
    if '.' !in token {
      Dotless(mac, token, cid, rid, now);
    } else if VerdictOf(Some(mac), token, cid, rid, now) == HubSpec.TokenExpired {
      var exp, digits := ExpiredIsGenuine(mac, token, cid, rid, now);
    }
    if exp, digits :| Genuine(mac, token, cid, rid, exp, digits) && now > exp {
      GenuineVerdict(mac, token, cid, rid, now, exp, digits);
    }
  }

  /** The expiry is bound as well: the MAC of one token next to the digits of another expiry
      is worth nothing, for whatever pair and whenever. */
  lemma ExpiryBound(mac: Mac, cid: CID, rid: RID, exp: int, later: int, other: CID, room: RID, now: int)
    requires Injective(mac) && -LONG / 2 <= exp < LONG / 2 && -LONG / 2 <= later < LONG / 2
    requires exp != later
    ensures
      var issued, n := Issue(Some(mac), cid, rid, exp), |FormatInt(exp)|;
      && |issued| > n
      && VerdictOf(Some(mac), issued[..|issued| - n] + FormatInt(later), other, room, now) == HubSpec.TokenBad
  {
    hide LastIndex, FormatInt, ParseInt, Bound;
    IntRoundTrip(exp);
    IntRoundTrip(later);
    FormatNoDot(exp);
    FormatNoDot(later);
    var sig := mac(Signed(cid, rid, exp));
    var issued, n := Issue(Some(mac), cid, rid, exp), |FormatInt(exp)|;
    assert issued[..|issued| - n] == sig + ".";
    SplitIssued(sig, FormatInt(later));
    if Signed(other, room, later) == Signed(cid, rid, exp) {
      SameTail(Bound(other, room), FormatInt(later), Bound(cid, rid), FormatInt(exp));
    }
  }

  /** What follows the last bar. */
  lemma SameTail(a: string, x: string, b: string, y: string)
    requires '|' !in x && '|' !in y && a + "|" + x == b + "|" + y
    ensures x == y
  {
    var s := a + "|" + x;
    assert s[|a|] == '|' && s[|b|] == '|' && s[|a| + 1..] == x && s[|b| + 1..] == y;
    forall i | 0 <= i < |s|
      ensures i > |a| || i > |b| ==> s[i] != '|'
    {
      assert i > |a| ==> s[i] == x[i - |a| - 1] && x[i - |a| - 1] in x;
      assert i > |b| ==> s[i] == y[i - |b| - 1] && y[i - |b| - 1] in y;
    }
  }

  /** Without a secret no token is issued, and any token at all is accepted. */
  lemma WithoutSecret(token: string, cid: CID, rid: RID, exp: int, now: int)
    ensures Issue(None, cid, rid, exp) == ""
    ensures VerdictOf(None, token, cid, rid, now) == if token == "" then HubSpec.TokenBad else HubSpec.TokenOk
    ensures forall mac: Mac :: VerdictOf(Some(mac), "", cid, rid, now) == HubSpec.TokenBad
  {}

  lemma SignedIs(cid: CID, rid: RID, exp: int)
    ensures Signed(cid, rid, exp) == cid.name + "|" + rid.name + "|" + FormatInt(exp)
    ensures Bound(cid, rid) == cid.name + "|" + rid.name
  {}

  lemma {:induction false} NoIndex(s: string, c: char)
    requires c !in s
    ensures LastIndex(s, c) == -1
  {
    if s != [] {
      assert s[|s| - 1] in s;
      NoIndex(s[..|s| - 1], c);
    }
  }

  lemma Dotless(mac: Mac, token: string, cid: CID, rid: RID, now: int)
    requires '.' !in token
    ensures Validate(Some(mac), token, cid, rid, now) == (false, token != "" && token == mac(Bound(cid, rid)))
    ensures forall exp, digits :: !Genuine(mac, token, cid, rid, exp, digits)
  {
    hide ParseInt, Signed, Bound;
    NoIndex(token, '.');
    forall exp, digits
      ensures !Genuine(mac, token, cid, rid, exp, digits)
    {
      var t := mac(Signed(cid, rid, exp)) + "." + digits;
      assert t[|mac(Signed(cid, rid, exp))|] in t;
    }
  }

  lemma ExpiredIsGenuine(mac: Mac, token: string, cid: CID, rid: RID, now: int) returns (exp: int, digits: string)
    requires Validate(Some(mac), token, cid, rid, now).1 && '.' in token
    ensures Genuine(mac, token, cid, rid, exp, digits) && now > exp
  {
    hide LastIndex, ParseInt, Signed, Bound;
    var dot := LastIndex(token, '.');
    AfterLast(token, '.');
    assert dot >= 0;
    digits := token[dot + 1..];
    exp := ParseInt(digits).value;
    SignedIs(cid, rid, exp);
    assert token == token[..dot] + "." + digits;
  }

  lemma AcceptedIsGenuine(mac: Mac, token: string, cid: CID, rid: RID, now: int) returns (exp: int, digits: string)
    requires Validate(Some(mac), token, cid, rid, now).0
    ensures Genuine(mac, token, cid, rid, exp, digits) && now <= exp
  {
    hide LastIndex, ParseInt, Signed;
    var dot := LastIndex(token, '.');
    digits := token[dot + 1..];
    exp := ParseInt(digits).value;
    AfterLast(token, '.');
    SignedIs(cid, rid, exp);
    assert token == token[..dot] + "." + digits;
  }

  lemma GenuineVerdict(mac: Mac, token: string, cid: CID, rid: RID, now: int, exp: int, digits: string)
    requires Genuine(mac, token, cid, rid, exp, digits)
    ensures Validate(Some(mac), token, cid, rid, now) == (now <= exp, now > exp)
  {
    hide LastIndex, ParseInt, Signed;
    SignedIs(cid, rid, exp);
    SplitIssued(mac(Signed(cid, rid, exp)), digits);
  }

  lemma {:induction false} AfterLast(s: string, c: char)
    ensures forall k :: LastIndex(s, c) < k < |s| ==> s[k] != c
  {
    if s != [] && s[|s| - 1] != c {
      AfterLast(s[..|s| - 1], c);
      forall k | LastIndex(s, c) < k < |s| - 1
        ensures s[k] != c
      {
        assert s[k] == s[..|s| - 1][k];
      }
    }
  }
}

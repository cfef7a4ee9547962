/**
 * The string and access helpers of src/utils/plaaceUtils.tsx: the cookie
 * lookup, the e-mail extractor (its one regular expression written out as a
 * scanner, with the pattern also stated declaratively), and the decision order
 * of the whitelist and access checks, with every network result an input.
 */
module PlaaceUtils {
  import opened Wrappers
  import opened JsString

  const TokenCookie := "token_jwt"

  /** `c.indexOf(p) === 0`: `c` starts with `p`. */
  predicate StartsWith(c: string, p: string) {
    |p| <= |c| && c[..|p|] == p
  }

  /** `c = c.trim(); c.indexOf(p) === 0` for one segment of the cookie string. */
  predicate SegmentMatches(seg: string, p: string) {
    StartsWith(Trim(seg), p)
  }

  /** The index of the first segment whose trimmed form starts with `p`. */
  function FirstPrefixed(segs: seq<string>, p: string): (r: Option<nat>)
    ensures r.Some? ==> r.value < |segs| && SegmentMatches(segs[r.value], p)
    ensures r.Some? ==> forall j :: 0 <= j < r.value ==> !SegmentMatches(segs[j], p)
    ensures r.None? <==> forall j :: 0 <= j < |segs| ==> !SegmentMatches(segs[j], p)
  {
    if segs == [] then None
    else if SegmentMatches(segs[0], p) then Some(0)
    else
      match FirstPrefixed(segs[1..], p)
      case None => None
      case Some(i) => Some(i + 1)
  }

  /** The rest of the first segment whose trimmed form starts with `p`, after `p`. */
  function PrefixedValue(segs: seq<string>, p: string): (r: Option<string>)
    ensures r.Some? <==> FirstPrefixed(segs, p).Some?
    ensures r.Some? ==> p + r.value == Trim(segs[FirstPrefixed(segs, p).value])
  {
    match FirstPrefixed(segs, p)
    case None => None
    case Some(i) =>
      var c := Trim(segs[i]);
      PrefixThenRest(c, p);
      Some(c[|p|..])
  }

  lemma PrefixThenRest(c: string, p: string)
    requires StartsWith(c, p)
    ensures p + c[|p|..] == c
  {
    assert c == c[..|p|] + c[|p|..];
  }

  /** What `getCookieValue(name)` returns for `document.cookie == cookie`. */
  function CookieValue(cookie: string, name: string): (r: Option<string>)
  {
    PrefixedValue(Split(cookie, ';'), name + "=")
  }

  /**
   * `getCookieValue` (src/utils/plaaceUtils.tsx:7-17), with its loop and early
   * return. By PrefixedValue, the value is what follows `name=` in the first
   * segment that starts with it once trimmed, and null when no segment does.
   */
  method GetCookieValue(cookie: string, name: string) returns (r: Option<string>)
    ensures r == CookieValue(cookie, name)
  {
    var nameEQ := name + "=";
    var ca := Split(cookie, ';');
    var k := 0;
    while k < |ca|
      invariant 0 <= k <= |ca|
      invariant forall j :: 0 <= j < k ==> !SegmentMatches(ca[j], nameEQ)
    {
      var c := Trim(ca[k]);
      if StartsWith(c, nameEQ) {
        assert FirstPrefixed(ca, nameEQ) == Some(k);
        return Some(c[|nameEQ|..]);
      }
      k := k + 1;
    }
    return None;
  }

  /** The literal `"email"` that starts the pattern. */
  const EmailLiteral := "\"email\""

  /**
   * `/"email"\s*:\s*"([^"]+)"/` matches at position i with the whitespace runs w1
   * and w2 and the captured group e.
   */
  predicate PatternAt(s: string, i: nat, w1: string, w2: string, e: string) {
    var a := i + |EmailLiteral|;
    var b := a + |w1|;
    var c := b + 1 + |w2|;
    var d := c + 1 + |e|;
    && d < |s|
    && s[i..a] == EmailLiteral
    && s[a..b] == w1 && AllWhitespace(w1)
    && s[b] == ':'
    && s[b + 1..c] == w2 && AllWhitespace(w2)
    && s[c] == '"'
    && s[c + 1..d] == e && e != [] && '"' !in e
    && s[d] == '"'
  }

  /** `\s*` from position i: the end of the whitespace run. */
  function SkipWhitespace(s: string, i: nat): (j: nat)
    requires i <= |s|
    ensures i <= j <= |s| && AllWhitespace(s[i..j])
    ensures j < |s| ==> !IsWhitespace(s[j])
    decreases |s| - i
  {
    if i < |s| && IsWhitespace(s[i]) then SkipWhitespace(s, i + 1) else i
  }

  /** `[^"]*` from position i: the end of the run of characters other than `"`. */
  function QuoteFrom(s: string, i: nat): (j: nat)
    requires i <= |s|
    ensures i <= j <= |s| && '"' !in s[i..j]
    ensures j < |s| ==> s[j] == '"'
    decreases |s| - i
  {
    if i < |s| && s[i] != '"' then QuoteFrom(s, i + 1) else i
  }

  /** The match attempt at position i; greedy runs are exact here, since what follows each is outside its class. */
  function MatchAt(s: string, i: nat): (r: Option<string>)
    requires i <= |s|
    ensures r.Some? ==> r.value != [] && '"' !in r.value
  {
    if i + |EmailLiteral| <= |s| && s[i..i + |EmailLiteral|] == EmailLiteral then
      var b := SkipWhitespace(s, i + |EmailLiteral|);
      if b < |s| && s[b] == ':' then
        var c := SkipWhitespace(s, b + 1);
        if c < |s| && s[c] == '"' then
          var d := QuoteFrom(s, c + 1);
          if c + 1 < d < |s| then Some(s[c + 1..d]) else None
        else None
      else None
    else None
  }

  lemma {:induction false} SkipWhitespaceLands(s: string, i: nat, j: nat)
    requires i <= j < |s| && AllWhitespace(s[i..j]) && !IsWhitespace(s[j])
    ensures SkipWhitespace(s, i) == j
    decreases j - i
  {
    if i < j {
      assert IsWhitespace(s[i..j][0]);
      assert s[i + 1..j] == s[i..j][1..];
      SkipWhitespaceLands(s, i + 1, j);
    }
  }

  lemma {:induction false} QuoteFromLands(s: string, i: nat, j: nat)
    requires i <= j < |s| && '"' !in s[i..j] && s[j] == '"'
    ensures QuoteFrom(s, i) == j
    decreases j - i
  {
    if i < j {
      assert s[i..j][0] == s[i];
      assert s[i + 1..j] == s[i..j][1..];
      QuoteFromLands(s, i + 1, j);
    }
  }

  /** The scanner and the pattern agree position by position, in both directions. */
  lemma MatchAtComplete(s: string, i: nat, w1: string, w2: string, e: string)
    requires PatternAt(s, i, w1, w2, e)
    ensures MatchAt(s, i) == Some(e)
  {
    var a := i + |EmailLiteral|;
    var b := a + |w1|;
    var c := b + 1 + |w2|;
    var d := c + 1 + |e|;
    assert s[a..b] == w1 && s[b + 1..c] == w2 && s[c + 1..d] == e;
    SkipWhitespaceLands(s, a, b);
    SkipWhitespaceLands(s, b + 1, c);
    QuoteFromLands(s, c + 1, d);
    assert s[i..a] == EmailLiteral && s[b] == ':' && s[c] == '"';
  }

  lemma MatchAtSound(s: string, i: nat) returns (w1: string, w2: string)
    requires i <= |s| && MatchAt(s, i).Some?
    ensures PatternAt(s, i, w1, w2, MatchAt(s, i).value)
  {
    var a := i + |EmailLiteral|;
    var b := SkipWhitespace(s, a);
    var c := SkipWhitespace(s, b + 1);
    w1, w2 := s[a..b], s[b + 1..c];
  }

  /** The leftmost position from i on where the pattern matches. */
  function FindMatch(s: string, i: nat): (r: Option<nat>)
    requires i <= |s|
    ensures r.Some? ==> i <= r.value <= |s| && MatchAt(s, r.value).Some?
    ensures r.Some? ==> forall q :: i <= q < r.value ==> MatchAt(s, q).None?
    ensures r.None? <==> forall q :: i <= q <= |s| ==> MatchAt(s, q).None?
    decreases |s| - i
  {
    if MatchAt(s, i).Some? then Some(i)
    else if i == |s| then None
    else FindMatch(s, i + 1)
  }

  /** `extractEmail` (src/utils/plaaceUtils.tsx:37-44): the group of the leftmost match, or null. */
  function ExtractEmail(doc: string): (r: Option<string>)
    ensures r.Some? ==> r.value != [] && '"' !in r.value
  {
    match FindMatch(doc, 0)
    case None => None
    case Some(p) => MatchAt(doc, p)
  }

  /** What extractEmail returns is the group of a match, and no match starts further left. */
  lemma ExtractEmailSound(doc: string) returns (p: nat, w1: string, w2: string)
    requires ExtractEmail(doc).Some?
    ensures PatternAt(doc, p, w1, w2, ExtractEmail(doc).value)
    ensures forall q: nat, x1, x2, e :: q < p ==> !PatternAt(doc, q, x1, x2, e)
  {
    p := FindMatch(doc, 0).value;
    w1, w2 := MatchAtSound(doc, p);
    forall q: nat, x1, x2, e | q < p
      ensures !PatternAt(doc, q, x1, x2, e)
    {
      if PatternAt(doc, q, x1, x2, e) {
        MatchAtComplete(doc, q, x1, x2, e);
      }
    }
  }

  /** Wherever the pattern matches, extractEmail finds an address, at that position or further left. */
  lemma ExtractEmailComplete(doc: string, q: nat, w1: string, w2: string, e: string)
    requires PatternAt(doc, q, w1, w2, e)
    ensures ExtractEmail(doc).Some?
    ensures FindMatch(doc, 0).Some? && FindMatch(doc, 0).value <= q
    ensures FindMatch(doc, 0).value == q ==> ExtractEmail(doc) == Some(e)
  {
    MatchAtComplete(doc, q, w1, w2, e);
  }

  /** A JSON value as far as `=== true` can tell. */
  datatype JsonValue = JBool(b: bool) | JString(s: string) | JNumber(n: int) | JNull | JOther

  /**
   * `response.json()`: a parsed body (its `whitelisted` field, None when absent),
   * the body `null`, on which reading `whitelisted` throws, or a parse failure.
   */
  datatype JsonBody = Parsed(whitelisted: Option<JsonValue>) | ParsedNull | Malformed

  /** The whitelist endpoint's answer. */
  datatype WhitelistReply = WhitelistUnreachable | WhitelistNotOk | WhitelistOk(body: JsonBody)

  /** The account page's answer. */
  datatype AccountReply = AccountUnreachable | AccountNotOk | AccountOk(document: string)

  /** How an async function settles: a value, or a thrown error. */
  datatype Outcome = Returned(value: bool) | Threw

  /** `isEmailWhitelisted` (src/utils/plaaceUtils.tsx:47-67) given the endpoint's answer. */
  function IsEmailWhitelisted(reply: WhitelistReply): (r: Outcome)
    ensures r == Returned(true) <==> reply == WhitelistOk(Parsed(Some(JBool(true))))
    ensures r.Threw? <==>
              reply.WhitelistUnreachable? || reply == WhitelistOk(Malformed) || reply == WhitelistOk(ParsedNull)
  {
    match reply
    case WhitelistUnreachable => Threw
    case WhitelistNotOk => Returned(false)
    case WhitelistOk(Malformed) => Threw
    case WhitelistOk(ParsedNull) => Threw
    case WhitelistOk(Parsed(w)) => Returned(w == Some(JBool(true)))
  }

  /**
   * `checkUserAccess` (src/utils/plaaceUtils.tsx:70-92): `cookie` is
   * `document.cookie`, `account` and `whitelist` give the answers of the two
   * endpoints for a token and an address.
   */
  function CheckUserAccess(allowAll: bool, cookie: string,
                           account: string -> AccountReply, whitelist: string -> WhitelistReply): (r: bool)
    ensures allowAll ==> r
    ensures !allowAll && !Truthy(CookieValue(cookie, TokenCookie)) ==> !r
    // otherwise access needs the account page, an address in it, and a whitelist answer of exactly true
    ensures !allowAll ==>
              (r <==> var token := CookieValue(cookie, TokenCookie);
                      && Truthy(token) && account(token.value).AccountOk?
                      && ExtractEmail(account(token.value).document).Some?
                      && whitelist(ExtractEmail(account(token.value).document).value)
                         == WhitelistOk(Parsed(Some(JBool(true)))))
  {
    var token := CookieValue(cookie, TokenCookie);
    if allowAll then true
    else if !Truthy(token) then false
    else
      match account(token.value)
      case AccountUnreachable => false
      case AccountNotOk => false
      case AccountOk(doc) =>
        var email := ExtractEmail(doc);
        if !Truthy(email) then false
        else
          match IsEmailWhitelisted(whitelist(email.value))
          case Returned(b) => b
          case Threw => false
  }

  /** A document that starts with the pattern yields its group. */
  lemma ExtractEmailAtStart(w1: string, w2: string, e: string, rest: string)
    requires AllWhitespace(w1) && AllWhitespace(w2) && e != [] && '"' !in e
    ensures ExtractEmail(EmailLiteral + w1 + [':'] + w2 + ['"'] + e + ['"'] + rest) == Some(e)
  {
    var doc := EmailLiteral + w1 + [':'] + w2 + ['"'] + e + ['"'] + rest;
    var a := |EmailLiteral|;
    var b := a + |w1|;
    var c := b + 1 + |w2|;
    var d := c + 1 + |e|;
    assert doc[..a] == EmailLiteral;
    assert doc[a..b] == w1;
    assert doc[b + 1..c] == w2;
    assert doc[c + 1..d] == e;
    assert PatternAt(doc, 0, w1, w2, e);
    MatchAtComplete(doc, 0, w1, w2, e);
  }

  /**
   * An empty address is not an address: `[^"]+` needs one character, so where the
   * literal, the colon and two adjacent quotes follow each other there is no match.
   */
  lemma EmptyGroupFails(w1: string, w2: string, rest: string)
    requires AllWhitespace(w1) && AllWhitespace(w2)
    ensures MatchAt(EmailLiteral + w1 + [':'] + w2 + ['"', '"'] + rest, 0).None?
  {
    var doc := EmailLiteral + w1 + [':'] + w2 + ['"', '"'] + rest;
    var a := |EmailLiteral|;
    var b := a + |w1|;
    var c := b + 1 + |w2|;
    assert doc[..a] == EmailLiteral;
    assert doc[a..b] == w1;
    assert doc[b + 1..c] == w2;
    assert doc[b] == ':' && doc[c] == '"' && doc[c + 1] == '"';
    SkipWhitespaceLands(doc, a, b);
    SkipWhitespaceLands(doc, b + 1, c);
    assert QuoteFrom(doc, c + 1) == c + 1;
  }
}

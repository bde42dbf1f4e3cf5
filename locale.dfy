/** Locale resolution of middleware/locale.middleware.js. */
module Locale {
  import opened Common
  import opened UserModel
  import opened JsStrings

  /** `header.split(",")[0].trim().toUpperCase()`. */
  function HeaderPreference(header: string): (p: string)
    ensures ',' !in p
    ensures NoEdgeWhitespace(p)
    ensures forall i :: 0 <= i < |p| ==> !('a' <= p[i] <= 'z')
  {
    var t := Trim(BeforeFirst(header, ','));
    assert ',' !in t by {
      if ',' in t {
        TrimCharsFrom(BeforeFirst(header, ','), ',');
      }
    }
    UpperPreserves(t, ',');
    ToUpperAscii(t)
  }

  /** `req.header("x-user-language") || req.header("accept-language")`. */
  function HeaderLanguage(xUserLanguage: Option<string>, acceptLanguage: Option<string>): Option<string> {
    if Truthy(xUserLanguage) then xUserLanguage else acceptLanguage
  }

  /** `preferred`: the user's language if truthy, else the header's first
      preference, else nothing. */
  function Preferred(userLanguage: Option<string>, xUserLanguage: Option<string>, acceptLanguage: Option<string>)
    : Option<string>
  {
    if Truthy(userLanguage) then userLanguage
    else match HeaderLanguage(xUserLanguage, acceptLanguage)
      case None => None
      case Some(h) => Some(HeaderPreference(h))
  }

  /** `res.locals.locale`: the preferred language when it is in
      `LanguageEnum`, else EN. */
  function ResolveLocale(userLanguage: Option<string>, xUserLanguage: Option<string>, acceptLanguage: Option<string>)
    : (l: Language)
    ensures LanguageName(l) in LanguageEnum
    ensures var p := Preferred(userLanguage, xUserLanguage, acceptLanguage);
      (l == BN <==> p == Some("BN")) && (p.Some? && p.value in LanguageEnum ==> LanguageName(l) == p.value)
  {
    match Preferred(userLanguage, xUserLanguage, acceptLanguage)
    case None => EN
    case Some(p) => ParseLanguage(p).GetOr(EN)
  }

  /** A truthy user language decides alone; the headers are not read. */
  lemma UserLanguageWins(userLanguage: Option<string>, x1: Option<string>, a1: Option<string>,
                         x2: Option<string>, a2: Option<string>)
    requires Truthy(userLanguage)
    ensures ResolveLocale(userLanguage, x1, a1) == ResolveLocale(userLanguage, x2, a2)
    ensures ResolveLocale(userLanguage, x1, a1) == (if userLanguage.value == "BN" then BN else EN)
  {
  }

  /** A truthy `x-user-language` hides `accept-language`. */
  lemma CustomHeaderWins(userLanguage: Option<string>, x: Option<string>, a1: Option<string>, a2: Option<string>)
    requires !Truthy(userLanguage) && Truthy(x)
    ensures ResolveLocale(userLanguage, x, a1) == ResolveLocale(userLanguage, x, a2)
  {
  }

  /** A header preference resolves to BN exactly for a first segment that,
      once trimmed, is "BN" in any letter case. */
  lemma HeaderBn(header: string)
    ensures HeaderPreference(header) == "BN" <==>
      var t := Trim(BeforeFirst(header, ','));
      |t| == 2 && (t[0] == 'B' || t[0] == 'b') && (t[1] == 'N' || t[1] == 'n')
  {
    var t := Trim(BeforeFirst(header, ','));
    UpperIsWord(t, "BN");
    assert ('B' as int + 32) as char == 'b' && ('N' as int + 32) as char == 'n';
  }

  /** "bn,en;q=0.8" gives BN. */
  lemma AcceptLanguageExample()
    ensures ResolveLocale(None, None, Some("bn,en;q=0.8")) == BN
  {
    var h := "bn,en;q=0.8";
    assert BeforeFirst(h, ',') == "bn" by {
      assert h == ['b'] + h[1..];
      assert h[1..] == ['n'] + h[2..];
      assert h[2] == ',';
    }
    TrimNoEdgeWhitespace("bn");
    HeaderBn(h);
  }

  /** A header with no letter B in it never prefers BN. */
  lemma HeaderWithoutB(h: string)
    requires forall k :: 0 <= k < |h| ==> h[k] != 'B' && h[k] != 'b'
    ensures HeaderPreference(h) != "BN"
  {
    var b := BeforeFirst(h, ',');
    var t := Trim(b);
    var i, j :| 0 <= i <= j <= |b| && TrimmedAt(t, b, i, j);
    var u := ToUpperAscii(t);
    assert HeaderPreference(h) == u;
    if t != [] {
      assert t[0] == b[i];
      assert b[i] == h[i];
      UpperB(t[0]);
    }
  }

  /** Only 'B' and 'b' upper-case to 'B'. */
  lemma UpperB(c: char)
    requires c != 'B' && c != 'b'
    ensures UpperChar(c) != 'B'
  {
  }

  /** A region tag such as "EN-US", or any other header value without the
      letter B, is no member of `LanguageEnum` other than EN, so it falls back
      to EN whichever header carries it. */
  lemma RegionTagFallsBack(h: string)
    requires forall k :: 0 <= k < |h| ==> h[k] != 'B' && h[k] != 'b'
    ensures ResolveLocale(None, Some(h), None) == EN
    ensures ResolveLocale(None, None, Some(h)) == EN
  {
    HeaderWithoutB(h);
  }
}

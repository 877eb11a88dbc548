/**
 * `src/index.js`: the rule tables, `ensureURL`, `sanitizeUrl` and `urlInfo`.
 *
 * The URL parser and serialiser (`p`) and the public-suffix parser (`tld`)
 * are parameters. `sanitizeUrl` is a method because it assigns the
 * attributes of a URL object in place, and when the caller passes a URL
 * object it is the caller's own object that changes.
 */
module SuperUrl {
  import opened Wrappers
  import opened WhatwgUrl
  import opened Domains
  import opened Hostnames
  import opened Paths
  import opened Handles
  import opened Sanitizer

  /** The tables at lines 3-47. */
  const RULES: Rules := Rules(
    map[
      "instagram.com" := "www.instagram.com",
      "facebook.com" := "www.facebook.com",
      "m.facebook.com" := "www.facebook.com",
      "www.twitter.com" := "twitter.com",
      "mobile.twitter.com" := "twitter.com"],
    ["example.com", "google.com", "twitter.com", "facebook.com", "instagram.com", "tiktok.com",
     "youtube.com", "linkedin.com", "whatsapp.com", "tumblr.com"],
    ["locale", "language", "lang", "Lang", "hl"],
    ["_ga", "fbclid", "ref", "ref_src", "ref_url", "referer", "ref_", "fref", "pnref",
     "originalSubdomain", "original_referer", "share_app_id", "share_author_id", "share_link_id",
     "share_id", "sid", "utm_campaign", "utm_content", "utm_medium", "utm_source", "utm_name",
     "usp", "trk", "si", "nd"],
    map[
      "instagram.com" := ["igshid"],
      "twitter.com" := ["s", "t"],
      "tiktok.com" := ["_d", "_r", "_s", "_t", "checksum", "sec_uid", "sec_user_id", "tt_from", "u_code", "user_id"]])

  /** `handleRegexByHostname`, lines 49-56, keyed by registrable domain. */
  const HANDLE_PATTERNS: map<string, Pattern> := map[
    "github.com" := Pattern(false, CharClass({'-'}), 2, None),               // /^[a-z0-9-]{2,}$/i
    "instagram.com" := Pattern(false, CharClass({'_', '.'}), 2, Some(30)),   // /^([\w\.]){2,30}$/
    "pinterest.com" := Pattern(false, CharClass({'_'}), 1, Some(15)),        // /^[a-z0-9_]{1,15}$/i
    "tiktok.com" := Pattern(true, CharClass({'_', '.'}), 2, Some(30)),       // /^@?[a-z0-9_\.]{2,30}$/i
    "twitter.com" := Pattern(true, CharClass({'_'}), 1, Some(15)),           // /^@?(\w){1,15}$/
    "youtube.com" := Pattern(true, CharClass({'_', '.', '-'}), 3, Some(30))] // /^@?([\w\.-]){3,30}$/

  /** The Facebook handle check of line 157, /^[a-z0-9.]+$/i. */
  const FACEBOOK_HANDLE: Pattern := Pattern(false, CharClass({'.'}), 1, None)

  /**
   * `ensureURL`: a string is parsed as it is, else with `http://` in front; a
   * URL object is used as it is; anything else is refused.
   */
  function EnsureUrl(p: UrlParser, input: Input): (r: Result<Coerced, Error>)
    ensures input.Obj? ==> r == Success(SameUrl(input.url))
    ensures r.Success? && r.value.SameUrl? ==> input == Obj(r.value.url)
    ensures input.Str? && p.CanParse(input.s) ==> r == Success(NewUrl(p.parse(input.s).value))
    ensures input.Str? && !p.CanParse(input.s) && p.CanParse("http://" + input.s) ==>
      r == Success(NewUrl(p.parse("http://" + input.s).value))
    ensures r.Failure? <==> input.Other? || (input.Str? && !p.CanParse(input.s) && !p.CanParse("http://" + input.s))
    ensures r.Failure? ==> r.error == InvalidUrl
  {
    match input
    case Str(s) =>
      if p.CanParse(s) then Success(NewUrl(p.parse(s).value))
      else if p.CanParse("http://" + s) then Success(NewUrl(p.parse("http://" + s).value))
      else Failure(InvalidUrl)
    case Obj(u) => Success(SameUrl(u))
    case Other => Failure(InvalidUrl)
  }

  /** What `sanitizeUrl(input, opts)` returns or throws, judged in the state before the call. */
  function SanitizeResult(p: UrlParser, tld: string -> ParsedDomain, opts: Options, input: Input): (r: Result<string, Error>)
    reads input.Objects()
    ensures EnsureUrl(p, input).Failure? ==> r == Failure(EnsureUrl(p, input).error)
    ensures r.Success? <==>
      && EnsureUrl(p, input).Success?
      && EnsureUrl(p, input).value.Start().protocol in AllowedProtocols(opts)
      && DomainIsValid(tld(EnsureUrl(p, input).value.Start().hostname))
  {
    match EnsureUrl(p, input)
    case Failure(e) => Failure(e)
    case Success(c) => Serialized(p, Sanitized(RULES, AllowedProtocols(opts), tld, c.Start()))
  }

  /**
   * `sanitizeUrl`, lines 74-118. A URL object passed in is sanitised in place:
   * afterwards it holds the sanitised attributes (and is unchanged on an error).
   */
  method SanitizeUrl(input: Input, opts: Options, p: UrlParser, tld: string -> ParsedDomain) returns (r: Result<string, Error>)
    modifies input.Objects()
    ensures r == old(SanitizeResult(p, tld, opts, input))
    ensures input.Obj? ==>
      var s := Sanitized(RULES, AllowedProtocols(opts), tld, old(input.url.Record()));
      input.url.Record() == if s.Success? then s.value else old(input.url.Record())
  {
    var c := EnsureUrl(p, input);
    if c.Failure? {
      return Failure(c.error);
    }
    var u: Url;
    match c.value {
      case NewUrl(rec) => u := new Url(rec);
      case SameUrl(obj) => u := obj;
    }
    r := SanitizeInPlace(u, RULES, AllowedProtocols(opts), tld, p);
  }

  /** The handle and provider id of a URL; `None` is JavaScript `null`. */
  datatype Identity = Identity(handle: Option<string>, providerId: Option<string>)

  /** The Facebook candidate: the segment after `pages`, else the first segment. */
  function FacebookCandidate(paths: seq<string>): (r: string)
    requires |paths| > 0
    ensures r in paths
    ensures paths[0] != "pages" ==> r == paths[0]
    ensures r != paths[0] ==> |paths| > 1 && r == paths[1] && r != ""
  {
    if paths[0] == "pages" && |paths| > 1 && paths[1] != "" then paths[1] else paths[0]
  }

  /** Lines 148-160, the Facebook branch. */
  function FacebookIdentity(paths: seq<string>, query: seq<Param>): (r: Identity)
    requires |paths| > 0
    ensures !(r.handle.Some? && r.providerId.Some?)
    ensures paths[0] == "profile.php" ==> r.handle == None && r.providerId == QueryGet(query, "id")
    ensures paths[0] != "profile.php" ==>
      && r.providerId == None
      && (r.handle.Some? <==> FacebookCandidate(paths) != "" && Matches(FACEBOOK_HANDLE, FacebookCandidate(paths)))
      && (r.handle.Some? ==> r.handle.value == FacebookCandidate(paths))
  {
    if paths[0] == "profile.php" then Identity(None, QueryGet(query, "id"))
    else
      var candidate := FacebookCandidate(paths);
      Identity(if candidate != "" && Matches(FACEBOOK_HANDLE, candidate) then Some(candidate) else None, None)
  }

  /**
   * Lines 125-162: the handle or provider id from the registrable domain, the
   * path segments and the query list. The pattern table comes first, then the
   * LinkedIn rule, then the Facebook rule; otherwise both stay `null`.
   */
  function ExtractIdentity(domain: Option<string>, paths: seq<string>, query: seq<Param>): (r: Identity)
    ensures !(r.handle.Some? && r.providerId.Some?)
    ensures |paths| == 0 ==> r == Identity(None, None)
    ensures !(domain.Some? && (domain.value in HANDLE_PATTERNS || domain.value == "linkedin.com" || domain.value == "facebook.com")) ==>
      r == Identity(None, None)
  {
    if |paths| == 0 then Identity(None, None)
    else if domain.Some? && domain.value in HANDLE_PATTERNS then
      var candidate := StripAt(paths[0]);
      Identity(if Matches(HANDLE_PATTERNS[domain.value], candidate) then Some(candidate) else None, None)
    else if domain == Some("linkedin.com") && |paths| > 1 && paths[0] == "in" then
      Identity(Some(paths[1]), None)
    else if domain == Some("facebook.com") then
      FacebookIdentity(paths, query)
    else
      Identity(None, None)
  }

  /** The record `urlInfo` returns. */
  datatype Info = Info(
    originalUrl: Input,
    url: string,
    hostname: string,
    domain: Option<string>,
    subdomain: Option<string>,
    handle: Option<string>,
    providerId: Option<string>)

  /**
   * Lines 123-172, once `sanitized` is the string `sanitizeUrl` returned: it is
   * parsed again (`new URL(sanitized)` throws if it does not parse), the domain
   * parser is asked about the new hostname, and the identity is extracted from
   * its path segments and query list.
   */
  function InfoOf(p: UrlParser, tld: string -> ParsedDomain, original: Input, sanitized: string): (r: Result<Info, Error>)
    ensures r.Failure? <==> !p.CanParse(sanitized)
    ensures r.Success? ==> r.value.originalUrl == original && r.value.url == sanitized
    ensures r.Success? ==>
      var rec := p.parse(sanitized).value;
      && r.value.hostname == rec.hostname
      && r.value.domain == tld(rec.hostname).domain
      && r.value.subdomain == tld(rec.hostname).subdomain
    ensures r.Success? ==>
      var rec := p.parse(sanitized).value;
      var id := ExtractIdentity(tld(rec.hostname).domain, Segments(rec.pathname), rec.query);
      r.value.handle == id.handle && r.value.providerId == id.providerId
  {
    match p.parse(sanitized)
    case None => Failure(InvalidUrl)
    case Some(rec) =>
      var parsed := tld(rec.hostname);
      var id := ExtractIdentity(parsed.domain, Segments(rec.pathname), rec.query);
      Success(Info(original, sanitized, rec.hostname, parsed.domain, parsed.subdomain, id.handle, id.providerId))
  }

  /** What `urlInfo(input)` returns or throws, judged in the state before the call. */
  function UrlInfoResult(p: UrlParser, tld: string -> ParsedDomain, input: Input): (r: Result<Info, Error>)
    reads input.Objects()
    ensures SanitizeResult(p, tld, Options(None), input).Failure? ==> r == Failure(SanitizeResult(p, tld, Options(None), input).error)
    ensures r.Success? <==> SanitizeResult(p, tld, Options(None), input).Success? && p.CanParse(SanitizeResult(p, tld, Options(None), input).value)
    ensures r.Success? ==> r.value.url == SanitizeResult(p, tld, Options(None), input).value && r.value.originalUrl == input
  {
    match SanitizeResult(p, tld, Options(None), input)
    case Failure(e) => Failure(e)
    case Success(sanitized) => InfoOf(p, tld, input, sanitized)
  }

  /** `urlInfo`, lines 120-173. */
  method UrlInfo(input: Input, p: UrlParser, tld: string -> ParsedDomain) returns (r: Result<Info, Error>)
    modifies input.Objects()
    ensures r == old(UrlInfoResult(p, tld, input))
    ensures input.Obj? ==>
      var s := Sanitized(RULES, DEFAULT_PROTOCOLS, tld, old(input.url.Record()));
      input.url.Record() == if s.Success? then s.value else old(input.url.Record())
  {
    var originalUrl := input;
    var sanitized := SanitizeUrl(input, Options(None), p, tld);
    if sanitized.Failure? {
      return Failure(sanitized.error);
    }
    r := InfoOf(p, tld, originalUrl, sanitized.value);
  }

  /**
   * `sanitizeUrl` returns a string exactly when the input is coerced to a URL
   * whose protocol is allowed and whose hostname has a valid ICANN domain;
   * otherwise it throws the coercion, protocol or domain error, in that order.
   */
  lemma SanitizeUrlAccepts(p: UrlParser, tld: string -> ParsedDomain, opts: Options, input: Input)
    ensures var c := EnsureUrl(p, input);
      && (c.Failure? ==> SanitizeResult(p, tld, opts, input) == Failure(c.error))
      && (c.Success? ==>
            var rec := c.value.Start();
            && (rec.protocol !in AllowedProtocols(opts) ==>
                  SanitizeResult(p, tld, opts, input) == Failure(InvalidProtocol(rec.protocol)))
            && (rec.protocol in AllowedProtocols(opts) && !DomainIsValid(tld(rec.hostname)) ==>
                  SanitizeResult(p, tld, opts, input) == Failure(InvalidDomain(rec.hostname)))
            && (SanitizeResult(p, tld, opts, input).Success? <==>
                  rec.protocol in AllowedProtocols(opts) && DomainIsValid(tld(rec.hostname))))
  {
  }

  /**
   * `urlInfo` throws exactly when `sanitizeUrl` throws or its output does not
   * parse again; otherwise its `url` is that output and its `originalUrl` the
   * input as given.
   */
  lemma UrlInfoOfSanitized(p: UrlParser, tld: string -> ParsedDomain, input: Input)
    ensures var s := SanitizeResult(p, tld, Options(None), input);
      && (UrlInfoResult(p, tld, input).Failure? <==> s.Failure? || !p.CanParse(s.value))
      && (s.Failure? ==> UrlInfoResult(p, tld, input) == Failure(s.error))
      && (UrlInfoResult(p, tld, input).Success? ==>
            && s == Success(UrlInfoResult(p, tld, input).value.url)
            && UrlInfoResult(p, tld, input).value.originalUrl == input)
  {
  }

  // ---------------------------------------------------------------------------
  // Properties of the handle rules
  // ---------------------------------------------------------------------------

  /**
   * Lines 140-145: for a domain of the pattern table the candidate is the first
   * segment less one leading `@`; it is the handle exactly when the domain's
   * pattern accepts it, it is never longer than the pattern allows, and there
   * is no provider id.
   */
  lemma PatternTableRule(domain: Option<string>, paths: seq<string>, query: seq<Param>)
    requires domain.Some? && domain.value in HANDLE_PATTERNS && |paths| > 0
    ensures var r := ExtractIdentity(domain, paths, query);
      var pat := HANDLE_PATTERNS[domain.value];
      && r.providerId == None
      && (r.handle.Some? <==> Matches(pat, StripAt(paths[0])))
      && (r.handle.Some? ==> r.handle.value == StripAt(paths[0]))
      && (r.handle.Some? && pat.Longest().Some? ==> |r.handle.value| <= pat.Longest().value)
  {
    var r := ExtractIdentity(domain, paths, query);
    if r.handle.Some? {
      MatchBounds(HANDLE_PATTERNS[domain.value], r.handle.value);
    }
  }

  /** Lines 146-147: on LinkedIn the handle is the second segment exactly when the first is `in`, unchecked. */
  lemma LinkedInRule(paths: seq<string>, query: seq<Param>)
    ensures var r := ExtractIdentity(Some("linkedin.com"), paths, query);
      && r.providerId == None
      && (r.handle.Some? <==> |paths| >= 2 && paths[0] == "in")
      && (r.handle.Some? ==> r.handle.value == paths[1])
  {
    assert "linkedin.com" !in HANDLE_PATTERNS;
  }

  /**
   * Lines 148-160: `profile.php` gives the `id` query value as provider id and
   * no handle; otherwise the candidate (the segment after `pages`, else the
   * first segment) is the handle exactly when it is made of ASCII letters,
   * digits and dots, and there is no provider id.
   */
  lemma FacebookRule(paths: seq<string>, query: seq<Param>)
    requires |paths| > 0
    ensures var r := ExtractIdentity(Some("facebook.com"), paths, query);
      && (paths[0] == "profile.php" ==> r == Identity(None, QueryGet(query, "id")))
      && (paths[0] != "profile.php" ==>
            && r.providerId == None
            && (r.handle.Some? <==> Matches(FACEBOOK_HANDLE, FacebookCandidate(paths)))
            && (r.handle.Some? ==> r.handle.value == FacebookCandidate(paths)))
      && (r.handle.Some? ==>
            && |r.handle.value| > 0
            && forall i :: 0 <= i < |r.handle.value| ==>
                 IsAsciiLetter(r.handle.value[i]) || IsAsciiDigit(r.handle.value[i]) || r.handle.value[i] == '.')
  {
    assert "facebook.com" !in HANDLE_PATTERNS;
    var r := ExtractIdentity(Some("facebook.com"), paths, query);
    if r.handle.Some? {
      MatchBounds(FACEBOOK_HANDLE, r.handle.value);
    }
  }

  /** Dropping a leading `@` keeps a string free of slashes. */
  lemma StripAtSlashFree(s: string)
    requires '/' !in s
    ensures '/' !in StripAt(s)
  {
    if |s| > 0 && s[0] == '@' {
      forall k | 0 <= k < |s| - 1 ensures s[1..][k] != '/' {
        assert s[1..][k] == s[k + 1];
      }
    }
  }

  /** Every handle found in real path segments is a non-empty piece of one segment, free of slashes. */
  lemma HandleIsSegmentPiece(domain: Option<string>, path: string, query: seq<Param>)
    ensures var r := ExtractIdentity(domain, Segments(path), query);
      r.handle.Some? ==> r.handle.value != "" && '/' !in r.handle.value
  {
    var paths := Segments(path);
    var r := ExtractIdentity(domain, paths, query);
    if r.handle.Some? {
      if domain.Some? && domain.value in HANDLE_PATTERNS {
        StripAtSlashFree(paths[0]);
        assert Matches(HANDLE_PATTERNS[domain.value], r.handle.value);
        assert HANDLE_PATTERNS[domain.value].minLen >= 1;
        MatchBounds(HANDLE_PATTERNS[domain.value], r.handle.value);
      } else if domain == Some("facebook.com") {
        MatchBounds(FACEBOOK_HANDLE, r.handle.value);
        assert r.handle.value == FacebookCandidate(paths);
      }
    }
  }

  /** test/url-info.ts:39-48: a Twitter handle loses its `@`. */
  lemma TwitterHandleExample()
    ensures ExtractIdentity(Some("twitter.com"), ["@spacex"], []) == Identity(Some("spacex"), None)
  {
    assert StripAt("@spacex") == "spacex";
  }

  /** Only one `@` is removed before the pattern, whose own `@?` then accepts a second one. */
  lemma DoubleAtKeepsOne()
    ensures ExtractIdentity(Some("tiktok.com"), ["@@tiktok"], []) == Identity(Some("@tiktok"), None)
  {
    assert StripAt("@@tiktok") == "@tiktok";
    assert Body(HANDLE_PATTERNS["tiktok.com"], "@tiktok") == "tiktok";
  }

  /** `x.com` is not a key of the pattern table, so an x.com path gives no handle (test/url-info.ts:50-58 expects one). */
  lemma XComHasNoHandle()
    ensures ExtractIdentity(Some("x.com"), ["AndreiIgna"], []) == Identity(None, None)
  {
    assert "x.com" !in HANDLE_PATTERNS;
  }

  /** test/url-info.ts:62-70: a LinkedIn profile path with a trailing slash. */
  lemma LinkedInExample()
    ensures ExtractIdentity(Some("linkedin.com"), Segments("/in/bjimenez23/"), []) == Identity(Some("bjimenez23"), None)
  {
    var parts := ["in", "bjimenez23"];
    assert parts[1..] == ["bjimenez23"];
    assert Join(parts[1..]) == "bjimenez23";
    assert Join(parts) == "in" + "/" + "bjimenez23";
    SegmentsOfJoin(parts);
    SegmentsTrailingSlash("/" + Join(parts));
    assert "/" + Join(parts) + "/" == "/in/bjimenez23/";
    LinkedInRule(parts, []);
  }

  /** test/url-info.ts:126-134: a Facebook profile id. */
  lemma FacebookProfileExample()
    ensures ExtractIdentity(Some("facebook.com"), ["profile.php"], [("id", "100000000000001")]) ==
      Identity(None, Some("100000000000001"))
  {
    FacebookRule(["profile.php"], [("id", "100000000000001")]);
  }

  // ---------------------------------------------------------------------------
  // Properties of the sanitiser with this file's tables
  // ---------------------------------------------------------------------------

  /** No secure domain starts with one of the stripped prefixes. */
  lemma SecureDomainUnprefixed(h: string)
    requires h in RULES.secureDomains
    ensures Unprefixed(h)
  {
    assert h[0] != 'm' && (h[0] != 'w' || h[1] != 'w');
  }

  /** The rewrite table leaves the secure domains other than Facebook and Instagram alone. */
  lemma SecureDomainNotRewritten(h: string)
    requires h in RULES.secureDomains && h != "facebook.com" && h != "instagram.com"
    ensures RULES.Rewrite(h) == h
  {
  }

  /** The rewrite table sends the bare Facebook and Instagram domains to their `www.` form and leaves the other secure domains alone. */
  lemma SecureDomainRewrite(h: string)
    requires h in RULES.secureDomains
    ensures RULES.Rewrite(h) == if h == "facebook.com" || h == "instagram.com" then "www." + h else h
  {
    if h != "facebook.com" && h != "instagram.com" {
      SecureDomainNotRewritten(h);
    }
  }

  /** Every secure domain is its own clean hostname after the rewrite table. */
  lemma SecureDomainIsClean(h: string)
    requires h in RULES.secureDomains
    ensures CleanHostname(RULES.Rewrite(h)) == h
  {
    SecureDomainUnprefixed(h);
    SecureDomainRewrite(h);
    if h == "facebook.com" || h == "instagram.com" {
      CleanOfWww(h);
    } else {
      CleanOfUnprefixed(h);
    }
  }

  /** `http:` on any listed secure domain comes out as `https:` with the default options. */
  lemma SecureDomainsUpgraded(tld: string -> ParsedDomain, rec: UrlRecord)
    requires rec.protocol == "http:" && rec.hostname in RULES.secureDomains && DomainIsValid(tld(rec.hostname))
    ensures Sanitized(RULES, DEFAULT_PROTOCOLS, tld, rec).Success?
    ensures Sanitized(RULES, DEFAULT_PROTOCOLS, tld, rec).value.protocol == "https:"
  {
    SecureDomainIsClean(rec.hostname);
  }

  /** `http://google.com:443/` becomes `https://google.com/`: the port that was explicit is https's default and is dropped by the protocol setter. */
  lemma UpgradeClearsDefaultPort(tld: string -> ParsedDomain, rec: UrlRecord)
    requires rec.protocol == "http:" && rec.hostname == "google.com" && rec.port == "443" && DomainIsValid(tld(rec.hostname))
    ensures Sanitized(RULES, DEFAULT_PROTOCOLS, tld, rec).Success?
    ensures Sanitized(RULES, DEFAULT_PROTOCOLS, tld, rec).value.protocol == "https:"
    ensures Sanitized(RULES, DEFAULT_PROTOCOLS, tld, rec).value.port == ""
  {
    SecureDomainsUpgraded(tld, rec);
    SanitizedKeepsOtherFields(RULES, DEFAULT_PROTOCOLS, tld, rec);
  }

  /** A subdomain of a secure domain is not itself secure. */
  lemma SubdomainConstants()
    ensures RULES.Rewrite("subdomain.example.com") == "subdomain.example.com"
    ensures Unprefixed("subdomain.example.com")
    ensures "subdomain.example.com" !in RULES.secureDomains
  {
    assert "subdomain.example.com"[0] == 's';
  }

  /** test/url-info.ts:25-37: a subdomain of a secure domain keeps `http:`. */
  lemma SubdomainNotUpgraded(tld: string -> ParsedDomain, rec: UrlRecord)
    requires rec.protocol == "http:" && rec.hostname == "subdomain.example.com" && DomainIsValid(tld(rec.hostname))
    ensures Sanitized(RULES, DEFAULT_PROTOCOLS, tld, rec).Success?
    ensures Sanitized(RULES, DEFAULT_PROTOCOLS, tld, rec).value.protocol == "http:"
  {
    SubdomainConstants();
    CleanOfUnprefixed(rec.hostname);
  }

  /** `twitter.com` is not rewritten and is its own clean hostname. */
  lemma TwitterHostname()
    ensures RULES.Rewrite("twitter.com") == "twitter.com"
    ensures CleanHostname("twitter.com") == "twitter.com"
  {
    assert Unprefixed("twitter.com") by { assert "twitter.com"[0] == 't'; }
    CleanOfUnprefixed("twitter.com");
  }

  /** Twitter's `s` and `t` are listed for `twitter.com`. */
  lemma TwitterShareNames()
    ensures "s" in RULES.Removed("twitter.com") && "t" in RULES.Removed("twitter.com")
  {
    assert RULES.domainParams["twitter.com"] == ["s", "t"];
    RemovedNames(RULES, "twitter.com", "s");
    RemovedNames(RULES, "twitter.com", "t");
  }

  /** test/url-sanitize.ts:53: Twitter's `s` and `t` share parameters are removed. */
  lemma TwitterShareParamsRemoved(tld: string -> ParsedDomain, rec: UrlRecord)
    requires rec.protocol == "https:" && rec.hostname == "twitter.com" && DomainIsValid(tld(rec.hostname))
    requires rec.query == [("s", "20"), ("t", "lBdttyHtwzrA27bJqu0g0Q")]
    ensures Sanitized(RULES, DEFAULT_PROTOCOLS, tld, rec).Success?
    ensures Sanitized(RULES, DEFAULT_PROTOCOLS, tld, rec).value.query == []
  {
    TwitterHostname();
    TwitterShareNames();
    SanitizedQuery(RULES, DEFAULT_PROTOCOLS, tld, rec);
  }

  /** `www.instagram.com` is not rewritten and cleans to `instagram.com`. */
  lemma InstagramHostname()
    ensures RULES.Rewrite("www.instagram.com") == "www.instagram.com"
    ensures CleanHostname("www.instagram.com") == "instagram.com"
  {
    assert Unprefixed("instagram.com") by { assert "instagram.com"[0] == 'i'; }
    CleanOfWww("instagram.com");
    assert "www." + "instagram.com" == "www.instagram.com";
  }

  /** `hl` is a language name, so it goes everywhere. */
  lemma HlRemoved(clean: string)
    ensures "hl" in RULES.Removed(clean)
  {
    RemovedNames(RULES, clean, "hl");
  }

  /** `igsh` is neither a tracking or language name nor listed for Instagram. */
  lemma IgshNotRemoved()
    ensures "igsh" !in RULES.Removed("instagram.com")
  {
    NotRemoved(RULES, "instagram.com", "igsh");
  }

  /** `igsh` is in no list, so it survives (test/url-info.ts:84-92 expects it removed). */
  lemma IgshKept(tld: string -> ParsedDomain, rec: UrlRecord)
    requires rec.protocol == "https:" && rec.hostname == "www.instagram.com" && DomainIsValid(tld(rec.hostname))
    requires rec.query == [("hl", "fr"), ("igsh", "YmMyMTA2M2Y=")]
    ensures Sanitized(RULES, DEFAULT_PROTOCOLS, tld, rec).Success?
    ensures Sanitized(RULES, DEFAULT_PROTOCOLS, tld, rec).value.query == [("igsh", "YmMyMTA2M2Y=")]
  {
    InstagramHostname();
    HlRemoved("instagram.com");
    IgshNotRemoved();
    SanitizedQuery(RULES, DEFAULT_PROTOCOLS, tld, rec);
  }

  /** `www.proquest.com` is not rewritten and cleans to `proquest.com`. */
  lemma ProquestHostname()
    ensures RULES.Rewrite("www.proquest.com") == "www.proquest.com"
    ensures CleanHostname("www.proquest.com") == "proquest.com"
  {
    assert Unprefixed("proquest.com") by { assert "proquest.com"[0] == 'p'; }
    CleanOfWww("proquest.com");
    assert "www." + "proquest.com" == "www.proquest.com";
  }

  /** ProQuest has no list of its own. */
  lemma ProquestUnlisted()
    ensures "proquest.com" !in RULES.domainParams
  {
  }

  /** `cbl` is neither a tracking nor a language name. */
  lemma CblNotRemoved()
    ensures "cbl" !in RULES.Removed("proquest.com")
  {
    ProquestUnlisted();
    NotRemoved(RULES, "proquest.com", "cbl");
  }

  /** `pq-origsite` is neither a tracking nor a language name. */
  lemma PqOrigsiteNotRemoved()
    ensures "pq-origsite" !in RULES.Removed("proquest.com")
  {
    ProquestUnlisted();
    NotRemoved(RULES, "proquest.com", "pq-origsite");
  }

  /** `pq-origsite` is in no list, so it survives (test/url-sanitize.ts:40 expects it removed). */
  lemma PqOrigsiteKept(tld: string -> ParsedDomain, rec: UrlRecord)
    requires rec.protocol == "https:" && rec.hostname == "www.proquest.com" && DomainIsValid(tld(rec.hostname))
    requires rec.query == [("cbl", "60394"), ("pq-origsite", "gscholar")]
    ensures Sanitized(RULES, DEFAULT_PROTOCOLS, tld, rec).Success?
    ensures Sanitized(RULES, DEFAULT_PROTOCOLS, tld, rec).value.query == rec.query
  {
    ProquestHostname();
    CblNotRemoved();
    PqOrigsiteNotRemoved();
    SanitizedQuery(RULES, DEFAULT_PROTOCOLS, tld, rec);
  }

  /** No hostname is rewritten twice. */
  lemma RulesRewriteStable()
    ensures RULES.RewriteStable()
  {
  }

  /** With the default options, sanitising a sanitised URL changes nothing (if the domain parser still accepts it). */
  lemma DefaultSanitizeIdempotent(tld: string -> ParsedDomain, rec: UrlRecord)
    requires Sanitized(RULES, DEFAULT_PROTOCOLS, tld, rec).Success?
    requires DomainIsValid(tld(Sanitized(RULES, DEFAULT_PROTOCOLS, tld, rec).value.hostname))
    ensures Sanitized(RULES, DEFAULT_PROTOCOLS, tld, Sanitized(RULES, DEFAULT_PROTOCOLS, tld, rec).value) ==
      Sanitized(RULES, DEFAULT_PROTOCOLS, tld, rec)
  {
    RulesRewriteStable();
    SanitizeIdempotent(RULES, DEFAULT_PROTOCOLS, tld, rec);
  }

  /**
   * With `allowedProtocols: ['http:']` sanitising is not idempotent: the
   * upgrade to `https:` makes the result fail a second sanitisation.
   */
  lemma NotIdempotentWithHttpOnly()
    ensures var tld := (h: string) => ParsedDomain(Some(h), Some(""), true);
      var rec := UrlRecord("http:", "", "", "google.com", "", "/", [], "");
      var once := Sanitized(RULES, ["http:"], tld, rec);
      && once.Success?
      && once.value.protocol == "https:"
      && Sanitized(RULES, ["http:"], tld, once.value) == Failure(InvalidProtocol("https:"))
  {
    var tld := (h: string) => ParsedDomain(Some(h), Some(""), true);
    var rec := UrlRecord("http:", "", "", "google.com", "", "/", [], "");
    assert DomainIsValid(tld("google.com"));
    SecureDomainsUpgraded(tld, rec);
    ProtocolUpgrade(RULES, ["http:"], tld, rec);
    SecureDomainIsClean("google.com");
  }
}

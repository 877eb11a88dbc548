/**
 * `src/index.ts`, the older TypeScript version of the library. It runs the
 * same pipeline as `src/index.js` with slightly smaller parameter tables, it
 * only retries a string with `http://` when the public-suffix parser finds a
 * registrable domain in it, and its `urlInfo` never looks for a handle.
 */
module SuperUrlLegacy {
  import opened Wrappers
  import opened WhatwgUrl
  import opened Domains
  import opened Hostnames
  import opened Sanitizer
  import SuperUrl

  /** The tables at lines 7-48: no `utm_name`, `si` or `nd`, and no `_s` for TikTok. */
  const TS_RULES: Rules := Rules(
    map[
      "instagram.com" := "www.instagram.com",
      "facebook.com" := "www.facebook.com",
      "m.facebook.com" := "www.facebook.com",
      "www.twitter.com" := "twitter.com",
      "mobile.twitter.com" := "twitter.com"],
    ["example.com", "google.com", "twitter.com", "facebook.com", "instagram.com", "tiktok.com",
     "youtube.com", "linkedin.com", "whatsapp.com", "tumblr.com"],
    ["locale", "language", "lang", "Lang", "hl"],
    ["_ga", "fbclid", "ref", "ref_src", "ref_url", "referer", "ref_", "fref", "pnref",
     "originalSubdomain", "original_referer", "share_app_id", "share_author_id", "share_link_id",
     "share_id", "sid", "utm_campaign", "utm_content", "utm_medium", "utm_source",
     "usp", "trk"],
    map[
      "instagram.com" := ["igshid"],
      "twitter.com" := ["s", "t"],
      "tiktok.com" := ["_d", "_r", "_t", "checksum", "sec_uid", "sec_user_id", "tt_from", "u_code", "user_id"]])

  /**
   * `ensureURL`, lines 50-64: a string is parsed as it is; when that throws,
   * it is retried with `http://` in front only if `getDomain` finds a
   * registrable domain, and that second parse may throw in turn. A URL object
   * is used as it is.
   */
  function EnsureUrl(p: UrlParser, tld: string -> ParsedDomain, input: Input): (r: Result<Coerced, Error>)
    ensures input.Obj? ==> r == Success(SameUrl(input.url))
    ensures r.Success? && r.value.SameUrl? ==> input == Obj(r.value.url)
    ensures input.Str? && p.CanParse(input.s) ==> r == Success(NewUrl(p.parse(input.s).value))
    ensures input.Str? && !p.CanParse(input.s) && Truthy(tld(input.s).domain) && p.CanParse("http://" + input.s) ==>
      r == Success(NewUrl(p.parse("http://" + input.s).value))
    ensures r.Failure? <==>
      input.Other? || (input.Str? && !p.CanParse(input.s) && !(Truthy(tld(input.s).domain) && p.CanParse("http://" + input.s)))
    ensures input.Other? ==> r == Failure(NotAUrl)
    ensures input.Str? && r.Failure? ==> r.error == InvalidUrl
  {
    match input
    case Str(s) =>
      if p.CanParse(s) then Success(NewUrl(p.parse(s).value))
      else if Truthy(tld(s).domain) then
        if p.CanParse("http://" + s) then Success(NewUrl(p.parse("http://" + s).value)) else Failure(InvalidUrl)
      else Failure(InvalidUrl)
    case Obj(u) => Success(SameUrl(u))
    case Other => Failure(NotAUrl)
  }

  /** What `sanitizeUrl(input, opts)` returns or throws, judged in the state before the call. */
  function SanitizeResult(p: UrlParser, tld: string -> ParsedDomain, opts: Options, input: Input): (r: Result<string, Error>)
    reads input.Objects()
    ensures EnsureUrl(p, tld, input).Failure? ==> r == Failure(EnsureUrl(p, tld, input).error)
    ensures r.Success? <==>
      && EnsureUrl(p, tld, input).Success?
      && EnsureUrl(p, tld, input).value.Start().protocol in AllowedProtocols(opts)
      && DomainIsValid(tld(EnsureUrl(p, tld, input).value.Start().hostname))
  {
    match EnsureUrl(p, tld, input)
    case Failure(e) => Failure(e)
    case Success(c) => Serialized(p, Sanitized(TS_RULES, AllowedProtocols(opts), tld, c.Start()))
  }

  /** `sanitizeUrl`, lines 66-110; a URL object passed in is sanitised in place. */
  method SanitizeUrl(input: Input, opts: Options, p: UrlParser, tld: string -> ParsedDomain) returns (r: Result<string, Error>)
    modifies input.Objects()
    ensures r == old(SanitizeResult(p, tld, opts, input))
    ensures input.Obj? ==>
      var s := Sanitized(TS_RULES, AllowedProtocols(opts), tld, old(input.url.Record()));
      input.url.Record() == if s.Success? then s.value else old(input.url.Record())
  {
    var c := EnsureUrl(p, tld, input);
    if c.Failure? {
      return Failure(c.error);
    }
    var u: Url;
    match c.value {
      case NewUrl(rec) => u := new Url(rec);
      case SameUrl(obj) => u := obj;
    }
    r := SanitizeInPlace(u, TS_RULES, AllowedProtocols(opts), tld, p);
  }

  /** The record this version's `urlInfo` returns, with its constant `group`. */
  datatype Info = Info(
    originalUrl: Input,
    url: string,
    hostname: string,
    domain: Option<string>,
    subdomain: Option<string>,
    group: string,
    handle: Option<string>,
    providerId: Option<string>)

  /**
   * Lines 113-132 once `sanitized` is known: it is parsed again and the domain
   * parser is asked about its hostname; `group` is empty and `handle` and
   * `providerId` are always `null`.
   */
  function InfoOf(p: UrlParser, tld: string -> ParsedDomain, original: Input, sanitized: string): (r: Result<Info, Error>)
    ensures r.Failure? <==> !p.CanParse(sanitized)
    ensures r.Success? ==>
      var rec := p.parse(sanitized).value;
      && r.value.originalUrl == original && r.value.url == sanitized
      && r.value.hostname == rec.hostname
      && r.value.domain == tld(rec.hostname).domain
      && r.value.subdomain == tld(rec.hostname).subdomain
      && r.value.group == "" && r.value.handle == None && r.value.providerId == None
  {
    match p.parse(sanitized)
    case None => Failure(InvalidUrl)
    case Some(rec) =>
      var parsed := tld(rec.hostname);
      Success(Info(original, sanitized, rec.hostname, parsed.domain, parsed.subdomain, "", None, None))
  }

  /** What `urlInfo(input)` returns or throws, judged in the state before the call. */
  function UrlInfoResult(p: UrlParser, tld: string -> ParsedDomain, input: Input): (r: Result<Info, Error>)
    reads input.Objects()
    ensures SanitizeResult(p, tld, Options(None), input).Failure? ==> r == Failure(SanitizeResult(p, tld, Options(None), input).error)
    ensures r.Success? <==> SanitizeResult(p, tld, Options(None), input).Success? && p.CanParse(SanitizeResult(p, tld, Options(None), input).value)
    ensures r.Success? ==> r.value.url == SanitizeResult(p, tld, Options(None), input).value && r.value.originalUrl == input
  {
    match SanitizeResult(p, tld, Options(None), input)
    case Failure(e) => Failure(e)
    case Success(sanitized) => InfoOf(p, tld, input, sanitized)
  }

  /** `urlInfo`, lines 112-133. */
  method UrlInfo(input: Input, p: UrlParser, tld: string -> ParsedDomain) returns (r: Result<Info, Error>)
    modifies input.Objects()
    ensures r == old(UrlInfoResult(p, tld, input))
    ensures input.Obj? ==>
      var s := Sanitized(TS_RULES, DEFAULT_PROTOCOLS, tld, old(input.url.Record()));
      input.url.Record() == if s.Success? then s.value else old(input.url.Record())
  {
    var sanitized := SanitizeUrl(input, Options(None), p, tld);
    var originalUrl := input;
    if sanitized.Failure? {
      return Failure(sanitized.error);
    }
    r := InfoOf(p, tld, originalUrl, sanitized.value);
  }

  /**
   * `sanitizeUrl` returns a string exactly when the input is coerced to a URL
   * whose protocol is allowed and whose hostname has a valid ICANN domain;
   * otherwise it throws the coercion, protocol or domain error, in that order.
   */
  lemma SanitizeUrlAccepts(p: UrlParser, tld: string -> ParsedDomain, opts: Options, input: Input)
    ensures var c := EnsureUrl(p, tld, input);
      && (c.Failure? ==> SanitizeResult(p, tld, opts, input) == Failure(c.error))
      && (c.Success? ==>
            var rec := c.value.Start();
            && (rec.protocol !in AllowedProtocols(opts) ==>
                  SanitizeResult(p, tld, opts, input) == Failure(InvalidProtocol(rec.protocol)))
            && (rec.protocol in AllowedProtocols(opts) && !DomainIsValid(tld(rec.hostname)) ==>
                  SanitizeResult(p, tld, opts, input) == Failure(InvalidDomain(rec.hostname)))
            && (SanitizeResult(p, tld, opts, input).Success? <==>
                  rec.protocol in AllowedProtocols(opts) && DomainIsValid(tld(rec.hostname))))
  {
  }

  /**
   * `urlInfo` throws exactly when `sanitizeUrl` throws or its output does not
   * parse again; otherwise its `url` is that output and its `originalUrl` the
   * input as given.
   */
  lemma UrlInfoOfSanitized(p: UrlParser, tld: string -> ParsedDomain, input: Input)
    ensures var s := SanitizeResult(p, tld, Options(None), input);
      && (UrlInfoResult(p, tld, input).Failure? <==> s.Failure? || !p.CanParse(s.value))
      && (s.Failure? ==> UrlInfoResult(p, tld, input) == Failure(s.error))
      && (UrlInfoResult(p, tld, input).Success? ==>
            && s == Success(UrlInfoResult(p, tld, input).value.url)
            && UrlInfoResult(p, tld, input).value.originalUrl == input)
  {
  }

  // ---------------------------------------------------------------------------
  // Against `src/index.js`
  // ---------------------------------------------------------------------------

  /** Both versions share the rewrite table, the secure domains and the language names. */
  lemma SharedTables()
    ensures TS_RULES.hostnameRewrites == SuperUrl.RULES.hostnameRewrites
    ensures TS_RULES.secureDomains == SuperUrl.RULES.secureDomains
    ensures TS_RULES.languageParams == SuperUrl.RULES.languageParams
    ensures TS_RULES.domainParams.Keys == SuperUrl.RULES.domainParams.Keys
  {
  }

  /** The newer tracking list is this one with `utm_name` after `utm_source` and `si`, `nd` at the end. */
  lemma TrackingListsDiffer()
    ensures SuperUrl.RULES.trackingParams ==
      TS_RULES.trackingParams[..20] + ["utm_name"] + TS_RULES.trackingParams[20..] + ["si", "nd"]
  {
  }

  /** The newer TikTok list is this one with `_s` after `_r`; the other domain lists are the same. */
  lemma DomainListsDiffer()
    ensures SuperUrl.RULES.domainParams["tiktok.com"] ==
      TS_RULES.domainParams["tiktok.com"][..2] + ["_s"] + TS_RULES.domainParams["tiktok.com"][2..]
    ensures SuperUrl.RULES.domainParams["instagram.com"] == TS_RULES.domainParams["instagram.com"]
    ensures SuperUrl.RULES.domainParams["twitter.com"] == TS_RULES.domainParams["twitter.com"]
  {
  }

  /** The names of a concatenation are the names of its parts. */
  lemma SetOfAppend(a: seq<string>, b: seq<string>)
    ensures SetOf(a + b) == SetOf(a) + SetOf(b)
  {
    forall n ensures n in a + b <==> n in a || n in b {
    }
  }

  /** Splicing `x` into `s` at `k` and appending `y` adds exactly the names of `x` and `y`. */
  lemma SetOfSplice(s: seq<string>, k: nat, x: seq<string>, y: seq<string>)
    requires k <= |s|
    ensures SetOf(s[..k] + x + s[k..] + y) == SetOf(s) + SetOf(x) + SetOf(y)
  {
    assert s == s[..k] + s[k..];
    SetOfAppend(s[..k], s[k..]);
    SetOfAppend(s[..k] + x + s[k..], y);
    SetOfAppend(s[..k] + x, s[k..]);
    SetOfAppend(s[..k], x);
  }

  /** Names spliced into a tracking list as the newer version does, followed by the language list. */
  lemma SplicedNames(ts: seq<string>, js: seq<string>, lang: seq<string>)
    requires |ts| >= 20 && js == ts[..20] + ["utm_name"] + ts[20..] + ["si", "nd"]
    ensures SetOf(js + lang) == SetOf(ts + lang) + {"utm_name", "si", "nd"}
  {
    SetOfSplice(ts, 20, ["utm_name"], ["si", "nd"]);
    assert SetOf(["utm_name"]) == {"utm_name"};
    assert SetOf(["si", "nd"]) == {"si", "nd"};
    SetOfAppend(js, lang);
    SetOfAppend(ts, lang);
  }

  /** The newer version's tracking and language names are this version's plus `utm_name`, `si` and `nd`. */
  lemma GlobalNamesDiffer()
    ensures SetOf(SuperUrl.RULES.trackingParams + SuperUrl.RULES.languageParams) ==
      SetOf(TS_RULES.trackingParams + TS_RULES.languageParams) + {"utm_name", "si", "nd"}
  {
    SharedTables();
    TrackingListsDiffer();
    SplicedNames(TS_RULES.trackingParams, SuperUrl.RULES.trackingParams, TS_RULES.languageParams);
  }

  /** The newer version's names for a clean hostname are this version's, plus `_s` on TikTok. */
  lemma DomainNamesDiffer(clean: string)
    ensures (if clean in SuperUrl.RULES.domainParams then SetOf(SuperUrl.RULES.domainParams[clean]) else {}) ==
      (if clean in TS_RULES.domainParams then SetOf(TS_RULES.domainParams[clean]) else {}) +
      (if clean == "tiktok.com" then {"_s"} else {})
  {
    SharedTables();
    DomainListsDiffer();
    if clean == "tiktok.com" {
      var tk := TS_RULES.domainParams[clean];
      SetOfSplice(tk, 2, ["_s"], []);
      assert tk[..2] + ["_s"] + tk[2..] + [] == tk[..2] + ["_s"] + tk[2..];
      assert SetOf(["_s"]) == {"_s"};
      assert SetOf([]) == {};
    } else if clean in SuperUrl.RULES.domainParams {
      assert clean == "instagram.com" || clean == "twitter.com";
    }
  }

  /**
   * For every clean hostname the newer version removes exactly this version's
   * names plus `utm_name`, `si` and `nd`, and `_s` on TikTok.
   */
  lemma RemovedNamesDiffer(clean: string)
    ensures SuperUrl.RULES.Removed(clean) ==
      TS_RULES.Removed(clean) + {"utm_name", "si", "nd"} + (if clean == "tiktok.com" then {"_s"} else {})
  {
    GlobalNamesDiffer();
    DomainNamesDiffer(clean);
  }

  /** Both versions throw the same errors for the same URL and agree on everything but the query list. */
  lemma SameOutcomeAsJs(allowed: seq<string>, tld: string -> ParsedDomain, rec: UrlRecord)
    ensures Sanitized(TS_RULES, allowed, tld, rec).Success? <==> Sanitized(SuperUrl.RULES, allowed, tld, rec).Success?
    ensures Sanitized(TS_RULES, allowed, tld, rec).Failure? ==>
      Sanitized(TS_RULES, allowed, tld, rec) == Sanitized(SuperUrl.RULES, allowed, tld, rec)
    ensures Sanitized(TS_RULES, allowed, tld, rec).Success? ==>
      Sanitized(TS_RULES, allowed, tld, rec).value.(query := rec.query) ==
      Sanitized(SuperUrl.RULES, allowed, tld, rec).value.(query := rec.query)
  {
    SharedTables();
    SameRoutingSameOutcome(TS_RULES, SuperUrl.RULES, allowed, tld, rec);
  }

  /**
   * The newer version's query list is this version's with the tuples named
   * `utm_name`, `si`, `nd` (and `_s` on TikTok) further removed: this version
   * keeps everything the newer one keeps.
   */
  lemma JsQueryFiltersFurther(allowed: seq<string>, tld: string -> ParsedDomain, rec: UrlRecord)
    requires Sanitized(TS_RULES, allowed, tld, rec).Success?
    ensures var clean := CleanHostname(TS_RULES.Rewrite(rec.hostname));
      Sanitized(SuperUrl.RULES, allowed, tld, rec).value.query ==
      Filtered(Sanitized(TS_RULES, allowed, tld, rec).value.query,
               {"utm_name", "si", "nd"} + (if clean == "tiktok.com" then {"_s"} else {}))
  {
    var clean := CleanHostname(TS_RULES.Rewrite(rec.hostname));
    var extra: set<string> := {"utm_name", "si", "nd"} + (if clean == "tiktok.com" then {"_s"} else {});
    SharedTables();
    RemovedNamesDiffer(clean);
    StricterRulesKeepLess(TS_RULES, SuperUrl.RULES, allowed, tld, rec);
    SanitizedQuery(TS_RULES, allowed, tld, rec);
    var q := rec.query;
    FilteredTwice(q, TS_RULES.Removed(clean), extra);
    FilteredMore(q, TS_RULES.Removed(clean), SuperUrl.RULES.Removed(clean));
    assert TS_RULES.Removed(clean) + extra == SuperUrl.RULES.Removed(clean);
  }

  /**
   * Coercion: whatever this version accepts, the newer one accepts with the
   * same URL; a string the newer one accepts and this one refuses is one that
   * only parses with `http://` in front and has no registrable domain.
   */
  lemma CoercionAgainstJs(p: UrlParser, tld: string -> ParsedDomain, input: Input)
    ensures EnsureUrl(p, tld, input).Success? ==> SuperUrl.EnsureUrl(p, input) == EnsureUrl(p, tld, input)
    ensures input.Str? && SuperUrl.EnsureUrl(p, input).Success? && EnsureUrl(p, tld, input).Failure? <==>
      input.Str? && !p.CanParse(input.s) && p.CanParse("http://" + input.s) && !Truthy(tld(input.s).domain)
  {
  }

  /** `http://example.com` comes out as `https:`, since `example.com` is a secure domain (tests/url-sanitize.spec.ts:37 expects `http:`). */
  lemma ExampleComUpgraded(tld: string -> ParsedDomain, rec: UrlRecord)
    requires rec.protocol == "http:" && rec.hostname == "example.com" && DomainIsValid(tld(rec.hostname))
    ensures Sanitized(TS_RULES, DEFAULT_PROTOCOLS, tld, rec).Success?
    ensures Sanitized(TS_RULES, DEFAULT_PROTOCOLS, tld, rec).value.protocol == "https:"
  {
    SuperUrl.SecureDomainsUpgraded(tld, rec);
    SameOutcomeAsJs(DEFAULT_PROTOCOLS, tld, rec);
  }

  /** `utm_name` is a tracking name of the newer version only. */
  lemma UtmNameListed()
    ensures "utm_name" !in TS_RULES.Removed("google.com")
    ensures "utm_name" in SuperUrl.RULES.Removed("google.com")
  {
    assert "google.com" !in TS_RULES.domainParams;
    NotRemoved(TS_RULES, "google.com", "utm_name");
    RemovedNames(SuperUrl.RULES, "google.com", "utm_name");
  }

  /** `utm_name` is kept here and removed by the newer version. */
  lemma UtmNameOnlyRemovedByJs(tld: string -> ParsedDomain, rec: UrlRecord)
    requires rec.protocol == "https:" && rec.hostname == "google.com" && DomainIsValid(tld(rec.hostname))
    requires rec.query == [("utm_name", "x")]
    ensures Sanitized(TS_RULES, DEFAULT_PROTOCOLS, tld, rec).value.query == [("utm_name", "x")]
    ensures Sanitized(SuperUrl.RULES, DEFAULT_PROTOCOLS, tld, rec).value.query == []
  {
    SuperUrl.SecureDomainIsClean("google.com");
    SharedTables();
    UtmNameListed();
    SanitizedQuery(TS_RULES, DEFAULT_PROTOCOLS, tld, rec);
    SanitizedQuery(SuperUrl.RULES, DEFAULT_PROTOCOLS, tld, rec);
  }
}

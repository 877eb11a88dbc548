/**
 * The sanitising pipeline shared by `src/index.js` and `src/index.ts`: both
 * files run the same steps on a parsed URL and differ only in their rule
 * tables and in how they obtain the URL. The tables are a `Rules` value; each
 * file's module supplies its own.
 *
 * Steps, in order: refuse a protocol outside the allow-list; refuse a hostname
 * without a valid ICANN registrable domain; rewrite the exact hostname through
 * the rewrite table; compute the clean hostname; upgrade `http:` to `https:`
 * for secure domains; delete every tracking and language parameter; delete the
 * clean hostname's own parameters; serialise.
 */
module Sanitizer {
  import opened Wrappers
  import opened WhatwgUrl
  import opened Domains
  import opened Hostnames

  /** The errors the source throws; the message texts are not modelled. */
  datatype Error =
    | InvalidUrl                        // "Invalid URL"
    | InvalidProtocol(protocol: string) // "Invalid URL protocol ..."
    | InvalidDomain(hostname: string)   // "Not a valid internet domain ..."
    | NotAUrl                           // a value that is neither a string nor a URL object

  /** What a caller may pass: a string, a URL object, or any other JavaScript value. */
  datatype Input = Str(s: string) | Obj(url: Url) | Other {

    /** The caller's objects that the sanitiser may change. */
    function Objects(): set<object> {
      if Obj? then {url} else {}
    }
  }

  /** The URL the pipeline works on: freshly parsed from a string, or the caller's own object. */
  datatype Coerced = NewUrl(rec: UrlRecord) | SameUrl(url: Url) {

    function Objects(): set<object> {
      if SameUrl? then {url} else {}
    }

    /** The attributes the pipeline starts from. */
    function Start(): UrlRecord
      reads Objects()
    {
      match this
      case NewUrl(rec) => rec
      case SameUrl(u) => u.Record()
    }
  }

  /** The options argument; a missing `allowedProtocols` falls back to the default. */
  datatype Options = Options(allowedProtocols: Option<seq<string>>)

  const DEFAULT_PROTOCOLS: seq<string> := ["http:", "https:"]

  /** `{ allowedProtocols: ['http:', 'https:'], ...options }.allowedProtocols`. */
  function AllowedProtocols(opts: Options): (r: seq<string>)
    ensures opts.allowedProtocols.None? ==> r == ["http:", "https:"]
    ensures opts.allowedProtocols.Some? ==> r == opts.allowedProtocols.value
  {
    opts.allowedProtocols.GetOr(DEFAULT_PROTOCOLS)
  }

  /** The set of names listed in `names`. */
  function SetOf(names: seq<string>): set<string> {
    set n | n in names
  }

  /** The static rule tables of one source file. */
  datatype Rules = Rules(
    hostnameRewrites: map<string, string>,
    secureDomains: seq<string>,
    languageParams: seq<string>,
    trackingParams: seq<string>,
    domainParams: map<string, seq<string>>)
  {
    /** The hostname after the exact-match rewrite table. */
    function Rewrite(hostname: string): (r: string)
      ensures r == hostname || r in hostnameRewrites.Values
      ensures r != hostname ==> hostname in hostnameRewrites && hostnameRewrites[hostname] == r
      ensures hostname !in hostnameRewrites ==> r == hostname
      ensures hostname in hostnameRewrites ==> r == hostnameRewrites[hostname]
    {
      if hostname in hostnameRewrites then hostnameRewrites[hostname] else hostname
    }

    /** Every parameter name the pipeline deletes for a URL whose clean hostname is `clean`. */
    function Removed(clean: string): (r: set<string>)
      ensures SetOf(trackingParams + languageParams) <= r
      ensures clean in domainParams ==> SetOf(domainParams[clean]) <= r
    {
      SetOf(trackingParams + languageParams) + (if clean in domainParams then SetOf(domainParams[clean]) else {})
    }

    /** No rewrite produces another rewritable hostname. */
    predicate RewriteStable() {
      forall h :: h in hostnameRewrites ==> hostnameRewrites[h] !in hostnameRewrites
    }
  }

  /** `names.forEach(name => searchParams.delete(name))` on the list `q`. */
  function DeleteEach(q: seq<Param>, names: seq<string>): (r: seq<Param>)
    ensures |r| <= |q|
    ensures forall p :: p in r <==> p in q && p.0 !in names
  {
    if names == [] then q
    else Filtered(DeleteEach(q, names[..|names| - 1]), {names[|names| - 1]})
  }

  /** Deleting the names one after another is filtering by all of them at once, whatever their order. */
  lemma {:induction false} DeleteEachFilters(q: seq<Param>, names: seq<string>)
    ensures DeleteEach(q, names) == Filtered(q, SetOf(names))
  {
    if names == [] {
      assert SetOf(names) == {};
      FilteredNoop(q, {});
    } else {
      var init := names[..|names| - 1];
      DeleteEachFilters(q, init);
      FilteredTwice(q, SetOf(init), {names[|names| - 1]});
      assert names == init + [names[|names| - 1]];
      assert SetOf(names) == SetOf(init) + {names[|names| - 1]};
    }
  }

  /** A name is removed exactly when it is a tracking or language name or one listed for the clean hostname. */
  lemma RemovedNames(rules: Rules, clean: string, n: string)
    ensures n in rules.Removed(clean) <==>
      n in rules.trackingParams || n in rules.languageParams || (clean in rules.domainParams && n in rules.domainParams[clean])
  {
  }

  /** A name is kept when no list names it. */
  lemma NotRemoved(rules: Rules, clean: string, n: string)
    requires n !in rules.trackingParams
    requires n !in rules.languageParams
    requires clean in rules.domainParams ==> n !in rules.domainParams[clean]
    ensures n !in rules.Removed(clean)
  {
    RemovedNames(rules, clean, n);
  }

  /** The query list after both deletion passes, for a URL whose clean hostname is `clean`. */
  function StripParams(rules: Rules, clean: string, q: seq<Param>): (r: seq<Param>)
    ensures |r| <= |q|
    ensures forall p :: p in r <==>
      && p in q
      && p.0 !in rules.trackingParams + rules.languageParams
      && !(clean in rules.domainParams && p.0 in rules.domainParams[clean])
  {
    var stripped := DeleteEach(q, rules.trackingParams + rules.languageParams);
    if clean in rules.domainParams then DeleteEach(stripped, rules.domainParams[clean]) else stripped
  }

  /** Both passes together delete exactly the names in `rules.Removed(clean)`, keeping the order of the rest. */
  lemma StripParamsFilters(rules: Rules, clean: string, q: seq<Param>)
    ensures StripParams(rules, clean, q) == Filtered(q, rules.Removed(clean))
  {
    var names := rules.trackingParams + rules.languageParams;
    DeleteEachFilters(q, names);
    if clean in rules.domainParams {
      var extra := rules.domainParams[clean];
      DeleteEachFilters(Filtered(q, SetOf(names)), extra);
      FilteredTwice(q, SetOf(names), SetOf(extra));
    } else {
      assert rules.Removed(clean) == SetOf(names);
    }
  }

  /**
   * The port after the `protocol` setter switches to the special scheme
   * `scheme`: a port equal to that scheme's default port is cleared (the
   * scheme state of the basic URL parser, WHATWG URL Standard section 4.4).
   */
  function PortAfterScheme(scheme: string, port: string): (r: string)
    ensures r == "" || r == port
    ensures r == "" <==> port == "" || port == DefaultPort(scheme)
  {
    if port == DefaultPort(scheme) then "" else port
  }

  /**
   * The default port of a special scheme (WHATWG URL Standard section 4.1);
   * `""` for `file:`, which has none, and for every scheme that is not special.
   */
  function DefaultPort(scheme: string): string {
    match scheme
    case "ftp:" => "21"
    case "http:" => "80"
    case "https:" => "443"
    case "ws:" => "80"
    case "wss:" => "443"
    case _ => ""
  }

  /** The URL the pipeline produces from `rec`, or the error it throws. */
  function Sanitized(rules: Rules, allowed: seq<string>, tld: string -> ParsedDomain, rec: UrlRecord): (r: Result<UrlRecord, Error>)
    ensures rec.protocol !in allowed ==> r == Failure(InvalidProtocol(rec.protocol))
    ensures rec.protocol in allowed && !DomainIsValid(tld(rec.hostname)) ==> r == Failure(InvalidDomain(rec.hostname))
    ensures r.Success? <==> rec.protocol in allowed && DomainIsValid(tld(rec.hostname))
  {
    if rec.protocol !in allowed then Failure(InvalidProtocol(rec.protocol))
    else if !DomainIsValid(tld(rec.hostname)) then Failure(InvalidDomain(rec.hostname))
    else
      var hostname := rules.Rewrite(rec.hostname);
      var clean := CleanHostname(hostname);
      var upgrade := rec.protocol == "http:" && clean in rules.secureDomains;
      var protocol := if upgrade then "https:" else rec.protocol;
      var port := if upgrade then PortAfterScheme("https:", rec.port) else rec.port;
      Success(rec.(hostname := hostname, protocol := protocol, port := port, query := StripParams(rules, clean, rec.query)))
  }

  /** `toURL.toString()` of a successful result; errors pass through. */
  function Serialized(p: UrlParser, r: Result<UrlRecord, Error>): (s: Result<string, Error>)
    ensures s.Success? <==> r.Success?
    ensures s.Success? ==> s.value == p.serialize(r.value)
    ensures s.Failure? ==> s.error == r.error
  {
    match r
    case Success(rec) => Success(p.serialize(rec))
    case Failure(e) => Failure(e)
  }

  /** `names.forEach(name => u.searchParams.delete(name))`. */
  method DeleteAll(u: Url, names: seq<string>)
    modifies u
    ensures u.Record() == old(u.Record()).(query := DeleteEach(old(u.query), names))
  {
    for i := 0 to |names|
      invariant u.Record() == old(u.Record()).(query := DeleteEach(old(u.query), names[..i]))
    {
      assert names[..i + 1][..i] == names[..i];
      u.Delete(names[i]);
    }
    assert names[..|names|] == names;
  }

  /**
   * Lines 81-117 of `src/index.js` (73-109 of `src/index.ts`) on the URL object
   * `u`: the checks, then the in-place updates of its hostname, protocol and
   * query list, then serialisation. On an error nothing has been changed yet.
   */
  method SanitizeInPlace(u: Url, rules: Rules, allowed: seq<string>, tld: string -> ParsedDomain, p: UrlParser)
    returns (r: Result<string, Error>)
    modifies u
    ensures r == Serialized(p, Sanitized(rules, allowed, tld, old(u.Record())))
    ensures Sanitized(rules, allowed, tld, old(u.Record())).Success? ==> u.Record() == Sanitized(rules, allowed, tld, old(u.Record())).value
    ensures Sanitized(rules, allowed, tld, old(u.Record())).Failure? ==> u.Record() == old(u.Record())
  {
    if u.protocol !in allowed {
      return Failure(InvalidProtocol(u.protocol));
    }
    var parsed := tld(u.hostname);
    if !DomainIsValid(parsed) {
      return Failure(InvalidDomain(u.hostname));
    }

    if u.hostname in rules.hostnameRewrites {
      u.hostname := rules.hostnameRewrites[u.hostname];
    }
    var clean := CleanHostname(u.hostname);

    if u.protocol == "http:" && clean in rules.secureDomains {
      u.protocol := "https:";
      u.port := PortAfterScheme("https:", u.port);
    }

    DeleteAll(u, rules.trackingParams + rules.languageParams);
    if clean in rules.domainParams {
      DeleteAll(u, rules.domainParams[clean]);
    }

    r := Success(p.serialize(u.Record()));
  }

  /**
   * A successful sanitisation changes only the hostname, the protocol, the
   * query list and, on an upgrade, a port `443`; the hostname is the rewritten
   * one.
   */
  lemma SanitizedKeepsOtherFields(rules: Rules, allowed: seq<string>, tld: string -> ParsedDomain, rec: UrlRecord)
    requires Sanitized(rules, allowed, tld, rec).Success?
    ensures var s := Sanitized(rules, allowed, tld, rec).value;
      && s.hostname == rules.Rewrite(rec.hostname)
      && s.username == rec.username && s.password == rec.password
      && s.pathname == rec.pathname && s.hash == rec.hash
      && (s.protocol == rec.protocol ==> s.port == rec.port)
      && (s.protocol != rec.protocol ==> s.port == if rec.port == "443" then "" else rec.port)
  {
  }

  /**
   * The protocol changes exactly when it was `http:` and the clean hostname of
   * the REWRITTEN hostname is a secure domain, and then it becomes `https:`.
   */
  lemma ProtocolUpgrade(rules: Rules, allowed: seq<string>, tld: string -> ParsedDomain, rec: UrlRecord)
    requires Sanitized(rules, allowed, tld, rec).Success?
    ensures var s := Sanitized(rules, allowed, tld, rec).value;
      && (s.protocol != rec.protocol <==> rec.protocol == "http:" && CleanHostname(rules.Rewrite(rec.hostname)) in rules.secureDomains)
      && (s.protocol != rec.protocol ==> s.protocol == "https:")
  {
  }

  /** The query list that comes out is the incoming one filtered by every removed name, order kept. */
  lemma SanitizedQuery(rules: Rules, allowed: seq<string>, tld: string -> ParsedDomain, rec: UrlRecord)
    requires Sanitized(rules, allowed, tld, rec).Success?
    ensures Sanitized(rules, allowed, tld, rec).value.query == Filtered(rec.query, rules.Removed(CleanHostname(rules.Rewrite(rec.hostname))))
  {
    StripParamsFilters(rules, CleanHostname(rules.Rewrite(rec.hostname)), rec.query);
  }

  /**
   * No tracking or language name remains, nor any name listed for the clean
   * hostname, however often it was repeated; every other tuple keeps its
   * number of occurrences.
   */
  lemma NoRemovedNameRemains(rules: Rules, allowed: seq<string>, tld: string -> ParsedDomain, rec: UrlRecord)
    requires Sanitized(rules, allowed, tld, rec).Success?
    ensures var s := Sanitized(rules, allowed, tld, rec).value;
      var clean := CleanHostname(rules.Rewrite(rec.hostname));
      && (forall p :: p in s.query ==> p.0 !in rules.trackingParams && p.0 !in rules.languageParams)
      && (clean in rules.domainParams ==> forall p :: p in s.query ==> p.0 !in rules.domainParams[clean])
      && (forall p: Param :: p.0 !in rules.Removed(clean) ==> multiset(s.query)[p] == multiset(rec.query)[p])
  {
    var clean := CleanHostname(rules.Rewrite(rec.hostname));
    SanitizedQuery(rules, allowed, tld, rec);
    forall p: Param | p.0 !in rules.Removed(clean)
      ensures multiset(Filtered(rec.query, rules.Removed(clean)))[p] == multiset(rec.query)[p]
    {
      FilteredCount(rec.query, rules.Removed(clean), p);
    }
  }

  /**
   * Sanitising a sanitised URL changes nothing, provided the rewrite table is
   * stable, the allow-list admits `https:` whenever it admits `http:`, and the
   * domain parser still accepts the rewritten hostname.
   */
  lemma SanitizeIdempotent(rules: Rules, allowed: seq<string>, tld: string -> ParsedDomain, rec: UrlRecord)
    requires rules.RewriteStable()
    requires "http:" in allowed ==> "https:" in allowed
    requires Sanitized(rules, allowed, tld, rec).Success?
    requires DomainIsValid(tld(Sanitized(rules, allowed, tld, rec).value.hostname))
    ensures Sanitized(rules, allowed, tld, Sanitized(rules, allowed, tld, rec).value) == Sanitized(rules, allowed, tld, rec)
  {
    var s := Sanitized(rules, allowed, tld, rec).value;
    var clean := CleanHostname(rules.Rewrite(rec.hostname));
    assert rules.Rewrite(s.hostname) == s.hostname;
    SanitizedQuery(rules, allowed, tld, rec);
    SanitizedQuery(rules, allowed, tld, s);
    FilteredTwice(rec.query, rules.Removed(clean), rules.Removed(clean));
    assert rules.Removed(clean) + rules.Removed(clean) == rules.Removed(clean);
  }

  /**
   * Two rule sets with the same rewrite table and secure domains make the same
   * decisions: the same error, or success for both with the same URL apart
   * from the query list.
   */
  lemma SameRoutingSameOutcome(a: Rules, b: Rules, allowed: seq<string>, tld: string -> ParsedDomain, rec: UrlRecord)
    requires a.hostnameRewrites == b.hostnameRewrites && a.secureDomains == b.secureDomains
    ensures Sanitized(a, allowed, tld, rec).Success? <==> Sanitized(b, allowed, tld, rec).Success?
    ensures Sanitized(a, allowed, tld, rec).Failure? ==> Sanitized(a, allowed, tld, rec) == Sanitized(b, allowed, tld, rec)
    ensures Sanitized(a, allowed, tld, rec).Success? ==>
      Sanitized(a, allowed, tld, rec).value.(query := rec.query) == Sanitized(b, allowed, tld, rec).value.(query := rec.query)
  {
  }

  /**
   * When `b` removes at least what `a` removes, `b`'s query list is `a`'s
   * filtered further by `b`'s names: every tuple `b` keeps, `a` keeps too.
   */
  lemma StricterRulesKeepLess(a: Rules, b: Rules, allowed: seq<string>, tld: string -> ParsedDomain, rec: UrlRecord)
    requires a.hostnameRewrites == b.hostnameRewrites && a.secureDomains == b.secureDomains
    requires Sanitized(a, allowed, tld, rec).Success?
    requires a.Removed(CleanHostname(a.Rewrite(rec.hostname))) <= b.Removed(CleanHostname(a.Rewrite(rec.hostname)))
    ensures Sanitized(b, allowed, tld, rec).value.query ==
      Filtered(Sanitized(a, allowed, tld, rec).value.query, b.Removed(CleanHostname(a.Rewrite(rec.hostname))))
  {
    var clean := CleanHostname(a.Rewrite(rec.hostname));
    SanitizedQuery(a, allowed, tld, rec);
    SanitizedQuery(b, allowed, tld, rec);
    FilteredMore(rec.query, a.Removed(clean), b.Removed(clean));
  }
}

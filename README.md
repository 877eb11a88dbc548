# superurl in Dafny

superurl cleans up URLs and extracts social-media identities from them.

`sanitizeUrl` takes a string or a URL object and checks it:
- the protocol must be allowed;
- the hostname must have a registrable ICANN domain.

It then rewrites well-known hostnames (`facebook.com` to `www.facebook.com`, `mobile.twitter.com` to `twitter.com`, …). Next it upgrades `http:` to `https:` for a list of secure domains. Finally it deletes tracking, language and per-site query parameters, and serialises the result.

`urlInfo` sanitises its input and parses the result again. It reports the hostname, the registrable domain and the subdomain. From the path segments it takes a profile handle or provider id, using:
- a per-site pattern table;
- a LinkedIn `/in/<name>` rule;
- a Facebook rule.

The model covers both versions in the repository: `src/index.js` and the older `src/index.ts`.

Modules:

- `Wrappers`: `Option` and `Result`.
- `WhatwgUrl`: the URL record and the `UrlParser` abstraction (parse and serialise are supplied by the caller). It also holds the `Url` class whose attributes the sanitiser assigns in place. The class's `Delete` loop follows `URLSearchParams.delete` (section 6.2 of the WHATWG URL Standard), which removes every tuple with the given name. The module also has `URLSearchParams.get`.
- `Domains`: the fields of the public-suffix parser's result that the core reads. The parser itself, `tldts`, is a function parameter `tld`.
- `Hostnames`: the chained prefix strip that gives the "clean" hostname.
- `Paths`: `pathname.split('/').filter(Boolean)`.
- `Handles`: the handle regular expressions, as character-class and length predicates.
- `Sanitizer`: the pipeline both versions share, parameterised by their rule tables. The tables themselves are constants: `SuperUrl.RULES` (src/index.js:3-47), `SuperUrl.HANDLE_PATTERNS` (src/index.js:49-56), `SuperUrl.FACEBOOK_HANDLE` (the pattern of src/index.js:157) and `SuperUrlLegacy.TS_RULES` (src/index.ts:7-48); the lemmas about them are in the table below.
  - `SanitizeInPlace` is the imperative version, mutating a `Url` object.
  - `Sanitized` is the function it is proved against.
- `SuperUrl`: `src/index.js`, that is, its tables, `ensureURL`, `sanitizeUrl` and `urlInfo`.
- `SuperUrlLegacy`: `src/index.ts`, with lemmas relating it to `src/index.js`.

When `sanitizeUrl` is given a URL object, the source changes the caller's own object. The methods therefore list that object in `modifies` and state its new contents.

### Where the code and its description or tests differ (the model follows the code)

- The clean hostname strips `www.`, then `mobile.`, then `m.`, each at most once and in that order. So a hostname can lose up to three prefixes, not just one.
- Input strings are not trimmed.
- No fragment is removed: there is no `removeHash`.
- `urlInfo` does not validate the domain of the re-parsed URL again. `src/index.js` computes a second clean hostname there and never uses it.
- `x.com` is not in the handle table, so an x.com URL has no handle (test/url-info.ts:50-58 expects one).
- Neither `igsh` nor `pq-origsite` is in any list, so both survive (test/url-info.ts:84-92 and test/url-sanitize.ts:40 expect them removed).
- An explicit `:443` on an upgraded `http:` URL is dropped, because the `protocol` setter clears a port equal to the new scheme's default.
- `example.com` is a secure domain, so `http://example.com` and `www.example.com` come out as `https:` in both versions (tests/url-sanitize.spec.ts:37,42 expect `http:`).
- The `urlInfo` of `src/index.ts` always reports a null handle (tests/url-info.spec.ts:44-57 expect `spacex`).
- For an `@?` pattern the handle can keep an `@`: only one `@` is sliced off before the pattern test, and the pattern's own `@?` then accepts a second one. So `/@@tiktok` on tiktok.com gives the handle `@tiktok`.
- Sanitising is idempotent only when the allow-list admits `https:` whenever it admits `http:`. With `allowedProtocols: ['http:']`, `http://google.com` comes out as `https:`, and the result is then refused.

## Model

| member | source | states |
|---|---|---|
| WhatwgUrl.Filtered | src/index.js:106-115 | the kept tuples are exactly those whose name is not removed, and the list never grows |
| WhatwgUrl.FilteredCount | src/index.js:106-115 | every repeat of a removed name is gone; every other tuple keeps its number of occurrences |
| WhatwgUrl.FilteredAppend | src/index.js:106-115 | filtering keeps the relative order of the kept tuples, across any split of the list |
| WhatwgUrl.FilteredTwice | src/index.js:106-115 | deleting one set of names and then another is the same as deleting both at once |
| WhatwgUrl.FilteredMore | src/index.ts:98-107 | filtering by a larger set after a smaller one equals filtering by the larger set |
| WhatwgUrl.FilteredNoop | src/index.js:106-115 | a list holding none of the names is left exactly as it was |
| WhatwgUrl.QueryGet | src/index.js:150 | `None` exactly when no tuple has the name; otherwise the value of the first tuple with that name |
| WhatwgUrl.Url.constructor | src/index.js:61-63 | the new URL object holds the parsed record |
| WhatwgUrl.Url.Delete | src/index.js:107 | the object's query list loses every tuple with the name; all other attributes are unchanged |
| Hostnames.StripPrefix | src/index.js:98 | a leading prefix is removed once; without one the string is unchanged |
| Hostnames.CleanHostname | src/index.js:98 | the hostname is an ordered choice of the `www.`, `mobile.` and `m.` prefixes followed by the result, and the choice is greedy: a prefix left out is not there at its point of the chain |
| Hostnames.CleanHostnameOfChain | src/index.js:98 | a greedy ordered choice of the three prefixes is removed completely and nothing more; with `CleanHostname`'s contract this fixes the clean hostname of every hostname |
| Hostnames.UnprefixedIsGreedy | src/index.js:98 | before a name that starts with none of the prefixes, every ordered choice of them is greedy |
| Hostnames.CleanOfUnprefixed | src/index.js:98 | a hostname with none of the prefixes is its own clean hostname |
| Hostnames.CleanOfWww | src/index.js:98 | `www.` in front of an unprefixed name is removed and nothing else |
| Hostnames.CleanWwwThenM | src/index.js:98 | `www.m.x.com` becomes `x.com` |
| Hostnames.CleanMThenWww | src/index.js:98 | `m.www.x.com` becomes `www.x.com`, because `www.` is only looked for first |
| Hostnames.CleanWwwTwice | src/index.js:98 | a repeated `www.` is removed only once |
| Hostnames.CleanMobileMM | src/index.js:98 | `mobile.m.m.x.com` becomes `m.x.com`: `mobile.` and one `m.` are removed |
| Paths.Split | src/index.js:135 | at least one piece, and no piece contains a slash |
| Paths.SplitJoin | src/index.js:135 | joining the pieces with slashes gives back the path |
| Paths.JoinSplit | src/index.js:135 | splitting a join of slash-free pieces gives back the pieces |
| Paths.NonEmpty | src/index.js:135 | exactly the non-empty strings of the list are kept |
| Paths.NonEmptyAppend | src/index.js:135 | filtering out empty strings commutes with concatenation, so order and repeats of the kept strings are preserved |
| Paths.Segments | src/index.js:135 | every segment is non-empty and slash-free |
| Paths.SegmentsOfPieces | src/index.js:135 | the segments of slash-free pieces joined with slashes are exactly the non-empty pieces, in order and with repeats |
| Paths.SegmentsOfJoin | src/index.js:135 | `/` followed by any list of non-empty, slash-free names joined by `/` has exactly those names as its segments, in order |
| Paths.SegmentsDoubledSlash | src/index.js:135 | `//in//name` has exactly the segments `in` and `name` |
| Paths.SegmentsTrailingSlash | src/index.js:135 | a trailing slash adds no segment |
| Handles.StripAt | src/index.js:141 | one leading `@` is removed, if there is one; otherwise the string is unchanged |
| Handles.Matches | src/index.js:49-56 | an accepted string is at least the lower bound long and at most the upper bound, plus one for an optional `@` |
| Handles.MatchBounds | src/index.js:49-56 | an accepted string is at least the lower bound long and at most the upper bound (plus the optional `@`), and is made only of the class's characters apart from that `@` |
| Sanitizer.Rules.Rewrite | src/index.js:93-95 | a hostname in the table becomes its entry and one outside it is kept; so a hostname that changes is a key, and every result is the hostname or a target |
| Sanitizer.Rules.Removed | src/index.js:105-115 | every tracking and language name is removed, and so is every name listed for the clean hostname (the converse is `RemovedNames`) |
| Sanitizer.DeleteEach | src/index.js:106-108 | the list never grows, and a tuple is kept exactly when it was there and its name is not one of the names |
| Sanitizer.DeleteEachFilters | src/index.js:106-115 | deleting the listed names one after another, in any order, is filtering by the set of them |
| Sanitizer.RemovedNames | src/index.js:106-115 | a name is deleted exactly when it is a tracking or language name, or is listed for the clean hostname |
| Sanitizer.NotRemoved | src/index.js:106-115 | a name that no list holds is not deleted |
| Sanitizer.StripParams | src/index.js:105-115 | the list never grows, and a tuple is kept exactly when it was there, its name is no tracking or language name, and it is not listed for the clean hostname |
| Sanitizer.StripParamsFilters | src/index.js:106-115 | both deletion passes together delete exactly the removed names and keep the order of the rest |
| Sanitizer.PortAfterScheme | src/index.js:102 | the protocol setter keeps the port, or clears it exactly when it is empty or the new scheme's default port |
| Domains.DomainIsValid | src/index.js:86-89 | a hostname is refused exactly when the parser finds no domain, an empty one, or a non-ICANN suffix |
| Sanitizer.AllowedProtocols | src/index.js:75-78 | without the option the allow-list is `http:` and `https:`; with it, the caller's list |
| Sanitizer.Serialized | src/index.js:117 | a success is serialised by the URL serialiser; an error passes through unchanged |
| Sanitizer.Sanitized | src/index.js:81-90 | a disallowed protocol fails with that protocol; an allowed protocol with an invalid domain fails with the hostname; success exactly when both checks pass |
| Sanitizer.DeleteAll | src/index.js:106-108 | after the loop the query list is the old one with each listed name deleted in turn; no other attribute changes |
| Sanitizer.SanitizeInPlace | src/index.js:81-117 | returns the serialised sanitised record or the error; on success the object holds the sanitised record (including the port the protocol setter cleared), and on an error it is unchanged |
| Sanitizer.SanitizedKeepsOtherFields | src/index.js:92-103 | the hostname becomes the rewritten one; user, password, path and fragment are unchanged; the port is unchanged unless the protocol was upgraded, and then only an explicit `443` is cleared |
| Sanitizer.ProtocolUpgrade | src/index.js:101-103 | the protocol changes exactly when it was `http:` and the clean form of the rewritten hostname is a secure domain, and then it becomes `https:` |
| Sanitizer.SanitizedQuery | src/index.js:106-115 | the resulting query list is the incoming one filtered by the removed names of the clean hostname |
| Sanitizer.NoRemovedNameRemains | src/index.js:106-115 | no tracking, language or listed domain name remains, however often it was repeated; other tuples keep their multiplicity |
| Sanitizer.SanitizeIdempotent | src/index.js:81-117 | if the rewrite table is stable, `https:` is allowed whenever `http:` is, and the domain parser accepts the new hostname, then sanitising the result gives the same result |
| Sanitizer.SameRoutingSameOutcome | src/index.ts:73-95 | rule sets with the same rewrite table and secure domains give the same errors and the same URL apart from the query list |
| Sanitizer.StricterRulesKeepLess | src/index.ts:98-107 | rules that remove more give the other rules' query list, filtered further |
| SuperUrl.EnsureUrl | src/index.js:58-72 | a URL object is used as is; a parsable string is parsed; otherwise it is parsed with `http://` in front; failure, with "Invalid URL", exactly for a non-URL value or when neither parse succeeds |
| SuperUrl.SanitizeResult | src/index.js:74-118 | a coercion error passes through; a string comes back exactly when the coerced URL has an allowed protocol and a valid domain |
| SuperUrl.SanitizeUrl | src/index.js:74-118 | returns what the pipeline gives for the coerced input, judged before the call; a URL object passed in ends up holding the sanitised attributes, or is unchanged on an error |
| SuperUrl.SanitizeUrlAccepts | src/index.js:79-90 | a coercion error passes through; then the protocol error, then the domain error; a string comes back exactly when both checks pass |
| SuperUrl.ExtractIdentity | src/index.js:125-162 | never both a handle and a provider id; both null without path segments or for a domain with no rule |
| SuperUrl.PatternTableRule | src/index.js:140-145 | for a domain of the pattern table the handle is the first segment less one `@`, exactly when the pattern accepts it, never longer than the pattern's bound; no provider id |
| SuperUrl.LinkedInRule | src/index.js:146-147 | on linkedin.com the handle is the second segment exactly when there are two or more segments and the first is `in`; no provider id |
| SuperUrl.FacebookCandidate | src/index.js:151-155 | the candidate is one of the segments: the first one, unless the path starts with `pages` followed by a non-empty segment, which is then the candidate |
| SuperUrl.FacebookIdentity | src/index.js:148-160 | `profile.php` gives the `id` query value and no handle; otherwise no provider id, and the candidate is the handle exactly when it is non-empty and matches |
| SuperUrl.FacebookRule | src/index.js:148-160 | `profile.php` gives the `id` query value and no handle; otherwise the candidate (after `pages`, else the first segment) is the handle exactly when it matches; a handle consists only of ASCII letters, digits and dots |
| SuperUrl.HandleIsSegmentPiece | src/index.js:135-161 | every handle found is non-empty and contains no slash |
| SuperUrl.InfoOf | src/index.js:123-172 | fails exactly when the sanitised string does not parse again; otherwise it keeps `originalUrl` and `url`, takes hostname, domain and subdomain from the reparse and the domain parser, and takes handle and provider id from the identity rules applied to the reparsed domain, path segments and query |
| SuperUrl.UrlInfoResult | src/index.js:120-173 | a sanitising error passes through; success exactly when the sanitised string parses again, and then `url` is that string and `originalUrl` the input |
| SuperUrl.UrlInfo | src/index.js:120-173 | returns `UrlInfoResult` of the input, judged in the state before the call; a URL object passed in ends up holding the sanitised attributes under the default options, or is unchanged on an error |
| SuperUrl.UrlInfoOfSanitized | src/index.js:120-123 | `urlInfo` fails exactly when `sanitizeUrl` fails or its output does not parse again; its `url` is that output and `originalUrl` is the input |
| SuperUrl.TwitterHandleExample | src/index.js:140-145 | `/@spacex` on twitter.com gives the handle `spacex` |
| SuperUrl.DoubleAtKeepsOne | src/index.js:141-143 | `/@@tiktok` on tiktok.com gives the handle `@tiktok` |
| SuperUrl.XComHasNoHandle | src/index.js:49-56 | an x.com path gives neither handle nor provider id |
| SuperUrl.LinkedInExample | src/index.js:135-147 | `/in/bjimenez23/` on linkedin.com gives the handle `bjimenez23` |
| SuperUrl.FacebookProfileExample | src/index.js:149-150 | `profile.php?id=100000000000001` gives that provider id and no handle |
| SuperUrl.SecureDomainUnprefixed | src/index.js:11 | no secure domain starts with a stripped prefix |
| SuperUrl.SecureDomainRewrite | src/index.js:3-11 | bare facebook.com and instagram.com are rewritten to their `www.` form; the other secure domains are left alone |
| SuperUrl.SecureDomainIsClean | src/index.js:93-98 | every secure domain is its own clean hostname after the rewrite |
| SuperUrl.SecureDomainsUpgraded | src/index.js:101-103 | `http:` on any secure domain comes out as `https:` with the default options |
| SuperUrl.UpgradeClearsDefaultPort | src/index.js:101-103 | `http://google.com:443` comes out as `https:` with no explicit port |
| SuperUrl.SubdomainNotUpgraded | src/index.js:101-103 | `http://subdomain.example.com` keeps `http:` |
| SuperUrl.TwitterHostname | src/index.js:3-9 | twitter.com is not rewritten and is its own clean hostname |
| SuperUrl.TwitterShareNames | src/index.js:43-46 | `s` and `t` are removed for twitter.com |
| SuperUrl.TwitterShareParamsRemoved | src/index.js:110-115 | `?s=20&t=…` on twitter.com leaves an empty query list |
| SuperUrl.InstagramHostname | src/index.js:3-9 | www.instagram.com is not rewritten and cleans to instagram.com |
| SuperUrl.HlRemoved | src/index.js:15 | `hl` is removed on every host |
| SuperUrl.IgshNotRemoved | src/index.js:15-47 | `igsh` is removed neither globally nor for instagram.com |
| SuperUrl.IgshKept | src/index.js:105-115 | on www.instagram.com `hl` is removed and `igsh` kept |
| SuperUrl.ProquestHostname | src/index.js:3-9 | www.proquest.com is not rewritten and cleans to proquest.com |
| SuperUrl.ProquestUnlisted | src/index.js:43-47 | proquest.com has no names of its own |
| SuperUrl.CblNotRemoved | src/index.js:15-42 | `cbl` is not removed for proquest.com |
| SuperUrl.PqOrigsiteNotRemoved | src/index.js:15-42 | `pq-origsite` is not removed for proquest.com |
| SuperUrl.PqOrigsiteKept | src/index.js:105-115 | `?cbl=…&pq-origsite=…` on www.proquest.com is kept whole |
| SuperUrl.RulesRewriteStable | src/index.js:3-9 | no rewrite target is itself rewritten |
| SuperUrl.DefaultSanitizeIdempotent | src/index.js:74-118 | with the default options, sanitising a sanitised URL changes nothing, provided the domain parser still accepts its hostname |
| SuperUrl.NotIdempotentWithHttpOnly | src/index.js:81-103 | with only `http:` allowed, `http://google.com` is upgraded to `https:`, and sanitising that fails with the protocol error |
| SuperUrlLegacy.EnsureUrl | src/index.ts:50-64 | a parsable string is parsed; otherwise the `http://` retry happens only when `getDomain` finds a domain; failure, with "Invalid URL", exactly when neither path gives a URL; a URL object is used as is |
| SuperUrlLegacy.SanitizeResult | src/index.ts:66-110 | a coercion error passes through; a string comes back exactly when the coerced URL has an allowed protocol and a valid domain |
| SuperUrlLegacy.SanitizeUrl | src/index.ts:66-110 | returns what the pipeline with this file's tables gives, judged before the call; a URL object passed in ends up holding the sanitised attributes, or is unchanged on an error |
| SuperUrlLegacy.SanitizeUrlAccepts | src/index.ts:71-82 | a coercion error passes through; then the protocol error, then the domain error; a string comes back exactly when both checks pass |
| SuperUrlLegacy.InfoOf | src/index.ts:115-132 | fails exactly when the sanitised string does not parse again; otherwise `group` is empty, `handle` and `providerId` are null, and hostname, domain and subdomain come from the reparse |
| SuperUrlLegacy.UrlInfoResult | src/index.ts:112-133 | a sanitising error passes through; success exactly when the sanitised string parses again, and then `url` is that string and `originalUrl` the input |
| SuperUrlLegacy.UrlInfo | src/index.ts:112-133 | returns `UrlInfoResult` of the input, judged in the state before the call; a URL object passed in ends up holding the sanitised attributes under the default options, or is unchanged on an error |
| SuperUrlLegacy.UrlInfoOfSanitized | src/index.ts:113-115 | `urlInfo` fails exactly when `sanitizeUrl` fails or its output does not parse again; its `url` is that output and `originalUrl` is the input |
| SuperUrlLegacy.SharedTables | src/index.ts:7-19 | the rewrite table, secure domains, language names and domain keys are those of `src/index.js` |
| SuperUrlLegacy.TrackingListsDiffer | src/index.ts:20-43 | the newer tracking list is this one with `utm_name` added after `utm_source` and `si`, `nd` added at the end |
| SuperUrlLegacy.DomainListsDiffer | src/index.ts:44-48 | the newer TikTok list adds `_s`; the Instagram and Twitter lists are the same |
| SuperUrlLegacy.GlobalNamesDiffer | src/index.ts:98 | the newer global names are this version's plus `utm_name`, `si`, `nd` |
| SuperUrlLegacy.DomainNamesDiffer | src/index.ts:103-107 | the newer per-host names are this version's, plus `_s` on tiktok.com |
| SuperUrlLegacy.RemovedNamesDiffer | src/index.ts:98-107 | for every clean hostname the newer version removes exactly this one's names plus `utm_name`, `si`, `nd`, and `_s` on tiktok.com |
| SuperUrlLegacy.SameOutcomeAsJs | src/index.ts:73-95 | both versions succeed or fail together with the same error, and agree on everything but the query list |
| SuperUrlLegacy.JsQueryFiltersFurther | src/index.ts:98-107 | the newer query list is this version's with `utm_name`, `si`, `nd` (and `_s` on tiktok.com) further removed |
| SuperUrlLegacy.CoercionAgainstJs | src/index.ts:50-64 | what this version accepts, the newer one accepts with the same URL; the only strings accepted by one alone parse only with `http://` and have no registrable domain |
| SuperUrlLegacy.ExampleComUpgraded | src/index.ts:93-95 | `http://example.com` comes out as `https:` |
| SuperUrlLegacy.UtmNameListed | src/index.ts:20-43 | `utm_name` is removed by the newer version only |
| SuperUrlLegacy.UtmNameOnlyRemovedByJs | src/index.ts:98-100 | `?utm_name=x` on google.com is kept here and removed by the newer version |

## Left out

- URL parsing and serialisation (`URL.canParse`, `new URL`, `toString`, percent-encoding, the dropped empty `?`) are a parameter `UrlParser`, so no string-level round trip through the real parser is stated.
- The whole-record lemmas (for example idempotence) are about the parsed record, not about the string a second parse would give.
- The `tldts` public-suffix parser (`parse`, and `getDomain`, which is its `domain` field) is a parameter `tld`. Variations in what a particular version of the public-suffix list says are therefore not modelled.
- Assigning `hostname` or `protocol` on a real URL object re-runs the URL parser's setter. The one effect that matters here is modelled: switching to `https:` clears a port of `443`. Other normalisation by the setters (case, percent-encoding, IDNA) is not modelled; the model stores the assigned string as it is, and the rewrite targets and `https:` are already in that form.
- JavaScript lookups such as `hostnameRewrites[h]` and `clean in domainParams` also see `Object.prototype` names such as `constructor`. The model's maps hold only the listed keys. Such a name would have to be a valid ICANN domain to get that far.
- `{ allowedProtocols: undefined }` passed explicitly replaces the default with `undefined` in the source, and the source then throws a TypeError. `Options(None)` instead means the option is absent.
- Error message texts are abstracted to the four `Error` constructors.
- The `new URL(sanitized)` inside `urlInfo` throws a `TypeError`, modelled as `InvalidUrl`.
- `getYouTubeVideoId` is imported by a test but defined in no source file.
- Behaviour described for the library but absent from the code is not modelled: `removeHash` and fragment stripping, a subdomain as handle, YouTube `/c/`, `/user/` and `/channel/` paths, Flickr, Reddit, Snapchat and PayPal rules, and a forbidden-handle list.
- SuperUrlLegacy.EnsureUrl: a value that is neither a string nor a URL object is refused at coercion with `NotAUrl`. The source returns it unchecked. The later protocol check then throws on it, unless the value happens to carry URL-like `protocol` and `hostname` properties, which the model does not represent.
- Module-export plumbing and the HSTS TODO comment carry no behaviour.

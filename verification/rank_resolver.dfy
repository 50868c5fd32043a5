/**
 * The rank resolver of `fetch-keyword-ranking`: it normalises a website URL
 * to a target domain, scans the organic search results in order for the
 * first one whose domain matches (bidirectional substring containment), and
 * records the ranking in the tracking history, for one tracking (manual
 * call) or for every active tracking (scheduled call).
 *
 * The search provider is an injected function from the request to its
 * response; `new URL(...).hostname` is the simplified parser `Hostname`.
 */
module RankResolver {
  import opened Common
  import opened Text

  /** One organic search result: its 1-based position and its link. */
  datatype OrganicResult = OrganicResult(position: int, link: string)

  /** What the search provider answers: HTTP status and the parsed body. */
  datatype SerpResponse = SerpResponse(
    ok: bool,
    status: int,
    organicResults: Option<seq<OrganicResult>>,
    totalResults: Option<int>)

  /** The query sent to the provider (the API key is left out). */
  datatype SearchRequest = SearchRequest(q: string, location: string, hl: string, gl: string, num: nat)

  /** The resolved ranking and search volume; both nullable. */
  datatype RankResult = RankResult(ranking: Option<int>, searchVolume: Option<int>)

  /** `fetchRankingForKeyword` either resolves or throws with the provider status. */
  datatype FetchOutcome = Ranked(result: RankResult) | UpstreamError(status: int)

  /** The search for `keyword`: Google, Taiwan, zh-TW, Taiwanese results, top 100 results. */
  function SearchFor(keyword: string): (r: SearchRequest)
    ensures r.q == keyword && r.num == 100
    ensures r.location == "Taiwan" && r.hl == "zh-TW" && r.gl == "tw"
  {
    SearchRequest(keyword, "Taiwan", "zh-TW", "tw", 100)
  }

  // ---------------------------------------------------------------------
  // `new URL(u).hostname`
  // ---------------------------------------------------------------------

  /** ASCII lower-casing of one character, as the URL parser applies it to schemes and domains. */
  function LowerChar(c: char): (r: char)
    ensures !('A' <= r <= 'Z')
    ensures 'A' <= c <= 'Z' ==> r as int == c as int + 32
    ensures !('A' <= c <= 'Z') ==> r == c
  {
    if 'A' <= c <= 'Z' then (c as int + 32) as char else c
  }

  function Lower(s: string): (r: string)
    ensures |r| == |s|
    ensures forall k :: 0 <= k < |s| ==> r[k] == LowerChar(s[k])
  {
    if s == [] then [] else [LowerChar(s[0])] + Lower(s[1..])
  }

  /** Lower-casing introduces no character but lower-case letters. */
  lemma LowerKeeps(s: string)
    ensures forall c :: c in Lower(s) ==> c in s || 'a' <= c <= 'z'
  {
    forall c | c in Lower(s) ensures c in s || 'a' <= c <= 'z' {
      var k :| 0 <= k < |s| && Lower(s)[k] == c;
      assert s[k] in s;
    }
  }

  /** A string without upper-case letters is its own lower case. */
  lemma LowerIdem(s: string)
    requires forall k :: 0 <= k < |s| ==> !('A' <= s[k] <= 'Z')
    ensures Lower(s) == s
  {
  }

  /** The longest prefix of `s` that holds none of the characters in `stops`. */
  function TakeUntil(s: string, stops: set<char>): (r: string)
    ensures |r| <= |s|
    ensures forall c :: c in r ==> c !in stops
  {
    if s == [] || s[0] in stops then "" else [s[0]] + TakeUntil(s[1..], stops)
  }

  /** The part of `s` after its last `c`, or all of `s` when there is none. */
  function AfterLast(s: string, c: char): (r: string)
    ensures c !in r
    ensures |r| <= |s|
    ensures c !in s ==> r == s
  {
    if s == [] || s[|s| - 1] == c then ""
    else AfterLast(s[..|s| - 1], c) + [s[|s| - 1]]
  }

  predicate SchemeChar(c: char) {
    'a' <= c <= 'z' || 'A' <= c <= 'Z' || '0' <= c <= '9' || c == '+' || c == '-' || c == '.'
  }

  /** The longest prefix of `s` made of scheme characters. */
  function SchemePrefix(s: string): (r: string)
    ensures |r| <= |s|
    ensures forall k :: 0 <= k < |r| ==> SchemeChar(r[k])
    ensures |r| < |s| ==> !SchemeChar(s[|r|])
  {
    if s != [] && SchemeChar(s[0]) then [s[0]] + SchemePrefix(s[1..]) else ""
  }

  /** A scheme starts with an ASCII letter and goes on with letters, digits, `+`, `-` and `.`. */
  predicate ValidScheme(s: string) {
    |s| > 0 && ('a' <= s[0] <= 'z' || 'A' <= s[0] <= 'Z') && forall k :: 0 <= k < |s| ==> SchemeChar(s[k])
  }

  /** A run of scheme characters followed by a colon is read whole. */
  lemma {:induction false} SchemePrefixOf(scheme: string, rest: string)
    requires forall k :: 0 <= k < |scheme| ==> SchemeChar(scheme[k])
    ensures SchemePrefix(scheme + ":" + rest) == scheme
  {
    var s := scheme + ":" + rest;
    if scheme == [] {
      assert s[0] == ':';
    } else {
      assert s[0] == scheme[0];
      assert s[1..] == scheme[1..] + ":" + rest;
      SchemePrefixOf(scheme[1..], rest);
    }
  }

  /** The special schemes whose URLs must carry a domain (`file` is handled on its own). */
  predicate IsSpecial(scheme: string) {
    scheme in {"http", "https", "ws", "wss", "ftp"}
  }

  predicate IsSlash(c: char) {
    c == '/' || c == '\\'
  }

  /** The characters no host may hold. */
  predicate ForbiddenHostChar(c: char) {
    c in {'\0', '\t', '\n', '\r', ' ', '#', '/', ':', '<', '>', '?', '@', '[', '\\', ']', '^', '|'}
  }

  /** The characters no domain may hold: the host ones, the C0 controls, `%` and DEL. */
  predicate ForbiddenDomainChar(c: char) {
    ForbiddenHostChar(c) || c < ' ' || c == '%' || c as int == 127
  }

  /** The leading slashes and backslashes a special URL's authority skips. */
  function SkipSlashes(s: string): (r: string)
    ensures |r| <= |s|
    ensures r == [] || !IsSlash(r[0])
  {
    if s != [] && IsSlash(s[0]) then SkipSlashes(s[1..]) else s
  }

  /** No character of `s` is forbidden in a domain (when `domain`) or in an opaque host. */
  predicate AllowedHost(s: string, domain: bool) {
    s == [] || (!(if domain then ForbiddenDomainChar(s[0]) else ForbiddenHostChar(s[0])) && AllowedHost(s[1..], domain))
  }

  /** `AllowedHost` checks every character; a domain's characters are allowed in any host. */
  lemma {:induction false} AllowedHostChars(s: string, domain: bool)
    ensures AllowedHost(s, domain) <==>
      forall c :: c in s ==> !(if domain then ForbiddenDomainChar(c) else ForbiddenHostChar(c))
  {
    if s != [] {
      AllowedHostChars(s[1..], domain);
      assert forall c :: c in s <==> c == s[0] || c in s[1..];
    }
  }

  /** A port: digits only, at most 65535; an empty port is the default one. */
  predicate PortOk(p: string) {
    PortFrom(p, 0)
  }

  /** The rest `p` of a port whose digits so far are worth `acc`. */
  predicate PortFrom(p: string, acc: nat) {
    p == [] ||
      (IsDigit(p[0]) && acc * 10 + (p[0] as int - '0' as int) <= 65535
       && PortFrom(p[1..], acc * 10 + (p[0] as int - '0' as int)))
  }

  /**
   * The host of an authority (`userinfo@host:port`): the userinfo runs up to
   * the last `@`, the port starts at the first `:` after it. Userinfo with
   * no host after it, an empty host before a port, a bad port, an empty
   * host in a special URL and a forbidden character all make the parse
   * fail; a domain is lower-cased, an opaque host is kept as written.
   */
  function AuthorityHost(authority: string, special: bool): Option<string> {
    var hostPort := AfterLast(authority, '@');
    var host := TakeUntil(hostPort, {':'});
    var port := if |host| < |hostPort| then hostPort[|host| + 1..] else "";
    if '@' in authority && hostPort == "" then None
    else if host == "" && (special || |host| < |hostPort|) then None
    else if !PortOk(port) then None
    else if !AllowedHost(host, special) then None
    else if special then Some(Lower(host))
    else Some(host)
  }

  /**
   * The host of a `file:` URL: only after two slashes; a Windows drive
   * letter or `localhost` leave it empty.
   */
  function FileHost(rest: string): Option<string> {
    if |rest| >= 2 && IsSlash(rest[0]) && IsSlash(rest[1]) then
      var host := TakeUntil(rest[2..], {'/', '\\', '?', '#'});
      if host == "" then Some("")
      else if |host| == 2 && ('a' <= host[0] <= 'z' || 'A' <= host[0] <= 'Z') && (host[1] == ':' || host[1] == '|') then Some("")
      else if !AllowedHost(host, true) then None
      else if Lower(host) == "localhost" then Some("")
      else Some(Lower(host))
    else Some("")
  }

  /**
   * `new URL(u).hostname`; None when the constructor throws. The scheme is
   * everything before the first `:`. A special scheme skips any slashes and
   * reads its authority up to `/`, `\`, `?` or `#`; another scheme has an
   * authority only after `//` (ended by `/`, `?` or `#`) and an empty
   * hostname otherwise.
   */
  function Hostname(u: string): Option<string> {
    var scheme := SchemePrefix(u);
    if scheme != [] && ('a' <= scheme[0] <= 'z' || 'A' <= scheme[0] <= 'Z') && |scheme| < |u| && u[|scheme|] == ':'
    then HostAfterScheme(Lower(scheme), u[|scheme| + 1..])
    else None
  }

  /** The hostname once the (lower-cased) scheme and its colon are read. */
  function HostAfterScheme(scheme: string, rest: string): Option<string> {
    if scheme == "file" then FileHost(rest)
    else if IsSpecial(scheme) || "//" <= rest then AuthorityHost(AuthorityOf(IsSpecial(scheme), rest), IsSpecial(scheme))
    else Some("")
  }

  /**
   * The authority after the scheme's colon: past any slashes and up to `/`,
   * `\`, `?` or `#` for a special scheme; past `//` and up to `/`, `?` or
   * `#` otherwise.
   */
  function AuthorityOf(special: bool, rest: string): string
    requires special || "//" <= rest
  {
    if special then TakeUntil(SkipSlashes(rest), {'/', '\\', '?', '#'}) else TakeUntil(rest[2..], {'/', '?', '#'})
  }

  /** The scheme is everything before the first colon. */
  lemma HostnameSplit(u: string, scheme: string, rest: string)
    requires ValidScheme(scheme)
    requires u == scheme + ":" + rest
    ensures Hostname(u) == HostAfterScheme(Lower(scheme), rest)
  {
    SchemePrefixOf(scheme, rest);
    assert u[|scheme|] == ':' && u[|scheme| + 1..] == rest;
  }

  /** A host an authority yields holds no forbidden character. */
  lemma AuthorityHostAllowed(authority: string, special: bool)
    ensures AuthorityHost(authority, special).Some? ==>
      forall c :: c in AuthorityHost(authority, special).value ==> !ForbiddenHostChar(c)
  {
    var host := TakeUntil(AfterLast(authority, '@'), {':'});
    AllowedHostChars(host, special);
    LowerKeeps(host);
  }

  /** Nor does the host of a `file:` URL. */
  lemma FileHostAllowed(rest: string)
    ensures FileHost(rest).Some? ==> forall c :: c in FileHost(rest).value ==> !ForbiddenHostChar(c)
  {
    if |rest| >= 2 {
      var host := TakeUntil(rest[2..], {'/', '\\', '?', '#'});
      AllowedHostChars(host, true);
      LowerKeeps(host);
    }
  }

  /** A hostname, lower-cased or opaque, never holds a character forbidden in hosts. */
  lemma HostnameAllowed(u: string)
    ensures Hostname(u).Some? ==> forall c :: c in Hostname(u).value ==> !ForbiddenHostChar(c)
  {
    var scheme := SchemePrefix(u);
    if |scheme| < |u| {
      var rest := u[|scheme| + 1..];
      var special := IsSpecial(Lower(scheme));
      FileHostAllowed(rest);
      if special || "//" <= rest {
        AuthorityHostAllowed(AuthorityOf(special, rest), special);
      }
    }
  }

  // ---------------------------------------------------------------------
  // Domain normalisation and matching
  // ---------------------------------------------------------------------

  /** `hostname.replace('www.', '')`: the FIRST occurrence of `www.` goes, wherever it is. */
  function DropWww(host: string): string {
    ReplaceFirst(host, "www.", "")
  }

  /** `websiteUrl.replace(/^(https?:\/\/)?(www\.)?/, '').split('/')[0]`. */
  function FallbackDomain(websiteUrl: string): (r: string)
    ensures '/' !in r
  {
    var noScheme :=
      if "https://" <= websiteUrl then websiteUrl[8..]
      else if "http://" <= websiteUrl then websiteUrl[7..]
      else websiteUrl;
    var noWww := if "www." <= noScheme then noScheme[4..] else noScheme;
    Split(noWww, '/')[0]
  }

  /**
   * The target domain of a website URL: `https://` is prepended unless the
   * URL already starts with `http`; the parsed host loses its first `www.`;
   * when parsing throws, the regular-expression fallback is used.
   */
  function TargetDomain(websiteUrl: string): string {
    if "http" <= websiteUrl then TargetOf(websiteUrl, Hostname(websiteUrl))
    else TargetOf(websiteUrl, Hostname("https://" + websiteUrl))
  }

  /** The target domain once the candidate URL is parsed (None: the constructor threw). */
  function TargetOf(websiteUrl: string, parsed: Option<string>): string {
    match parsed
    case Some(h) => DropWww(h)
    case None => FallbackDomain(websiteUrl)
  }

  /** The domain of a result link, or None when `new URL(link)` throws. */
  function ResultDomain(link: string): Option<string> {
    match Hostname(link)
    case Some(h) => Some(DropWww(h))
    case None => None
  }

  /** `a.includes(b) || b.includes(a)`: a lenient match that accepts subdomains. */
  predicate DomainMatch(a: string, b: string) {
    Contains(a, b) || Contains(b, a)
  }

  /** The match does not depend on the order of its arguments. */
  lemma DomainMatchSymmetric(a: string, b: string)
    ensures DomainMatch(a, b) <==> DomainMatch(b, a)
  {
  }

  /** A subdomain of the target matches it, and so does the target itself. */
  lemma {:induction false} SubdomainMatches(sub: string, target: string)
    ensures DomainMatch(sub + target, target)
    ensures DomainMatch(target, target)
  {
    ContainsSuffix(sub, target);
    ContainsSuffix("", target);
    assert "" + target == target;
  }

  /** An empty domain matches every domain, in either position. */
  lemma EmptyTargetMatchesAll(d: string)
    ensures DomainMatch(d, "") && DomainMatch("", d)
  {
    assert OccursAt(d, "", 0);
    ContainsIff(d, "");
  }

  // ---------------------------------------------------------------------
  // What the parser and the normalisation give on ordinary inputs
  // ---------------------------------------------------------------------

  /** The characters of a plain lower-case host name. */
  predicate PlainChar(c: char) {
    'a' <= c <= 'z' || '0' <= c <= '9' || c == '-' || c == '.'
  }

  predicate PlainChars(s: string) {
    forall k :: 0 <= k < |s| ==> PlainChar(s[k])
  }

  /**
   * A plain lower-case host name such as `example.com`. The model's parser
   * has no IPv4 step, so a host whose last label is numeric (`1.2.3`) is
   * plain here, while a URL parser would rewrite it as an IPv4 address.
   */
  predicate Plain(d: string) {
    |d| > 0 && PlainChars(d)
  }

  /** `TakeUntil` stops exactly at the end of a prefix free of stop characters when a stop or the end follows. */
  lemma {:induction false} TakeUntilPrefix(p: string, rest: string, stops: set<char>)
    requires forall c :: c in p ==> c !in stops
    requires rest == [] || rest[0] in stops
    ensures TakeUntil(p + rest, stops) == p
  {
    if p != [] {
      assert p[0] in p;
      assert (p + rest)[1..] == p[1..] + rest;
      forall c | c in p[1..] ensures c !in stops {
        assert c in p;
      }
      TakeUntilPrefix(p[1..], rest, stops);
    } else {
      assert p + rest == rest;
    }
  }

  /** Two leading slashes are skipped, and nothing after them when it does not start with one. */
  lemma SkipTwoSlashes(t: string)
    requires t == [] || !IsSlash(t[0])
    ensures SkipSlashes("//" + t) == t
  {
    assert SkipSlashes(t) == t;
    assert ("/" + t)[0] == '/' && ("/" + t)[1..] == t;
    assert SkipSlashes("/" + t) == t;
    assert ("//" + t)[0] == '/' && ("//" + t)[1..] == "/" + t;
  }

  /** Userinfo is everything up to the last `@`: what follows it is kept whole. */
  lemma {:induction false} AfterLastSep(p: string, c: char, t: string)
    requires c !in t
    ensures AfterLast(p + [c] + t, c) == t
  {
    if t == [] {
      var s := p + [c];
      assert s[|s| - 1] == c;
    } else {
      var init, x := t[..|t| - 1], t[|t| - 1];
      assert t == init + [x];
      assert x in t;
      assert p + [c] + t == (p + [c] + init) + [x];
      AfterLastSnoc(p + [c] + init, x, c);
      assert forall y :: y in init ==> y in t;
      AfterLastSep(p, c, init);
    }
  }

  /** Appending a character other than `c` appends it to what follows the last `c`. */
  lemma AfterLastSnoc(q: string, x: char, c: char)
    requires x != c
    ensures AfterLast(q + [x], c) == AfterLast(q, c) + [x]
  {
    assert (q + [x])[..|q|] == q;
  }

  /** A plain host's characters are neither upper-case nor forbidden, and hold no `@`, `:` or stop. */
  lemma PlainCharsFacts(h: string)
    requires PlainChars(h)
    ensures forall c :: c in h ==> PlainChar(c)
    ensures Lower(h) == h
    ensures AllowedHost(h, true)
  {
    forall c | c in h ensures PlainChar(c) {
      var k :| 0 <= k < |h| && h[k] == c;
    }
    LowerIdem(h);
    AllowedHostChars(h, true);
  }

  /** The authority of a special URL with a plain host, with or without userinfo, yields that host. */
  lemma AuthorityOfPlain(user: string, h: string)
    requires Plain(h)
    ensures AuthorityHost(h, true) == Some(h)
    ensures AuthorityHost(user + "@" + h, true) == Some(h)
  {
    PlainCharsFacts(h);
    assert '@' !in h;
    assert AfterLast(h, '@') == h;
    AuthorityOfHostPort(h, h);
    assert user + "@" + h == user + ['@'] + h;
    AfterLastSep(user, '@', h);
    AuthorityOfHostPort(user + "@" + h, h);
  }

  /** An authority whose part after the last `@` is a plain host yields that host. */
  lemma AuthorityOfHostPort(authority: string, h: string)
    requires Plain(h) && AfterLast(authority, '@') == h
    ensures AuthorityHost(authority, true) == Some(h)
  {
    PlainCharsFacts(h);
    assert h + "" == h;
    TakeUntilPrefix(h, "", {':'});
    assert PortOk("");
  }

  /** After a special scheme and two slashes, the authority runs up to the first `/`, `\\`, `?` or `#`. */
  lemma SpecialAuthorityAfterScheme(scheme: string, authority: string, rest: string)
    requires scheme == "http" || scheme == "https"
    requires authority != [] && !IsSlash(authority[0])
    requires forall c :: c in authority ==> c !in {'/', '\\', '?', '#'}
    requires rest == [] || rest[0] in {'/', '?', '#'}
    ensures HostAfterScheme(scheme, "//" + (authority + rest)) == AuthorityHost(authority, true)
  {
    SkipTwoSlashes(authority + rest);
    TakeUntilPrefix(authority, rest, {'/', '\\', '?', '#'});
  }

  /** `http` and `https` are read as they are written. */
  lemma HostnameOfHttp(u: string, scheme: string, x: string)
    requires scheme == "http" || scheme == "https"
    requires u == scheme + ":" + x
    ensures Hostname(u) == HostAfterScheme(scheme, x)
  {
    assert ValidScheme(scheme);
    LowerIdem(scheme);
    HostnameSplit(u, scheme, x);
  }

  /**
   * After `http:` or `https:` and two slashes, the authority runs up to the
   * first `/`, `\\`, `?` or `#`.
   */
  lemma SpecialAuthority(u: string, scheme: string, authority: string, rest: string)
    requires scheme == "http" || scheme == "https"
    requires authority != [] && !IsSlash(authority[0])
    requires forall c :: c in authority ==> c !in {'/', '\\', '?', '#'}
    requires rest == [] || rest[0] in {'/', '?', '#'}
    requires u == scheme + "://" + authority + rest
    ensures Hostname(u) == AuthorityHost(authority, true)
  {
    assert u == scheme + ":" + ("//" + (authority + rest));
    HostnameOfHttp(u, scheme, "//" + (authority + rest));
    SpecialAuthorityAfterScheme(scheme, authority, rest);
  }

  /**
   * `new URL("http://h/...")` and `new URL("https://h?...")` give `h` for a
   * plain host `h`, whatever path, query or fragment follows.
   */
  lemma HostnameOfPlain(scheme: string, h: string, rest: string)
    requires scheme == "http" || scheme == "https"
    requires Plain(h)
    requires rest == [] || rest[0] in {'/', '?', '#'}
    ensures Hostname(scheme + "://" + h + rest) == Some(h)
  {
    HostnameOfPlainAt(scheme + "://" + h + rest, scheme, h, rest);
  }

  /** `HostnameOfPlain` for a URL given whole. */
  lemma HostnameOfPlainAt(u: string, scheme: string, h: string, rest: string)
    requires scheme == "http" || scheme == "https"
    requires Plain(h)
    requires rest == [] || rest[0] in {'/', '?', '#'}
    requires u == scheme + "://" + h + rest
    ensures Hostname(u) == Some(h)
  {
    PlainCharsFacts(h);
    assert h[0] in h;
    SpecialAuthority(u, scheme, h, rest);
    AuthorityOfPlain("", h);
  }

  /** An authority `user@h` starts with no slash and holds no stop character. */
  lemma UserAuthorityShape(user: string, h: string)
    requires Plain(h)
    requires forall c :: c in user ==> c !in {'/', '\\', '?', '#'}
    ensures var authority := user + "@" + h;
      authority != [] && !IsSlash(authority[0])
      && forall c :: c in authority ==> c !in {'/', '\\', '?', '#'}
  {
    PlainCharsFacts(h);
    var authority := user + "@" + h;
    assert user != [] ==> user[0] in user;
    assert authority[0] == if user == [] then '@' else user[0];
    forall c | c in authority ensures c !in {'/', '\\', '?', '#'} {
      assert c in user || c == '@' || c in h;
    }
  }

  /** The same, for a URL given whole. */
  lemma UserInfoDroppedAt(u: string, scheme: string, user: string, h: string, rest: string)
    requires scheme == "http" || scheme == "https"
    requires Plain(h)
    requires forall c :: c in user ==> c !in {'/', '\\', '?', '#'}
    requires rest == [] || rest[0] in {'/', '?', '#'}
    requires u == scheme + "://" + (user + "@" + h) + rest
    ensures Hostname(u) == Some(h)
  {
    UserAuthorityShape(user, h);
    SpecialAuthority(u, scheme, user + "@" + h, rest);
    AuthorityOfPlain(user, h);
  }

  /** `new URL("https://user:pass@h/...").hostname` is `h`: the userinfo is not part of the host. */
  lemma UserInfoDropped(scheme: string, user: string, h: string, rest: string)
    requires scheme == "http" || scheme == "https"
    requires Plain(h)
    requires forall c :: c in user ==> c !in {'/', '\\', '?', '#'}
    requires rest == [] || rest[0] in {'/', '?', '#'}
    ensures Hostname(scheme + "://" + user + "@" + h + rest) == Some(h)
  {
    var u := scheme + "://" + user + "@" + h + rest;
    assert u == scheme + "://" + (user + "@" + h) + rest;
    UserInfoDroppedAt(u, scheme, user, h, rest);
  }

  /**
   * A URL whose scheme is neither special nor `file` and that has no `//`
   * after the colon (`mailto:`, `tel:`, `javascript:`) parses, with an
   * empty hostname.
   */
  lemma OpaqueUrlHasEmptyHost(scheme: string, rest: string)
    requires ValidScheme(scheme)
    requires !IsSpecial(Lower(scheme)) && Lower(scheme) != "file"
    requires !("//" <= rest)
    ensures Hostname(scheme + ":" + rest) == Some("")
  {
    HostnameSplit(scheme + ":" + rest, scheme, rest);
  }

  /** `new URL("file:///path").hostname` is empty. */
  lemma FileUrlHasEmptyHost(path: string)
    ensures Hostname("file:///" + path) == Some("")
  {
    var scheme := "file";
    assert ValidScheme(scheme);
    LowerIdem(scheme);
    assert "file:///" + path == scheme + ":" + ("///" + path);
    HostnameSplit("file:///" + path, scheme, "///" + path);
    TripleSlashFileHost(path);
  }

  /** After `///` the file host is empty. */
  lemma TripleSlashFileHost(path: string)
    ensures FileHost("///" + path) == Some("")
  {
    assert ("///" + path)[2..] == "/" + path;
    assert TakeUntil("/" + path, {'/', '\\', '?', '#'}) == "";
  }

  /** The domain of a link whose URL parses to `h`. */
  lemma ResultDomainAt(link: string, h: string)
    requires Hostname(link) == Some(h)
    ensures ResultDomain(link) == Some(DropWww(h))
  {
  }

  /** The target domain of a URL that starts with `http` and parses to `h`. */
  lemma TargetOfHttpAt(w: string, h: string)
    requires "http" <= w && Hostname(w) == Some(h)
    ensures TargetDomain(w) == DropWww(h)
  {
  }

  /** The target domain of a URL without `http` in front whose `https://` form parses to `h`. */
  lemma TargetOfBareAt(w: string, h: string)
    requires !("http" <= w) && Hostname("https://" + w) == Some(h)
    ensures TargetDomain(w) == DropWww(h)
  {
  }

  /** The target domain of a URL that starts with `http` and does not parse: the fallback. */
  lemma TargetFallbackAt(w: string)
    requires "http" <= w && Hostname(w) == None
    ensures TargetDomain(w) == FallbackDomain(w)
  {
  }

  /** Without `www.` in it, a host is its own domain. */
  lemma DropWwwAbsent(h: string)
    requires !Contains(h, "www.")
    ensures DropWww(h) == h
  {
  }

  /** A leading `www.` is the one dropped. */
  lemma DropWwwFront(d: string)
    ensures DropWww("www." + d) == d
  {
    ReplaceFirstAtStart("www." + d, "www.", "");
    assert ("www." + d)[4..] == d;
  }

  /** With no `www.` before it, the `www.` between `p` and `q` is the one dropped. */
  lemma DropWwwMid(p: string, q: string)
    requires !Contains(p, "www.")
    ensures DropWww(p + "www." + q) == p + q
  {
    var s := p + "www." + q;
    FirstWwwAfter(p, q);
    assert s[..|p|] == p && s[|p| + 4..] == q;
    assert p + "" + q == p + q;
  }

  /** The `mailto:` form of `OpaqueUrlHasEmptyHost`. */
  lemma MailtoHasEmptyHost(address: string)
    requires !("//" <= address)
    ensures Hostname("mailto:" + address) == Some("")
  {
    var scheme := "mailto";
    assert ValidScheme(scheme);
    LowerIdem(scheme);
    assert "mailto:" + address == scheme + ":" + address;
    HostnameSplit("mailto:" + address, scheme, address);
  }

  /**
   * A `mailto:` link has an empty domain, and an empty domain matches every
   * target: such a result counts as the website's ranking.
   */
  lemma OpaqueLinkMatchesAnyTarget(address: string, target: string)
    requires !("//" <= address)
    ensures ResultDomain("mailto:" + address) == Some("")
    ensures DomainMatch("", target)
  {
    MailtoHasEmptyHost(address);
    ResultDomainAt("mailto:" + address, "");
    MissingCharNotContained("", "www.", 'w');
    DropWwwAbsent("");
    EmptyTargetMatchesAll(target);
  }

  /** A plain host that does not start with `http` is its own target domain. */
  lemma PlainHostIsOwnTarget(d: string)
    requires Plain(d) && !Contains(d, "www.")
    ensures !("http" <= d) ==> TargetDomain(d) == d
  {
    if !("http" <= d) {
      HostnameOfHttpsPlain(d);
      TargetOfBareAt(d, d);
      DropWwwAbsent(d);
    }
  }

  /** Written with `https://`, a plain host is its own target domain too. */
  lemma PlainUrlIsOwnTarget(d: string)
    requires Plain(d) && !Contains(d, "www.")
    ensures TargetDomain("https://" + d) == d
  {
    HostnameOfHttpsPlain(d);
    TargetOfHttpAt("https://" + d, d);
    DropWwwAbsent(d);
  }

  /** A plain host has no colon, so `new URL` throws on it. */
  lemma PlainHostDoesNotParse(d: string)
    requires Plain(d)
    ensures Hostname(d) == None
  {
    PlainCharsFacts(d);
    forall k | 0 <= k < |d| ensures d[k] != ':' {
      assert PlainChar(d[k]);
    }
  }

  /** The fallback keeps a plain host without `www.` whole. */
  lemma FallbackOfPlain(d: string)
    requires Plain(d) && !Contains(d, "www.")
    ensures FallbackDomain(d) == d
  {
    PlainCharsFacts(d);
    assert |d| <= 4 || PlainChar(d[4]);
    assert |d| <= 5 || PlainChar(d[5]);
    ContainsIff(d, "www.");
    assert !OccursAt(d, "www.", 0);
    SplitWithoutSep(d, '/');
  }

  /**
   * A plain host that starts with `http` has no colon, so `new URL` throws
   * and the fallback keeps it whole: it is its own target domain as well.
   */
  lemma HttpNamedHostIsOwnTarget(d: string)
    requires Plain(d) && !Contains(d, "www.") && "http" <= d
    ensures TargetDomain(d) == d
  {
    PlainHostDoesNotParse(d);
    TargetFallbackAt(d);
    FallbackOfPlain(d);
  }

  /** Plain host names stay plain when joined around `www.`. */
  lemma PlainAroundWww(p: string, q: string)
    requires PlainChars(p) && PlainChars(q)
    ensures Plain(p + "www." + q)
  {
    var s := p + "www." + q;
    forall k | 0 <= k < |s| ensures PlainChar(s[k]) {
      if k < |p| { assert s[k] == p[k]; }
      else if k >= |p| + 4 { assert s[k] == q[k - |p| - 4]; }
    }
  }

  /** `www.` followed by a plain host is a plain host. */
  lemma PlainWww(d: string)
    requires Plain(d)
    ensures Plain("www." + d)
  {
    PlainAroundWww("", d);
    assert "" + "www." + d == "www." + d;
  }

  /** The host of `https://` followed by a plain host. */
  lemma HostnameOfHttpsPlain(h: string)
    requires Plain(h)
    ensures Hostname("https://" + h) == Some(h)
  {
    assert "https://" + h == "https" + "://" + h + "";
    HostnameOfPlainAt("https://" + h, "https", h, "");
  }

  /** `www.` in front of a plain host is dropped. */
  lemma WwwPrefixIgnored(d: string)
    requires Plain(d) && !Contains(d, "www.")
    ensures TargetDomain("www." + d) == d
  {
    PlainWww(d);
    HostnameOfHttpsPlain("www." + d);
    TargetOfBareAt("www." + d, "www." + d);
    DropWwwFront(d);
  }

  /** So is `https://www.` in front of it. */
  lemma WwwUrlIgnored(d: string)
    requires Plain(d) && !Contains(d, "www.")
    ensures TargetDomain("https://www." + d) == d
  {
    var h := "www." + d;
    PlainWww(d);
    assert "https://www." + d == "https" + "://" + h + "";
    HostnameOfPlainAt("https://www." + d, "https", h, "");
    TargetOfHttpAt("https://www." + d, h);
    DropWwwFront(d);
  }

  /** The first `www.` of `p + "www." + q` is the one between them, when `p` has none of its own. */
  lemma FirstWwwAfter(p: string, q: string)
    requires !Contains(p, "www.")
    ensures IndexOf(p + "www." + q, "www.") == Some(|p|)
  {
    var s := p + "www." + q;
    ContainsIff(p, "www.");
    assert s[|p|..|p| + 4] == "www.";
    assert OccursAt(s, "www.", |p|);
    forall j: nat | j < |p| ensures !OccursAt(s, "www.", j) {
      if j + 4 <= |p| {
        assert s[j..j + 4] == p[j..j + 4];
        assert !OccursAt(p, "www.", j);
      } else {
        assert s[j + 3] == 'w';
        assert j + 4 <= |s| ==> s[j..j + 4][3] == s[j + 3];
      }
    }
  }

  /**
   * `replace('www.', '')` is not anchored: a `www.` inside the host name is
   * dropped as well, so `shop.www.a.com` targets `shop.a.com`.
   */
  lemma MidWwwDropped(p: string, q: string)
    requires PlainChars(p) && PlainChars(q)
    requires !Contains(p, "www.")
    requires !("http" <= p + "www." + q)
    ensures TargetDomain(p + "www." + q) == p + q
  {
    PlainAroundWww(p, q);
    HostnameOfHttpsPlain(p + "www." + q);
    TargetOfBareAt(p + "www." + q, p + "www." + q);
    DropWwwMid(p, q);
  }

  /** The domain of a link on the `www.` host of a plain domain is that domain. */
  lemma WwwLinkDomain(d: string, path: string)
    requires Plain(d)
    requires path == [] || path[0] in {'/', '?', '#'}
    ensures ResultDomain("https://www." + d + path) == Some(d)
  {
    var h := "www." + d;
    PlainWww(d);
    assert "https://www." + d + path == "https" + "://" + h + path;
    HostnameOfPlainAt("https://www." + d + path, "https", h, path);
    ResultDomainAt("https://www." + d + path, h);
    DropWwwFront(d);
  }

  /**
   * The matching rule's own example, `https://www.example.com/path` against
   * the website `example.com`: a result on the `www.` host of a plain
   * domain matches that domain, whatever its path.
   */
  lemma WwwResultMatchesWebsite(d: string, path: string)
    requires Plain(d) && !Contains(d, "www.") && !("http" <= d)
    requires path == [] || path[0] in {'/', '?', '#'}
    ensures ResultDomain("https://www." + d + path) == Some(d)
    ensures TargetDomain(d) == d
    ensures DomainMatch(ResultDomain("https://www." + d + path).value, TargetDomain(d))
  {
    PlainHostIsOwnTarget(d);
    WwwLinkDomain(d, path);
    SubdomainMatches("", d);
    assert "" + d == d;
  }

  // ---------------------------------------------------------------------
  // The scan over the organic results
  // ---------------------------------------------------------------------

  /** Result `i` parses and its domain matches the target. */
  predicate MatchesAt(results: seq<OrganicResult>, target: string, i: int)
    requires 0 <= i < |results|
  {
    var d := ResultDomain(results[i].link);
    d.Some? && DomainMatch(d.value, target)
  }

  /** The position of the first matching result, or null. */
  function FirstMatch(results: seq<OrganicResult>, target: string): Option<int> {
    if results == [] then None
    else if MatchesAt(results, target, 0) then Some(results[0].position)
    else FirstMatch(results[1..], target)
  }

  /**
   * `FirstMatch` is the position of the first result, in array order, whose
   * domain matches; later matches are ignored; with no match it is null.
   */
  lemma {:induction false} FirstMatchIsFirst(results: seq<OrganicResult>, target: string)
    ensures FirstMatch(results, target).None? <==>
      forall i :: 0 <= i < |results| ==> !MatchesAt(results, target, i)
    ensures FirstMatch(results, target).Some? ==>
      exists i :: 0 <= i < |results| && MatchesAt(results, target, i)
        && FirstMatch(results, target).value == results[i].position
        && forall j :: 0 <= j < i ==> !MatchesAt(results, target, j)
  {
    if results != [] && !MatchesAt(results, target, 0) {
      var tail := results[1..];
      FirstMatchIsFirst(tail, target);
      forall i | 1 <= i < |results|
        ensures MatchesAt(results, target, i) == MatchesAt(tail, target, i - 1)
      {
        assert results[i] == tail[i - 1];
      }
      if FirstMatch(tail, target).Some? {
        var i :| 0 <= i < |tail| && MatchesAt(tail, target, i)
          && FirstMatch(tail, target).value == tail[i].position
          && forall j :: 0 <= j < i ==> !MatchesAt(tail, target, j);
        assert MatchesAt(results, target, i + 1);
        assert forall j :: 0 <= j < i + 1 ==> !MatchesAt(results, target, j) by {
          forall j | 0 <= j < i + 1 ensures !MatchesAt(results, target, j) {
            if j > 0 {
              assert !MatchesAt(tail, target, j - 1);
            }
          }
        }
      } else {
        forall i | 0 <= i < |results| ensures !MatchesAt(results, target, i) {
          if i > 0 {
            assert !MatchesAt(tail, target, i - 1);
          }
        }
      }
    }
  }

  /**
   * A `mailto:` link ahead of the website's own result takes the ranking:
   * `new URL` does not throw on it and its empty hostname matches every target.
   */
  lemma OpaqueLinkRanksFirst(position: int, address: string, later: seq<OrganicResult>, target: string)
    requires !("//" <= address)
    ensures FirstMatch([OrganicResult(position, "mailto:" + address)] + later, target) == Some(position)
  {
    OpaqueLinkMatchesAnyTarget(address, target);
    var results := [OrganicResult(position, "mailto:" + address)] + later;
    assert results[0].link == "mailto:" + address;
    assert MatchesAt(results, target, 0);
  }

  /**
   * The `for ... break` loop of `fetchRankingForKeyword`: results whose link
   * does not parse are skipped, the first match sets the ranking and stops.
   */
  method ScanResults(results: seq<OrganicResult>, target: string) returns (ranking: Option<int>)
    ensures ranking == FirstMatch(results, target)
    ensures ranking.None? <==> forall i :: 0 <= i < |results| ==> !MatchesAt(results, target, i)
  {
    ranking := None;
    var i := 0;
    while i < |results|
      invariant 0 <= i <= |results|
      invariant FirstMatch(results, target) == FirstMatch(results[i..], target)
    {
      var matched := MatchesAt(results, target, i);
      FirstMatchFrom(results, target, i, matched);
      if matched {
        ranking := Some(results[i].position);
        FirstMatchIsFirst(results, target);
        return;
      }
      i := i + 1;
    }
    assert results[i..] == [];
    FirstMatchIsFirst(results, target);
  }

  /** Scanning from `i`: a match there is the answer, otherwise the scan goes on from `i + 1`. */
  lemma FirstMatchFrom(results: seq<OrganicResult>, target: string, i: int, matched: bool)
    requires 0 <= i < |results| && matched == MatchesAt(results, target, i)
    ensures FirstMatch(results[i..], target) == if matched then Some(results[i].position) else FirstMatch(results[i + 1..], target)
  {
    assert results[i..][0] == results[i];
    assert results[i..][1..] == results[i + 1..];
  }

  /** `search_information?.total_results || null`: absent or 0 gives null. */
  function SearchVolume(response: SerpResponse): (v: Option<int>)
    ensures v.None? <==> response.totalResults.None? || response.totalResults.value == 0
    ensures v.Some? ==> v == response.totalResults
  {
    match response.totalResults
    case Some(n) => if n != 0 then Some(n) else None
    case None => None
  }

  /** What `fetchRankingForKeyword` yields for a given provider response. */
  function FetchResult(response: SerpResponse, websiteUrl: string): FetchOutcome {
    if !response.ok then UpstreamError(response.status)
    else
      var results := response.organicResults.GetOr([]);
      Ranked(RankResult(FirstMatch(results, TargetDomain(websiteUrl)), SearchVolume(response)))
  }

  /**
   * `fetchRankingForKeyword`: one provider query; a non-ok response becomes
   * an error carrying the status, otherwise the first matching position and
   * the search volume.
   */
  method FetchRankingForKeyword(serp: SearchRequest -> SerpResponse, keyword: string, websiteUrl: string)
    returns (outcome: FetchOutcome)
    ensures outcome == FetchResult(serp(SearchFor(keyword)), websiteUrl)
    ensures outcome.UpstreamError? <==> !serp(SearchFor(keyword)).ok
    ensures outcome.UpstreamError? ==> outcome.status == serp(SearchFor(keyword)).status
  {
    var response := serp(SearchFor(keyword));
    if !response.ok {
      return UpstreamError(response.status);
    }
    var target := TargetDomain(websiteUrl);
    var ranking := None;
    if response.organicResults.Some? {
      ranking := ScanResults(response.organicResults.value, target);
    } else {
      assert FirstMatch([], target) == None;
    }
    outcome := Ranked(RankResult(ranking, SearchVolume(response)));
  }

  // ---------------------------------------------------------------------
  // The edge-function handler: manual and scheduled branches
  // ---------------------------------------------------------------------

  /** A row of `keyword_tracking`. */
  datatype Tracking = Tracking(id: Id, keyword: string, websiteUrl: string, isActive: bool)

  /** A row of `keyword_tracking_history`. */
  datatype TrackingHistoryRow = TrackingHistoryRow(trackingId: Id, ranking: Option<int>, searchVolume: Option<int>, checkedAt: nat)

  /** One entry of the scheduled run's `results`. */
  datatype TrackingResult = Resolved(trackingId: Id, result: RankResult) | Errored(trackingId: Id, status: int)

  /** The environment variables the handler reads. */
  datatype Env = Env(serpApiKey: Option<string>, supabaseUrl: Option<string>, serviceKey: Option<string>)

  /** The request body. */
  datatype FetchRequest = FetchRequest(trackingId: Option<Id>, keyword: string, websiteUrl: string, manual: bool)

  datatype Failure = MissingApiKey | MissingStoreConfig | Upstream(status: int) | InsertRejected | ReadRejected

  /** The handler's answer; every failure is a 400 response, and a preflight is an empty 200. */
  datatype HandlerResponse = ManualDone(result: RankResult) | ScheduledDone(results: seq<TrackingResult>) | Preflight | Failed(failure: Failure) {
    function Status(): int {
      if Failed? then 400 else 200
    }
  }

  /** A JavaScript string is truthy when it is present and non-empty. */
  predicate Present(s: Option<string>) {
    s.Some? && s.value != ""
  }

  /** The manual branch is taken when `manual && tracking_id`. */
  predicate IsManual(req: FetchRequest) {
    req.manual && Present(req.trackingId)
  }

  /** The trackings a scheduled call processes: `is_active = true`, in table order. */
  function ActiveTrackings(ts: seq<Tracking>): (r: seq<Tracking>)
    ensures forall t :: t in r <==> t in ts && t.isActive
  {
    if ts == [] then []
    else (if ts[0].isActive then [ts[0]] else []) + ActiveTrackings(ts[1..])
  }

  /** `fetchRankingForKeyword` applied to a tracking, as a function of the provider. */
  function Resolver(serp: SearchRequest -> SerpResponse): Tracking -> FetchOutcome {
    (t: Tracking) => FetchResult(serp(SearchFor(t.keyword)), t.websiteUrl)
  }

  /** The result entry the scheduled loop pushes for one tracking. */
  function EntryFor(t: Tracking, out: FetchOutcome): (e: TrackingResult)
    ensures e.trackingId == t.id
    ensures e.Resolved? <==> out.Ranked?
    ensures e.Resolved? ==> e.result == out.result
    ensures e.Errored? ==> e.status == out.status
  {
    match out
    case Ranked(r) => Resolved(t.id, r)
    case UpstreamError(s) => Errored(t.id, s)
  }

  /** The history rows one result entry leads to: none for an error or a refused insert. */
  function RowsFor(e: TrackingResult, insertOk: Id -> bool, now: nat): seq<TrackingHistoryRow> {
    match e
    case Resolved(id, res) =>
      if insertOk(id) then [TrackingHistoryRow(id, res.ranking, res.searchVolume, now)] else []
    case Errored(_, _) => []
  }

  /**
   * The history rows the scheduled loop writes, in order: one per tracking
   * whose fetch resolved and whose insert the store accepted (the insert's
   * error is not inspected by the loop).
   */
  function ScheduledRows(ts: seq<Tracking>, fetch: Tracking -> FetchOutcome, insertOk: Id -> bool, now: nat): seq<TrackingHistoryRow> {
    if ts == [] then []
    else
      var last := ts[|ts| - 1];
      ScheduledRows(ts[..|ts| - 1], fetch, insertOk, now) + RowsFor(EntryFor(last, fetch(last)), insertOk, now)
  }

  /** Processing one more tracking appends its rows. */
  lemma ScheduledRowsStep(ts: seq<Tracking>, i: int, fetch: Tracking -> FetchOutcome, insertOk: Id -> bool, now: nat)
    requires 0 <= i < |ts|
    ensures ScheduledRows(ts[..i + 1], fetch, insertOk, now)
         == ScheduledRows(ts[..i], fetch, insertOk, now) + RowsFor(EntryFor(ts[i], fetch(ts[i])), insertOk, now)
  {
    assert ts[..i + 1][..i] == ts[..i];
  }

  /** At most one row per tracking, and each row belongs to a tracking that was processed. */
  lemma {:induction false} ScheduledRowsBounded(ts: seq<Tracking>, fetch: Tracking -> FetchOutcome, insertOk: Id -> bool, now: nat)
    ensures |ScheduledRows(ts, fetch, insertOk, now)| <= |ts|
    ensures forall row :: row in ScheduledRows(ts, fetch, insertOk, now) ==>
      row.checkedAt == now && exists t :: t in ts && t.id == row.trackingId && fetch(t).Ranked? && insertOk(t.id)
  {
    if ts != [] {
      var init := ts[..|ts| - 1];
      var last := ts[|ts| - 1];
      ScheduledRowsBounded(init, fetch, insertOk, now);
      forall row | row in ScheduledRows(ts, fetch, insertOk, now)
        ensures exists t :: t in ts && t.id == row.trackingId && fetch(t).Ranked? && insertOk(t.id)
      {
        if row in ScheduledRows(init, fetch, insertOk, now) {
          var t :| t in init && t.id == row.trackingId && fetch(t).Ranked? && insertOk(t.id);
          assert t in ts;
        } else {
          assert last in ts;
        }
      }
    }
  }

  /** When every fetch resolves and every insert succeeds, there is one row per tracking, in order. */
  lemma {:induction false} ScheduledRowsComplete(ts: seq<Tracking>, fetch: Tracking -> FetchOutcome, insertOk: Id -> bool, now: nat)
    requires forall t :: t in ts ==> fetch(t).Ranked? && insertOk(t.id)
    ensures |ScheduledRows(ts, fetch, insertOk, now)| == |ts|
    ensures forall i :: 0 <= i < |ts| ==> ScheduledRows(ts, fetch, insertOk, now)[i].trackingId == ts[i].id
  {
    if ts != [] {
      var init := ts[..|ts| - 1];
      var last := ts[|ts| - 1];
      assert last in ts;
      ScheduledRowsComplete(init, fetch, insertOk, now);
    }
  }

  /** The store the edge function writes: trackings are read, history rows appended. */
  class TrackingStore {
    var trackings: seq<Tracking>
    var history: seq<TrackingHistoryRow>

    constructor (trackings: seq<Tracking>)
      ensures this.trackings == trackings && history == []
    {
      this.trackings := trackings;
      history := [];
    }

    /** Inserts one history row; the store may refuse it. */
    method InsertHistory(row: TrackingHistoryRow, accepted: bool) returns (ok: bool)
      modifies this
      ensures ok == accepted
      ensures trackings == old(trackings)
      ensures history == if accepted then old(history) + [row] else old(history)
    {
      ok := accepted;
      if accepted {
        history := history + [row];
      }
    }
  }

  /**
   * The manual branch: resolve one tracking and insert exactly one history
   * row for it; a provider error or an insert error is raised to the caller.
   */
  method HandleManual(store: TrackingStore, req: FetchRequest, serp: SearchRequest -> SerpResponse,
                      insertOk: Id -> bool, now: nat) returns (response: HandlerResponse)
    requires IsManual(req)
    modifies store
    ensures store.trackings == old(store.trackings)
    ensures var out := FetchResult(serp(SearchFor(req.keyword)), req.websiteUrl);
      && (out.UpstreamError? ==> response == Failed(Upstream(out.status)) && store.history == old(store.history))
      && (out.Ranked? && !insertOk(req.trackingId.value) ==>
            response == Failed(InsertRejected) && store.history == old(store.history))
      && (out.Ranked? && insertOk(req.trackingId.value) ==>
            response == ManualDone(out.result)
            && store.history == old(store.history)
               + [TrackingHistoryRow(req.trackingId.value, out.result.ranking, out.result.searchVolume, now)])
  {
    var out := FetchRankingForKeyword(serp, req.keyword, req.websiteUrl);
    if out.UpstreamError? {
      return Failed(Upstream(out.status));
    }
    var id := req.trackingId.value;
    var ok := store.InsertHistory(TrackingHistoryRow(id, out.result.ranking, out.result.searchVolume, now), insertOk(id));
    if !ok {
      return Failed(InsertRejected);
    }
    response := ManualDone(out.result);
  }

  /** One iteration of the scheduled loop: fetch, then insert the history row when the fetch resolved. */
  method ProcessTracking(store: TrackingStore, serp: SearchRequest -> SerpResponse, t: Tracking,
                         insertOk: Id -> bool, now: nat) returns (entry: TrackingResult)
    modifies store
    ensures entry == EntryFor(t, Resolver(serp)(t))
    ensures store.trackings == old(store.trackings)
    ensures store.history == old(store.history) + RowsFor(entry, insertOk, now)
  {
    var out := FetchRankingForKeyword(serp, t.keyword, t.websiteUrl);
    if out.Ranked? {
      var _ := store.InsertHistory(TrackingHistoryRow(t.id, out.result.ranking, out.result.searchVolume, now), insertOk(t.id));
      entry := Resolved(t.id, out.result);
    } else {
      entry := Errored(t.id, out.status);
    }
  }

  /** The scheduled loop over the given trackings, in order. */
  method ProcessAll(store: TrackingStore, serp: SearchRequest -> SerpResponse, active: seq<Tracking>,
                    insertOk: Id -> bool, now: nat) returns (results: seq<TrackingResult>)
    modifies store
    ensures store.trackings == old(store.trackings)
    ensures |results| == |active|
    ensures forall i :: 0 <= i < |active| ==> results[i] == EntryFor(active[i], Resolver(serp)(active[i]))
    ensures store.history == old(store.history) + ScheduledRows(active, Resolver(serp), insertOk, now)
  {
    results := [];
    for i := 0 to |active|
      invariant store.trackings == old(store.trackings)
      invariant |results| == i
      invariant forall j :: 0 <= j < i ==> results[j] == EntryFor(active[j], Resolver(serp)(active[j]))
      invariant store.history == old(store.history) + ScheduledRows(active[..i], Resolver(serp), insertOk, now)
    {
      var entry := ProcessTracking(store, serp, active[i], insertOk, now);
      ScheduledRowsStep(active, i, Resolver(serp), insertOk, now);
      results := results + [entry];
    }
    assert active[..|active|] == active;
  }

  /**
   * The scheduled branch: one result per active tracking, in order; a
   * failing tracking yields an error entry and the loop goes on.
   */
  method RunScheduled(store: TrackingStore, serp: SearchRequest -> SerpResponse, readOk: bool,
                      insertOk: Id -> bool, now: nat) returns (response: HandlerResponse)
    modifies store
    ensures store.trackings == old(store.trackings)
    ensures !readOk ==> response == Failed(ReadRejected) && store.history == old(store.history)
    ensures readOk ==> var active := ActiveTrackings(old(store.trackings));
      && response.ScheduledDone?
      && |response.results| == |active|
      && (forall i :: 0 <= i < |active| ==> response.results[i] == EntryFor(active[i], Resolver(serp)(active[i])))
      && store.history == old(store.history) + ScheduledRows(active, Resolver(serp), insertOk, now)
  {
    if !readOk {
      return Failed(ReadRejected);
    }
    var results := ProcessAll(store, serp, ActiveTrackings(store.trackings), insertOk, now);
    response := ScheduledDone(results);
  }

  /** Both environment checks of the handler pass. */
  predicate EnvReady(env: Env) {
    Present(env.serpApiKey) && Present(env.supabaseUrl) && Present(env.serviceKey)
  }

  /**
   * The request handler: an OPTIONS request is answered at once with
   * nothing read or written; then the environment checks, then the manual branch
   * when `manual && tracking_id`, the scheduled branch otherwise.
   */
  method Handle(store: TrackingStore, requestMethod: string, env: Env, req: FetchRequest, serp: SearchRequest -> SerpResponse,
                readOk: bool, insertOk: Id -> bool, now: nat) returns (response: HandlerResponse)
    modifies store
    ensures store.trackings == old(store.trackings)
    ensures requestMethod == "OPTIONS" ==> response == Preflight && store.history == old(store.history)
    ensures requestMethod != "OPTIONS" ==> !response.Preflight?
    ensures requestMethod != "OPTIONS" && !Present(env.serpApiKey) ==> response == Failed(MissingApiKey)
    ensures requestMethod != "OPTIONS" && Present(env.serpApiKey) && !EnvReady(env) ==> response == Failed(MissingStoreConfig)
    ensures requestMethod != "OPTIONS" && !EnvReady(env) ==> store.history == old(store.history)
    ensures requestMethod != "OPTIONS" && EnvReady(env) && IsManual(req) ==> !response.ScheduledDone?
    ensures requestMethod != "OPTIONS" && EnvReady(env) && !IsManual(req) ==> !response.ManualDone?
    ensures requestMethod != "OPTIONS" && EnvReady(env) && IsManual(req) ==>
      var out := FetchResult(serp(SearchFor(req.keyword)), req.websiteUrl);
      && (out.UpstreamError? ==> response == Failed(Upstream(out.status)) && store.history == old(store.history))
      && (out.Ranked? && !insertOk(req.trackingId.value) ==>
            response == Failed(InsertRejected) && store.history == old(store.history))
      && (out.Ranked? && insertOk(req.trackingId.value) ==>
            response == ManualDone(out.result)
            && store.history == old(store.history)
               + [TrackingHistoryRow(req.trackingId.value, out.result.ranking, out.result.searchVolume, now)])
    ensures requestMethod != "OPTIONS" && EnvReady(env) && !IsManual(req) && !readOk ==>
      response == Failed(ReadRejected) && store.history == old(store.history)
    ensures requestMethod != "OPTIONS" && EnvReady(env) && !IsManual(req) && readOk ==>
      var active := ActiveTrackings(old(store.trackings));
      && response.ScheduledDone?
      && |response.results| == |active|
      && (forall i :: 0 <= i < |active| ==> response.results[i] == EntryFor(active[i], Resolver(serp)(active[i])))
      && store.history == old(store.history) + ScheduledRows(active, Resolver(serp), insertOk, now)
    ensures response.Failed? <==> response.Status() == 400
  {
    if requestMethod == "OPTIONS" {
      return Preflight;
    }
    if !Present(env.serpApiKey) {
      return Failed(MissingApiKey);
    }
    if !Present(env.supabaseUrl) || !Present(env.serviceKey) {
      return Failed(MissingStoreConfig);
    }
    if IsManual(req) {
      response := HandleManual(store, req, serp, insertOk, now);
    } else {
      response := RunScheduled(store, serp, readOk, insertOk, now);
    }
  }
}

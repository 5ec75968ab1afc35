/**
  The URL rebuild PlaydedeService applies before every request: the URL is
  split as PHP's `parse_url` splits it, and when it carries a query the
  request goes to `scheme://host path ? query'`, where `query'` is the query
  decoded by `parse_str` and re-encoded by `http_build_query`. User
  information, port and fragment are dropped by the rebuild. When
  `parse_url` rejects the URL (an empty host, a malformed or out-of-range
  port) it has no query key, and the URL is requested as given.
 */
module Url {
  import opened Wrappers
  import opened Text

  /** The index of the first character satisfying `stop`, or `|s|` when there is none. */
  function FindFirst(s: string, stop: char -> bool): (k: nat)
    ensures k <= |s|
    ensures forall i :: 0 <= i < k ==> !stop(s[i])
    ensures k < |s| ==> stop(s[k])
  {
    if s == [] || stop(s[0]) then 0 else 1 + FindFirst(s[1..], stop)
  }

  /** Skipping a prefix free of stop characters: the search continues in the rest. */
  lemma {:induction false} FindFirstConcat(a: string, b: string, stop: char -> bool)
    requires forall i :: 0 <= i < |a| ==> !stop(a[i])
    ensures FindFirst(a + b, stop) == |a| + FindFirst(b, stop)
  {
    if a == [] {
      assert a + b == b;
    } else {
      assert (a + b)[0] == a[0] && (a + b)[1..] == a[1..] + b;
      FindFirstConcat(a[1..], b, stop);
    }
  }

  /** The index of the last `c` in `s`, or -1 when there is none (`zend_memrchr`). */
  function FindLast(s: string, c: char): (k: int)
    ensures -1 <= k < |s|
    ensures k >= 0 ==> s[k] == c
    ensures forall i :: k < i < |s| ==> s[i] != c
  {
    if s == [] then -1
    else if s[|s| - 1] == c then |s| - 1
    else
      var k := FindLast(s[..|s| - 1], c);
      assert forall i :: k < i < |s| - 1 ==> s[..|s| - 1][i] == s[i];
      k
  }

  /** A suffix free of `c` does not move the last `c`. */
  lemma {:induction false} FindLastBefore(a: string, b: string, c: char)
    requires forall i :: 0 <= i < |b| ==> b[i] != c
    ensures FindLast(a + b, c) == FindLast(a, c)
  {
    if b == [] {
      assert a + b == a;
    } else {
      var s := a + b;
      assert s[|s| - 1] == b[|b| - 1];
      assert s[..|s| - 1] == a + b[..|b| - 1];
      FindLastBefore(a, b[..|b| - 1], c);
    }
  }

  predicate IsColon(c: char) { c == ':' }
  predicate IsAuthorityStop(c: char) { c == '/' || c == '?' || c == '#' }
  predicate IsHostStop(c: char) { c == ':' || c == '@' || IsAuthorityStop(c) }
  predicate IsPathStop(c: char) { c == '?' || c == '#' }
  predicate IsFragmentStart(c: char) { c == '#' }
  /** The characters of a scheme: letters, digits, `+`, `-` and `.`. */
  predicate IsSchemeChar(c: char) {
    ('a' <= c <= 'z') || ('A' <= c <= 'Z') || ('0' <= c <= '9') || c == '+' || c == '-' || c == '.'
  }
  /** C's `isspace`: space, tab, line feed, vertical tab, form feed and carriage return. */
  predicate IsCSpace(c: char) { c == ' ' || ('\t' <= c <= '\r') }

  predicate NoneOf(s: string, stop: char -> bool) {
    forall i :: 0 <= i < |s| ==> !stop(s[i])
  }

  predicate IsScheme(s: string) {
    s != [] && forall i :: 0 <= i < |s| ==> IsSchemeChar(s[i])
  }

  /** The components of a URL the rebuild reads; absent ones are `None`, as unset array keys. */
  datatype UrlParts = UrlParts(scheme: Option<string>, host: Option<string>, path: Option<string>, query: Option<string>)

  /** Path and query of what follows the authority (or of the whole URL when it has no scheme). */
  function SplitTail(tail: string): (p: UrlParts)
    ensures p.scheme.None? && p.host.None?
    ensures p.query.Some? ==> '?' in tail
  {
    var pe := FindFirst(tail, IsPathStop);
    var path := if pe == 0 then None else Some(tail[..pe]);
    if pe < |tail| && tail[pe] == '?' then
      var rest := tail[pe + 1..];
      UrlParts(None, None, path, Some(rest[..FindFirst(rest, IsFragmentStart)]))
    else
      UrlParts(None, None, path, None)
  }

  function DigitValue(c: char): nat {
    if '0' <= c <= '9' then c as int - '0' as int else 0
  }

  /** The value of a run of decimal digits. */
  function DigitsValue(d: string): nat {
    if d == [] then 0 else 10 * DigitsValue(d[..|d| - 1]) + DigitValue(d[|d| - 1])
  }

  /** A port `parse_url` accepts: at most five characters and, when there are any, `strtol`
      reads at least one digit from them and a value between 0 and 65535. */
  predicate PortAccepted(p: string) {
    |p| <= 5 && (p == [] || StrtolAccepts(p))
  }

  /** `strtol` skips leading white space, ... */
  predicate StrtolAccepts(p: string) {
    p != [] && if IsCSpace(p[0]) then StrtolAccepts(p[1..]) else SignedPortOk(p)
  }

  /** ... then reads an optional sign and a run of digits, ignoring what follows them. */
  predicate SignedPortOk(r: string) {
    var signed := r != [] && (r[0] == '-' || r[0] == '+');
    var d := DigitPrefix(if signed then r[1..] else r);
    d != [] && (if signed && r[0] == '-' then DigitsValue(d) == 0 else DigitsValue(d) <= 65535)
  }

  /** The leading run of decimal digits. */
  function DigitPrefix(s: string): string {
    if s != [] && '0' <= s[0] <= '9' then [s[0]] + DigitPrefix(s[1..]) else []
  }

  /** The host of what follows the user information: an IPv6 literal in brackets is the host
      as a whole; otherwise a port after the last `:` must be accepted, and the host before it
      must not be empty. `None` is the rejection. */
  function HostOf(region: string): Option<string> {
    if region != [] && region[0] == '[' && region[|region| - 1] == ']' then Some(region)
    else
      var k := FindLast(region, ':');
      if k < 0 then (if region == [] then None else Some(region))
      else if k == 0 || !PortAccepted(region[k + 1..]) then None
      else Some(region[..k])
  }

  /** `file:///`, after which there is no authority: the URL is a path. */
  predicate FileRoot(scheme: string, rest: string) {
    LowerAscii(scheme) == "file" && rest != [] && rest[0] == '/'
  }

  /** `parse_url` on a URL whose first `:` follows a valid scheme and opens `://`; `None` is
      `parse_url` returning false. A URL of any other form is read as a bare path and query. */
  function ParseUrl(u: string): (r: Option<UrlParts>)
    ensures r.Some? && r.value.query.Some? ==> '?' in u
  {
    var c := FindFirst(u, IsColon);
    if 0 < c && c + 3 <= |u| && u[c..c + 3] == "://" && IsScheme(u[..c]) then ParseHierarchical(u[..c], u[c + 3..])
    else Some(SplitTail(u))
  }

  /** What follows `scheme://`: for `file:///` a path; otherwise the authority runs to the next
      `/`, `?` or `#`. */
  function ParseHierarchical(scheme: string, rest: string): (r: Option<UrlParts>)
    ensures r.Some? && r.value.query.Some? ==> '?' in rest
  {
    if FileRoot(scheme, rest) then
      var t := SplitTail(if |rest| > 2 && rest[2] == ':' then rest[1..] else rest);
      Some(UrlParts(Some(scheme), None, t.path, t.query))
    else
      var a := FindFirst(rest, IsAuthorityStop);
      ParseAuthority(scheme, rest[..a], rest[a..])
  }

  /** Anything up to the last `@` of the authority is user information. */
  function ParseAuthority(scheme: string, authority: string, tail: string): (r: Option<UrlParts>)
    ensures r.Some? && r.value.query.Some? ==> '?' in tail
  {
    ParseRegion(scheme, authority[FindLast(authority, '@') + 1..], tail)
  }

  /** The host is what follows the user information without its port. */
  function ParseRegion(scheme: string, region: string, tail: string): (r: Option<UrlParts>)
    ensures r.Some? && r.value.query.Some? ==> '?' in tail
  {
    var t := SplitTail(tail);
    match HostOf(region)
    case None => None
    case Some(host) => Some(UrlParts(Some(scheme), Some(host), t.path, t.query))
  }

  /** A valid scheme followed by `://` leads to the hierarchical part. */
  lemma ParseUrlScheme(scheme: string, rest: string)
    requires IsScheme(scheme)
    ensures ParseUrl(scheme + "://" + rest) == ParseHierarchical(scheme, rest)
  {
    SchemeEnds(scheme, rest);
  }

  /** An authority free of `/`, `?` and `#`, then a tail starting with one of them or empty. */
  lemma ParseHierarchicalSplit(scheme: string, authority: string, tail: string)
    requires NoneOf(authority, IsAuthorityStop) && (tail == [] || IsAuthorityStop(tail[0]))
    requires !FileRoot(scheme, authority + tail)
    ensures ParseHierarchical(scheme, authority + tail) == ParseAuthority(scheme, authority, tail)
  {
    AuthorityEnds(authority, tail);
  }

  /** The URL that is actually requested, given the `parse_str`/`http_build_query` round trip
      `reencode` on queries. A URL `parse_url` rejects, or one without a query, is requested as
      given. `None` stands for the exception PHP raises when a URL has a query but lacks a
      scheme, host or path (the array key read is undefined): every caller then takes its
      catch branch. */
  function RequestUrl(u: string, reencode: string -> string): (r: Option<string>)
    ensures ParseUrl(u).None? ==> r == Some(u)
    ensures ParseUrl(u).Some? && ParseUrl(u).value.query.None? ==> r == Some(u)
    ensures (forall i :: 0 <= i < |u| ==> u[i] != '?') ==> r == Some(u)
  {
    match ParseUrl(u)
    case None => Some(u)
    case Some(p) =>
      if p.query.None? then Some(u)
      else if p.scheme.None? || p.host.None? || p.path.None? then None
      else Some(p.scheme.value + "://" + p.host.value + p.path.value + "?" + reencode(p.query.value))
  }

  /** User information: empty, or anything free of `/`, `?` and `#` that ends with `@`. */
  predicate IsUserinfo(userinfo: string) {
    userinfo == [] || (userinfo[|userinfo| - 1] == '@' && NoneOf(userinfo, IsAuthorityStop))
  }

  predicate IsHost(host: string) {
    host != [] && NoneOf(host, IsHostStop)
  }

  /** A port part: empty, or `:` followed by characters `parse_url` accepts as a port. */
  predicate IsPort(port: string) {
    port == [] || (port[0] == ':' && NoneOf(port[1..], IsHostStop) && port[|port| - 1] != ']' && PortAccepted(port[1..]))
  }

  /** The shape of a URL with a query: `scheme://[userinfo@]host[:port]path?query[#fragment]`. */
  predicate QueryUrlShape(scheme: string, userinfo: string, host: string, port: string, path: string,
                          query: string, fragment: string) {
    && IsScheme(scheme)
    && IsUserinfo(userinfo)
    && IsHost(host)
    && IsPort(port)
    && path != [] && path[0] == '/' && NoneOf(path, IsPathStop)
    && NoneOf(query, IsFragmentStart)
    && (fragment == [] || fragment[0] == '#')
  }

  /** After a path free of `?` and `#`, a `?` starts the query. */
  lemma SplitTailAt(path: string, rest: string)
    requires path != [] && NoneOf(path, IsPathStop)
    ensures SplitTail(path + ("?" + rest)) == UrlParts(None, None, Some(path), Some(rest[..FindFirst(rest, IsFragmentStart)]))
  {
    var tail := path + ("?" + rest);
    assert FindFirst(tail, IsPathStop) == |path| by {
      FindFirstConcat(path, "?" + rest, IsPathStop);
      assert ("?" + rest)[0] == '?';
    }
    assert tail[|path|] == '?' && tail[..|path|] == path && tail[|path| + 1..] == rest;
    SplitTailQuery(tail, |path|);
  }

  /** A tail whose first `?` or `#` is a `?` after a non-empty path. */
  lemma SplitTailQuery(tail: string, pe: nat)
    requires 0 < pe < |tail| && FindFirst(tail, IsPathStop) == pe && tail[pe] == '?'
    ensures SplitTail(tail) == UrlParts(None, None, Some(tail[..pe]), Some(tail[pe + 1..][..FindFirst(tail[pe + 1..], IsFragmentStart)]))
  {
  }

  /** A fragment is cut off at its `#`. */
  lemma FragmentCut(query: string, fragment: string)
    requires NoneOf(query, IsFragmentStart)
    requires fragment == [] || fragment[0] == '#'
    ensures (query + fragment)[..FindFirst(query + fragment, IsFragmentStart)] == query
  {
    FindFirstConcat(query, fragment, IsFragmentStart);
    if fragment != [] {
      assert FindFirst(fragment, IsFragmentStart) == 0;
    }
    assert (query + fragment)[..|query|] == query;
  }

  /** What follows the authority splits into its path and query; the fragment is dropped. */
  lemma SplitTailShape(path: string, query: string, fragment: string)
    requires path != [] && NoneOf(path, IsPathStop)
    requires NoneOf(query, IsFragmentStart)
    requires fragment == [] || fragment[0] == '#'
    ensures SplitTail(path + "?" + query + fragment) == UrlParts(None, None, Some(path), Some(query))
  {
    assert path + "?" + query + fragment == path + ("?" + (query + fragment));
    SplitTailAt(path, query + fragment);
    FragmentCut(query, fragment);
  }

  /** The user information ends at the last `@` of the authority. */
  lemma DropUserinfo(userinfo: string, hp: string)
    requires IsUserinfo(userinfo)
    requires forall i :: 0 <= i < |hp| ==> hp[i] != '@'
    ensures (userinfo + hp)[FindLast(userinfo + hp, '@') + 1..] == hp
  {
    FindLastBefore(userinfo, hp, '@');
    if userinfo == [] {
      assert userinfo + hp == hp;
      FindLastBefore([], hp, '@');
      assert [] + hp == hp;
    } else {
      assert FindLast(userinfo, '@') == |userinfo| - 1;
    }
  }

  lemma ParseAuthorityUser(scheme: string, userinfo: string, region: string, tail: string)
    requires IsUserinfo(userinfo)
    requires forall i :: 0 <= i < |region| ==> region[i] != '@'
    ensures ParseAuthority(scheme, userinfo + region, tail) == ParseRegion(scheme, region, tail)
  {
    DropUserinfo(userinfo, region);
  }

  /** A `c` appended is the last one. */
  lemma FindLastAppended(a: string, c: char)
    ensures FindLast(a + [c], c) == |a|
  {
    assert (a + [c])[|a|] == c;
  }

  /** The last `:` of `host : p`, for a host and a `p` free of `:`. */
  lemma PortColon(host: string, p: string)
    requires NoneOf(host, IsHostStop) && NoneOf(p, IsHostStop)
    ensures FindLast(host + ([':'] + p), ':') == |host|
    ensures (host + ([':'] + p))[..|host|] == host && (host + ([':'] + p))[|host| + 1..] == p
  {
    assert host + ([':'] + p) == (host + [':']) + p;
    FindLastBefore(host + [':'], p, ':');
    FindLastAppended(host, ':');
  }

  /** A region free of `:` that is not a bracketed literal is its own host, unless empty. */
  lemma HostOfNoColon(region: string)
    requires NoneOf(region, IsHostStop)
    ensures HostOf(region) == if region == [] then None else Some(region)
  {
    FindLastBefore([], region, ':');
    assert [] + region == region;
  }

  /** With its last `:` at `k > 0`, no closing bracket and an accepted port, the host is what
      precedes the `:`. */
  lemma HostOfAccepted(region: string, k: int)
    requires 0 < k < |region| && FindLast(region, ':') == k && region[|region| - 1] != ']'
    requires PortAccepted(region[k + 1..])
    ensures HostOf(region) == Some(region[..k])
  {
  }

  /** A port that is not accepted rejects the URL. */
  lemma HostOfRejected(region: string, k: int)
    requires 0 < k < |region| && FindLast(region, ':') == k && region[|region| - 1] != ']'
    requires !PortAccepted(region[k + 1..])
    ensures HostOf(region).None?
  {
  }

  /** A region starting with its last `:` has an empty host, and rejects the URL. */
  lemma HostOfLeadingColon(region: string)
    requires region != [] && FindLast(region, ':') == 0
    ensures HostOf(region).None?
  {
  }

  /** A host followed by an accepted port (or none) is the host. */
  lemma HostDropsPort(host: string, port: string)
    requires IsHost(host) && IsPort(port)
    ensures HostOf(host + port) == Some(host)
  {
    if port == [] {
      assert host + port == host;
      HostOfNoColon(host);
    } else {
      var p := port[1..];
      assert port == [':'] + p;
      PortColon(host, p);
      HostOfAccepted(host + port, |host|);
    }
  }

  /** The authority ends where the path begins. */
  lemma AuthorityEnds(hp: string, tail: string)
    requires NoneOf(hp, IsAuthorityStop)
    requires tail == [] || IsAuthorityStop(tail[0])
    ensures FindFirst(hp + tail, IsAuthorityStop) == |hp|
    ensures (hp + tail)[..|hp|] == hp && (hp + tail)[|hp|..] == tail
  {
    FindFirstConcat(hp, tail, IsAuthorityStop);
    if tail == [] {
      assert hp + tail == hp;
    }
  }

  /** The scheme ends at the first `:`, which `//` follows. */
  lemma SchemeEnds(scheme: string, rest: string)
    requires IsScheme(scheme)
    ensures FindFirst(scheme + "://" + rest, IsColon) == |scheme|
    ensures (scheme + "://" + rest)[|scheme|..|scheme| + 3] == "://"
    ensures (scheme + "://" + rest)[..|scheme|] == scheme
    ensures (scheme + "://" + rest)[|scheme| + 3..] == rest
  {
    assert scheme + "://" + rest == scheme + ("://" + rest);
    FindFirstConcat(scheme, "://" + rest, IsColon);
  }

  lemma Assoc(a: string, b: string, c: string)
    ensures a + b + c == a + (b + c)
  {
  }

  lemma NoneOfConcat(a: string, b: string, stop: char -> bool)
    requires NoneOf(a, stop) && NoneOf(b, stop)
    ensures NoneOf(a + b, stop)
  {
    forall i | 0 <= i < |a + b| ensures !stop((a + b)[i]) {
      if i >= |a| {
        assert (a + b)[i] == b[i - |a|];
      }
    }
  }

  /** The authority `userinfo host port` is free of `/`, `?` and `#`, and what follows the
      user information is free of `@`. */
  lemma AuthorityChars(userinfo: string, host: string, port: string)
    requires IsUserinfo(userinfo) && NoneOf(host, IsHostStop)
    requires port == [] || (port[0] == ':' && NoneOf(port[1..], IsHostStop))
    ensures NoneOf(userinfo + host + port, IsAuthorityStop)
    ensures forall i :: 0 <= i < |host + port| ==> (host + port)[i] != '@'
  {
    if port != [] {
      assert port == [':'] + port[1..];
    }
    assert NoneOf(host + port, IsAuthorityStop) by {
      forall i | 0 <= i < |host + port| ensures !IsAuthorityStop((host + port)[i]) {
        if i >= |host| && i > |host| {
          assert (host + port)[i] == port[1..][i - |host| - 1];
        }
      }
    }
    assert userinfo + host + port == userinfo + (host + port);
    NoneOfConcat(userinfo, host + port, IsAuthorityStop);
    forall i | 0 <= i < |host + port| ensures (host + port)[i] != '@' {
      if i > |host| {
        assert (host + port)[i] == port[1..][i - |host| - 1];
      }
    }
  }

  /** The first character of `scheme://authority tail` after the `//` is not `/` when the
      authority is not empty, so `file` is not special there. */
  lemma NotFileRoot(scheme: string, authority: string, tail: string)
    requires NoneOf(authority, IsAuthorityStop)
    requires LowerAscii(scheme) != "file" || authority != []
    ensures !FileRoot(scheme, authority + tail)
  {
    if authority != [] {
      assert (authority + tail)[0] == authority[0];
    }
  }

  /** `parse_url` on a URL with a scheme, an authority and a path with a query. */
  lemma ParseQueryUrl(scheme: string, userinfo: string, host: string, port: string, path: string,
                      query: string, fragment: string)
    requires QueryUrlShape(scheme, userinfo, host, port, path, query, fragment)
    ensures ParseUrl(scheme + "://" + ((userinfo + host + port) + (path + "?" + query + fragment)))
         == Some(UrlParts(Some(scheme), Some(host), Some(path), Some(query)))
  {
    var authority := userinfo + host + port;
    var tail := path + "?" + query + fragment;
    AuthorityChars(userinfo, host, port);
    assert ParseUrl(scheme + "://" + (authority + tail)) == ParseAuthority(scheme, authority, tail) by {
      ParseUrlScheme(scheme, authority + tail);
      NotFileRoot(scheme, authority, tail);
      ParseHierarchicalSplit(scheme, authority, tail);
    }
    assert ParseAuthority(scheme, authority, tail) == ParseRegion(scheme, host + port, tail) by {
      Assoc(userinfo, host, port);
      ParseAuthorityUser(scheme, userinfo, host + port, tail);
    }
    assert ParseRegion(scheme, host + port, tail) == Some(UrlParts(Some(scheme), Some(host), Some(path), Some(query))) by {
      HostDropsPort(host, port);
      SplitTailShape(path, query, fragment);
    }
  }

  /** A URL with a query is rebuilt as scheme://host path ? reencoded query: user information,
      port and fragment are dropped. */
  lemma RebuildDropsUserPortFragment(scheme: string, userinfo: string, host: string, port: string, path: string,
                                     query: string, fragment: string, reencode: string -> string)
    requires QueryUrlShape(scheme, userinfo, host, port, path, query, fragment)
    ensures RequestUrl(scheme + "://" + userinfo + host + port + path + "?" + query + fragment, reencode)
         == Some(scheme + "://" + host + path + "?" + reencode(query))
  {
    Regroup(scheme + "://", userinfo, host, port, path + "?" + query + fragment);
    Regroup2(scheme + "://" + userinfo + host + port, path, "?", query, fragment);
    ParseQueryUrl(scheme, userinfo, host, port, path, query, fragment);
  }

  /** Regrouping the authority and the tail of a URL. */
  lemma Regroup(lead: string, userinfo: string, host: string, port: string, tail: string)
    ensures lead + ((userinfo + host + port) + tail) == lead + userinfo + host + port + tail
  {
  }

  lemma Regroup2(head: string, path: string, mark: string, query: string, fragment: string)
    ensures head + (path + mark + query + fragment) == head + path + mark + query + fragment
  {
  }

  /** The common case: `scheme://host path ? query` with no user information, port or fragment. */
  lemma RebuildPlain(scheme: string, host: string, path: string, query: string, reencode: string -> string)
    requires QueryUrlShape(scheme, "", host, "", path, query, "")
    ensures RequestUrl(scheme + "://" + host + path + "?" + query, reencode)
         == Some(scheme + "://" + host + path + "?" + reencode(query))
  {
    RebuildDropsUserPortFragment(scheme, "", host, "", path, query, "", reencode);
    assert scheme + "://" + "" == scheme + "://";
    var a := scheme + "://" + host;
    assert a + "" == a;
    var x := a + path + "?" + query;
    assert x + "" == x;
  }

  /** An empty host, or a port `parse_url` does not accept, makes `parse_url` return false:
      the URL is then requested as given, query and all. */
  lemma RejectedUrlIsRequestedAsGiven(scheme: string, userinfo: string, host: string, port: string, tail: string,
                                      reencode: string -> string)
    requires IsScheme(scheme) && IsUserinfo(userinfo) && NoneOf(host, IsHostStop)
    requires port == [] || (port[0] == ':' && NoneOf(port[1..], IsHostStop) && port[|port| - 1] != ']')
    requires host == [] || (port != [] && !PortAccepted(port[1..]))
    requires tail == [] || IsAuthorityStop(tail[0])
    requires LowerAscii(scheme) != "file" || userinfo + host + port != []
    ensures ParseUrl(scheme + "://" + (userinfo + host + port) + tail).None?
    ensures RequestUrl(scheme + "://" + (userinfo + host + port) + tail, reencode)
         == Some(scheme + "://" + (userinfo + host + port) + tail)
  {
    var authority := userinfo + host + port;
    AuthorityChars(userinfo, host, port);
    assert ParseUrl(scheme + "://" + authority + tail) == ParseAuthority(scheme, authority, tail) by {
      Assoc(scheme + "://", authority, tail);
      ParseUrlScheme(scheme, authority + tail);
      NotFileRoot(scheme, authority, tail);
      ParseHierarchicalSplit(scheme, authority, tail);
    }
    assert ParseAuthority(scheme, authority, tail) == ParseRegion(scheme, host + port, tail) by {
      Assoc(userinfo, host, port);
      ParseAuthorityUser(scheme, userinfo, host + port, tail);
    }
    assert ParseRegion(scheme, host + port, tail).None? by {
      RejectedHost(host, port);
    }
  }

  /** An empty host, or one followed by a port that is not accepted, has no host. */
  lemma RejectedHost(host: string, port: string)
    requires NoneOf(host, IsHostStop)
    requires port == [] || (port[0] == ':' && NoneOf(port[1..], IsHostStop) && port[|port| - 1] != ']')
    requires host == [] || (port != [] && !PortAccepted(port[1..]))
    ensures HostOf(host + port).None?
  {
    if port == [] {
      assert host + port == host;
      HostOfNoColon(host);
    } else {
      var p := port[1..];
      assert FindLast(host + port, ':') == |host| && (host + port)[|host| + 1..] == p by {
        assert port == [':'] + p;
        PortColon(host, p);
      }
      assert (host + port)[|host + port| - 1] == port[|port| - 1];
      if host == [] {
        HostOfLeadingColon(host + port);
      } else {
        HostOfRejected(host + port, |host|);
      }
    }
  }

  /** `https://user:pw@example.com/search?s=x` is requested at `https://example.com/search?`. */
  lemma UserinfoIsDropped(reencode: string -> string)
    ensures RequestUrl("https://user:pw@example.com/search?s=x", reencode)
         == Some("https://example.com/search?" + reencode("s=x"))
  {
    RebuildDropsUserPortFragment("https", "user:pw@", "example.com", "", "/search", "s=x", "", reencode);
    UserinfoSpelling();
  }

  lemma UserinfoSpelling()
    ensures "https" + "://" + "user:pw@" + "example.com" + "" + "/search" + "?" + "s=x" + ""
         == "https://user:pw@example.com/search?s=x"
    ensures "https" + "://" + "example.com" + "/search" + "?" == "https://example.com/search?"
  {
    assert "https" + "://" == "https://";
    assert "https://" + "user:pw@" == "https://user:pw@";
    assert "https://user:pw@" + "example.com" == "https://user:pw@example.com";
    assert "https://user:pw@example.com" + "" == "https://user:pw@example.com";
    assert "https://user:pw@example.com" + "/search" == "https://user:pw@example.com/search";
    assert "https://user:pw@example.com/search" + "?" == "https://user:pw@example.com/search?";
    assert "https://user:pw@example.com/search?" + "s=x" == "https://user:pw@example.com/search?s=x";
    assert "https://user:pw@example.com/search?s=x" + "" == "https://user:pw@example.com/search?s=x";
    assert "https://" + "example.com" == "https://example.com";
    assert "https://example.com" + "/search" == "https://example.com/search";
  }

  /** `https://example.com:abc/p?q=1` has a port `strtol` reads no digit from: it is requested as given. */
  lemma BadPortIsRequestedAsGiven(reencode: string -> string)
    ensures RequestUrl("https://example.com:abc/p?q=1", reencode) == Some("https://example.com:abc/p?q=1")
  {
    RejectedUrlIsRequestedAsGiven("https", "", "example.com", ":abc", "/p?q=1", reencode);
    BadPortSpelling();
  }

  lemma BadPortSpelling()
    ensures "https" + "://" + ("" + "example.com" + ":abc") + "/p?q=1" == "https://example.com:abc/p?q=1"
  {
  }
}

/**
 * The parts of Python's `urllib.parse` and `posixpath` that the downloaders use: `urlsplit`
 * (what `urlparse(...)` yields for `.scheme`, `.netloc`, `.path`, `.query`), `urlunsplit` (what
 * `._replace(...).geturl()` yields), `parse_qs`, and `os.path.join`, `basename` and `dirname`.
 */
module Urls {
  import opened Wrappers
  import opened Text

  datatype SplitUrl = SplitUrl(scheme: string, netloc: string, path: string, query: string, fragment: string)

  predicate IsSchemeChar(c: char) {
    IsAsciiAlnum(c) || c == '+' || c == '-' || c == '.'
  }

  predicate IsNetlocDelimiter(c: char) {
    c == '/' || c == '?' || c == '#'
  }

  /** Where the scheme ends: the first ':' when everything before it is a scheme starting with a letter. */
  function SchemeLength(url: string): (r: Option<nat>)
    ensures r.Some? ==> 0 < r.value < |url| && url[r.value] == ':'
    ensures r.Some? ==> IsAsciiAlpha(url[0]) && forall k :: 0 <= k < r.value ==> IsSchemeChar(url[k]) && url[k] != ':'
  {
    var i := IndexOfChar(url, ':');
    if i.Some? && i.value > 0 && IsAsciiAlpha(url[0]) && (forall k :: 0 <= k < i.value ==> IsSchemeChar(url[k]))
    then i
    else None
  }

  /** The end of the network location: the first '/', '?' or '#', or the end of the string. */
  function NetlocEnd(s: string): (r: nat)
    ensures r <= |s|
    ensures forall j :: 0 <= j < r ==> !IsNetlocDelimiter(s[j])
    ensures r < |s| ==> IsNetlocDelimiter(s[r])
  {
    if s == [] || IsNetlocDelimiter(s[0]) then 0 else 1 + NetlocEnd(s[1..])
  }

  /** `s.split(c, 1)` when `c in s`, else `(s, "")`. */
  function SplitFirst(s: string, c: char): (r: (string, string))
    ensures forall j :: 0 <= j < |r.0| ==> r.0[j] != c
    ensures IndexOfChar(s, c).None? ==> r == (s, "")
    ensures IndexOfChar(s, c).Some? ==> s == r.0 + [c] + r.1
  {
    match IndexOfChar(s, c)
    case None => (s, "")
    case Some(i) =>
      assert s == s[..i] + [c] + s[i + 1..];
      (s[..i], s[i + 1..])
  }

  predicate WellFormedScheme(scheme: string) {
    scheme != "" ==>
      IsAsciiAlpha(scheme[0]) && Lower(scheme) == scheme
      && forall k :: 0 <= k < |scheme| ==> IsSchemeChar(scheme[k]) && scheme[k] != ':'
  }

  /** The scheme (lower-cased) and what follows its ':', or no scheme and the whole URL. */
  function SplitScheme(url: string): (r: (string, string))
    ensures WellFormedScheme(r.0)
  {
    match SchemeLength(url)
    case Some(i) =>
      var s := url[..i];
      LowerIdempotent(s);
      assert forall k :: 0 <= k < |s| ==> Lower(s)[k] == LowerChar(s[k]);
      (Lower(s), url[i + 1..])
    case None => ("", url)
  }

  /** The network location after a leading "//" and what follows it. */
  function SplitNetloc(rest: string): (r: (string, string))
    ensures forall j :: 0 <= j < |r.0| ==> !IsNetlocDelimiter(r.0[j])
    ensures r.0 != "" ==> r.1 == [] || IsNetlocDelimiter(r.1[0])
  {
    if StartsWith(rest, "//") then
      var e := NetlocEnd(rest[2..]);
      (rest[2..][..e], rest[2..][e..])
    else ("", rest)
  }

  /** Both parts of a `SplitFirst` lack every character the whole lacks. */
  lemma {:induction false} SplitFirstParts(s: string, c: char, d: char)
    requires forall j :: 0 <= j < |s| ==> s[j] != d
    ensures forall j :: 0 <= j < |SplitFirst(s, c).0| ==> SplitFirst(s, c).0[j] != d
    ensures forall j :: 0 <= j < |SplitFirst(s, c).1| ==> SplitFirst(s, c).1[j] != d
  {
    var r := SplitFirst(s, c);
    if IndexOfChar(s, c).Some? {
      forall j | 0 <= j < |r.0|
        ensures r.0[j] != d
      {
        assert s[j] == (r.0 + [c] + r.1)[j];
      }
      forall j | 0 <= j < |r.1|
        ensures r.1[j] != d
      {
        assert s[|r.0| + 1 + j] == (r.0 + [c] + r.1)[|r.0| + 1 + j];
      }
    }
  }

  /** The first part of a `SplitFirst` begins like the whole unless the whole begins with `c`. */
  lemma {:induction false} SplitFirstHead(s: string, c: char)
    requires s != []
    ensures s[0] == c ==> SplitFirst(s, c).0 == []
    ensures s[0] != c ==> SplitFirst(s, c).0 != [] && SplitFirst(s, c).0[0] == s[0]
  {
  }

  /** `urlsplit(url)`; parameters after ';' stay in the path. */
  function UrlSplit(url: string): SplitUrl {
    var (scheme, rest) := SplitScheme(url);
    var (netloc, rest2) := SplitNetloc(rest);
    var (beforeFragment, fragment) := SplitFirst(rest2, '#');
    var (path, query) := SplitFirst(beforeFragment, '?');
    SplitUrl(scheme, netloc, path, query, fragment)
  }

  /** `urlunsplit(u)` (what `geturl()` returns) for a URL with a network location. */
  function UrlUnsplit(u: SplitUrl): string {
    var withNetloc :=
      if u.netloc != "" then "//" + u.netloc + (if u.path != "" && u.path[0] != '/' then "/" + u.path else u.path)
      else u.path;
    var withScheme := if u.scheme != "" then u.scheme + ":" + withNetloc else withNetloc;
    var withQuery := if u.query != "" then withScheme + "?" + u.query else withScheme;
    if u.fragment != "" then withQuery + "#" + u.fragment else withQuery
  }

  /** The network location of a URL is a piece of it. */
  lemma {:induction false} NetlocOccurs(url: string) returns (k: nat)
    ensures var n := UrlSplit(url).netloc;
      n != "" ==> k + |n| <= |url| && url[k..k + |n|] == n
  {
    UrlSplitNetloc(url);
    k := NetlocOccursAfterScheme(url);
  }

  lemma {:induction false} NetlocOccursAfterScheme(url: string) returns (k: nat)
    ensures var n := SplitNetloc(SplitScheme(url).1).0;
      n != "" ==> k + |n| <= |url| && url[k..k + |n|] == n
  {
    var start := if SchemeLength(url).Some? then SchemeLength(url).value + 1 else 0;
    SchemeRest(url);
    var rest := url[start..];
    NetlocInRest(rest);
    var n := SplitNetloc(rest).0;
    k := start + 2;
    if n != "" {
      SliceOfSuffix(url, start, 2, 2 + |n|);
    }
  }

  lemma {:induction false} SliceOfSuffix(s: string, start: nat, a: nat, b: nat)
    requires start <= |s| && a <= b <= |s| - start
    ensures s[start..][a..b] == s[start + a..start + b]
  {
  }

  lemma {:induction false} SchemeRest(url: string)
    ensures SplitScheme(url).1 == url[if SchemeLength(url).Some? then SchemeLength(url).value + 1 else 0..]
  {
  }

  lemma {:induction false} UrlSplitNetloc(url: string)
    ensures UrlSplit(url).netloc == SplitNetloc(SplitScheme(url).1).0
  {
  }

  lemma {:induction false} NetlocInRest(rest: string)
    ensures var n := SplitNetloc(rest).0;
      n != "" ==> 2 + |n| <= |rest| && rest[2..2 + |n|] == n
  {
    if StartsWith(rest, "//") {
      var e := NetlocEnd(rest[2..]);
      assert rest[2..][..e] == rest[2..2 + e];
    }
  }

  /** What every result of `UrlSplit` satisfies. */
  predicate WellFormed(u: SplitUrl) {
    && WellFormedScheme(u.scheme)
    && (forall j :: 0 <= j < |u.netloc| ==> !IsNetlocDelimiter(u.netloc[j]))
    && (forall j :: 0 <= j < |u.path| ==> u.path[j] != '?' && u.path[j] != '#')
    && (forall j :: 0 <= j < |u.query| ==> u.query[j] != '#')
    && (u.netloc != "" ==> u.path == "" || u.path[0] == '/')
  }

  lemma {:induction false} UrlSplitWellFormed(url: string)
    ensures WellFormed(UrlSplit(url))
  {
    var (scheme, rest) := SplitScheme(url);
    var (netloc, rest2) := SplitNetloc(rest);
    var (beforeFragment, fragment) := SplitFirst(rest2, '#');
    var (path, query) := SplitFirst(beforeFragment, '?');
    assert UrlSplit(url) == SplitUrl(scheme, netloc, path, query, fragment);
    SplitFirstParts(beforeFragment, '?', '#');
    if netloc != "" && rest2 != [] {
      SplitFirstHead(rest2, '#');
      if beforeFragment != [] {
        SplitFirstHead(beforeFragment, '?');
        assert beforeFragment[0] == rest2[0];
      }
    }
  }

  function SchemePrefix(scheme: string): string {
    if scheme != "" then scheme + ":" else ""
  }

  lemma {:induction false} SplitSchemeOf(scheme: string, rest: string)
    requires WellFormedScheme(scheme) && rest != [] && rest[0] == '/'
    ensures SplitScheme(SchemePrefix(scheme) + rest) == (scheme, rest)
  {
    if scheme != "" {
      assert SchemePrefix(scheme) + rest == scheme + ":" + rest;
      SplitNamedSchemeOf(scheme, rest);
    } else {
      assert SchemePrefix(scheme) + rest == rest;
      NoSchemeBeforeSlash(rest);
    }
  }

  lemma {:induction false} SplitNamedSchemeOf(scheme: string, rest: string)
    requires WellFormedScheme(scheme) && scheme != ""
    ensures SplitScheme(scheme + ":" + rest) == (scheme, rest)
  {
    var text := scheme + ":" + rest;
    var n := |scheme|;
    assert forall k :: 0 <= k < n ==> text[k] == scheme[k];
    assert text[n] == ':';
    assert IndexOfChar(text, ':') == Some(n);
    assert SchemeLength(text) == Some(n);
    assert text[..n] == scheme;
    assert text[n + 1..] == rest;
  }

  lemma {:induction false} NoSchemeBeforeSlash(rest: string)
    requires rest != [] && rest[0] == '/'
    ensures SplitScheme(rest) == ("", rest)
  {
    assert !IsAsciiAlpha(rest[0]);
    assert SchemeLength(rest) == None;
  }

  lemma {:induction false} SplitNetlocOf(netloc: string, tail: string)
    requires forall j :: 0 <= j < |netloc| ==> !IsNetlocDelimiter(netloc[j])
    requires tail == [] || IsNetlocDelimiter(tail[0])
    ensures SplitNetloc("//" + netloc + tail) == (netloc, tail)
  {
    var rest := "//" + netloc + tail;
    assert StartsWith(rest, "//");
    var r2 := rest[2..];
    assert r2 == netloc + tail;
    var e := NetlocEnd(r2);
    assert forall j :: 0 <= j < |netloc| ==> r2[j] == netloc[j];
    if |netloc| < |r2| {
      assert r2[|netloc|] == tail[0];
    }
    assert e == |netloc|;
    assert r2[..e] == netloc;
    assert r2[e..] == tail;
  }

  lemma {:induction false} SplitFirstAt(a: string, c: char, b: string)
    requires forall j :: 0 <= j < |a| ==> a[j] != c
    ensures SplitFirst(a + [c] + b, c) == (a, b)
  {
    var s := a + [c] + b;
    assert forall j :: 0 <= j < |a| ==> s[j] == a[j];
    assert s[|a|] == c;
    assert IndexOfChar(s, c) == Some(|a|);
    assert s[..|a|] == a;
    assert s[|a| + 1..] == b;
  }

  /** `UrlSplit` from the results of its four steps. */
  lemma {:induction false} UrlSplitSteps(url: string, rest: string, rest2: string, beforeFragment: string, u: SplitUrl)
    requires SplitScheme(url) == (u.scheme, rest)
    requires SplitNetloc(rest) == (u.netloc, rest2)
    requires SplitFirst(rest2, '#') == (beforeFragment, u.fragment)
    requires SplitFirst(beforeFragment, '?') == (u.path, u.query)
    ensures UrlSplit(url) == u
  {
  }

  /** The path and the query as `urlunsplit` writes them. */
  function PathAndQuery(u: SplitUrl): string {
    u.path + (if u.query != "" then "?" + u.query else "")
  }

  /** Everything `urlunsplit` writes after the network location. */
  function AfterNetloc(u: SplitUrl): string {
    PathAndQuery(u) + (if u.fragment != "" then "#" + u.fragment else "")
  }

  lemma {:induction false} UnsplitShape(u: SplitUrl)
    requires u.netloc != "" && (u.path == "" || u.path[0] == '/')
    ensures UrlUnsplit(u) == SchemePrefix(u.scheme) + ("//" + u.netloc + AfterNetloc(u))
  {
  }

  lemma {:induction false} FragmentAndQuery(u: SplitUrl)
    requires WellFormed(u) && u.netloc != ""
    ensures AfterNetloc(u) == [] || IsNetlocDelimiter(AfterNetloc(u)[0])
    ensures SplitFirst(AfterNetloc(u), '#') == (PathAndQuery(u), u.fragment)
    ensures SplitFirst(PathAndQuery(u), '?') == (u.path, u.query)
  {
    var pq := PathAndQuery(u);
    assert forall j :: 0 <= j < |pq| ==> pq[j] != '#';
    if u.fragment != "" {
      assert AfterNetloc(u) == pq + ['#'] + u.fragment;
      SplitFirstAt(pq, '#', u.fragment);
    } else {
      assert AfterNetloc(u) == pq;
    }
    if u.query != "" {
      assert pq == u.path + ['?'] + u.query;
      SplitFirstAt(u.path, '?', u.query);
    } else {
      assert pq == u.path;
    }
    if u.path != "" {
      assert AfterNetloc(u)[0] == u.path[0];
    } else if u.query != "" {
      assert AfterNetloc(u)[0] == '?';
    } else if u.fragment != "" {
      assert AfterNetloc(u)[0] == '#';
    }
  }

  /** Splitting the text `urlunsplit` produced gives back the same parts. */
  lemma {:induction false} UrlSplitOfUnsplit(u: SplitUrl)
    requires WellFormed(u) && u.netloc != ""
    ensures UrlSplit(UrlUnsplit(u)) == u
  {
    var rest := "//" + u.netloc + AfterNetloc(u);
    UnsplitShape(u);
    SplitSchemeOf(u.scheme, rest);
    FragmentAndQuery(u);
    SplitNetlocOf(u.netloc, AfterNetloc(u));
    UrlSplitSteps(UrlUnsplit(u), rest, AfterNetloc(u), PathAndQuery(u), u);
  }

  /** `parsed._replace(netloc=n).geturl()`, split again, differs from `parsed` in the network location only. */
  lemma {:induction false} ReplaceNetloc(url: string, n: string)
    requires UrlSplit(url).netloc != ""
    requires n != "" && forall j :: 0 <= j < |n| ==> !IsNetlocDelimiter(n[j])
    ensures UrlSplit(UrlUnsplit(UrlSplit(url).(netloc := n))) == UrlSplit(url).(netloc := n)
  {
    UrlSplitWellFormed(url);
    UrlSplitOfUnsplit(UrlSplit(url).(netloc := n));
  }

  // ---------------------------------------------------------------------------------------------
  // urlparse: the parameters of the last path segment

  /** The schemes for which `urlparse` takes parameters off the path (`urllib.parse.uses_params`). */
  const UsesParams: seq<string> :=
    ["", "ftp", "hdl", "prospero", "http", "imap", "https", "shttp", "rtsp", "rtsps", "rtspu",
     "sip", "sips", "mms", "sftp", "tel"]

  /** Where `_splitparams` starts looking for ';': at the last '/' of the path, or at 0 without one. */
  function LastSegmentStart(path: string): (r: nat)
    ensures r <= |path|
    ensures forall j :: r < j < |path| ==> path[j] != '/'
    ensures LastIndexOfChar(path, '/').Some? ==> r < |path| && path[r] == '/'
    ensures LastIndexOfChar(path, '/').None? ==> r == 0 && forall j :: 0 <= j < |path| ==> path[j] != '/'
  {
    match LastIndexOfChar(path, '/')
    case None => 0
    case Some(i) => i
  }

  /** The last segment of `path` holds no ';': there are no parameters to take off. */
  predicate NoParams(path: string) {
    forall j :: LastSegmentStart(path) <= j < |path| ==> path[j] != ';'
  }

  predicate NoSlash(s: string) {
    forall j :: 0 <= j < |s| ==> s[j] != '/'
  }

  /**
   * `_splitparams(path)`: the path before the first ';' of its last segment and the text after
   * that ';', or the whole path and "" when the last segment holds no ';'.
   */
  function SplitParams(path: string): (r: (string, string))
    ensures NoParams(r.0) && StartsWith(path, r.0)
    ensures NoParams(path) ==> r == (path, "")
    ensures !NoParams(path) ==> path == r.0 + ";" + r.1 && NoSlash(r.1)
  {
    var start := LastSegmentStart(path);
    match IndexOfChar(path[start..], ';')
    case None =>
      assert forall j :: start <= j < |path| ==> path[j] == path[start..][j - start];
      (path, "")
    case Some(i) =>
      assert forall j :: start <= j < start + i ==> path[j] == path[start..][j - start];
      CutAtParams(path, start, i);
      (path[..start + i], path[start + i + 1..])
  }

  /** Cutting a path at the first ';' after its last '/' leaves a path without parameters. */
  lemma {:induction false} CutAtParams(path: string, start: nat, i: nat)
    requires start == LastSegmentStart(path) && start + i < |path|
    requires path[start + i] == ';' && forall j :: start <= j < start + i ==> path[j] != ';'
    ensures var a := path[..start + i];
      && NoParams(a) && StartsWith(path, a) && !NoParams(path)
      && path == a + ";" + path[start + i + 1..] && NoSlash(path[start + i + 1..])
  {
    var a := path[..start + i];
    var t := path[start + i..];
    assert path == a + t;
    assert NoSlash(t) by {
      assert forall j :: 0 <= j < |t| ==> t[j] == path[start + i + j];
    }
    LastIndexOfCharAppend(a, t, '/');
    assert LastSegmentStart(a) == start;
    assert forall j :: start <= j < |a| ==> a[j] == path[j];
    assert path == a + ";" + path[start + i + 1..];
    assert path[..|a|] == a;
  }

  /** Characters without `c` after `a` do not move the last `c` of `a`. */
  lemma {:induction false} LastIndexOfCharAppend(a: string, t: string, c: char)
    requires forall j :: 0 <= j < |t| ==> t[j] != c
    ensures LastIndexOfChar(a + t, c) == LastIndexOfChar(a, c)
    decreases |t|
  {
    if t != [] {
      var x := a + t;
      assert x[|x| - 1] == t[|t| - 1] != c;
      assert LastIndexOfChar(x, c) == LastIndexOfChar(x[..|x| - 1], c);
      assert x[..|x| - 1] == a + t[..|t| - 1];
      LastIndexOfCharAppend(a, t[..|t| - 1], c);
    } else {
      assert a + t == a;
    }
  }

  /** A path without parameters, a ';' and a slash-free rest are split back into the path and the rest. */
  lemma {:induction false} SplitParamsOf(a: string, b: string)
    requires NoParams(a) && NoSlash(b)
    ensures SplitParams(a + ";" + b) == (a, b)
  {
    var x := a + ";" + b;
    assert x == a + (";" + b);
    LastIndexOfCharAppend(a, ";" + b, '/');
    assert LastIndexOfChar(x, '/') == LastIndexOfChar(a, '/');
    var start := LastSegmentStart(a);
    assert LastSegmentStart(x) == start;
    var pre := a[start..];
    assert x[start..] == pre + [';'] + b;
    IndexOfCharAfter(pre, ';', b);
    assert x[..start + |pre|] == a;
    assert x[start + |pre| + 1..] == b;
    assert !NoParams(x) by {
      assert x[|a|] == ';';
    }
  }

  /** In `pre + [c] + post` with no `c` in `pre`, the first `c` is right after `pre`. */
  lemma {:induction false} IndexOfCharAfter(pre: string, c: char, post: string)
    requires forall j :: 0 <= j < |pre| ==> pre[j] != c
    ensures IndexOfChar(pre + [c] + post, c) == Some(|pre|)
  {
    var s := pre + [c] + post;
    assert forall j :: 0 <= j < |pre| ==> s[j] == pre[j];
    assert s[|pre|] == c;
  }

  /**
   * `urlparse(url)` less its `params` field: the parts of `urlsplit`, with the parameters of the
   * last path segment taken off the path for the schemes that have them.
   */
  function UrlParse(url: string): (r: SplitUrl)
    ensures r == UrlSplit(url).(path := r.path)
    ensures StartsWith(UrlSplit(url).path, r.path)
    ensures UrlSplit(url).scheme in UsesParams ==> NoParams(r.path)
    ensures UrlSplit(url).scheme !in UsesParams ==> r.path == UrlSplit(url).path
  {
    var u := UrlSplit(url);
    if u.scheme in UsesParams then u.(path := SplitParams(u.path).0) else u
  }

  /** `urlparse(url).params`. */
  function UrlParams(url: string): (r: string)
    ensures NoSlash(r)
  {
    var u := UrlSplit(url);
    if u.scheme in UsesParams then SplitParams(u.path).1 else ""
  }

  /** `urlunparse(parts)`, what `geturl()` returns: the parameters go back after the path and a ';'. */
  function UrlUnparse(u: SplitUrl, params: string): string {
    UrlUnsplit(u.(path := if params != "" then u.path + ";" + params else u.path))
  }

  /**
   * For the schemes with parameters, a path whose last segment is `a`'s followed by `;b` is read
   * as the path `a` with the parameters `b`.
   */
  lemma {:induction false} UrlParseCutsParams(url: string, a: string, b: string)
    requires UrlSplit(url).scheme in UsesParams && UrlSplit(url).path == a + ";" + b
    requires NoParams(a) && NoSlash(b)
    ensures UrlParse(url).path == a && UrlParams(url) == b
  {
    SplitParamsOf(a, b);
  }

  /**
   * `urlparse(url)._replace(netloc=n).geturl()` parsed again differs from `urlparse(url)` in the
   * network location only.
   */
  lemma {:induction false} ReparseReplaced(url: string, n: string)
    requires UrlSplit(url).netloc != ""
    requires n != "" && forall j :: 0 <= j < |n| ==> !IsNetlocDelimiter(n[j])
    ensures var v := UrlUnparse(UrlParse(url).(netloc := n), UrlParams(url));
      UrlParse(v) == UrlParse(url).(netloc := n) && UrlParams(v) == UrlParams(url)
  {
    var u := UrlSplit(url);
    UrlSplitWellFormed(url);
    if u.scheme in UsesParams {
      var (a, b) := SplitParams(u.path);
      var p := if b != "" then a + ";" + b else a;
      assert p == u.path || u.path == p + ";" by {
        if !NoParams(u.path) {
          assert u.path == a + ";" + b;
        }
      }
      var w := u.(netloc := n, path := p);
      assert WellFormed(w) by {
        assert forall j :: 0 <= j < |p| ==> p[j] == u.path[j];
      }
      UrlSplitOfUnsplit(w);
      assert UrlUnparse(UrlParse(url).(netloc := n), UrlParams(url)) == UrlUnsplit(w);
      if b != "" {
        SplitParamsOf(a, b);
      }
    } else {
      ReplaceNetloc(url, n);
    }
  }

  // ---------------------------------------------------------------------------------------------
  // Query strings

  /** One `name=value` field of a query string, as `parse_qsl` keeps it, or none when dropped. */
  function QueryField(field: string): Option<(string, string)> {
    match IndexOfChar(field, '=')
    case None => None
    case Some(i) =>
      if i + 1 == |field| then None
      else Some((Replace(field[..i], "+", " "), Replace(field[i + 1..], "+", " ")))
  }

  function QueryFields(fields: seq<string>): seq<(string, string)> {
    if fields == [] then []
    else
      match QueryField(fields[0])
      case None => QueryFields(fields[1..])
      case Some(p) => [p] + QueryFields(fields[1..])
  }

  /** `parse_qsl(qs)`: the fields with a non-empty value, in order. */
  function ParseQsl(qs: string): seq<(string, string)> {
    QueryFields(Split(qs, '&'))
  }

  /** `parse_qs(qs).get(name, [None])[0]`: the first value given for `name`. */
  function FirstValue(pairs: seq<(string, string)>, name: string): (r: Option<string>)
    ensures r.Some? <==> exists k :: 0 <= k < |pairs| && pairs[k].0 == name
    ensures r.Some? ==> exists k :: 0 <= k < |pairs| && pairs[k] == (name, r.value) && NoneBefore(pairs, name, k)
  {
    if pairs == [] then None
    else if pairs[0].0 == name then Some(pairs[0].1)
    else
      var r := FirstValue(pairs[1..], name);
      assert forall k :: 1 <= k < |pairs| ==> pairs[k] == pairs[1..][k - 1];
      r
  }

  /** No pair before position `k` has the name `name`. */
  predicate NoneBefore(pairs: seq<(string, string)>, name: string, k: nat) {
    forall j :: 0 <= j < k && j < |pairs| ==> pairs[j].0 != name
  }

  lemma {:induction false} ReplaceWithoutOccurrence(s: string, c: char, rep: string)
    requires forall i :: 0 <= i < |s| ==> s[i] != c
    ensures Replace(s, [c], rep) == s
  {
    if s != [] {
      assert !StartsWith(s, [c]) by { assert s[..1] == [s[0]]; }
      ReplaceWithoutOccurrence(s[1..], c, rep);
    }
  }

  // ---------------------------------------------------------------------------------------------
  // File system paths (POSIX)

  /** `os.path.join(a, b)`. */
  function PathJoin(a: string, b: string): string {
    if StartsWith(b, "/") then b
    else if a == "" || EndsWith(a, "/") then a + b
    else a + "/" + b
  }

  /** `os.path.basename(p)`: the part after the last '/'. */
  function Basename(p: string): (r: string)
    ensures forall j :: 0 <= j < |r| ==> r[j] != '/'
    ensures EndsWith(p, r)
  {
    match LastIndexOfChar(p, '/')
    case None => p
    case Some(i) => p[i + 1..]
  }

  function TrimTrailingSlashes(s: string): (r: string)
    ensures |r| <= |s| && r == s[..|r|]
  {
    if s != [] && s[|s| - 1] == '/' then TrimTrailingSlashes(s[..|s| - 1]) else s
  }

  predicate AllSlashes(s: string) {
    forall j :: 0 <= j < |s| ==> s[j] == '/'
  }

  /** `os.path.dirname(p)`: the part before the last '/', trailing slashes removed unless it is all slashes. */
  function Dirname(p: string): string {
    var head := match LastIndexOfChar(p, '/') case None => "" case Some(i) => p[..i + 1];
    if head != "" && !AllSlashes(head) then TrimTrailingSlashes(head) else head
  }

  /** Joining a directory and a plain file name and taking them apart again gives back both. */
  lemma {:induction false} JoinThenSplit(dir: string, name: string)
    requires dir != "" && dir[|dir| - 1] != '/' && !AllSlashes(dir)
    requires forall j :: 0 <= j < |name| ==> name[j] != '/'
    ensures Dirname(PathJoin(dir, name)) == dir
    ensures Basename(PathJoin(dir, name)) == name
  {
    assert !StartsWith(name, "/") by { if name != [] { assert name[..1] == [name[0]]; } }
    var p := dir + "/" + name;
    assert PathJoin(dir, name) == p;
    assert LastIndexOfChar(p, '/') == Some(|dir|) by {
      var r := LastIndexOfChar(p, '/');
      assert p[|dir|] == '/';
      assert forall j :: |dir| < j < |p| ==> p[j] == name[j - |dir| - 1];
    }
    assert p[..|dir| + 1] == dir + "/";
    assert TrimTrailingSlashes(dir + "/") == dir by {
      assert (dir + "/")[..|dir|] == dir;
    }
    assert !AllSlashes(dir + "/") by {
      var j :| 0 <= j < |dir| && dir[j] != '/';
      assert (dir + "/")[j] == dir[j];
    }
    assert p[|dir| + 1..] == name;
  }
}

/**
 * The pure helpers of the application window: splitting a coomer/kemono path into service,
 * user and post (`extract_ck_parameters`), reading `q` and `o` from its query string
 * (`extract_ck_query`), the host rules `start_download` tries in order, the extension
 * classifier of `reorganize_files`, and the trimming of the log panel to its most recent lines.
 */
module UiParams {
  import opened Wrappers
  import opened Text
  import opened Urls

  // ---------------------------------------------------------------------------------------------
  // extract_ck_parameters: re.search of  /(?P<service>[^/?]+)(/user/(?P<user>[^/?]+)(/post/(?P<post>[^/?]+))?)?

  /** The character class `[^/?]`. */
  predicate IsSegmentChar(c: char) {
    c != '/' && c != '?'
  }

  /** What `[^/?]+` matches: a non-empty run of segment characters. */
  predicate IsSegment(s: string) {
    s != [] && forall i :: 0 <= i < |s| ==> IsSegmentChar(s[i])
  }

  /** The longest prefix of `s` made of segment characters; greedy `[^/?]+` takes exactly this. */
  function Segment(s: string): (r: string)
    ensures |r| <= |s| && r == s[..|r|]
    ensures forall i :: 0 <= i < |r| ==> IsSegmentChar(r[i])
    ensures |r| < |s| ==> !IsSegmentChar(s[|r|])
  {
    if s != [] && IsSegmentChar(s[0]) then [s[0]] + Segment(s[1..]) else []
  }

  /** A run of segment characters followed by the end or a non-segment character is the segment. */
  lemma {:induction false} SegmentOf(a: string, tail: string)
    requires forall i :: 0 <= i < |a| ==> IsSegmentChar(a[i])
    requires tail == [] || !IsSegmentChar(tail[0])
    ensures Segment(a + tail) == a
  {
    if a == [] {
      assert a + tail == tail;
    } else {
      assert (a + tail)[1..] == a[1..] + tail;
      SegmentOf(a[1..], tail);
    }
  }

  datatype CkParameters = CkParameters(service: Option<string>, user: Option<string>, post: Option<string>)

  const NoParameters := CkParameters(None, None, None)

  /** The post group after `/user/U`: `/post/P` when it matches, else nothing. */
  function WithUser(service: string, user: string, afterUser: string): (r: CkParameters)
    requires IsSegment(service) && IsSegment(user)
    ensures r.service == Some(service) && r.user == Some(user)
    ensures r.post.Some? ==> IsSegment(r.post.value)
  {
    if StartsWith(afterUser, "/post/") && Segment(afterUser[6..]) != [] then
      CkParameters(Some(service), Some(user), Some(Segment(afterUser[6..])))
    else CkParameters(Some(service), Some(user), None)
  }

  /** The user group after the service: `/user/U` and what may follow, when it matches. */
  function WithService(service: string, afterService: string): (r: CkParameters)
    requires IsSegment(service)
    ensures r.service == Some(service)
    ensures r.user.Some? ==> IsSegment(r.user.value)
    ensures r.post.Some? ==> r.user.Some? && IsSegment(r.post.value)
  {
    if StartsWith(afterService, "/user/") && Segment(afterService[6..]) != [] then
      var user := Segment(afterService[6..]);
      WithUser(service, user, afterService[6 + |user|..])
    else CkParameters(Some(service), None, None)
  }

  /**
   * The match of the pattern at the start of `s`: the greedy service segment, then the optional
   * `/user/` group and inside it the optional `/post/` group, each taken when it matches.
   */
  function MatchAt(s: string): (r: CkParameters)
    requires |s| >= 2 && s[0] == '/' && IsSegmentChar(s[1])
    ensures r.service.Some? && IsSegment(r.service.value)
    ensures r.user.Some? ==> IsSegment(r.user.value)
    ensures r.post.Some? ==> r.user.Some? && IsSegment(r.post.value)
  {
    var service := Segment(s[1..]);
    WithService(service, s[1 + |service|..])
  }

  lemma {:induction false} MatchAtOf(service: string, afterService: string)
    requires IsSegment(service)
    requires afterService == [] || !IsSegmentChar(afterService[0])
    ensures MatchAt("/" + service + afterService) == WithService(service, afterService)
  {
    var s := "/" + service + afterService;
    assert s[1..] == service + afterService;
    SegmentOf(service, afterService);
    assert s[1 + |service|..] == afterService;
  }

  lemma {:induction false} WithServiceOf(service: string, user: string, afterUser: string)
    requires IsSegment(service) && IsSegment(user)
    requires afterUser == [] || !IsSegmentChar(afterUser[0])
    ensures WithService(service, "/user/" + user + afterUser) == WithUser(service, user, afterUser)
  {
    var a := "/user/" + user + afterUser;
    assert a[..6] == "/user/";
    assert a[6..] == user + afterUser;
    SegmentOf(user, afterUser);
    assert a[6 + |user|..] == afterUser;
  }

  lemma {:induction false} WithUserOf(service: string, user: string, post: string, tail: string)
    requires IsSegment(service) && IsSegment(user) && IsSegment(post)
    requires tail == [] || !IsSegmentChar(tail[0])
    ensures WithUser(service, user, "/post/" + post + tail) == CkParameters(Some(service), Some(user), Some(post))
  {
    var a := "/post/" + post + tail;
    assert a[..6] == "/post/";
    assert a[6..] == post + tail;
    SegmentOf(post, tail);
  }

  /** Somewhere in `path` a '/' is followed by a segment character: where the pattern can start. */
  predicate HasSegmentStart(path: string) {
    exists i :: 0 <= i < |path| - 1 && path[i] == '/' && IsSegmentChar(path[i + 1])
  }

  /**
   * `extract_ck_parameters(parsed)` on `parsed.path`: the groups of the leftmost match, or no
   * parameters at all. The post group sits inside the user group, so a post implies a user.
   */
  function ExtractCkParameters(path: string): (r: CkParameters)
    ensures r.service.None? <==> !HasSegmentStart(path)
    ensures r.service.None? ==> r == NoParameters
    ensures r.user.Some? ==> r.service.Some?
    ensures r.post.Some? ==> r.user.Some?
    ensures r.service.Some? ==> IsSegment(r.service.value)
    ensures r.user.Some? ==> IsSegment(r.user.value)
    ensures r.post.Some? ==> IsSegment(r.post.value)
    decreases |path|
  {
    if |path| < 2 then NoParameters
    else if path[0] == '/' && IsSegmentChar(path[1]) then MatchAt(path)
    else
      var r := ExtractCkParameters(path[1..]);
      assert HasSegmentStart(path[1..]) ==> HasSegmentStart(path) by {
        if HasSegmentStart(path[1..]) {
          var i :| 0 <= i < |path[1..]| - 1 && path[1..][i] == '/' && IsSegmentChar(path[1..][i + 1]);
          assert path[i + 1] == '/' && IsSegmentChar(path[i + 2]);
        }
      }
      assert HasSegmentStart(path) ==> HasSegmentStart(path[1..]) by {
        if HasSegmentStart(path) {
          var i :| 0 <= i < |path| - 1 && path[i] == '/' && IsSegmentChar(path[i + 1]);
          assert i > 0;
          assert path[1..][i - 1] == '/' && IsSegmentChar(path[1..][i]);
        }
      }
      r
  }

  /** The single-post path `/S/user/U/post/P` yields its three parts. */
  lemma {:induction false} CkParametersOfPostPath(service: string, user: string, post: string, tail: string)
    requires IsSegment(service) && IsSegment(user) && IsSegment(post)
    requires tail == [] || !IsSegmentChar(tail[0])
    ensures ExtractCkParameters("/" + service + ("/user/" + user + ("/post/" + post + tail)))
            == CkParameters(Some(service), Some(user), Some(post))
  {
    var afterUser := "/post/" + post + tail;
    var afterService := "/user/" + user + afterUser;
    var path := "/" + service + afterService;
    assert path[0] == '/' && path[1] == service[0];
    WithUserOf(service, user, post, tail);
    WithServiceOf(service, user, afterUser);
    MatchAtOf(service, afterService);
  }

  /** A profile path `/S/user/U` not followed by `/post/` yields service and user and no post. */
  lemma {:induction false} CkParametersOfUserPath(service: string, user: string, tail: string)
    requires IsSegment(service) && IsSegment(user)
    requires tail == [] || !IsSegmentChar(tail[0])
    requires !StartsWith(tail, "/post/")
    ensures ExtractCkParameters("/" + service + ("/user/" + user + tail))
            == CkParameters(Some(service), Some(user), None)
  {
    var afterService := "/user/" + user + tail;
    var path := "/" + service + afterService;
    assert path[0] == '/' && path[1] == service[0];
    WithServiceOf(service, user, tail);
    MatchAtOf(service, afterService);
  }

  // ---------------------------------------------------------------------------------------------
  // extract_ck_query

  /**
   * `extract_ck_query(parsed)` on `parsed.query`: the first `q` value or none, and the first `o`
   * value as a number when it is all digits, 0 otherwise (absent, empty or signed).
   */
  function ExtractCkQuery(query: string): (r: (Option<string>, nat))
    ensures var pairs := ParseQsl(query);
      && (forall k :: FirstNamed(pairs, "q", k) ==> r.0 == Some(pairs[k].1))
      && ((forall k :: 0 <= k < |pairs| ==> pairs[k].0 != "q") ==> r.0 == None)
    ensures var pairs := ParseQsl(query);
      && (forall k :: FirstNamed(pairs, "o", k) ==> r.1 == (if AllDigits(pairs[k].1) then DecimalValue(pairs[k].1) else 0))
      && ((forall k :: 0 <= k < |pairs| ==> pairs[k].0 != "o") ==> r.1 == 0)
  {
    var pairs := ParseQsl(query);
    var q := FirstValue(pairs, "q");
    var o := FirstValue(pairs, "o");
    FirstNamedUnique(pairs, "q", q);
    FirstNamedUnique(pairs, "o", o);
    var digits := o.GetOr("0");
    assert AllDigits("0") && DecimalValue("0") == DecimalValue("") * 10 + 0;
    (q, if AllDigits(digits) then DecimalValue(digits) else 0)
  }

  /** Position `k` holds the first pair named `name`. */
  predicate FirstNamed(pairs: seq<(string, string)>, name: string, k: int) {
    0 <= k < |pairs| && pairs[k].0 == name && NoneBefore(pairs, name, k)
  }

  /** The first value of a name is the value of its first pair, wherever that is. */
  lemma {:induction false} FirstNamedUnique(pairs: seq<(string, string)>, name: string, v: Option<string>)
    requires v == FirstValue(pairs, name)
    ensures forall k :: FirstNamed(pairs, name, k) ==> v == Some(pairs[k].1)
  {
    forall k | FirstNamed(pairs, name, k)
      ensures v == Some(pairs[k].1)
    {
      var m :| 0 <= m < |pairs| && pairs[m] == (name, v.value) && NoneBefore(pairs, name, m);
      assert !(m < k) && !(k < m);
    }
  }

  /** A query value `parse_qs` hands back unchanged: non-empty, no separator, no `+`, no escape. */
  predicate PlainQueryValue(v: string) {
    v != [] && forall i :: 0 <= i < |v| ==> v[i] != '&' && v[i] != '+' && v[i] != '%'
  }

  /** `name=value` with a one-letter name is parsed as that pair. */
  lemma {:induction false} QueryFieldOf(name: char, value: string)
    requires name != '=' && name != '+'
    requires PlainQueryValue(value)
    ensures QueryField([name] + "=" + value) == Some(([name], value))
  {
    var f := [name] + "=" + value;
    assert f[0] == name && f[1] == '=';
    assert IndexOfChar(f, '=') == Some(1);
    assert f[..1] == [name] && f[2..] == value;
    ReplaceWithoutOccurrence([name], '+', " ");
    ReplaceWithoutOccurrence(value, '+', " ");
  }

  /** Two fields are parsed as two pairs, in order. */
  lemma {:induction false} ParseTwoFields(a: string, b: string, pa: (string, string), pb: (string, string))
    requires forall i :: 0 <= i < |a| ==> a[i] != '&'
    requires forall i :: 0 <= i < |b| ==> b[i] != '&'
    requires QueryField(a) == Some(pa) && QueryField(b) == Some(pb)
    ensures ParseQsl(a + "&" + b) == [pa, pb]
  {
    SplitAtSeparator(a, '&', b);
    SplitOfSeparatorFree(b, '&');
    assert Split(a + "&" + b, '&') == [a, b];
    assert [a, b][1..] == [b];
    assert QueryFields([b]) == [pb] + QueryFields([]);
    assert QueryFields([a, b]) == [pa] + QueryFields([b]);
  }

  /** A query `q=T&o=N` gives back `T` and `N`: the search text and offset a profile URL carries. */
  lemma {:induction false} CkQueryOfFields(text: string, n: nat)
    requires PlainQueryValue(text)
    ensures ExtractCkQuery("q=" + text + "&o=" + NatToString(n)) == (Some(text), n)
  {
    var digits := NatToString(n);
    assert PlainQueryValue(digits) by {
      assert forall i :: 0 <= i < |digits| ==> IsDigitChar(digits[i]);
    }
    QueryFieldOf('q', text);
    QueryFieldOf('o', digits);
    assert "q=" + text == ['q'] + "=" + text;
    assert "o=" + digits == ['o'] + "=" + digits;
    ParseTwoFields("q=" + text, "o=" + digits, ("q", text), ("o", digits));
    assert "q=" + text + "&o=" + digits == ("q=" + text) + "&" + ("o=" + digits);
    var pairs := [("q", text), ("o", digits)];
    assert pairs[1..] == [("o", digits)];
    assert FirstValue(pairs, "o") == Some(digits);
    DecimalValueOfNatToString(n);
  }

  /** A signed offset `o=-N` is not all digits and counts as offset 0. */
  lemma {:induction false} CkQueryNegativeOffset(text: string, n: nat)
    requires PlainQueryValue(text)
    ensures ExtractCkQuery("q=" + text + "&o=-" + NatToString(n)) == (Some(text), 0)
  {
    var value := "-" + NatToString(n);
    assert PlainQueryValue(value) by {
      assert forall i :: 1 <= i < |value| ==> IsDigitChar(value[i]);
    }
    QueryFieldOf('q', text);
    QueryFieldOf('o', value);
    assert "q=" + text == ['q'] + "=" + text;
    assert "o=" + value == ['o'] + "=" + value;
    ParseTwoFields("q=" + text, "o=" + value, ("q", text), ("o", value));
    assert "q=" + text + "&o=-" + NatToString(n) == ("q=" + text) + "&" + ("o=" + value);
    var pairs := [("q", text), ("o", value)];
    assert pairs[1..] == [("o", value)];
    assert FirstValue(pairs, "o") == Some(value);
    assert !AllDigits(value) by { assert !IsDigitChar(value[0]); }
  }

  /** Without an `o` field the offset is 0. */
  lemma {:induction false} CkQueryWithoutOffset(text: string)
    requires PlainQueryValue(text)
    ensures ExtractCkQuery("q=" + text) == (Some(text), 0)
  {
    QueryFieldOf('q', text);
    assert "q=" + text == ['q'] + "=" + text;
    SplitOfSeparatorFree("q=" + text, '&');
    assert QueryFields(["q=" + text]) == [("q", text)] + QueryFields([]);
    assert ParseQsl("q=" + text) == [("q", text)];
    assert AllDigits("0") && DecimalValue("0") == DecimalValue("") * 10 + 0;
  }

  // ---------------------------------------------------------------------------------------------
  // start_download: the host rules, tried in order

  /** The character class `[a-z0-9-]`. */
  predicate IsLabelChar(c: char) {
    IsAsciiLower(c) || IsDigitChar(c) || c == '-'
  }

  /** The length of the longest prefix of `t` made of label characters. */
  function LabelLength(t: string): (r: nat)
    ensures r <= |t|
    ensures forall j :: 0 <= j < r ==> IsLabelChar(t[j])
    ensures r < |t| ==> !IsLabelChar(t[r])
  {
    if t != [] && IsLabelChar(t[0]) then 1 + LabelLength(t[1..]) else 0
  }

  /** `name\.[a-z]{2,}` at the start of `t`. */
  predicate NameAndTld(t: string, name: string) {
    |name| + 3 <= |t| && t[..|name|] == name && t[|name|] == '.'
    && IsAsciiLower(t[|name| + 1]) && IsAsciiLower(t[|name| + 2])
  }

  /**
   * `([a-z0-9-]+\.)?name\.[a-z]{2,}` at the start of `t`. A label can only end at a '.', so the
   * optional group can only take the whole leading run; without it the name must start `t`.
   */
  predicate HostAt(t: string, name: string) {
    var l := LabelLength(t);
    (0 < l < |t| && t[l] == '.' && NameAndTld(t[l + 1..], name)) || NameAndTld(t, name)
  }

  /** `https?://` and then the host pattern, at the start of `s`. */
  predicate HostRuleAt(s: string, name: string) {
    if StartsWith(s, "https://") then HostAt(s[8..], name)
    else StartsWith(s, "http://") && HostAt(s[7..], name)
  }

  /** `re.search(r"https?://([a-z0-9-]+\.)?name\.[a-z]{2,}", s)`: the rule matches somewhere. */
  predicate SearchHostRule(s: string, name: string)
    decreases |s|
  {
    HostRuleAt(s, name) || (s != [] && SearchHostRule(s[1..], name))
  }

  /** A URL the rule matches holds the name followed by a dot. */
  lemma {:induction false} SearchHostRuleContains(s: string, name: string)
    ensures SearchHostRule(s, name) ==> Contains(s, name + ".")
    decreases |s|
  {
    if HostRuleAt(s, name) {
      HostRuleAtContains(s, name);
    } else if s != [] && SearchHostRule(s[1..], name) {
      SearchHostRuleContains(s[1..], name);
      ContainsInAppend([s[0]], s[1..], name + ".");
      assert [s[0]] + s[1..] == s;
    }
  }

  /** Where the host pattern matched, `name.` occurs. */
  lemma {:induction false} HostAtPosition(t: string, name: string) returns (p: nat)
    requires HostAt(t, name)
    ensures p + |name| + 1 <= |t| && t[p..p + |name| + 1] == name + "."
  {
    var l := LabelLength(t);
    p := if 0 < l < |t| && t[l] == '.' && NameAndTld(t[l + 1..], name) then l + 1 else 0;
    assert t[p..][..|name|] == name && t[p..][|name|] == '.';
    assert t[p..p + |name| + 1] == name + ".";
  }

  lemma {:induction false} HostRuleAtContains(s: string, name: string)
    requires HostRuleAt(s, name)
    ensures Contains(s, name + ".")
  {
    var k := if StartsWith(s, "https://") then 8 else 7;
    var p := HostAtPosition(s[k..], name);
    assert s[k..][p..p + |name| + 1] == s[k + p..k + p + |name| + 1];
    ContainsAt(s, name + ".", k + p);
  }

  datatype Route = EromeRoute | BunkrRoute | GeneralRoute | GofileRoute | PhicaRoute | SimpCityRoute | Jpg5Route | InvalidRoute

  /** The hosts `handle_general_download` serves, compared with the network location as given. */
  const GeneralSites: seq<string> := ["coomer.su", "kemono.su"]

  /** The handlers with a rule, in the order `start_download` tries the rules. */
  const RuledRoutes: seq<Route> := [EromeRoute, BunkrRoute, GeneralRoute, GofileRoute, PhicaRoute, SimpCityRoute, Jpg5Route]

  /** Whether the rule of the `i`-th handler of `RuledRoutes` holds for the URL. */
  predicate RuleHolds(url: string, i: nat) {
    match i
    case 0 => Contains(url, "erome.com")
    case 1 => SearchHostRule(url, "bunkr") || SearchHostRule(url, "bunkrr") || SearchHostRule(url, "bunkrrr")
    case 2 => UrlParse(url).netloc in GeneralSites
    case 3 => Contains(url, "gofile.io")
    case 4 => Contains(url, "phica.eu")
    case 5 => Contains(url, "simpcity.su")
    case 6 => Contains(url, "jpg5.su")
    case _ => false
  }

  /** None of the first `i` rules holds. */
  predicate NoRuleBefore(url: string, i: nat) {
    forall j :: 0 <= j < i ==> !RuleHolds(url, j)
  }

  /**
   * The handler `start_download` picks for a stripped URL: a handler is chosen exactly when its
   * rule holds and no earlier rule does, and "Invalid URL" exactly when no rule holds.
   */
  function ChooseRoute(url: string): (r: Route)
    ensures forall i :: 0 <= i < |RuledRoutes| ==> (r == RuledRoutes[i] <==> RuleHolds(url, i) && NoRuleBefore(url, i))
    ensures r == InvalidRoute <==> NoRuleBefore(url, |RuledRoutes|)
    ensures r == EromeRoute <==> Contains(url, "erome.com")
    ensures r == GeneralRoute ==> UrlParse(url).netloc in GeneralSites
  {
    RulesOf(url);
    LaterRulesOf(url);
    if Contains(url, "erome.com") then RouteOfFirstRule(url, 0); EromeRoute
    else if SearchHostRule(url, "bunkr") then RouteOfFirstRule(url, 1); BunkrRoute
    else if SearchHostRule(url, "bunkrr") then RouteOfFirstRule(url, 1); BunkrRoute
    else if SearchHostRule(url, "bunkrrr") then RouteOfFirstRule(url, 1); BunkrRoute
    else if UrlParse(url).netloc in GeneralSites then RouteOfFirstRule(url, 2); GeneralRoute
    else if Contains(url, "gofile.io") then RouteOfFirstRule(url, 3); GofileRoute
    else if Contains(url, "phica.eu") then RouteOfFirstRule(url, 4); PhicaRoute
    else if Contains(url, "simpcity.su") then RouteOfFirstRule(url, 5); SimpCityRoute
    else if Contains(url, "jpg5.su") then RouteOfFirstRule(url, 6); Jpg5Route
    else RouteOfFirstRule(url, 7); InvalidRoute
  }

  /** The first three rules, one by one. */
  lemma {:induction false} RulesOf(url: string)
    ensures RuleHolds(url, 0) == Contains(url, "erome.com")
    ensures RuleHolds(url, 1) == (SearchHostRule(url, "bunkr") || SearchHostRule(url, "bunkrr") || SearchHostRule(url, "bunkrrr"))
    ensures RuleHolds(url, 2) == (UrlParse(url).netloc in GeneralSites)
  {
  }

  /** The last four rules, one by one. */
  lemma {:induction false} LaterRulesOf(url: string)
    ensures RuleHolds(url, 3) == Contains(url, "gofile.io")
    ensures RuleHolds(url, 4) == Contains(url, "phica.eu")
    ensures RuleHolds(url, 5) == Contains(url, "simpcity.su")
    ensures RuleHolds(url, 6) == Contains(url, "jpg5.su")
  {
  }

  /**
   * When rule `k` is the first that holds (or none holds, `k` being the number of rules), the
   * handler of rule `k` is the one whose rule holds with no earlier rule holding.
   */
  lemma {:induction false} RouteOfFirstRule(url: string, k: nat)
    requires k <= |RuledRoutes| && NoRuleBefore(url, k)
    requires k < |RuledRoutes| ==> RuleHolds(url, k)
    ensures var r := if k < |RuledRoutes| then RuledRoutes[k] else InvalidRoute;
      && (forall i :: 0 <= i < |RuledRoutes| ==> (r == RuledRoutes[i] <==> RuleHolds(url, i) && NoRuleBefore(url, i)))
      && (r == InvalidRoute <==> NoRuleBefore(url, |RuledRoutes|))
  {
    assert forall i, j :: 0 <= i < j < |RuledRoutes| ==> RuledRoutes[i] != RuledRoutes[j];
    assert InvalidRoute !in RuledRoutes;
  }

  /** A URL no earlier rule claims, on a general host, goes to the general handler. */
  lemma {:induction false} ChooseGeneralRoute(url: string)
    requires !Contains(url, "erome.com")
    requires !SearchHostRule(url, "bunkr") && !SearchHostRule(url, "bunkrr") && !SearchHostRule(url, "bunkrrr")
    requires UrlParse(url).netloc in GeneralSites
    ensures ChooseRoute(url) == GeneralRoute
  {
  }

  /** The Bunkr host names the three Bunkr rules look for. */
  const BunkrNames: seq<string> := ["bunkr", "bunkrr", "bunkrrr"]

  /** `name.tld` and what follows, for a top-level domain starting with two letters. */
  lemma {:induction false} NameAndTldOf(name: string, tld: string, rest: string)
    requires |tld| >= 2 && IsAsciiLower(tld[0]) && IsAsciiLower(tld[1])
    ensures NameAndTld(name + "." + tld + rest, name)
  {
    var host := name + "." + tld + rest;
    assert host[..|name|] == name;
    assert host[|name|] == '.' && host[|name| + 1] == tld[0] && host[|name| + 2] == tld[1];
  }

  /** A rule that matches right after `https://` makes the search succeed. */
  lemma {:induction false} HttpsHostRule(t: string, name: string)
    requires HostAt(t, name)
    ensures SearchHostRule("https://" + t, name)
  {
    var url := "https://" + t;
    assert url[..8] == "https://" && url[8..] == t;
    assert HostRuleAt(url, name);
  }

  /** Any one of the three Bunkr rules sends a URL without erome.com to the Bunkr handler. */
  lemma {:induction false} BunkrRuleRoutesToBunkr(url: string, name: string)
    requires name in BunkrNames && SearchHostRule(url, name)
    requires !Contains(url, "erome.com")
    ensures ChooseRoute(url) == BunkrRoute
  {
  }

  /**
   * An `https://` URL whose host is a Bunkr name under a top-level domain of at least two letters
   * goes to the Bunkr handler unless it mentions erome.com.
   */
  lemma {:induction false} BunkrHostRoutesToBunkr(name: string, tld: string, rest: string)
    requires name in BunkrNames
    requires |tld| >= 2 && IsAsciiLower(tld[0]) && IsAsciiLower(tld[1])
    requires !Contains("https://" + (name + "." + tld + rest), "erome.com")
    ensures ChooseRoute("https://" + (name + "." + tld + rest)) == BunkrRoute
  {
    NameAndTldOf(name, tld, rest);
    HttpsHostRule(name + "." + tld + rest, name);
    BunkrRuleRoutesToBunkr("https://" + (name + "." + tld + rest), name);
  }

  /** The same holds for a sub-domain `sub.` in front of the Bunkr name. */
  lemma {:induction false} BunkrSubdomainRoutesToBunkr(sub: string, name: string, tld: string, rest: string)
    requires name in BunkrNames
    requires sub != [] && forall j :: 0 <= j < |sub| ==> IsLabelChar(sub[j])
    requires |tld| >= 2 && IsAsciiLower(tld[0]) && IsAsciiLower(tld[1])
    requires !Contains("https://" + (sub + "." + (name + "." + tld + rest)), "erome.com")
    ensures ChooseRoute("https://" + (sub + "." + (name + "." + tld + rest))) == BunkrRoute
  {
    var host := name + "." + tld + rest;
    var t := sub + "." + host;
    NameAndTldOf(name, tld, rest);
    LabelLengthOf(sub, "." + host);
    assert t == sub + ("." + host);
    assert t[|sub|] == '.' && t[|sub| + 1..] == host;
    assert HostAt(t, name);
    HttpsHostRule(t, name);
    BunkrRuleRoutesToBunkr("https://" + t, name);
  }

  /** A run of label characters followed by a non-label character is the leading label. */
  lemma {:induction false} LabelLengthOf(a: string, tail: string)
    requires forall j :: 0 <= j < |a| ==> IsLabelChar(a[j])
    requires tail == [] || !IsLabelChar(tail[0])
    ensures LabelLength(a + tail) == |a|
  {
    if a == [] {
      assert a + tail == tail;
    } else {
      assert (a + tail)[1..] == a[1..] + tail;
      LabelLengthOf(a[1..], tail);
    }
  }

  // ---------------------------------------------------------------------------------------------
  // reorganize_files: where each file goes

  const ImageExtensions: seq<string> := [".png", ".jpg", ".jpeg", ".gif", ".bmp", ".webp", ".tiff", ".tif", ".svg", ".heic", ".raw"]
  const VideoExtensions: seq<string> := [".mp4", ".avi", ".mkv", ".mov", ".wmv", ".flv", ".webm", ".mpeg", ".mpg", ".m4v", ".3gp", ".ogg"]

  predicate EndsWithAny(s: string, suffixes: seq<string>) {
    exists k :: 0 <= k < |suffixes| && EndsWith(s, suffixes[k])
  }

  datatype Destination = ImagesFolder | VideosFolder

  /** The sub-folder a file is moved into, by its lower-cased name; images are tested first, others stay. */
  function ReorganizeDestination(file: string): (r: Option<Destination>)
    ensures r == Some(ImagesFolder) ==> EndsWithAny(Lower(file), ImageExtensions)
    ensures r == Some(VideosFolder) ==> EndsWithAny(Lower(file), VideoExtensions)
    ensures r.None? ==> !EndsWithAny(Lower(file), ImageExtensions) && !EndsWithAny(Lower(file), VideoExtensions)
  {
    var name := Lower(file);
    if EndsWithAny(name, ImageExtensions) then Some(ImagesFolder)
    else if EndsWithAny(name, VideoExtensions) then Some(VideosFolder)
    else None
  }

  /** The folder name in the main folder for each destination. */
  function DestinationFolder(d: Destination): string {
    match d
    case ImagesFolder => "IMAGES"
    case VideosFolder => "VIDEOS"
  }

  /** An extension: a dot followed by letters and digits only. */
  predicate IsDotExtension(e: string) {
    |e| >= 2 && e[0] == '.' && forall j :: 1 <= j < |e| ==> IsAsciiAlnum(e[j])
  }

  /** Two such extensions that both end one name are the same extension. */
  lemma {:induction false} SameExtension(s: string, e: string, f: string)
    requires IsDotExtension(e) && IsDotExtension(f)
    requires EndsWith(s, e) && EndsWith(s, f)
    ensures e == f
  {
  }

  lemma {:induction false} ExtensionsAreDotted()
    ensures forall k :: 0 <= k < |ImageExtensions| ==> IsDotExtension(ImageExtensions[k])
    ensures forall k :: 0 <= k < |VideoExtensions| ==> IsDotExtension(VideoExtensions[k])
  {
  }

  /** Whatever its case, a name ending in an image extension goes to IMAGES. */
  lemma {:induction false} ImageFileGoesToImages(stem: string, ext: string)
    requires Lower(ext) in ImageExtensions
    ensures ReorganizeDestination(stem + ext) == Some(ImagesFolder)
  {
    var k :| 0 <= k < |ImageExtensions| && ImageExtensions[k] == Lower(ext);
    LowerAppend(stem, ext);
    assert Lower(stem + ext)[|Lower(stem + ext)| - |Lower(ext)|..] == Lower(ext);
  }

  /** No extension is on both lists. */
  lemma {:induction false} ExtensionListsDisjoint(i: nat, k: nat)
    requires i < |ImageExtensions| && k < |VideoExtensions|
    ensures ImageExtensions[i] != VideoExtensions[k]
  {
  }

  /** Whatever its case, a name ending in a video extension goes to VIDEOS: no image extension can end it too. */
  lemma {:induction false} VideoFileGoesToVideos(stem: string, ext: string)
    requires Lower(ext) in VideoExtensions
    ensures ReorganizeDestination(stem + ext) == Some(VideosFolder)
  {
    var k :| 0 <= k < |VideoExtensions| && VideoExtensions[k] == Lower(ext);
    var name := Lower(stem + ext);
    LowerAppend(stem, ext);
    assert EndsWith(name, VideoExtensions[k]) by {
      assert name[|name| - |Lower(ext)|..] == Lower(ext);
    }
    ExtensionsAreDotted();
    forall i | 0 <= i < |ImageExtensions|
      ensures !EndsWith(name, ImageExtensions[i])
    {
      if EndsWith(name, ImageExtensions[i]) {
        SameExtension(name, ImageExtensions[i], VideoExtensions[k]);
        ExtensionListsDisjoint(i, k);
      }
    }
  }

  /** A name without a dot is left where it is. */
  lemma {:induction false} NameWithoutDotStays(file: string)
    requires forall j :: 0 <= j < |file| ==> file[j] != '.'
    ensures ReorganizeDestination(file) == None
  {
    ExtensionsAreDotted();
  }

  // ---------------------------------------------------------------------------------------------
  // limit_log_lines: the log panel as the text `get("1.0", "end-1c")` returns

  const MaxLogLines: nat := 50

  /** `"\n".join(lines)`. */
  function Join(lines: seq<string>): string {
    if lines == [] then ""
    else if |lines| == 1 then lines[0]
    else lines[0] + "\n" + Join(lines[1..])
  }

  predicate NoNewline(s: string) {
    forall i :: 0 <= i < |s| ==> s[i] != '\n'
  }

  /** Joining lines without newlines and splitting the text again gives back the lines. */
  lemma {:induction false} SplitJoin(lines: seq<string>)
    requires lines != []
    requires forall k :: 0 <= k < |lines| ==> NoNewline(lines[k])
    ensures Split(Join(lines), '\n') == lines
  {
    if |lines| == 1 {
      SplitOfSeparatorFree(lines[0], '\n');
    } else {
      SplitJoin(lines[1..]);
      SplitAtSeparator(lines[0], '\n', Join(lines[1..]));
      assert Join(lines) == lines[0] + "\n" + Join(lines[1..]);
      assert [lines[0]] + lines[1..] == lines;
    }
  }

  /** Splitting a text and joining its pieces gives back the text. */
  lemma {:induction false} JoinSplit(s: string)
    ensures Join(Split(s, '\n')) == s
  {
    if s != [] {
      var rest := Split(s[1..], '\n');
      JoinSplit(s[1..]);
      if s[0] == '\n' {
        assert Split(s, '\n') == [""] + rest;
        assert ([""] + rest)[1..] == rest;
        assert Join([""] + rest) == "" + "\n" + Join(rest);
        assert s == [s[0]] + s[1..];
      } else {
        var first := [s[0]] + rest[0];
        assert Split(s, '\n') == [first] + rest[1..];
        if |rest| == 1 {
          assert Join(rest) == rest[0];
          assert s == [s[0]] + s[1..];
        } else {
          assert rest == [rest[0]] + rest[1..];
          assert Join(rest) == rest[0] + "\n" + Join(rest[1..]);
          assert ([first] + rest[1..])[1..] == rest[1..];
          assert s == [s[0]] + s[1..];
        }
      }
    }
  }

  /** Joining lines with one more last line puts it after a newline. */
  lemma {:induction false} JoinSnoc(lines: seq<string>, last: string)
    requires lines != []
    ensures Join(lines + [last]) == Join(lines) + "\n" + last
  {
    if |lines| == 1 {
      assert (lines + [last])[1..] == [last];
    } else {
      assert (lines + [last])[1..] == lines[1..] + [last];
      JoinSnoc(lines[1..], last);
    }
  }

  /** The log text is empty or ends with a newline, as every message is inserted with one. */
  predicate LineTerminated(text: string) {
    text == [] || text[|text| - 1] == '\n'
  }

  /** The lines the panel shows: the pieces of the text, without the empty piece after the last newline. */
  function DisplayedLines(text: string): seq<string> {
    var pieces := Split(text, '\n');
    pieces[..|pieces| - 1]
  }

  /** A text ending in a newline yields an empty last piece. */
  lemma {:induction false} SplitTerminated(s: string)
    requires s != [] && s[|s| - 1] == '\n'
    ensures |Split(s, '\n')| >= 2 && Split(s, '\n')[|Split(s, '\n')| - 1] == ""
  {
    if |s| > 1 {
      SplitTerminated(s[1..]);
    }
  }

  /** A non-empty line-terminated text is its displayed lines, joined, and a newline. */
  lemma {:induction false} TerminatedText(text: string)
    requires text != [] && text[|text| - 1] == '\n'
    ensures DisplayedLines(text) != []
    ensures text == Join(DisplayedLines(text)) + "\n"
    ensures Split(text, '\n') == DisplayedLines(text) + [""]
  {
    var pieces := Split(text, '\n');
    var front := pieces[..|pieces| - 1];
    SplitTerminated(text);
    JoinSplit(text);
    assert pieces == front + [""];
    JoinSnoc(front, "");
  }

  /** Lines without newlines, one more line and the empty last piece: splitting gives them back. */
  lemma {:induction false} SplitLinesAndMessage(front: seq<string>, message: string)
    requires forall k :: 0 <= k < |front| ==> NoNewline(front[k])
    requires NoNewline(message)
    ensures Split(Join(front + [message, ""]), '\n') == front + [message, ""]
  {
    var lines := front + [message, ""];
    forall k | 0 <= k < |lines| ensures NoNewline(lines[k]) {
      if k < |front| { assert lines[k] == front[k]; }
    }
    SplitJoin(lines);
  }

  /** Appending a message line adds exactly one displayed line, the message. */
  lemma {:induction false} AppendLine(text: string, message: string)
    requires LineTerminated(text) && NoNewline(message)
    ensures LineTerminated(text + message + "\n")
    ensures DisplayedLines(text + message + "\n") == DisplayedLines(text) + [message]
  {
    var t := text + message + "\n";
    assert t[|t| - 1] == '\n';
    var front: seq<string>;
    if text == [] {
      front := [];
      assert t == message + "\n";
      assert t == Join([message] + [""]) by { JoinSnoc([message], ""); }
      assert [message] + [""] == front + [message, ""];
      assert DisplayedLines(text) == [];
    } else {
      TerminatedText(text);
      front := DisplayedLines(text);
      PiecesHaveNoNewline(text);
      forall k | 0 <= k < |front| ensures NoNewline(front[k]) {
        assert front[k] == Split(text, '\n')[k];
      }
      JoinSnoc(front, message);
      JoinSnoc(front + [message], "");
      assert front + [message] + [""] == front + [message, ""];
      assert t == Join(front) + "\n" + message + "\n";
      assert t == Join(front + [message] + [""]);
    }
    assert t == Join(front + [message, ""]);
    SplitLinesAndMessage(front, message);
    assert (front + [message, ""])[..|front| + 1] == front + [message];
  }

  /**
   * `limit_log_lines`: with more than `MaxLogLines` pieces, `delete("1.0", f"{n - 50}.0")` removes
   * the first `n - 51` lines and keeps the last 51 pieces.
   */
  function LimitLogLines(text: string): string {
    var pieces := Split(text, '\n');
    if |pieces| > MaxLogLines then Join(pieces[|pieces| - (MaxLogLines + 1)..]) else text
  }

  /** Lines whose last one is empty join into a text ending in a newline. */
  lemma {:induction false} JoinTerminated(lines: seq<string>)
    requires |lines| >= 2 && lines[|lines| - 1] == ""
    ensures LineTerminated(Join(lines))
  {
    var front := lines[..|lines| - 1];
    assert lines == front + [""];
    JoinSnoc(front, "");
    var t := Join(front) + "\n" + "";
    assert t[|t| - 1] == '\n';
  }

  /** The pieces of a split hold no newline. */
  lemma {:induction false} PiecesHaveNoNewline(text: string)
    ensures forall k :: 0 <= k < |Split(text, '\n')| ==> NoNewline(Split(text, '\n')[k])
  {
  }

  /** The last pieces of some pieces without newlines, joined and split again, come back. */
  lemma {:induction false} SplitJoinSuffix(pieces: seq<string>, from: nat)
    requires from < |pieces|
    requires forall k :: 0 <= k < |pieces| ==> NoNewline(pieces[k])
    ensures Split(Join(pieces[from..]), '\n') == pieces[from..]
  {
    var kept := pieces[from..];
    forall k | 0 <= k < |kept| ensures NoNewline(kept[k]) {
      assert kept[k] == pieces[from + k];
    }
    SplitJoin(kept);
  }

  /** The last 51 pieces of a text with more than 50, joined again. */
  lemma {:induction false} KeptPieces(text: string) returns (kept: seq<string>)
    requires |Split(text, '\n')| > MaxLogLines
    ensures var before := Split(text, '\n');
            kept == before[|before| - (MaxLogLines + 1)..] && LimitLogLines(text) == Join(kept)
    ensures Split(Join(kept), '\n') == kept
  {
    var before := Split(text, '\n');
    kept := before[|before| - (MaxLogLines + 1)..];
    LimitLogLinesLong(text);
    KeptSplitJoin(before, |before| - (MaxLogLines + 1));
  }

  lemma {:induction false} LimitLogLinesLong(text: string)
    requires |Split(text, '\n')| > MaxLogLines
    ensures var before := Split(text, '\n');
            LimitLogLines(text) == Join(before[|before| - (MaxLogLines + 1)..])
  {
  }

  lemma {:induction false} KeptSplitJoin(before: seq<string>, from: nat)
    requires from < |before|
    requires forall k, i :: 0 <= k < |before| && 0 <= i < |before[k]| ==> before[k][i] != '\n'
    ensures Split(Join(before[from..]), '\n') == before[from..]
  {
    forall k | 0 <= k < |before| ensures NoNewline(before[k]) {
    }
    SplitJoinSuffix(before, from);
  }

  /** The trimmed text keeps at most 51 pieces, the last ones of the text. */
  lemma {:induction false} LimitLogLinesKeepsRecent(text: string)
    ensures var before := Split(text, '\n');
            var after := Split(LimitLogLines(text), '\n');
            |after| <= MaxLogLines + 1 && |after| <= |before| && after == before[|before| - |after|..]
  {
    var before := Split(text, '\n');
    if |before| > MaxLogLines {
      var kept := KeptPieces(text);
      assert Split(LimitLogLines(text), '\n') == kept;
    } else {
      assert LimitLogLines(text) == text;
      assert before[|before| - |before|..] == before;
    }
  }

  /** Trimming a text that ends with a newline leaves a text that ends with one. */
  lemma {:induction false} LimitLogLinesTerminated(text: string)
    requires LineTerminated(text)
    ensures LineTerminated(LimitLogLines(text))
  {
    var before := Split(text, '\n');
    if |before| > MaxLogLines {
      var kept := KeptPieces(text);
      SplitTerminated(text);
      assert kept[|kept| - 1] == before[|before| - 1];
      JoinTerminated(kept);
    }
  }

  /** After trimming, the panel shows at most 50 lines, and they are the most recent ones. */
  lemma {:induction false} LimitLogLinesShowsRecent(text: string)
    requires LineTerminated(text)
    ensures var before := DisplayedLines(text);
            var after := DisplayedLines(LimitLogLines(text));
            |after| <= MaxLogLines && |after| <= |before| && after == before[|before| - |after|..]
  {
    if |Split(text, '\n')| > MaxLogLines {
      LongLogShowsRecent(text);
    } else {
      ShortLogShowsAll(text);
    }
  }

  lemma {:induction false} LongLogShowsRecent(text: string)
    requires |Split(text, '\n')| > MaxLogLines
    ensures var before := DisplayedLines(text);
            var after := DisplayedLines(LimitLogLines(text));
            |after| <= MaxLogLines && |after| <= |before| && after == before[|before| - |after|..]
  {
    var p := Split(text, '\n');
    var kept := KeptPieces(text);
    DisplayedOf(text, p);
    DisplayedOf(LimitLogLines(text), kept);
    LastButOne(p, kept, MaxLogLines);
  }

  lemma {:induction false} ShortLogShowsAll(text: string)
    requires |Split(text, '\n')| <= MaxLogLines
    ensures var before := DisplayedLines(text);
            var after := DisplayedLines(LimitLogLines(text));
            |after| <= MaxLogLines && |after| <= |before| && after == before[|before| - |after|..]
  {
    assert LimitLogLines(text) == text;
    var d := DisplayedLines(text);
    assert d[|d| - |d|..] == d;
  }

  lemma {:induction false} DisplayedOf(text: string, pieces: seq<string>)
    requires Split(text, '\n') == pieces
    ensures DisplayedLines(text) == pieces[..|pieces| - 1]
  {
  }

  /** The first `n` of the last `n + 1` elements are the last `n` elements but the very last. */
  lemma {:induction false} LastButOne(p: seq<string>, kept: seq<string>, n: nat)
    requires n < |p| && kept == p[|p| - (n + 1)..]
    ensures var before := p[..|p| - 1];
            var after := kept[..n];
            |after| <= n && |after| <= |before| && after == before[|before| - |after|..]
  {
    assert kept[..n] == p[..|p| - 1][|p| - 1 - n..];
  }

}

/** How a REST request is made (src/core/rest_handler.cpp): the URL is taken apart, and header
    fields are set one after the other, names compared without regard to case. */
module RestRequest {
  import opened Outcomes
  import opened Strings

  // ----- URLs

  datatype Url = Url(host: string, port: string, target: string)

  const HTTP := "http://"
  const HTTPS := "https://"

  /** The scheme text a URL starts with; possibly none. */
  function Scheme(url: string): (scheme: string)
    ensures scheme <= url
  {
    if HTTP <= url then HTTP else if HTTPS <= url then HTTPS else ""
  }

  function DefaultPort(scheme: string): string {
    if scheme == HTTPS then "443" else "80"
  }

  /** Where the host and port end: at the first '/' after the scheme. */
  function HostEnd(url: string): (end: nat)
    ensures |Scheme(url)| <= end <= |url|
  {
    match FindChar(url, '/', |Scheme(url)|)
    case None => |url|
    case Some(i) => i
  }

  /** The host and port text. */
  function HostPort(url: string): string {
    url[|Scheme(url)|..HostEnd(url)]
  }

  function HostPart(hostPort: string): string {
    match FindChar(hostPort, ':', 0)
    case None => hostPort
    case Some(colon) => hostPort[..colon]
  }

  function PortPart(hostPort: string): Option<string> {
    match FindChar(hostPort, ':', 0)
    case None => None
    case Some(colon) => Some(hostPort[colon + 1..])
  }

  function Parse(url: string): Url {
    var port := PortPart(HostPort(url));
    Url(HostPart(HostPort(url)),
        if port.Some? then port.value else DefaultPort(Scheme(url)),
        if HostEnd(url) == |url| then "/" else url[HostEnd(url)..])
  }

  function Print(scheme: string, u: Url): string {
    scheme + u.host + ":" + u.port + u.target
  }

  lemma DefaultPorts()
    ensures DefaultPort("") == "80" && DefaultPort(HTTP) == "80" && DefaultPort(HTTPS) == "443"
    ensures |HTTP| == 7 && |HTTPS| == 8
  {
  }

  method ParseUrl(url: string) returns (host: string, port: string, target: string)
    ensures Url(host, port, target) == Parse(url)
  {
    host, port, target := "", "80", "/";
    var start := 0;
    if HTTP <= url {
      start := 7;
    } else if HTTPS <= url {
      start := 8;
      port := "443";
    }
    DefaultPorts();
    assert start == |Scheme(url)| && port == DefaultPort(Scheme(url));
    var pathStart := FindChar(url, '/', start);
    var hostPort := url[start..if pathStart.Some? then pathStart.value else |url|];
    var colonPos := FindChar(hostPort, ':', 0);
    if colonPos.Some? {
      host := hostPort[..colonPos.value];
      port := hostPort[colonPos.value + 1..];
    } else {
      host := hostPort;
    }
    if pathStart.Some? {
      target := url[pathStart.value..];
    }
  }

  /** A host without '/' and ':', a port without '/' and a target that starts with '/'. */
  predicate WellFormed(u: Url) {
    ':' !in u.host && '/' !in u.host && '/' !in u.port && u.target != "" && u.target[0] == '/'
  }

  lemma HostPortParts(hostPort: string)
    ensures var port := PortPart(hostPort);
            && hostPort == HostPart(hostPort) + (if port.Some? then ":" + port.value else "")
            && (port.Some? <==> ':' in hostPort)
            && ':' !in HostPart(hostPort)
            && ('/' !in hostPort ==> '/' !in HostPart(hostPort) && (port.Some? ==> '/' !in port.value))
  {
    var colon := FindChar(hostPort, ':', 0);
    if colon.Some? {
      assert hostPort == hostPort[..colon.value] + [hostPort[colon.value]] + hostPort[colon.value + 1..];
    }
  }

  lemma UrlParts(url: string)
    ensures '/' !in HostPort(url)
    ensures url == Scheme(url) + HostPort(url) + url[HostEnd(url)..]
    ensures HostEnd(url) < |url| ==> url[HostEnd(url)] == '/'
  {
  }

  /** Of every text the parts give back the text, up to a default port and a default target. */
  lemma PartsOfAnyText(url: string)
    ensures var u := Parse(url);
            && HostPort(url) == u.host + (if ':' in HostPort(url) then ":" + u.port else "")
            && url == Scheme(url) + HostPort(url) + (if HostEnd(url) < |url| then u.target else "")
    ensures ':' !in HostPort(url) ==> Parse(url).port == DefaultPort(Scheme(url))
    ensures HostEnd(url) == |url| ==> Parse(url).target == "/"
    ensures WellFormed(Parse(url))
  {
    UrlParts(url);
    HostPortParts(HostPort(url));
  }

  lemma PrintedParts(scheme: string, hostPort: string, target: string)
    requires '/' !in hostPort && target != "" && target[0] == '/'
    requires Scheme(scheme + hostPort + target) == scheme
    ensures var url := scheme + hostPort + target;
            HostPort(url) == hostPort && HostEnd(url) < |url| && url[HostEnd(url)..] == target
  {
    var url := scheme + hostPort + target;
    var end := |scheme| + |hostPort|;
    assert forall i | |scheme| <= i < end :: url[i] == hostPort[i - |scheme|];
    assert url[end] == '/';
    assert HostEnd(url) == end;
  }

  lemma ColonSplit(host: string, port: string)
    requires ':' !in host
    ensures HostPart(host + ":" + port) == host && PortPart(host + ":" + port) == Some(port)
  {
    var hostPort := host + ":" + port;
    assert forall i | 0 <= i < |host| :: hostPort[i] == host[i];
    assert hostPort[|host|] == ':';
    assert FindChar(hostPort, ':', 0) == Some(|host|);
  }

  /** Parsing what was printed from well-formed parts gives them back, provided the text shows
      that very scheme. */
  lemma ParsePrint(scheme: string, u: Url)
    requires WellFormed(u) && Scheme(Print(scheme, u)) == scheme
    ensures Parse(Print(scheme, u)) == u
  {
    var hostPort := u.host + ":" + u.port;
    assert Print(scheme, u) == scheme + hostPort + u.target;
    PrintedParts(scheme, hostPort, u.target);
    ColonSplit(u.host, u.port);
  }

  /** The host spells the word of a scheme and the rest reads "://". */
  predicate Spells(word: string, u: Url) {
    u.host == word && u.port == "" && |u.target| >= 2 && u.target[1] == '/'
  }

  /** Texts up to their first ':' and after it can be compared separately. */
  lemma ColonCut(a: string, x: string, b: string, y: string)
    requires ':' !in a && ':' !in b && a + (":" + x) <= b + (":" + y)
    ensures a == b && x <= y
  {
    var s, t := a + (":" + x), b + (":" + y);
    assert forall i | 0 <= i < |a| :: a[i] in a && t[i] == s[i] == a[i];
    assert forall i | 0 <= i < |b| :: b[i] in b && t[i] == b[i];
    assert t[|a|] == s[|a|] == ':' && t[|b|] == ':';
    assert |a| == |b|;
    assert s[|a| + 1..] == x && t[|b| + 1..] == y;
  }

  /** Two slashes can only come from the target. */
  lemma SlashesFirst(port: string, target: string)
    requires '/' !in port && target != "" && target[0] == '/'
    ensures "//" <= port + target <==> port == "" && |target| >= 2 && target[1] == '/'
  {
    var tail := port + target;
    if port == "" {
      assert tail == target;
    } else {
      assert tail[0] == port[0] && port[0] in port;
    }
  }

  lemma SpellsScheme(word: string, u: Url)
    requires WellFormed(u) && ':' !in word
    ensures word + "://" <= Print("", u) <==> Spells(word, u)
  {
    var tail := u.port + u.target;
    assert Print("", u) == u.host + (":" + tail);
    assert word + "://" == word + (":" + "//");
    SlashesFirst(u.port, u.target);
    if word + "://" <= Print("", u) {
      ColonCut(word, "//", u.host, tail);
    }
  }

  lemma GivenSchemeShows(scheme: string, u: Url)
    requires scheme == HTTP || scheme == HTTPS
    ensures Scheme(Print(scheme, u)) == scheme
  {
    assert Print(scheme, u)[..|scheme|] == scheme;
    assert HTTPS[4] != HTTP[4];
  }

  /** The printed text shows its scheme; without a scheme it does unless the host spells one. */
  lemma PrintedSchemeShows(scheme: string, u: Url)
    requires WellFormed(u) && scheme in {"", HTTP, HTTPS}
    ensures Scheme(Print(scheme, u)) == scheme <==>
            !(scheme == "" && (Spells("http", u) || Spells("https", u)))
  {
    if scheme == "" {
      SpellsScheme("http", u);
      SpellsScheme("https", u);
    } else {
      GivenSchemeShows(scheme, u);
    }
  }

  lemma TargetFits(url: string)
    ensures |Parse(url).target| == 1 || |Parse(url).target| <= |url| - |Scheme(url)|
  {
  }

  /** A host that spells a scheme is read as that scheme, and what follows as the host. */
  lemma SpelledSchemeLost(u: Url)
    requires WellFormed(u) && (Spells("http", u) || Spells("https", u))
    ensures |Parse(Print("", u)).target| != |u.target|
  {
    var url := Print("", u);
    TargetFits(url);
    SpellsScheme("http", u);
    SpellsScheme("https", u);
    assert |url| == |u.host| + 1 + |u.target|;
  }

  /** The round trip: well-formed parts are recovered from the text printed from them exactly when
      the text has a scheme or the host does not spell one. */
  lemma UrlRoundTrip(scheme: string, u: Url)
    requires WellFormed(u) && scheme in {"", HTTP, HTTPS}
    ensures Parse(Print(scheme, u)) == u <==>
            !(scheme == "" && (Spells("http", u) || Spells("https", u)))
  {
    PrintedSchemeShows(scheme, u);
    if Scheme(Print(scheme, u)) == scheme {
      ParsePrint(scheme, u);
    } else {
      SpelledSchemeLost(u);
    }
  }

  /** Parts that spell a scheme leave no default open: the text is printed as it was. */
  lemma SpelledPartsPrintAsIs(word: string, u: Url, hostPort: string, explicitTarget: bool)
    requires Spells(word, u)
    requires hostPort == u.host + (if ':' in hostPort then ":" + u.port else "")
    requires ':' !in hostPort ==> u.port == DefaultPort("")
    requires !explicitTarget ==> u.target == "/"
    ensures Print("", u) == hostPort + (if explicitTarget then u.target else "")
  {
    assert u.port != DefaultPort("");
    assert explicitTarget;
  }

  lemma PrintedAsUrl()
    ensures Print("", Url("http", "", "//x")) == "http://x"
  {
  }

  /** Parts that do not survive: the printed text "http://x" is read as the host "x". */
  lemma SpelledSchemeHappens()
    ensures var u := Url("http", "", "//x");
            WellFormed(u) && Print("", u) == "http://x" && Parse(Print("", u)) != u
  {
    var u := Url("http", "", "//x");
    UrlRoundTrip("", u);
    assert Spells("http", u);
    PrintedAsUrl();
  }

  /** Printing the parts of any text and parsing again changes nothing more. */
  lemma ParseIsStable(url: string)
    ensures Parse(Print(Scheme(url), Parse(url))) == Parse(url)
  {
    var scheme, u := Scheme(url), Parse(url);
    PartsOfAnyText(url);
    PrintedSchemeShows(scheme, u);
    forall word | scheme == "" && Spells(word, u)
      ensures Print(scheme, u) == url
    {
      SpelledPartsPrintAsIs(word, u, HostPort(url), HostEnd(url) < |url|);
    }
    ParsePrint(scheme, u);
  }

  // ----- header fields

  datatype Header = Header(name: string, value: string)

  datatype RequestConfig = RequestConfig(verb: string, url: string, headers: seq<Header>, body: string)

  function LowerChar(c: char): char {
    if 'A' <= c <= 'Z' then c + ('a' - 'A') else c
  }

  function Lower(s: string): string {
    seq(|s|, i requires 0 <= i < |s| => LowerChar(s[i]))
  }

  /** Field names are case-insensitive (section 5.1 of RFC 9110). */
  predicate SameName(a: string, b: string) {
    Lower(a) == Lower(b)
  }

  /** The two cases of one ASCII letter. */
  predicate CasesOf(upper: char, lower: char) {
    'A' <= upper <= 'Z' && lower as int == upper as int + 32
  }

  /** Two names are the same exactly if they are equally long and differ only in the case of letters. */
  lemma SameNameIff(a: string, b: string)
    ensures SameName(a, b) <==>
            && |a| == |b|
            && forall i | 0 <= i < |a| :: a[i] == b[i] || CasesOf(a[i], b[i]) || CasesOf(b[i], a[i])
  {
    if SameName(a, b) {
      assert |Lower(a)| == |a| && |Lower(b)| == |b|;
      forall i | 0 <= i < |a|
        ensures a[i] == b[i] || CasesOf(a[i], b[i]) || CasesOf(b[i], a[i])
      {
        assert Lower(a)[i] == LowerChar(a[i]) && Lower(b)[i] == LowerChar(b[i]);
      }
    }
  }

  function Without(fields: seq<Header>, name: string): seq<Header> {
    if fields == [] then []
    else if SameName(fields[0].name, name) then Without(fields[1..], name)
    else [fields[0]] + Without(fields[1..], name)
  }

  /** `req.set(name, value)`: every field of that name is replaced by the new one. */
  function SetField(fields: seq<Header>, h: Header): seq<Header> {
    Without(fields, h.name) + [h]
  }

  function SetAll(fields: seq<Header>, headers: seq<Header>): seq<Header> {
    if headers == [] then fields
    else SetField(SetAll(fields, headers[..|headers| - 1]), headers[|headers| - 1])
  }

  /** The value of the last entry of that name. */
  function LastValue(headers: seq<Header>, name: string): Option<string> {
    if headers == [] then None
    else if SameName(headers[|headers| - 1].name, name) then Some(headers[|headers| - 1].value)
    else LastValue(headers[..|headers| - 1], name)
  }

  function Matching(fields: seq<Header>, name: string): seq<Header> {
    if fields == [] then []
    else if SameName(fields[0].name, name) then [fields[0]] + Matching(fields[1..], name)
    else Matching(fields[1..], name)
  }

  const USER_AGENT := "FlowDriver/1.0"

  function Defaults(host: string): seq<Header> {
    [Header("Host", host), Header("User-Agent", USER_AGENT)]
  }

  lemma DefaultsSet(host: string)
    ensures SetAll([], Defaults(host)) ==
            SetField(SetField([], Header("Host", host)), Header("User-Agent", USER_AGENT))
  {
    var d := Defaults(host);
    assert d[..1] == [d[0]] && [d[0]][..0] == [];
    assert SetAll([], [d[0]]) == SetField(SetAll([], []), d[0]);
    assert SetAll([], d) == SetField(SetAll([], d[..1]), d[1]);
  }

  lemma SetAllStep(defaults: seq<Header>, headers: seq<Header>, i: nat)
    requires i < |headers|
    ensures SetAll([], defaults + headers[..i + 1]) == SetField(SetAll([], defaults + headers[..i]), headers[i])
  {
    var next := defaults + headers[..i + 1];
    assert next[..|next| - 1] == defaults + headers[..i];
    assert next[|next| - 1] == headers[i];
  }

  /** The header-setting part of the request: two defaults, then the configured headers in turn. */
  method SetHeaders(config: RequestConfig) returns (fields: seq<Header>)
    ensures fields == SetAll([], Defaults(Parse(config.url).host) + config.headers)
  {
    var host, port, target := ParseUrl(config.url);
    ghost var defaults := Defaults(host);
    fields := SetField([], Header("Host", host));
    fields := SetField(fields, Header("User-Agent", USER_AGENT));
    DefaultsSet(host);
    assert defaults + config.headers[..0] == defaults;
    for i := 0 to |config.headers|
      invariant fields == SetAll([], defaults + config.headers[..i])
    {
      SetAllStep(defaults, config.headers, i);
      fields := SetField(fields, config.headers[i]);
    }
    assert config.headers[..|config.headers|] == config.headers;
  }

  lemma HostNames()
    ensures SameName("Host", "host") && SameName("host", "Host")
    ensures !SameName("User-Agent", "host") && !SameName("User-Agent", "Host") && !SameName("Host", "User-Agent")
  {
    SameNameIff("Host", "host");
    SameNameIff("host", "Host");
    SameNameIff("User-Agent", "host");
    SameNameIff("User-Agent", "Host");
    SameNameIff("Host", "User-Agent");
  }

  /** A configured header in another case replaces the default one. */
  lemma HostReplaced()
    ensures SetAll([], Defaults("h") + [Header("host", "x")]) ==
            [Header("User-Agent", "FlowDriver/1.0"), Header("host", "x")]
    ensures Matching(SetAll([], Defaults("h") + [Header("host", "x")]), "Host") == [Header("host", "x")]
  {
    HostNames();
    var host, agent, own := Header("Host", "h"), Header("User-Agent", "FlowDriver/1.0"), Header("host", "x");
    assert Defaults("h") + [own][..0] == Defaults("h") && [own][..1] == [own];
    SetAllStep(Defaults("h"), [own], 0);
    DefaultsSet("h");
    assert SetField([], host) == [host];
    assert [host][1..] == [] && Without([host], "User-Agent") == [host];
    assert SetField([host], agent) == [host, agent];
    assert [host, agent][1..] == [agent] && [agent][1..] == [];
    assert Without([agent], "host") == [agent] && Without([host, agent], "host") == [agent];
    assert [agent, own][1..] == [own] && [own][1..] == [];
    assert Matching([own], "Host") == [own];
  }

  lemma {:induction false} MatchingAppend(a: seq<Header>, b: seq<Header>, name: string)
    ensures Matching(a + b, name) == Matching(a, name) + Matching(b, name)
  {
    if a == [] {
      assert a + b == b;
    } else {
      MatchingAppend(a[1..], b, name);
      assert (a + b)[0] == a[0] && (a + b)[1..] == a[1..] + b;
      if SameName(a[0].name, name) {
        var rest := Matching(a[1..], name);
        assert Matching(a + b, name) == [a[0]] + (rest + Matching(b, name));
        assert [a[0]] + (rest + Matching(b, name)) == [a[0]] + rest + Matching(b, name);
      } else {
        assert Matching(a + b, name) == Matching(a[1..] + b, name);
      }
    }
  }

  lemma {:induction false} MatchingWithout(fields: seq<Header>, removed: string, name: string)
    ensures Matching(Without(fields, removed), name) ==
            if SameName(removed, name) then [] else Matching(fields, name)
  {
    if fields == [] {
    } else {
      var rest := fields[1..];
      MatchingWithout(rest, removed, name);
      if !SameName(fields[0].name, removed) {
        assert Without(fields, removed)[1..] == Without(rest, removed);
      }
    }
  }

  /** After the loop, every field name has at most one field, whose value is that of the last
      entry of the name; a name without entry has none. */
  lemma {:induction false} LastEntryWins(headers: seq<Header>, name: string)
    ensures var found := Matching(SetAll([], headers), name);
            match LastValue(headers, name)
            case None => found == []
            case Some(value) => |found| == 1 && found[0].value == value
  {
    if headers == [] {
    } else {
      var front, last := headers[..|headers| - 1], headers[|headers| - 1];
      LastEntryWins(front, name);
      MatchingWithout(SetAll([], front), last.name, name);
      MatchingAppend(Without(SetAll([], front), last.name), [last], name);
      assert [last][1..] == [];
      assert Matching([last], name) == if SameName(last.name, name) then [last] else [];
    }
  }

  lemma {:induction false} LastValueAppend(a: seq<Header>, b: seq<Header>, name: string)
    ensures LastValue(a + b, name) == if LastValue(b, name).Some? then LastValue(b, name) else LastValue(a, name)
  {
    if b == [] {
      assert a + b == a;
    } else {
      LastValueAppend(a, b[..|b| - 1], name);
      assert (a + b)[..|a + b| - 1] == a + b[..|b| - 1];
    }
  }

  /** For every field name the request sent for user headers and then authentication headers holds
      the authentication entry if there is one, else the last user entry, else the default. */
  lemma FieldPrecedence(host: string, user: seq<Header>, auth: seq<Header>, name: string)
    ensures var found := Matching(SetAll([], Defaults(host) + (user + auth)), name);
            var wanted := if LastValue(auth, name).Some? then LastValue(auth, name)
                          else if LastValue(user, name).Some? then LastValue(user, name)
                          else LastValue(Defaults(host), name);
            && (wanted.None? ==> found == [])
            && (wanted.Some? ==> |found| == 1 && found[0].value == wanted.value)
  {
    LastEntryWins(Defaults(host) + (user + auth), name);
    LastValueAppend(Defaults(host), user + auth, name);
    LastValueAppend(user, auth, name);
  }
}

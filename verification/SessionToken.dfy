/** The session token of a Cookie header: a regular-expression search against a lookup by name. */
module SessionToken {
  import opened Options
  import opened JsText
  import opened Seqs

  const SESSION_TOKEN := "ory_session_token"

  // ---------------------------------------------------------------- the search

  /** `[^;]+`, greedy: everything up to the next semicolon. */
  function Capture(s: string): string {
    if s == "" || s[0] == ';' then "" else [s[0]] + Capture(s[1..])
  }

  /** A match that begins at the head of s. */
  function MatchHere(key: string, s: string): Option<string> {
    if StartsWith(s, key) && Capture(s[|key|..]) != "" then Some(Capture(s[|key|..])) else None
  }

  /** The leftmost match of `key([^;]+)` and its captured group. */
  function Search(key: string, s: string): Option<string> {
    if MatchHere(key, s).Some? then MatchHere(key, s)
    else if s == "" then None
    else Search(key, s[1..])
  }

  function ExtractSessionToken(cookieString: string): Option<string> {
    Search(SESSION_TOKEN + "=", cookieString)
  }

  lemma {:induction false} CaptureStops(t: string, rest: string)
    requires ';' !in t && (rest == "" || rest[0] == ';')
    ensures Capture(t + rest) == t
  {
    if t != "" {
      assert (t + rest)[1..] == t[1..] + rest;
      CaptureStops(t[1..], rest);
    }
  }

  /** The capture is the longest prefix without a semicolon. */
  lemma {:induction false} CaptureLongest(s: string)
    ensures ';' !in Capture(s) && Capture(s) <= s
    ensures |Capture(s)| < |s| ==> s[|Capture(s)|] == ';'
  {
    if s != "" && s[0] != ';' {
      CaptureLongest(s[1..]);
      assert s == [s[0]] + s[1..];
    }
  }

  /** The expression matches at place i of s with capture t, and at no earlier place. */
  predicate FirstMatchAt(key: string, s: string, t: string, i: nat) {
    && i <= |s| && MatchHere(key, s[i..]) == Some(t)
    && forall j :: 0 <= j < i ==> MatchHere(key, s[j..]).None?
  }

  lemma FirstMatchShifts(key: string, s: string, t: string, i: nat)
    requires s != "" && MatchHere(key, s).None?
    ensures FirstMatchAt(key, s, t, i + 1) <==> FirstMatchAt(key, s[1..], t, i)
  {
    assert s[0..] == s;
    assert forall j :: 0 <= j < |s| ==> s[1..][j..] == s[j + 1..];
    if FirstMatchAt(key, s[1..], t, i) {
      forall j | 0 <= j < i + 1 ensures MatchHere(key, s[j..]).None? {
        assert j > 0 ==> s[1..][j - 1..] == s[j..] && MatchHere(key, s[1..][j - 1..]).None?;
      }
    }
  }

  /** The search is the leftmost match: some place is the first to match, and with this capture. */
  lemma {:induction false} SearchIsLeftmost(key: string, s: string, t: string)
    ensures Search(key, s) == Some(t) <==> exists i: nat :: FirstMatchAt(key, s, t, i)
    decreases |s|
  {
    assert s[0..] == s;
    if MatchHere(key, s).Some? {
      assert Search(key, s) == Some(t) ==> FirstMatchAt(key, s, t, 0);
    } else if s != "" {
      SearchIsLeftmost(key, s[1..], t);
      if i: nat :| FirstMatchAt(key, s, t, i) {
        FirstMatchShifts(key, s, t, i - 1);
      }
      if i: nat :| FirstMatchAt(key, s[1..], t, i) {
        FirstMatchShifts(key, s, t, i);
      }
    }
  }

  lemma {:induction false} SearchFindsText(key: string, s: string)
    ensures Search(key, s).Some? ==> Search(key, s).value != "" && ';' !in Search(key, s).value
    decreases |s|
  {
    if MatchHere(key, s).Some? {
      CaptureLongest(s[|key|..]);
    } else if s != "" {
      SearchFindsText(key, s[1..]);
    }
  }

  // ---------------------------------------------------------------- headers

  datatype Cookie = Cookie(name: string, value: string)

  /** What section 4.1.1 of RFC 6265 grants a name and a value, as far as it matters here. */
  predicate WellFormed(c: Cookie) {
    '=' !in c.name && ';' !in c.name && ';' !in c.value
  }

  function Pair(c: Cookie): string {
    c.name + "=" + c.value
  }

  function Join(parts: seq<string>): string {
    if parts == [] then ""
    else if |parts| == 1 then parts[0]
    else parts[0] + ("; " + Join(parts[1..]))
  }

  /** A Cookie header: `name=value` pairs joined by `; ` (section 4.2.1 of RFC 6265). */
  function Render(cs: seq<Cookie>): string {
    Join(Map(Pair, cs))
  }

  predicate EndsWith(text: string, part: string) {
    |part| <= |text| && text[|text| - |part|..] == part
  }

  predicate IsKeyName(name: string) {
    name != "" && name[0] != ' ' && '=' !in name && ';' !in name
  }

  /** The key stands at place i of v with at least one character behind it. */
  predicate HasKeyAt(key: string, v: string, i: nat) {
    i + |key| < |v| && StartsWith(v[i..], key)
  }

  /** The first such place. */
  function KeyPlace(key: string, v: string): (place: Option<nat>)
    ensures place.Some? ==> HasKeyAt(key, v, place.value) && forall j: nat :: j < place.value ==> !HasKeyAt(key, v, j)
    ensures place.None? ==> forall j: nat :: !HasKeyAt(key, v, j)
  {
    assert v[0..] == v;
    if HasKeyAt(key, v, 0) then Some(0)
    else if v == "" then None
    else
      var later := KeyPlace(key, v[1..]);
      assert forall j: nat :: 1 <= j < |v| ==> v[1..][j - 1..] == v[j..];
      assert forall j: nat :: 1 <= j ==> (HasKeyAt(key, v, j) <==> HasKeyAt(key, v[1..], j - 1));
      if later.Some? then Some(later.value + 1) else None
  }

  /** In a text without semicolons the search captures everything behind the first such place. */
  lemma {:induction false} SearchInText(key: string, v: string)
    requires ';' !in v
    ensures Search(key, v)
         == match KeyPlace(key, v)
            case None => None
            case Some(i) => Some(v[i + |key|..])
    decreases |v|
  {
    assert v[0..] == v;
    if StartsWith(v, key) {
      CaptureStops(v[|key|..], "");
      assert v[|key|..] + "" == v[|key|..];
    }
    if v != "" {
      SearchInText(key, v[1..]);
      var later := KeyPlace(key, v[1..]);
      assert later.Some? ==> v[1..][later.value + |key|..] == v[later.value + 1 + |key|..];
    }
  }

  /** The key stands at the start of a pair exactly when the name is the key's, and then the value follows it. */
  lemma KeyAtPair(name: string, c: Cookie)
    requires IsKeyName(name) && WellFormed(c)
    ensures var key := name + "=";
            && (StartsWith(Pair(c), key) <==> c.name == name)
            && MatchHere(key, Pair(c)) == if c.name == name && c.value != "" then Some(c.value) else None
  {
    var key, text := name + "=", Pair(c);
    if StartsWith(text, key) {
      assert forall i :: 0 <= i < |key| ==> text[i] == key[i];
      assert text[|c.name|] == '=' && key[|name|] == '=';
      assert |c.name| == |name| && c.name == text[..|name|] == key[..|name|] == name;
      assert text[|key|..] == c.value + "";
      CaptureStops(c.value, "");
    } else {
      assert c.name != name;
    }
  }

  /** Within one pair a match starts at the end of the name or inside the value. */
  lemma {:induction false} SearchPair(name: string, c: Cookie)
    requires IsKeyName(name) && WellFormed(c)
    ensures Search(name + "=", Pair(c))
         == if EndsWith(c.name, name) then (if c.value != "" then Some(c.value) else None)
            else Search(name + "=", c.value)
    decreases |c.name|
  {
    KeyAtPair(name, c);
    if c.name == "" {
      assert Pair(c)[1..] == c.value;
    } else {
      var tail := Cookie(c.name[1..], c.value);
      assert Pair(c)[1..] == Pair(tail);
      SearchPair(name, tail);
      assert c.name != name ==> (EndsWith(tail.name, name) <==> EndsWith(c.name, name));
      if c.name == name && c.value == "" {
        SearchInText(name + "=", "");
      }
    }
  }

  /** No match reaches across `; `. */
  lemma {:induction false} SearchAcross(name: string, p: string, rest: string)
    requires IsKeyName(name) && ';' !in p
    ensures var key := name + "=";
            Search(key, p + ("; " + rest)) == if Search(key, p).Some? then Search(key, p) else Search(key, rest)
    decreases |p|
  {
    var key, sep := name + "=", "; " + rest;
    var text := p + sep;
    assert StartsWith(text, key) <==> StartsWith(p, key) by {
      if |key| <= |p| {
        assert text[..|key|] == p[..|key|];
      } else {
        assert text[|p|] == ';' && key[|p|] != ';';
      }
    }
    if StartsWith(p, key) {
      assert text[|key|..] == p[|key|..] + sep && p[|key|..] == p[|key|..] + "";
      CaptureStops(p[|key|..], sep);
      CaptureStops(p[|key|..], "");
    }
    if p == "" {
      assert text[1..] == " " + rest && (" " + rest)[1..] == rest;
      assert text[0] != key[0] && (" " + rest)[0] != key[0];
    } else {
      assert text[1..] == p[1..] + sep;
      SearchAcross(name, p[1..], rest);
    }
  }

  // ---------------------------------------------------------------- agreement with lookup

  /** The first non-empty value of the cookie with this name. */
  function Lookup(name: string, cs: seq<Cookie>): Option<string> {
    if cs == [] then None
    else if cs[0].name == name && cs[0].value != "" then Some(cs[0].value)
    else Lookup(name, cs[1..])
  }

  /** Another cookie in which the search nevertheless matches: by the end of its name, or inside its value. */
  predicate Misleading(name: string, c: Cookie) {
    if EndsWith(c.name, name) then c.name != name && c.value != "" else KeyPlace(name + "=", c.value).Some?
  }

  /** What is found there: the whole value, or the rest of it behind the first place that holds the key. */
  function MisleadingText(name: string, c: Cookie): string
    requires Misleading(name, c)
  {
    if EndsWith(c.name, name) then c.value else c.value[KeyPlace(name + "=", c.value).value + |name| + 1..]
  }

  /** One pair by itself: the token cookie yields its value, a misleading one its text, any other nothing. */
  lemma SearchCookie(name: string, c: Cookie)
    requires IsKeyName(name) && WellFormed(c)
    ensures Search(name + "=", Pair(c))
         == if c.name == name && c.value != "" then Some(c.value)
            else if Misleading(name, c) then Some(MisleadingText(name, c))
            else None
  {
    SearchPair(name, c);
    if !EndsWith(c.name, name) {
      SearchInText(name + "=", c.value);
    }
  }

  /** The first misleading cookie that stands before every non-empty cookie of the name itself. */
  function Misleader(name: string, cs: seq<Cookie>): (c: Option<Cookie>)
    ensures c.Some? ==> c.value in cs && Misleading(name, c.value)
  {
    if cs == [] || (cs[0].name == name && cs[0].value != "") then None
    else if Misleading(name, cs[0]) then Some(cs[0])
    else Misleader(name, cs[1..])
  }

  /** The search result on any header: the lookup, unless a misleading cookie comes first. */
  lemma {:induction false} SearchHeader(name: string, cs: seq<Cookie>)
    requires IsKeyName(name) && forall c :: c in cs ==> WellFormed(c)
    ensures Search(name + "=", Render(cs))
         == match Misleader(name, cs)
            case None => Lookup(name, cs)
            case Some(c) => Some(MisleadingText(name, c))
  {
    if cs == [] {
      SearchInText(name + "=", "");
    } else {
      assert Map(Pair, cs)[1..] == Map(Pair, cs[1..]);
      SearchCookie(name, cs[0]);
      if |cs| > 1 {
        SearchAcross(name, Pair(cs[0]), Render(cs[1..]));
        SearchHeader(name, cs[1..]);
      }
    }
  }

  /** The extractor agrees with the lookup exactly when no misleading cookie comes first or it holds the same text. */
  lemma ExtractAgreesWithLookup(cs: seq<Cookie>)
    requires forall c :: c in cs ==> WellFormed(c)
    ensures ExtractSessionToken(Render(cs)) == Lookup(SESSION_TOKEN, cs)
       <==> match Misleader(SESSION_TOKEN, cs)
            case None => true
            case Some(c) => Lookup(SESSION_TOKEN, cs) == Some(MisleadingText(SESSION_TOKEN, c))
  {
    SearchHeader(SESSION_TOKEN, cs);
  }

  /** On headers where nothing else mentions the token name in those two ways, extraction is the lookup. */
  lemma {:induction false} ExtractIsLookup(cs: seq<Cookie>)
    requires forall c :: c in cs ==> WellFormed(c)
    requires forall c :: c in cs && EndsWith(c.name, SESSION_TOKEN) ==> c.name == SESSION_TOKEN
    requires forall c :: c in cs ==> !Includes(c.value, SESSION_TOKEN + "=")
    ensures ExtractSessionToken(Render(cs)) == Lookup(SESSION_TOKEN, cs)
  {
    NothingMisleads(cs);
    SearchHeader(SESSION_TOKEN, cs);
  }

  lemma {:induction false} NothingMisleads(cs: seq<Cookie>)
    requires forall c :: c in cs && EndsWith(c.name, SESSION_TOKEN) ==> c.name == SESSION_TOKEN
    requires forall c :: c in cs ==> !Includes(c.value, SESSION_TOKEN + "=")
    ensures Misleader(SESSION_TOKEN, cs).None?
  {
    if cs != [] {
      NothingMisleads(cs[1..]);
      assert cs[0] in cs;
    }
  }

  /** Any longer cookie name that ends in the token name is taken for the token. */
  lemma LongerNameShadowsToken(prefix: string, value: string, token: string)
    requires prefix != "" && '=' !in prefix && ';' !in prefix
    requires value != "" && ';' !in value && token != "" && ';' !in token
    ensures var cs := [Cookie(prefix + SESSION_TOKEN, value), Cookie(SESSION_TOKEN, token)];
            && ExtractSessionToken(Render(cs)) == Some(value) && Lookup(SESSION_TOKEN, cs) == Some(token)
            && (token != value ==> ExtractSessionToken(Render(cs)) != Lookup(SESSION_TOKEN, cs))
  {
    var other := prefix + SESSION_TOKEN;
    assert other[|prefix|..] == SESSION_TOKEN && EndsWith(other, SESSION_TOKEN);
    assert |other| != |SESSION_TOKEN|;
    SearchHeader(SESSION_TOKEN, [Cookie(other, value), Cookie(SESSION_TOKEN, token)]);
  }

  /** So is the text behind the token name and an equals sign at the start of another cookie's value. */
  lemma ValueShadowsToken(name: string, inner: string, token: string)
    requires !EndsWith(name, SESSION_TOKEN) && '=' !in name && ';' !in name
    requires inner != "" && ';' !in inner && token != "" && ';' !in token
    ensures var cs := [Cookie(name, SESSION_TOKEN + "=" + inner), Cookie(SESSION_TOKEN, token)];
            && ExtractSessionToken(Render(cs)) == Some(inner) && Lookup(SESSION_TOKEN, cs) == Some(token)
            && (token != inner ==> ExtractSessionToken(Render(cs)) != Lookup(SESSION_TOKEN, cs))
  {
    var key := SESSION_TOKEN + "=";
    var value := key + inner;
    assert value[0..] == value && value[|key|..] == inner;
    assert HasKeyAt(key, value, 0);
    SearchHeader(SESSION_TOKEN, [Cookie(name, value), Cookie(SESSION_TOKEN, token)]);
  }

  // ---------------------------------------------------------------- writing the cookie

  const PATH := "/"
  const SAME_SITE := "Lax"

  /** The attributes that follow the pair. */
  function Attributes(domain: Option<string>, secure: bool): seq<string> {
    ["path=" + PATH, "SameSite=" + SAME_SITE]
    + (if domain.Some? && domain.value != "" then ["domain=" + domain.value] else [])
    + (if secure then ["Secure"] else [])
  }

  /** What is asked for besides the pair: the path, the same-site rule, a domain if there is one, and `Secure`. */
  predicate IsAttribute(part: string, domain: Option<string>, secure: bool) {
    || part == "path=/" || part == "SameSite=Lax"
    || (domain.Some? && domain.value != "" && part == "domain=" + domain.value)
    || (secure && part == "Secure")
  }

  lemma AttributesSay(domain: Option<string>, secure: bool)
    ensures forall part :: part in Attributes(domain, secure) <==> IsAttribute(part, domain, secure)
    ensures |Attributes(domain, secure)|
         == 2 + (if domain.GetOr("") != "" then 1 else 0) + if secure then 1 else 0
  {
    assert "path=" + PATH == "path=/" && "SameSite=" + SAME_SITE == "SameSite=Lax";
  }

  lemma {:induction false} JoinSnoc(parts: seq<string>, part: string)
    requires parts != []
    ensures Join(parts + [part]) == Join(parts) + ("; " + part)
  {
    assert (parts + [part])[1..] == parts[1..] + [part];
    if |parts| > 1 {
      JoinSnoc(parts[1..], part);
    }
  }

  /** Before any attributes, the pair alone decides what is read back. */
  lemma PairReadsBack(token: string, attributes: seq<string>)
    requires attributes != []
    ensures ExtractSessionToken(Join([Pair(Cookie(SESSION_TOKEN, token))] + attributes)) == Some(token)
       <==> token != "" && ';' !in token
  {
    var key, pair, rest := SESSION_TOKEN + "=", Pair(Cookie(SESSION_TOKEN, token)), "; " + Join(attributes);
    var cookie := Join([pair] + attributes);
    assert ([pair] + attributes)[1..] == attributes;
    assert cookie == key + (token + rest);
    assert cookie[|key|..] == token + rest;
    SearchFindsText(key, cookie);
    if token != "" && ';' !in token {
      CaptureStops(token, rest);
    }
  }

  /**
   * The text assigned to `document.cookie` is the pair and its attributes joined by `; `; reading it back gives
   * the token if and only if the token can be read.
   */
  method SessionTokenCookie(token: string, domain: Option<string>, secure: bool) returns (cookie: string)
    ensures cookie == Join([Pair(Cookie(SESSION_TOKEN, token))] + Attributes(domain, secure))
    ensures forall part :: part in Attributes(domain, secure) <==> IsAttribute(part, domain, secure)
    ensures |Attributes(domain, secure)|
         == 2 + (if domain.GetOr("") != "" then 1 else 0) + if secure then 1 else 0
    ensures ExtractSessionToken(cookie) == Some(token) <==> token != "" && ';' !in token
  {
    AttributesSay(domain, secure);
    ghost var parts := [Pair(Cookie(SESSION_TOKEN, token))];
    JoinSnoc(parts, "path=" + PATH);
    JoinSnoc(parts + ["path=" + PATH], "SameSite=" + SAME_SITE);
    parts := parts + ["path=" + PATH] + ["SameSite=" + SAME_SITE];
    cookie := SESSION_TOKEN + "=" + token + ("; " + ("path=" + PATH)) + ("; " + ("SameSite=" + SAME_SITE));
    if domain.Some? && domain.value != "" {
      JoinSnoc(parts, "domain=" + domain.value);
      parts := parts + ["domain=" + domain.value];
      cookie := cookie + ("; " + ("domain=" + domain.value));
    }
    if secure {
      JoinSnoc(parts, "Secure");
      parts := parts + ["Secure"];
      cookie := cookie + ("; " + "Secure");
    }
    assert parts == [Pair(Cookie(SESSION_TOKEN, token))] + Attributes(domain, secure);
    PairReadsBack(token, Attributes(domain, secure));
  }
}

// The page hook both browser extensions inject into wplace.live: it
// recognises the pixel POST to the backend, reads the challenge token,
// the fingerprint and the x-pawtect-token header from it, posts them to the
// extension, and blocks the request while the hook is enabled.  The Chrome
// and the Firefox scripts share every helper but `extractBodyFields` and
// the fingerprint they post.

module PageHook {
  import opened JsValues
  import opened JsStrings

  const Origin: string := "https://backend.wplace.live"
  const PixelPath: string := "/s0/pixel/"
  const PawtectHeader: string := "x-pawtect-token"

  // --- isTarget and extractWorldXY ----------------------------------------

  /** `isTarget(url)`; `None` stands for a value that is not a string. */
  predicate IsTarget(url: Option<string>)
  {
    url.Some? && StartsWith(url.value, Origin) && Includes(url.value, PixelPath)
  }

  lemma IsTargetMeaning(url: Option<string>)
    ensures IsTarget(url) <==> url.Some? && StartsWith(url.value, Origin) && exists k :: MatchAt(url.value, PixelPath, k)
  {
  }

  /** `\d` of a JavaScript regular expression. */
  predicate IsDigit(c: char) { '0' <= c <= '9' }

  predicate AllDigitChars(s: string) { forall i :: 0 <= i < |s| ==> IsDigit(s[i]) }

  /** The length of the run of digits that starts `s` (a greedy `\d*`). */
  function DigitRun(s: string): (n: nat)
    ensures n <= |s| && AllDigitChars(s[..n])
    ensures n < |s| ==> !IsDigit(s[n])
  {
    if s != [] && IsDigit(s[0]) then
      var n := 1 + DigitRun(s[1..]);
      assert forall i :: 1 <= i < n ==> s[..n][i] == s[1..][..n - 1][i - 1];
      n
    else 0
  }

  /** `/^(\d+)\/(\d+)/` matches the start of `rest` with groups `x` and `y`:
      the groups are digit runs around a slash, and the second is greedy. */
  predicate PixelMatch(rest: string, x: string, y: string)
  {
    x != [] && y != [] && AllDigitChars(x) && AllDigitChars(y)
    && StartsWith(rest, x + "/" + y)
    && (|x| + 1 + |y| == |rest| || !IsDigit(rest[|x| + 1 + |y|]))
  }

  /** The two groups of that match, if it matches. */
  function MatchGroups(rest: string): (r: Option<(string, string)>)
    ensures r.None? <==> forall x, y :: !PixelMatch(rest, x, y)
    ensures r.Some? ==> PixelMatch(rest, r.value.0, r.value.1)
    ensures forall x, y :: PixelMatch(rest, x, y) ==> r == Some((x, y))
  {
    var n := DigitRun(rest);
    if n == 0 || n == |rest| || rest[n] != '/' then
      assert forall x, y :: !PixelMatch(rest, x, y) by {
        forall x, y | PixelMatch(rest, x, y) ensures false {
          GroupsForced(rest, x, y);
        }
      }
      None
    else
      var tail := rest[n + 1..];
      var m := DigitRun(tail);
      if m == 0 then
        assert forall x, y :: !PixelMatch(rest, x, y) by {
          forall x, y | PixelMatch(rest, x, y) ensures false {
            GroupsForced(rest, x, y);
          }
        }
        None
      else
        var x, y := rest[..n], tail[..m];
        assert rest[..n + 1 + m] == x + "/" + y;
        assert n + 1 + m < |rest| ==> rest[n + 1 + m] == tail[m];
        assert PixelMatch(rest, x, y);
        assert forall x', y' :: PixelMatch(rest, x', y') ==> x' == x && y' == y by {
          forall x', y' | PixelMatch(rest, x', y') ensures x' == x && y' == y {
            GroupsForced(rest, x', y');
          }
        }
        Some((x, y))
  }

  /** A match fixes its groups: `x` is the whole leading digit run, `y` the
      whole digit run after the slash. */
  lemma GroupsForced(rest: string, x: string, y: string)
    requires PixelMatch(rest, x, y)
    ensures DigitRun(rest) == |x| && |x| < |rest| && rest[|x|] == '/'
    ensures x == rest[..|x|]
    ensures DigitRun(rest[|x| + 1..]) == |y| && y == rest[|x| + 1..][..|y|]
  {
    var w := x + "/" + y;
    assert rest[..|w|] == w;
    DigitRunOf(rest, |x|);
    var tail := rest[|x| + 1..];
    assert tail[..|y|] == y;
    DigitRunOf(tail, |y|);
  }

  lemma DigitRunOf(s: string, n: nat)
    requires n <= |s| && AllDigitChars(s[..n]) && (n < |s| ==> !IsDigit(s[n]))
    ensures DigitRun(s) == n
  {
    var m := DigitRun(s);
    forall i | 0 <= i < n ensures IsDigit(s[i]) { assert s[..n][i] == s[i]; }
    forall i | 0 <= i < m ensures IsDigit(s[i]) { assert s[..m][i] == s[i]; }
  }

  datatype WorldXY = WorldXY(x: Option<string>, y: Option<string>)

  /** The text after the first occurrence of the pixel path. */
  function AfterPixelPath(url: string): (r: string)
    requires Includes(url, PixelPath)
    ensures exists k :: MatchAt(url, PixelPath, k) && (forall j :: 0 <= j < k ==> !MatchAt(url, PixelPath, j))
                        && r == url[k + |PixelPath|..]
  {
    var k := IndexOf(url, PixelPath);
    SliceFrom(url, k + |PixelPath|)
  }

  /** `extractWorldXY(url)`: the two groups of the match after the first
      pixel path of a target URL, both `null` otherwise. */
  function ExtractWorldXY(url: Option<string>): WorldXY
  {
    if !IsTarget(url) then WorldXY(None, None)
    else
      match MatchGroups(AfterPixelPath(url.value))
      case None => WorldXY(None, None)
      case Some((x, y)) => WorldXY(Some(x), Some(y))
  }

  lemma WorldXYMeaning(url: Option<string>)
    ensures ExtractWorldXY(url).x.Some? <==> ExtractWorldXY(url).y.Some?
    ensures ExtractWorldXY(url).x.Some? ==>
              IsTarget(url) && PixelMatch(AfterPixelPath(url.value), ExtractWorldXY(url).x.value, ExtractWorldXY(url).y.value)
    ensures forall x, y :: IsTarget(url) && PixelMatch(AfterPixelPath(url.value), x, y) ==>
              ExtractWorldXY(url) == WorldXY(Some(x), Some(y))
  {
  }

  /** The first pixel path of an URL the backend origin begins is the one
      right after the origin. */
  lemma FirstPixelPath(rest: string)
    ensures IsTarget(Some(Origin + PixelPath + rest))
    ensures AfterPixelPath(Origin + PixelPath + rest) == rest
  {
    var u := Origin + PixelPath + rest;
    assert u[..|Origin|] == Origin;
    assert u[|Origin|..|Origin| + |PixelPath|] == PixelPath;
    assert MatchAt(u, PixelPath, |Origin|);
    forall j | 0 <= j < |Origin|
      ensures !MatchAt(u, PixelPath, j)
    {
      assert u[j] == Origin[j] && u[j + 1] == (Origin + PixelPath)[j + 1];
      assert !(Origin[j] == '/' && (Origin + PixelPath)[j + 1] == 's');
    }
    assert u[|Origin| + |PixelPath|..] == rest;
  }

  /** The world coordinates of a pixel URL whose tile is given as digits. */
  lemma WorldXYOfPixelUrl(x: string, y: string, tail: string)
    requires x != [] && y != [] && AllDigitChars(x) && AllDigitChars(y)
    requires tail == [] || !IsDigit(tail[0])
    ensures IsTarget(Some(Origin + PixelPath + x + "/" + y + tail))
    ensures ExtractWorldXY(Some(Origin + PixelPath + x + "/" + y + tail)) == WorldXY(Some(x), Some(y))
  {
    var rest := x + "/" + y + tail;
    assert Origin + PixelPath + x + "/" + y + tail == Origin + PixelPath + rest;
    FirstPixelPath(rest);
    assert rest[..|x| + 1 + |y|] == x + "/" + y;
    assert |x| + 1 + |y| < |rest| ==> rest[|x| + 1 + |y|] == tail[0];
    assert PixelMatch(rest, x, y);
  }

  // --- extractHeader ------------------------------------------------------

  /** What `extractHeader` may be handed as a header source. */
  datatype HeaderSource =
    | NoHeaders                                  // undefined, null or another falsy value
    | HeadersObject(entries: seq<(string, string)>)   // a `Headers` instance
    | HeaderList(items: seq<Json>)               // an array, meant to hold [name, value] pairs
    | HeaderRecord(members: seq<(string, Json)>) // a plain object, keys in enumeration order
    | HeaderScalar                               // a truthy string, number or boolean

  /** `Headers.get` for the lower-cased name: every matching value, joined
      by ", ", or `null`. */
  function Combined(es: seq<(string, string)>, lower: string): (r: Option<string>)
    ensures r.None? <==> forall i :: 0 <= i < |es| ==> Lower(es[i].0) != lower
  {
    if es == [] then None
    else
      var rest := Combined(es[1..], lower);
      assert forall i :: 1 <= i < |es| ==> es[1..][i - 1] == es[i];
      if Lower(es[0].0) == lower then Some(if rest.Some? then es[0].1 + ", " + rest.value else es[0].1)
      else rest
  }

  /** The array element at which the `for … of` loop returns: a pair whose
      truthy first element is a string with the name, or is not a string
      at all (its missing `toLowerCase` throws, and the catch returns null). */
  predicate Stops(h: Json, lower: string)
  {
    h.JArr? && |h.items| > 0 && Truthy(h.items[0]) && (!h.items[0].JStr? || Lower(h.items[0].s) == lower)
  }

  /** What the loop returns at such an element. */
  function StopValue(h: Json, lower: string): Option<Json>
    requires Stops(h, lower)
  {
    if !h.items[0].JStr? then None else if |h.items| > 1 then Some(h.items[1]) else None
  }

  function ListLookup(items: seq<Json>, lower: string): (r: Option<Json>)
    ensures (forall i :: 0 <= i < |items| ==> !Stops(items[i], lower)) ==> r.None?
    ensures forall i :: 0 <= i < |items| && Stops(items[i], lower) && (forall j :: 0 <= j < i ==> !Stops(items[j], lower))
                        ==> r == StopValue(items[i], lower)
  {
    if items == [] then None
    else if Stops(items[0], lower) then StopValue(items[0], lower)
    else
      assert forall i :: 1 <= i < |items| ==> items[1..][i - 1] == items[i];
      ListLookup(items[1..], lower)
  }

  function RecordLookup(ms: seq<(string, Json)>, lower: string): (r: Option<Json>)
    ensures r.None? <==> forall i :: 0 <= i < |ms| ==> ms[i].0 == "" || Lower(ms[i].0) != lower
    ensures forall i :: 0 <= i < |ms| && ms[i].0 != "" && Lower(ms[i].0) == lower
                          && (forall j :: 0 <= j < i ==> ms[j].0 == "" || Lower(ms[j].0) != lower)
                        ==> r == Some(ms[i].1)
  {
    if ms == [] then None
    else if ms[0].0 != "" && Lower(ms[0].0) == lower then Some(ms[0].1)
    else
      assert forall i :: 1 <= i < |ms| ==> ms[1..][i - 1] == ms[i];
      RecordLookup(ms[1..], lower)
  }

  /** What `extractHeader(headers, name)` returns (`None` for null). */
  function HeaderOf(h: HeaderSource, name: string): Option<Json>
  {
    if name == "" then None
    else
      var lower := Lower(name);
      match h
      case NoHeaders => None
      case HeadersObject(es) => (var v := Combined(es, lower); if v.Some? then Some(JStr(v.value)) else None)
      case HeaderList(items) => ListLookup(items, lower)
      case HeaderRecord(ms) => RecordLookup(ms, lower)
      case HeaderScalar => None
  }

  /** `extractHeader`: the lookups loop over the pairs or the keys and
      return at the first that matches. */
  method ExtractHeader(h: HeaderSource, name: string) returns (r: Option<Json>)
    ensures r == HeaderOf(h, name)
  {
    if name == "" {
      return None;
    }
    var lower := Lower(name);
    match h {
      case NoHeaders =>
        r := None;
      case HeadersObject(es) =>
        var v := Combined(es, lower);
        r := if v.Some? then Some(JStr(v.value)) else None;
      case HeaderList(items) =>
        var i := 0;
        while i < |items|
          invariant 0 <= i <= |items|
          invariant forall j :: 0 <= j < i ==> !Stops(items[j], lower)
        {
          if Stops(items[i], lower) {
            return StopValue(items[i], lower);
          }
          i := i + 1;
        }
        r := None;
      case HeaderRecord(ms) =>
        var i := 0;
        while i < |ms|
          invariant 0 <= i <= |ms|
          invariant forall j :: 0 <= j < i ==> ms[j].0 == "" || Lower(ms[j].0) != lower
        {
          if ms[i].0 != "" && Lower(ms[i].0) == lower {
            return Some(ms[i].1);
          }
          i := i + 1;
        }
        r := None;
      case HeaderScalar =>
        r := None;
    }
  }

  lemma {:induction false} LowerIdempotent(s: string)
    ensures Lower(Lower(s)) == Lower(s)
  {
    forall i | 0 <= i < |s|
      ensures Lower(Lower(s))[i] == Lower(s)[i]
    {
      assert Lower(s)[i] == LowerChar(s[i]);
    }
  }

  /** The lookup ignores the case of the name it is given. */
  lemma HeaderCaseInsensitive(h: HeaderSource, name: string)
    ensures HeaderOf(h, name) == HeaderOf(h, Lower(name))
  {
    LowerIdempotent(name);
    assert |Lower(name)| == |name|;
  }

  // --- extractBodyFields --------------------------------------------------

  /** A request body decoded to text, with what the host parsers make of
      that text: JSON.parse's value (`None` when it throws) and the pairs
      URLSearchParams reads from it. */
  datatype BodyText = BodyText(text: string, json: Option<Json>, query: seq<(string, string)>)

  const EmptyBody := BodyText("", None, [])

  /** `params.get(key)`: the first value under the key, or null. */
  function QueryGet(q: seq<(string, string)>, key: string): (r: Option<string>)
    ensures r.None? <==> forall i :: 0 <= i < |q| ==> q[i].0 != key
    ensures r.Some? ==> exists i :: 0 <= i < |q| && q[i] == (key, r.value) && forall j :: 0 <= j < i ==> q[j].0 != key
  {
    if q == [] then None
    else if q[0].0 == key then Some(q[0].1)
    else
      var r := QueryGet(q[1..], key);
      assert forall i :: 1 <= i < |q| ==> q[1..][i - 1] == q[i];
      if r.Some? then
        var i :| 0 <= i < |q[1..]| && q[1..][i] == (key, r.value) && forall j :: 0 <= j < i ==> q[1..][j].0 != key;
        assert q[i + 1] == (key, r.value);
        r
      else r
  }

  function QueryJson(v: Option<string>): Option<Json>
  {
    if v.Some? then Some(JStr(v.value)) else None
  }

  /** `obj.key` kept only when truthy. */
  function TruthyMember(o: Json, key: string): (r: Option<Json>)
    ensures r.Some? <==> Present(Get(o, key))
    ensures r.Some? ==> r == Get(o, key)
  {
    if Present(Get(o, key)) then Get(o, key) else None
  }

  predicate IsObject(v: Json) { v.JObj? || v.JArr? }

  datatype Fields = Fields(token: Option<Json>, fp: Option<Json>)

  /** `extractBodyFields` of the Chrome extension. */
  function ExtractBodyFields(b: BodyText): (r: Fields)
    ensures b.text == "" ==> r == Fields(None, None)
    ensures b.text != "" && b.json.Some? ==>
              r.token == (if IsObject(b.json.value) then TruthyMember(b.json.value, "t") else None)
              && r.fp == (if IsObject(b.json.value) then TruthyMember(b.json.value, "fp") else None)
    ensures b.text != "" && b.json.None? ==> r == Fields(QueryJson(QueryGet(b.query, "t")), QueryJson(QueryGet(b.query, "fp")))
  {
    if b.text == "" then Fields(None, None)
    else match b.json
      case Some(obj) =>
        if Truthy(obj) && IsObject(obj) then Fields(TruthyMember(obj, "t"), TruthyMember(obj, "fp"))
        else Fields(None, None)
      case None => Fields(QueryJson(QueryGet(b.query, "t")), QueryJson(QueryGet(b.query, "fp")))
  }

  /** `extractBodyFields` of the Firefox extension: the token alone. */
  function ExtractToken(b: BodyText): Option<Json>
  {
    if b.text == "" then None
    else match b.json
      case Some(obj) => if Truthy(obj) && IsObject(obj) && Present(Get(obj, "t")) then Get(obj, "t") else None
      case None => QueryJson(QueryGet(b.query, "t"))
  }

  /** The Firefox extension reads the same token as the Chrome one. */
  lemma TokenAgrees(b: BodyText)
    ensures ExtractToken(b) == ExtractBodyFields(b).token
  {
  }

  /** A token is only ever read from a truthy `t` member or a `t` parameter. */
  lemma TokenSource(b: BodyText)
    ensures ExtractToken(b).Some? ==>
              (b.json.Some? && ExtractToken(b) == Get(b.json.value, "t") && Truthy(ExtractToken(b).value))
              || (b.json.None? && exists i :: 0 <= i < |b.query| && b.query[i].0 == "t" && ExtractToken(b) == Some(JStr(b.query[i].1)))
  {
    if ExtractToken(b).Some? && b.json.None? {
      var v := QueryGet(b.query, "t");
      var i :| 0 <= i < |b.query| && b.query[i] == ("t", v.value) && forall j :: 0 <= j < i ==> b.query[j].0 != "t";
      assert b.query[i].0 == "t" && ExtractToken(b) == Some(JStr(b.query[i].1));
    }
  }

  // --- The interception state -------------------------------------------

  datatype Variant = Chrome | Firefox

  /** A `token_found` message posted to the extension. */
  datatype Posted = TokenFound(token: Json, xpaw: Option<Json>, fp: Option<Json>, worldX: Option<string>, worldY: Option<string>)

  /** What a hooked call does: answer 204 itself, hand the call to the
      browser's own function, or refuse a beacon (return false). */
  datatype Outcome = NoContent | Delegate | BeaconRefused

  /** The first argument of `fetch`: a URL string, or an object whose `url`
      is a string (a Request) or not (a URL object, say). */
  datatype FetchInput = FetchUrl(url: string) | FetchObject(objUrl: Option<string>, headers: HeaderSource)

  /** The second argument of `fetch`, when given. */
  datatype FetchInit = FetchInit(body: BodyText, headers: HeaderSource)

  function InputUrl(input: FetchInput): Option<string>
  {
    match input
    case FetchUrl(u) => Some(u)
    case FetchObject(u, _) => u
  }

  /** `(init && init.headers) || (input && input.headers)`. */
  function HeadersSource(input: FetchInput, init: Option<FetchInit>): HeaderSource
  {
    if init.Some? && init.value.headers != NoHeaders then init.value.headers
    else if input.FetchObject? then input.headers
    else NoHeaders
  }

  function InitBody(init: Option<FetchInit>): BodyText
  {
    if init.Some? then init.value.body else EmptyBody
  }

  /** A message of the toggle kind. */
  predicate IsToggle(d: Json)
  {
    Truthy(d) && Present(Get(d, "__wplace")) && Get(d, "type") == Some(JStr("toggle"))
  }

  /** An XMLHttpRequest; `xpaw` is its `__xpaw` field. */
  class Xhr {
    var xpaw: Option<Json>

    constructor()
      ensures xpaw == None
    {
      xpaw := None;
    }
  }

  predicate AllTruthy(ps: seq<Posted>)
  {
    forall i :: 0 <= i < |ps| ==> Truthy(ps[i].token)
  }

  lemma AllTruthyAppend(a: seq<Posted>, b: seq<Posted>)
    requires AllTruthy(b)
    ensures AllTruthy(a + b) <==> AllTruthy(a)
  {
    assert forall i :: 0 <= i < |a| ==> (a + b)[i] == a[i];
    assert forall i :: |a| <= i < |a + b| ==> (a + b)[i] == b[i - |a|];
  }

  class Hook {
    const variant: Variant
    var enabled: bool
    var lastUrl: Option<string>
    var posted: seq<Posted>

    /** Every message posted carries a truthy token. */
    predicate Valid()
      reads this
    {
      AllTruthy(posted)
    }

    constructor(v: Variant)
      ensures variant == v && enabled && lastUrl == None && posted == [] && Valid()
    {
      variant := v;
      enabled := true;
      lastUrl := None;
      posted := [];
    }

    /** The messages `postToken` sends for what the hook has read: one when
        the token is truthy, none otherwise.  The Chrome script posts the
        body's `fp`, the Firefox one the fingerprint `genFp` draws. */
    function TokenPost(fields: Fields, xy: WorldXY, xpaw: Option<Json>, fp: string): (r: seq<Posted>)
      reads this
      ensures |r| <= 1 && (|r| == 1 <==> Present(fields.token)) && AllTruthy(r)
      ensures |r| == 1 ==> r[0].token == fields.token.value && r[0].xpaw == xpaw
                           && r[0].worldX == xy.x && r[0].worldY == xy.y
                           && r[0].fp == (if variant == Chrome then fields.fp else Some(JStr(fp)))
    {
      if Present(fields.token) then
        [TokenFound(fields.token.value, xpaw, if variant == Chrome then fields.fp else Some(JStr(fp)), xy.x, xy.y)]
      else []
    }

    /** The fields each variant reads from a body. */
    function BodyFields(b: BodyText): (r: Fields)
      reads this
      ensures r.token == ExtractBodyFields(b).token
    {
      if variant == Chrome then ExtractBodyFields(b) else TokenAgrees(b); Fields(ExtractToken(b), None)
    }

    /** The `message` listener. */
    method OnMessage(d: Json)
      modifies this
      ensures old(Valid()) ==> Valid()
      ensures enabled == (if IsToggle(d) then Present(Get(d, "enabled")) else old(enabled))
      ensures lastUrl == old(lastUrl) && posted == old(posted)
    {
      if IsToggle(d) {
        enabled := Present(Get(d, "enabled"));
      }
    }

    /** What a hooked fetch posts. */
    function FetchPosts(input: FetchInput, init: Option<FetchInit>, fp: string): seq<Posted>
      reads this
    {
      if IsTarget(InputUrl(input)) && enabled
      then TokenPost(BodyFields(InitBody(init)), ExtractWorldXY(InputUrl(input)),
                     HeaderOf(HeadersSource(input, init), PawtectHeader), fp)
      else []
    }

    /** The `fetch` hook.  `fp` is the fingerprint `genFp` draws, which
        only the Firefox script posts. */
    method Fetch(input: FetchInput, init: Option<FetchInit>, fp: string) returns (r: Outcome)
      modifies this
      ensures old(Valid()) ==> Valid()
      ensures r == (if IsTarget(InputUrl(input)) && old(enabled) then NoContent else Delegate)
      ensures posted == old(posted) + old(FetchPosts(input, init, fp))
      ensures enabled == old(enabled) && lastUrl == old(lastUrl)
    {
      var url := InputUrl(input);
      var msgs := [];
      if IsTarget(url) {
        if enabled {
          var fields := BodyFields(InitBody(init));
          var xpaw := ExtractHeader(HeadersSource(input, init), PawtectHeader);
          var xy := ExtractWorldXY(url);
          msgs := TokenPost(fields, xy, xpaw, fp);
        }
      }
      assert msgs == FetchPosts(input, init, fp);
      AllTruthyAppend(posted, msgs);
      posted := posted + msgs;
      if IsTarget(url) && enabled {
        return NoContent;
      }
      return Delegate;
    }

    /** `XMLHttpRequest.prototype.open`. */
    method Open(x: Xhr, url: Option<string>)
      modifies this, x
      ensures lastUrl == url && x.xpaw == None
      ensures enabled == old(enabled) && posted == old(posted)
    {
      lastUrl := url;
      x.xpaw := None;
    }

    /** `XMLHttpRequest.prototype.setRequestHeader`: the pawtect header is
        remembered on the request, whatever the case of its name. */
    method SetRequestHeader(x: Xhr, name: string, value: Json)
      modifies x
      ensures x.xpaw == (if name != "" && Lower(name) == PawtectHeader then Some(value) else old(x.xpaw))
    {
      if name != "" && Lower(name) == PawtectHeader {
        x.xpaw := Some(value);
      }
    }

    /** What the callback of a hooked send posts. */
    function SendPosts(x: Xhr, body: BodyText, fp: string): seq<Posted>
      reads this, x
    {
      if IsTarget(lastUrl) && enabled
      then TokenPost(BodyFields(body), ExtractWorldXY(lastUrl),
                     if x.xpaw.Some? && Truthy(x.xpaw.value) then x.xpaw else None, fp)
      else []
    }

    /** `XMLHttpRequest.prototype.send`: never blocked.  The callback that
        reads the body runs here, at the time of the call. */
    method Send(x: Xhr, body: BodyText, fp: string) returns (r: Outcome)
      modifies this, x
      ensures old(Valid()) ==> Valid()
      ensures r == Delegate
      ensures posted == old(posted) + old(SendPosts(x, body, fp))
      ensures x.xpaw == (if IsTarget(old(lastUrl)) && old(enabled) then None else old(x.xpaw))
      ensures enabled == old(enabled) && lastUrl == old(lastUrl)
    {
      var msgs := [];
      if IsTarget(lastUrl) && enabled {
        var fields := BodyFields(body);
        var xy := ExtractWorldXY(lastUrl);
        var xpaw := if x.xpaw.Some? && Truthy(x.xpaw.value) then x.xpaw else None;
        msgs := TokenPost(fields, xy, xpaw, fp);
      }
      assert msgs == SendPosts(x, body, fp);
      if IsTarget(lastUrl) && enabled {
        x.xpaw := None;
      }
      AllTruthyAppend(posted, msgs);
      posted := posted + msgs;
      return Delegate;
    }

    /** What a hooked beacon posts. */
    function BeaconPosts(url: Option<string>, data: BodyText, fp: string): seq<Posted>
      reads this
    {
      if IsTarget(url) && enabled then TokenPost(BodyFields(data), ExtractWorldXY(url), None, fp) else []
    }

    /** The `navigator.sendBeacon` hook. */
    method SendBeacon(url: Option<string>, data: BodyText, fp: string) returns (r: Outcome)
      modifies this
      ensures old(Valid()) ==> Valid()
      ensures r == (if IsTarget(url) && old(enabled) then BeaconRefused else Delegate)
      ensures posted == old(posted) + old(BeaconPosts(url, data, fp))
      ensures enabled == old(enabled) && lastUrl == old(lastUrl)
    {
      var msgs := [];
      if IsTarget(url) {
        if enabled {
          var fields := BodyFields(data);
          var xy := ExtractWorldXY(url);
          msgs := TokenPost(fields, xy, None, fp);
        }
      }
      assert msgs == BeaconPosts(url, data, fp);
      AllTruthyAppend(posted, msgs);
      posted := posted + msgs;
      if IsTarget(url) && enabled {
        return BeaconRefused;
      }
      return Delegate;
    }
  }
}

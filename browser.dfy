// The automation browser's part of the server: the transform it applies to
// every wplace.live script it intercepts (the captcha callback is rerouted
// through `window.cf`, or a `window.sign` helper is planted after the
// `set_user_id` function), and the cell that holds the last challenge token
// the page handed to `cf`.

module Browser {
  import opened JsValues
  import opened JsStrings

  const CaptchaCallback: string := ".captcha={token:"
  const SetUserId: string := "set_user_id"

  /** What the regular expressions of the `set_user_id` branch extract from
      the script: the full header of the function that mentions
      `set_user_id`, and the names of the functions that mention
      `request_url` and `get_pawtected_endpoint_payload`.  `None` is a name
      no function supplied (the property stays undefined). */
  datatype FuncNames = FuncNames(setUserId: Option<string>, requestUrl: Option<string>, payload: Option<string>)

  /** A value that may be undefined, as a template literal or `replace`
      turns it into a string. */
  function Text(v: Option<string>): string
  {
    if v.Some? then v.value else "undefined"
  }

  /** Where the captcha segment ends: the next comma after the marker, or,
      with no comma, -1, which `slice` reads as one before the end. */
  function SegmentEnd(body: string, start: nat): (e: nat)
    requires start <= |body|
    ensures e <= |body|
    ensures (exists k :: start <= k < |body| && body[k] == ',') ==>
              start <= e < |body| && body[e] == ',' && forall k :: start <= k < e ==> body[k] != ','
    ensures (forall k :: start <= k < |body| ==> body[k] != ',') ==> e == (if body == [] then 0 else |body| - 1)
  {
    var c := IndexFrom(body, ",", start);
    CommaSearch(body, start);
    if c >= 0 then c else RelativeIndex(|body|, -1)
  }

  /** A one-character search pattern matches exactly where that character
      stands. */
  lemma CommaSearch(body: string, start: nat)
    requires start <= |body|
    ensures forall k :: start <= k < |body| ==> (MatchAt(body, ",", k) <==> body[k] == ',')
  {
    forall k | start <= k < |body|
      ensures MatchAt(body, ",", k) <==> body[k] == ','
    {
      assert body[k..k + 1] == [body[k]];
    }
  }

  /** The text the rewritten callback hands to `window.cf`: the segment's
      second `:`-separated field. */
  function TokenVar(searchValue: string): Option<string>
  {
    SplitSecond(searchValue, ':')
  }

  /** The segment the captcha branch replaces: from the marker's first
      occurrence up to the next comma. */
  function SearchValue(body: string): string
    requires Includes(body, CaptchaCallback)
  {
    var start := IndexOf(body, CaptchaCallback);
    Slice(body, start, IndexFrom(body, ",", start))
  }

  const CfPrefix: string := CaptchaCallback + "window.cf("

  /** The rewritten callback: the marker, then a `window.cf` call. */
  function CfCall(tokenVar: Option<string>): string
  {
    CfPrefix + (Text(tokenVar) + ")")
  }

  /** The text planted after the `set_user_id` header. */
  function SignHelper(names: FuncNames): string
  {
    "window.sign=(id,url,body)=>{m.set_user_id(id);" + Text(names.requestUrl) + "(url);return "
    + Text(names.payload) + "(JSON.stringify(body))};"
  }

  /** `modifyResponse` as written: both rewrites go through `replace` with
      a string replacement, so `$` patterns in the inserted text are
      expanded. */
  function ModifyResponse(url: string, body: string, names: FuncNames): string
  {
    if !EndsWith(url, ".js") then body
    else if Includes(body, CaptchaCallback) then
      Replace(body, SearchValue(body), CfCall(TokenVar(SearchValue(body))))
    else if Includes(body, SetUserId) then
      Replace(body, Text(names.setUserId), Text(names.setUserId) + SignHelper(names))
    else body
  }

  /** The same transform inserting its text literally, as the rewrite
      evidently intends. */
  function ModifyResponseLiteral(url: string, body: string, names: FuncNames): string
  {
    if !EndsWith(url, ".js") then body
    else if Includes(body, CaptchaCallback) then
      ReplaceLiteral(body, SearchValue(body), CfCall(TokenVar(SearchValue(body))))
    else if Includes(body, SetUserId) then
      ReplaceLiteral(body, Text(names.setUserId), Text(names.setUserId) + SignHelper(names))
    else body
  }

  // --- The properties of the transform -----------------------------------

  /** A script that is not a `.js` URL passes through unchanged. */
  lemma NotScriptUnchanged(url: string, body: string, names: FuncNames)
    requires !EndsWith(url, ".js")
    ensures ModifyResponseLiteral(url, body, names) == body
    ensures ModifyResponse(url, body, names) == body
  {
  }

  /** A script with neither marker passes through unchanged. */
  lemma NoMarkerUnchanged(url: string, body: string, names: FuncNames)
    requires !Includes(body, CaptchaCallback) && !Includes(body, SetUserId)
    ensures ModifyResponseLiteral(url, body, names) == body
    ensures ModifyResponse(url, body, names) == body
  {
  }

  lemma IndexOfIs(s: string, p: string, k: nat)
    requires MatchAt(s, p, k) && forall j :: 0 <= j < k ==> !MatchAt(s, p, j)
    ensures IndexOf(s, p) == k
  {
  }

  /** The first occurrence of a segment that starts with the marker is the
      first occurrence of the marker. */
  lemma SegmentFirst(body: string, start: nat, end: nat)
    requires start + |CaptchaCallback| <= end <= |body|
    requires IndexOf(body, CaptchaCallback) == start
    ensures IndexOf(body, body[start..end]) == start
  {
    var sv := body[start..end];
    assert MatchAt(body, sv, start);
    forall j | 0 <= j < start
      ensures !MatchAt(body, sv, j)
    {
      if MatchAt(body, sv, j) {
        assert body[j..j + |CaptchaCallback|] == sv[..|CaptchaCallback|] == CaptchaCallback;
        assert MatchAt(body, CaptchaCallback, j);
      }
    }
    IndexOfIs(body, sv, start);
  }

  /** The field `split(':')[1]` reads from a segment that starts with the
      marker: the text after the marker, up to its first colon. */
  lemma TokenVarOfSegment(sv: string)
    requires StartsWith(sv, CaptchaCallback)
    ensures TokenVar(sv) == Some(sv[|CaptchaCallback|..][..Find(sv[|CaptchaCallback|..], ':')])
  {
    var n := |CaptchaCallback|;
    assert sv[..n] == CaptchaCallback;
    assert forall k :: 0 <= k < n - 1 ==> sv[k] == CaptchaCallback[k] != ':';
    assert sv[n - 1] == ':';
    assert Find(sv, ':') == n - 1 by {
      FindAt(sv, ':', n - 1);
    }
    assert sv[n - 1 + 1..] == sv[n..];
  }

  lemma FindAt(s: string, c: char, k: nat)
    requires k < |s| && s[k] == c && forall j :: 0 <= j < k ==> s[j] != c
    ensures Find(s, c) == k
  {
  }

  /** The searched segment of a script with the marker: it runs from the
      marker's first occurrence to where the segment ends, it first occurs
      there, and its token variable is the text after the marker's colon
      up to the next colon. */
  lemma CaptchaSegment(body: string, start: nat, end: nat)
    requires Includes(body, CaptchaCallback)
    requires start == IndexOf(body, CaptchaCallback) && end == SegmentEnd(body, start)
    requires start + |CaptchaCallback| <= end
    ensures var v := body[start + |CaptchaCallback|..end];
            SearchValue(body) == body[start..end] && IndexOf(body, SearchValue(body)) == start
            && TokenVar(SearchValue(body)) == Some(v[..Find(v, ':')])
  {
    var sv := body[start..end];
    assert SearchValue(body) == sv;
    SegmentFirst(body, start, end);
    assert sv[..|CaptchaCallback|] == body[start..start + |CaptchaCallback|] == CaptchaCallback;
    TokenVarOfSegment(sv);
    assert sv[|CaptchaCallback|..] == body[start + |CaptchaCallback|..end];
  }

  lemma ReplaceLiteralAt(s: string, p: string, ins: string, k: nat)
    requires IndexOf(s, p) == k
    ensures k + |p| <= |s| && ReplaceLiteral(s, p, ins) == s[..k] + ins + s[k + |p|..]
  {
  }

  lemma ReplaceAt(s: string, p: string, rep: string, k: nat)
    requires IndexOf(s, p) == k
    ensures k + |p| <= |s| && Replace(s, p, rep) == s[..k] + Expand(rep, p, s[..k], s[k + |p|..]) + s[k + |p|..]
  {
  }

  lemma CaptchaLiteralShape(body: string, start: nat, end: nat, tv: string)
    requires Includes(body, CaptchaCallback)
    requires start == IndexOf(body, CaptchaCallback) && end == SegmentEnd(body, start)
    requires start + |CaptchaCallback| <= end
    requires tv == body[start + |CaptchaCallback|..end][..Find(body[start + |CaptchaCallback|..end], ':')]
    ensures ReplaceLiteral(body, SearchValue(body), CfCall(TokenVar(SearchValue(body))))
              == body[..start] + CfCall(Some(tv)) + body[end..]
  {
    var sv := SearchValue(body);
    CaptchaSegment(body, start, end);
    assert sv == body[start..end] && TokenVar(sv) == Some(tv);
    ReplaceLiteralAt(body, sv, CfCall(Some(tv)), start);
    assert start + |sv| == end;
  }

  /** The captcha rewrite, when the marker is followed by a segment: the
      segment from the marker up to the next comma (or up to the last
      character, with no comma) becomes the marker and a `window.cf` call
      on the text after the marker's colon, and nothing else changes. */
  lemma CaptchaRewrite(url: string, body: string, names: FuncNames)
    requires EndsWith(url, ".js") && Includes(body, CaptchaCallback)
    requires IndexOf(body, CaptchaCallback) + |CaptchaCallback| <= SegmentEnd(body, IndexOf(body, CaptchaCallback))
    ensures var start := IndexOf(body, CaptchaCallback);
            var end := SegmentEnd(body, start);
            var v := body[start + |CaptchaCallback|..end];
            ModifyResponseLiteral(url, body, names) == body[..start] + CfCall(Some(v[..Find(v, ':')])) + body[end..]
  {
    var start := IndexOf(body, CaptchaCallback);
    var end := SegmentEnd(body, start);
    var v := body[start + |CaptchaCallback|..end];
    CaptchaLiteralShape(body, start, end, v[..Find(v, ':')]);
  }

  lemma PrefixPlain()
    ensures '$' !in CfPrefix && ',' !in CaptchaCallback
  {
  }

  lemma CfCallPlain(tv: Option<string>)
    requires tv.Some? ==> '$' !in tv.value
    ensures '$' !in CfCall(tv)
  {
    PrefixPlain();
    assert '$' !in Text(tv) + ")";
  }

  /** The two agree whenever the text handed to `window.cf` holds no `$`. */
  lemma CaptchaRewritePlain(url: string, body: string, names: FuncNames)
    requires EndsWith(url, ".js") && Includes(body, CaptchaCallback)
    requires '$' !in SearchValue(body)
    ensures ModifyResponse(url, body, names) == ModifyResponseLiteral(url, body, names)
  {
    var sv := SearchValue(body);
    var tv := TokenVar(sv);
    if tv.Some? {
      assert tv.value <= sv[Find(sv, ':') + 1..];
      assert '$' !in tv.value by {
        forall i | 0 <= i < |tv.value| ensures tv.value[i] != '$' {
          assert tv.value[i] == sv[Find(sv, ':') + 1 + i];
        }
      }
    }
    CfCallPlain(tv);
    ReplacePlain(body, sv, CfCall(tv));
  }

  /** The captcha rewrite takes precedence: the names of the `set_user_id`
      branch play no part once the marker is there. */
  lemma CaptchaFirst(url: string, body: string, names: FuncNames, names': FuncNames)
    requires Includes(body, CaptchaCallback)
    ensures ModifyResponseLiteral(url, body, names) == ModifyResponseLiteral(url, body, names')
    ensures ModifyResponse(url, body, names) == ModifyResponse(url, body, names')
  {
  }

  /** The sign helper is planted right after the first occurrence of the
      `set_user_id` header, and nothing else changes. */
  lemma SignInjection(url: string, body: string, names: FuncNames)
    requires EndsWith(url, ".js") && !Includes(body, CaptchaCallback) && Includes(body, SetUserId)
    requires Includes(body, Text(names.setUserId))
    ensures var h := Text(names.setUserId);
            var k := IndexOf(body, h);
            0 <= k && k + |h| <= |body| && body[k..k + |h|] == h
            && ModifyResponseLiteral(url, body, names) == body[..k] + (h + SignHelper(names)) + body[k + |h|..]
  {
  }

  /** The `set_user_id` rewrite as written agrees with the literal one
      whenever the header and the planted helper hold no `$`. */
  lemma SignInjectionPlain(url: string, body: string, names: FuncNames)
    requires EndsWith(url, ".js") && !Includes(body, CaptchaCallback) && Includes(body, SetUserId)
    requires '$' !in Text(names.setUserId) + SignHelper(names)
    ensures ModifyResponse(url, body, names) == ModifyResponseLiteral(url, body, names)
  {
    ReplacePlain(body, Text(names.setUserId), Text(names.setUserId) + SignHelper(names));
  }

  // --- A discrepancy of the rewrite as written ---------------------------

  lemma {:induction false} ExpandPlainPrefix(a: string, b: string, matched: string, before: string, after: string)
    requires '$' !in a
    ensures Expand(a + b, matched, before, after) == a + Expand(b, matched, before, after)
  {
    if a != [] {
      var e := Expand(b, matched, before, after);
      assert (a + b)[0] == a[0] != '$' && (a + b)[1..] == a[1..] + b;
      assert '$' !in a[1..] by { assert forall i :: 0 <= i < |a[1..]| ==> a[1..][i] == a[i + 1]; }
      ExpandPlainPrefix(a[1..], b, matched, before, after);
      assert Expand(a + b, matched, before, after) == [a[0]] + Expand(a[1..] + b, matched, before, after);
      assert [a[0]] + (a[1..] + e) == ([a[0]] + a[1..]) + e;
      assert [a[0]] + a[1..] == a;
    } else {
      assert a + b == b;
    }
  }

  lemma IndexFromChar(s: string, c: char, from: nat, k: nat)
    requires from <= k < |s| && s[k] == c && forall j :: from <= j < k ==> s[j] != c
    ensures IndexFrom(s, [c], from) == k
  {
    assert MatchAt(s, [c], k) by { assert s[k..k + 1] == [c]; }
    forall j | from <= j < k
      ensures !MatchAt(s, [c], j)
    {
      assert s[j] != c;
    }
  }

  /** A script whose marker is followed by the token variable `$$` (a valid
      JavaScript identifier) and a comma. */
  lemma DollarShape(body: string, rest: string)
    requires body == CaptchaCallback + "$$" + ("," + rest)
    ensures Includes(body, CaptchaCallback) && IndexOf(body, CaptchaCallback) == 0
    ensures SegmentEnd(body, 0) == |CaptchaCallback| + 2
    ensures body[|CaptchaCallback|..|CaptchaCallback| + 2] == "$$" && body[|CaptchaCallback| + 2..] == "," + rest
  {
    var n := |CaptchaCallback|;
    assert body[..n] == CaptchaCallback;
    assert MatchAt(body, CaptchaCallback, 0);
    IndexOfIs(body, CaptchaCallback, 0);
    PrefixPlain();
    assert body[n + 2] == ',';
    forall j | 0 <= j < n + 2
      ensures body[j] != ','
    {
      if j < n {
        assert body[j] == CaptchaCallback[j];
      }
    }
    IndexFromChar(body, ',', 0, n + 2);
    assert [','] == ",";
    assert body[n..n + 2] == "$$";
  }

  lemma DollarTokenVar(body: string, rest: string)
    requires body == CaptchaCallback + "$$" + ("," + rest)
    ensures Includes(body, CaptchaCallback)
    ensures IndexOf(body, SearchValue(body)) == 0 && |SearchValue(body)| == |CaptchaCallback| + 2
    ensures TokenVar(SearchValue(body)) == Some("$$")
  {
    var n := |CaptchaCallback|;
    DollarShape(body, rest);
    var v := body[n..n + 2];
    assert Find(v, ':') == 2 by {
      assert v[0] == '$' && v[1] == '$';
    }
    CaptchaSegment(body, 0, n + 2);
    assert v[..2] == v;
  }

  /** The literal rewrite hands the token variable `$$` to `window.cf`
      unchanged. */
  lemma DollarTokenKept(url: string, body: string, rest: string, names: FuncNames)
    requires EndsWith(url, ".js") && body == CaptchaCallback + "$$" + ("," + rest)
    ensures ModifyResponseLiteral(url, body, names) == CfCall(Some("$$")) + ("," + rest)
  {
    var n := |CaptchaCallback|;
    DollarShape(body, rest);
    DollarTokenVar(body, rest);
    var sv := SearchValue(body);
    var before, after := body[..0], body[0 + |sv|..];
    ReplaceLiteralAt(body, sv, CfCall(TokenVar(sv)), 0);
    assert ModifyResponseLiteral(url, body, names) == before + CfCall(Some("$$")) + after;
    Glue(before, CfCall(Some("$$")), after, rest);
  }

  /** As written, `replace` reads the `$$` of the token variable as an
      escaped `$`, and `window.cf` is handed the undefined variable `$`. */
  lemma DollarTokenLost(url: string, body: string, rest: string, names: FuncNames)
    requires EndsWith(url, ".js") && body == CaptchaCallback + "$$" + ("," + rest)
    ensures ModifyResponse(url, body, names) == CfCall(Some("$")) + ("," + rest)
  {
    var n := |CaptchaCallback|;
    DollarShape(body, rest);
    DollarTokenVar(body, rest);
    var sv := SearchValue(body);
    var before, after := body[..0], body[0 + |sv|..];
    ReplaceAt(body, sv, CfCall(TokenVar(sv)), 0);
    assert ModifyResponse(url, body, names) == before + Expand(CfCall(Some("$$")), sv, before, after) + after;
    PrefixPlain();
    ExpandPlainPrefix(CfPrefix, "$$" + ")", sv, before, after);
    assert Expand("$$" + ")", sv, before, after) == "$" + ")" by {
      assert ("$$" + ")")[2..] == ")";
      assert Expand(")", sv, before, after) == ")";
    }
    assert Expand(CfCall(Some("$$")), sv, before, after) == CfCall(Some("$"));
    Glue(before, CfCall(Some("$")), after, rest);
  }

  lemma Glue(before: string, x: string, after: string, rest: string)
    requires before == [] && after == "," + rest
    ensures before + x + after == x + ("," + rest)
  {
  }

  // --- The challenge-token cell -------------------------------------------

  /** A token the server may use: one was handed over and it is not the
      empty one a reset leaves. */
  predicate TokenReady(t: Option<string>)
  {
    t.Some? && t.value != ""
  }

  /** The closure variable `captchaToken` of `startBrowser`, with the
      `window.cf('')` evaluations `captchaToken(true)` has scheduled and the
      page has not run yet. */
  class CaptchaCell {
    var token: Option<string>
    var pendingClears: nat

    constructor()
      ensures token == None && pendingClears == 0
    {
      token := None;
      pendingClears := 0;
    }

    /** The exposed `cf(token)`: stores the token and returns it. */
    method Cf(t: string) returns (r: string)
      modifies this
      ensures token == Some(t) && r == t
      ensures pendingClears == old(pendingClears)
    {
      token := Some(t);
      r := t;
    }

    /** `captchaToken(reset)`: the stored token; a reset schedules a clear
        and still returns the value from before it. */
    method CaptchaToken(reset: bool) returns (r: Option<string>)
      modifies this
      ensures r == old(token) && token == old(token)
      ensures pendingClears == old(pendingClears) + (if reset then 1 else 0)
    {
      if reset {
        pendingClears := pendingClears + 1;
      }
      r := token;
    }

    /** The page runs one scheduled `window.cf('')`. */
    method DeliverClear()
      requires pendingClears > 0
      modifies this
      ensures token == Some("") && pendingClears == old(pendingClears) - 1
    {
      var _ := Cf("");
      pendingClears := pendingClears - 1;
    }

    /** `captchaToken()` is truthy. */
    predicate Ready()
      reads this
    {
      TokenReady(token)
    }
  }
}

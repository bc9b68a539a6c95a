// The request decisions of the pixel and purchase handlers of the server:
// the validation of a pixel request, the upstream path it builds with
// `encodeURIComponent`, the payload it signs and posts, and the
// normalisation of a purchase request into the backend's payload.

module Requests {
  import opened JsValues
  import PageHook

  // --- encodeURIComponent ---------------------------------------------------

  /** The characters `encodeURIComponent` leaves as they are. */
  predicate Unreserved(c: char)
  {
    ('A' <= c <= 'Z') || ('a' <= c <= 'z') || ('0' <= c <= '9')
    || c == '-' || c == '_' || c == '.' || c == '!' || c == '~' || c == '*' || c == '\'' || c == '(' || c == ')'
  }

  /** The UTF-8 bytes of a character (a Unicode scalar value, so never a
      lone surrogate). */
  function Utf8(c: char): (bs: seq<int>)
    ensures 1 <= |bs| <= 4 && forall i :: 0 <= i < |bs| ==> 0 <= bs[i] < 256
  {
    var n := c as int;
    if n < 0x80 then [n]
    else if n < 0x800 then [0xC0 + n / 0x40, 0x80 + n % 0x40]
    else if n < 0x1_0000 then [0xE0 + n / 0x1000, 0x80 + (n / 0x40) % 0x40, 0x80 + n % 0x40]
    else [0xF0 + n / 0x4_0000, 0x80 + (n / 0x1000) % 0x40, 0x80 + (n / 0x40) % 0x40, 0x80 + n % 0x40]
  }

  function HexUpper(d: int): (c: char)
    requires 0 <= d < 16
    ensures Unreserved(c)
  {
    if d < 10 then ('0' as int + d) as char else ('A' as int + d - 10) as char
  }

  /** `%XY` for one byte. */
  function Escape(bs: seq<int>): (r: string)
    requires forall i :: 0 <= i < |bs| ==> 0 <= bs[i] < 256
    ensures |r| == 3 * |bs|
    ensures forall i :: 0 <= i < |r| ==> r[i] == '%' || Unreserved(r[i])
  {
    if bs == [] then ""
    else ['%', HexUpper(bs[0] / 16), HexUpper(bs[0] % 16)] + Escape(bs[1..])
  }

  function EncodeChar(c: char): (r: string)
    ensures Unreserved(c) ==> r == [c]
    ensures forall i :: 0 <= i < |r| ==> r[i] == '%' || Unreserved(r[i])
  {
    if Unreserved(c) then [c] else Escape(Utf8(c))
  }

  /** `encodeURIComponent`.  Its output holds only unreserved characters
      and `%`, so in particular no `/`; text that is all unreserved is
      kept as it is. */
  function EncodeURIComponent(s: string): (r: string)
    ensures forall i :: 0 <= i < |r| ==> r[i] == '%' || Unreserved(r[i])
    ensures (forall i :: 0 <= i < |s| ==> Unreserved(s[i])) ==> r == s
  {
    if s == [] then ""
    else
      assert forall i :: 0 <= i < |s[1..]| ==> s[1..][i] == s[i + 1];
      EncodeChar(s[0]) + EncodeURIComponent(s[1..])
  }

  /** The upstream URL of `POST /api/pixel/:area/:no`. */
  function RemotePath(area: string, no: string): string
  {
    PageHook.Origin + PageHook.PixelPath + EncodeURIComponent(area) + "/" + EncodeURIComponent(no)
  }

  /** The page hook, watching the browser's pixel request, reads back the
      tile the server was asked for: for decimal tile numbers the URL the
      server builds is a target, and its coordinates are `area` and
      `no`. */
  lemma RemotePathCoordinates(area: string, no: string)
    requires area != [] && no != [] && PageHook.AllDigitChars(area) && PageHook.AllDigitChars(no)
    ensures PageHook.IsTarget(Some(RemotePath(area, no)))
    ensures PageHook.ExtractWorldXY(Some(RemotePath(area, no))) == PageHook.WorldXY(Some(area), Some(no))
  {
    assert EncodeURIComponent(area) == area && EncodeURIComponent(no) == no;
    var u := PageHook.Origin + PageHook.PixelPath + area + "/" + no;
    assert RemotePath(area, no) == u;
    PageHook.WorldXYOfPixelUrl(area, no, "");
    assert u + "" == u;
  }

  // --- The pixel request ----------------------------------------------------

  /** `!v.length`: `Some(true)` when the length is falsy (empty, or no
      `length` at all), `None` when reading it throws (on `null`). */
  function LengthFalsy(v: Json): (r: Option<bool>)
    ensures r.None? <==> v.JNull?
    ensures v.JArr? ==> r == Some(v.items == [])
    ensures v.JStr? ==> r == Some(v.s == "")
  {
    match v
    case JNull => None
    case JBool(_) => Some(true)
    case JNum(_) => Some(true)
    case JStr(s) => Some(s == "")
    case JArr(items) => Some(items == [])
    case JObj(_) => Some(!Present(Get(v, "length")))
  }

  datatype PixelCheck = PixelThrows | PixelInvalid | PixelOk(colors: Json, coords: Json, jToken: Json)

  /** The first test of the pixel handler, in its order: `colors`, then
      `coords` (only when `colors` passed), then `j`; there is no check that
      `colors` and `coords` have the same length. */
  function CheckPixel(body: Json): (r: PixelCheck)
    ensures r.PixelOk? ==> r == PixelOk(GetOr(body, "colors", JArr([])), GetOr(body, "coords", JArr([])), GetOr(body, "j", JStr("")))
    ensures r.PixelOk? <==> LengthFalsy(GetOr(body, "colors", JArr([]))) == Some(false)
                            && LengthFalsy(GetOr(body, "coords", JArr([]))) == Some(false)
                            && Truthy(GetOr(body, "j", JStr("")))
    ensures r.PixelThrows? <==> GetOr(body, "colors", JArr([])).JNull?
                                || (LengthFalsy(GetOr(body, "colors", JArr([]))) == Some(false) && GetOr(body, "coords", JArr([])).JNull?)
  {
    var colors := GetOr(body, "colors", JArr([]));
    var coords := GetOr(body, "coords", JArr([]));
    var jToken := GetOr(body, "j", JStr(""));
    match LengthFalsy(colors)
    case None => PixelThrows
    case Some(true) => PixelInvalid
    case Some(false) =>
      match LengthFalsy(coords)
      case None => PixelThrows
      case Some(true) => PixelInvalid
      case Some(false) => if Truthy(jToken) then PixelOk(colors, coords, jToken) else PixelInvalid
  }

  /** A request with equal-length, non-empty arrays and a token passes
      the check whatever the lengths are; so do unequal ones. */
  lemma NoLengthAgreement(colors: seq<Json>, coords: seq<Json>, j: string)
    requires colors != [] && coords != [] && j != ""
    ensures CheckPixel(JObj([("colors", JArr(colors)), ("coords", JArr(coords)), ("j", JStr(j))])).PixelOk?
  {
    var ms := [("colors", JArr(colors)), ("coords", JArr(coords)), ("j", JStr(j))];
    assert ms[..2][..1] == [("colors", JArr(colors))] && ms[..2][1].0 != "colors" && ms[2].0 != "colors";
    assert LastMember(ms[..2], "colors") == Some(JArr(colors));
    assert ms[..2][1].0 == "coords" && ms[2].0 != "coords";
    assert LastMember(ms, "j") == Some(JStr(j));
  }

  /** `fp || md5(jToken)`: the account's fingerprint, else the hex digest
      of the token; hashing a token that is not a string throws. */
  function Fingerprint(fp: string, jToken: Json, digest: string -> string): (r: Option<string>)
    ensures fp != "" ==> r == Some(fp)
    ensures fp == "" ==> (r.Some? <==> jToken.JStr?)
  {
    if fp != "" then Some(fp)
    else if jToken.JStr? then Some(digest(jToken.s))
    else None
  }

  /** The signed and posted payload, with its keys in this order. */
  function PixelPayload(colors: Json, coords: Json, t: string, fp: string): (p: Json)
    ensures p.JObj? && |p.members| == 4
    ensures p.members[0].0 == "colors" && p.members[1].0 == "coords" && p.members[2].0 == "t" && p.members[3].0 == "fp"
    ensures Get(p, "colors") == Some(colors) && Get(p, "coords") == Some(coords)
    ensures Get(p, "t") == Some(JStr(t)) && Get(p, "fp") == Some(JStr(fp))
  {
    var ms := [("colors", colors), ("coords", coords), ("t", JStr(t)), ("fp", JStr(fp))];
    assert ms[..3][..2][..1] == [("colors", colors)];
    assert ms[..3][..2][1].0 != "colors" && ms[..3][2].0 != "colors" && ms[3].0 != "colors";
    assert LastMember(ms[..3][..2], "colors") == Some(colors);
    assert LastMember(ms[..3], "colors") == Some(colors);
    assert ms[..3][..2][1].0 == "coords" && ms[..3][2].0 != "coords" && ms[3].0 != "coords";
    assert LastMember(ms[..3], "coords") == Some(coords);
    assert ms[..3][2].0 == "t" && ms[3].0 != "t";
    JObj(ms)
  }

  // --- The purchase request ---------------------------------------------------

  /** `Math.max(1, Number(amountRaw || 1))`: NaN stays NaN. */
  function Amount(raw: Json): (r: Num)
    ensures r.Finite? ==> r.v >= 1.0
    ensures r.NaN? <==> Truthy(raw) && ToNumber(raw).NaN?
    ensures !Truthy(raw) ==> r == Finite(1.0)
    ensures Truthy(raw) && ToNumber(raw).Finite? && ToNumber(raw).v >= 1.0 ==> r == ToNumber(raw)
    ensures Truthy(raw) && ToNumber(raw).Finite? && ToNumber(raw).v < 1.0 ==> r == Finite(1.0)
    ensures Truthy(raw) && ToNumber(raw).NegInf? ==> r == Finite(1.0)
    ensures Truthy(raw) && ToNumber(raw).PosInf? ==> r.PosInf?
  {
    var n := if Truthy(raw) then ToNumber(raw) else Finite(1.0);
    match n
    case NaN => NaN
    case PosInf => PosInf
    case NegInf => Finite(1.0)
    case Finite(v) => Finite(if v >= 1.0 then v else 1.0)
  }

  /** `variantRaw == null ? null : Number(variantRaw)`. */
  function Variant(raw: Option<Json>): (r: Option<Num>)
    ensures r.None? <==> raw.None? || raw.value.JNull?
    ensures r.Some? ==> r.value == ToNumber(raw.value)
  {
    if raw.None? || raw.value.JNull? then None else Some(ToNumber(raw.value))
  }

  /** The payload of a purchase, or `None` when the handler answers 400:
      a product id that is not a positive finite number, or no token. */
  function PurchasePayload(body: Json): (r: Option<Json>)
    ensures r.Some? <==> ToNumberOpt(Get(body, "productId")).Finite? && ToNumberOpt(Get(body, "productId")).v > 0.0
                         && Truthy(GetOr(body, "j", JStr("")))
  {
    var productId := ToNumberOpt(Get(body, "productId"));
    var amount := Amount(GetOr(body, "amount", JNum(Finite(1.0))));
    var variant := Variant(Get(body, "variant"));
    if !(productId.Finite? && productId.v > 0.0) || !Truthy(GetOr(body, "j", JStr(""))) then None
    else
      var product := [("id", JNum(productId)), ("amount", JNum(amount))]
                     + (if variant.Some? && variant.value.Finite? then [("variant", JNum(variant.value))] else []);
      Some(JObj([("product", JObj(product))]))
  }

  /** The product of a valid purchase: the id as given, an amount of at
      least 1 (or NaN or infinity, which serialise as `null`), and a
      variant exactly when the request's variant converts to a finite
      number. */
  lemma PurchaseFields(body: Json)
    requires PurchasePayload(body).Some?
    ensures var product := Get(PurchasePayload(body).value, "product").value;
            Get(product, "id") == Some(JNum(ToNumberOpt(Get(body, "productId"))))
            && Get(product, "amount") == Some(JNum(Amount(GetOr(body, "amount", JNum(Finite(1.0))))))
            && (Get(product, "variant").Some? <==> Variant(Get(body, "variant")).Some? && Variant(Get(body, "variant")).value.Finite?)
            && (Get(product, "variant").Some? ==> Get(product, "variant") == Some(JNum(Variant(Get(body, "variant")).value)))
  {
    var productId := ToNumberOpt(Get(body, "productId"));
    var amount := Amount(GetOr(body, "amount", JNum(Finite(1.0))));
    var variant := Variant(Get(body, "variant"));
    var base := [("id", JNum(productId)), ("amount", JNum(amount))];
    assert base[..1] == [("id", JNum(productId))] && base[1].0 != "id";
    assert LastMember(base, "id") == Some(JNum(productId));
    assert LastMember(base, "amount") == Some(JNum(amount));
    assert PurchasePayload(body).value == JObj([("product", JObj(base + if variant.Some? && variant.value.Finite? then [("variant", JNum(variant.value))] else []))]);
    if variant.Some? && variant.value.Finite? {
      var ms := base + [("variant", JNum(variant.value))];
      assert ms[..2] == base && ms[2].0 != "id" && ms[2].0 != "amount";
      assert LastMember(ms, "variant") == Some(JNum(variant.value));
      assert LastMember(ms, "id") == LastMember(base, "id") && LastMember(ms, "amount") == LastMember(base, "amount");
    } else {
      assert base + [] == base;
      assert LastMember(base, "variant") == None;
    }
  }
}

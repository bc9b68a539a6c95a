// JavaScript values as the server, the browser glue and the page hook see
// them once a host parser has decoded them: JSON values, numbers with NaN and
// the infinities, truthiness, ToNumber and the two equalities (=== and ==).

module JsValues {

  datatype Option<T> = None | Some(value: T)

  /** An IEEE double seen as a real; NaN and the infinities kept apart.
      Negative zero is not distinguished from zero. */
  datatype Num = Finite(v: real) | NaN | PosInf | NegInf

  /** A decoded JSON value.  An object keeps its members in source order,
      duplicates included; a member that is absent is JavaScript's
      `undefined`, written `None` wherever a lookup may miss. */
  datatype Json =
    | JNull
    | JBool(b: bool)
    | JNum(n: Num)
    | JStr(s: string)
    | JArr(items: seq<Json>)
    | JObj(members: seq<(string, Json)>)

  predicate IsFinite(n: Num) { n.Finite? }

  /** ToBoolean of a number: false for zero and NaN. */
  predicate NumTruthy(n: Num) { n != Finite(0.0) && n != NaN }

  /** ToBoolean. */
  predicate Truthy(v: Json)
  {
    match v
    case JNull => false
    case JBool(b) => b
    case JNum(n) => NumTruthy(n)
    case JStr(s) => s != ""
    case JArr(_) => true
    case JObj(_) => true
  }

  /** ToBoolean of a property read that may be `undefined`. */
  predicate Present(v: Option<Json>) { v.Some? && Truthy(v.value) }

  /** `o.key` on a value produced by JSON.parse: JSON.parse keeps the last of
      duplicate members; a non-object has none of the keys this code reads. */
  function Get(o: Json, key: string): (r: Option<Json>)
    ensures r.Some? ==> o.JObj? && exists i :: 0 <= i < |o.members| && o.members[i] == (key, r.value)
    ensures o.JObj? && r.None? ==> forall i :: 0 <= i < |o.members| ==> o.members[i].0 != key
  {
    match o
    case JObj(ms) => LastMember(ms, key)
    case _ => None
  }

  function LastMember(ms: seq<(string, Json)>, key: string): (r: Option<Json>)
    ensures r.Some? ==> exists i :: 0 <= i < |ms| && ms[i] == (key, r.value) && forall j :: i < j < |ms| ==> ms[j].0 != key
    ensures r.None? ==> forall i :: 0 <= i < |ms| ==> ms[i].0 != key
  {
    if ms == [] then None
    else if ms[|ms| - 1].0 == key then Some(ms[|ms| - 1].1)
    else
      var init := ms[..|ms| - 1];
      assert forall i :: 0 <= i < |init| ==> init[i] == ms[i];
      LastMember(init, key)
  }

  /** `o.key` on a property read that may itself be `undefined` (the
      caller has already ruled out a throw). */
  function GetOpt(o: Option<Json>, key: string): Option<Json>
  {
    if o.Some? then Get(o.value, key) else None
  }

  /** A destructured request field with a default: the default replaces
      `undefined` only, so an explicit `null` stays. */
  function GetOr(o: Json, key: string, default: Json): Json
  {
    var v := Get(o, key);
    if v.Some? then v.value else default
  }

  // --- ToNumber ----------------------------------------------------------

  /** The characters StringToNumber strips from both ends
      (WhiteSpace and LineTerminator of ECMA-262). */
  predicate IsSpace(c: char)
  {
    c == '\t' || c == '\n' || c == '\U{B}' || c == '\U{C}' || c == '\r' || c == ' '
    || c == '\U{A0}' || c == '\U{1680}' || ('\U{2000}' <= c <= '\U{200A}') || c == '\U{2028}'
    || c == '\U{2029}' || c == '\U{202F}' || c == '\U{205F}' || c == '\U{3000}' || c == '\U{FEFF}'
  }

  function TrimStart(s: string): (r: string)
    ensures |r| <= |s| && r == s[|s| - |r|..]
    ensures r == [] || !IsSpace(r[0])
  {
    if s != [] && IsSpace(s[0]) then TrimStart(s[1..]) else s
  }

  function TrimEnd(s: string): (r: string)
    ensures |r| <= |s| && r == s[..|r|]
    ensures r == [] || !IsSpace(r[|r| - 1])
  {
    if s != [] && IsSpace(s[|s| - 1]) then TrimEnd(s[..|s| - 1]) else s
  }

  function Trim(s: string): string { TrimEnd(TrimStart(s)) }

  /** The value of a character as a digit in the given base, if it is one. */
  function DigitValue(c: char, base: nat): (r: Option<nat>)
    ensures r.Some? ==> r.value < base
  {
    var d :=
      if '0' <= c <= '9' then (c as int - '0' as int)
      else if 'a' <= c <= 'z' then (c as int - 'a' as int) + 10
      else if 'A' <= c <= 'Z' then (c as int - 'A' as int) + 10
      else 36;
    if d < base then Some(d) else None
  }

  predicate AllDigits(s: string, base: nat)
  {
    forall i :: 0 <= i < |s| ==> DigitValue(s[i], base).Some?
  }

  /** The number a string of digits spells in the given base. */
  function DigitsValue(s: string, base: nat): nat
    requires AllDigits(s, base)
  {
    if s == [] then 0
    else DigitsValue(s[..|s| - 1], base) * base + DigitValue(s[|s| - 1], base).value
  }

  function Pow10(e: nat): (r: nat)
    ensures r >= 1
  {
    if e == 0 then 1 else 10 * Pow10(e - 1)
  }

  /** The first index of `c` in `s`, or |s|. */
  function Find(s: string, c: char): (k: nat)
    ensures k <= |s|
    ensures k < |s| ==> s[k] == c
    ensures forall j :: 0 <= j < k ==> s[j] != c
  {
    if s == [] then 0 else if s[0] == c then 0 else 1 + Find(s[1..], c)
  }

  /** The exponent part after `e`/`E`: an optional sign and decimal digits. */
  function ExponentValue(s: string): Option<int>
  {
    var neg := s != [] && s[0] == '-';
    var body := if s != [] && (s[0] == '+' || s[0] == '-') then s[1..] else s;
    if body != [] && AllDigits(body, 10) then
      Some(if neg then -(DigitsValue(body, 10) as int) else DigitsValue(body, 10))
    else None
  }

  /** StrUnsignedDecimalLiteral without `Infinity`: digits with an optional
      point and fraction (at least one digit in all) and an optional
      exponent.  The value is exact; rounding to a double is not modelled. */
  function UnsignedDecimal(s: string): Option<real>
  {
    var e := if Find(s, 'e') < |s| then Find(s, 'e') else Find(s, 'E');
    var mantissa := s[..e];
    var exp := if e < |s| then ExponentValue(s[e + 1..]) else Some(0);
    var p := Find(mantissa, '.');
    var whole := mantissa[..p];
    var frac := if p < |mantissa| then mantissa[p + 1..] else "";
    if exp.None? || whole + frac == "" || !AllDigits(whole + frac, 10) then None
    else Some(Scaled(DigitsValue(whole + frac, 10), |frac|, exp.value))
  }

  /** The digits m with f of them after the point, times 10^x. */
  function Scaled(m: nat, f: nat, x: int): real
  {
    var v := m as real / Pow10(f) as real;
    if x >= 0 then v * Pow10(x) as real else v / Pow10(-x) as real
  }

  lemma ScaledInteger(m: nat)
    ensures Scaled(m, 0, 0) == m as real
  {
  }

  /** StringToNumber (ECMA-262 section 7.1.4.1.1). */
  function StrToNum(s: string): Num
  {
    var t := Trim(s);
    if t == "" then Finite(0.0)
    else if |t| > 2 && t[0] == '0' && (t[1] in "xXoObB") then
      var base := if t[1] in "xX" then 16 else if t[1] in "oO" then 8 else 2;
      if AllDigits(t[2..], base) then Finite(DigitsValue(t[2..], base) as real) else NaN
    else
      var neg := t[0] == '-';
      var body := if t[0] == '+' || t[0] == '-' then t[1..] else t;
      if body == "Infinity" then (if neg then NegInf else PosInf)
      else match UnsignedDecimal(body)
        case Some(r) => Finite(if neg then -r else r)
        case None => NaN
  }

  /** ToNumber of a JSON value.  An array converts through its string form:
      empty is 0, one element converts as that element (a boolean element
      spells "true"/"false", which is NaN), and two or more hold a comma,
      which is NaN.  A plain object spells "[object Object]", which is NaN. */
  function ToNumber(v: Json): Num
  {
    match v
    case JNull => Finite(0.0)
    case JBool(b) => Finite(if b then 1.0 else 0.0)
    case JNum(n) => n
    case JStr(s) => StrToNum(s)
    case JArr(items) =>
      if |items| == 0 then Finite(0.0)
      else if |items| == 1 then (if items[0].JBool? then NaN else ToNumber(items[0]))
      else NaN
    case JObj(_) => NaN
  }

  /** ToNumber of a property read that may be `undefined` (NaN). */
  function ToNumberOpt(v: Option<Json>): Num
  {
    if v.Some? then ToNumber(v.value) else NaN
  }

  /** `===` between a value and a number: same type and equal; NaN equals
      nothing. */
  predicate StrictEqNum(v: Json, n: Num)
  {
    v.JNum? && v.n == n && n != NaN
  }

  /** `Math.floor`. */
  function Floor(n: Num): (r: Num)
    ensures r.Finite? <==> n.Finite?
    ensures r.Finite? ==> r.v.Floor as real == r.v && r.v <= n.v < r.v + 1.0
  {
    if n.Finite? then Finite(n.v.Floor as real) else n
  }

  lemma TrimOfDigits(s: string)
    requires s != [] && AllDigits(s, 10)
    ensures Trim(s) == s
  {
    assert !IsSpace(s[0]) by { assert DigitValue(s[0], 10).Some?; }
    assert !IsSpace(s[|s| - 1]) by { assert DigitValue(s[|s| - 1], 10).Some?; }
  }

  lemma FindNonDigit(s: string, c: char)
    requires AllDigits(s, 10) && DigitValue(c, 10).None?
    ensures Find(s, c) == |s|
  {
  }

  lemma UnsignedDecimalDigits(s: string)
    requires s != [] && AllDigits(s, 10)
    ensures UnsignedDecimal(s) == Some(DigitsValue(s, 10) as real)
  {
    FindNonDigit(s, 'e');
    FindNonDigit(s, 'E');
    FindNonDigit(s, '.');
    assert s[..|s|] == s;
    assert s[..|s|][..|s|] + "" == s;
    ScaledInteger(DigitsValue(s, 10));
  }

  /** ToNumber of a non-empty decimal digit string is the number it spells
      (a leading zero does not make it octal: only `0o` does). */
  lemma StrToNumDigits(s: string)
    requires s != [] && AllDigits(s, 10)
    ensures StrToNum(s) == Finite(DigitsValue(s, 10) as real)
  {
    TrimOfDigits(s);
    assert '0' <= s[0] <= '9' by { assert DigitValue(s[0], 10).Some?; }
    if |s| > 2 {
      assert '0' <= s[1] <= '9' by { assert DigitValue(s[1], 10).Some?; }
      assert !(s[1] in "xXoObB");
    }
    assert s != "Infinity" by { assert "Infinity"[0] == 'I'; }
    UnsignedDecimalDigits(s);
  }
}

// The MD5 of the Firefox page hook (WPlace-Helper-FireFox/scripts/pageHook.js,
// function md5 and its helpers), as written: 32-bit words held in JavaScript
// numbers, the message read as UTF-16 code units, the block array filled in
// place, and the digest printed with Number.prototype.toString(16).  Each
// piece is proved against the reference of module Rfc1321.

module Md5 {
  import opened Rfc1321
  import JsStrings

  // --- The word operations ------------------------------------------------

  /** `add`: `(x + y) & 0xffffffff` on two 32-bit operands is their sum
      modulo 2^32 (the `&` applies ToInt32). */
  function Add(x: bv32, y: bv32): bv32 { x + y }

  /** `rol`: `<<` on a 32-bit operand keeps the low 32 bits, and `>>>`
      shifts in zeros, as `>>` on a bv32 does. */
  function Rol(x: bv32, c: bv32): bv32
    requires 0 < c < 32
  {
    (x << c) | (x >> (32 - c))
  }

  /** `cmn`, shared by the four round functions. */
  function Cmn(q: bv32, a: bv32, b: bv32, x: bv32, s: bv32, t: bv32): bv32
    requires 0 < s < 32
  {
    Add(Rol(Add(Add(a, q), Add(x, t)), s), b)
  }

  function Ff(a: bv32, b: bv32, c: bv32, d: bv32, x: bv32, s: bv32, t: bv32): bv32
    requires 0 < s < 32
  {
    Cmn((b & c) | (!b & d), a, b, x, s, t)
  }

  function Gg(a: bv32, b: bv32, c: bv32, d: bv32, x: bv32, s: bv32, t: bv32): bv32
    requires 0 < s < 32
  {
    Cmn((b & d) | (c & !d), a, b, x, s, t)
  }

  function Hh(a: bv32, b: bv32, c: bv32, d: bv32, x: bv32, s: bv32, t: bv32): bv32
    requires 0 < s < 32
  {
    Cmn(b ^ c ^ d, a, b, x, s, t)
  }

  function Ii(a: bv32, b: bv32, c: bv32, d: bv32, x: bv32, s: bv32, t: bv32): bv32
    requires 0 < s < 32
  {
    Cmn(c ^ (b | !d), a, b, x, s, t)
  }

  lemma AddPlus(x: bv32, y: bv32)
    ensures Add(x, y) == Plus(x, y)
  {
  }

  lemma PlusComm(x: bv32, y: bv32)
    ensures Plus(x, y) == Plus(y, x)
  {
  }

  /** `rol` is the circular shift X <<< s of section 3.4 of RFC 1321. */
  lemma RolRotl(x: bv32, s: bv32)
    requires 0 < s < 32
    ensures Rol(x, s) == Rotl(x, s)
  {
  }

  /** `cmn` computes b + ((a + q + x + t) <<< s). */
  lemma CmnStep(q: bv32, a: bv32, b: bv32, x: bv32, s: bv32, t: bv32)
    requires 0 < s < 32
    ensures Cmn(q, a, b, x, s, t) == Plus(b, Rotl(Plus(Plus(a, q), Plus(x, t)), s))
  {
    AddPlus(a, q);
    AddPlus(x, t);
    AddPlus(Add(a, q), Add(x, t));
    RolRotl(Add(Add(a, q), Add(x, t)), s);
    AddPlus(Rol(Add(Add(a, q), Add(x, t)), s), b);
    PlusComm(Rotl(Plus(Plus(a, q), Plus(x, t)), s), b);
  }

  /** A call of `ff` is operation i (< 16) of round 1 of RFC 1321. */
  lemma FfStep(st: Regs, x: seq<bv32>, i: nat)
    requires |x| == 16 && i < 16
    ensures Step(st, x, i) == Regs(st.d, Ff(st.a, st.b, st.c, st.d, x[K(i)], S(i), T(i)), st.b, st.c)
  {
    CmnStep(F(st.b, st.c, st.d), st.a, st.b, x[K(i)], S(i), T(i));
  }

  lemma GgStep(st: Regs, x: seq<bv32>, i: nat)
    requires |x| == 16 && 16 <= i < 32
    ensures Step(st, x, i) == Regs(st.d, Gg(st.a, st.b, st.c, st.d, x[K(i)], S(i), T(i)), st.b, st.c)
  {
    CmnStep(G(st.b, st.c, st.d), st.a, st.b, x[K(i)], S(i), T(i));
  }

  lemma HhStep(st: Regs, x: seq<bv32>, i: nat)
    requires |x| == 16 && 32 <= i < 48
    ensures Step(st, x, i) == Regs(st.d, Hh(st.a, st.b, st.c, st.d, x[K(i)], S(i), T(i)), st.b, st.c)
  {
    CmnStep(H(st.b, st.c, st.d), st.a, st.b, x[K(i)], S(i), T(i));
  }

  lemma IiStep(st: Regs, x: seq<bv32>, i: nat)
    requires |x| == 16 && 48 <= i < 64
    ensures Step(st, x, i) == Regs(st.d, Ii(st.a, st.b, st.c, st.d, x[K(i)], S(i), T(i)), st.b, st.c)
  {
    CmnStep(I(st.b, st.c, st.d), st.a, st.b, x[K(i)], S(i), T(i));
  }

  // --- One block: the body of the loop over blks ------------------------------
  // The sixteen words of the block are blks[i + 0] .. blks[i + 15], written
  // x[0] .. x[15] here.  The constants are the ones of the source, negative
  // ones written 0 - N (the same 32-bit pattern).

  /** The first eight `ff` lines of round 1 (source lines 36-43):
      operations 0 to 7 of RFC 1321. */
  method Round1a(h: Regs, x: seq<bv32>) returns (r: Regs)
    requires |x| == 16
    ensures r == Run(h, x, 0, 8)
  {
    var a, b, c, d := h.a, h.b, h.c, h.d;
    ghost var st := h;
    a := Ff(a, b, c, d, x[0], 7, 0 - 680876936);
    FfStep(st, x, 0);
    st := Step(st, x, 0);
    assert st == Run(h, x, 0, 1);
    d := Ff(d, a, b, c, x[1], 12, 0 - 389564586);
    FfStep(st, x, 1);
    st := Step(st, x, 1);
    assert st == Run(h, x, 0, 2);
    c := Ff(c, d, a, b, x[2], 17, 606105819);
    FfStep(st, x, 2);
    st := Step(st, x, 2);
    assert st == Run(h, x, 0, 3);
    b := Ff(b, c, d, a, x[3], 22, 0 - 1044525330);
    FfStep(st, x, 3);
    st := Step(st, x, 3);
    assert st == Run(h, x, 0, 4);
    a := Ff(a, b, c, d, x[4], 7, 0 - 176418897);
    FfStep(st, x, 4);
    st := Step(st, x, 4);
    assert st == Run(h, x, 0, 5);
    d := Ff(d, a, b, c, x[5], 12, 1200080426);
    FfStep(st, x, 5);
    st := Step(st, x, 5);
    assert st == Run(h, x, 0, 6);
    c := Ff(c, d, a, b, x[6], 17, 0 - 1473231341);
    FfStep(st, x, 6);
    st := Step(st, x, 6);
    assert st == Run(h, x, 0, 7);
    b := Ff(b, c, d, a, x[7], 22, 0 - 45705983);
    FfStep(st, x, 7);
    st := Step(st, x, 7);
    assert st == Run(h, x, 0, 8);
    r := Regs(a, b, c, d);
  }

  /** The second eight `ff` lines of round 1 (source lines 44-51):
      operations 8 to 15 of RFC 1321. */
  method Round1b(h: Regs, x: seq<bv32>) returns (r: Regs)
    requires |x| == 16
    ensures r == Run(h, x, 8, 16)
  {
    var a, b, c, d := h.a, h.b, h.c, h.d;
    ghost var st := h;
    a := Ff(a, b, c, d, x[8], 7, 1770035416);
    FfStep(st, x, 8);
    st := Step(st, x, 8);
    assert st == Run(h, x, 8, 9);
    d := Ff(d, a, b, c, x[9], 12, 0 - 1958414417);
    FfStep(st, x, 9);
    st := Step(st, x, 9);
    assert st == Run(h, x, 8, 10);
    c := Ff(c, d, a, b, x[10], 17, 0 - 42063);
    FfStep(st, x, 10);
    st := Step(st, x, 10);
    assert st == Run(h, x, 8, 11);
    b := Ff(b, c, d, a, x[11], 22, 0 - 1990404162);
    FfStep(st, x, 11);
    st := Step(st, x, 11);
    assert st == Run(h, x, 8, 12);
    a := Ff(a, b, c, d, x[12], 7, 1804603682);
    FfStep(st, x, 12);
    st := Step(st, x, 12);
    assert st == Run(h, x, 8, 13);
    d := Ff(d, a, b, c, x[13], 12, 0 - 40341101);
    FfStep(st, x, 13);
    st := Step(st, x, 13);
    assert st == Run(h, x, 8, 14);
    c := Ff(c, d, a, b, x[14], 17, 0 - 1502002290);
    FfStep(st, x, 14);
    st := Step(st, x, 14);
    assert st == Run(h, x, 8, 15);
    b := Ff(b, c, d, a, x[15], 22, 1236535329);
    FfStep(st, x, 15);
    st := Step(st, x, 15);
    assert st == Run(h, x, 8, 16);
    r := Regs(a, b, c, d);
  }

  /** The first eight `gg` lines of round 2 (source lines 52-59):
      operations 16 to 23 of RFC 1321. */
  method Round2a(h: Regs, x: seq<bv32>) returns (r: Regs)
    requires |x| == 16
    ensures r == Run(h, x, 16, 24)
  {
    var a, b, c, d := h.a, h.b, h.c, h.d;
    ghost var st := h;
    a := Gg(a, b, c, d, x[1], 5, 0 - 165796510);
    GgStep(st, x, 16);
    st := Step(st, x, 16);
    assert st == Run(h, x, 16, 17);
    d := Gg(d, a, b, c, x[6], 9, 0 - 1069501632);
    GgStep(st, x, 17);
    st := Step(st, x, 17);
    assert st == Run(h, x, 16, 18);
    c := Gg(c, d, a, b, x[11], 14, 643717713);
    GgStep(st, x, 18);
    st := Step(st, x, 18);
    assert st == Run(h, x, 16, 19);
    b := Gg(b, c, d, a, x[0], 20, 0 - 373897302);
    GgStep(st, x, 19);
    st := Step(st, x, 19);
    assert st == Run(h, x, 16, 20);
    a := Gg(a, b, c, d, x[5], 5, 0 - 701558691);
    GgStep(st, x, 20);
    st := Step(st, x, 20);
    assert st == Run(h, x, 16, 21);
    d := Gg(d, a, b, c, x[10], 9, 38016083);
    GgStep(st, x, 21);
    st := Step(st, x, 21);
    assert st == Run(h, x, 16, 22);
    c := Gg(c, d, a, b, x[15], 14, 0 - 660478335);
    GgStep(st, x, 22);
    st := Step(st, x, 22);
    assert st == Run(h, x, 16, 23);
    b := Gg(b, c, d, a, x[4], 20, 0 - 405537848);
    GgStep(st, x, 23);
    st := Step(st, x, 23);
    assert st == Run(h, x, 16, 24);
    r := Regs(a, b, c, d);
  }

  /** The second eight `gg` lines of round 2 (source lines 60-67):
      operations 24 to 31 of RFC 1321. */
  method Round2b(h: Regs, x: seq<bv32>) returns (r: Regs)
    requires |x| == 16
    ensures r == Run(h, x, 24, 32)
  {
    var a, b, c, d := h.a, h.b, h.c, h.d;
    ghost var st := h;
    a := Gg(a, b, c, d, x[9], 5, 568446438);
    GgStep(st, x, 24);
    st := Step(st, x, 24);
    assert st == Run(h, x, 24, 25);
    d := Gg(d, a, b, c, x[14], 9, 0 - 1019803690);
    GgStep(st, x, 25);
    st := Step(st, x, 25);
    assert st == Run(h, x, 24, 26);
    c := Gg(c, d, a, b, x[3], 14, 0 - 187363961);
    GgStep(st, x, 26);
    st := Step(st, x, 26);
    assert st == Run(h, x, 24, 27);
    b := Gg(b, c, d, a, x[8], 20, 1163531501);
    GgStep(st, x, 27);
    st := Step(st, x, 27);
    assert st == Run(h, x, 24, 28);
    a := Gg(a, b, c, d, x[13], 5, 0 - 1444681467);
    GgStep(st, x, 28);
    st := Step(st, x, 28);
    assert st == Run(h, x, 24, 29);
    d := Gg(d, a, b, c, x[2], 9, 0 - 51403784);
    GgStep(st, x, 29);
    st := Step(st, x, 29);
    assert st == Run(h, x, 24, 30);
    c := Gg(c, d, a, b, x[7], 14, 1735328473);
    GgStep(st, x, 30);
    st := Step(st, x, 30);
    assert st == Run(h, x, 24, 31);
    b := Gg(b, c, d, a, x[12], 20, 0 - 1926607734);
    GgStep(st, x, 31);
    st := Step(st, x, 31);
    assert st == Run(h, x, 24, 32);
    r := Regs(a, b, c, d);
  }

  /** The first eight `hh` lines of round 3 (source lines 68-75):
      operations 32 to 39 of RFC 1321. */
  method Round3a(h: Regs, x: seq<bv32>) returns (r: Regs)
    requires |x| == 16
    ensures r == Run(h, x, 32, 40)
  {
    var a, b, c, d := h.a, h.b, h.c, h.d;
    ghost var st := h;
    a := Hh(a, b, c, d, x[5], 4, 0 - 378558);
    HhStep(st, x, 32);
    st := Step(st, x, 32);
    assert st == Run(h, x, 32, 33);
    d := Hh(d, a, b, c, x[8], 11, 0 - 2022574463);
    HhStep(st, x, 33);
    st := Step(st, x, 33);
    assert st == Run(h, x, 32, 34);
    c := Hh(c, d, a, b, x[11], 16, 1839030562);
    HhStep(st, x, 34);
    st := Step(st, x, 34);
    assert st == Run(h, x, 32, 35);
    b := Hh(b, c, d, a, x[14], 23, 0 - 35309556);
    HhStep(st, x, 35);
    st := Step(st, x, 35);
    assert st == Run(h, x, 32, 36);
    a := Hh(a, b, c, d, x[1], 4, 0 - 1530992060);
    HhStep(st, x, 36);
    st := Step(st, x, 36);
    assert st == Run(h, x, 32, 37);
    d := Hh(d, a, b, c, x[4], 11, 1272893353);
    HhStep(st, x, 37);
    st := Step(st, x, 37);
    assert st == Run(h, x, 32, 38);
    c := Hh(c, d, a, b, x[7], 16, 0 - 155497632);
    HhStep(st, x, 38);
    st := Step(st, x, 38);
    assert st == Run(h, x, 32, 39);
    b := Hh(b, c, d, a, x[10], 23, 0 - 1094730640);
    HhStep(st, x, 39);
    st := Step(st, x, 39);
    assert st == Run(h, x, 32, 40);
    r := Regs(a, b, c, d);
  }

  /** The second eight `hh` lines of round 3 (source lines 76-83):
      operations 40 to 47 of RFC 1321. */
  method Round3b(h: Regs, x: seq<bv32>) returns (r: Regs)
    requires |x| == 16
    ensures r == Run(h, x, 40, 48)
  {
    var a, b, c, d := h.a, h.b, h.c, h.d;
    ghost var st := h;
    a := Hh(a, b, c, d, x[13], 4, 681279174);
    HhStep(st, x, 40);
    st := Step(st, x, 40);
    assert st == Run(h, x, 40, 41);
    d := Hh(d, a, b, c, x[0], 11, 0 - 358537222);
    HhStep(st, x, 41);
    st := Step(st, x, 41);
    assert st == Run(h, x, 40, 42);
    c := Hh(c, d, a, b, x[3], 16, 0 - 722521979);
    HhStep(st, x, 42);
    st := Step(st, x, 42);
    assert st == Run(h, x, 40, 43);
    b := Hh(b, c, d, a, x[6], 23, 76029189);
    HhStep(st, x, 43);
    st := Step(st, x, 43);
    assert st == Run(h, x, 40, 44);
    a := Hh(a, b, c, d, x[9], 4, 0 - 640364487);
    HhStep(st, x, 44);
    st := Step(st, x, 44);
    assert st == Run(h, x, 40, 45);
    d := Hh(d, a, b, c, x[12], 11, 0 - 421815835);
    HhStep(st, x, 45);
    st := Step(st, x, 45);
    assert st == Run(h, x, 40, 46);
    c := Hh(c, d, a, b, x[15], 16, 530742520);
    HhStep(st, x, 46);
    st := Step(st, x, 46);
    assert st == Run(h, x, 40, 47);
    b := Hh(b, c, d, a, x[2], 23, 0 - 995338651);
    HhStep(st, x, 47);
    st := Step(st, x, 47);
    assert st == Run(h, x, 40, 48);
    r := Regs(a, b, c, d);
  }

  /** The first eight `ii` lines of round 4 (source lines 84-91):
      operations 48 to 55 of RFC 1321. */
  method Round4a(h: Regs, x: seq<bv32>) returns (r: Regs)
    requires |x| == 16
    ensures r == Run(h, x, 48, 56)
  {
    var a, b, c, d := h.a, h.b, h.c, h.d;
    ghost var st := h;
    a := Ii(a, b, c, d, x[0], 6, 0 - 198630844);
    IiStep(st, x, 48);
    st := Step(st, x, 48);
    assert st == Run(h, x, 48, 49);
    d := Ii(d, a, b, c, x[7], 10, 1126891415);
    IiStep(st, x, 49);
    st := Step(st, x, 49);
    assert st == Run(h, x, 48, 50);
    c := Ii(c, d, a, b, x[14], 15, 0 - 1416354905);
    IiStep(st, x, 50);
    st := Step(st, x, 50);
    assert st == Run(h, x, 48, 51);
    b := Ii(b, c, d, a, x[5], 21, 0 - 57434055);
    IiStep(st, x, 51);
    st := Step(st, x, 51);
    assert st == Run(h, x, 48, 52);
    a := Ii(a, b, c, d, x[12], 6, 1700485571);
    IiStep(st, x, 52);
    st := Step(st, x, 52);
    assert st == Run(h, x, 48, 53);
    d := Ii(d, a, b, c, x[3], 10, 0 - 1894986606);
    IiStep(st, x, 53);
    st := Step(st, x, 53);
    assert st == Run(h, x, 48, 54);
    c := Ii(c, d, a, b, x[10], 15, 0 - 1051523);
    IiStep(st, x, 54);
    st := Step(st, x, 54);
    assert st == Run(h, x, 48, 55);
    b := Ii(b, c, d, a, x[1], 21, 0 - 2054922799);
    IiStep(st, x, 55);
    st := Step(st, x, 55);
    assert st == Run(h, x, 48, 56);
    r := Regs(a, b, c, d);
  }

  /** The second eight `ii` lines of round 4 (source lines 92-99):
      operations 56 to 63 of RFC 1321. */
  method Round4b(h: Regs, x: seq<bv32>) returns (r: Regs)
    requires |x| == 16
    ensures r == Run(h, x, 56, 64)
  {
    var a, b, c, d := h.a, h.b, h.c, h.d;
    ghost var st := h;
    a := Ii(a, b, c, d, x[8], 6, 1873313359);
    IiStep(st, x, 56);
    st := Step(st, x, 56);
    assert st == Run(h, x, 56, 57);
    d := Ii(d, a, b, c, x[15], 10, 0 - 30611744);
    IiStep(st, x, 57);
    st := Step(st, x, 57);
    assert st == Run(h, x, 56, 58);
    c := Ii(c, d, a, b, x[6], 15, 0 - 1560198380);
    IiStep(st, x, 58);
    st := Step(st, x, 58);
    assert st == Run(h, x, 56, 59);
    b := Ii(b, c, d, a, x[13], 21, 1309151649);
    IiStep(st, x, 59);
    st := Step(st, x, 59);
    assert st == Run(h, x, 56, 60);
    a := Ii(a, b, c, d, x[4], 6, 0 - 145523070);
    IiStep(st, x, 60);
    st := Step(st, x, 60);
    assert st == Run(h, x, 56, 61);
    d := Ii(d, a, b, c, x[11], 10, 0 - 1120210379);
    IiStep(st, x, 61);
    st := Step(st, x, 61);
    assert st == Run(h, x, 56, 62);
    c := Ii(c, d, a, b, x[2], 15, 718787259);
    IiStep(st, x, 62);
    st := Step(st, x, 62);
    assert st == Run(h, x, 56, 63);
    b := Ii(b, c, d, a, x[9], 21, 0 - 343485551);
    IiStep(st, x, 63);
    st := Step(st, x, 63);
    assert st == Run(h, x, 56, 64);
    r := Regs(a, b, c, d);
  }

  /** The loop body of md51: the 64 operations, then `a = add(a, oa)` and
      the like. */
  method Block(h: Regs, x: seq<bv32>) returns (r: Regs)
    requires |x| == 16
    ensures r == Compress(h, x)
  {
    var s := Round1a(h, x);
    s := Round1b(s, x);
    s := Round2a(s, x);
    s := Round2b(s, x);
    s := Round3a(s, x);
    s := Round3b(s, x);
    s := Round4a(s, x);
    s := Round4b(s, x);
    RunSplit(h, x, 0, 8, 16);
    RunSplit(h, x, 0, 16, 24);
    RunSplit(h, x, 0, 24, 32);
    RunSplit(h, x, 0, 32, 40);
    RunSplit(h, x, 0, 40, 48);
    RunSplit(h, x, 0, 48, 56);
    RunSplit(h, x, 0, 56, 64);
    AddPlus(s.a, h.a);
    AddPlus(s.b, h.b);
    AddPlus(s.c, h.c);
    AddPlus(s.d, h.d);
    r := Regs(Add(s.a, h.a), Add(s.b, h.b), Add(s.c, h.c), Add(s.d, h.d));
  }

  // --- Filling blks ----------------------------------------------------------

  /** `n = ((len + 8) >> 6) + 1`, the number of 64-byte blocks: room for the
      message, the 0x80 byte and the eight length bytes.  (`>> 6` of a
      non-negative value below 2^31 is division by 64.) */
  function BlockCount(len: nat): (n: nat)
    ensures n >= 1 && len + 9 <= 64 * n < len + 73
  {
    (len + 8) / 64 + 1
  }

  /** `c << ((i % 4) * 8)` for a code unit c: ToInt32 of the shifted value
      keeps its low 32 bits, so a unit of 256 or more spills into the next
      lane (or, in lane 3, loses its high byte). */
  function Lane(c: bv16, j: nat): bv32
    requires j < 4
  {
    if j == 0 then c as bv32
    else if j == 1 then (c as bv32) << 8
    else if j == 2 then (c as bv32) << 16
    else (c as bv32) << 24
  }

  /** Word q of blks after the first i iterations of the packing loop
      `blks[i >> 2] |= str.charCodeAt(i) << ((i % 4) * 8)`. */
  function Packed(str: seq<bv16>, i: nat, q: nat): bv32
    requires i <= |str|
  {
    if i == 0 then 0
    else if (i - 1) / 4 == q then Packed(str, i - 1, q) | Lane(str[i - 1], (i - 1) % 4)
    else Packed(str, i - 1, q)
  }

  /** `blks[n * 16 - 2] = len * 8`: the number is stored whole, but every
      use of a block word goes through `add`, which keeps it modulo 2^32;
      word n * 16 - 1 is never written and stays 0. */
  function LenWord(len: nat): bv32
  {
    ((8 * len) % 0x1_0000_0000) as bv32
  }

  /** The n * 16 words of blks after the packing loop. */
  function PackedWords(str: seq<bv16>): (w: seq<bv32>)
    ensures |w| == 16 * BlockCount(|str|)
    ensures forall q :: 0 <= q < |w| ==> w[q] == Packed(str, |str|, q)
  {
    seq(16 * BlockCount(|str|), q requires 0 <= q < 16 * BlockCount(|str|) => Packed(str, |str|, q))
  }

  /** The array blks once md51 has filled it: the packed code units, then
      the marker `blks[len >> 2] |= 0x80 << ((len % 4) * 8)`, then the
      length word `blks[n * 16 - 2] = len * 8`. */
  function JsWords(str: seq<bv16>): (w: seq<bv32>)
    ensures |w| == 16 * BlockCount(|str|) && |w| % 16 == 0
  {
    var p := PackedWords(str);
    var m := |str| / 4;
    PaddingLayout(|str|);
    p[m := p[m] | Lane(0x80, |str| % 4)][|p| - 2 := LenWord(|str|)]
  }

  /** Every index md51 writes is inside blks, and the marker's word comes
      before the length word. */
  lemma PaddingLayout(len: nat)
    ensures 16 * BlockCount(len) % 16 == 0
    ensures len > 0 ==> (len - 1) / 4 < 16 * BlockCount(len) - 2
    ensures len / 4 < 16 * BlockCount(len) - 2
  {
  }

  /** The packing loop of md51 over a zero-filled `blks`. */
  method PackUnits(str: seq<bv16>, blks: array<bv32>)
    requires |str| + 8 < 0x8000_0000
    requires blks.Length == 16 * BlockCount(|str|)
    requires forall q :: 0 <= q < blks.Length ==> blks[q] == 0
    modifies blks
    ensures blks[..] == PackedWords(str)
  {
    PaddingLayout(|str|);
    var i := 0;
    while i < |str|
      invariant 0 <= i <= |str|
      invariant forall q :: 0 <= q < blks.Length ==> blks[q] == Packed(str, i, q)
    {
      blks[i / 4] := blks[i / 4] | Lane(str[i], i % 4);
      i := i + 1;
    }
    assert forall q :: 0 <= q < blks.Length ==> blks[..][q] == PackedWords(str)[q];
  }

  /** `new Array(size).fill(0)`. */
  method NewFilled(size: nat) returns (a: array<bv32>)
    ensures fresh(a) && a.Length == size && forall k :: 0 <= k < size ==> a[k] == 0
  {
    a := new bv32[size](_ => 0);
  }

  /** The first part of md51: `blks` allocated zero-filled and written. */
  method FillBlocks(str: seq<bv16>) returns (blks: array<bv32>)
    requires |str| + 8 < 0x8000_0000
    ensures fresh(blks) && blks[..] == JsWords(str)
  {
    var n := BlockCount(|str|);
    blks := NewFilled(n * 16);
    PackUnits(str, blks);
    MarkAndLength(str, blks);
  }

  /** The two writes after the packing loop: the `0x80` marker after the
      last code unit and the bit length in the last block. */
  method MarkAndLength(str: seq<bv16>, blks: array<bv32>)
    requires |str| + 8 < 0x8000_0000
    requires blks[..] == PackedWords(str)
    modifies blks
    ensures blks[..] == JsWords(str)
  {
    var n := BlockCount(|str|);
    PaddingLayout(|str|);
    JsWordsWrites(str);
    ghost var packed := blks[..];
    var m := |str| / 4;
    var marker := blks[m] | Lane(0x80, |str| % 4);
    blks[m] := marker;
    assert blks[..] == packed[m := marker];
    blks[n * 16 - 2] := LenWord(|str|);
    assert blks[..] == packed[m := marker][16 * n - 2 := LenWord(|str|)];
  }

  /** The filled array is the packed words with the marker and the length
      word written over them. */
  lemma JsWordsWrites(str: seq<bv16>)
    ensures var p := PackedWords(str);
            var m := |str| / 4;
            m < 16 * BlockCount(|str|) - 2 && |p| == 16 * BlockCount(|str|)
            && JsWords(str) == p[m := p[m] | Lane(0x80, |str| % 4)][16 * BlockCount(|str|) - 2 := LenWord(|str|)]
  {
    PaddingLayout(|str|);
  }

  /** The second part of md51: every block of `blks` run through the
      buffer, which starts from the constants of section 3.3 of RFC 1321 (written as the
      source's signed numbers). */
  method RunBlocks(blks: array<bv32>, ghost n: nat) returns (r: Regs)
    requires blks.Length == 16 * n
    ensures r == Chain(blks[..])
  {
    ghost var w := blks[..];
    var a: bv32, b: bv32, c: bv32, d: bv32 := 1732584193, 0 - 271733879, 0 - 1732584194, 271733878;
    assert Regs(a, b, c, d) == Chain(w[..0]);
    var i := 0;
    ghost var k := 0;
    while i < blks.Length
      invariant 0 <= k <= n && i == 16 * k
      invariant Regs(a, b, c, d) == Chain(w[..i])
    {
      assert k + 1 <= n;
      assert i + 16 <= blks.Length == |w|;
      assert blks[i..i + 16] == w[i..i + 16];
      var s := Block(Regs(a, b, c, d), blks[i..i + 16]);
      ChainNext(w, k);
      a, b, c, d := s.a, s.b, s.c, s.d;
      i, k := i + 16, k + 1;
    }
    assert w[..i] == w;
    r := Regs(a, b, c, d);
  }

  /** md51. */
  method Md51(str: seq<bv16>) returns (r: Regs)
    requires |str| + 8 < 0x8000_0000
    ensures r == Chain(JsWords(str))
  {
    var blks := FillBlocks(str);
    r := RunBlocks(blks, BlockCount(|str|));
  }

  // --- Printing the digest -----------------------------------------------------

  /** JavaScript's `>>`, which copies the sign bit into the vacated bits. */
  function Sar(x: bv32, s: bv32): bv32
    requires s < 32
  {
    if x & 0x8000_0000 == 0 then x >> s else (x >> s) | !(0xFFFF_FFFF >> s)
  }

  /** Below the mask, `>>` and a logical shift agree. */
  lemma SarMask(num: bv32, s: bv32)
    requires s <= 24
    ensures Sar(num, s) & 0xFF == (num >> s) & 0xFF
  {
  }

  /** `(num >> (j * 8)) & 0xff` is byte j of the word, low-order first: the
      copied sign bits lie above the mask. */
  lemma ByteOfWord(num: bv32, j: nat)
    requires j < 4
    ensures (j * 8) as bv32 <= 24
    ensures (Sar(num, (j * 8) as bv32) & 0xFF) as nat == WordBytes(num)[j] as nat
  {
    if j == 0 {
      assert (j * 8) as bv32 == 0;
    } else if j == 1 {
      assert (j * 8) as bv32 == 8;
    } else if j == 2 {
      assert (j * 8) as bv32 == 16;
    } else {
      assert (j * 8) as bv32 == 24;
    }
    SarMask(num, (j * 8) as bv32);
  }

  /** Number.prototype.toString(16) of a non-negative integer: the digits
      without leading zeros. */
  function RadixHex(v: nat): (r: string)
    ensures r != []
    decreases v
  {
    if v < 16 then [HexDigit(v)] else RadixHex(v / 16) + [HexDigit(v % 16)]
  }

  /** `('0' + v.toString(16)).slice(-2)` is the two-digit form of a byte. */
  lemma TwoDigits(v: nat)
    requires v < 256
    ensures JsStrings.SliceFrom("0" + RadixHex(v), -2) == [HexDigit(v / 16), HexDigit(v % 16)]
  {
    if v >= 16 {
      assert RadixHex(v / 16) == [HexDigit(v / 16)];
    }
  }

  /** `toHex`: the word's four bytes, low-order first, two digits each. */
  method ToHex(num: bv32) returns (s: string)
    ensures s == Hex(WordBytes(num))
  {
    s := "";
    for j := 0 to 4
      invariant s == Hex(WordBytes(num)[..j])
    {
      ByteOfWord(num, j);
      var v := (Sar(num, (j * 8) as bv32) & 0xFF) as nat;
      TwoDigits(v);
      HexNext(WordBytes(num), j);
      s := s + JsStrings.SliceFrom("0" + RadixHex(v), -2);
    }
    assert WordBytes(num)[..4] == WordBytes(num);
  }

  /** The string md5 returns for a message of code units. */
  function Md5Hex(str: seq<bv16>): string
  {
    assert |JsWords(str)| % 16 == 0 by { WholeBlocks(BlockCount(|str|)); }
    Hex(Output(Chain(JsWords(str))))
  }

  /** `md5(str)`: always 32 lowercase hexadecimal digits. */
  method Md5(str: seq<bv16>) returns (s: string)
    requires |str| + 8 < 0x8000_0000
    ensures s == Md5Hex(str)
    ensures |s| == 32 && forall i :: 0 <= i < |s| ==> IsHexDigit(s[i])
  {
    var out := Md51(str);
    var s0 := ToHex(out.a);
    var s1 := ToHex(out.b);
    var s2 := ToHex(out.c);
    var s3 := ToHex(out.d);
    s := s0 + s1 + s2 + s3;
    HexAppend(WordBytes(out.a), WordBytes(out.b));
    HexAppend(WordBytes(out.a) + WordBytes(out.b), WordBytes(out.c));
    HexAppend(WordBytes(out.a) + WordBytes(out.b) + WordBytes(out.c), WordBytes(out.d));
    HexDigits(Output(out));
  }
}

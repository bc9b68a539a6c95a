// The MD5 message-digest algorithm as RFC 1321 describes it: padding
// (sections 3.1 and 3.2), the initial buffer (section 3.3), the four rounds of
// sixteen operations over a 16-word block (section 3.4) and the output
// (section 3.5), written to be read against the RFC rather than against any
// implementation.

module Rfc1321 {

  /** The four-word buffer (A, B, C, D). */
  datatype Regs = Regs(a: bv32, b: bv32, c: bv32, d: bv32)

  /** Section 3.3: word A = 01 23 45 67, B = 89 ab cd ef, C = fe dc ba 98,
      D = 76 54 32 10, low-order bytes first. */
  const Init: Regs := Regs(0x67452301, 0xefcdab89, 0x98badcfe, 0x10325476)

  /** Word addition modulo 2^32, the RFC's "+". */
  function Plus(x: bv32, y: bv32): bv32 { x + y }

  /** X <<< s, the circular left shift. */
  function Rotl(x: bv32, s: bv32): bv32
    requires 0 < s < 32
  {
    (x << s) | (x >> (32 - s))
  }

  /** The auxiliary functions of section 3.4. */
  function F(x: bv32, y: bv32, z: bv32): bv32 { (x & y) | (!x & z) }
  function G(x: bv32, y: bv32, z: bv32): bv32 { (x & z) | (y & !z) }
  function H(x: bv32, y: bv32, z: bv32): bv32 { x ^ y ^ z }
  function I(x: bv32, y: bv32, z: bv32): bv32 { y ^ (x | !z) }

  /** The auxiliary function of operation i: F in round 1, G in round 2,
      H in round 3, I in round 4. */
  function Aux(i: nat, x: bv32, y: bv32, z: bv32): bv32
    requires i < 64
  {
    if i < 16 then F(x, y, z) else if i < 32 then G(x, y, z) else if i < 48 then H(x, y, z) else I(x, y, z)
  }

  /** T[i + 1] of section 3.4: the integer part of 4294967296 * abs(sin(i + 1)),
      listed by operation (a binary decision over i rather than a table
      lookup, which the verifier handles far more cheaply). */
  function T(i: nat): bv32
    requires i < 64
  {
    if i < 32 then
      if i < 16 then
        if i < 8 then
          (if i < 4 then (if i < 2 then (if i < 1 then 0xd76aa478 else 0xe8c7b756) else (if i < 3 then 0x242070db else 0xc1bdceee)) else (if i < 6 then (if i < 5 then 0xf57c0faf else 0x4787c62a) else (if i < 7 then 0xa8304613 else 0xfd469501)))
        else
          (if i < 12 then (if i < 10 then (if i < 9 then 0x698098d8 else 0x8b44f7af) else (if i < 11 then 0xffff5bb1 else 0x895cd7be)) else (if i < 14 then (if i < 13 then 0x6b901122 else 0xfd987193) else (if i < 15 then 0xa679438e else 0x49b40821)))
      else
        if i < 24 then
          (if i < 20 then (if i < 18 then (if i < 17 then 0xf61e2562 else 0xc040b340) else (if i < 19 then 0x265e5a51 else 0xe9b6c7aa)) else (if i < 22 then (if i < 21 then 0xd62f105d else 0x02441453) else (if i < 23 then 0xd8a1e681 else 0xe7d3fbc8)))
        else
          (if i < 28 then (if i < 26 then (if i < 25 then 0x21e1cde6 else 0xc33707d6) else (if i < 27 then 0xf4d50d87 else 0x455a14ed)) else (if i < 30 then (if i < 29 then 0xa9e3e905 else 0xfcefa3f8) else (if i < 31 then 0x676f02d9 else 0x8d2a4c8a)))
    else
      if i < 48 then
        if i < 40 then
          (if i < 36 then (if i < 34 then (if i < 33 then 0xfffa3942 else 0x8771f681) else (if i < 35 then 0x6d9d6122 else 0xfde5380c)) else (if i < 38 then (if i < 37 then 0xa4beea44 else 0x4bdecfa9) else (if i < 39 then 0xf6bb4b60 else 0xbebfbc70)))
        else
          (if i < 44 then (if i < 42 then (if i < 41 then 0x289b7ec6 else 0xeaa127fa) else (if i < 43 then 0xd4ef3085 else 0x04881d05)) else (if i < 46 then (if i < 45 then 0xd9d4d039 else 0xe6db99e5) else (if i < 47 then 0x1fa27cf8 else 0xc4ac5665)))
      else
        if i < 56 then
          (if i < 52 then (if i < 50 then (if i < 49 then 0xf4292244 else 0x432aff97) else (if i < 51 then 0xab9423a7 else 0xfc93a039)) else (if i < 54 then (if i < 53 then 0x655b59c3 else 0x8f0ccc92) else (if i < 55 then 0xffeff47d else 0x85845dd1)))
        else
          (if i < 60 then (if i < 58 then (if i < 57 then 0x6fa87e4f else 0xfe2ce6e0) else (if i < 59 then 0xa3014314 else 0x4e0811a1)) else (if i < 62 then (if i < 61 then 0xf7537e82 else 0xbd3af235) else (if i < 63 then 0x2ad7d2bb else 0xeb86d391)))
  }

  /** The shift amount s of operation i, as the RFC lists it
      (7, 12, 17, 22 in round 1; 5, 9, 14, 20; 4, 11, 16, 23; 6, 10, 15, 21). */
  function S(i: nat): (s: bv32)
    requires i < 64
    ensures 0 < s < 32
  {
    if i < 32 then
      if i < 16 then
        if i < 8 then
          (if i < 4 then (if i < 2 then (if i < 1 then 7 else 12) else (if i < 3 then 17 else 22)) else (if i < 6 then (if i < 5 then 7 else 12) else (if i < 7 then 17 else 22)))
        else
          (if i < 12 then (if i < 10 then (if i < 9 then 7 else 12) else (if i < 11 then 17 else 22)) else (if i < 14 then (if i < 13 then 7 else 12) else (if i < 15 then 17 else 22)))
      else
        if i < 24 then
          (if i < 20 then (if i < 18 then (if i < 17 then 5 else 9) else (if i < 19 then 14 else 20)) else (if i < 22 then (if i < 21 then 5 else 9) else (if i < 23 then 14 else 20)))
        else
          (if i < 28 then (if i < 26 then (if i < 25 then 5 else 9) else (if i < 27 then 14 else 20)) else (if i < 30 then (if i < 29 then 5 else 9) else (if i < 31 then 14 else 20)))
    else
      if i < 48 then
        if i < 40 then
          (if i < 36 then (if i < 34 then (if i < 33 then 4 else 11) else (if i < 35 then 16 else 23)) else (if i < 38 then (if i < 37 then 4 else 11) else (if i < 39 then 16 else 23)))
        else
          (if i < 44 then (if i < 42 then (if i < 41 then 4 else 11) else (if i < 43 then 16 else 23)) else (if i < 46 then (if i < 45 then 4 else 11) else (if i < 47 then 16 else 23)))
      else
        if i < 56 then
          (if i < 52 then (if i < 50 then (if i < 49 then 6 else 10) else (if i < 51 then 15 else 21)) else (if i < 54 then (if i < 53 then 6 else 10) else (if i < 55 then 15 else 21)))
        else
          (if i < 60 then (if i < 58 then (if i < 57 then 6 else 10) else (if i < 59 then 15 else 21)) else (if i < 62 then (if i < 61 then 6 else 10) else (if i < 63 then 15 else 21)))
  }

  /** The index k of the block word X[k] that operation i reads, as the RFC
      lists it round by round. */
  function K(i: nat): (k: nat)
    requires i < 64
    ensures k < 16
  {
    if i < 32 then
      if i < 16 then
        if i < 8 then
          (if i < 4 then (if i < 2 then (if i < 1 then 0 else 1) else (if i < 3 then 2 else 3)) else (if i < 6 then (if i < 5 then 4 else 5) else (if i < 7 then 6 else 7)))
        else
          (if i < 12 then (if i < 10 then (if i < 9 then 8 else 9) else (if i < 11 then 10 else 11)) else (if i < 14 then (if i < 13 then 12 else 13) else (if i < 15 then 14 else 15)))
      else
        if i < 24 then
          (if i < 20 then (if i < 18 then (if i < 17 then 1 else 6) else (if i < 19 then 11 else 0)) else (if i < 22 then (if i < 21 then 5 else 10) else (if i < 23 then 15 else 4)))
        else
          (if i < 28 then (if i < 26 then (if i < 25 then 9 else 14) else (if i < 27 then 3 else 8)) else (if i < 30 then (if i < 29 then 13 else 2) else (if i < 31 then 7 else 12)))
    else
      if i < 48 then
        if i < 40 then
          (if i < 36 then (if i < 34 then (if i < 33 then 5 else 8) else (if i < 35 then 11 else 14)) else (if i < 38 then (if i < 37 then 1 else 4) else (if i < 39 then 7 else 10)))
        else
          (if i < 44 then (if i < 42 then (if i < 41 then 13 else 0) else (if i < 43 then 3 else 6)) else (if i < 46 then (if i < 45 then 9 else 12) else (if i < 47 then 15 else 2)))
      else
        if i < 56 then
          (if i < 52 then (if i < 50 then (if i < 49 then 0 else 7) else (if i < 51 then 14 else 5)) else (if i < 54 then (if i < 53 then 12 else 3) else (if i < 55 then 10 else 1)))
        else
          (if i < 60 then (if i < 58 then (if i < 57 then 8 else 15) else (if i < 59 then 6 else 13)) else (if i < 62 then (if i < 61 then 4 else 11) else (if i < 63 then 2 else 9)))
  }

  /** Operation i, "a = b + ((a + Aux(b,c,d) + X[k] + T[i]) <<< s)", on the
      buffer rotated so that the word it updates is always first; the
      updated word moves to second place, ready for the next operation.  The
      four addends are grouped as (a + Aux) + (X[k] + T[i]). */
  function Step(st: Regs, x: seq<bv32>, i: nat): Regs
    requires |x| == 16 && i < 64
  {
    Regs(st.d, Plus(st.b, Rotl(Plus(Plus(st.a, Aux(i, st.b, st.c, st.d)), Plus(x[K(i)], T(i))), S(i))), st.b, st.c)
  }

  /** Operations i .. j - 1 applied in order. */
  function Run(st: Regs, x: seq<bv32>, i: nat, j: nat): Regs
    requires |x| == 16 && i <= j <= 64
    decreases j - i
  {
    if i == j then st else Step(Run(st, x, i, j - 1), x, j - 1)
  }

  /** Running i .. k is running i .. j and then j .. k. */
  lemma {:induction false} RunSplit(st: Regs, x: seq<bv32>, i: nat, j: nat, k: nat)
    requires |x| == 16 && i <= j <= k <= 64
    ensures Run(st, x, i, k) == Run(Run(st, x, i, j), x, j, k)
    decreases k - j
  {
    if j < k {
      RunSplit(st, x, i, j, k - 1);
    }
  }

  /** One 16-word block: the 64 operations, then each word of the buffer
      incremented by the value it had before the block. */
  function Compress(h: Regs, x: seq<bv32>): Regs
    requires |x| == 16
  {
    var r := Run(h, x, 0, 64);
    Regs(Plus(r.a, h.a), Plus(r.b, h.b), Plus(r.c, h.c), Plus(r.d, h.d))
  }

  /** The buffer after processing every block of a word sequence whose
      length is a multiple of 16, starting from Init. */
  function Chain(w: seq<bv32>): Regs
    requires |w| % 16 == 0
  {
    if w == [] then Init else Compress(Chain(w[..|w| - 16]), w[|w| - 16..])
  }

  /** Chaining one more block onto a prefix of whole blocks. */
  lemma ChainNext(w: seq<bv32>, k: nat)
    requires 16 * k + 16 <= |w|
    ensures (16 * k) % 16 == 0 && (16 * k + 16) % 16 == 0
    ensures Chain(w[..16 * k + 16]) == Compress(Chain(w[..16 * k]), w[16 * k..16 * k + 16])
  {
    assert (16 * k) % 16 == 0 && (16 * k + 16) % 16 == 0 by { WholeBlocks(k); WholeBlocks(k + 1); }
    var u := w[..16 * k + 16];
    assert u[..|u| - 16] == w[..16 * k];
    assert u[|u| - 16..] == w[16 * k..16 * k + 16];
  }

  // --- Padding, sections 3.1 and 3.2 -------------------------------------

  /** The number of zero bytes after the single 0x80 byte, so that the
      padded length is 56 modulo 64. */
  function ZeroCount(len: nat): (z: nat)
    ensures z < 64 && (len + 1 + z) % 64 == 56
    ensures len + 9 + z == 64 * ((len + 8) / 64 + 1)
  {
    var r := (len + 8) % 64;
    assert len + 8 == 64 * ((len + 8) / 64) + r;
    assert (55 - len) % 64 == 63 - r;
    (55 - len) % 64
  }

  function Zeros(n: nat): (r: seq<bv8>)
    ensures |r| == n && forall i :: 0 <= i < n ==> r[i] == 0
  {
    if n == 0 then [] else Zeros(n - 1) + [0]
  }

  /** The bit length of the message modulo 2^64 ("if b is greater than
      2^64, then only the low-order 64 bits of b are used"). */
  function BitLength(len: nat): (b: nat)
    ensures b < 0x1_0000_0000_0000_0000
  {
    (8 * len) % 0x1_0000_0000_0000_0000
  }

  /** Section 3.2: the 64-bit length appended as two 32-bit words, low-order
      word first, each word low-order byte first. */
  function LengthBytes(len: nat): (r: seq<bv8>)
    ensures |r| == 8
  {
    var b := BitLength(len);
    WordBytes((b % 0x1_0000_0000) as bv32) + WordBytes((b / 0x1_0000_0000) as bv32)
  }

  function Pad(m: seq<bv8>): (r: seq<bv8>)
    ensures |r| == 64 * ((|m| + 8) / 64 + 1) && |m| + 9 <= |r| < |m| + 73
    ensures r[..|m|] == m && r[|m|] == 0x80
    ensures forall i :: |m| < i < |r| - 8 ==> r[i] == 0
    ensures r[|r| - 8..] == LengthBytes(|m|)
  {
    m + [0x80] + Zeros(ZeroCount(|m|)) + LengthBytes(|m|)
  }

  /** 64 n bytes are 16 n words, a whole number of blocks. */
  lemma WholeBlocks(n: nat)
    ensures (64 * n) % 4 == 0 && (64 * n) / 4 == 16 * n && (16 * n) % 16 == 0
  {
  }

  /** The word at index q of a byte sequence, low-order byte first. */
  function WordAt(m: seq<bv8>, q: nat): bv32
    requires 4 * q + 4 <= |m|
  {
    (m[4 * q] as bv32) | ((m[4 * q + 1] as bv32) << 8) | ((m[4 * q + 2] as bv32) << 16) | ((m[4 * q + 3] as bv32) << 24)
  }

  function Words(m: seq<bv8>): (w: seq<bv32>)
    requires |m| % 4 == 0
    ensures |w| == |m| / 4 && forall q :: 0 <= q < |w| ==> w[q] == WordAt(m, q)
  {
    seq(|m| / 4, q requires 0 <= q < |m| / 4 => WordAt(m, q))
  }

  /** The four bytes of a word, low-order byte first. */
  function WordBytes(w: bv32): (r: seq<bv8>)
    ensures |r| == 4
  {
    [(w & 0xFF) as bv8, ((w >> 8) & 0xFF) as bv8, ((w >> 16) & 0xFF) as bv8, ((w >> 24) & 0xFF) as bv8]
  }

  /** Reading back the four bytes of a word gives the word. */
  lemma WordAtBytes(w: bv32)
    ensures WordAt(WordBytes(w), 0) == w
  {
  }

  /** Two words written out byte by byte read back as the same two words. */
  lemma WordPairBytes(lo: bv32, hi: bv32)
    ensures WordAt(WordBytes(lo) + WordBytes(hi), 0) == lo
    ensures WordAt(WordBytes(lo) + WordBytes(hi), 1) == hi
  {
    WordAtBytes(lo);
    WordAtBytes(hi);
    var r := WordBytes(lo) + WordBytes(hi);
    assert r[4] == WordBytes(hi)[0] && r[5] == WordBytes(hi)[1] && r[6] == WordBytes(hi)[2] && r[7] == WordBytes(hi)[3];
    assert r[0] == WordBytes(lo)[0] && r[1] == WordBytes(lo)[1] && r[2] == WordBytes(lo)[2] && r[3] == WordBytes(lo)[3];
  }

  /** The two words of the length bytes are the low and the high half of
      the bit count. */
  lemma LengthBytesWords(len: nat)
    ensures WordAt(LengthBytes(len), 0) == (BitLength(len) % 0x1_0000_0000) as bv32
    ensures WordAt(LengthBytes(len), 1) == (BitLength(len) / 0x1_0000_0000) as bv32
  {
    var b := BitLength(len);
    WordPairBytes((b % 0x1_0000_0000) as bv32, (b / 0x1_0000_0000) as bv32);
  }

  /** Words of a suffix that starts on a word boundary. */
  lemma WordAtSuffix(p: seq<bv8>, s: seq<bv8>, k: nat, q: nat)
    requires 4 * k <= |p| && p[4 * k..] == s && 4 * q + 4 <= |s|
    ensures 4 * (k + q) + 4 <= |p| && WordAt(p, k + q) == WordAt(s, q)
  {
    assert p[4 * (k + q)] == s[4 * q] && p[4 * (k + q) + 1] == s[4 * q + 1];
    assert p[4 * (k + q) + 2] == s[4 * q + 2] && p[4 * (k + q) + 3] == s[4 * q + 3];
  }

  /** The last two words of the padded message are the words of the
      length bytes. */
  lemma PadTail(m: seq<bv8>, k: nat)
    requires 4 * k + 8 == |Pad(m)|
    ensures WordAt(Pad(m), k) == WordAt(LengthBytes(|m|), 0)
    ensures WordAt(Pad(m), k + 1) == WordAt(LengthBytes(|m|), 1)
  {
    WordAtSuffix(Pad(m), LengthBytes(|m|), k, 0);
    WordAtSuffix(Pad(m), LengthBytes(|m|), k, 1);
  }

  /** The last two words of the padded message are the low and the high
      half of the bit count. */
  lemma PadLengthWords(m: seq<bv8>, k: nat)
    requires 4 * k + 8 == |Pad(m)|
    ensures WordAt(Pad(m), k) == (BitLength(|m|) % 0x1_0000_0000) as bv32
    ensures WordAt(Pad(m), k + 1) == (BitLength(|m|) / 0x1_0000_0000) as bv32
  {
    PadTail(m, k);
    LengthBytesWords(|m|);
  }

  /** A bit count below 2^32 leaves the high length word zero. */
  lemma ShortBitLength(len: nat)
    requires 8 * len < 0x1_0000_0000
    ensures BitLength(len) == 8 * len && BitLength(len) / 0x1_0000_0000 == 0
  {
  }

  /** Section 3.5: A, B, C, D, beginning with the low-order byte of A. */
  function Output(r: Regs): (out: seq<bv8>)
    ensures |out| == 16
  {
    WordBytes(r.a) + WordBytes(r.b) + WordBytes(r.c) + WordBytes(r.d)
  }

  function Digest(m: seq<bv8>): (out: seq<bv8>)
    ensures |out| == 16
  {
    var p := Pad(m);
    var n := (|m| + 8) / 64 + 1;
    assert |p| % 4 == 0 && (|p| / 4) % 16 == 0 by { WholeBlocks(n); }
    Output(Chain(Words(p)))
  }

  // --- Hexadecimal, as the test suite of appendix A.5 prints digests ------

  /** A lowercase hexadecimal digit. */
  predicate IsHexDigit(c: char) { '0' <= c <= '9' || 'a' <= c <= 'f' }

  function HexDigit(v: nat): (c: char)
    requires v < 16
    ensures IsHexDigit(c)
  {
    if v < 8 then
      if v < 4 then (if v == 0 then '0' else if v == 1 then '1' else if v == 2 then '2' else '3')
      else (if v == 4 then '4' else if v == 5 then '5' else if v == 6 then '6' else '7')
    else
      if v < 12 then (if v == 8 then '8' else if v == 9 then '9' else if v == 10 then 'a' else 'b')
      else (if v == 12 then 'c' else if v == 13 then 'd' else if v == 14 then 'e' else 'f')
  }

  function HexByte(b: bv8): (r: string)
    ensures |r| == 2 && IsHexDigit(r[0]) && IsHexDigit(r[1])
  {
    var v := b as nat;
    assert v < 256;
    [HexDigit(v / 16), HexDigit(v % 16)]
  }

  function Hex(bytes: seq<bv8>): (r: string)
    ensures |r| == 2 * |bytes|
  {
    if bytes == [] then "" else Hex(bytes[..|bytes| - 1]) + HexByte(bytes[|bytes| - 1])
  }

  /** Hex spells lowercase hexadecimal digits only. */
  lemma {:induction false} HexDigits(bytes: seq<bv8>)
    ensures forall i :: 0 <= i < |Hex(bytes)| ==> IsHexDigit(Hex(bytes)[i])
  {
    if bytes != [] {
      var init := bytes[..|bytes| - 1];
      HexDigits(init);
      var h := HexByte(bytes[|bytes| - 1]);
      assert Hex(bytes) == Hex(init) + h;
      assert forall i :: 0 <= i < |h| ==> IsHexDigit(h[i]) by {
        assert IsHexDigit(h[0]) && IsHexDigit(h[1]);
      }
    }
  }

  lemma HexNext(b: seq<bv8>, j: nat)
    requires j < |b|
    ensures Hex(b[..j + 1]) == Hex(b[..j]) + HexByte(b[j])
  {
    assert b[..j + 1][..j] == b[..j];
  }

  lemma {:induction false} HexAppend(u: seq<bv8>, v: seq<bv8>)
    ensures Hex(u + v) == Hex(u) + Hex(v)
    decreases |v|
  {
    if v == [] {
      assert u + v == u;
    } else {
      assert (u + v)[..|u + v| - 1] == u + v[..|v| - 1];
      HexAppend(u, v[..|v| - 1]);
    }
  }

  function HexDigest(m: seq<bv8>): (r: string)
    ensures |r| == 32
  {
    Hex(Digest(m))
  }
}

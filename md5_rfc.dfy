// The MD5 of the Firefox page hook agrees with RFC 1321 on every message
// whose UTF-16 code units are all below 256 and whose bit length fits in 32
// bits: the two differ only in how they lay the message out in words, and
// that layout is the same.

module Md5Agreement {
  import opened Rfc1321
  import opened Md5

  /** Every code unit is one byte (the Latin-1 range). */
  predicate OneByteUnits(str: seq<bv16>)
  {
    forall k :: 0 <= k < |str| ==> str[k] < 256
  }

  function LowByte(c: bv16): bv8 { (c & 0xFF) as bv8 }

  /** The low byte of each code unit. */
  function LowBytes(str: seq<bv16>): (m: seq<bv8>)
    ensures |m| == |str| && forall k :: 0 <= k < |str| ==> m[k] == LowByte(str[k])
  {
    seq(|str|, k requires 0 <= k < |str| => LowByte(str[k]))
  }

  /** The value md51 ends up or-ing into lane t of a word for message
      position k: the code unit, the 0x80 marker, or nothing. */
  function Unit(str: seq<bv16>, k: nat, t: nat): bv32
    requires t < 4
  {
    if k < |str| then Lane(str[k], t) else if k == |str| then Lane(0x80, t) else 0
  }

  /** The contribution of the first i code units to lane t of a word. */
  function Part(str: seq<bv16>, i: nat, k: nat, t: nat): bv32
    requires i <= |str| && t < 4
  {
    if k < i then Lane(str[k], t) else 0
  }

  // Or-ing a value into a lane that was still empty, lane by lane.

  lemma OrLane0(p0: bv32, p1: bv32, p2: bv32, p3: bv32, l: bv32)
    requires p0 == 0
    ensures (p0 | p1 | p2 | p3) | l == l | p1 | p2 | p3
  {
  }

  lemma OrLane1(p0: bv32, p1: bv32, p2: bv32, p3: bv32, l: bv32)
    requires p1 == 0
    ensures (p0 | p1 | p2 | p3) | l == p0 | l | p2 | p3
  {
  }

  lemma OrLane2(p0: bv32, p1: bv32, p2: bv32, p3: bv32, l: bv32)
    requires p2 == 0
    ensures (p0 | p1 | p2 | p3) | l == p0 | p1 | l | p3
  {
  }

  lemma OrLane3(p0: bv32, p1: bv32, p2: bv32, p3: bv32, l: bv32)
    requires p3 == 0
    ensures (p0 | p1 | p2 | p3) | l == p0 | p1 | p2 | l
  {
  }

  // One packing step or-s unit i - 1 into lane t of word q = (i - 1) / 4,
  // for each t; the other lanes keep their units.

  lemma PartsLane0(str: seq<bv16>, i: nat, q: nat)
    requires 0 < i <= |str| && 4 * q + 0 == i - 1
    ensures (Part(str, i - 1, 4 * q, 0) | Part(str, i - 1, 4 * q + 1, 1) | Part(str, i - 1, 4 * q + 2, 2) | Part(str, i - 1, 4 * q + 3, 3)) | Lane(str[i - 1], 0)
         == Part(str, i, 4 * q, 0) | Part(str, i, 4 * q + 1, 1) | Part(str, i, 4 * q + 2, 2) | Part(str, i, 4 * q + 3, 3)
  {
    var p0, p1, p2, p3 := Part(str, i - 1, 4 * q, 0), Part(str, i - 1, 4 * q + 1, 1), Part(str, i - 1, 4 * q + 2, 2), Part(str, i - 1, 4 * q + 3, 3);
    var l := Lane(str[i - 1], 0);
    OrLane0(p0, p1, p2, p3, l);
    assert Part(str, i, 4 * q, 0) == l && Part(str, i, 4 * q + 1, 1) == p1;
    assert Part(str, i, 4 * q + 2, 2) == p2 && Part(str, i, 4 * q + 3, 3) == p3;
  }

  lemma PartsLane1(str: seq<bv16>, i: nat, q: nat)
    requires 0 < i <= |str| && 4 * q + 1 == i - 1
    ensures (Part(str, i - 1, 4 * q, 0) | Part(str, i - 1, 4 * q + 1, 1) | Part(str, i - 1, 4 * q + 2, 2) | Part(str, i - 1, 4 * q + 3, 3)) | Lane(str[i - 1], 1)
         == Part(str, i, 4 * q, 0) | Part(str, i, 4 * q + 1, 1) | Part(str, i, 4 * q + 2, 2) | Part(str, i, 4 * q + 3, 3)
  {
    var p0, p1, p2, p3 := Part(str, i - 1, 4 * q, 0), Part(str, i - 1, 4 * q + 1, 1), Part(str, i - 1, 4 * q + 2, 2), Part(str, i - 1, 4 * q + 3, 3);
    var l := Lane(str[i - 1], 1);
    OrLane1(p0, p1, p2, p3, l);
    assert Part(str, i, 4 * q, 0) == p0 && Part(str, i, 4 * q + 1, 1) == l;
    assert Part(str, i, 4 * q + 2, 2) == p2 && Part(str, i, 4 * q + 3, 3) == p3;
  }

  lemma PartsLane2(str: seq<bv16>, i: nat, q: nat)
    requires 0 < i <= |str| && 4 * q + 2 == i - 1
    ensures (Part(str, i - 1, 4 * q, 0) | Part(str, i - 1, 4 * q + 1, 1) | Part(str, i - 1, 4 * q + 2, 2) | Part(str, i - 1, 4 * q + 3, 3)) | Lane(str[i - 1], 2)
         == Part(str, i, 4 * q, 0) | Part(str, i, 4 * q + 1, 1) | Part(str, i, 4 * q + 2, 2) | Part(str, i, 4 * q + 3, 3)
  {
    var p0, p1, p2, p3 := Part(str, i - 1, 4 * q, 0), Part(str, i - 1, 4 * q + 1, 1), Part(str, i - 1, 4 * q + 2, 2), Part(str, i - 1, 4 * q + 3, 3);
    var l := Lane(str[i - 1], 2);
    OrLane2(p0, p1, p2, p3, l);
    assert Part(str, i, 4 * q, 0) == p0 && Part(str, i, 4 * q + 1, 1) == p1;
    assert Part(str, i, 4 * q + 2, 2) == l && Part(str, i, 4 * q + 3, 3) == p3;
  }

  lemma PartsLane3(str: seq<bv16>, i: nat, q: nat)
    requires 0 < i <= |str| && 4 * q + 3 == i - 1
    ensures (Part(str, i - 1, 4 * q, 0) | Part(str, i - 1, 4 * q + 1, 1) | Part(str, i - 1, 4 * q + 2, 2) | Part(str, i - 1, 4 * q + 3, 3)) | Lane(str[i - 1], 3)
         == Part(str, i, 4 * q, 0) | Part(str, i, 4 * q + 1, 1) | Part(str, i, 4 * q + 2, 2) | Part(str, i, 4 * q + 3, 3)
  {
    var p0, p1, p2, p3 := Part(str, i - 1, 4 * q, 0), Part(str, i - 1, 4 * q + 1, 1), Part(str, i - 1, 4 * q + 2, 2), Part(str, i - 1, 4 * q + 3, 3);
    var l := Lane(str[i - 1], 3);
    OrLane3(p0, p1, p2, p3, l);
    assert Part(str, i, 4 * q, 0) == p0 && Part(str, i, 4 * q + 1, 1) == p1;
    assert Part(str, i, 4 * q + 2, 2) == p2 && Part(str, i, 4 * q + 3, 3) == l;
  }

  /** A step that packs a unit of another word leaves word q's lanes alone. */
  lemma PartsOther(str: seq<bv16>, i: nat, q: nat)
    requires 0 < i <= |str| && (i - 1 < 4 * q || 4 * q + 3 < i - 1)
    ensures Part(str, i - 1, 4 * q, 0) | Part(str, i - 1, 4 * q + 1, 1) | Part(str, i - 1, 4 * q + 2, 2) | Part(str, i - 1, 4 * q + 3, 3)
         == Part(str, i, 4 * q, 0) | Part(str, i, 4 * q + 1, 1) | Part(str, i, 4 * q + 2, 2) | Part(str, i, 4 * q + 3, 3)
  {
    assert Part(str, i, 4 * q, 0) == Part(str, i - 1, 4 * q, 0);
    assert Part(str, i, 4 * q + 1, 1) == Part(str, i - 1, 4 * q + 1, 1);
    assert Part(str, i, 4 * q + 2, 2) == Part(str, i - 1, 4 * q + 2, 2);
    assert Part(str, i, 4 * q + 3, 3) == Part(str, i - 1, 4 * q + 3, 3);
  }

  // One step of the packing loop keeps word q equal to its lanes: when the
  // step packs lane t of word q, for each t, and when it packs another word.

  lemma PackedLane0(str: seq<bv16>, i: nat, q: nat)
    requires 0 < i <= |str| && 4 * q + 0 == i - 1
    requires Packed(str, i - 1, q) == Part(str, i - 1, 4 * q, 0) | Part(str, i - 1, 4 * q + 1, 1) | Part(str, i - 1, 4 * q + 2, 2) | Part(str, i - 1, 4 * q + 3, 3)
    ensures Packed(str, i, q) == Part(str, i, 4 * q, 0) | Part(str, i, 4 * q + 1, 1) | Part(str, i, 4 * q + 2, 2) | Part(str, i, 4 * q + 3, 3)
  {
    assert (i - 1) / 4 == q && (i - 1) % 4 == 0;
    PartsLane0(str, i, q);
  }

  lemma PackedLane1(str: seq<bv16>, i: nat, q: nat)
    requires 0 < i <= |str| && 4 * q + 1 == i - 1
    requires Packed(str, i - 1, q) == Part(str, i - 1, 4 * q, 0) | Part(str, i - 1, 4 * q + 1, 1) | Part(str, i - 1, 4 * q + 2, 2) | Part(str, i - 1, 4 * q + 3, 3)
    ensures Packed(str, i, q) == Part(str, i, 4 * q, 0) | Part(str, i, 4 * q + 1, 1) | Part(str, i, 4 * q + 2, 2) | Part(str, i, 4 * q + 3, 3)
  {
    assert (i - 1) / 4 == q && (i - 1) % 4 == 1;
    PartsLane1(str, i, q);
  }

  lemma PackedLane2(str: seq<bv16>, i: nat, q: nat)
    requires 0 < i <= |str| && 4 * q + 2 == i - 1
    requires Packed(str, i - 1, q) == Part(str, i - 1, 4 * q, 0) | Part(str, i - 1, 4 * q + 1, 1) | Part(str, i - 1, 4 * q + 2, 2) | Part(str, i - 1, 4 * q + 3, 3)
    ensures Packed(str, i, q) == Part(str, i, 4 * q, 0) | Part(str, i, 4 * q + 1, 1) | Part(str, i, 4 * q + 2, 2) | Part(str, i, 4 * q + 3, 3)
  {
    assert (i - 1) / 4 == q && (i - 1) % 4 == 2;
    PartsLane2(str, i, q);
  }

  lemma PackedLane3(str: seq<bv16>, i: nat, q: nat)
    requires 0 < i <= |str| && 4 * q + 3 == i - 1
    requires Packed(str, i - 1, q) == Part(str, i - 1, 4 * q, 0) | Part(str, i - 1, 4 * q + 1, 1) | Part(str, i - 1, 4 * q + 2, 2) | Part(str, i - 1, 4 * q + 3, 3)
    ensures Packed(str, i, q) == Part(str, i, 4 * q, 0) | Part(str, i, 4 * q + 1, 1) | Part(str, i, 4 * q + 2, 2) | Part(str, i, 4 * q + 3, 3)
  {
    assert (i - 1) / 4 == q && (i - 1) % 4 == 3;
    PartsLane3(str, i, q);
  }

  lemma PackedOther(str: seq<bv16>, i: nat, q: nat)
    requires 0 < i <= |str| && (i - 1 < 4 * q || 4 * q + 3 < i - 1)
    requires Packed(str, i - 1, q) == Part(str, i - 1, 4 * q, 0) | Part(str, i - 1, 4 * q + 1, 1) | Part(str, i - 1, 4 * q + 2, 2) | Part(str, i - 1, 4 * q + 3, 3)
    ensures Packed(str, i, q) == Part(str, i, 4 * q, 0) | Part(str, i, 4 * q + 1, 1) | Part(str, i, 4 * q + 2, 2) | Part(str, i, 4 * q + 3, 3)
  {
    assert (i - 1) / 4 != q;
    PartsOther(str, i, q);
  }

  lemma PackedStep(str: seq<bv16>, i: nat, q: nat)
    requires 0 < i <= |str|
    requires Packed(str, i - 1, q) == Part(str, i - 1, 4 * q, 0) | Part(str, i - 1, 4 * q + 1, 1) | Part(str, i - 1, 4 * q + 2, 2) | Part(str, i - 1, 4 * q + 3, 3)
    ensures Packed(str, i, q) == Part(str, i, 4 * q, 0) | Part(str, i, 4 * q + 1, 1) | Part(str, i, 4 * q + 2, 2) | Part(str, i, 4 * q + 3, 3)
  {
    if i - 1 == 4 * q {
      PackedLane0(str, i, q);
    } else if i - 1 == 4 * q + 1 {
      PackedLane1(str, i, q);
    } else if i - 1 == 4 * q + 2 {
      PackedLane2(str, i, q);
    } else if i - 1 == 4 * q + 3 {
      PackedLane3(str, i, q);
    } else {
      PackedOther(str, i, q);
    }
  }

  /** Word q after i packing steps holds exactly the units 4q .. 4q + 3
      among the first i, each in its own lane. */
  lemma {:induction false} PackedWord(str: seq<bv16>, i: nat, q: nat)
    requires i <= |str|
    ensures Packed(str, i, q)
         == Part(str, i, 4 * q, 0) | Part(str, i, 4 * q + 1, 1) | Part(str, i, 4 * q + 2, 2) | Part(str, i, 4 * q + 3, 3)
  {
    if i == 0 {
      assert Part(str, i, 4 * q, 0) == 0 && Part(str, i, 4 * q + 1, 1) == 0;
      assert Part(str, i, 4 * q + 2, 2) == 0 && Part(str, i, 4 * q + 3, 3) == 0;
    } else {
      PackedWord(str, i - 1, q);
      PackedStep(str, i, q);
    }
  }


  /** A unit value is the packed code unit, or the marker at the end. */
  lemma UnitSplit(str: seq<bv16>, k: nat, t: nat)
    requires t < 4
    ensures Unit(str, k, t) == if k == |str| then Lane(0x80, t) else Part(str, |str|, k, t)
    ensures k >= |str| ==> Part(str, |str|, k, t) == 0
  {
  }

  /** Word q of blks below the length words: the packed word, with the
      marker or-ed into the word that holds position |str|. */
  lemma JsWordsIndex(str: seq<bv16>, q: nat)
    requires q < 16 * BlockCount(|str|) - 2
    ensures q == |str| / 4 ==> JsWords(str)[q] == Packed(str, |str|, q) | Lane(0x80, |str| % 4)
    ensures q != |str| / 4 ==> JsWords(str)[q] == Packed(str, |str|, q)
  {
    PaddingLayout(|str|);
  }

  // The word that holds position |str| = 4q + t gets the marker in lane t,
  // for each t.

  lemma MarkerLane0(str: seq<bv16>, q: nat)
    requires 4 * q + 0 == |str|
    ensures (Part(str, |str|, 4 * q, 0) | Part(str, |str|, 4 * q + 1, 1) | Part(str, |str|, 4 * q + 2, 2) | Part(str, |str|, 4 * q + 3, 3)) | Lane(0x80, 0)
         == Unit(str, 4 * q, 0) | Unit(str, 4 * q + 1, 1) | Unit(str, 4 * q + 2, 2) | Unit(str, 4 * q + 3, 3)
  {
    var len := |str|;
    UnitSplit(str, 4 * q, 0);
    UnitSplit(str, 4 * q + 1, 1);
    UnitSplit(str, 4 * q + 2, 2);
    UnitSplit(str, 4 * q + 3, 3);
    OrLane0(Part(str, len, 4 * q, 0), Part(str, len, 4 * q + 1, 1), Part(str, len, 4 * q + 2, 2), Part(str, len, 4 * q + 3, 3), Lane(0x80, 0));
  }

  lemma MarkerLane1(str: seq<bv16>, q: nat)
    requires 4 * q + 1 == |str|
    ensures (Part(str, |str|, 4 * q, 0) | Part(str, |str|, 4 * q + 1, 1) | Part(str, |str|, 4 * q + 2, 2) | Part(str, |str|, 4 * q + 3, 3)) | Lane(0x80, 1)
         == Unit(str, 4 * q, 0) | Unit(str, 4 * q + 1, 1) | Unit(str, 4 * q + 2, 2) | Unit(str, 4 * q + 3, 3)
  {
    var len := |str|;
    UnitSplit(str, 4 * q, 0);
    UnitSplit(str, 4 * q + 1, 1);
    UnitSplit(str, 4 * q + 2, 2);
    UnitSplit(str, 4 * q + 3, 3);
    OrLane1(Part(str, len, 4 * q, 0), Part(str, len, 4 * q + 1, 1), Part(str, len, 4 * q + 2, 2), Part(str, len, 4 * q + 3, 3), Lane(0x80, 1));
  }

  lemma MarkerLane2(str: seq<bv16>, q: nat)
    requires 4 * q + 2 == |str|
    ensures (Part(str, |str|, 4 * q, 0) | Part(str, |str|, 4 * q + 1, 1) | Part(str, |str|, 4 * q + 2, 2) | Part(str, |str|, 4 * q + 3, 3)) | Lane(0x80, 2)
         == Unit(str, 4 * q, 0) | Unit(str, 4 * q + 1, 1) | Unit(str, 4 * q + 2, 2) | Unit(str, 4 * q + 3, 3)
  {
    var len := |str|;
    UnitSplit(str, 4 * q, 0);
    UnitSplit(str, 4 * q + 1, 1);
    UnitSplit(str, 4 * q + 2, 2);
    UnitSplit(str, 4 * q + 3, 3);
    OrLane2(Part(str, len, 4 * q, 0), Part(str, len, 4 * q + 1, 1), Part(str, len, 4 * q + 2, 2), Part(str, len, 4 * q + 3, 3), Lane(0x80, 2));
  }

  lemma MarkerLane3(str: seq<bv16>, q: nat)
    requires 4 * q + 3 == |str|
    ensures (Part(str, |str|, 4 * q, 0) | Part(str, |str|, 4 * q + 1, 1) | Part(str, |str|, 4 * q + 2, 2) | Part(str, |str|, 4 * q + 3, 3)) | Lane(0x80, 3)
         == Unit(str, 4 * q, 0) | Unit(str, 4 * q + 1, 1) | Unit(str, 4 * q + 2, 2) | Unit(str, 4 * q + 3, 3)
  {
    var len := |str|;
    UnitSplit(str, 4 * q, 0);
    UnitSplit(str, 4 * q + 1, 1);
    UnitSplit(str, 4 * q + 2, 2);
    UnitSplit(str, 4 * q + 3, 3);
    OrLane3(Part(str, len, 4 * q, 0), Part(str, len, 4 * q + 1, 1), Part(str, len, 4 * q + 2, 2), Part(str, len, 4 * q + 3, 3), Lane(0x80, 3));
  }

  lemma MarkerWordLanes(str: seq<bv16>, q: nat, t: nat)
    requires t < 4 && 4 * q + t == |str|
    ensures (Part(str, |str|, 4 * q, 0) | Part(str, |str|, 4 * q + 1, 1) | Part(str, |str|, 4 * q + 2, 2) | Part(str, |str|, 4 * q + 3, 3)) | Lane(0x80, t)
         == Unit(str, 4 * q, 0) | Unit(str, 4 * q + 1, 1) | Unit(str, 4 * q + 2, 2) | Unit(str, 4 * q + 3, 3)
  {
    if t == 0 {
      MarkerLane0(str, q);
    } else if t == 1 {
      MarkerLane1(str, q);
    } else if t == 2 {
      MarkerLane2(str, q);
    } else {
      MarkerLane3(str, q);
    }
  }

  /** A word away from position |str| holds just the packed units. */
  lemma PlainWordLanes(str: seq<bv16>, q: nat)
    requires |str| < 4 * q || 4 * q + 3 < |str|
    ensures Part(str, |str|, 4 * q, 0) | Part(str, |str|, 4 * q + 1, 1) | Part(str, |str|, 4 * q + 2, 2) | Part(str, |str|, 4 * q + 3, 3)
         == Unit(str, 4 * q, 0) | Unit(str, 4 * q + 1, 1) | Unit(str, 4 * q + 2, 2) | Unit(str, 4 * q + 3, 3)
  {
    UnitSplit(str, 4 * q, 0);
    UnitSplit(str, 4 * q + 1, 1);
    UnitSplit(str, 4 * q + 2, 2);
    UnitSplit(str, 4 * q + 3, 3);
  }

  /** The JavaScript side: a word of blks below the two length words holds
      the lane values of message positions 4q .. 4q + 3. */
  lemma JsWordAt(str: seq<bv16>, q: nat)
    requires q < 16 * BlockCount(|str|) - 2
    ensures JsWords(str)[q] == Unit(str, 4 * q, 0) | Unit(str, 4 * q + 1, 1) | Unit(str, 4 * q + 2, 2) | Unit(str, 4 * q + 3, 3)
  {
    JsWordsIndex(str, q);
    PackedWord(str, |str|, q);
    if q == |str| / 4 {
      var t := |str| % 4;
      assert 4 * q + t == |str|;
      MarkerWordLanes(str, q, t);
    } else {
      assert |str| < 4 * q || 4 * q + 3 < |str|;
      PlainWordLanes(str, q);
    }
  }

  /** Byte b placed in lane t of a word, as WordAt places it. */
  function ByteLane(b: bv8, t: nat): bv32
    requires t < 4
  {
    if t == 0 then b as bv32
    else if t == 1 then (b as bv32) << 8
    else if t == 2 then (b as bv32) << 16
    else (b as bv32) << 24
  }

  lemma WordAtLanes(m: seq<bv8>, q: nat)
    requires 4 * q + 4 <= |m|
    ensures WordAt(m, q) == ByteLane(m[4 * q], 0) | ByteLane(m[4 * q + 1], 1) | ByteLane(m[4 * q + 2], 2) | ByteLane(m[4 * q + 3], 3)
  {
  }

  /** The bytes of the padded message before its length bytes. */
  lemma PadByte(m: seq<bv8>, k: nat)
    requires k < |Pad(m)| - 8
    ensures Pad(m)[k] == if k < |m| then m[k] else if k == |m| then 0x80 else 0
  {
    if k < |m| {
      assert Pad(m)[k] == Pad(m)[..|m|][k];
    }
  }

  /** A code unit below 256 and its low byte fill a lane alike. */
  lemma LowByteLane(c: bv16, t: nat)
    requires c < 256 && t < 4
    ensures ByteLane(LowByte(c), t) == Lane(c, t)
  {
    assert (LowByte(c) as bv32) == (c as bv32);
  }

  lemma MarkerLane(t: nat)
    requires t < 4
    ensures ByteLane(0x80, t) == Lane(0x80, t)
  {
  }

  /** The byte RFC 1321 pads position k of the message to: the low byte of
      the code unit, the marker, or zero. */
  function UnitByte(str: seq<bv16>, k: nat): bv8
  {
    if k < |str| then LowByte(str[k]) else if k == |str| then 0x80 else 0
  }

  /** Below its length bytes, the padded low bytes are the unit bytes. */
  lemma PadUnitByte(str: seq<bv16>, p: seq<bv8>, k: nat)
    requires p == Pad(LowBytes(str)) && k < |p| - 8
    ensures p[k] == UnitByte(str, k)
  {
    PadByte(LowBytes(str), k);
  }

  /** A unit byte sits in its lane exactly as md51 puts the code unit, or
      the marker, there. */
  lemma UnitByteLane(str: seq<bv16>, k: nat, t: nat)
    requires OneByteUnits(str) && t < 4
    ensures ByteLane(UnitByte(str, k), t) == Unit(str, k, t)
  {
    if k < |str| {
      LowByteLane(str[k], t);
    } else if k == |str| {
      MarkerLane(t);
    }
  }

  /** The four lane values of word q, as unit bytes in their lanes. */
  lemma UnitLanes(str: seq<bv16>, q: nat)
    requires OneByteUnits(str)
    ensures Unit(str, 4 * q, 0) | Unit(str, 4 * q + 1, 1) | Unit(str, 4 * q + 2, 2) | Unit(str, 4 * q + 3, 3)
         == ByteLane(UnitByte(str, 4 * q), 0) | ByteLane(UnitByte(str, 4 * q + 1), 1)
          | ByteLane(UnitByte(str, 4 * q + 2), 2) | ByteLane(UnitByte(str, 4 * q + 3), 3)
  {
    UnitByteLane(str, 4 * q, 0);
    UnitByteLane(str, 4 * q + 1, 1);
    UnitByteLane(str, 4 * q + 2, 2);
    UnitByteLane(str, 4 * q + 3, 3);
  }

  /** The four bytes of word q of the padded message are unit bytes. */
  lemma PadUnitBytes(str: seq<bv16>, p: seq<bv8>, q: nat)
    requires p == Pad(LowBytes(str)) && 4 * q + 4 <= |p| - 8
    ensures p[4 * q] == UnitByte(str, 4 * q) && p[4 * q + 1] == UnitByte(str, 4 * q + 1)
    ensures p[4 * q + 2] == UnitByte(str, 4 * q + 2) && p[4 * q + 3] == UnitByte(str, 4 * q + 3)
  {
    PadUnitByte(str, p, 4 * q);
    PadUnitByte(str, p, 4 * q + 1);
    PadUnitByte(str, p, 4 * q + 2);
    PadUnitByte(str, p, 4 * q + 3);
  }

  lemma PadLength(str: seq<bv16>)
    ensures |Pad(LowBytes(str))| == 64 * BlockCount(|str|)
  {
    var m := LowBytes(str);
    assert |m| == |str|;
    var n := BlockCount(|str|);
    assert n == (|m| + 8) / 64 + 1;
  }

  /** The RFC side: the same word of the padded message holds the same lane
      values. */
  lemma RfcWordAt(str: seq<bv16>, q: nat)
    requires OneByteUnits(str)
    requires q < 16 * BlockCount(|str|) - 2
    ensures 4 * q + 4 <= |Pad(LowBytes(str))|
    ensures WordAt(Pad(LowBytes(str)), q) == Unit(str, 4 * q, 0) | Unit(str, 4 * q + 1, 1) | Unit(str, 4 * q + 2, 2) | Unit(str, 4 * q + 3, 3)
  {
    var p := Pad(LowBytes(str));
    PadLength(str);
    assert 4 * q + 4 <= |p| - 8;
    PadUnitBytes(str, p, q);
    UnitLanes(str, q);
    WordAtLanes(p, q);
  }

  /** The low 32 bits of the 64-bit bit count are the bit count mod 2^32. */
  lemma LowBits(x: nat)
    ensures (x % 0x1_0000_0000_0000_0000) % 0x1_0000_0000 == x % 0x1_0000_0000
  {
    var a := x / 0x1_0000_0000_0000_0000;
    var r := x % 0x1_0000_0000_0000_0000;
    assert x == 0x1_0000_0000 * (0x1_0000_0000 * a) + r;
    var c := 0x1_0000_0000 * a;
    assert (0x1_0000_0000 * c + r) % 0x1_0000_0000 == r % 0x1_0000_0000;
  }

  /** The low length word is the word md51 stores, and the high one is
      zero for a bit count below 2^32. */
  lemma LenWordHalves(len: nat)
    ensures (BitLength(len) % 0x1_0000_0000) as bv32 == LenWord(len)
    ensures 8 * len < 0x1_0000_0000 ==> (BitLength(len) / 0x1_0000_0000) as bv32 == 0
  {
    LowBits(8 * len);
    if 8 * len < 0x1_0000_0000 {
      ShortBitLength(len);
    }
  }

  /** Where the padded message holds 4k + 8 bytes, its words k and k + 1
      are the length words: the word md51 stores, and zero for a bit count
      below 2^32. */
  lemma LengthWordsAt(m: seq<bv8>, k: nat)
    requires 4 * k + 8 == |Pad(m)|
    ensures WordAt(Pad(m), k) == LenWord(|m|)
    ensures 8 * |m| < 0x1_0000_0000 ==> WordAt(Pad(m), k + 1) == 0
  {
    PadLengthWords(m, k);
    LenWordHalves(|m|);
  }

  lemma LengthWords(m: seq<bv8>)
    ensures |Pad(m)| == 64 * BlockCount(|m|)
    ensures WordAt(Pad(m), 16 * BlockCount(|m|) - 2) == LenWord(|m|)
    ensures 8 * |m| < 0x1_0000_0000 ==> WordAt(Pad(m), 16 * BlockCount(|m|) - 1) == 0
  {
    LengthWordsAt(m, 16 * BlockCount(|m|) - 2);
  }

  /** The JavaScript length words: the bit count, and the untouched zero. */
  lemma JsLengthWords(str: seq<bv16>)
    ensures JsWords(str)[16 * BlockCount(|str|) - 2] == LenWord(|str|)
    ensures JsWords(str)[16 * BlockCount(|str|) - 1] == 0
  {
    var n := BlockCount(|str|);
    PaddingLayout(|str|);
    PastEnd(str, 16 * n - 1);
  }

  /** A word past the end of the message is never written by the packing
      loop. */
  lemma PastEnd(str: seq<bv16>, q: nat)
    requires |str| < 4 * q
    ensures Packed(str, |str|, q) == 0
  {
    PackedWord(str, |str|, q);
    assert Part(str, |str|, 4 * q, 0) == 0 && Part(str, |str|, 4 * q + 1, 1) == 0;
    assert Part(str, |str|, 4 * q + 2, 2) == 0 && Part(str, |str|, 4 * q + 3, 3) == 0;
  }

  // The two length words of blks are those of any padded message of the
  // same length.

  lemma LowTailAgrees(str: seq<bv16>, m: seq<bv8>)
    requires |m| == |str|
    ensures 4 * (16 * BlockCount(|str|) - 2) + 4 <= |Pad(m)|
    ensures JsWords(str)[16 * BlockCount(|str|) - 2] == WordAt(Pad(m), 16 * BlockCount(|str|) - 2)
  {
    JsLengthWords(str);
    LengthWords(m);
  }

  lemma HighTailAgrees(str: seq<bv16>, m: seq<bv8>)
    requires |m| == |str| && 8 * |str| < 0x1_0000_0000
    ensures 4 * (16 * BlockCount(|str|) - 1) + 4 <= |Pad(m)|
    ensures JsWords(str)[16 * BlockCount(|str|) - 1] == WordAt(Pad(m), 16 * BlockCount(|str|) - 1)
  {
    JsLengthWords(str);
    LengthWords(m);
  }

  // Word q of blks is word q of the padded low bytes: below the length
  // words, at the low length word, and at the high one.

  lemma BodyWordAgrees(str: seq<bv16>, q: nat)
    requires OneByteUnits(str)
    requires q < 16 * BlockCount(|str|) - 2
    ensures 4 * q + 4 <= |Pad(LowBytes(str))|
    ensures JsWords(str)[q] == WordAt(Pad(LowBytes(str)), q)
  {
    JsWordAt(str, q);
    RfcWordAt(str, q);
  }

  lemma LowWordAgrees(str: seq<bv16>, q: nat)
    requires q == 16 * BlockCount(|str|) - 2
    ensures 4 * q + 4 <= |Pad(LowBytes(str))|
    ensures JsWords(str)[q] == WordAt(Pad(LowBytes(str)), q)
  {
    LowTailAgrees(str, LowBytes(str));
  }

  lemma HighWordAgrees(str: seq<bv16>, q: nat)
    requires 8 * |str| < 0x1_0000_0000
    requires q == 16 * BlockCount(|str|) - 1
    ensures 4 * q + 4 <= |Pad(LowBytes(str))|
    ensures JsWords(str)[q] == WordAt(Pad(LowBytes(str)), q)
  {
    HighTailAgrees(str, LowBytes(str));
  }

  lemma WordAgrees(str: seq<bv16>, q: nat)
    requires OneByteUnits(str) && 8 * |str| < 0x1_0000_0000
    requires q < 16 * BlockCount(|str|)
    ensures 4 * q + 4 <= |Pad(LowBytes(str))|
    ensures JsWords(str)[q] == WordAt(Pad(LowBytes(str)), q)
  {
    if q < 16 * BlockCount(|str|) - 2 {
      BodyWordAgrees(str, q);
    } else if q == 16 * BlockCount(|str|) - 2 {
      LowWordAgrees(str, q);
    } else {
      HighWordAgrees(str, q);
    }
  }

  /** For a string of one-byte code units whose bit count fits in 32 bits,
      md51 runs the compression function over exactly the words of the
      padded message of section 3.1 and 3.2 of RFC 1321. */
  lemma JsWordsAgree(str: seq<bv16>)
    requires OneByteUnits(str) && 8 * |str| < 0x1_0000_0000
    ensures |Pad(LowBytes(str))| % 4 == 0
    ensures JsWords(str) == Words(Pad(LowBytes(str)))
  {
    var m := LowBytes(str);
    var n := BlockCount(|str|);
    LengthWords(m);
    assert |m| == |str|;
    WholeBlocks(n);
    var w := Words(Pad(m));
    assert |w| == 16 * n;
    forall q | 0 <= q < 16 * n
      ensures JsWords(str)[q] == w[q]
    {
      WordAgrees(str, q);
    }
  }

  /** md5 of such a string is the RFC 1321 digest of its bytes, in
      lowercase hexadecimal. */
  lemma Md5Agrees(str: seq<bv16>)
    requires OneByteUnits(str) && 8 * |str| < 0x1_0000_0000
    ensures Md5Hex(str) == HexDigest(LowBytes(str))
  {
    JsWordsAgree(str);
  }
}

// Section A.5 of RFC 1321: the digest of the empty message, stepped
// through the 64 operations of its single block, and md5 of the empty
// string through the agreement of the two models.

module Vectors {
  import opened Rfc1321
  import Md5
  import Md5Agreement

  /** The padded empty message: the marker byte, then zeros (the bit count
      is zero). */
  const EmptyBlock: seq<bv32> := [0x80, 0, 0, 0, 0, 0, 0, 0, 0, 0, 0, 0, 0, 0, 0, 0]
  // The 64 steps over that block, eight at a time.

  lemma EmptyRun0()
    ensures Run(Regs(0x67452301, 0xefcdab89, 0x98badcfe, 0x10325476), EmptyBlock, 0, 8) == Regs(0x32033344, 0x9bc13ce9, 0xf5b158db, 0x2f35d494)
  {
    var st := Regs(0x67452301, 0xefcdab89, 0x98badcfe, 0x10325476);
    assert Step(Regs(0x67452301, 0xefcdab89, 0x98badcfe, 0x10325476), EmptyBlock, 0) == Regs(0x10325476, 0xa5202774, 0xefcdab89, 0x98badcfe);
    assert Run(st, EmptyBlock, 0, 1) == Regs(0x10325476, 0xa5202774, 0xefcdab89, 0x98badcfe);
    assert Step(Regs(0x10325476, 0xa5202774, 0xefcdab89, 0x98badcfe), EmptyBlock, 1) == Regs(0x98badcfe, 0xf59592dd, 0xa5202774, 0xefcdab89);
    assert Run(st, EmptyBlock, 0, 2) == Regs(0x98badcfe, 0xf59592dd, 0xa5202774, 0xefcdab89);
    assert Step(Regs(0x98badcfe, 0xf59592dd, 0xa5202774, 0xefcdab89), EmptyBlock, 2) == Regs(0xefcdab89, 0xe7f06b23, 0xf59592dd, 0xa5202774);
    assert Run(st, EmptyBlock, 0, 3) == Regs(0xefcdab89, 0xe7f06b23, 0xf59592dd, 0xa5202774);
    assert Step(Regs(0xefcdab89, 0xe7f06b23, 0xf59592dd, 0xa5202774), EmptyBlock, 3) == Regs(0xa5202774, 0x1b163203, 0xe7f06b23, 0xf59592dd);
    assert Run(st, EmptyBlock, 0, 4) == Regs(0xa5202774, 0x1b163203, 0xe7f06b23, 0xf59592dd);
    assert Step(Regs(0xa5202774, 0x1b163203, 0xe7f06b23, 0xf59592dd), EmptyBlock, 4) == Regs(0xf59592dd, 0x32033344, 0x1b163203, 0xe7f06b23);
    assert Run(st, EmptyBlock, 0, 5) == Regs(0xf59592dd, 0x32033344, 0x1b163203, 0xe7f06b23);
    assert Step(Regs(0xf59592dd, 0x32033344, 0x1b163203, 0xe7f06b23), EmptyBlock, 5) == Regs(0xe7f06b23, 0x2f35d494, 0x32033344, 0x1b163203);
    assert Run(st, EmptyBlock, 0, 6) == Regs(0xe7f06b23, 0x2f35d494, 0x32033344, 0x1b163203);
    assert Step(Regs(0xe7f06b23, 0x2f35d494, 0x32033344, 0x1b163203), EmptyBlock, 6) == Regs(0x1b163203, 0xf5b158db, 0x2f35d494, 0x32033344);
    assert Run(st, EmptyBlock, 0, 7) == Regs(0x1b163203, 0xf5b158db, 0x2f35d494, 0x32033344);
    assert Step(Regs(0x1b163203, 0xf5b158db, 0x2f35d494, 0x32033344), EmptyBlock, 7) == Regs(0x32033344, 0x9bc13ce9, 0xf5b158db, 0x2f35d494);
    assert Run(st, EmptyBlock, 0, 8) == Regs(0x32033344, 0x9bc13ce9, 0xf5b158db, 0x2f35d494);
  }
  lemma EmptyRun1()
    ensures Run(Regs(0x32033344, 0x9bc13ce9, 0xf5b158db, 0x2f35d494), EmptyBlock, 8, 16) == Regs(0xf56c7cf1, 0xd6819c6a, 0x5aa53f75, 0x374943a7)
  {
    var st := Regs(0x32033344, 0x9bc13ce9, 0xf5b158db, 0x2f35d494);
    assert Step(Regs(0x32033344, 0x9bc13ce9, 0xf5b158db, 0x2f35d494), EmptyBlock, 8) == Regs(0x2f35d494, 0x3893b991, 0x9bc13ce9, 0xf5b158db);
    assert Run(st, EmptyBlock, 8, 9) == Regs(0x2f35d494, 0x3893b991, 0x9bc13ce9, 0xf5b158db);
    assert Step(Regs(0x2f35d494, 0x3893b991, 0x9bc13ce9, 0xf5b158db), EmptyBlock, 9) == Regs(0xf5b158db, 0xfce4a312, 0x3893b991, 0x9bc13ce9);
    assert Run(st, EmptyBlock, 8, 10) == Regs(0xf5b158db, 0xfce4a312, 0x3893b991, 0x9bc13ce9);
    assert Step(Regs(0xf5b158db, 0xfce4a312, 0x3893b991, 0x9bc13ce9), EmptyBlock, 10) == Regs(0x9bc13ce9, 0xe1ef0576, 0xfce4a312, 0x3893b991);
    assert Run(st, EmptyBlock, 8, 11) == Regs(0x9bc13ce9, 0xe1ef0576, 0xfce4a312, 0x3893b991);
    assert Step(Regs(0x9bc13ce9, 0xe1ef0576, 0xfce4a312, 0x3893b991), EmptyBlock, 11) == Regs(0x3893b991, 0x70768a29, 0xe1ef0576, 0xfce4a312);
    assert Run(st, EmptyBlock, 8, 12) == Regs(0x3893b991, 0x70768a29, 0xe1ef0576, 0xfce4a312);
    assert Step(Regs(0x3893b991, 0x70768a29, 0xe1ef0576, 0xfce4a312), EmptyBlock, 12) == Regs(0xfce4a312, 0xf56c7cf1, 0x70768a29, 0xe1ef0576);
    assert Run(st, EmptyBlock, 8, 13) == Regs(0xfce4a312, 0xf56c7cf1, 0x70768a29, 0xe1ef0576);
    assert Step(Regs(0xfce4a312, 0xf56c7cf1, 0x70768a29, 0xe1ef0576), EmptyBlock, 13) == Regs(0xe1ef0576, 0x374943a7, 0xf56c7cf1, 0x70768a29);
    assert Run(st, EmptyBlock, 8, 14) == Regs(0xe1ef0576, 0x374943a7, 0xf56c7cf1, 0x70768a29);
    assert Step(Regs(0xe1ef0576, 0x374943a7, 0xf56c7cf1, 0x70768a29), EmptyBlock, 14) == Regs(0x70768a29, 0x5aa53f75, 0x374943a7, 0xf56c7cf1);
    assert Run(st, EmptyBlock, 8, 15) == Regs(0x70768a29, 0x5aa53f75, 0x374943a7, 0xf56c7cf1);
    assert Step(Regs(0x70768a29, 0x5aa53f75, 0x374943a7, 0xf56c7cf1), EmptyBlock, 15) == Regs(0xf56c7cf1, 0xd6819c6a, 0x5aa53f75, 0x374943a7);
    assert Run(st, EmptyBlock, 8, 16) == Regs(0xf56c7cf1, 0xd6819c6a, 0x5aa53f75, 0x374943a7);
  }
  lemma EmptyRun2()
    ensures Run(Regs(0xf56c7cf1, 0xd6819c6a, 0x5aa53f75, 0x374943a7), EmptyBlock, 16, 24) == Regs(0x3d1e3e6c, 0xe422531a, 0xeb41643e, 0x68b7b3e3)
  {
    var st := Regs(0xf56c7cf1, 0xd6819c6a, 0x5aa53f75, 0x374943a7);
    assert Step(Regs(0xf56c7cf1, 0xd6819c6a, 0x5aa53f75, 0x374943a7), EmptyBlock, 16) == Regs(0x374943a7, 0x1c7d7513, 0xd6819c6a, 0x5aa53f75);
    assert Run(st, EmptyBlock, 16, 17) == Regs(0x374943a7, 0x1c7d7513, 0xd6819c6a, 0x5aa53f75);
    assert Step(Regs(0x374943a7, 0x1c7d7513, 0xd6819c6a, 0x5aa53f75), EmptyBlock, 17) == Regs(0x5aa53f75, 0x7bd57a3a, 0x1c7d7513, 0xd6819c6a);
    assert Run(st, EmptyBlock, 16, 18) == Regs(0x5aa53f75, 0x7bd57a3a, 0x1c7d7513, 0xd6819c6a);
    assert Step(Regs(0x5aa53f75, 0x7bd57a3a, 0x1c7d7513, 0xd6819c6a), EmptyBlock, 18) == Regs(0xd6819c6a, 0xc095f13a, 0x7bd57a3a, 0x1c7d7513);
    assert Run(st, EmptyBlock, 16, 19) == Regs(0xd6819c6a, 0xc095f13a, 0x7bd57a3a, 0x1c7d7513);
    assert Step(Regs(0xd6819c6a, 0xc095f13a, 0x7bd57a3a, 0x1c7d7513), EmptyBlock, 19) == Regs(0x1c7d7513, 0xbd782e17, 0xc095f13a, 0x7bd57a3a);
    assert Run(st, EmptyBlock, 16, 20) == Regs(0x1c7d7513, 0xbd782e17, 0xc095f13a, 0x7bd57a3a);
    assert Step(Regs(0x1c7d7513, 0xbd782e17, 0xc095f13a, 0x7bd57a3a), EmptyBlock, 20) == Regs(0x7bd57a3a, 0x3d1e3e6c, 0xbd782e17, 0xc095f13a);
    assert Run(st, EmptyBlock, 16, 21) == Regs(0x7bd57a3a, 0x3d1e3e6c, 0xbd782e17, 0xc095f13a);
    assert Step(Regs(0x7bd57a3a, 0x3d1e3e6c, 0xbd782e17, 0xc095f13a), EmptyBlock, 21) == Regs(0xc095f13a, 0x68b7b3e3, 0x3d1e3e6c, 0xbd782e17);
    assert Run(st, EmptyBlock, 16, 22) == Regs(0xc095f13a, 0x68b7b3e3, 0x3d1e3e6c, 0xbd782e17);
    assert Step(Regs(0xc095f13a, 0x68b7b3e3, 0x3d1e3e6c, 0xbd782e17), EmptyBlock, 22) == Regs(0xbd782e17, 0xeb41643e, 0x68b7b3e3, 0x3d1e3e6c);
    assert Run(st, EmptyBlock, 16, 23) == Regs(0xbd782e17, 0xeb41643e, 0x68b7b3e3, 0x3d1e3e6c);
    assert Step(Regs(0xbd782e17, 0xeb41643e, 0x68b7b3e3, 0x3d1e3e6c), EmptyBlock, 23) == Regs(0x3d1e3e6c, 0xe422531a, 0xeb41643e, 0x68b7b3e3);
    assert Run(st, EmptyBlock, 16, 24) == Regs(0x3d1e3e6c, 0xe422531a, 0xeb41643e, 0x68b7b3e3);
  }
  lemma EmptyRun3()
    ensures Run(Regs(0x3d1e3e6c, 0xe422531a, 0xeb41643e, 0x68b7b3e3), EmptyBlock, 24, 32) == Regs(0x13707036, 0xa2205f1f, 0x1c31c384, 0xae7813db)
  {
    var st := Regs(0x3d1e3e6c, 0xe422531a, 0xeb41643e, 0x68b7b3e3);
    assert Step(Regs(0x3d1e3e6c, 0xe422531a, 0xeb41643e, 0x68b7b3e3), EmptyBlock, 24) == Regs(0x68b7b3e3, 0x306ec122, 0xe422531a, 0xeb41643e);
    assert Run(st, EmptyBlock, 24, 25) == Regs(0x68b7b3e3, 0x306ec122, 0xe422531a, 0xeb41643e);
    assert Step(Regs(0x68b7b3e3, 0x306ec122, 0xe422531a, 0xeb41643e), EmptyBlock, 25) == Regs(0xeb41643e, 0xd28c77c2, 0x306ec122, 0xe422531a);
    assert Run(st, EmptyBlock, 24, 26) == Regs(0xeb41643e, 0xd28c77c2, 0x306ec122, 0xe422531a);
    assert Step(Regs(0xeb41643e, 0xd28c77c2, 0x306ec122, 0xe422531a), EmptyBlock, 26) == Regs(0xe422531a, 0xa3c663da, 0xd28c77c2, 0x306ec122);
    assert Run(st, EmptyBlock, 24, 27) == Regs(0xe422531a, 0xa3c663da, 0xd28c77c2, 0x306ec122);
    assert Step(Regs(0xe422531a, 0xa3c663da, 0xd28c77c2, 0x306ec122), EmptyBlock, 27) == Regs(0x306ec122, 0xa0572807, 0xa3c663da, 0xd28c77c2);
    assert Run(st, EmptyBlock, 24, 28) == Regs(0x306ec122, 0xa0572807, 0xa3c663da, 0xd28c77c2);
    assert Step(Regs(0x306ec122, 0xa0572807, 0xa3c663da, 0xd28c77c2), EmptyBlock, 28) == Regs(0xd28c77c2, 0x13707036, 0xa0572807, 0xa3c663da);
    assert Run(st, EmptyBlock, 24, 29) == Regs(0xd28c77c2, 0x13707036, 0xa0572807, 0xa3c663da);
    assert Step(Regs(0xd28c77c2, 0x13707036, 0xa0572807, 0xa3c663da), EmptyBlock, 29) == Regs(0xa3c663da, 0xae7813db, 0x13707036, 0xa0572807);
    assert Run(st, EmptyBlock, 24, 30) == Regs(0xa3c663da, 0xae7813db, 0x13707036, 0xa0572807);
    assert Step(Regs(0xa3c663da, 0xae7813db, 0x13707036, 0xa0572807), EmptyBlock, 30) == Regs(0xa0572807, 0x1c31c384, 0xae7813db, 0x13707036);
    assert Run(st, EmptyBlock, 24, 31) == Regs(0xa0572807, 0x1c31c384, 0xae7813db, 0x13707036);
    assert Step(Regs(0xa0572807, 0x1c31c384, 0xae7813db, 0x13707036), EmptyBlock, 31) == Regs(0x13707036, 0xa2205f1f, 0x1c31c384, 0xae7813db);
    assert Run(st, EmptyBlock, 24, 32) == Regs(0x13707036, 0xa2205f1f, 0x1c31c384, 0xae7813db);
  }
  lemma EmptyRun4()
    ensures Run(Regs(0x13707036, 0xa2205f1f, 0x1c31c384, 0xae7813db), EmptyBlock, 32, 40) == Regs(0x5f7a9b2e, 0xc5dc8c15, 0x91ca4cb7, 0xabc34e16)
  {
    var st := Regs(0x13707036, 0xa2205f1f, 0x1c31c384, 0xae7813db);
    assert Step(Regs(0x13707036, 0xa2205f1f, 0x1c31c384, 0xae7813db), EmptyBlock, 32) == Regs(0xae7813db, 0xdf63eaa1, 0xa2205f1f, 0x1c31c384);
    assert Run(st, EmptyBlock, 32, 33) == Regs(0xae7813db, 0xdf63eaa1, 0xa2205f1f, 0x1c31c384);
    assert Step(Regs(0xae7813db, 0xdf63eaa1, 0xa2205f1f, 0x1c31c384), EmptyBlock, 33) == Regs(0x1c31c384, 0xc3689f5b, 0xdf63eaa1, 0xa2205f1f);
    assert Run(st, EmptyBlock, 32, 34) == Regs(0x1c31c384, 0xc3689f5b, 0xdf63eaa1, 0xa2205f1f);
    assert Step(Regs(0x1c31c384, 0xc3689f5b, 0xdf63eaa1, 0xa2205f1f), EmptyBlock, 34) == Regs(0xa2205f1f, 0x12f3e755, 0xc3689f5b, 0xdf63eaa1);
    assert Run(st, EmptyBlock, 32, 35) == Regs(0xa2205f1f, 0x12f3e755, 0xc3689f5b, 0xdf63eaa1);
    assert Step(Regs(0xa2205f1f, 0x12f3e755, 0xc3689f5b, 0xdf63eaa1), EmptyBlock, 35) == Regs(0xdf63eaa1, 0x004b6669, 0x12f3e755, 0xc3689f5b);
    assert Run(st, EmptyBlock, 32, 36) == Regs(0xdf63eaa1, 0x004b6669, 0x12f3e755, 0xc3689f5b);
    assert Step(Regs(0xdf63eaa1, 0x004b6669, 0x12f3e755, 0xc3689f5b), EmptyBlock, 36) == Regs(0xc3689f5b, 0x5f7a9b2e, 0x004b6669, 0x12f3e755);
    assert Run(st, EmptyBlock, 32, 37) == Regs(0xc3689f5b, 0x5f7a9b2e, 0x004b6669, 0x12f3e755);
    assert Step(Regs(0xc3689f5b, 0x5f7a9b2e, 0x004b6669, 0x12f3e755), EmptyBlock, 37) == Regs(0x12f3e755, 0xabc34e16, 0x5f7a9b2e, 0x004b6669);
    assert Run(st, EmptyBlock, 32, 38) == Regs(0x12f3e755, 0xabc34e16, 0x5f7a9b2e, 0x004b6669);
    assert Step(Regs(0x12f3e755, 0xabc34e16, 0x5f7a9b2e, 0x004b6669), EmptyBlock, 38) == Regs(0x004b6669, 0x91ca4cb7, 0xabc34e16, 0x5f7a9b2e);
    assert Run(st, EmptyBlock, 32, 39) == Regs(0x004b6669, 0x91ca4cb7, 0xabc34e16, 0x5f7a9b2e);
    assert Step(Regs(0x004b6669, 0x91ca4cb7, 0xabc34e16, 0x5f7a9b2e), EmptyBlock, 39) == Regs(0x5f7a9b2e, 0xc5dc8c15, 0x91ca4cb7, 0xabc34e16);
    assert Run(st, EmptyBlock, 32, 40) == Regs(0x5f7a9b2e, 0xc5dc8c15, 0x91ca4cb7, 0xabc34e16);
  }
  lemma EmptyRun5()
    ensures Run(Regs(0x5f7a9b2e, 0xc5dc8c15, 0x91ca4cb7, 0xabc34e16), EmptyBlock, 40, 48) == Regs(0x3f55edfd, 0xca7d2dbd, 0x68d84ea2, 0x22a31f54)
  {
    var st := Regs(0x5f7a9b2e, 0xc5dc8c15, 0x91ca4cb7, 0xabc34e16);
    assert Step(Regs(0x5f7a9b2e, 0xc5dc8c15, 0x91ca4cb7, 0xabc34e16), EmptyBlock, 40) == Regs(0xabc34e16, 0x4497169d, 0xc5dc8c15, 0x91ca4cb7);
    assert Run(st, EmptyBlock, 40, 41) == Regs(0xabc34e16, 0x4497169d, 0xc5dc8c15, 0x91ca4cb7);
    assert Step(Regs(0xabc34e16, 0x4497169d, 0xc5dc8c15, 0x91ca4cb7), EmptyBlock, 41) == Regs(0x91ca4cb7, 0x76fd93d4, 0x4497169d, 0xc5dc8c15);
    assert Run(st, EmptyBlock, 40, 42) == Regs(0x91ca4cb7, 0x76fd93d4, 0x4497169d, 0xc5dc8c15);
    assert Step(Regs(0x91ca4cb7, 0x76fd93d4, 0x4497169d, 0xc5dc8c15), EmptyBlock, 42) == Regs(0xc5dc8c15, 0xfd95f243, 0x76fd93d4, 0x4497169d);
    assert Run(st, EmptyBlock, 40, 43) == Regs(0xc5dc8c15, 0xfd95f243, 0x76fd93d4, 0x4497169d);
    assert Step(Regs(0xc5dc8c15, 0xfd95f243, 0x76fd93d4, 0x4497169d), EmptyBlock, 43) == Regs(0x4497169d, 0x0fe32453, 0xfd95f243, 0x76fd93d4);
    assert Run(st, EmptyBlock, 40, 44) == Regs(0x4497169d, 0x0fe32453, 0xfd95f243, 0x76fd93d4);
    assert Step(Regs(0x4497169d, 0x0fe32453, 0xfd95f243, 0x76fd93d4), EmptyBlock, 44) == Regs(0x76fd93d4, 0x3f55edfd, 0x0fe32453, 0xfd95f243);
    assert Run(st, EmptyBlock, 40, 45) == Regs(0x76fd93d4, 0x3f55edfd, 0x0fe32453, 0xfd95f243);
    assert Step(Regs(0x76fd93d4, 0x3f55edfd, 0x0fe32453, 0xfd95f243), EmptyBlock, 45) == Regs(0xfd95f243, 0x22a31f54, 0x3f55edfd, 0x0fe32453);
    assert Run(st, EmptyBlock, 40, 46) == Regs(0xfd95f243, 0x22a31f54, 0x3f55edfd, 0x0fe32453);
    assert Step(Regs(0xfd95f243, 0x22a31f54, 0x3f55edfd, 0x0fe32453), EmptyBlock, 46) == Regs(0x0fe32453, 0x68d84ea2, 0x22a31f54, 0x3f55edfd);
    assert Run(st, EmptyBlock, 40, 47) == Regs(0x0fe32453, 0x68d84ea2, 0x22a31f54, 0x3f55edfd);
    assert Step(Regs(0x0fe32453, 0x68d84ea2, 0x22a31f54, 0x3f55edfd), EmptyBlock, 47) == Regs(0x3f55edfd, 0xca7d2dbd, 0x68d84ea2, 0x22a31f54);
    assert Run(st, EmptyBlock, 40, 48) == Regs(0x3f55edfd, 0xca7d2dbd, 0x68d84ea2, 0x22a31f54);
  }
  lemma EmptyRun6()
    ensures Run(Regs(0x3f55edfd, 0xca7d2dbd, 0x68d84ea2, 0x22a31f54), EmptyBlock, 48, 56) == Regs(0x5625a114, 0x1e77fa61, 0x392ad0d0, 0x3450f42b)
  {
    var st := Regs(0x3f55edfd, 0xca7d2dbd, 0x68d84ea2, 0x22a31f54);
    assert Step(Regs(0x3f55edfd, 0xca7d2dbd, 0x68d84ea2, 0x22a31f54), EmptyBlock, 48) == Regs(0x22a31f54, 0x93aa2577, 0xca7d2dbd, 0x68d84ea2);
    assert Run(st, EmptyBlock, 48, 49) == Regs(0x22a31f54, 0x93aa2577, 0xca7d2dbd, 0x68d84ea2);
    assert Step(Regs(0x22a31f54, 0x93aa2577, 0xca7d2dbd, 0x68d84ea2), EmptyBlock, 49) == Regs(0x68d84ea2, 0x1688dc85, 0x93aa2577, 0xca7d2dbd);
    assert Run(st, EmptyBlock, 48, 50) == Regs(0x68d84ea2, 0x1688dc85, 0x93aa2577, 0xca7d2dbd);
    assert Step(Regs(0x68d84ea2, 0x1688dc85, 0x93aa2577, 0xca7d2dbd), EmptyBlock, 50) == Regs(0xca7d2dbd, 0xcd85b8cb, 0x1688dc85, 0x93aa2577);
    assert Run(st, EmptyBlock, 48, 51) == Regs(0xca7d2dbd, 0xcd85b8cb, 0x1688dc85, 0x93aa2577);
    assert Step(Regs(0xca7d2dbd, 0xcd85b8cb, 0x1688dc85, 0x93aa2577), EmptyBlock, 51) == Regs(0x93aa2577, 0x561e0689, 0xcd85b8cb, 0x1688dc85);
    assert Run(st, EmptyBlock, 48, 52) == Regs(0x93aa2577, 0x561e0689, 0xcd85b8cb, 0x1688dc85);
    assert Step(Regs(0x93aa2577, 0x561e0689, 0xcd85b8cb, 0x1688dc85), EmptyBlock, 52) == Regs(0x1688dc85, 0x5625a114, 0x561e0689, 0xcd85b8cb);
    assert Run(st, EmptyBlock, 48, 53) == Regs(0x1688dc85, 0x5625a114, 0x561e0689, 0xcd85b8cb);
    assert Step(Regs(0x1688dc85, 0x5625a114, 0x561e0689, 0xcd85b8cb), EmptyBlock, 53) == Regs(0xcd85b8cb, 0x3450f42b, 0x5625a114, 0x561e0689);
    assert Run(st, EmptyBlock, 48, 54) == Regs(0xcd85b8cb, 0x3450f42b, 0x5625a114, 0x561e0689);
    assert Step(Regs(0xcd85b8cb, 0x3450f42b, 0x5625a114, 0x561e0689), EmptyBlock, 54) == Regs(0x561e0689, 0x392ad0d0, 0x3450f42b, 0x5625a114);
    assert Run(st, EmptyBlock, 48, 55) == Regs(0x561e0689, 0x392ad0d0, 0x3450f42b, 0x5625a114);
    assert Step(Regs(0x561e0689, 0x392ad0d0, 0x3450f42b, 0x5625a114), EmptyBlock, 55) == Regs(0x5625a114, 0x1e77fa61, 0x392ad0d0, 0x3450f42b);
    assert Run(st, EmptyBlock, 48, 56) == Regs(0x5625a114, 0x1e77fa61, 0x392ad0d0, 0x3450f42b);
  }
  lemma EmptyRun7()
    ensures Run(Regs(0x5625a114, 0x1e77fa61, 0x392ad0d0, 0x3450f42b), EmptyBlock, 56, 64) == Regs(0x7246fad3, 0x14e45506, 0xff4ea3eb, 0x6e10a476)
  {
    var st := Regs(0x5625a114, 0x1e77fa61, 0x392ad0d0, 0x3450f42b);
    assert Step(Regs(0x5625a114, 0x1e77fa61, 0x392ad0d0, 0x3450f42b), EmptyBlock, 56) == Regs(0x3450f42b, 0x474a9c8c, 0x1e77fa61, 0x392ad0d0);
    assert Run(st, EmptyBlock, 56, 57) == Regs(0x3450f42b, 0x474a9c8c, 0x1e77fa61, 0x392ad0d0);
    assert Step(Regs(0x3450f42b, 0x474a9c8c, 0x1e77fa61, 0x392ad0d0), EmptyBlock, 57) == Regs(0x392ad0d0, 0xdfce00bc, 0x474a9c8c, 0x1e77fa61);
    assert Run(st, EmptyBlock, 56, 58) == Regs(0x392ad0d0, 0xdfce00bc, 0x474a9c8c, 0x1e77fa61);
    assert Step(Regs(0x392ad0d0, 0xdfce00bc, 0x474a9c8c, 0x1e77fa61), EmptyBlock, 58) == Regs(0x1e77fa61, 0x36594b14, 0xdfce00bc, 0x474a9c8c);
    assert Run(st, EmptyBlock, 56, 59) == Regs(0x1e77fa61, 0x36594b14, 0xdfce00bc, 0x474a9c8c);
    assert Step(Regs(0x1e77fa61, 0x36594b14, 0xdfce00bc, 0x474a9c8c), EmptyBlock, 59) == Regs(0x474a9c8c, 0x30130182, 0x36594b14, 0xdfce00bc);
    assert Run(st, EmptyBlock, 56, 60) == Regs(0x474a9c8c, 0x30130182, 0x36594b14, 0xdfce00bc);
    assert Step(Regs(0x474a9c8c, 0x30130182, 0x36594b14, 0xdfce00bc), EmptyBlock, 60) == Regs(0xdfce00bc, 0x7246fad3, 0x30130182, 0x36594b14);
    assert Run(st, EmptyBlock, 56, 61) == Regs(0xdfce00bc, 0x7246fad3, 0x30130182, 0x36594b14);
    assert Step(Regs(0xdfce00bc, 0x7246fad3, 0x30130182, 0x36594b14), EmptyBlock, 61) == Regs(0x36594b14, 0x6e10a476, 0x7246fad3, 0x30130182);
    assert Run(st, EmptyBlock, 56, 62) == Regs(0x36594b14, 0x6e10a476, 0x7246fad3, 0x30130182);
    assert Step(Regs(0x36594b14, 0x6e10a476, 0x7246fad3, 0x30130182), EmptyBlock, 62) == Regs(0x30130182, 0xff4ea3eb, 0x6e10a476, 0x7246fad3);
    assert Run(st, EmptyBlock, 56, 63) == Regs(0x30130182, 0xff4ea3eb, 0x6e10a476, 0x7246fad3);
    assert Step(Regs(0x30130182, 0xff4ea3eb, 0x6e10a476, 0x7246fad3), EmptyBlock, 63) == Regs(0x7246fad3, 0x14e45506, 0xff4ea3eb, 0x6e10a476);
    assert Run(st, EmptyBlock, 56, 64) == Regs(0x7246fad3, 0x14e45506, 0xff4ea3eb, 0x6e10a476);
  }

  lemma EmptyCompress()
    ensures Compress(Init, EmptyBlock) == EmptyState
  {
    EmptyRun0(); EmptyRun1(); EmptyRun2(); EmptyRun3();
    EmptyRun4(); EmptyRun5(); EmptyRun6(); EmptyRun7();
    RunSplit(Init, EmptyBlock, 0, 8, 16);
    RunSplit(Init, EmptyBlock, 0, 16, 24);
    RunSplit(Init, EmptyBlock, 0, 24, 32);
    RunSplit(Init, EmptyBlock, 0, 32, 40);
    RunSplit(Init, EmptyBlock, 0, 40, 48);
    RunSplit(Init, EmptyBlock, 0, 48, 56);
    RunSplit(Init, EmptyBlock, 0, 56, 64);
  }

  lemma EmptyWords()
    ensures |Pad([])| == 64 && Words(Pad([])) == EmptyBlock
  {
    EmptyBodyWords();
    EmptyLengthWords();
  }

  lemma EmptyLengthWords()
    ensures |Pad([])| == 64
    ensures Words(Pad([]))[14] == 0 && Words(Pad([]))[15] == 0
  {
    EmptyBodyWords();
    Md5Agreement.LengthWordsAt([], 14);
    assert Md5.LenWord(0) == 0;
  }

  lemma EmptyBodyWords()
    ensures |Pad([])| == 64
    ensures forall q :: 0 <= q < 14 ==> Words(Pad([]))[q] == EmptyBlock[q]
  {
    var w := Words(Pad([]));
    forall q | 0 <= q < 14
      ensures w[q] == EmptyBlock[q]
    {
      PadByteEmpty(4 * q);
      PadByteEmpty(4 * q + 1);
      PadByteEmpty(4 * q + 2);
      PadByteEmpty(4 * q + 3);
    }
  }

  lemma PadByteEmpty(k: nat)
    requires k < 56
    ensures Pad([])[k] == if k == 0 then 0x80 else 0
  {
    Md5Agreement.PadByte([], k);
  }

  lemma HexWordA()
    ensures Hex(WordBytes(0xd98c1dd4)) == "d41d8cd9"
  {
    var b := WordBytes(0xd98c1dd4);
    assert b == [0xd4, 0x1d, 0x8c, 0xd9];
    assert HexByte(0xd4) == "d4";
    assert HexByte(0x1d) == "1d";
    assert HexByte(0x8c) == "8c";
    assert HexByte(0xd9) == "d9";
    assert b[..0] == [] && b[..4] == b;
    HexNext(b, 0);
    HexNext(b, 1);
    HexNext(b, 2);
    HexNext(b, 3);
  }

  lemma HexWordB()
    ensures Hex(WordBytes(0x04b2008f)) == "8f00b204"
  {
    var b := WordBytes(0x04b2008f);
    assert b == [0x8f, 0x00, 0xb2, 0x04];
    assert HexByte(0x8f) == "8f";
    assert HexByte(0x00) == "00";
    assert HexByte(0xb2) == "b2";
    assert HexByte(0x04) == "04";
    assert b[..0] == [] && b[..4] == b;
    HexNext(b, 0);
    HexNext(b, 1);
    HexNext(b, 2);
    HexNext(b, 3);
  }

  lemma HexWordC()
    ensures Hex(WordBytes(0x980980e9)) == "e9800998"
  {
    var b := WordBytes(0x980980e9);
    assert b == [0xe9, 0x80, 0x09, 0x98];
    assert HexByte(0xe9) == "e9";
    assert HexByte(0x80) == "80";
    assert HexByte(0x09) == "09";
    assert HexByte(0x98) == "98";
    assert b[..0] == [] && b[..4] == b;
    HexNext(b, 0);
    HexNext(b, 1);
    HexNext(b, 2);
    HexNext(b, 3);
  }

  lemma HexWordD()
    ensures Hex(WordBytes(0x7e42f8ec)) == "ecf8427e"
  {
    var b := WordBytes(0x7e42f8ec);
    assert b == [0xec, 0xf8, 0x42, 0x7e];
    assert HexByte(0xec) == "ec";
    assert HexByte(0xf8) == "f8";
    assert HexByte(0x42) == "42";
    assert HexByte(0x7e) == "7e";
    assert b[..0] == [] && b[..4] == b;
    HexNext(b, 0);
    HexNext(b, 1);
    HexNext(b, 2);
    HexNext(b, 3);
  }

  /** d41d8cd98f00b204e9800998ecf8427e, written word by word. */
  const EmptyHexDigest: string := "d41d8cd9" + "8f00b204" + "e9800998" + "ecf8427e"

  const EmptyState: Regs := Regs(0xd98c1dd4, 0x04b2008f, 0x980980e9, 0x7e42f8ec)

  lemma EmptyOutput()
    ensures Digest([]) == Output(EmptyState)
  {
    EmptyWords();
    EmptyCompress();
    var w := Words(Pad([]));
    assert w[..0] == [] && w[0..] == w;
    assert Chain(w) == Compress(Init, EmptyBlock);
  }

  lemma EmptyHex()
    ensures Hex(Output(EmptyState)) == EmptyHexDigest
  {
    var a, b, c, d := WordBytes(0xd98c1dd4), WordBytes(0x04b2008f), WordBytes(0x980980e9), WordBytes(0x7e42f8ec);
    HexAppend(a + b + c, d);
    HexAppend(a + b, c);
    HexAppend(a, b);
    HexWordA();
    HexWordB();
    HexWordC();
    HexWordD();
  }

  lemma EmptyDigest()
    ensures HexDigest([]) == EmptyHexDigest
  {
    EmptyOutput();
    EmptyHex();
  }

  /** md5 of the empty string. */
  lemma Md5Empty()
    ensures Md5.Md5Hex([]) == EmptyHexDigest
  {
    Md5Agreement.Md5Agrees([]);
    assert Md5Agreement.LowBytes([]) == [];
    EmptyDigest();
  }
}

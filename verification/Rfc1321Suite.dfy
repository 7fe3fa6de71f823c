/** A test of the suite in section A.5 of RFC 1321, proved: the digest of the alphabet. It depends on every row of the
    table, on every auxiliary function, on the initial words, the padding and the order of bytes on both sides. */
module Rfc1321Suite {
  import opened Bytes
  import opened Rfc1321

  /** The words the operations go through: before operation i the state is words i, i + 3, i + 2 and i + 1. */
  function Trace(i: nat): bv32
    requires i < 68
  {
    if i < 16 then (
      if i < 4 then (
        if i == 0 then 0x67452301 else if i == 1 then 0x10325476
        else if i == 2 then 0x98badcfe else 0xefcdab89)
      else if i < 8 then (
        if i == 4 then 0xd6d117a6 else if i == 5 then 0xaab1aaaa
        else if i == 6 then 0x227d8cf1 else 0x4503b812)
      else if i < 12 then (
        if i == 8 then 0xfe15f787 else if i == 9 then 0xa811b278
        else if i == 10 then 0xb71122fc else 0xda9bbb0d)
      else (
        if i == 12 then 0xae752899 else if i == 13 then 0x2bbe757f
        else if i == 14 then 0x7d4bd80b else 0x56cfa5cb))
    else if i < 32 then (
      if i < 20 then (
        if i == 16 then 0x1754a316 else if i == 17 then 0x85567d90
        else if i == 18 then 0x00df74d5 else 0x608d6b7e)
      else if i < 24 then (
        if i == 20 then 0x2d8071cc else if i == 21 then 0x5dcee119
        else if i == 22 then 0xedfe7e4b else 0x4c2145b3)
      else if i < 28 then (
        if i == 24 then 0x570c43e0 else if i == 25 then 0x977efd2a
        else if i == 26 then 0xc28ab49d else 0xc9f162d4)
      else (
        if i == 28 then 0x25bfae3b else if i == 29 then 0x89980104
        else if i == 30 then 0xf8c8365f else 0xe6d3b398))
    else if i < 48 then (
      if i < 36 then (
        if i == 32 then 0xf54d8710 else if i == 33 then 0x927b72e2
        else if i == 34 then 0x2e69afc7 else 0xaeb35766)
      else if i < 40 then (
        if i == 36 then 0xb4bf680e else if i == 37 then 0x4c8ffa80
        else if i == 38 then 0x2361ed0a else 0x06a5e211)
      else if i < 44 then (
        if i == 40 then 0xb9c0c733 else if i == 41 then 0xf1e6dc7a
        else if i == 42 then 0x23a9451b else 0x8d41bf99)
      else (
        if i == 44 then 0xa3e88ead else if i == 45 then 0x02c0b11c
        else if i == 46 then 0x66f6468d else 0x90a35af5))
    else if i < 64 then (
      if i < 52 then (
        if i == 48 then 0xb5d41f9c else if i == 49 then 0xa04b4904
        else if i == 50 then 0x703d54d8 else 0x71d10367)
      else if i < 56 then (
        if i == 52 then 0xfc32dd6e else if i == 53 then 0x65456b34
        else if i == 54 then 0xb35602cb else 0x33edb197)
      else if i < 60 then (
        if i == 56 then 0xc1e942f1 else if i == 57 then 0xd9bb987c
        else if i == 58 then 0x23a68048 else 0x83877d1b)
      else (
        if i == 60 then 0x0077c208 else if i == 61 then 0x847fc2e7
        else if i == 62 then 0xa3e2247f else 0x5e6bc930))
    else (
      if i == 64 then 0x708ed9c2 else if i == 65 then 0x2baf1354
      else if i == 66 then 0xd38f1e7f else 0x1116e6d8)
  }

  /** The block: the letters a to z, the one bit, and the length of 208 bits. */
  function BlockWord(k: nat): bv32
    requires k < 16
  {
    if k < 4 then (
      if k == 0 then 0x64636261 else if k == 1 then 0x68676665
      else if k == 2 then 0x6c6b6a69 else 0x706f6e6d)
    else if k == 4 then 0x74737271 else if k == 5 then 0x78777675
    else if k == 6 then 0x00807a79 else if k == 14 then 0x000000d0 else 0
  }

  function StateAt(i: nat): State
    requires i <= 64
  {
    State(Word(Trace(i)), Word(Trace(i + 3)), Word(Trace(i + 2)), Word(Trace(i + 1)))
  }

  predicate Follows(i: nat)
    requires i < 64
  {
    var s, row := StateAt(i), RowAt(i);
    Mix(s.a, s.b, Auxiliary(i, s.b, s.c, s.d), Word(BlockWord(row.k)), row) == Word(Trace(i + 4))
  }

  // ----- one operation after the other: what is added up and turned, and what comes of it

  lemma Mix0() ensures MixBits(0x67452301, 0xefcdab89, 0x98badcfe, 0x64636261, 0xd76aa478, 7) == 0xd6d117a6 {}
  lemma Mix1() ensures MixBits(0x10325476, 0xd6d117a6, 0xceebcbd8, 0x68676665, 0xe8c7b756, 12) == 0xaab1aaaa {}
  lemma Mix2() ensures MixBits(0x98badcfe, 0xaab1aaaa, 0xc7dd03a3, 0x6c6b6a69, 0x242070db, 17) == 0x227d8cf1 {}
  lemma Mix3() ensures MixBits(0xefcdab89, 0x227d8cf1, 0xf6b19ba6, 0x706f6e6d, 0xc1bdceee, 22) == 0x4503b812 {}
  lemma Mix4() ensures MixBits(0xd6d117a6, 0x4503b812, 0xaab18ab8, 0x74737271, 0xf57c0faf, 7) == 0xfe15f787 {}
  lemma Mix5() ensures MixBits(0xaab1aaaa, 0xfe15f787, 0x4469b872, 0x78777675, 0x4787c62a, 12) == 0xa811b278 {}
  lemma Mix6() ensures MixBits(0x227d8cf1, 0xa811b278, 0xed13ba02, 0x00807a79, 0xa8304613, 17) == 0xb71122fc {}
  lemma Mix7() ensures MixBits(0x4503b812, 0xb71122fc, 0xe815f77b, 0x00000000, 0xfd469501, 22) == 0xda9bbb0d {}
  lemma Mix8() ensures MixBits(0xfe15f787, 0xda9bbb0d, 0xb211227c, 0x00000000, 0x698098d8, 7) == 0xae752899 {}
  lemma Mix9() ensures MixBits(0xa811b278, 0xae752899, 0x9b112a6d, 0x00000000, 0x8b44f7af, 12) == 0x2bbe757f {}
  lemma Mix10() ensures MixBits(0xb71122fc, 0x2bbe757f, 0xfa35aa19, 0x00000000, 0xffff5bb1, 17) == 0x7d4bd80b {}
  lemma Mix11() ensures MixBits(0xda9bbb0d, 0x7d4bd80b, 0xab3e709b, 0x00000000, 0x895cd7be, 22) == 0x56cfa5cb {}
  lemma Mix12() ensures MixBits(0xae752899, 0x56cfa5cb, 0x7d7bd03f, 0x00000000, 0x6b901122, 7) == 0x1754a316 {}
  lemma Mix13() ensures MixBits(0x2bbe757f, 0x1754a316, 0x7e4ff90b, 0x00000000, 0xfd987193, 12) == 0x85567d90 {}
  lemma Mix14() ensures MixBits(0x7d4bd80b, 0x85567d90, 0x57dda15b, 0x000000d0, 0xa679438e, 17) == 0x00df74d5 {}
  lemma Mix15() ensures MixBits(0x56cfa5cb, 0x00df74d5, 0x1756f792, 0x00000000, 0x49b40821, 22) == 0x608d6b7e {}
  lemma Mix16() ensures MixBits(0x1754a316, 0x608d6b7e, 0x008d6955, 0x68676665, 0xf61e2562, 5) == 0x2d8071cc {}
  lemma Mix17() ensures MixBits(0x85567d90, 0x2d8071cc, 0x60807bee, 0x00807a79, 0xc040b340, 9) == 0x5dcee119 {}
  lemma Mix18() ensures MixBits(0x00df74d5, 0x5dcee119, 0x4d8c7198, 0x00000000, 0x265e5a51, 14) == 0xedfe7e4b {}
  lemma Mix19() ensures MixBits(0x608d6b7e, 0xedfe7e4b, 0x7dcef059, 0x64636261, 0xe9b6c7aa, 20) == 0x4c2145b3 {}
  lemma Mix20() ensures MixBits(0x2d8071cc, 0x4c2145b3, 0xec305f53, 0x78777675, 0xd62f105d, 5) == 0x570c43e0 {}
  lemma Mix21() ensures MixBits(0x5dcee119, 0x570c43e0, 0x450d43f0, 0x00000000, 0x02441453, 9) == 0x977efd2a {}
  lemma Mix22() ensures MixBits(0xedfe7e4b, 0x977efd2a, 0x172c4762, 0x00000000, 0xd8a1e681, 14) == 0xc28ab49d {}
  lemma Mix23() ensures MixBits(0x4c2145b3, 0xc28ab49d, 0xc27abc8a, 0x74737271, 0xe7d3fbc8, 20) == 0xc9f162d4 {}
  lemma Mix24() ensures MixBits(0x570c43e0, 0xc9f162d4, 0xc1f06095, 0x00000000, 0x21e1cde6, 5) == 0x25bfae3b {}
  lemma Mix25() ensures MixBits(0x977efd2a, 0x25bfae3b, 0x09fbe659, 0x000000d0, 0xc33707d6, 9) == 0x89980104 {}
  lemma Mix26() ensures MixBits(0xc28ab49d, 0x89980104, 0xad9e8c2f, 0x706f6e6d, 0xf4d50d87, 14) == 0xf8c8365f {}
  lemma Mix27() ensures MixBits(0xc9f162d4, 0xf8c8365f, 0xa888271f, 0x00000000, 0x455a14ed, 20) == 0xe6d3b398 {}
  lemma Mix28() ensures MixBits(0x25bfae3b, 0xe6d3b398, 0xf0d0375b, 0x00000000, 0xa9e3e905, 5) == 0xf54d8710 {}
  lemma Mix29() ensures MixBits(0x89980104, 0xf54d8710, 0xf65b8790, 0x6c6b6a69, 0xfcefa3f8, 9) == 0x927b72e2 {}
  lemma Mix30() ensures MixBits(0xf8c8365f, 0x927b72e2, 0x935f3680, 0x00000000, 0x676f02d9, 14) == 0x2e69afc7 {}
  lemma Mix31() ensures MixBits(0xe6d3b398, 0x2e69afc7, 0x267bf7e2, 0x00000000, 0x8d2a4c8a, 20) == 0xaeb35766 {}
  lemma Mix32() ensures MixBits(0xf54d8710, 0xaeb35766, 0x12a18a43, 0x78777675, 0xfffa3942, 4) == 0xb4bf680e {}
  lemma Mix33() ensures MixBits(0x927b72e2, 0xb4bf680e, 0x346590af, 0x00000000, 0x8771f681, 11) == 0x4c8ffa80 {}
  lemma Mix34() ensures MixBits(0x2e69afc7, 0x4c8ffa80, 0x5683c5e8, 0x00000000, 0x6d9d6122, 16) == 0x2361ed0a {}
  lemma Mix35() ensures MixBits(0xaeb35766, 0x2361ed0a, 0xdb517f84, 0x000000d0, 0xfde5380c, 23) == 0x06a5e211 {}
  lemma Mix36() ensures MixBits(0xb4bf680e, 0x06a5e211, 0x694bf59b, 0x68676665, 0xa4beea44, 4) == 0xb9c0c733 {}
  lemma Mix37() ensures MixBits(0x4c8ffa80, 0xb9c0c733, 0x9c04c828, 0x74737271, 0x4bdecfa9, 11) == 0xf1e6dc7a {}
  lemma Mix38() ensures MixBits(0x2361ed0a, 0xf1e6dc7a, 0x4e83f958, 0x00000000, 0xf6bb4b60, 16) == 0x23a9451b {}
  lemma Mix39() ensures MixBits(0x06a5e211, 0x23a9451b, 0x6b8f5e52, 0x00000000, 0xbebfbc70, 23) == 0x8d41bf99 {}
  lemma Mix40() ensures MixBits(0xb9c0c733, 0x8d41bf99, 0x5f0e26f8, 0x00000000, 0x289b7ec6, 4) == 0xa3e88ead {}
  lemma Mix41() ensures MixBits(0xf1e6dc7a, 0xa3e88ead, 0x0d00742f, 0x64636261, 0xeaa127fa, 11) == 0x02c0b11c {}
  lemma Mix42() ensures MixBits(0x23a9451b, 0x02c0b11c, 0x2c698028, 0x706f6e6d, 0xd4ef3085, 16) == 0x66f6468d {}
  lemma Mix43() ensures MixBits(0x8d41bf99, 0x66f6468d, 0xc7de793c, 0x00807a79, 0x04881d05, 23) == 0x90a35af5 {}
  lemma Mix44() ensures MixBits(0xa3e88ead, 0x90a35af5, 0xf495ad64, 0x00000000, 0xd9d4d039, 4) == 0xb5d41f9c {}
  lemma Mix45() ensures MixBits(0x02c0b11c, 0xb5d41f9c, 0x438103e4, 0x00000000, 0xe6db99e5, 11) == 0xa04b4904 {}
  lemma Mix46() ensures MixBits(0x66f6468d, 0xa04b4904, 0x853c0c6d, 0x00000000, 0x1fa27cf8, 16) == 0x703d54d8 {}
  lemma Mix47() ensures MixBits(0x90a35af5, 0x703d54d8, 0x65a20240, 0x6c6b6a69, 0xc4ac5665, 23) == 0x71d10367 {}
  lemma Mix48() ensures MixBits(0xb5d41f9c, 0x71d10367, 0x0fc8e327, 0x64636261, 0xf4292244, 6) == 0xfc32dd6e {}
  lemma Mix49() ensures MixBits(0xa04b4904, 0xfc32dd6e, 0x8e23fc08, 0x00000000, 0x432aff97, 10) == 0x65456b34 {}
  lemma Mix50() ensures MixBits(0x703d54d8, 0x65456b34, 0x135d22d2, 0x000000d0, 0xab9423a7, 15) == 0xb35602cb {}
  lemma Mix51() ensures MixBits(0x71d10367, 0xb35602cb, 0xd69a49ef, 0x78777675, 0xfc93a039, 21) == 0x33edb197 {}
  lemma Mix52() ensures MixBits(0xfc32dd6e, 0x33edb197, 0x08a9b714, 0x00000000, 0x655b59c3, 6) == 0xc1e942f1 {}
  lemma Mix53() ensures MixBits(0x65456b34, 0xc1e942f1, 0xfe044e62, 0x706f6e6d, 0x8f0ccc92, 10) == 0xd9bb987c {}
  lemma Mix54() ensures MixBits(0xb35602cb, 0xd9bb987c, 0x1c529c8d, 0x00000000, 0xffeff47d, 15) == 0x23a68048 {}
  lemma Mix55() ensures MixBits(0x33edb197, 0x23a68048, 0xe60d2532, 0x68676665, 0x85845dd1, 21) == 0x83877d1b {}
  lemma Mix56() ensures MixBits(0xc1e942f1, 0x83877d1b, 0x8461ffd3, 0x00000000, 0x6fa87e4f, 6) == 0x0077c208 {}
  lemma Mix57() ensures MixBits(0xd9bb987c, 0x0077c208, 0x5ff882a4, 0x00000000, 0xfe2ce6e0, 10) == 0x847fc2e7 {}
  lemma Mix58() ensures MixBits(0x23a68048, 0x847fc2e7, 0xfc0800ef, 0x00807a79, 0xa3014314, 15) == 0xa3e2247f {}
  lemma Mix59() ensures MixBits(0x83877d1b, 0xa3e2247f, 0x7b95ff18, 0x00000000, 0x4e0811a1, 21) == 0x5e6bc930 {}
  lemma Mix60() ensures MixBits(0x0077c208, 0x5e6bc930, 0xdc09d947, 0x74737271, 0xf7537e82, 6) == 0x708ed9c2 {}
  lemma Mix61() ensures MixBits(0x847fc2e7, 0x708ed9c2, 0x22f412f2, 0x00000000, 0xbd3af235, 10) == 0x2baf1354 {}
  lemma Mix62() ensures MixBits(0xa3e2247f, 0x2baf1354, 0xdb31ee1d, 0x6c6b6a69, 0x2ad7d2bb, 15) == 0xd38f1e7f {}
  lemma Mix63() ensures MixBits(0x5e6bc930, 0xd38f1e7f, 0xf4502d2b, 0x00000000, 0xeb86d391, 21) == 0x1116e6d8 {}

  lemma Follows0() ensures Follows(0) && Follows(1) { hide MixBits; Mix0(); Mix1(); }
  lemma Follows2() ensures Follows(2) && Follows(3) { hide MixBits; Mix2(); Mix3(); }
  lemma Follows4() ensures Follows(4) && Follows(5) { hide MixBits; Mix4(); Mix5(); }
  lemma Follows6() ensures Follows(6) && Follows(7) { hide MixBits; Mix6(); Mix7(); }
  lemma Follows8() ensures Follows(8) && Follows(9) { hide MixBits; Mix8(); Mix9(); }
  lemma Follows10() ensures Follows(10) && Follows(11) { hide MixBits; Mix10(); Mix11(); }
  lemma Follows12() ensures Follows(12) && Follows(13) { hide MixBits; Mix12(); Mix13(); }
  lemma Follows14() ensures Follows(14) && Follows(15) { hide MixBits; Mix14(); Mix15(); }
  lemma Follows16() ensures Follows(16) && Follows(17) { hide MixBits; Mix16(); Mix17(); }
  lemma Follows18() ensures Follows(18) && Follows(19) { hide MixBits; Mix18(); Mix19(); }
  lemma Follows20() ensures Follows(20) && Follows(21) { hide MixBits; Mix20(); Mix21(); }
  lemma Follows22() ensures Follows(22) && Follows(23) { hide MixBits; Mix22(); Mix23(); }
  lemma Follows24() ensures Follows(24) && Follows(25) { hide MixBits; Mix24(); Mix25(); }
  lemma Follows26() ensures Follows(26) && Follows(27) { hide MixBits; Mix26(); Mix27(); }
  lemma Follows28() ensures Follows(28) && Follows(29) { hide MixBits; Mix28(); Mix29(); }
  lemma Follows30() ensures Follows(30) && Follows(31) { hide MixBits; Mix30(); Mix31(); }
  lemma Follows32() ensures Follows(32) && Follows(33) { hide MixBits; Mix32(); Mix33(); }
  lemma Follows34() ensures Follows(34) && Follows(35) { hide MixBits; Mix34(); Mix35(); }
  lemma Follows36() ensures Follows(36) && Follows(37) { hide MixBits; Mix36(); Mix37(); }
  lemma Follows38() ensures Follows(38) && Follows(39) { hide MixBits; Mix38(); Mix39(); }
  lemma Follows40() ensures Follows(40) && Follows(41) { hide MixBits; Mix40(); Mix41(); }
  lemma Follows42() ensures Follows(42) && Follows(43) { hide MixBits; Mix42(); Mix43(); }
  lemma Follows44() ensures Follows(44) && Follows(45) { hide MixBits; Mix44(); Mix45(); }
  lemma Follows46() ensures Follows(46) && Follows(47) { hide MixBits; Mix46(); Mix47(); }
  lemma Follows48() ensures Follows(48) && Follows(49) { hide MixBits; Mix48(); Mix49(); }
  lemma Follows50() ensures Follows(50) && Follows(51) { hide MixBits; Mix50(); Mix51(); }
  lemma Follows52() ensures Follows(52) && Follows(53) { hide MixBits; Mix52(); Mix53(); }
  lemma Follows54() ensures Follows(54) && Follows(55) { hide MixBits; Mix54(); Mix55(); }
  lemma Follows56() ensures Follows(56) && Follows(57) { hide MixBits; Mix56(); Mix57(); }
  lemma Follows58() ensures Follows(58) && Follows(59) { hide MixBits; Mix58(); Mix59(); }
  lemma Follows60() ensures Follows(60) && Follows(61) { hide MixBits; Mix60(); Mix61(); }
  lemma Follows62() ensures Follows(62) && Follows(63) { hide MixBits; Mix62(); Mix63(); }

  lemma Round1Follows(i: nat)
    requires 0 <= i < 16
    ensures Follows(i)
  {
    hide *;
    Follows0(); Follows2(); Follows4(); Follows6();
    Follows8(); Follows10(); Follows12(); Follows14();
  }

  lemma Round2Follows(i: nat)
    requires 16 <= i < 32
    ensures Follows(i)
  {
    hide *;
    Follows16(); Follows18(); Follows20(); Follows22();
    Follows24(); Follows26(); Follows28(); Follows30();
  }

  lemma Round3Follows(i: nat)
    requires 32 <= i < 48
    ensures Follows(i)
  {
    hide *;
    Follows32(); Follows34(); Follows36(); Follows38();
    Follows40(); Follows42(); Follows44(); Follows46();
  }

  lemma Round4Follows(i: nat)
    requires 48 <= i < 64
    ensures Follows(i)
  {
    hide *;
    Follows48(); Follows50(); Follows52(); Follows54();
    Follows56(); Follows58(); Follows60(); Follows62();
  }

  lemma AllFollow(i: nat)
    requires i < 64
    ensures Follows(i)
  {
    hide *;
    if i < 16 {
      Round1Follows(i);
    } else if i < 32 {
      Round2Follows(i);
    } else if i < 48 {
      Round3Follows(i);
    } else {
      Round4Follows(i);
    }
  }

  predicate IsBlock(x: seq<Word>) {
    |x| == 16 && forall k :: 0 <= k < 16 ==> x[k] == Word(BlockWord(k))
  }

  lemma {:induction false} OperationsGo(n: nat, x: seq<Word>)
    requires n <= 64 && IsBlock(x)
    ensures Operations(n, INITIAL, x) == StateAt(n)
  {
    hide RowAt, Trace, BlockWord, Mix, Auxiliary;
    if n == 0 {
      TraceStarts();
    } else {
      OperationsGo(n - 1, x);
      AllFollow(n - 1);
    }
  }

  lemma TraceStarts()
    ensures StateAt(0) == INITIAL
  {}

  /** The letters a to z. */
  const ALPHABET: seq<byte> :=
    [97, 98, 99, 100, 101, 102, 103, 104, 105, 106, 107, 108, 109,
     110, 111, 112, 113, 114, 115, 116, 117, 118, 119, 120, 121, 122]

  /** c3fcd3d76192e4007dfb496cca67e13b, in bytes. */
  const ALPHABET_DIGEST: seq<byte> :=
    [0xc3, 0xfc, 0xd3, 0xd7, 0x61, 0x92, 0xe4, 0x00, 0x7d, 0xfb, 0x49, 0x6c, 0xca, 0x67, 0xe1, 0x3b]

  /** The padded letters, byte by byte: letters, one bit, zeros, length. */
  function PaddedByte(i: nat): byte
    requires i < 64
  {
    if i < 26 then (97 + i) as byte else if i == 26 then 0x80 else if i == 56 then 208 else 0
  }

  lemma LengthBytes()
    ensures LittleEndian(8, 208) == [208, 0, 0, 0, 0, 0, 0, 0]
  {
    assert LittleEndian(4, 0) == [0, 0, 0, 0];
    assert LittleEndian(6, 0) == [0, 0] + LittleEndian(4, 0);
    assert LittleEndian(8, 208) == [208, 0] + LittleEndian(6, 0);
  }

  lemma PaddedAlphabet()
    ensures var p := Padded(ALPHABET); |p| == 64 && forall i :: 0 <= i < 64 ==> p[i] == PaddedByte(i)
  {
    hide LittleEndian;
    LengthBytes();
  }

  lemma WordIs(a: byte, b: byte, c: byte, d: byte, n: nat, bits: bv32)
    requires n == a as nat + 0x100 * b as nat + 0x1_0000 * c as nat + 0x100_0000 * d as nat
    requires n < TWO_32 && bits as nat == n
    ensures ToWord([a, b, c, d]) == Word(bits)
  {
    hide FromLittleEndian;
    FourBytes([a, b, c, d]);
  }

  lemma FourBytes(bytes: seq<byte>)
    requires |bytes| == 4
    ensures FromLittleEndian(bytes) == bytes[0] as nat + 0x100 * bytes[1] as nat + 0x1_0000 * bytes[2] as nat
                                       + 0x100_0000 * bytes[3] as nat
  {
    assert bytes[1..][1..] == bytes[2..] && bytes[2..][1..] == bytes[3..] && bytes[3..][1..] == [];
    assert FromLittleEndian(bytes[3..]) == bytes[3] as nat;
    assert FromLittleEndian(bytes[2..]) == bytes[2] as nat + 256 * FromLittleEndian(bytes[3..]);
    assert FromLittleEndian(bytes[1..]) == bytes[1] as nat + 256 * FromLittleEndian(bytes[2..]);
  }

  lemma Word0()
    ensures ToWord([97, 98, 99, 100]) == Word(0x64636261)
  {
    hide ToWord;
    WordIs(97, 98, 99, 100, 0x64636261, 0x64636261);
  }

  lemma Word1()
    ensures ToWord([101, 102, 103, 104]) == Word(0x68676665)
  {
    hide ToWord;
    WordIs(101, 102, 103, 104, 0x68676665, 0x68676665);
  }

  lemma Word2()
    ensures ToWord([105, 106, 107, 108]) == Word(0x6c6b6a69)
  {
    hide ToWord;
    WordIs(105, 106, 107, 108, 0x6c6b6a69, 0x6c6b6a69);
  }

  lemma Word3()
    ensures ToWord([109, 110, 111, 112]) == Word(0x706f6e6d)
  {
    hide ToWord;
    WordIs(109, 110, 111, 112, 0x706f6e6d, 0x706f6e6d);
  }

  lemma Word4()
    ensures ToWord([113, 114, 115, 116]) == Word(0x74737271)
  {
    hide ToWord;
    WordIs(113, 114, 115, 116, 0x74737271, 0x74737271);
  }

  lemma Word5()
    ensures ToWord([117, 118, 119, 120]) == Word(0x78777675)
  {
    hide ToWord;
    WordIs(117, 118, 119, 120, 0x78777675, 0x78777675);
  }

  lemma Word6()
    ensures ToWord([121, 122, 128, 0]) == Word(0x00807a79)
  {
    hide ToWord;
    WordIs(121, 122, 128, 0, 0x00807a79, 0x00807a79);
  }

  lemma Word14()
    ensures ToWord([208, 0, 0, 0]) == Word(0x000000d0)
  {
    hide ToWord;
    WordIs(208, 0, 0, 0, 0x000000d0, 0x000000d0);
  }

  lemma Word15()
    ensures ToWord([0, 0, 0, 0]) == Word(0x00000000)
  {
    hide ToWord;
    WordIs(0, 0, 0, 0, 0x00000000, 0x00000000);
  }


  /** The bytes of word k. */
  function WordBytes(k: nat): seq<byte>
    requires k < 16
  {
    [PaddedByte(4 * k), PaddedByte(4 * k + 1), PaddedByte(4 * k + 2), PaddedByte(4 * k + 3)]
  }

  lemma WordAt(k: nat)
    requires k < 16
    ensures ToWord(WordBytes(k)) == Word(BlockWord(k))
  {
    hide ToWord;
    Word0(); Word1(); Word2(); Word3(); Word4(); Word5(); Word6(); Word14(); Word15();
    if k < 7 || k == 14 {
      assert k == 0 || k == 1 || k == 2 || k == 3 || k == 4 || k == 5 || k == 6 || k == 14;
    } else {
      assert WordBytes(k) == [0, 0, 0, 0];
    }
  }

  lemma AlphabetBlock(p: seq<byte>)
    requires |p| == 64 && forall i :: 0 <= i < 64 ==> p[i] == PaddedByte(i)
    ensures IsBlock(ToWords(p))
  {
    hide ToWord, PaddedByte, BlockWord;
    forall k | 0 <= k < 16
      ensures ToWords(p)[k] == Word(BlockWord(k))
    {
      assert p[4 * k..4 * k + 4] == WordBytes(k);
      WordAt(k);
    }
  }

  lemma AlphabetOutput(x: seq<Word>)
    requires IsBlock(x)
    ensures Output(Compress(INITIAL, x)) == ALPHABET_DIGEST
  {
    hide RowAt, Operations, BlockWord, IsBlock, Trace, Plus, LittleEndian;
    OperationsGo(64, x);
    AlphabetWords();
    BytesOfWord(0xd7d3fcc3, 0xd7d3fcc3, 0xc3, 0xfc, 0xd3, 0xd7);
    BytesOfWord(0x00e49261, 0x00e49261, 0x61, 0x92, 0xe4, 0x00);
    BytesOfWord(0x6c49fb7d, 0x6c49fb7d, 0x7d, 0xfb, 0x49, 0x6c);
    BytesOfWord(0x3be167ca, 0x3be167ca, 0xca, 0x67, 0xe1, 0x3b);
  }

  lemma AlphabetWords()
    ensures var r := StateAt(64);
      && Plus(INITIAL.a, r.a) == Word(0xd7d3fcc3) && Plus(INITIAL.b, r.b) == Word(0x00e49261)
      && Plus(INITIAL.c, r.c) == Word(0x6c49fb7d) && Plus(INITIAL.d, r.d) == Word(0x3be167ca)
  {}

  lemma BytesOf(n: nat, a: byte, b: byte, c: byte, d: byte)
    requires n == a as nat + 0x100 * b as nat + 0x1_0000 * c as nat + 0x100_0000 * d as nat
    ensures LittleEndian(4, n) == [a, b, c, d]
  {
    assert n % 256 == a as nat && n / 256 == b as nat + 0x100 * c as nat + 0x1_0000 * d as nat;
    assert n / 256 % 256 == b as nat && n / 256 / 256 == c as nat + 0x100 * d as nat;
    assert n / 256 / 256 % 256 == c as nat && n / 256 / 256 / 256 == d as nat;
    assert LittleEndian(1, d as nat) == [d];
    assert LittleEndian(2, n / 256 / 256) == [c] + LittleEndian(1, d as nat);
    assert LittleEndian(3, n / 256) == [b] + LittleEndian(2, n / 256 / 256);
  }

  lemma BytesOfWord(bits: bv32, n: nat, a: byte, b: byte, c: byte, d: byte)
    requires n == a as nat + 0x100 * b as nat + 0x1_0000 * c as nat + 0x100_0000 * d as nat
    requires bits as nat == n
    ensures LittleEndian(4, bits as nat) == [a, b, c, d]
  {
    hide LittleEndian;
    BytesOf(n, a, b, c, d);
  }

  /** The fifth test of the suite. */
  lemma DigestOfAlphabet()
    ensures Digest(ALPHABET) == ALPHABET_DIGEST
  {
    hide Padded, Output, Compress, ToWords, PaddedByte, IsBlock;
    PaddedAlphabet();
    var p := Padded(ALPHABET);
    AlphabetBlock(p);
    AlphabetOutput(ToWords(p));
    assert p[64 * 1 - 64..64 * 1] == p;
    assert After(1, p) == Compress(After(0, p), ToWords(p)) && After(0, p) == INITIAL;
  }
}

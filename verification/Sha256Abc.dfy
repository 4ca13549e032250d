/** The digest of the one-block message "abc", word by word and round by round. */
module Sha256Abc {
  import opened Basics
  import opened Sha256

  const ABC: Bytes := [0x61, 0x62, 0x63]

  // ----- The padded block -----

  lemma {:induction false} ZeroBytes(width: nat)
    ensures BigEndian(0, width) == Zeros(width)
  {
    if width > 0 {
      ZeroBytes(width - 1);
      assert Zeros(width) == Zeros(width - 1) + [0];
    }
  }

  lemma PaddedAbc()
    ensures |Pad(ABC)| == 64 && Pad(ABC)[..4] == [0x61, 0x62, 0x63, 0x80] && Pad(ABC)[63] == 24
    ensures forall i :: 4 <= i < 63 ==> Pad(ABC)[i] == 0
  {
    ZeroBytes(7);
    assert Wrap64(24) == 24 && BigEndian(24, 8) == BigEndian(0, 7) + [24];
    assert Pad(ABC) == [0x61, 0x62, 0x63] + [0x80] + Zeros(52) + (Zeros(7) + [24]);
  }

  // ----- The message schedule -----

  ghost predicate IsSchedule(w: seq<Word>) { |Pad(ABC)| == 64 && w == Schedule(Pad(ABC), 64) }

  lemma {:induction false} ScheduleGrows(block: Bytes, t: nat, n: nat)
    requires |block| == 64 && t < n
    ensures Schedule(block, n)[t] == Schedule(block, t + 1)[t]
  {
    hide ScheduleWord, BlockWord;
    if t + 1 < n {
      ScheduleGrows(block, t, n - 1);
    }
  }

  /** Each word is a word of the block or follows from four earlier words. */
  lemma WordIs(w: seq<Word>, t: nat)
    requires IsSchedule(w) && t < 64
    ensures |w| == 64
    ensures w[t] == if t < 16 then BlockWord(Pad(ABC), t) else ScheduleWord(w[t - 16], w[t - 15], w[t - 7], w[t - 2])
  {
    hide ScheduleWord, BlockWord, Pad;
    var b := Pad(ABC);
    ScheduleGrows(b, t, 64);
    if t >= 16 {
      ScheduleGrows(b, t - 16, 64);
      ScheduleGrows(b, t - 15, 64);
      ScheduleGrows(b, t - 7, 64);
      ScheduleGrows(b, t - 2, 64);
      ScheduleGrows(b, t - 16, t);
      ScheduleGrows(b, t - 15, t);
      ScheduleGrows(b, t - 7, t);
      ScheduleGrows(b, t - 2, t);
    }
  }

  lemma BlockWordIs(w: seq<Word>, t: nat, b0: Byte, b1: Byte, b2: Byte, b3: Byte)
    requires IsSchedule(w) && t < 16 && |Pad(ABC)| == 64
    requires Pad(ABC)[4 * t] == b0 && Pad(ABC)[4 * t + 1] == b1 && Pad(ABC)[4 * t + 2] == b2
    requires Pad(ABC)[4 * t + 3] == b3
    ensures |w| == 64 && w[t] == BigEndianWord(b0, b1, b2, b3)
  {
    hide Pad, BigEndianWord, IsSchedule;
    WordIs(w, t);
  }

  lemma NextWordIs(w: seq<Word>, t: nat, w16: Word, w15: Word, w7: Word, w2: Word)
    requires IsSchedule(w) && 16 <= t < 64 && |w| == 64
    requires w[t - 16] == w16 && w[t - 15] == w15 && w[t - 7] == w7 && w[t - 2] == w2
    ensures w[t] == ScheduleWord(w16, w15, w7, w2)
  {
    hide Pad, ScheduleWord, IsSchedule;
    WordIs(w, t);
  }

  ghost predicate Words0(w: seq<Word>)
  {
    && |w| == 64 && w[0] == 0x61626380 && w[1] == 0x00000000 && w[2] == 0x00000000 && w[3] == 0x00000000
    && w[4] == 0x00000000 && w[5] == 0x00000000 && w[6] == 0x00000000 && w[7] == 0x00000000
  }

  ghost predicate Words1(w: seq<Word>)
  {
    && |w| == 64 && w[8] == 0x00000000 && w[9] == 0x00000000 && w[10] == 0x00000000 && w[11] == 0x00000000
    && w[12] == 0x00000000 && w[13] == 0x00000000 && w[14] == 0x00000000 && w[15] == 0x00000018
  }

  ghost predicate Words2(w: seq<Word>)
  {
    && |w| == 64 && w[16] == 0x61626380 && w[17] == 0x000f0000 && w[18] == 0x7da86405 && w[19] == 0x600003c6
    && w[20] == 0x3e9d7b78 && w[21] == 0x0183fc00 && w[22] == 0x12dcbfdb && w[23] == 0xe2e2c38e
  }

  ghost predicate Words3(w: seq<Word>)
  {
    && |w| == 64 && w[24] == 0xc8215c1a && w[25] == 0xb73679a2 && w[26] == 0xe5bc3909 && w[27] == 0x32663c5b
    && w[28] == 0x9d209d67 && w[29] == 0xec8726cb && w[30] == 0x702138a4 && w[31] == 0xd3b7973b
  }

  ghost predicate Words4(w: seq<Word>)
  {
    && |w| == 64 && w[32] == 0x93f5997f && w[33] == 0x3b68ba73 && w[34] == 0xaff4ffc1 && w[35] == 0xf10a5c62
    && w[36] == 0x0a8b3996 && w[37] == 0x72af830a && w[38] == 0x9409e33e && w[39] == 0x24641522
  }

  ghost predicate Words5(w: seq<Word>)
  {
    && |w| == 64 && w[40] == 0x9f47bf94 && w[41] == 0xf0a64f5a && w[42] == 0x3e246a79 && w[43] == 0x27333ba3
    && w[44] == 0x0c4763f2 && w[45] == 0x840abf27 && w[46] == 0x7a290d5d && w[47] == 0x065c43da
  }

  ghost predicate Words6(w: seq<Word>)
  {
    && |w| == 64 && w[48] == 0xfb3e89cb && w[49] == 0xcc7617db && w[50] == 0xb9e66c34 && w[51] == 0xa9993667
    && w[52] == 0x84badedd && w[53] == 0xc21462bc && w[54] == 0x1487472c && w[55] == 0xb20f7a99
  }

  ghost predicate Words7(w: seq<Word>)
  {
    && |w| == 64 && w[56] == 0xef57b9cd && w[57] == 0xebe6b238 && w[58] == 0x9fe3095e && w[59] == 0x78bc8d4b
    && w[60] == 0xa43fcf15 && w[61] == 0x668b2ff8 && w[62] == 0xeeaba2cc && w[63] == 0x12b1edeb
  }

  lemma WordRow0(w: seq<Word>)
    requires IsSchedule(w)
    ensures Words0(w)
  {
    hide IsSchedule, Pad;
    PaddedAbc();
    BlockWordIs(w, 0, 0x61, 0x62, 0x63, 0x80);
    BlockWordIs(w, 1, 0x00, 0x00, 0x00, 0x00);
    BlockWordIs(w, 2, 0x00, 0x00, 0x00, 0x00);
    BlockWordIs(w, 3, 0x00, 0x00, 0x00, 0x00);
    BlockWordIs(w, 4, 0x00, 0x00, 0x00, 0x00);
    BlockWordIs(w, 5, 0x00, 0x00, 0x00, 0x00);
    BlockWordIs(w, 6, 0x00, 0x00, 0x00, 0x00);
    BlockWordIs(w, 7, 0x00, 0x00, 0x00, 0x00);
  }

  lemma WordRow1(w: seq<Word>)
    requires IsSchedule(w)
    ensures Words1(w)
  {
    hide IsSchedule, Pad;
    PaddedAbc();
    BlockWordIs(w, 8, 0x00, 0x00, 0x00, 0x00);
    BlockWordIs(w, 9, 0x00, 0x00, 0x00, 0x00);
    BlockWordIs(w, 10, 0x00, 0x00, 0x00, 0x00);
    BlockWordIs(w, 11, 0x00, 0x00, 0x00, 0x00);
    BlockWordIs(w, 12, 0x00, 0x00, 0x00, 0x00);
    BlockWordIs(w, 13, 0x00, 0x00, 0x00, 0x00);
    BlockWordIs(w, 14, 0x00, 0x00, 0x00, 0x00);
    BlockWordIs(w, 15, 0x00, 0x00, 0x00, 0x18);
  }

  lemma WordRow2(w: seq<Word>)
    requires IsSchedule(w) && Words0(w) && Words1(w)
    ensures Words2(w)
  {
    hide IsSchedule;
    NextWordIs(w, 16, 0x61626380, 0x00000000, 0x00000000, 0x00000000);
    NextWordIs(w, 17, 0x00000000, 0x00000000, 0x00000000, 0x00000018);
    NextWordIs(w, 18, 0x00000000, 0x00000000, 0x00000000, 0x61626380);
    NextWordIs(w, 19, 0x00000000, 0x00000000, 0x00000000, 0x000f0000);
    NextWordIs(w, 20, 0x00000000, 0x00000000, 0x00000000, 0x7da86405);
    NextWordIs(w, 21, 0x00000000, 0x00000000, 0x00000000, 0x600003c6);
    NextWordIs(w, 22, 0x00000000, 0x00000000, 0x00000018, 0x3e9d7b78);
    NextWordIs(w, 23, 0x00000000, 0x00000000, 0x61626380, 0x0183fc00);
  }

  lemma WordRow3(w: seq<Word>)
    requires IsSchedule(w) && Words1(w) && Words2(w)
    ensures Words3(w)
  {
    hide IsSchedule;
    NextWordIs(w, 24, 0x00000000, 0x00000000, 0x000f0000, 0x12dcbfdb);
    NextWordIs(w, 25, 0x00000000, 0x00000000, 0x7da86405, 0xe2e2c38e);
    NextWordIs(w, 26, 0x00000000, 0x00000000, 0x600003c6, 0xc8215c1a);
    NextWordIs(w, 27, 0x00000000, 0x00000000, 0x3e9d7b78, 0xb73679a2);
    NextWordIs(w, 28, 0x00000000, 0x00000000, 0x0183fc00, 0xe5bc3909);
    NextWordIs(w, 29, 0x00000000, 0x00000000, 0x12dcbfdb, 0x32663c5b);
    NextWordIs(w, 30, 0x00000000, 0x00000018, 0xe2e2c38e, 0x9d209d67);
    NextWordIs(w, 31, 0x00000018, 0x61626380, 0xc8215c1a, 0xec8726cb);
  }

  lemma WordRow4(w: seq<Word>)
    requires IsSchedule(w) && Words2(w) && Words3(w)
    ensures Words4(w)
  {
    hide IsSchedule;
    NextWordIs(w, 32, 0x61626380, 0x000f0000, 0xb73679a2, 0x702138a4);
    NextWordIs(w, 33, 0x000f0000, 0x7da86405, 0xe5bc3909, 0xd3b7973b);
    NextWordIs(w, 34, 0x7da86405, 0x600003c6, 0x32663c5b, 0x93f5997f);
    NextWordIs(w, 35, 0x600003c6, 0x3e9d7b78, 0x9d209d67, 0x3b68ba73);
    NextWordIs(w, 36, 0x3e9d7b78, 0x0183fc00, 0xec8726cb, 0xaff4ffc1);
    NextWordIs(w, 37, 0x0183fc00, 0x12dcbfdb, 0x702138a4, 0xf10a5c62);
    NextWordIs(w, 38, 0x12dcbfdb, 0xe2e2c38e, 0xd3b7973b, 0x0a8b3996);
    NextWordIs(w, 39, 0xe2e2c38e, 0xc8215c1a, 0x93f5997f, 0x72af830a);
  }

  lemma WordRow5(w: seq<Word>)
    requires IsSchedule(w) && Words3(w) && Words4(w)
    ensures Words5(w)
  {
    hide IsSchedule;
    NextWordIs(w, 40, 0xc8215c1a, 0xb73679a2, 0x3b68ba73, 0x9409e33e);
    NextWordIs(w, 41, 0xb73679a2, 0xe5bc3909, 0xaff4ffc1, 0x24641522);
    NextWordIs(w, 42, 0xe5bc3909, 0x32663c5b, 0xf10a5c62, 0x9f47bf94);
    NextWordIs(w, 43, 0x32663c5b, 0x9d209d67, 0x0a8b3996, 0xf0a64f5a);
    NextWordIs(w, 44, 0x9d209d67, 0xec8726cb, 0x72af830a, 0x3e246a79);
    NextWordIs(w, 45, 0xec8726cb, 0x702138a4, 0x9409e33e, 0x27333ba3);
    NextWordIs(w, 46, 0x702138a4, 0xd3b7973b, 0x24641522, 0x0c4763f2);
    NextWordIs(w, 47, 0xd3b7973b, 0x93f5997f, 0x9f47bf94, 0x840abf27);
  }

  lemma WordRow6(w: seq<Word>)
    requires IsSchedule(w) && Words4(w) && Words5(w)
    ensures Words6(w)
  {
    hide IsSchedule;
    NextWordIs(w, 48, 0x93f5997f, 0x3b68ba73, 0xf0a64f5a, 0x7a290d5d);
    NextWordIs(w, 49, 0x3b68ba73, 0xaff4ffc1, 0x3e246a79, 0x065c43da);
    NextWordIs(w, 50, 0xaff4ffc1, 0xf10a5c62, 0x27333ba3, 0xfb3e89cb);
    NextWordIs(w, 51, 0xf10a5c62, 0x0a8b3996, 0x0c4763f2, 0xcc7617db);
    NextWordIs(w, 52, 0x0a8b3996, 0x72af830a, 0x840abf27, 0xb9e66c34);
    NextWordIs(w, 53, 0x72af830a, 0x9409e33e, 0x7a290d5d, 0xa9993667);
    NextWordIs(w, 54, 0x9409e33e, 0x24641522, 0x065c43da, 0x84badedd);
    NextWordIs(w, 55, 0x24641522, 0x9f47bf94, 0xfb3e89cb, 0xc21462bc);
  }

  lemma WordRow7(w: seq<Word>)
    requires IsSchedule(w) && Words5(w) && Words6(w)
    ensures Words7(w)
  {
    hide IsSchedule;
    NextWordIs(w, 56, 0x9f47bf94, 0xf0a64f5a, 0xcc7617db, 0x1487472c);
    NextWordIs(w, 57, 0xf0a64f5a, 0x3e246a79, 0xb9e66c34, 0xb20f7a99);
    NextWordIs(w, 58, 0x3e246a79, 0x27333ba3, 0xa9993667, 0xef57b9cd);
    NextWordIs(w, 59, 0x27333ba3, 0x0c4763f2, 0x84badedd, 0xebe6b238);
    NextWordIs(w, 60, 0x0c4763f2, 0x840abf27, 0xc21462bc, 0x9fe3095e);
    NextWordIs(w, 61, 0x840abf27, 0x7a290d5d, 0x1487472c, 0x78bc8d4b);
    NextWordIs(w, 62, 0x7a290d5d, 0x065c43da, 0xb20f7a99, 0xa43fcf15);
    NextWordIs(w, 63, 0x065c43da, 0xfb3e89cb, 0xef57b9cd, 0x668b2ff8);
  }

  lemma WordsOfAbc(w: seq<Word>)
    requires IsSchedule(w)
    ensures Words0(w) && Words1(w) && Words2(w) && Words3(w)
    ensures Words4(w) && Words5(w) && Words6(w) && Words7(w)
  {
    hide IsSchedule, Words0, Words1, Words2, Words3, Words4, Words5, Words6, Words7;
    WordRow0(w);
    WordRow1(w);
    WordRow2(w);
    WordRow3(w);
    WordRow4(w);
    WordRow5(w);
    WordRow6(w);
    WordRow7(w);
  }

  // ----- The rounds -----

  lemma Turn(w: seq<Word>, t: nat, r: Regs, k: Word, x: Word, q: Regs)
    requires |w| == 64 && t < 64 && Rounds(IV, w, t) == r && K[t] == k && w[t] == x && Round(r, k, x) == q
    ensures Rounds(IV, w, t + 1) == q
  {
    hide Round;
  }

  const R0 := Regs(0x6a09e667, 0xbb67ae85, 0x3c6ef372, 0xa54ff53a, 0x510e527f, 0x9b05688c, 0x1f83d9ab, 0x5be0cd19)
  const R1 := Regs(0x5d6aebcd, 0x6a09e667, 0xbb67ae85, 0x3c6ef372, 0xfa2a4622, 0x510e527f, 0x9b05688c, 0x1f83d9ab)
  const R2 := Regs(0x5a6ad9ad, 0x5d6aebcd, 0x6a09e667, 0xbb67ae85, 0x78ce7989, 0xfa2a4622, 0x510e527f, 0x9b05688c)
  const R3 := Regs(0xc8c347a7, 0x5a6ad9ad, 0x5d6aebcd, 0x6a09e667, 0xf92939eb, 0x78ce7989, 0xfa2a4622, 0x510e527f)
  const R4 := Regs(0xd550f666, 0xc8c347a7, 0x5a6ad9ad, 0x5d6aebcd, 0x24e00850, 0xf92939eb, 0x78ce7989, 0xfa2a4622)
  const R5 := Regs(0x04409a6a, 0xd550f666, 0xc8c347a7, 0x5a6ad9ad, 0x43ada245, 0x24e00850, 0xf92939eb, 0x78ce7989)
  const R6 := Regs(0x2b4209f5, 0x04409a6a, 0xd550f666, 0xc8c347a7, 0x714260ad, 0x43ada245, 0x24e00850, 0xf92939eb)
  const R7 := Regs(0xe5030380, 0x2b4209f5, 0x04409a6a, 0xd550f666, 0x9b27a401, 0x714260ad, 0x43ada245, 0x24e00850)
  const R8 := Regs(0x85a07b5f, 0xe5030380, 0x2b4209f5, 0x04409a6a, 0x0c657a79, 0x9b27a401, 0x714260ad, 0x43ada245)
  const R9 := Regs(0x8e04ecb9, 0x85a07b5f, 0xe5030380, 0x2b4209f5, 0x32ca2d8c, 0x0c657a79, 0x9b27a401, 0x714260ad)
  const R10 := Regs(0x8c87346b, 0x8e04ecb9, 0x85a07b5f, 0xe5030380, 0x1cc92596, 0x32ca2d8c, 0x0c657a79, 0x9b27a401)
  const R11 := Regs(0x4798a3f4, 0x8c87346b, 0x8e04ecb9, 0x85a07b5f, 0x436b23e8, 0x1cc92596, 0x32ca2d8c, 0x0c657a79)
  const R12 := Regs(0xf71fc5a9, 0x4798a3f4, 0x8c87346b, 0x8e04ecb9, 0x816fd6e9, 0x436b23e8, 0x1cc92596, 0x32ca2d8c)
  const R13 := Regs(0x87912990, 0xf71fc5a9, 0x4798a3f4, 0x8c87346b, 0x1e578218, 0x816fd6e9, 0x436b23e8, 0x1cc92596)
  const R14 := Regs(0xd932eb16, 0x87912990, 0xf71fc5a9, 0x4798a3f4, 0x745a48de, 0x1e578218, 0x816fd6e9, 0x436b23e8)
  const R15 := Regs(0xc0645fde, 0xd932eb16, 0x87912990, 0xf71fc5a9, 0x0b92f20c, 0x745a48de, 0x1e578218, 0x816fd6e9)
  const R16 := Regs(0xb0fa238e, 0xc0645fde, 0xd932eb16, 0x87912990, 0x07590dcd, 0x0b92f20c, 0x745a48de, 0x1e578218)
  const R17 := Regs(0x21da9a9b, 0xb0fa238e, 0xc0645fde, 0xd932eb16, 0x8034229c, 0x07590dcd, 0x0b92f20c, 0x745a48de)
  const R18 := Regs(0xc2fbd9d1, 0x21da9a9b, 0xb0fa238e, 0xc0645fde, 0x846ee454, 0x8034229c, 0x07590dcd, 0x0b92f20c)
  const R19 := Regs(0xfe777bbf, 0xc2fbd9d1, 0x21da9a9b, 0xb0fa238e, 0xcc899961, 0x846ee454, 0x8034229c, 0x07590dcd)
  const R20 := Regs(0xe1f20c33, 0xfe777bbf, 0xc2fbd9d1, 0x21da9a9b, 0xb0638179, 0xcc899961, 0x846ee454, 0x8034229c)
  const R21 := Regs(0x9dc68b63, 0xe1f20c33, 0xfe777bbf, 0xc2fbd9d1, 0x8ada8930, 0xb0638179, 0xcc899961, 0x846ee454)
  const R22 := Regs(0xc2606d6d, 0x9dc68b63, 0xe1f20c33, 0xfe777bbf, 0xe1257970, 0x8ada8930, 0xb0638179, 0xcc899961)
  const R23 := Regs(0xa7a3623f, 0xc2606d6d, 0x9dc68b63, 0xe1f20c33, 0x49f5114a, 0xe1257970, 0x8ada8930, 0xb0638179)
  const R24 := Regs(0xc5d53d8d, 0xa7a3623f, 0xc2606d6d, 0x9dc68b63, 0xaa47c347, 0x49f5114a, 0xe1257970, 0x8ada8930)
  const R25 := Regs(0x1c2c2838, 0xc5d53d8d, 0xa7a3623f, 0xc2606d6d, 0x2823ef91, 0xaa47c347, 0x49f5114a, 0xe1257970)
  const R26 := Regs(0xcde8037d, 0x1c2c2838, 0xc5d53d8d, 0xa7a3623f, 0x14383d8e, 0x2823ef91, 0xaa47c347, 0x49f5114a)
  const R27 := Regs(0xb62ec4bc, 0xcde8037d, 0x1c2c2838, 0xc5d53d8d, 0xc74c6516, 0x14383d8e, 0x2823ef91, 0xaa47c347)
  const R28 := Regs(0x77d37528, 0xb62ec4bc, 0xcde8037d, 0x1c2c2838, 0xedffbff8, 0xc74c6516, 0x14383d8e, 0x2823ef91)
  const R29 := Regs(0x363482c9, 0x77d37528, 0xb62ec4bc, 0xcde8037d, 0x6112a3b7, 0xedffbff8, 0xc74c6516, 0x14383d8e)
  const R30 := Regs(0xa0060b30, 0x363482c9, 0x77d37528, 0xb62ec4bc, 0xade79437, 0x6112a3b7, 0xedffbff8, 0xc74c6516)
  const R31 := Regs(0xea992a22, 0xa0060b30, 0x363482c9, 0x77d37528, 0x0109ab3a, 0xade79437, 0x6112a3b7, 0xedffbff8)
  const R32 := Regs(0x73b33bf5, 0xea992a22, 0xa0060b30, 0x363482c9, 0xba591112, 0x0109ab3a, 0xade79437, 0x6112a3b7)
  const R33 := Regs(0x98e12507, 0x73b33bf5, 0xea992a22, 0xa0060b30, 0x9cd9f5f6, 0xba591112, 0x0109ab3a, 0xade79437)
  const R34 := Regs(0xfe604df5, 0x98e12507, 0x73b33bf5, 0xea992a22, 0x59249dd3, 0x9cd9f5f6, 0xba591112, 0x0109ab3a)
  const R35 := Regs(0xa9a7738c, 0xfe604df5, 0x98e12507, 0x73b33bf5, 0x085f3833, 0x59249dd3, 0x9cd9f5f6, 0xba591112)
  const R36 := Regs(0x65a0cfe4, 0xa9a7738c, 0xfe604df5, 0x98e12507, 0xf4b002d6, 0x085f3833, 0x59249dd3, 0x9cd9f5f6)
  const R37 := Regs(0x41a65cb1, 0x65a0cfe4, 0xa9a7738c, 0xfe604df5, 0x0772a26b, 0xf4b002d6, 0x085f3833, 0x59249dd3)
  const R38 := Regs(0x34df1604, 0x41a65cb1, 0x65a0cfe4, 0xa9a7738c, 0xa507a53d, 0x0772a26b, 0xf4b002d6, 0x085f3833)
  const R39 := Regs(0x6dc57a8a, 0x34df1604, 0x41a65cb1, 0x65a0cfe4, 0xf0781bc8, 0xa507a53d, 0x0772a26b, 0xf4b002d6)
  const R40 := Regs(0x79ea687a, 0x6dc57a8a, 0x34df1604, 0x41a65cb1, 0x1efbc0a0, 0xf0781bc8, 0xa507a53d, 0x0772a26b)
  const R41 := Regs(0xd6670766, 0x79ea687a, 0x6dc57a8a, 0x34df1604, 0x26352d63, 0x1efbc0a0, 0xf0781bc8, 0xa507a53d)
  const R42 := Regs(0xdf46652f, 0xd6670766, 0x79ea687a, 0x6dc57a8a, 0x838b2711, 0x26352d63, 0x1efbc0a0, 0xf0781bc8)
  const R43 := Regs(0x17aa0dfe, 0xdf46652f, 0xd6670766, 0x79ea687a, 0xdecd4715, 0x838b2711, 0x26352d63, 0x1efbc0a0)
  const R44 := Regs(0x9d4baf93, 0x17aa0dfe, 0xdf46652f, 0xd6670766, 0xfda24c2e, 0xdecd4715, 0x838b2711, 0x26352d63)
  const R45 := Regs(0x26628815, 0x9d4baf93, 0x17aa0dfe, 0xdf46652f, 0xa80f11f0, 0xfda24c2e, 0xdecd4715, 0x838b2711)
  const R46 := Regs(0x72ab4b91, 0x26628815, 0x9d4baf93, 0x17aa0dfe, 0xb7755da1, 0xa80f11f0, 0xfda24c2e, 0xdecd4715)
  const R47 := Regs(0xa14c14b0, 0x72ab4b91, 0x26628815, 0x9d4baf93, 0xd57b94a9, 0xb7755da1, 0xa80f11f0, 0xfda24c2e)
  const R48 := Regs(0x4172328d, 0xa14c14b0, 0x72ab4b91, 0x26628815, 0xfecf0bc6, 0xd57b94a9, 0xb7755da1, 0xa80f11f0)
  const R49 := Regs(0x05757ceb, 0x4172328d, 0xa14c14b0, 0x72ab4b91, 0xbd714038, 0xfecf0bc6, 0xd57b94a9, 0xb7755da1)
  const R50 := Regs(0xf11bfaa8, 0x05757ceb, 0x4172328d, 0xa14c14b0, 0x6e5c390c, 0xbd714038, 0xfecf0bc6, 0xd57b94a9)
  const R51 := Regs(0x7a0508a1, 0xf11bfaa8, 0x05757ceb, 0x4172328d, 0x52f1ccf7, 0x6e5c390c, 0xbd714038, 0xfecf0bc6)
  const R52 := Regs(0x886e7a22, 0x7a0508a1, 0xf11bfaa8, 0x05757ceb, 0x49231c1e, 0x52f1ccf7, 0x6e5c390c, 0xbd714038)
  const R53 := Regs(0x101fd28f, 0x886e7a22, 0x7a0508a1, 0xf11bfaa8, 0x529e7d00, 0x49231c1e, 0x52f1ccf7, 0x6e5c390c)
  const R54 := Regs(0xf5702fdb, 0x101fd28f, 0x886e7a22, 0x7a0508a1, 0x9f4787c3, 0x529e7d00, 0x49231c1e, 0x52f1ccf7)
  const R55 := Regs(0x3ec45cdb, 0xf5702fdb, 0x101fd28f, 0x886e7a22, 0xe50e1b4f, 0x9f4787c3, 0x529e7d00, 0x49231c1e)
  const R56 := Regs(0x38cc9913, 0x3ec45cdb, 0xf5702fdb, 0x101fd28f, 0x54cb266b, 0xe50e1b4f, 0x9f4787c3, 0x529e7d00)
  const R57 := Regs(0xfcd1887b, 0x38cc9913, 0x3ec45cdb, 0xf5702fdb, 0x9b5e906c, 0x54cb266b, 0xe50e1b4f, 0x9f4787c3)
  const R58 := Regs(0xc062d46f, 0xfcd1887b, 0x38cc9913, 0x3ec45cdb, 0x7e44008e, 0x9b5e906c, 0x54cb266b, 0xe50e1b4f)
  const R59 := Regs(0xffb70472, 0xc062d46f, 0xfcd1887b, 0x38cc9913, 0x6d83bfc6, 0x7e44008e, 0x9b5e906c, 0x54cb266b)
  const R60 := Regs(0xb6ae8fff, 0xffb70472, 0xc062d46f, 0xfcd1887b, 0xb21bad3d, 0x6d83bfc6, 0x7e44008e, 0x9b5e906c)
  const R61 := Regs(0xb85e2ce9, 0xb6ae8fff, 0xffb70472, 0xc062d46f, 0x961f4894, 0xb21bad3d, 0x6d83bfc6, 0x7e44008e)
  const R62 := Regs(0x04d24d6c, 0xb85e2ce9, 0xb6ae8fff, 0xffb70472, 0x948d25b6, 0x961f4894, 0xb21bad3d, 0x6d83bfc6)
  const R63 := Regs(0xd39a2165, 0x04d24d6c, 0xb85e2ce9, 0xb6ae8fff, 0xfb121210, 0x948d25b6, 0x961f4894, 0xb21bad3d)
  const R64 := Regs(0x506e3058, 0xd39a2165, 0x04d24d6c, 0xb85e2ce9, 0x5ef50f24, 0xfb121210, 0x948d25b6, 0x961f4894)

  lemma KRow0()
    ensures |K| == 64
    ensures K[0] == 0x428a2f98 && K[1] == 0x71374491 && K[2] == 0xb5c0fbcf && K[3] == 0xe9b5dba5
    ensures K[4] == 0x3956c25b && K[5] == 0x59f111f1 && K[6] == 0x923f82a4 && K[7] == 0xab1c5ed5
  {
  }

  lemma KRow1()
    ensures |K| == 64
    ensures K[8] == 0xd807aa98 && K[9] == 0x12835b01 && K[10] == 0x243185be && K[11] == 0x550c7dc3
    ensures K[12] == 0x72be5d74 && K[13] == 0x80deb1fe && K[14] == 0x9bdc06a7 && K[15] == 0xc19bf174
  {
  }

  lemma KRow2()
    ensures |K| == 64
    ensures K[16] == 0xe49b69c1 && K[17] == 0xefbe4786 && K[18] == 0x0fc19dc6 && K[19] == 0x240ca1cc
    ensures K[20] == 0x2de92c6f && K[21] == 0x4a7484aa && K[22] == 0x5cb0a9dc && K[23] == 0x76f988da
  {
  }

  lemma KRow3()
    ensures |K| == 64
    ensures K[24] == 0x983e5152 && K[25] == 0xa831c66d && K[26] == 0xb00327c8 && K[27] == 0xbf597fc7
    ensures K[28] == 0xc6e00bf3 && K[29] == 0xd5a79147 && K[30] == 0x06ca6351 && K[31] == 0x14292967
  {
  }

  lemma KRow4()
    ensures |K| == 64
    ensures K[32] == 0x27b70a85 && K[33] == 0x2e1b2138 && K[34] == 0x4d2c6dfc && K[35] == 0x53380d13
    ensures K[36] == 0x650a7354 && K[37] == 0x766a0abb && K[38] == 0x81c2c92e && K[39] == 0x92722c85
  {
  }

  lemma KRow5()
    ensures |K| == 64
    ensures K[40] == 0xa2bfe8a1 && K[41] == 0xa81a664b && K[42] == 0xc24b8b70 && K[43] == 0xc76c51a3
    ensures K[44] == 0xd192e819 && K[45] == 0xd6990624 && K[46] == 0xf40e3585 && K[47] == 0x106aa070
  {
  }

  lemma KRow6()
    ensures |K| == 64
    ensures K[48] == 0x19a4c116 && K[49] == 0x1e376c08 && K[50] == 0x2748774c && K[51] == 0x34b0bcb5
    ensures K[52] == 0x391c0cb3 && K[53] == 0x4ed8aa4a && K[54] == 0x5b9cca4f && K[55] == 0x682e6ff3
  {
  }

  lemma KRow7()
    ensures |K| == 64
    ensures K[56] == 0x748f82ee && K[57] == 0x78a5636f && K[58] == 0x84c87814 && K[59] == 0x8cc70208
    ensures K[60] == 0x90befffa && K[61] == 0xa4506ceb && K[62] == 0xbef9a3f7 && K[63] == 0xc67178f2
  {
  }

  lemma Values0()
    ensures Round(R0, 0x428a2f98, 0x61626380) == R1
    ensures Round(R1, 0x71374491, 0x00000000) == R2
    ensures Round(R2, 0xb5c0fbcf, 0x00000000) == R3
    ensures Round(R3, 0xe9b5dba5, 0x00000000) == R4
  {
  }

  lemma Values1()
    ensures Round(R4, 0x3956c25b, 0x00000000) == R5
    ensures Round(R5, 0x59f111f1, 0x00000000) == R6
    ensures Round(R6, 0x923f82a4, 0x00000000) == R7
    ensures Round(R7, 0xab1c5ed5, 0x00000000) == R8
  {
  }

  lemma Values2()
    ensures Round(R8, 0xd807aa98, 0x00000000) == R9
    ensures Round(R9, 0x12835b01, 0x00000000) == R10
    ensures Round(R10, 0x243185be, 0x00000000) == R11
    ensures Round(R11, 0x550c7dc3, 0x00000000) == R12
  {
  }

  lemma Values3()
    ensures Round(R12, 0x72be5d74, 0x00000000) == R13
    ensures Round(R13, 0x80deb1fe, 0x00000000) == R14
    ensures Round(R14, 0x9bdc06a7, 0x00000000) == R15
    ensures Round(R15, 0xc19bf174, 0x00000018) == R16
  {
  }

  lemma Values4()
    ensures Round(R16, 0xe49b69c1, 0x61626380) == R17
    ensures Round(R17, 0xefbe4786, 0x000f0000) == R18
    ensures Round(R18, 0x0fc19dc6, 0x7da86405) == R19
    ensures Round(R19, 0x240ca1cc, 0x600003c6) == R20
  {
  }

  lemma Values5()
    ensures Round(R20, 0x2de92c6f, 0x3e9d7b78) == R21
    ensures Round(R21, 0x4a7484aa, 0x0183fc00) == R22
    ensures Round(R22, 0x5cb0a9dc, 0x12dcbfdb) == R23
    ensures Round(R23, 0x76f988da, 0xe2e2c38e) == R24
  {
  }

  lemma Values6()
    ensures Round(R24, 0x983e5152, 0xc8215c1a) == R25
    ensures Round(R25, 0xa831c66d, 0xb73679a2) == R26
    ensures Round(R26, 0xb00327c8, 0xe5bc3909) == R27
    ensures Round(R27, 0xbf597fc7, 0x32663c5b) == R28
  {
  }

  lemma Values7()
    ensures Round(R28, 0xc6e00bf3, 0x9d209d67) == R29
    ensures Round(R29, 0xd5a79147, 0xec8726cb) == R30
    ensures Round(R30, 0x06ca6351, 0x702138a4) == R31
    ensures Round(R31, 0x14292967, 0xd3b7973b) == R32
  {
  }

  lemma Values8()
    ensures Round(R32, 0x27b70a85, 0x93f5997f) == R33
    ensures Round(R33, 0x2e1b2138, 0x3b68ba73) == R34
    ensures Round(R34, 0x4d2c6dfc, 0xaff4ffc1) == R35
    ensures Round(R35, 0x53380d13, 0xf10a5c62) == R36
  {
  }

  lemma Values9()
    ensures Round(R36, 0x650a7354, 0x0a8b3996) == R37
    ensures Round(R37, 0x766a0abb, 0x72af830a) == R38
    ensures Round(R38, 0x81c2c92e, 0x9409e33e) == R39
    ensures Round(R39, 0x92722c85, 0x24641522) == R40
  {
  }

  lemma Values10()
    ensures Round(R40, 0xa2bfe8a1, 0x9f47bf94) == R41
    ensures Round(R41, 0xa81a664b, 0xf0a64f5a) == R42
    ensures Round(R42, 0xc24b8b70, 0x3e246a79) == R43
    ensures Round(R43, 0xc76c51a3, 0x27333ba3) == R44
  {
  }

  lemma Values11()
    ensures Round(R44, 0xd192e819, 0x0c4763f2) == R45
    ensures Round(R45, 0xd6990624, 0x840abf27) == R46
    ensures Round(R46, 0xf40e3585, 0x7a290d5d) == R47
    ensures Round(R47, 0x106aa070, 0x065c43da) == R48
  {
  }

  lemma Values12()
    ensures Round(R48, 0x19a4c116, 0xfb3e89cb) == R49
    ensures Round(R49, 0x1e376c08, 0xcc7617db) == R50
    ensures Round(R50, 0x2748774c, 0xb9e66c34) == R51
    ensures Round(R51, 0x34b0bcb5, 0xa9993667) == R52
  {
  }

  lemma Values13()
    ensures Round(R52, 0x391c0cb3, 0x84badedd) == R53
    ensures Round(R53, 0x4ed8aa4a, 0xc21462bc) == R54
    ensures Round(R54, 0x5b9cca4f, 0x1487472c) == R55
    ensures Round(R55, 0x682e6ff3, 0xb20f7a99) == R56
  {
  }

  lemma Values14()
    ensures Round(R56, 0x748f82ee, 0xef57b9cd) == R57
    ensures Round(R57, 0x78a5636f, 0xebe6b238) == R58
    ensures Round(R58, 0x84c87814, 0x9fe3095e) == R59
    ensures Round(R59, 0x8cc70208, 0x78bc8d4b) == R60
  {
  }

  lemma Values15()
    ensures Round(R60, 0x90befffa, 0xa43fcf15) == R61
    ensures Round(R61, 0xa4506ceb, 0x668b2ff8) == R62
    ensures Round(R62, 0xbef9a3f7, 0xeeaba2cc) == R63
    ensures Round(R63, 0xc67178f2, 0x12b1edeb) == R64
  {
  }

  lemma RoundRow0(w: seq<Word>)
    requires Words0(w) && Rounds(IV, w, 0) == R0
    ensures Rounds(IV, w, 8) == R8
  {
    hide Rounds, Round, IV, K, R0, R1, R2, R3, R4, R5, R6, R7, R8;
    KRow0();
    Values0();
    Values1();
    Turn(w, 0, R0, 0x428a2f98, 0x61626380, R1);
    Turn(w, 1, R1, 0x71374491, 0x00000000, R2);
    Turn(w, 2, R2, 0xb5c0fbcf, 0x00000000, R3);
    Turn(w, 3, R3, 0xe9b5dba5, 0x00000000, R4);
    Turn(w, 4, R4, 0x3956c25b, 0x00000000, R5);
    Turn(w, 5, R5, 0x59f111f1, 0x00000000, R6);
    Turn(w, 6, R6, 0x923f82a4, 0x00000000, R7);
    Turn(w, 7, R7, 0xab1c5ed5, 0x00000000, R8);
  }

  lemma RoundRow1(w: seq<Word>)
    requires Words1(w) && Rounds(IV, w, 8) == R8
    ensures Rounds(IV, w, 16) == R16
  {
    hide Rounds, Round, IV, K, R8, R9, R10, R11, R12, R13, R14, R15, R16;
    KRow1();
    Values2();
    Values3();
    Turn(w, 8, R8, 0xd807aa98, 0x00000000, R9);
    Turn(w, 9, R9, 0x12835b01, 0x00000000, R10);
    Turn(w, 10, R10, 0x243185be, 0x00000000, R11);
    Turn(w, 11, R11, 0x550c7dc3, 0x00000000, R12);
    Turn(w, 12, R12, 0x72be5d74, 0x00000000, R13);
    Turn(w, 13, R13, 0x80deb1fe, 0x00000000, R14);
    Turn(w, 14, R14, 0x9bdc06a7, 0x00000000, R15);
    Turn(w, 15, R15, 0xc19bf174, 0x00000018, R16);
  }

  lemma RoundRow2(w: seq<Word>)
    requires Words2(w) && Rounds(IV, w, 16) == R16
    ensures Rounds(IV, w, 24) == R24
  {
    hide Rounds, Round, IV, K, R16, R17, R18, R19, R20, R21, R22, R23, R24;
    KRow2();
    Values4();
    Values5();
    Turn(w, 16, R16, 0xe49b69c1, 0x61626380, R17);
    Turn(w, 17, R17, 0xefbe4786, 0x000f0000, R18);
    Turn(w, 18, R18, 0x0fc19dc6, 0x7da86405, R19);
    Turn(w, 19, R19, 0x240ca1cc, 0x600003c6, R20);
    Turn(w, 20, R20, 0x2de92c6f, 0x3e9d7b78, R21);
    Turn(w, 21, R21, 0x4a7484aa, 0x0183fc00, R22);
    Turn(w, 22, R22, 0x5cb0a9dc, 0x12dcbfdb, R23);
    Turn(w, 23, R23, 0x76f988da, 0xe2e2c38e, R24);
  }

  lemma RoundRow3(w: seq<Word>)
    requires Words3(w) && Rounds(IV, w, 24) == R24
    ensures Rounds(IV, w, 32) == R32
  {
    hide Rounds, Round, IV, K, R24, R25, R26, R27, R28, R29, R30, R31, R32;
    KRow3();
    Values6();
    Values7();
    Turn(w, 24, R24, 0x983e5152, 0xc8215c1a, R25);
    Turn(w, 25, R25, 0xa831c66d, 0xb73679a2, R26);
    Turn(w, 26, R26, 0xb00327c8, 0xe5bc3909, R27);
    Turn(w, 27, R27, 0xbf597fc7, 0x32663c5b, R28);
    Turn(w, 28, R28, 0xc6e00bf3, 0x9d209d67, R29);
    Turn(w, 29, R29, 0xd5a79147, 0xec8726cb, R30);
    Turn(w, 30, R30, 0x06ca6351, 0x702138a4, R31);
    Turn(w, 31, R31, 0x14292967, 0xd3b7973b, R32);
  }

  lemma RoundRow4(w: seq<Word>)
    requires Words4(w) && Rounds(IV, w, 32) == R32
    ensures Rounds(IV, w, 40) == R40
  {
    hide Rounds, Round, IV, K, R32, R33, R34, R35, R36, R37, R38, R39, R40;
    KRow4();
    Values8();
    Values9();
    Turn(w, 32, R32, 0x27b70a85, 0x93f5997f, R33);
    Turn(w, 33, R33, 0x2e1b2138, 0x3b68ba73, R34);
    Turn(w, 34, R34, 0x4d2c6dfc, 0xaff4ffc1, R35);
    Turn(w, 35, R35, 0x53380d13, 0xf10a5c62, R36);
    Turn(w, 36, R36, 0x650a7354, 0x0a8b3996, R37);
    Turn(w, 37, R37, 0x766a0abb, 0x72af830a, R38);
    Turn(w, 38, R38, 0x81c2c92e, 0x9409e33e, R39);
    Turn(w, 39, R39, 0x92722c85, 0x24641522, R40);
  }

  lemma RoundRow5(w: seq<Word>)
    requires Words5(w) && Rounds(IV, w, 40) == R40
    ensures Rounds(IV, w, 48) == R48
  {
    hide Rounds, Round, IV, K, R40, R41, R42, R43, R44, R45, R46, R47, R48;
    KRow5();
    Values10();
    Values11();
    Turn(w, 40, R40, 0xa2bfe8a1, 0x9f47bf94, R41);
    Turn(w, 41, R41, 0xa81a664b, 0xf0a64f5a, R42);
    Turn(w, 42, R42, 0xc24b8b70, 0x3e246a79, R43);
    Turn(w, 43, R43, 0xc76c51a3, 0x27333ba3, R44);
    Turn(w, 44, R44, 0xd192e819, 0x0c4763f2, R45);
    Turn(w, 45, R45, 0xd6990624, 0x840abf27, R46);
    Turn(w, 46, R46, 0xf40e3585, 0x7a290d5d, R47);
    Turn(w, 47, R47, 0x106aa070, 0x065c43da, R48);
  }

  lemma RoundRow6(w: seq<Word>)
    requires Words6(w) && Rounds(IV, w, 48) == R48
    ensures Rounds(IV, w, 56) == R56
  {
    hide Rounds, Round, IV, K, R48, R49, R50, R51, R52, R53, R54, R55, R56;
    KRow6();
    Values12();
    Values13();
    Turn(w, 48, R48, 0x19a4c116, 0xfb3e89cb, R49);
    Turn(w, 49, R49, 0x1e376c08, 0xcc7617db, R50);
    Turn(w, 50, R50, 0x2748774c, 0xb9e66c34, R51);
    Turn(w, 51, R51, 0x34b0bcb5, 0xa9993667, R52);
    Turn(w, 52, R52, 0x391c0cb3, 0x84badedd, R53);
    Turn(w, 53, R53, 0x4ed8aa4a, 0xc21462bc, R54);
    Turn(w, 54, R54, 0x5b9cca4f, 0x1487472c, R55);
    Turn(w, 55, R55, 0x682e6ff3, 0xb20f7a99, R56);
  }

  lemma RoundRow7(w: seq<Word>)
    requires Words7(w) && Rounds(IV, w, 56) == R56
    ensures Rounds(IV, w, 64) == R64
  {
    hide Rounds, Round, IV, K, R56, R57, R58, R59, R60, R61, R62, R63, R64;
    KRow7();
    Values14();
    Values15();
    Turn(w, 56, R56, 0x748f82ee, 0xef57b9cd, R57);
    Turn(w, 57, R57, 0x78a5636f, 0xebe6b238, R58);
    Turn(w, 58, R58, 0x84c87814, 0x9fe3095e, R59);
    Turn(w, 59, R59, 0x8cc70208, 0x78bc8d4b, R60);
    Turn(w, 60, R60, 0x90befffa, 0xa43fcf15, R61);
    Turn(w, 61, R61, 0xa4506ceb, 0x668b2ff8, R62);
    Turn(w, 62, R62, 0xbef9a3f7, 0xeeaba2cc, R63);
    Turn(w, 63, R63, 0xc67178f2, 0x12b1edeb, R64);
  }

  lemma RoundsOfAbc(w: seq<Word>)
    requires Words0(w) && Words1(w) && Words2(w) && Words3(w)
    requires Words4(w) && Words5(w) && Words6(w) && Words7(w)
    ensures |w| == 64 && Rounds(IV, w, 64) == R64
  {
    assert |w| == 64 && Rounds(IV, w, 0) == R0;
    hide Rounds, Words0, Words1, Words2, Words3, Words4, Words5, Words6, Words7, R0, R8, R16, R24, R32, R40, R48, R56,
         R64;
    RoundRow0(w);
    RoundRow1(w);
    RoundRow2(w);
    RoundRow3(w);
    RoundRow4(w);
    RoundRow5(w);
    RoundRow6(w);
    RoundRow7(w);
  }

  // ----- The digest -----

  lemma WordsNext(w: seq<Word>, k: nat)
    requires k < |w|
    ensures WordsBytes(w[..k + 1]) == WordsBytes(w[..k]) + WordBytes(w[k])
  {
    hide WordBytes;
    assert w[..k + 1][..k] == w[..k];
  }

  lemma NoWords(w: seq<Word>)
    ensures WordsBytes(w[..0]) == []
  {
  }

  const SUM := Regs(0xba7816bf, 0x8f01cfea, 0x414140de, 0x5dae2223, 0xb00361a3, 0x96177a9c, 0xb410ff61, 0xf20015ad)

  lemma SumOfAbc()
    ensures AddRegs(IV, R64) == SUM
  {
  }

  lemma DigestOfAbc()
    ensures RegBytes(SUM) ==
            [0xba, 0x78, 0x16, 0xbf, 0x8f, 0x01, 0xcf, 0xea, 0x41, 0x41, 0x40, 0xde, 0x5d, 0xae, 0x22, 0x23,
             0xb0, 0x03, 0x61, 0xa3, 0x96, 0x17, 0x7a, 0x9c, 0xb4, 0x10, 0xff, 0x61, 0xf2, 0x00, 0x15, 0xad]
  {
    hide WordsBytes, WordBytes;
    var w := [SUM.a, SUM.b, SUM.c, SUM.d, SUM.e, SUM.f, SUM.g, SUM.h];
    BytesOfSum();
    NoWords(w);
    WordsNext(w, 0);
    WordsNext(w, 1);
    assert WordsBytes(w[..2]) == [0xba, 0x78, 0x16, 0xbf, 0x8f, 0x01, 0xcf, 0xea];
    WordsNext(w, 2);
    WordsNext(w, 3);
    assert WordsBytes(w[..4]) == [0xba, 0x78, 0x16, 0xbf, 0x8f, 0x01, 0xcf, 0xea, 0x41, 0x41, 0x40, 0xde, 0x5d, 0xae,
                                  0x22, 0x23];
    WordsNext(w, 4);
    WordsNext(w, 5);
    WordsNext(w, 6);
    WordsNext(w, 7);
    assert w[..8] == w;
  }

  lemma BytesOfSum()
    ensures WordBytes(SUM.a) == [0xba, 0x78, 0x16, 0xbf]
    ensures WordBytes(SUM.b) == [0x8f, 0x01, 0xcf, 0xea]
    ensures WordBytes(SUM.c) == [0x41, 0x41, 0x40, 0xde]
    ensures WordBytes(SUM.d) == [0x5d, 0xae, 0x22, 0x23]
    ensures WordBytes(SUM.e) == [0xb0, 0x03, 0x61, 0xa3]
    ensures WordBytes(SUM.f) == [0x96, 0x17, 0x7a, 0x9c]
    ensures WordBytes(SUM.g) == [0xb4, 0x10, 0xff, 0x61]
    ensures WordBytes(SUM.h) == [0xf2, 0x00, 0x15, 0xad]
  {
  }

  /** The digest of "abc" is ba7816bf 8f01cfea 414140de 5dae2223 b00361a3 96177a9c b410ff61 f20015ad. */
  lemma AbcDigest()
    ensures Hash(ABC) ==
            [0xba, 0x78, 0x16, 0xbf, 0x8f, 0x01, 0xcf, 0xea, 0x41, 0x41, 0x40, 0xde, 0x5d, 0xae, 0x22, 0x23,
             0xb0, 0x03, 0x61, 0xa3, 0x96, 0x17, 0x7a, 0x9c, 0xb4, 0x10, 0xff, 0x61, 0xf2, 0x00, 0x15, 0xad]
  {
    hide Pad, Schedule, Rounds, Round, RegBytes, WordBytes, BigEndianWord, ScheduleWord;
    PaddedAbc();
    var b := Pad(ABC);
    var w := Schedule(b, 64);
    WordsOfAbc(w);
    RoundsOfAbc(w);
    assert b[..0] == [] && b[0..] == b;
    SumOfAbc();
    DigestOfAbc();
  }
}

/**
 The hash values that pin the algorithm: nodes that disagreed on one of them would
 route keys differently.
 */
module GoldenHashes {
  import opened Bytes
  import opened Words64
  import opened WordBytes
  import opened StableHash

  // ---------------------------------------------------------------------------
  // The algorithm over any operation that works bit by bit
  // ---------------------------------------------------------------------------

  /** What mixing does after the exclusive or. */
  function Scrambled(x: nat): u64 {
    WrappingAdd(RotateLeft29(TimesMod(x, MULTIPLIER)), INCREMENT)
  }

  function MixedBy(f: Op, state: nat, word: nat): u64 {
    Scrambled(f(state, word))
  }

  function TimesMod(a: nat, m: u64): u64 { a * m % TWO64 }

  function ShiftedBy(f: Op, h: nat): nat {
    f(h, h / 0x2_0000_0000)
  }

  function FinishedBy(f: Op, state: nat): nat {
    ShiftedBy(f, TimesMod(ShiftedBy(f, TimesMod(ShiftedBy(f, state), FIRST)), SECOND))
  }

  function MixedAllBy(f: Op, words: seq<u64>): u64 {
    if words == [] then SEED else MixedBy(f, MixedAllBy(f, words[..|words| - 1]), words[|words| - 1])
  }

  function HashBy(f: Op, words: seq<u64>): nat {
    FinishedBy(f, MixedAllBy(f, words))
  }

  lemma MixedByXor(state: u64, word: u64)
    ensures MixedBy(Xor, state, word) == Mixed(state, word)
  {
  }

  lemma FinishedByXor(state: u64)
    ensures FinishedBy(Xor, state) == Finished(state)
  {
  }

  lemma {:induction false} MixedAllByXor(words: seq<u64>)
    ensures MixedAllBy(Xor, words) == MixedAll(SEED, words)
    decreases |words|
  {
    if words != [] {
      var init, last := words[..|words| - 1], words[|words| - 1];
      MixedAllByXor(init);
      MixedByXor(MixedAll(SEED, init), last);
    }
  }

  /** Over exclusive or it is the hash. */
  lemma HashByXor(words: seq<u64>)
    ensures HashBy(Xor, words) == HashOf(words)
  {
    MixedAllByXor(words);
    FinishedByXor(MixedAll(SEED, words));
  }

  /** For the word x whose upper half is `high`, and a y that has none. */
  lemma LowIs(f: Op, x: nat, y: nat, r: nat, high: nat, x3: bv8, x2: bv8, x1: bv8, x0: bv8,
              y3: bv8, y2: bv8, y1: bv8, y0: bv8)
    requires BitByBit(f) && x == Word(high, x3, x2, x1, x0) && y == Word(0, y3, y2, y1, y0)
    requires r == Word(high, x3 ^ y3, x2 ^ y2, x1 ^ y1, x0 ^ y0)
    ensures f(x, y) == r
  {
    UnchangedByZero(f, high);
    FourBytes(f, high, x3, x2, x1, x0, 0, y3, y2, y1, y0);
  }

  /** h ^ (h >> 33), for the h whose lower half is x and whose upper 31 bits are y. */
  lemma ShiftIs(f: Op, h: nat, r: nat, high: nat, x3: bv8, x2: bv8, x1: bv8, x0: bv8,
                y3: bv8, y2: bv8, y1: bv8, y0: bv8)
    requires BitByBit(f)
    requires h == Word(high, x3, x2, x1, x0) && h / 0x2_0000_0000 == Word(0, y3, y2, y1, y0)
    requires r == Word(high, x3 ^ y3, x2 ^ y2, x1 ^ y1, x0 ^ y0)
    ensures ShiftedBy(f, h) == r
  {
    LowIs(f, h, h / 0x2_0000_0000, r, high, x3, x2, x1, x0, y3, y2, y1, y0);
  }

  lemma WordIs(f: Op, x: nat, y: nat, r: nat,
               x7: bv8, x6: bv8, x5: bv8, x4: bv8, x3: bv8, x2: bv8, x1: bv8, x0: bv8,
               y7: bv8, y6: bv8, y5: bv8, y4: bv8, y3: bv8, y2: bv8, y1: bv8, y0: bv8)
    requires BitByBit(f)
    requires x == Word(Word(0, x7, x6, x5, x4), x3, x2, x1, x0) && y == Word(Word(0, y7, y6, y5, y4), y3, y2, y1, y0)
    requires r == Word(Word(0, x7 ^ y7, x6 ^ y6, x5 ^ y5, x4 ^ y4), x3 ^ y3, x2 ^ y2, x1 ^ y1, x0 ^ y0)
    ensures f(x, y) == r
  {
    FourBytes(f, 0, x7, x6, x5, x4, 0, y7, y6, y5, y4);
    FourBytes(f, Word(0, x7, x6, x5, x4), x3, x2, x1, x0, Word(0, y7, y6, y5, y4), y3, y2, y1, y0);
  }

  /** The product's lower word is `high` and `low`, 29 and 35 bits of it. */
  lemma ScrambleIs(x: nat, m: u64, quotient: nat, high: nat, low: nat, carry: nat)
    requires x * MULTIPLIER == quotient * TWO64 + high * 0x8_0000_0000 + low
    requires high < 0x2000_0000 && low < 0x8_0000_0000
    requires low * 0x2000_0000 + high + INCREMENT == carry * TWO64 + m
    ensures Scrambled(x) == m
  {
    var y := high * 0x8_0000_0000 + low;
    ModUnique(y, quotient);
    Halves35(high, low);
    ModUnique(m, carry);
  }

  lemma FinishIs(f: Op, h: nat, a: nat, b: u64, c: nat, d: u64, r: nat)
    requires ShiftedBy(f, h) == a && TimesMod(a, FIRST) == b
    requires ShiftedBy(f, b) == c && TimesMod(c, SECOND) == d && ShiftedBy(f, d) == r
    ensures FinishedBy(f, h) == r
  {
  }

  // ---------------------------------------------------------------------------
  // Word by word
  // ---------------------------------------------------------------------------

  lemma XorZero(f: Op)
    requires BitByBit(f)
    ensures f(0x243F_6A88_85A3_08D3, 0) == 0x243F_6A88_85A3_08D3
  {
    UnchangedByZero(f, 0x243F_6A88_85A3_08D3);
  }

  lemma ScrambleZero()
    ensures Scrambled(0x243F_6A88_85A3_08D3) == 0xA840_6345_D8B1_2F96
  {
    ScrambleIs(0x243F_6A88_85A3_08D3, 0xA840_6345_D8B1_2F96,
               0x1666_FE9C_6303_DB0B, 0x1EFC_4F7D, 0x2_28A3_ED4F, 0);
  }

  lemma MixZero(f: Op)
    requires BitByBit(f)
    ensures MixedBy(f, SEED, 0) == 0xA840_6345_D8B1_2F96
  {
    XorZero(f);
    ScrambleZero();
  }

  lemma FinishZero(f: Op)
    requires BitByBit(f)
    ensures FinishedBy(f, 0xA840_6345_D8B1_2F96) == 0x0556_C50F_3FA4_5AC8
  {
    ShiftIs(f, 0xA840_6345_D8B1_2F96, 0xA840_6345_8C91_1E34, 0xA840_6345, 0xD8, 0xB1, 0x2F, 0x96,
            0x54, 0x20, 0x31, 0xA2);
    ShiftIs(f, 0xE70D_7662_17FD_9FA4, 0xE70D_7662_647B_2495, 0xE70D_7662, 0x17, 0xFD, 0x9F, 0xA4,
            0x73, 0x86, 0xBB, 0x31);
    ShiftIs(f, 0x0556_C50F_3D0F_384F, 0x0556_C50F_3FA4_5AC8, 0x0556_C50F, 0x3D, 0x0F, 0x38, 0x4F,
            0x02, 0xAB, 0x62, 0x87);
    FinishIs(f, 0xA840_6345_D8B1_2F96, 0xA840_6345_8C91_1E34, 0xE70D_7662_17FD_9FA4,
             0xE70D_7662_647B_2495, 0x0556_C50F_3D0F_384F, 0x0556_C50F_3FA4_5AC8);
  }

  lemma XorOne(f: Op)
    requires BitByBit(f)
    ensures f(0x243F_6A88_85A3_08D3, 1) == 0x243F_6A88_85A3_08D2
  {
    LowIs(f, 0x243F_6A88_85A3_08D3, 1, 0x243F_6A88_85A3_08D2, 0x243F_6A88, 0x85, 0xA3, 0x08, 0xD3,
          0x00, 0x00, 0x00, 0x01);
  }

  lemma ScrambleOne()
    ensures Scrambled(0x243F_6A88_85A3_08D2) == 0x7857_13C3_24EA_405F
  {
    ScrambleIs(0x243F_6A88_85A3_08D2, 0x7857_13C3_24EA_405F,
               0x1666_FE9C_6303_DB0B, 0x0B35_6046, 0x0_A959_713A, 0);
  }

  lemma MixOne(f: Op)
    requires BitByBit(f)
    ensures MixedBy(f, SEED, 1) == 0x7857_13C3_24EA_405F
  {
    XorOne(f);
    ScrambleOne();
  }

  lemma FinishOne(f: Op)
    requires BitByBit(f)
    ensures FinishedBy(f, 0x7857_13C3_24EA_405F) == 0xD04C_A76A_C679_B738
  {
    ShiftIs(f, 0x7857_13C3_24EA_405F, 0x7857_13C3_18C1_C9BE, 0x7857_13C3, 0x24, 0xEA, 0x40, 0x5F,
            0x3C, 0x2B, 0x89, 0xE1);
    ShiftIs(f, 0x8503_7573_AF98_7526, 0x8503_7573_ED19_CF9F, 0x8503_7573, 0xAF, 0x98, 0x75, 0x26,
            0x42, 0x81, 0xBA, 0xB9);
    ShiftIs(f, 0xD04C_A76A_AE5F_E48D, 0xD04C_A76A_C679_B738, 0xD04C_A76A, 0xAE, 0x5F, 0xE4, 0x8D,
            0x68, 0x26, 0x53, 0xB5);
    FinishIs(f, 0x7857_13C3_24EA_405F, 0x7857_13C3_18C1_C9BE, 0x8503_7573_AF98_7526,
             0x8503_7573_ED19_CF9F, 0xD04C_A76A_AE5F_E48D, 0xD04C_A76A_C679_B738);
  }

  lemma XorMax(f: Op)
    requires BitByBit(f)
    ensures f(0x243F_6A88_85A3_08D3, 0xFFFF_FFFF_FFFF_FFFF) == 0xDBC0_9577_7A5C_F72C
  {
    WordIs(f, 0x243F_6A88_85A3_08D3, 0xFFFF_FFFF_FFFF_FFFF, 0xDBC0_9577_7A5C_F72C,
           0x24, 0x3F, 0x6A, 0x88, 0x85, 0xA3, 0x08, 0xD3,
           0xFF, 0xFF, 0xFF, 0xFF, 0xFF, 0xFF, 0xFF, 0xFF);
  }

  lemma ScrambleMax()
    ensures Scrambled(0xDBC0_9577_7A5C_F72C) == 0xEE2E_186F_66F1_A164
  {
    ScrambleIs(0xDBC0_9577_7A5C_F72C, 0xEE2E_186F_66F1_A164,
               0x87D0_7B1D_1C46_A108, 0x0D3C_C14B, 0x4_5811_969C, 0);
  }

  lemma MixMax(f: Op)
    requires BitByBit(f)
    ensures MixedBy(f, SEED, 0xFFFF_FFFF_FFFF_FFFF) == 0xEE2E_186F_66F1_A164
  {
    XorMax(f);
    ScrambleMax();
  }

  lemma FinishMax(f: Op)
    requires BitByBit(f)
    ensures FinishedBy(f, 0xEE2E_186F_66F1_A164) == 0x51B4_6ECA_50E2_21CE
  {
    ShiftIs(f, 0xEE2E_186F_66F1_A164, 0xEE2E_186F_11E6_AD53, 0xEE2E_186F, 0x66, 0xF1, 0xA1, 0x64,
            0x77, 0x17, 0x0C, 0x37);
    ShiftIs(f, 0x1E34_1C7D_E011_2F77, 0x1E34_1C7D_EF0B_2149, 0x1E34_1C7D, 0xE0, 0x11, 0x2F, 0x77,
            0x0F, 0x1A, 0x0E, 0x3E);
    ShiftIs(f, 0x51B4_6ECA_7838_16AB, 0x51B4_6ECA_50E2_21CE, 0x51B4_6ECA, 0x78, 0x38, 0x16, 0xAB,
            0x28, 0xDA, 0x37, 0x65);
    FinishIs(f, 0xEE2E_186F_66F1_A164, 0xEE2E_186F_11E6_AD53, 0x1E34_1C7D_E011_2F77,
             0x1E34_1C7D_EF0B_2149, 0x51B4_6ECA_7838_16AB, 0x51B4_6ECA_50E2_21CE);
  }

  lemma XorPairSecond(f: Op)
    requires BitByBit(f)
    ensures f(0x7857_13C3_24EA_405F, 2) == 0x7857_13C3_24EA_405D
  {
    LowIs(f, 0x7857_13C3_24EA_405F, 2, 0x7857_13C3_24EA_405D, 0x7857_13C3, 0x24, 0xEA, 0x40, 0x5F,
          0x00, 0x00, 0x00, 0x02);
  }

  lemma ScramblePairSecond()
    ensures Scrambled(0x7857_13C3_24EA_405D) == 0x0AB4_B00F_FFF8_CFF0
  {
    ScrambleIs(0x7857_13C3_24EA_405D, 0x0AB4_B00F_FFF8_CFF0,
               0x4A5F_D220_0AD0_3CD3, 0x0643_EFD7, 0x5_3C46_53A1, 1);
  }

  lemma MixPairSecond(f: Op)
    requires BitByBit(f)
    ensures MixedBy(f, 0x7857_13C3_24EA_405F, 2) == 0x0AB4_B00F_FFF8_CFF0
  {
    XorPairSecond(f);
    ScramblePairSecond();
  }

  lemma FinishPair(f: Op)
    requires BitByBit(f)
    ensures FinishedBy(f, 0x0AB4_B00F_FFF8_CFF0) == 0xB1B8_1CB6_1704_B78E
  {
    ShiftIs(f, 0x0AB4_B00F_FFF8_CFF0, 0x0AB4_B00F_FAA2_97F7, 0x0AB4_B00F, 0xFF, 0xF8, 0xCF, 0xF0,
            0x05, 0x5A, 0x58, 0x07);
    ShiftIs(f, 0x65E6_F1F9_BF51_C4CB, 0x65E6_F1F9_8DA2_BC37, 0x65E6_F1F9, 0xBF, 0x51, 0xC4, 0xCB,
            0x32, 0xF3, 0x78, 0xFC);
    ShiftIs(f, 0xB1B8_1CB6_4FD8_B9D5, 0xB1B8_1CB6_1704_B78E, 0xB1B8_1CB6, 0x4F, 0xD8, 0xB9, 0xD5,
            0x58, 0xDC, 0x0E, 0x5B);
    FinishIs(f, 0x0AB4_B00F_FFF8_CFF0, 0x0AB4_B00F_FAA2_97F7, 0x65E6_F1F9_BF51_C4CB,
             0x65E6_F1F9_8DA2_BC37, 0xB1B8_1CB6_4FD8_B9D5, 0xB1B8_1CB6_1704_B78E);
  }

  lemma XorNameFirst(f: Op)
    requires BitByBit(f)
    ensures f(0x243F_6A88_85A3_08D3, 0x7963_6E61_7473_6E69) == 0x5D5C_04E9_F1D0_66BA
  {
    WordIs(f, 0x243F_6A88_85A3_08D3, 0x7963_6E61_7473_6E69, 0x5D5C_04E9_F1D0_66BA,
           0x24, 0x3F, 0x6A, 0x88, 0x85, 0xA3, 0x08, 0xD3,
           0x79, 0x63, 0x6E, 0x61, 0x74, 0x73, 0x6E, 0x69);
  }

  lemma ScrambleNameFirst()
    ensures Scrambled(0x5D5C_04E9_F1D0_66BA) == 0x5B1F_B644_3429_2516
  {
    ScrambleIs(0x5D5C_04E9_F1D0_66BA, 0x5B1F_B644_3429_2516,
               0x39B3_0631_95BF_83D1, 0x1A74_44FD, 0x7_BF9E_8542, 1);
  }

  lemma MixNameFirst(f: Op)
    requires BitByBit(f)
    ensures MixedBy(f, SEED, 0x7963_6E61_7473_6E69) == 0x5B1F_B644_3429_2516
  {
    XorNameFirst(f);
    ScrambleNameFirst();
  }

  lemma XorNameSecond(f: Op)
    requires BitByBit(f)
    ensures f(0x5B1F_B644_3429_2516, 8) == 0x5B1F_B644_3429_251E
  {
    LowIs(f, 0x5B1F_B644_3429_2516, 8, 0x5B1F_B644_3429_251E, 0x5B1F_B644, 0x34, 0x29, 0x25, 0x16,
          0x00, 0x00, 0x00, 0x08);
  }

  lemma ScrambleNameSecond()
    ensures Scrambled(0x5B1F_B644_3429_251E) == 0x7D6C_B80A_B95B_4F74
  {
    ScrambleIs(0x5B1F_B644_3429_251E, 0x7D6C_B80A_B95B_4F74,
               0x3851_51A2_4538_CC71, 0x1FA6_6F5B, 0x0_D206_9376, 0);
  }

  lemma MixNameSecond(f: Op)
    requires BitByBit(f)
    ensures MixedBy(f, 0x5B1F_B644_3429_2516, 8) == 0x7D6C_B80A_B95B_4F74
  {
    XorNameSecond(f);
    ScrambleNameSecond();
  }

  lemma FinishName(f: Op)
    requires BitByBit(f)
    ensures FinishedBy(f, 0x7D6C_B80A_B95B_4F74) == 0x8467_800A_0AD5_84A1
  {
    ShiftIs(f, 0x7D6C_B80A_B95B_4F74, 0x7D6C_B80A_87ED_1371, 0x7D6C_B80A, 0xB9, 0x5B, 0x4F, 0x74,
            0x3E, 0xB6, 0x5C, 0x05);
    ShiftIs(f, 0xAE31_5262_90FF_5D7D, 0xAE31_5262_C7E7_F44C, 0xAE31_5262, 0x90, 0xFF, 0x5D, 0x7D,
            0x57, 0x18, 0xA9, 0x31);
    ShiftIs(f, 0x8467_800A_48E6_44A4, 0x8467_800A_0AD5_84A1, 0x8467_800A, 0x48, 0xE6, 0x44, 0xA4,
            0x42, 0x33, 0xC0, 0x05);
    FinishIs(f, 0x7D6C_B80A_B95B_4F74, 0x7D6C_B80A_87ED_1371, 0xAE31_5262_90FF_5D7D,
             0xAE31_5262_C7E7_F44C, 0x8467_800A_48E6_44A4, 0x8467_800A_0AD5_84A1);
  }

  lemma XorProtocolFirst(f: Op)
    requires BitByBit(f)
    ensures f(0x243F_6A88_85A3_08D3, 0x2D72_6574_7375_6C63) == 0x094D_0FFC_F6D6_64B0
  {
    WordIs(f, 0x243F_6A88_85A3_08D3, 0x2D72_6574_7375_6C63, 0x094D_0FFC_F6D6_64B0,
           0x24, 0x3F, 0x6A, 0x88, 0x85, 0xA3, 0x08, 0xD3,
           0x2D, 0x72, 0x65, 0x74, 0x73, 0x75, 0x6C, 0x63);
  }

  lemma ScrambleProtocolFirst()
    ensures Scrambled(0x094D_0FFC_F6D6_64B0) == 0xF393_55E9_DF54_3026
  {
    ScrambleIs(0x094D_0FFC_F6D6_64B0, 0xF393_55E9_DF54_3026,
               0x05BF_93D8_B990_6865, 0x059F_500D, 0x4_833B_8270, 0);
  }

  lemma MixProtocolFirst(f: Op)
    requires BitByBit(f)
    ensures MixedBy(f, SEED, 0x2D72_6574_7375_6C63) == 0xF393_55E9_DF54_3026
  {
    XorProtocolFirst(f);
    ScrambleProtocolFirst();
  }

  lemma XorProtocolSecond(f: Op)
    requires BitByBit(f)
    ensures f(0xF393_55E9_DF54_3026, 0x6C6F_636F_746F_7270) == 0x9FFC_3686_AB3B_4256
  {
    WordIs(f, 0xF393_55E9_DF54_3026, 0x6C6F_636F_746F_7270, 0x9FFC_3686_AB3B_4256,
           0xF3, 0x93, 0x55, 0xE9, 0xDF, 0x54, 0x30, 0x26,
           0x6C, 0x6F, 0x63, 0x6F, 0x74, 0x6F, 0x72, 0x70);
  }

  lemma ScrambleProtocolSecond()
    ensures Scrambled(0x9FFC_3686_AB3B_4256) == 0xF607_28BD_B7C9_05FE
  {
    ScrambleIs(0x9FFC_3686_AB3B_4256, 0xF607_28BD_B7C9_05FE,
               0x62E0_54E8_F733_166C, 0x1E14_25E5, 0x4_96DA_190E, 0);
  }

  lemma MixProtocolSecond(f: Op)
    requires BitByBit(f)
    ensures MixedBy(f, 0xF393_55E9_DF54_3026, 0x6C6F_636F_746F_7270) == 0xF607_28BD_B7C9_05FE
  {
    XorProtocolSecond(f);
    ScrambleProtocolSecond();
  }

  lemma XorProtocolThird(f: Op)
    requires BitByBit(f)
    ensures f(0xF607_28BD_B7C9_05FE, 0x10) == 0xF607_28BD_B7C9_05EE
  {
    LowIs(f, 0xF607_28BD_B7C9_05FE, 0x10, 0xF607_28BD_B7C9_05EE, 0xF607_28BD, 0xB7, 0xC9, 0x05, 0xFE,
          0x00, 0x00, 0x00, 0x10);
  }

  lemma ScrambleProtocolThird()
    ensures Scrambled(0xF607_28BD_B7C9_05EE) == 0x6A90_FE2C_AAE6_3BCD
  {
    ScrambleIs(0xF607_28BD_B7C9_05EE, 0x6A90_FE2C_AAE6_3BCD,
               0x980D_BBAA_7FF3_CD58, 0x1131_5BB4, 0x0_3B28_C486, 0);
  }

  lemma MixProtocolThird(f: Op)
    requires BitByBit(f)
    ensures MixedBy(f, 0xF607_28BD_B7C9_05FE, 0x10) == 0x6A90_FE2C_AAE6_3BCD
  {
    XorProtocolThird(f);
    ScrambleProtocolThird();
  }

  lemma FinishProtocol(f: Op)
    requires BitByBit(f)
    ensures FinishedBy(f, 0x6A90_FE2C_AAE6_3BCD) == 0xD3EB_7641_77DE_165C
  {
    ShiftIs(f, 0x6A90_FE2C_AAE6_3BCD, 0x6A90_FE2C_9FAE_44DB, 0x6A90_FE2C, 0xAA, 0xE6, 0x3B, 0xCD,
            0x35, 0x48, 0x7F, 0x16);
    ShiftIs(f, 0x8079_D497_C7EB_E75F, 0x8079_D497_87D7_0D14, 0x8079_D497, 0xC7, 0xEB, 0xE7, 0x5F,
            0x40, 0x3C, 0xEA, 0x4B);
    ShiftIs(f, 0xD3EB_7641_1E2B_AD7C, 0xD3EB_7641_77DE_165C, 0xD3EB_7641, 0x1E, 0x2B, 0xAD, 0x7C,
            0x69, 0xF5, 0xBB, 0x20);
    FinishIs(f, 0x6A90_FE2C_AAE6_3BCD, 0x6A90_FE2C_9FAE_44DB, 0x8079_D497_C7EB_E75F,
             0x8079_D497_87D7_0D14, 0xD3EB_7641_1E2B_AD7C, 0xD3EB_7641_77DE_165C);
  }

  // ---------------------------------------------------------------------------
  // The golden values
  // ---------------------------------------------------------------------------

  lemma MixedOne(f: Op, word: u64)
    ensures MixedAllBy(f, [word]) == MixedBy(f, SEED, word)
  {
    assert [word][..0] == [];
  }

  lemma MixedMore(f: Op, words: seq<u64>, word: u64)
    ensures MixedAllBy(f, words + [word]) == MixedBy(f, MixedAllBy(f, words), word)
  {
    assert (words + [word])[..|words|] == words;
  }

  lemma HashOfOne(f: Op, word: u64, first: u64, hash: u64)
    requires MixedBy(f, SEED, word) == first && FinishedBy(f, first) == hash
    ensures HashBy(f, [word]) == hash
  {
    MixedOne(f, word);
  }

  lemma HashOfTwo(f: Op, a: u64, b: u64, first: u64, second: u64, hash: u64)
    requires MixedBy(f, SEED, a) == first && MixedBy(f, first, b) == second && FinishedBy(f, second) == hash
    ensures HashBy(f, [a, b]) == hash
  {
    MixedOne(f, a);
    MixedMore(f, [a], b);
    assert [a] + [b] == [a, b];
  }

  lemma HashOfThree(f: Op, a: u64, b: u64, c: u64, first: u64, second: u64, third: u64, hash: u64)
    requires MixedBy(f, SEED, a) == first && MixedBy(f, first, b) == second && MixedBy(f, second, c) == third
    requires FinishedBy(f, third) == hash
    ensures HashBy(f, [a, b, c]) == hash
  {
    MixedOne(f, a);
    MixedMore(f, [a], b);
    MixedMore(f, [a] + [b], c);
    assert [a] + [b] + [c] == [a, b, c];
  }

  lemma GoldenZero()
    ensures StableHashOf(0) == 0x0556_C50F_3FA4_5AC8
  {
    XorIsBitByBit();
    MixZero(Xor);
    FinishZero(Xor);
    HashOfOne(Xor, 0, 0xA840_6345_D8B1_2F96, 0x0556_C50F_3FA4_5AC8);
    HashByXor([0]);
  }

  lemma GoldenOne()
    ensures StableHashOf(1) == 0xD04C_A76A_C679_B738
  {
    XorIsBitByBit();
    MixOne(Xor);
    FinishOne(Xor);
    HashOfOne(Xor, 1, 0x7857_13C3_24EA_405F, 0xD04C_A76A_C679_B738);
    HashByXor([1]);
  }

  lemma GoldenMax()
    ensures StableHashOf(0xFFFF_FFFF_FFFF_FFFF) == 0x51B4_6ECA_50E2_21CE
  {
    XorIsBitByBit();
    MixMax(Xor);
    FinishMax(Xor);
    HashOfOne(Xor, 0xFFFF_FFFF_FFFF_FFFF, 0xEE2E_186F_66F1_A164, 0x51B4_6ECA_50E2_21CE);
    HashByXor([0xFFFF_FFFF_FFFF_FFFF]);
  }

  /** A pair of u64 is written as its two words. */
  lemma GoldenPair()
    ensures HashOf([1, 2]) == 0xB1B8_1CB6_1704_B78E
  {
    XorIsBitByBit();
    MixOne(Xor);
    MixPairSecond(Xor);
    FinishPair(Xor);
    HashOfTwo(Xor, 1, 2, 0x7857_13C3_24EA_405F, 0x0AB4_B00F_FFF8_CFF0, 0xB1B8_1CB6_1704_B78E);
    HashByXor([1, 2]);
  }

  lemma EightBytes(b: seq<Byte>)
    requires |b| == 8
    ensures FromLittleEndian(b) == FourOf(b, 0) + 0x1_0000_0000 * FourOf(b, 4)
  {
    FourBytesFirst(b);
    FourBytesFirst(b[4..]);
    assert FromLittleEndian(b[4..][4..]) == 0;
  }

  /** The four bytes at `i` as a number, the first the lowest. */
  function FourOf(b: seq<Byte>, i: nat): nat
    requires i + 4 <= |b|
  {
    b[i] as nat + 0x100 * b[i + 1] as nat + 0x1_0000 * b[i + 2] as nat + 0x100_0000 * b[i + 3] as nat
  }

  lemma FourBytesFirst(b: seq<Byte>)
    requires |b| >= 4
    ensures FromLittleEndian(b) == FourOf(b, 0) + 0x1_0000_0000 * FromLittleEndian(b[4..])
  {
    assert b[1..][1..] == b[2..] && b[2..][1..] == b[3..] && b[3..][1..] == b[4..];
    assert FromLittleEndian(b[1..]) == b[1] + 256 * FromLittleEndian(b[2..]);
    assert FromLittleEndian(b[2..]) == b[2] + 256 * FromLittleEndian(b[3..]);
    assert FromLittleEndian(b[3..]) == b[3] + 256 * FromLittleEndian(b[4..]);
  }

  /** The hash of one write of `bytes`. */
  function BytesHash(bytes: seq<Byte>): u64
    requires |bytes| < TWO64
  {
    HashOf(WordsOf(bytes))
  }

  lemma WordsOfEight(b: seq<Byte>, word: u64)
    requires |b| == 8 && word == FourOf(b, 0) + 0x1_0000_0000 * FourOf(b, 4)
    ensures WordsOf(b) == [word, 8]
  {
    EightBytes(b);
    assert b[..8] == b && b[8..] == [];
  }

  lemma WordsOfSixteen(b: seq<Byte>, first: u64, second: u64)
    requires |b| == 16 && first == FourOf(b, 0) + 0x1_0000_0000 * FourOf(b, 4)
    requires second == FourOf(b, 8) + 0x1_0000_0000 * FourOf(b, 12)
    ensures WordsOf(b) == [first, second, 16]
  {
    WordsOfEight(b[8..], second);
    EightBytes(b[..8]);
    assert BodyWords(b[8..]) == WordsOf(b[8..])[..1];
  }

  /** "instancy". */
  lemma GoldenName()
    ensures BytesHash([0x69, 0x6E, 0x73, 0x74, 0x61, 0x6E, 0x63, 0x79]) == 0x8467_800A_0AD5_84A1
  {
    var b: seq<Byte> := [0x69, 0x6E, 0x73, 0x74, 0x61, 0x6E, 0x63, 0x79];
    WordsOfEight(b, 0x7963_6E61_7473_6E69);
    XorIsBitByBit();
    MixNameFirst(Xor);
    MixNameSecond(Xor);
    FinishName(Xor);
    HashOfTwo(Xor, 0x7963_6E61_7473_6E69, 8, 0x5B1F_B644_3429_2516, 0x7D6C_B80A_B95B_4F74, 0x8467_800A_0AD5_84A1);
    HashByXor(WordsOf(b));
  }

  /** "cluster-protocol". */
  lemma GoldenProtocol()
    ensures BytesHash([0x63, 0x6C, 0x75, 0x73, 0x74, 0x65, 0x72, 0x2D,
                       0x70, 0x72, 0x6F, 0x74, 0x6F, 0x63, 0x6F, 0x6C]) == 0xD3EB_7641_77DE_165C
  {
    var b: seq<Byte> := [0x63, 0x6C, 0x75, 0x73, 0x74, 0x65, 0x72, 0x2D,
                         0x70, 0x72, 0x6F, 0x74, 0x6F, 0x63, 0x6F, 0x6C];
    WordsOfSixteen(b, 0x2D72_6574_7375_6C63, 0x6C6F_636F_746F_7270);
    XorIsBitByBit();
    MixProtocolFirst(Xor);
    MixProtocolSecond(Xor);
    MixProtocolThird(Xor);
    FinishProtocol(Xor);
    HashOfThree(Xor, 0x2D72_6574_7375_6C63, 0x6C6F_636F_746F_7270, 16, 0xF393_55E9_DF54_3026, 0xF607_28BD_B7C9_05FE,
                0x6A90_FE2C_AAE6_3BCD, 0xD3EB_7641_77DE_165C);
    HashByXor(WordsOf(b));
  }
}

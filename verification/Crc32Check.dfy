/** The register's polynomial, start value and final inversion, pinned by the published check value. */
module Crc32Check {
  import opened Crc32

  /** One byte fed, along the values the register takes. */
  lemma Fed(c: bv32, b: Byte, x: seq<bv32>)
    requires |x| == 9 && x[0] == Plus(c, b) && forall i :: 0 <= i < 8 ==> Shift(x[i]) == x[i + 1]
    ensures FeedBits(c, b) == x[8]
  {
    FeedByte(c, b);
    EightSteps(Shift, x);
  }

  lemma FirstThreeDigits()
    ensures FeedBits(0xFFFF_FFFF, 49) == 0x7C23_1048
    ensures FeedBits(0x7C23_1048, 50) == 0xB0AC_BB32
    ensures FeedBits(0xB0AC_BB32, 51) == 0x77B7_9C2D
  {
    hide FeedBits, Iterate;
    Fed(0xFFFF_FFFF, 49, [0xFFFF_FFCE, 0x7FFF_FFE7, 0xD247_7CD3, 0x849B_3D49, 0xAFF5_1D84,
      0x57FA_8EC2, 0x2BFD_4761, 0xF846_2090, 0x7C23_1048]);
    Fed(0x7C23_1048, 50, [0x7C23_107A, 0x3E11_883D, 0xF2B0_473E, 0x7958_239F, 0xD114_92EF,
      0x8532_CA57, 0xAF21_E60B, 0xBA28_7025, 0xB0AC_BB32]);
    Fed(0xB0AC_BB32, 51, [0xB0AC_BB01, 0xB5EE_DEA0, 0x5AF7_6F50, 0x2D7B_B7A8, 0x16BD_DBD4,
      0x0B5E_EDEA, 0x05AF_76F5, 0xEF6F_385A, 0x77B7_9C2D]);
  }

  lemma SecondThreeDigits()
    ensures FeedBits(0x77B7_9C2D, 52) == 0x641C_1F5C
    ensures FeedBits(0x641C_1F5C, 53) == 0x340A_C5E3
    ensures FeedBits(0x340A_C5E3, 54) == 0xF68D_2C9E
  {
    hide FeedBits, Iterate;
    Fed(0x77B7_9C2D, 52, [0x77B7_9C19, 0xD663_4D2C, 0x6B31_A696, 0x3598_D34B, 0xF774_EA85,
      0x9602_F662, 0x4B01_7B31, 0xC838_3EB8, 0x641C_1F5C]);
    Fed(0x641C_1F5C, 53, [0x641C_1F69, 0xDFB6_8C94, 0x6FDB_464A, 0x37ED_A325, 0xF64E_52B2,
      0x7B27_2959, 0xD02B_178C, 0x6815_8BC6, 0x340A_C5E3]);
    Fed(0x340A_C5E3, 54, [0x340A_C5D5, 0xF7BD_E1CA, 0x7BDE_F0E5, 0xD057_FB52, 0x682B_FDA9,
      0xD9AD_7DF4, 0x6CD6_BEFA, 0x366B_5F7D, 0xF68D_2C9E]);
  }

  lemma ThirdThreeDigits()
    ensures FeedBits(0xF68D_2C9E, 55) == 0xAFFC_9660
    ensures FeedBits(0xAFFC_9660, 56) == 0x651F_2550
    ensures FeedBits(0x651F_2550, 57) == 0x340B_C6D9
  {
    hide FeedBits, Iterate;
    Fed(0xF68D_2C9E, 55, [0xF68D_2CA9, 0x96FE_1574, 0x4B7F_0ABA, 0x25BF_855D, 0xFF67_418E,
      0x7FB3_A0C7, 0xD261_5343, 0x8488_2A81, 0xAFFC_9660]);
    Fed(0xAFFC_9660, 56, [0xAFFC_9658, 0x57FE_4B2C, 0x2BFF_2596, 0x15FF_92CB, 0xE747_4A45,
      0x9E1B_2602, 0x4F0D_9301, 0xCA3E_4AA0, 0x651F_2550]);
    Fed(0x651F_2550, 57, [0x651F_2569, 0xDF37_1194, 0x6F9B_88CA, 0x37CD_C465, 0xF65E_6112,
      0x7B2F_3089, 0xD02F_1B64, 0x6817_8DB2, 0x340B_C6D9]);
  }

  /** Bytes fed, along the values the register takes. */
  lemma {:induction false} FedAlong(data: seq<Byte>, regs: seq<bv32>)
    requires |regs| == |data| + 1 && forall i :: 0 <= i < |data| ==> FeedBits(regs[i], data[i]) == regs[i + 1]
    ensures FeedBytes(regs[0], data) == regs[|data|]
    decreases data
  {
    hide FeedBits;
    if data != [] {
      FedAlong(data[1..], regs[1..]);
    }
  }

  /** The check value of CRC-32: that of the digits 1 to 9 in ASCII. */
  lemma CheckValue()
    ensures Crc([49, 50, 51, 52, 53, 54, 55, 56, 57]) == 0xCBF4_3926
  {
    hide FeedBits, FeedBytes;
    FirstThreeDigits();
    SecondThreeDigits();
    ThirdThreeDigits();
    FedAlong([49, 50, 51, 52, 53, 54, 55, 56, 57],
      [0xFFFF_FFFF, 0x7C23_1048, 0xB0AC_BB32, 0x77B7_9C2D, 0x641C_1F5C,
       0x340A_C5E3, 0xF68D_2C9E, 0xAFFC_9660, 0x651F_2550, 0x340B_C6D9]);
  }
}

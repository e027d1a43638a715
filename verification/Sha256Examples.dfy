/**
  The two examples every SHA-256 is held to, "abc" and the 56 octets that take two blocks, computed four
  rounds at a time.
 */
module Sha256Examples {
  import opened Common
  import opened Sha256
  import opened Sha256Rounds

  const K0 := Quad(0x428A2F98, 0x71374491, 0xB5C0FBCF, 0xE9B5DBA5)
  const K1 := Quad(0x3956C25B, 0x59F111F1, 0x923F82A4, 0xAB1C5ED5)
  const K2 := Quad(0xD807AA98, 0x12835B01, 0x243185BE, 0x550C7DC3)
  const K3 := Quad(0x72BE5D74, 0x80DEB1FE, 0x9BDC06A7, 0xC19BF174)
  const K4 := Quad(0xE49B69C1, 0xEFBE4786, 0x0FC19DC6, 0x240CA1CC)
  const K5 := Quad(0x2DE92C6F, 0x4A7484AA, 0x5CB0A9DC, 0x76F988DA)
  const K6 := Quad(0x983E5152, 0xA831C66D, 0xB00327C8, 0xBF597FC7)
  const K7 := Quad(0xC6E00BF3, 0xD5A79147, 0x06CA6351, 0x14292967)
  const K8 := Quad(0x27B70A85, 0x2E1B2138, 0x4D2C6DFC, 0x53380D13)
  const K9 := Quad(0x650A7354, 0x766A0ABB, 0x81C2C92E, 0x92722C85)
  const K10 := Quad(0xA2BFE8A1, 0xA81A664B, 0xC24B8B70, 0xC76C51A3)
  const K11 := Quad(0xD192E819, 0xD6990624, 0xF40E3585, 0x106AA070)
  const K12 := Quad(0x19A4C116, 0x1E376C08, 0x2748774C, 0x34B0BCB5)
  const K13 := Quad(0x391C0CB3, 0x4ED8AA4A, 0x5B9CCA4F, 0x682E6FF3)
  const K14 := Quad(0x748F82EE, 0x78A5636F, 0x84C87814, 0x8CC70208)
  const K15 := Quad(0x90BEFFFA, 0xA4506CEB, 0xBEF9A3F7, 0xC67178F2)

  lemma ConstantsLow()
    ensures KQuad(0) == K0
    ensures KQuad(4) == K1
    ensures KQuad(8) == K2
    ensures KQuad(12) == K3
  {
  }

  lemma ConstantsMid()
    ensures KQuad(16) == K4
    ensures KQuad(20) == K5
    ensures KQuad(24) == K6
    ensures KQuad(28) == K7
  {
  }

  lemma ConstantsHigh()
    ensures KQuad(32) == K8
    ensures KQuad(36) == K9
    ensures KQuad(40) == K10
    ensures KQuad(44) == K11
    ensures KQuad(48) == K12
    ensures KQuad(52) == K13
    ensures KQuad(56) == K14
    ensures KQuad(60) == K15
  {
  }

  // --- "abc" ---------------------------------------------------------------------------------------

  const ABC_W0 := Quad(0x61626380, 0x00000000, 0x00000000, 0x00000000)
  const ABC_W1 := Quad(0x00000000, 0x00000000, 0x00000000, 0x00000000)
  const ABC_W2 := Quad(0x00000000, 0x00000000, 0x00000000, 0x00000000)
  const ABC_W3 := Quad(0x00000000, 0x00000000, 0x00000000, 0x00000018)
  const ABC_W4 := Quad(0x61626380, 0x000F0000, 0x7DA86405, 0x600003C6)
  const ABC_W5 := Quad(0x3E9D7B78, 0x0183FC00, 0x12DCBFDB, 0xE2E2C38E)
  const ABC_W6 := Quad(0xC8215C1A, 0xB73679A2, 0xE5BC3909, 0x32663C5B)
  const ABC_W7 := Quad(0x9D209D67, 0xEC8726CB, 0x702138A4, 0xD3B7973B)
  const ABC_W8 := Quad(0x93F5997F, 0x3B68BA73, 0xAFF4FFC1, 0xF10A5C62)
  const ABC_W9 := Quad(0x0A8B3996, 0x72AF830A, 0x9409E33E, 0x24641522)
  const ABC_W10 := Quad(0x9F47BF94, 0xF0A64F5A, 0x3E246A79, 0x27333BA3)
  const ABC_W11 := Quad(0x0C4763F2, 0x840ABF27, 0x7A290D5D, 0x065C43DA)
  const ABC_W12 := Quad(0xFB3E89CB, 0xCC7617DB, 0xB9E66C34, 0xA9993667)
  const ABC_W13 := Quad(0x84BADEDD, 0xC21462BC, 0x1487472C, 0xB20F7A99)
  const ABC_W14 := Quad(0xEF57B9CD, 0xEBE6B238, 0x9FE3095E, 0x78BC8D4B)
  const ABC_W15 := Quad(0xA43FCF15, 0x668B2FF8, 0xEEABA2CC, 0x12B1EDEB)

  const ABC_V1 := Words(0xD550F666, 0xC8C347A7, 0x5A6AD9AD, 0x5D6AEBCD, 0x24E00850, 0xF92939EB, 0x78CE7989, 0xFA2A4622)
  const ABC_V2 := Words(0x85A07B5F, 0xE5030380, 0x2B4209F5, 0x04409A6A, 0x0C657A79, 0x9B27A401, 0x714260AD, 0x43ADA245)
  const ABC_V3 := Words(0xF71FC5A9, 0x4798A3F4, 0x8C87346B, 0x8E04ECB9, 0x816FD6E9, 0x436B23E8, 0x1CC92596, 0x32CA2D8C)
  const ABC_V4 := Words(0xB0FA238E, 0xC0645FDE, 0xD932EB16, 0x87912990, 0x07590DCD, 0x0B92F20C, 0x745A48DE, 0x1E578218)
  const ABC_V5 := Words(0xE1F20C33, 0xFE777BBF, 0xC2FBD9D1, 0x21DA9A9B, 0xB0638179, 0xCC899961, 0x846EE454, 0x8034229C)
  const ABC_V6 := Words(0xC5D53D8D, 0xA7A3623F, 0xC2606D6D, 0x9DC68B63, 0xAA47C347, 0x49F5114A, 0xE1257970, 0x8ADA8930)
  const ABC_V7 := Words(0x77D37528, 0xB62EC4BC, 0xCDE8037D, 0x1C2C2838, 0xEDFFBFF8, 0xC74C6516, 0x14383D8E, 0x2823EF91)
  const ABC_V8 := Words(0x73B33BF5, 0xEA992A22, 0xA0060B30, 0x363482C9, 0xBA591112, 0x0109AB3A, 0xADE79437, 0x6112A3B7)
  const ABC_V9 := Words(0x65A0CFE4, 0xA9A7738C, 0xFE604DF5, 0x98E12507, 0xF4B002D6, 0x085F3833, 0x59249DD3, 0x9CD9F5F6)
  const ABC_V10 := Words(0x79EA687A, 0x6DC57A8A, 0x34DF1604, 0x41A65CB1, 0x1EFBC0A0, 0xF0781BC8, 0xA507A53D, 0x0772A26B)
  const ABC_V11 := Words(0x9D4BAF93, 0x17AA0DFE, 0xDF46652F, 0xD6670766, 0xFDA24C2E, 0xDECD4715, 0x838B2711, 0x26352D63)
  const ABC_V12 := Words(0x4172328D, 0xA14C14B0, 0x72AB4B91, 0x26628815, 0xFECF0BC6, 0xD57B94A9, 0xB7755DA1, 0xA80F11F0)
  const ABC_V13 := Words(0x886E7A22, 0x7A0508A1, 0xF11BFAA8, 0x05757CEB, 0x49231C1E, 0x52F1CCF7, 0x6E5C390C, 0xBD714038)
  const ABC_V14 := Words(0x38CC9913, 0x3EC45CDB, 0xF5702FDB, 0x101FD28F, 0x54CB266B, 0xE50E1B4F, 0x9F4787C3, 0x529E7D00)
  const ABC_V15 := Words(0xB6AE8FFF, 0xFFB70472, 0xC062D46F, 0xFCD1887B, 0xB21BAD3D, 0x6D83BFC6, 0x7E44008E, 0x9B5E906C)
  const ABC_V16 := Words(0x506E3058, 0xD39A2165, 0x04D24D6C, 0xB85E2CE9, 0x5EF50F24, 0xFB121210, 0x948D25B6, 0x961F4894)

  lemma AbcFour0()
    ensures FourRounds(INITIAL, K0, ABC_W0, ABC_V1)
  {
  }

  lemma AbcFour1()
    ensures FourRounds(ABC_V1, K1, ABC_W1, ABC_V2)
  {
  }

  lemma AbcFour2()
    ensures FourRounds(ABC_V2, K2, ABC_W2, ABC_V3)
  {
  }

  lemma AbcFour3()
    ensures FourRounds(ABC_V3, K3, ABC_W3, ABC_V4)
  {
  }

  lemma AbcFour4()
    ensures FourRounds(ABC_V4, K4, ABC_W4, ABC_V5)
  {
  }

  lemma AbcFour5()
    ensures FourRounds(ABC_V5, K5, ABC_W5, ABC_V6)
  {
  }

  lemma AbcFour6()
    ensures FourRounds(ABC_V6, K6, ABC_W6, ABC_V7)
  {
  }

  lemma AbcFour7()
    ensures FourRounds(ABC_V7, K7, ABC_W7, ABC_V8)
  {
  }

  lemma AbcFour8()
    ensures FourRounds(ABC_V8, K8, ABC_W8, ABC_V9)
  {
  }

  lemma AbcFour9()
    ensures FourRounds(ABC_V9, K9, ABC_W9, ABC_V10)
  {
  }

  lemma AbcFour10()
    ensures FourRounds(ABC_V10, K10, ABC_W10, ABC_V11)
  {
  }

  lemma AbcFour11()
    ensures FourRounds(ABC_V11, K11, ABC_W11, ABC_V12)
  {
  }

  lemma AbcFour12()
    ensures FourRounds(ABC_V12, K12, ABC_W12, ABC_V13)
  {
  }

  lemma AbcFour13()
    ensures FourRounds(ABC_V13, K13, ABC_W13, ABC_V14)
  {
  }

  lemma AbcFour14()
    ensures FourRounds(ABC_V14, K14, ABC_W14, ABC_V15)
  {
  }

  lemma AbcFour15()
    ensures FourRounds(ABC_V15, K15, ABC_W15, ABC_V16)
  {
  }

  lemma AbcWords4()
    ensures FourWords(ABC_W0, ABC_W1, ABC_W2, ABC_W3, ABC_W4)
    ensures FourWords(ABC_W1, ABC_W2, ABC_W3, ABC_W4, ABC_W5)
    ensures FourWords(ABC_W2, ABC_W3, ABC_W4, ABC_W5, ABC_W6)
    ensures FourWords(ABC_W3, ABC_W4, ABC_W5, ABC_W6, ABC_W7)
  {
  }

  lemma AbcWords8()
    ensures FourWords(ABC_W4, ABC_W5, ABC_W6, ABC_W7, ABC_W8)
    ensures FourWords(ABC_W5, ABC_W6, ABC_W7, ABC_W8, ABC_W9)
    ensures FourWords(ABC_W6, ABC_W7, ABC_W8, ABC_W9, ABC_W10)
    ensures FourWords(ABC_W7, ABC_W8, ABC_W9, ABC_W10, ABC_W11)
  {
  }

  lemma AbcWords12()
    ensures FourWords(ABC_W8, ABC_W9, ABC_W10, ABC_W11, ABC_W12)
    ensures FourWords(ABC_W9, ABC_W10, ABC_W11, ABC_W12, ABC_W13)
    ensures FourWords(ABC_W10, ABC_W11, ABC_W12, ABC_W13, ABC_W14)
    ensures FourWords(ABC_W11, ABC_W12, ABC_W13, ABC_W14, ABC_W15)
  {
  }

  lemma AbcLow(block: seq<byte>)
    requires |block| == BLOCK_SIZE
    requires WQuad(block, 0) == ABC_W0
    requires WQuad(block, 4) == ABC_W1
    requires WQuad(block, 8) == ABC_W2
    requires WQuad(block, 12) == ABC_W3
    ensures Rounds(INITIAL, block, 32) == ABC_V8
    ensures WQuad(block, 16) == ABC_W4
    ensures WQuad(block, 20) == ABC_W5
    ensures WQuad(block, 24) == ABC_W6
    ensures WQuad(block, 28) == ABC_W7
  {
    hide FourRounds, FourWords, KQuad, WQuad, Rounds;
    ConstantsLow();
    ConstantsMid();
    NoRounds(INITIAL, block);
    AbcFour0();
    RoundsAdvance(INITIAL, block, 0, ABC_V1);
    AbcFour1();
    RoundsAdvance(INITIAL, block, 4, ABC_V2);
    AbcFour2();
    RoundsAdvance(INITIAL, block, 8, ABC_V3);
    AbcFour3();
    RoundsAdvance(INITIAL, block, 12, ABC_V4);
    AbcFour4();
    AbcWords4();
    ScheduleAdvance(block, 16, ABC_W4);
    RoundsAdvance(INITIAL, block, 16, ABC_V5);
    AbcFour5();
    ScheduleAdvance(block, 20, ABC_W5);
    RoundsAdvance(INITIAL, block, 20, ABC_V6);
    AbcFour6();
    ScheduleAdvance(block, 24, ABC_W6);
    RoundsAdvance(INITIAL, block, 24, ABC_V7);
    AbcFour7();
    ScheduleAdvance(block, 28, ABC_W7);
    RoundsAdvance(INITIAL, block, 28, ABC_V8);
  }

  lemma AbcHigh(block: seq<byte>)
    requires |block| == BLOCK_SIZE && Rounds(INITIAL, block, 32) == ABC_V8
    requires WQuad(block, 16) == ABC_W4
    requires WQuad(block, 20) == ABC_W5
    requires WQuad(block, 24) == ABC_W6
    requires WQuad(block, 28) == ABC_W7
    ensures Rounds(INITIAL, block, 64) == ABC_V16
  {
    hide FourRounds, FourWords, KQuad, WQuad, Rounds;
    ConstantsHigh();
    AbcFour8();
    AbcWords8();
    ScheduleAdvance(block, 32, ABC_W8);
    RoundsAdvance(INITIAL, block, 32, ABC_V9);
    AbcFour9();
    ScheduleAdvance(block, 36, ABC_W9);
    RoundsAdvance(INITIAL, block, 36, ABC_V10);
    AbcFour10();
    ScheduleAdvance(block, 40, ABC_W10);
    RoundsAdvance(INITIAL, block, 40, ABC_V11);
    AbcFour11();
    ScheduleAdvance(block, 44, ABC_W11);
    RoundsAdvance(INITIAL, block, 44, ABC_V12);
    AbcFour12();
    AbcWords12();
    ScheduleAdvance(block, 48, ABC_W12);
    RoundsAdvance(INITIAL, block, 48, ABC_V13);
    AbcFour13();
    ScheduleAdvance(block, 52, ABC_W13);
    RoundsAdvance(INITIAL, block, 52, ABC_V14);
    AbcFour14();
    ScheduleAdvance(block, 56, ABC_W14);
    RoundsAdvance(INITIAL, block, 56, ABC_V15);
    AbcFour15();
    ScheduleAdvance(block, 60, ABC_W15);
    RoundsAdvance(INITIAL, block, 60, ABC_V16);
  }

  // --- The first of two blocks ---------------------------------------------------------------------

  const ONE_W0 := Quad(0x61626364, 0x62636465, 0x63646566, 0x64656667)
  const ONE_W1 := Quad(0x65666768, 0x66676869, 0x6768696A, 0x68696A6B)
  const ONE_W2 := Quad(0x696A6B6C, 0x6A6B6C6D, 0x6B6C6D6E, 0x6C6D6E6F)
  const ONE_W3 := Quad(0x6D6E6F70, 0x6E6F7071, 0x80000000, 0x00000000)
  const ONE_W4 := Quad(0xEB8012AD, 0xA7C3AE92, 0x76E93BA2, 0xBA42E743)
  const ONE_W5 := Quad(0x92A92204, 0xD847E75E, 0x9E160036, 0xB280A7CB)
  const ONE_W6 := Quad(0xDDEB1516, 0xF36586F4, 0x969CD048, 0xE959D99D)
  const ONE_W7 := Quad(0x6ACCC0EC, 0xF54CB098, 0x2AF1B2DA, 0xEE59C4C9)
  const ONE_W8 := Quad(0xA835E16A, 0x1DFF4429, 0xD6E15959, 0xC397CD6E)
  const ONE_W9 := Quad(0x6F1801CA, 0x21574205, 0x35FF7A84, 0x9743EE78)
  const ONE_W10 := Quad(0xE44183E7, 0x0D09F00D, 0x9C89AF54, 0x042D5BEF)
  const ONE_W11 := Quad(0x71F134D0, 0x0F94F463, 0x7E49DC63, 0x6F65C997)
  const ONE_W12 := Quad(0x0B706583, 0x179312CA, 0x503054E9, 0xBA125C39)
  const ONE_W13 := Quad(0x7E9392C9, 0xD5CBAA1E, 0x78E0585D, 0xF6E7611C)
  const ONE_W14 := Quad(0x8AC830CE, 0x8B47A303, 0xFD6E627F, 0x8C6E2C6A)
  const ONE_W15 := Quad(0x4001ADF1, 0x1A3DD097, 0xA9DF6F62, 0x6AA60A39)

  const ONE_V1 := Words(0x4A8D64D5, 0x97651825, 0x2F2D5FCF, 0x5D6AEBB1, 0x6494841B, 0x62D5C49E, 0x4EB1CFCE, 0xFA2A4606)
  const ONE_V2 := Words(0xD237E6DB, 0x485835B7, 0x55C8EF48, 0xF921C212, 0xA401D211, 0x39A5B2CA, 0x7FF91C94, 0x05C4F88A)
  const ONE_V3 := Words(0x1762215C, 0xB8E2B4CB, 0x3A474B2B, 0x359F2BCE, 0xEE1C97A8, 0x443ED29E, 0x9037B3B8, 0xC09FFEC4)
  const ONE_V4 := Words(0xC3486194, 0xDD16CBB3, 0xD68E6457, 0x101A4861, 0x1496A54F, 0x9162ADED, 0x9243F8AF, 0x839A0FC9)
  const ONE_V5 := Words(0x2139187B, 0xF402F058, 0x046A193E, 0xB9DCACB1, 0x7C304206, 0x6F433549, 0x885370B6, 0xD4F64250)
  const ONE_V6 := Words(0x59FCE6B9, 0xAE2E2D4F, 0x1B2B66B8, 0xD70AC17D, 0xA2C7D51D, 0xF074FC95, 0xD560B028, 0x7CC6B262)
  const ONE_V7 := Words(0x73F858AF, 0x128661DA, 0x573221DA, 0x4A885065, 0xE77C797F, 0x1162D575, 0x36E74EB4, 0x763597FB)
  const ONE_V8 := Words(0x5581AB07, 0xEB43F3ED, 0xDF7151A0, 0x74BCF468, 0xDF980085, 0x0635D880, 0x7629C961, 0x72ABAECD)
  const ONE_V9 := Words(0x0786DCE8, 0x1DF8E885, 0x9CE5A62F, 0x9FC905C8, 0xDE2A21D1, 0x2A9E048E, 0x6EF3B6BD, 0xA94D2AF1)
  const ONE_V10 := Words(0x7E4D30B8, 0x91AC9D5D, 0xA985B4BE, 0x2C55D3A6, 0x9F5B9B6D, 0x68D8D590, 0xF72BF353, 0xB067C1AF)
  const ONE_V11 := Words(0x167361DE, 0xB62C7013, 0x508A16AB, 0x7E056794, 0x41DD3844, 0x80A92A00, 0x45459D97, 0x423B26C0)
  const ONE_V12 := Words(0x13D82741, 0x165BE9CD, 0x18F0D19D, 0xDE71E2F2, 0xA7802A4D, 0xA483F080, 0x6B88472C, 0xFF61C636)
  const ONE_V13 := Words(0x81C1CDE0, 0x758CA97A, 0x543C99A1, 0x017B9D99, 0x5C47EB7B, 0x100CF2EA, 0x16F134B6, 0xAEB10B60)
  const ONE_V14 := Words(0x9E57C4A0, 0xF907B313, 0x1D6DE87A, 0xB8D55619, 0xEEC13548, 0x61A41711, 0x3443BED4, 0x1C806A61)
  const ONE_V15 := Words(0xE18F259A, 0x921FCCB6, 0x7C015A2C, 0x71629856, 0x51E15869, 0x43D8A034, 0xCB9D3DD0, 0x2F6C8C4E)
  const ONE_V16 := Words(0x1BDC6F6F, 0x86126910, 0xF6F443F8, 0xBCFCE922, 0x25D2430A, 0x2FC08F85, 0xACC75916, 0x962D8621)

  lemma OneFour0()
    ensures FourRounds(INITIAL, K0, ONE_W0, ONE_V1)
  {
  }

  lemma OneFour1()
    ensures FourRounds(ONE_V1, K1, ONE_W1, ONE_V2)
  {
  }

  lemma OneFour2()
    ensures FourRounds(ONE_V2, K2, ONE_W2, ONE_V3)
  {
  }

  lemma OneFour3()
    ensures FourRounds(ONE_V3, K3, ONE_W3, ONE_V4)
  {
  }

  lemma OneFour4()
    ensures FourRounds(ONE_V4, K4, ONE_W4, ONE_V5)
  {
  }

  lemma OneFour5()
    ensures FourRounds(ONE_V5, K5, ONE_W5, ONE_V6)
  {
  }

  lemma OneFour6()
    ensures FourRounds(ONE_V6, K6, ONE_W6, ONE_V7)
  {
  }

  lemma OneFour7()
    ensures FourRounds(ONE_V7, K7, ONE_W7, ONE_V8)
  {
  }

  lemma OneFour8()
    ensures FourRounds(ONE_V8, K8, ONE_W8, ONE_V9)
  {
  }

  lemma OneFour9()
    ensures FourRounds(ONE_V9, K9, ONE_W9, ONE_V10)
  {
  }

  lemma OneFour10()
    ensures FourRounds(ONE_V10, K10, ONE_W10, ONE_V11)
  {
  }

  lemma OneFour11()
    ensures FourRounds(ONE_V11, K11, ONE_W11, ONE_V12)
  {
  }

  lemma OneFour12()
    ensures FourRounds(ONE_V12, K12, ONE_W12, ONE_V13)
  {
  }

  lemma OneFour13()
    ensures FourRounds(ONE_V13, K13, ONE_W13, ONE_V14)
  {
  }

  lemma OneFour14()
    ensures FourRounds(ONE_V14, K14, ONE_W14, ONE_V15)
  {
  }

  lemma OneFour15()
    ensures FourRounds(ONE_V15, K15, ONE_W15, ONE_V16)
  {
  }

  lemma OneWords4()
    ensures FourWords(ONE_W0, ONE_W1, ONE_W2, ONE_W3, ONE_W4)
    ensures FourWords(ONE_W1, ONE_W2, ONE_W3, ONE_W4, ONE_W5)
    ensures FourWords(ONE_W2, ONE_W3, ONE_W4, ONE_W5, ONE_W6)
    ensures FourWords(ONE_W3, ONE_W4, ONE_W5, ONE_W6, ONE_W7)
  {
  }

  lemma OneWords8()
    ensures FourWords(ONE_W4, ONE_W5, ONE_W6, ONE_W7, ONE_W8)
    ensures FourWords(ONE_W5, ONE_W6, ONE_W7, ONE_W8, ONE_W9)
    ensures FourWords(ONE_W6, ONE_W7, ONE_W8, ONE_W9, ONE_W10)
    ensures FourWords(ONE_W7, ONE_W8, ONE_W9, ONE_W10, ONE_W11)
  {
  }

  lemma OneWords12()
    ensures FourWords(ONE_W8, ONE_W9, ONE_W10, ONE_W11, ONE_W12)
    ensures FourWords(ONE_W9, ONE_W10, ONE_W11, ONE_W12, ONE_W13)
    ensures FourWords(ONE_W10, ONE_W11, ONE_W12, ONE_W13, ONE_W14)
    ensures FourWords(ONE_W11, ONE_W12, ONE_W13, ONE_W14, ONE_W15)
  {
  }

  lemma OneLow(block: seq<byte>)
    requires |block| == BLOCK_SIZE
    requires WQuad(block, 0) == ONE_W0
    requires WQuad(block, 4) == ONE_W1
    requires WQuad(block, 8) == ONE_W2
    requires WQuad(block, 12) == ONE_W3
    ensures Rounds(INITIAL, block, 32) == ONE_V8
    ensures WQuad(block, 16) == ONE_W4
    ensures WQuad(block, 20) == ONE_W5
    ensures WQuad(block, 24) == ONE_W6
    ensures WQuad(block, 28) == ONE_W7
  {
    hide FourRounds, FourWords, KQuad, WQuad, Rounds;
    ConstantsLow();
    ConstantsMid();
    NoRounds(INITIAL, block);
    OneFour0();
    RoundsAdvance(INITIAL, block, 0, ONE_V1);
    OneFour1();
    RoundsAdvance(INITIAL, block, 4, ONE_V2);
    OneFour2();
    RoundsAdvance(INITIAL, block, 8, ONE_V3);
    OneFour3();
    RoundsAdvance(INITIAL, block, 12, ONE_V4);
    OneFour4();
    OneWords4();
    ScheduleAdvance(block, 16, ONE_W4);
    RoundsAdvance(INITIAL, block, 16, ONE_V5);
    OneFour5();
    ScheduleAdvance(block, 20, ONE_W5);
    RoundsAdvance(INITIAL, block, 20, ONE_V6);
    OneFour6();
    ScheduleAdvance(block, 24, ONE_W6);
    RoundsAdvance(INITIAL, block, 24, ONE_V7);
    OneFour7();
    ScheduleAdvance(block, 28, ONE_W7);
    RoundsAdvance(INITIAL, block, 28, ONE_V8);
  }

  lemma OneHigh(block: seq<byte>)
    requires |block| == BLOCK_SIZE && Rounds(INITIAL, block, 32) == ONE_V8
    requires WQuad(block, 16) == ONE_W4
    requires WQuad(block, 20) == ONE_W5
    requires WQuad(block, 24) == ONE_W6
    requires WQuad(block, 28) == ONE_W7
    ensures Rounds(INITIAL, block, 64) == ONE_V16
  {
    hide FourRounds, FourWords, KQuad, WQuad, Rounds;
    ConstantsHigh();
    OneFour8();
    OneWords8();
    ScheduleAdvance(block, 32, ONE_W8);
    RoundsAdvance(INITIAL, block, 32, ONE_V9);
    OneFour9();
    ScheduleAdvance(block, 36, ONE_W9);
    RoundsAdvance(INITIAL, block, 36, ONE_V10);
    OneFour10();
    ScheduleAdvance(block, 40, ONE_W10);
    RoundsAdvance(INITIAL, block, 40, ONE_V11);
    OneFour11();
    ScheduleAdvance(block, 44, ONE_W11);
    RoundsAdvance(INITIAL, block, 44, ONE_V12);
    OneFour12();
    OneWords12();
    ScheduleAdvance(block, 48, ONE_W12);
    RoundsAdvance(INITIAL, block, 48, ONE_V13);
    OneFour13();
    ScheduleAdvance(block, 52, ONE_W13);
    RoundsAdvance(INITIAL, block, 52, ONE_V14);
    OneFour14();
    ScheduleAdvance(block, 56, ONE_W14);
    RoundsAdvance(INITIAL, block, 56, ONE_V15);
    OneFour15();
    ScheduleAdvance(block, 60, ONE_W15);
    RoundsAdvance(INITIAL, block, 60, ONE_V16);
  }

  // --- The second ----------------------------------------------------------------------------------

  const TWO_W0 := Quad(0x00000000, 0x00000000, 0x00000000, 0x00000000)
  const TWO_W1 := Quad(0x00000000, 0x00000000, 0x00000000, 0x00000000)
  const TWO_W2 := Quad(0x00000000, 0x00000000, 0x00000000, 0x00000000)
  const TWO_W3 := Quad(0x00000000, 0x00000000, 0x00000000, 0x000001C0)
  const TWO_W4 := Quad(0x00000000, 0x00D80000, 0x00000000, 0x00003677)
  const TWO_W5 := Quad(0x00000000, 0x1DF5600D, 0x000001C0, 0x1C00501C)
  const TWO_W6 := Quad(0x01B00000, 0x220A8D94, 0x0000A365, 0x177017E7)
  const TWO_W7 := Quad(0x63D38035, 0x090AB713, 0x4C7539CA, 0x0F19A8C9)
  const TWO_W8 := Quad(0x5DF4B0C4, 0xE257036A, 0xC97BB6F1, 0xC5B46F4D)
  const TWO_W9 := Quad(0xF8253C4E, 0xA558D189, 0x78696285, 0xED07117F)
  const TWO_W10 := Quad(0x107358F6, 0x390AE496, 0x565010A2, 0xC51D7D44)
  const TWO_W11 := Quad(0x9E74C972, 0x6614B561, 0x30FC129D, 0x9AC684A8)
  const TWO_W12 := Quad(0x2B658DBD, 0xE290F793, 0x9EEBB24C, 0x9713B5DE)
  const TWO_W13 := Quad(0x41061AB7, 0xE022E23B, 0x0772079E, 0x7DE22D9C)
  const TWO_W14 := Quad(0xC8B83778, 0x75A79849, 0xD93DBDDB, 0x0A036C9D)
  const TWO_W15 := Quad(0xCB4F6AC6, 0x823F97E2, 0xEA2F2A7A, 0xB9018B52)

  const TWO_V0 := Words(0x85E655D6, 0x417A1795, 0x3363376A, 0x624CDE5C, 0x76E09589, 0xCAC5F811, 0xCC4B32C1, 0xF20E533A)
  const TWO_V1 := Words(0xF268FAA9, 0xFD1EEBDC, 0x7C3C0F86, 0x7C20C838, 0xE20362EF, 0xAF71B9EA, 0x8C51BE64, 0x4670AE6E)
  const TWO_V2 := Words(0xBF9A93A0, 0x89BBA3F1, 0x3EEB6C06, 0x185A5D79, 0x059ABDD1, 0x0A34DF03, 0xFE20CDA6, 0x8DFF3001)
  const TWO_V3 := Words(0x5EB4EC40, 0x5B35025B, 0x2D964E86, 0x2C096744, 0xE11B4548, 0x10E77723, 0xAA27ED82, 0xABFA465B)
  const TWO_V4 := Words(0x16A8CC79, 0x0CEA5CBC, 0xD74080FA, 0x35EE996D, 0x0FCB1F6F, 0x60356548, 0x68AA893F, 0x5C24E2A2)
  const TWO_V5 := Words(0x76F1A2BC, 0xDCFF40FD, 0x23DCB6C2, 0xF16F634E, 0x0DC84BB1, 0x69BF7B95, 0xCA9182D3, 0x8B21CDC1)
  const TWO_V6 := Words(0xA4195B91, 0xF13AE55B, 0xD44DC81A, 0x20AAD899, 0xEDDBD6ED, 0x966AA287, 0x5BACE62D, 0xCC4769F2)
  const TWO_V7 := Words(0x0D936BAB, 0x9450FBBC, 0xAA6CB982, 0x4984FA79, 0x6E495D4B, 0x09166DDA, 0x0B5EEEA4, 0xA530D939)
  const TWO_V8 := Words(0xB0EAB1C5, 0x02EF3A5F, 0x1CFA5EB0, 0xD958B529, 0xF6D93952, 0x5DA10665, 0x6C49DB9F, 0xC2FA99B1)
  const TWO_V9 := Words(0xECDE4E0D, 0x9907F1B6, 0x4BD1DF96, 0x0BFBA73C, 0x5DC119E6, 0x66C3043D, 0x905E44AC, 0x8B99E3A9)
  const TWO_V10 := Words(0x221B8A5A, 0xADCA7A96, 0xD949682B, 0x2F11C939, 0x0B82C5EB, 0xC6CCE4FF, 0x32D99008, 0xFED4CE1D)
  const TWO_V11 := Words(0xF2AD6322, 0x8300FCA2, 0x2C794876, 0x12D97845, 0xCC48C7F3, 0xE0E3457C, 0xFF6759BA, 0xE4213CA2)
  const TWO_V12 := Words(0xD7354D5B, 0x0B3303A7, 0x104A7DB4, 0x0F154E11, 0xAAD55B6B, 0xBBE1C39A, 0x5348E8F6, 0x6F9517CB)
  const TWO_V13 := Words(0x1A6BCF6A, 0xD8AABCF9, 0x2748E5EC, 0xB736D7A6, 0xFF5E99D0, 0x27844711, 0xD4B58576, 0x68F25260)
  const TWO_V14 := Words(0x92952710, 0xD9F0C115, 0xEC02560A, 0x4ECA6FA0, 0x226806D6, 0x624150C4, 0x7151DF8E, 0x989ED071)
  const TWO_V15 := Words(0x1C4CDDD9, 0x286FE5F0, 0x4348EB1F, 0x20D4D0E4, 0xF487A853, 0x54076664, 0xC21EDDF9, 0x4E515A4D)
  const TWO_V16 := Words(0x9EA7148B, 0x908C2123, 0xB25CEF29, 0xA9F181DD, 0x2C5C4ED0, 0x9A392956, 0x2AA1BB13, 0x27CCB387)

  lemma TwoFour0()
    ensures FourRounds(TWO_V0, K0, TWO_W0, TWO_V1)
  {
  }

  lemma TwoFour1()
    ensures FourRounds(TWO_V1, K1, TWO_W1, TWO_V2)
  {
  }

  lemma TwoFour2()
    ensures FourRounds(TWO_V2, K2, TWO_W2, TWO_V3)
  {
  }

  lemma TwoFour3()
    ensures FourRounds(TWO_V3, K3, TWO_W3, TWO_V4)
  {
  }

  lemma TwoFour4()
    ensures FourRounds(TWO_V4, K4, TWO_W4, TWO_V5)
  {
  }

  lemma TwoFour5()
    ensures FourRounds(TWO_V5, K5, TWO_W5, TWO_V6)
  {
  }

  lemma TwoFour6()
    ensures FourRounds(TWO_V6, K6, TWO_W6, TWO_V7)
  {
  }

  lemma TwoFour7()
    ensures FourRounds(TWO_V7, K7, TWO_W7, TWO_V8)
  {
  }

  lemma TwoFour8()
    ensures FourRounds(TWO_V8, K8, TWO_W8, TWO_V9)
  {
  }

  lemma TwoFour9()
    ensures FourRounds(TWO_V9, K9, TWO_W9, TWO_V10)
  {
  }

  lemma TwoFour10()
    ensures FourRounds(TWO_V10, K10, TWO_W10, TWO_V11)
  {
  }

  lemma TwoFour11()
    ensures FourRounds(TWO_V11, K11, TWO_W11, TWO_V12)
  {
  }

  lemma TwoFour12()
    ensures FourRounds(TWO_V12, K12, TWO_W12, TWO_V13)
  {
  }

  lemma TwoFour13()
    ensures FourRounds(TWO_V13, K13, TWO_W13, TWO_V14)
  {
  }

  lemma TwoFour14()
    ensures FourRounds(TWO_V14, K14, TWO_W14, TWO_V15)
  {
  }

  lemma TwoFour15()
    ensures FourRounds(TWO_V15, K15, TWO_W15, TWO_V16)
  {
  }

  lemma TwoWords4()
    ensures FourWords(TWO_W0, TWO_W1, TWO_W2, TWO_W3, TWO_W4)
    ensures FourWords(TWO_W1, TWO_W2, TWO_W3, TWO_W4, TWO_W5)
    ensures FourWords(TWO_W2, TWO_W3, TWO_W4, TWO_W5, TWO_W6)
    ensures FourWords(TWO_W3, TWO_W4, TWO_W5, TWO_W6, TWO_W7)
  {
  }

  lemma TwoWords8()
    ensures FourWords(TWO_W4, TWO_W5, TWO_W6, TWO_W7, TWO_W8)
    ensures FourWords(TWO_W5, TWO_W6, TWO_W7, TWO_W8, TWO_W9)
    ensures FourWords(TWO_W6, TWO_W7, TWO_W8, TWO_W9, TWO_W10)
    ensures FourWords(TWO_W7, TWO_W8, TWO_W9, TWO_W10, TWO_W11)
  {
  }

  lemma TwoWords12()
    ensures FourWords(TWO_W8, TWO_W9, TWO_W10, TWO_W11, TWO_W12)
    ensures FourWords(TWO_W9, TWO_W10, TWO_W11, TWO_W12, TWO_W13)
    ensures FourWords(TWO_W10, TWO_W11, TWO_W12, TWO_W13, TWO_W14)
    ensures FourWords(TWO_W11, TWO_W12, TWO_W13, TWO_W14, TWO_W15)
  {
  }

  lemma TwoLow(block: seq<byte>)
    requires |block| == BLOCK_SIZE
    requires WQuad(block, 0) == TWO_W0
    requires WQuad(block, 4) == TWO_W1
    requires WQuad(block, 8) == TWO_W2
    requires WQuad(block, 12) == TWO_W3
    ensures Rounds(TWO_V0, block, 32) == TWO_V8
    ensures WQuad(block, 16) == TWO_W4
    ensures WQuad(block, 20) == TWO_W5
    ensures WQuad(block, 24) == TWO_W6
    ensures WQuad(block, 28) == TWO_W7
  {
    hide FourRounds, FourWords, KQuad, WQuad, Rounds;
    ConstantsLow();
    ConstantsMid();
    NoRounds(TWO_V0, block);
    TwoFour0();
    RoundsAdvance(TWO_V0, block, 0, TWO_V1);
    TwoFour1();
    RoundsAdvance(TWO_V0, block, 4, TWO_V2);
    TwoFour2();
    RoundsAdvance(TWO_V0, block, 8, TWO_V3);
    TwoFour3();
    RoundsAdvance(TWO_V0, block, 12, TWO_V4);
    TwoFour4();
    TwoWords4();
    ScheduleAdvance(block, 16, TWO_W4);
    RoundsAdvance(TWO_V0, block, 16, TWO_V5);
    TwoFour5();
    ScheduleAdvance(block, 20, TWO_W5);
    RoundsAdvance(TWO_V0, block, 20, TWO_V6);
    TwoFour6();
    ScheduleAdvance(block, 24, TWO_W6);
    RoundsAdvance(TWO_V0, block, 24, TWO_V7);
    TwoFour7();
    ScheduleAdvance(block, 28, TWO_W7);
    RoundsAdvance(TWO_V0, block, 28, TWO_V8);
  }

  lemma TwoHigh(block: seq<byte>)
    requires |block| == BLOCK_SIZE && Rounds(TWO_V0, block, 32) == TWO_V8
    requires WQuad(block, 16) == TWO_W4
    requires WQuad(block, 20) == TWO_W5
    requires WQuad(block, 24) == TWO_W6
    requires WQuad(block, 28) == TWO_W7
    ensures Rounds(TWO_V0, block, 64) == TWO_V16
  {
    hide FourRounds, FourWords, KQuad, WQuad, Rounds;
    ConstantsHigh();
    TwoFour8();
    TwoWords8();
    ScheduleAdvance(block, 32, TWO_W8);
    RoundsAdvance(TWO_V0, block, 32, TWO_V9);
    TwoFour9();
    ScheduleAdvance(block, 36, TWO_W9);
    RoundsAdvance(TWO_V0, block, 36, TWO_V10);
    TwoFour10();
    ScheduleAdvance(block, 40, TWO_W10);
    RoundsAdvance(TWO_V0, block, 40, TWO_V11);
    TwoFour11();
    ScheduleAdvance(block, 44, TWO_W11);
    RoundsAdvance(TWO_V0, block, 44, TWO_V12);
    TwoFour12();
    TwoWords12();
    ScheduleAdvance(block, 48, TWO_W12);
    RoundsAdvance(TWO_V0, block, 48, TWO_V13);
    TwoFour13();
    ScheduleAdvance(block, 52, TWO_W13);
    RoundsAdvance(TWO_V0, block, 52, TWO_V14);
    TwoFour14();
    ScheduleAdvance(block, 56, TWO_W14);
    RoundsAdvance(TWO_V0, block, 56, TWO_V15);
    TwoFour15();
    ScheduleAdvance(block, 60, TWO_W15);
    RoundsAdvance(TWO_V0, block, 60, TWO_V16);
  }

  // --- The digests --------------------------------------------------------------------------------

  lemma ZeroOctet()
    ensures LowOctet(0) == 0
  {
  }

  lemma {:induction false} ZeroOctets(width: nat)
    ensures BeOctets(0, width) == Zeros(width)
  {
    hide LowOctet;
    if width == 0 {
    } else {
      ZeroOctet();
      ZeroOctets(width - 1);
      assert BeOctets(0, width) == BeOctets(0, width - 1) + [LowOctet(0)];
    }
  }

  lemma Length8(n: nat, high: byte, low: byte)
    requires n < 0x1_0000 && LowOctet(n / 256) == high && LowOctet(n) == low
    ensures BeOctets(n, 8) == [0, 0, 0, 0, 0, 0, high, low]
  {
    hide LowOctet;
    assert BeOctets(n, 8) == BeOctets(n / 256, 7) + [low];
    assert BeOctets(n / 256, 7) == BeOctets(n / 256 / 256, 6) + [high];
    hide BeOctets;
    ZeroOctets(6);
  }

  lemma LengthsWritten()
    ensures BeOctets(24, 8) == [0, 0, 0, 0, 0, 0, 0, 24] && BeOctets(448, 8) == [0, 0, 0, 0, 0, 0, 0x01, 0xC0]
  {
    hide BeOctets;
    Length8(24, 0, 24);
    Length8(448, 0x01, 0xC0);
  }

  lemma OneBlock(v: Words, block: seq<byte>)
    requires |block| == BLOCK_SIZE
    ensures WholeBlocksIn(|block|) && Blocks(v, block) == Added(v, Rounds(v, block, 64))
  {
    hide Rounds, Added;
    BlocksOneMore(v, [], block);
    assert [] + block == block;
  }

  lemma ZeroQuad(block: seq<byte>, t: nat)
    requires |block| == BLOCK_SIZE && t <= 12 && forall k :: 4 * t <= k < 4 * t + 16 ==> block[k] == 0
    ensures WQuad(block, t) == Quad(0, 0, 0, 0)
  {
  }

  const ABC: seq<byte> := [0x61, 0x62, 0x63]

  const ABC_DIGEST: seq<byte> :=
    [0xBA, 0x78, 0x16, 0xBF, 0x8F, 0x01, 0xCF, 0xEA] +
    [0x41, 0x41, 0x40, 0xDE, 0x5D, 0xAE, 0x22, 0x23] +
    [0xB0, 0x03, 0x61, 0xA3, 0x96, 0x17, 0x7A, 0x9C] +
    [0xB4, 0x10, 0xFF, 0x61, 0xF2, 0x00, 0x15, 0xAD]

  lemma AbcBlock(block: seq<byte>)
    requires block == ABC + [0x80] + Zeros(52) + [0, 0, 0, 0, 0, 0, 0, 24]
    ensures WQuad(block, 0) == ABC_W0 && WQuad(block, 4) == ABC_W1
    ensures WQuad(block, 8) == ABC_W2 && WQuad(block, 12) == ABC_W3
  {
    ZeroQuad(block, 4);
    ZeroQuad(block, 8);
  }

  lemma DigestOfAbc()
    ensures Digest(ABC) == ABC_DIGEST
  {
    assert ZeroCount(3) == 52;
    hide Rounds, WQuad, Blocks, WholeBlocksIn, Added, DigestOf, Zeros, BeOctets, ZeroCount;
    var block := Padded(ABC);
    LengthsWritten();
    AbcBlock(block);
    AbcLow(block);
    AbcHigh(block);
    OneBlock(INITIAL, block);
    AbcSum();
  }

  lemma AbcSum()
    ensures DigestOf(Added(INITIAL, ABC_V16)) == ABC_DIGEST
  {
    assert Added(INITIAL, ABC_V16) ==
           Words(0xBA7816BF, 0x8F01CFEA, 0x414140DE, 0x5DAE2223, 0xB00361A3, 0x96177A9C, 0xB410FF61, 0xF20015AD);
  }

  /** The message of two blocks: 56 letters, so that the length no longer fits behind them. */
  const LONG: seq<byte> :=
    [0x61, 0x62, 0x63, 0x64, 0x62, 0x63, 0x64, 0x65] +
    [0x63, 0x64, 0x65, 0x66, 0x64, 0x65, 0x66, 0x67] +
    [0x65, 0x66, 0x67, 0x68, 0x66, 0x67, 0x68, 0x69] +
    [0x67, 0x68, 0x69, 0x6A, 0x68, 0x69, 0x6A, 0x6B] +
    [0x69, 0x6A, 0x6B, 0x6C, 0x6A, 0x6B, 0x6C, 0x6D] +
    [0x6B, 0x6C, 0x6D, 0x6E, 0x6C, 0x6D, 0x6E, 0x6F] +
    [0x6D, 0x6E, 0x6F, 0x70, 0x6E, 0x6F, 0x70, 0x71]

  const LONG_DIGEST: seq<byte> :=
    [0x24, 0x8D, 0x6A, 0x61, 0xD2, 0x06, 0x38, 0xB8] +
    [0xE5, 0xC0, 0x26, 0x93, 0x0C, 0x3E, 0x60, 0x39] +
    [0xA3, 0x3C, 0xE4, 0x59, 0x64, 0xFF, 0x21, 0x67] +
    [0xF6, 0xEC, 0xED, 0xD4, 0x19, 0xDB, 0x06, 0xC1]

  lemma FirstBlock(first: seq<byte>)
    requires first == [] + (LONG + [0x80] + Zeros(7))
    ensures |first| == BLOCK_SIZE
    ensures WQuad(first, 0) == ONE_W0 && WQuad(first, 4) == ONE_W1
    ensures WQuad(first, 8) == ONE_W2 && WQuad(first, 12) == ONE_W3
  {
  }

  lemma LastBlock(last: seq<byte>)
    requires last == [] + Zeros(56) + [0, 0, 0, 0, 0, 0, 0x01, 0xC0]
    ensures |last| == BLOCK_SIZE
    ensures WQuad(last, 0) == TWO_W0 && WQuad(last, 4) == TWO_W1
    ensures WQuad(last, 8) == TWO_W2 && WQuad(last, 12) == TWO_W3
  {
    ZeroQuad(last, 0);
    ZeroQuad(last, 4);
    ZeroQuad(last, 8);
  }

  lemma OneSum()
    ensures Added(INITIAL, ONE_V16) == TWO_V0
  {
  }

  lemma LongSum()
    ensures DigestOf(Added(TWO_V0, TWO_V16)) == LONG_DIGEST
  {
    assert Added(TWO_V0, TWO_V16) ==
           Words(0x248D6A61, 0xD20638B8, 0xE5C02693, 0x0C3E6039, 0xA33CE459, 0x64FF2167, 0xF6ECEDD4, 0x19DB06C1);
  }

  lemma DigestOfLong()
    ensures Digest(LONG) == LONG_DIGEST
  {
    assert WholeBlocksIn(0);
    hide Rounds, Padded, WQuad, Blocks, WholeBlocksIn, Added, DigestOf, Zeros, BeOctets;
    var first, last := [] + (LONG + [0x80] + Zeros(7)), [] + Zeros(56) + BeOctets(448, 8);
    PaddingFits(LONG, [], LONG);
    LengthsWritten();
    FirstBlock(first);
    OneLow(first);
    OneHigh(first);
    OneSum();
    LastBlock(last);
    TwoLow(last);
    TwoHigh(last);
    LongSum();
    OneBlock(INITIAL, first);
    OneBlock(TWO_V0, last);
    BlocksInParts(INITIAL, first, last);
  }

}

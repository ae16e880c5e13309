/** The largest unsigned 256-bit integer, which an unlimited allowance
    submits, and the proof that the decimal literal the program writes for
    it is the rendering of 2^256 - 1. */
module Uint256 {
  import opened Decimal

  /** 2^256 - 1 written out in decimal, as the program spells it. */
  const MaxUint256Text := "115792089237316195423570985008687907853269984665640564039457584007913129639935"

  function Pow2(k: nat): (p: nat)
    ensures p >= 1
  {
    if k == 0 then 1 else 2 * Pow2(k - 1)
  }

  lemma {:induction false} PowAdd(a: nat, b: nat)
    ensures Pow2(a + b) == Pow2(a) * Pow2(b)
    decreases a
  {
    if a > 0 {
      PowAdd(a - 1, b);
    }
  }

  /** 2^256 by repeated squaring from 2^1. */
  lemma Pow2Of256()
    ensures Pow2(256) == 115792089237316195423570985008687907853269984665640564039457584007913129639936
  {
    assert Pow2(1) == 2;
    PowAdd(1, 1);
    assert Pow2(2) == 4;
    PowAdd(2, 2);
    assert Pow2(4) == 16;
    PowAdd(4, 4);
    assert Pow2(8) == 256;
    PowAdd(8, 8);
    assert Pow2(16) == 65536;
    PowAdd(16, 16);
    assert Pow2(32) == 4294967296;
    PowAdd(32, 32);
    assert Pow2(64) == 18446744073709551616;
    PowAdd(64, 64);
    assert Pow2(128) == 340282366920938463463374607431768211456;
    PowAdd(128, 128);
    assert Pow2(256) == 115792089237316195423570985008687907853269984665640564039457584007913129639936;
  }

  /** Rendering a number of two or more digits appends its last digit to
      the rendering of the rest. */
  lemma RenderStep(n: nat, q: nat, d: nat)
    requires n >= 10 && d < 10 && n == q * 10 + d
    ensures NatToDecimal(n) == NatToDecimal(q) + [DigitChar(d)]
  {
    assert n / 10 == q && n % 10 == d;
  }

  /** The first 8 digits of the literal render as themselves. */
  lemma RenderPrefix8()
    ensures NatToDecimal(11579208) == "11579208"
  {
    assert NatToDecimal(1) == [DigitChar(1)];
    assert [DigitChar(1)] == "1";
    RenderStep(11, 1, 1);
    assert [DigitChar(1)] == "1";
    assert "1" + "1" == "11";
    RenderStep(115, 11, 5);
    assert [DigitChar(5)] == "5";
    assert "11" + "5" == "115";
    RenderStep(1157, 115, 7);
    assert [DigitChar(7)] == "7";
    assert "115" + "7" == "1157";
    RenderStep(11579, 1157, 9);
    assert [DigitChar(9)] == "9";
    assert "1157" + "9" == "11579";
    RenderStep(115792, 11579, 2);
    assert [DigitChar(2)] == "2";
    assert "11579" + "2" == "115792";
    RenderStep(1157920, 115792, 0);
    assert [DigitChar(0)] == "0";
    assert "115792" + "0" == "1157920";
    RenderStep(11579208, 1157920, 8);
    assert [DigitChar(8)] == "8";
    assert "1157920" + "8" == "11579208";
  }

  /** The first 16 digits of the literal render as themselves. */
  lemma RenderPrefix16()
    ensures NatToDecimal(1157920892373161) == "1157920892373161"
  {
    RenderPrefix8();
    RenderStep(115792089, 11579208, 9);
    assert [DigitChar(9)] == "9";
    assert "11579208" + "9" == "115792089";
    RenderStep(1157920892, 115792089, 2);
    assert [DigitChar(2)] == "2";
    assert "115792089" + "2" == "1157920892";
    RenderStep(11579208923, 1157920892, 3);
    assert [DigitChar(3)] == "3";
    assert "1157920892" + "3" == "11579208923";
    RenderStep(115792089237, 11579208923, 7);
    assert [DigitChar(7)] == "7";
    assert "11579208923" + "7" == "115792089237";
    RenderStep(1157920892373, 115792089237, 3);
    assert [DigitChar(3)] == "3";
    assert "115792089237" + "3" == "1157920892373";
    RenderStep(11579208923731, 1157920892373, 1);
    assert [DigitChar(1)] == "1";
    assert "1157920892373" + "1" == "11579208923731";
    RenderStep(115792089237316, 11579208923731, 6);
    assert [DigitChar(6)] == "6";
    assert "11579208923731" + "6" == "115792089237316";
    RenderStep(1157920892373161, 115792089237316, 1);
    assert [DigitChar(1)] == "1";
    assert "115792089237316" + "1" == "1157920892373161";
  }

  /** The first 24 digits of the literal render as themselves. */
  lemma RenderPrefix24()
    ensures NatToDecimal(115792089237316195423570) == "115792089237316195423570"
  {
    RenderPrefix16();
    RenderStep(11579208923731619, 1157920892373161, 9);
    assert [DigitChar(9)] == "9";
    assert "1157920892373161" + "9" == "11579208923731619";
    RenderStep(115792089237316195, 11579208923731619, 5);
    assert [DigitChar(5)] == "5";
    assert "11579208923731619" + "5" == "115792089237316195";
    RenderStep(1157920892373161954, 115792089237316195, 4);
    assert [DigitChar(4)] == "4";
    assert "115792089237316195" + "4" == "1157920892373161954";
    RenderStep(11579208923731619542, 1157920892373161954, 2);
    assert [DigitChar(2)] == "2";
    assert "1157920892373161954" + "2" == "11579208923731619542";
    RenderStep(115792089237316195423, 11579208923731619542, 3);
    assert [DigitChar(3)] == "3";
    assert "11579208923731619542" + "3" == "115792089237316195423";
    RenderStep(1157920892373161954235, 115792089237316195423, 5);
    assert [DigitChar(5)] == "5";
    assert "115792089237316195423" + "5" == "1157920892373161954235";
    RenderStep(11579208923731619542357, 1157920892373161954235, 7);
    assert [DigitChar(7)] == "7";
    assert "1157920892373161954235" + "7" == "11579208923731619542357";
    RenderStep(115792089237316195423570, 11579208923731619542357, 0);
    assert [DigitChar(0)] == "0";
    assert "11579208923731619542357" + "0" == "115792089237316195423570";
  }

  /** The first 32 digits of the literal render as themselves. */
  lemma RenderPrefix32()
    ensures NatToDecimal(11579208923731619542357098500868) == "11579208923731619542357098500868"
  {
    RenderPrefix24();
    RenderStep(1157920892373161954235709, 115792089237316195423570, 9);
    assert [DigitChar(9)] == "9";
    assert "115792089237316195423570" + "9" == "1157920892373161954235709";
    RenderStep(11579208923731619542357098, 1157920892373161954235709, 8);
    assert [DigitChar(8)] == "8";
    assert "1157920892373161954235709" + "8" == "11579208923731619542357098";
    RenderStep(115792089237316195423570985, 11579208923731619542357098, 5);
    assert [DigitChar(5)] == "5";
    assert "11579208923731619542357098" + "5" == "115792089237316195423570985";
    RenderStep(1157920892373161954235709850, 115792089237316195423570985, 0);
    assert [DigitChar(0)] == "0";
    assert "115792089237316195423570985" + "0" == "1157920892373161954235709850";
    RenderStep(11579208923731619542357098500, 1157920892373161954235709850, 0);
    assert [DigitChar(0)] == "0";
    assert "1157920892373161954235709850" + "0" == "11579208923731619542357098500";
    RenderStep(115792089237316195423570985008, 11579208923731619542357098500, 8);
    assert [DigitChar(8)] == "8";
    assert "11579208923731619542357098500" + "8" == "115792089237316195423570985008";
    RenderStep(1157920892373161954235709850086, 115792089237316195423570985008, 6);
    assert [DigitChar(6)] == "6";
    assert "115792089237316195423570985008" + "6" == "1157920892373161954235709850086";
    RenderStep(11579208923731619542357098500868, 1157920892373161954235709850086, 8);
    assert [DigitChar(8)] == "8";
    assert "1157920892373161954235709850086" + "8" == "11579208923731619542357098500868";
  }

  /** The first 40 digits of the literal render as themselves. */
  lemma RenderPrefix40()
    ensures NatToDecimal(1157920892373161954235709850086879078532) == "1157920892373161954235709850086879078532"
  {
    RenderPrefix32();
    RenderStep(115792089237316195423570985008687, 11579208923731619542357098500868, 7);
    assert [DigitChar(7)] == "7";
    assert "11579208923731619542357098500868" + "7" == "115792089237316195423570985008687";
    RenderStep(1157920892373161954235709850086879, 115792089237316195423570985008687, 9);
    assert [DigitChar(9)] == "9";
    assert "115792089237316195423570985008687" + "9" == "1157920892373161954235709850086879";
    RenderStep(11579208923731619542357098500868790, 1157920892373161954235709850086879, 0);
    assert [DigitChar(0)] == "0";
    assert "1157920892373161954235709850086879" + "0" == "11579208923731619542357098500868790";
    RenderStep(115792089237316195423570985008687907, 11579208923731619542357098500868790, 7);
    assert [DigitChar(7)] == "7";
    assert "11579208923731619542357098500868790" + "7" == "115792089237316195423570985008687907";
    RenderStep(1157920892373161954235709850086879078, 115792089237316195423570985008687907, 8);
    assert [DigitChar(8)] == "8";
    assert "115792089237316195423570985008687907" + "8" == "1157920892373161954235709850086879078";
    RenderStep(11579208923731619542357098500868790785, 1157920892373161954235709850086879078, 5);
    assert [DigitChar(5)] == "5";
    assert "1157920892373161954235709850086879078" + "5" == "11579208923731619542357098500868790785";
    RenderStep(115792089237316195423570985008687907853, 11579208923731619542357098500868790785, 3);
    assert [DigitChar(3)] == "3";
    assert "11579208923731619542357098500868790785" + "3" == "115792089237316195423570985008687907853";
    RenderStep(1157920892373161954235709850086879078532, 115792089237316195423570985008687907853, 2);
    assert [DigitChar(2)] == "2";
    assert "115792089237316195423570985008687907853" + "2" == "1157920892373161954235709850086879078532";
  }

  /** The first 48 digits of the literal render as themselves. */
  lemma RenderPrefix48()
    ensures NatToDecimal(115792089237316195423570985008687907853269984665) == "115792089237316195423570985008687907853269984665"
  {
    RenderPrefix40();
    RenderStep(11579208923731619542357098500868790785326, 1157920892373161954235709850086879078532, 6);
    assert [DigitChar(6)] == "6";
    assert "1157920892373161954235709850086879078532" + "6" == "11579208923731619542357098500868790785326";
    RenderStep(115792089237316195423570985008687907853269, 11579208923731619542357098500868790785326, 9);
    assert [DigitChar(9)] == "9";
    assert "11579208923731619542357098500868790785326" + "9" == "115792089237316195423570985008687907853269";
    RenderStep(1157920892373161954235709850086879078532699, 115792089237316195423570985008687907853269, 9);
    assert [DigitChar(9)] == "9";
    assert "115792089237316195423570985008687907853269" + "9" == "1157920892373161954235709850086879078532699";
    RenderStep(11579208923731619542357098500868790785326998, 1157920892373161954235709850086879078532699, 8);
    assert [DigitChar(8)] == "8";
    assert "1157920892373161954235709850086879078532699" + "8" == "11579208923731619542357098500868790785326998";
    RenderStep(115792089237316195423570985008687907853269984, 11579208923731619542357098500868790785326998, 4);
    assert [DigitChar(4)] == "4";
    assert "11579208923731619542357098500868790785326998" + "4" == "115792089237316195423570985008687907853269984";
    RenderStep(1157920892373161954235709850086879078532699846, 115792089237316195423570985008687907853269984, 6);
    assert [DigitChar(6)] == "6";
    assert "115792089237316195423570985008687907853269984" + "6" == "1157920892373161954235709850086879078532699846";
    RenderStep(11579208923731619542357098500868790785326998466, 1157920892373161954235709850086879078532699846, 6);
    assert [DigitChar(6)] == "6";
    assert "1157920892373161954235709850086879078532699846" + "6" == "11579208923731619542357098500868790785326998466";
    RenderStep(115792089237316195423570985008687907853269984665, 11579208923731619542357098500868790785326998466, 5);
    assert [DigitChar(5)] == "5";
    assert "11579208923731619542357098500868790785326998466" + "5" == "115792089237316195423570985008687907853269984665";
  }

  /** The first 56 digits of the literal render as themselves. */
  lemma RenderPrefix56()
    ensures NatToDecimal(11579208923731619542357098500868790785326998466564056403) == "11579208923731619542357098500868790785326998466564056403"
  {
    RenderPrefix48();
    RenderStep(1157920892373161954235709850086879078532699846656, 115792089237316195423570985008687907853269984665, 6);
    assert [DigitChar(6)] == "6";
    assert "115792089237316195423570985008687907853269984665" + "6" == "1157920892373161954235709850086879078532699846656";
    RenderStep(11579208923731619542357098500868790785326998466564, 1157920892373161954235709850086879078532699846656, 4);
    assert [DigitChar(4)] == "4";
    assert "1157920892373161954235709850086879078532699846656" + "4" == "11579208923731619542357098500868790785326998466564";
    RenderStep(115792089237316195423570985008687907853269984665640, 11579208923731619542357098500868790785326998466564, 0);
    assert [DigitChar(0)] == "0";
    assert "11579208923731619542357098500868790785326998466564" + "0" == "115792089237316195423570985008687907853269984665640";
    RenderStep(1157920892373161954235709850086879078532699846656405, 115792089237316195423570985008687907853269984665640, 5);
    assert [DigitChar(5)] == "5";
    assert "115792089237316195423570985008687907853269984665640" + "5" == "1157920892373161954235709850086879078532699846656405";
    RenderStep(11579208923731619542357098500868790785326998466564056, 1157920892373161954235709850086879078532699846656405, 6);
    assert [DigitChar(6)] == "6";
    assert "1157920892373161954235709850086879078532699846656405" + "6" == "11579208923731619542357098500868790785326998466564056";
    RenderStep(115792089237316195423570985008687907853269984665640564, 11579208923731619542357098500868790785326998466564056, 4);
    assert [DigitChar(4)] == "4";
    assert "11579208923731619542357098500868790785326998466564056" + "4" == "115792089237316195423570985008687907853269984665640564";
    RenderStep(1157920892373161954235709850086879078532699846656405640, 115792089237316195423570985008687907853269984665640564, 0);
    assert [DigitChar(0)] == "0";
    assert "115792089237316195423570985008687907853269984665640564" + "0" == "1157920892373161954235709850086879078532699846656405640";
    RenderStep(11579208923731619542357098500868790785326998466564056403, 1157920892373161954235709850086879078532699846656405640, 3);
    assert [DigitChar(3)] == "3";
    assert "1157920892373161954235709850086879078532699846656405640" + "3" == "11579208923731619542357098500868790785326998466564056403";
  }

  /** The first 64 digits of the literal render as themselves. */
  lemma RenderPrefix64()
    ensures NatToDecimal(1157920892373161954235709850086879078532699846656405640394575840) == "1157920892373161954235709850086879078532699846656405640394575840"
  {
    RenderPrefix56();
    RenderStep(115792089237316195423570985008687907853269984665640564039, 11579208923731619542357098500868790785326998466564056403, 9);
    assert [DigitChar(9)] == "9";
    assert "11579208923731619542357098500868790785326998466564056403" + "9" == "115792089237316195423570985008687907853269984665640564039";
    RenderStep(1157920892373161954235709850086879078532699846656405640394, 115792089237316195423570985008687907853269984665640564039, 4);
    assert [DigitChar(4)] == "4";
    assert "115792089237316195423570985008687907853269984665640564039" + "4" == "1157920892373161954235709850086879078532699846656405640394";
    RenderStep(11579208923731619542357098500868790785326998466564056403945, 1157920892373161954235709850086879078532699846656405640394, 5);
    assert [DigitChar(5)] == "5";
    assert "1157920892373161954235709850086879078532699846656405640394" + "5" == "11579208923731619542357098500868790785326998466564056403945";
    RenderStep(115792089237316195423570985008687907853269984665640564039457, 11579208923731619542357098500868790785326998466564056403945, 7);
    assert [DigitChar(7)] == "7";
    assert "11579208923731619542357098500868790785326998466564056403945" + "7" == "115792089237316195423570985008687907853269984665640564039457";
    RenderStep(1157920892373161954235709850086879078532699846656405640394575, 115792089237316195423570985008687907853269984665640564039457, 5);
    assert [DigitChar(5)] == "5";
    assert "115792089237316195423570985008687907853269984665640564039457" + "5" == "1157920892373161954235709850086879078532699846656405640394575";
    RenderStep(11579208923731619542357098500868790785326998466564056403945758, 1157920892373161954235709850086879078532699846656405640394575, 8);
    assert [DigitChar(8)] == "8";
    assert "1157920892373161954235709850086879078532699846656405640394575" + "8" == "11579208923731619542357098500868790785326998466564056403945758";
    RenderStep(115792089237316195423570985008687907853269984665640564039457584, 11579208923731619542357098500868790785326998466564056403945758, 4);
    assert [DigitChar(4)] == "4";
    assert "11579208923731619542357098500868790785326998466564056403945758" + "4" == "115792089237316195423570985008687907853269984665640564039457584";
    RenderStep(1157920892373161954235709850086879078532699846656405640394575840, 115792089237316195423570985008687907853269984665640564039457584, 0);
    assert [DigitChar(0)] == "0";
    assert "115792089237316195423570985008687907853269984665640564039457584" + "0" == "1157920892373161954235709850086879078532699846656405640394575840";
  }

  /** The first 72 digits of the literal render as themselves. */
  lemma RenderPrefix72()
    ensures NatToDecimal(115792089237316195423570985008687907853269984665640564039457584007913129) == "115792089237316195423570985008687907853269984665640564039457584007913129"
  {
    RenderPrefix64();
    RenderStep(11579208923731619542357098500868790785326998466564056403945758400, 1157920892373161954235709850086879078532699846656405640394575840, 0);
    assert [DigitChar(0)] == "0";
    assert "1157920892373161954235709850086879078532699846656405640394575840" + "0" == "11579208923731619542357098500868790785326998466564056403945758400";
    RenderStep(115792089237316195423570985008687907853269984665640564039457584007, 11579208923731619542357098500868790785326998466564056403945758400, 7);
    assert [DigitChar(7)] == "7";
    assert "11579208923731619542357098500868790785326998466564056403945758400" + "7" == "115792089237316195423570985008687907853269984665640564039457584007";
    RenderStep(1157920892373161954235709850086879078532699846656405640394575840079, 115792089237316195423570985008687907853269984665640564039457584007, 9);
    assert [DigitChar(9)] == "9";
    assert "115792089237316195423570985008687907853269984665640564039457584007" + "9" == "1157920892373161954235709850086879078532699846656405640394575840079";
    RenderStep(11579208923731619542357098500868790785326998466564056403945758400791, 1157920892373161954235709850086879078532699846656405640394575840079, 1);
    assert [DigitChar(1)] == "1";
    assert "1157920892373161954235709850086879078532699846656405640394575840079" + "1" == "11579208923731619542357098500868790785326998466564056403945758400791";
    RenderStep(115792089237316195423570985008687907853269984665640564039457584007913, 11579208923731619542357098500868790785326998466564056403945758400791, 3);
    assert [DigitChar(3)] == "3";
    assert "11579208923731619542357098500868790785326998466564056403945758400791" + "3" == "115792089237316195423570985008687907853269984665640564039457584007913";
    RenderStep(1157920892373161954235709850086879078532699846656405640394575840079131, 115792089237316195423570985008687907853269984665640564039457584007913, 1);
    assert [DigitChar(1)] == "1";
    assert "115792089237316195423570985008687907853269984665640564039457584007913" + "1" == "1157920892373161954235709850086879078532699846656405640394575840079131";
    RenderStep(11579208923731619542357098500868790785326998466564056403945758400791312, 1157920892373161954235709850086879078532699846656405640394575840079131, 2);
    assert [DigitChar(2)] == "2";
    assert "1157920892373161954235709850086879078532699846656405640394575840079131" + "2" == "11579208923731619542357098500868790785326998466564056403945758400791312";
    RenderStep(115792089237316195423570985008687907853269984665640564039457584007913129, 11579208923731619542357098500868790785326998466564056403945758400791312, 9);
    assert [DigitChar(9)] == "9";
    assert "11579208923731619542357098500868790785326998466564056403945758400791312" + "9" == "115792089237316195423570985008687907853269984665640564039457584007913129";
  }

  /** The first 78 digits of the literal render as themselves. */
  lemma RenderPrefix78()
    ensures NatToDecimal(115792089237316195423570985008687907853269984665640564039457584007913129639935) == "115792089237316195423570985008687907853269984665640564039457584007913129639935"
  {
    RenderPrefix72();
    RenderStep(1157920892373161954235709850086879078532699846656405640394575840079131296, 115792089237316195423570985008687907853269984665640564039457584007913129, 6);
    assert [DigitChar(6)] == "6";
    assert "115792089237316195423570985008687907853269984665640564039457584007913129" + "6" == "1157920892373161954235709850086879078532699846656405640394575840079131296";
    RenderStep(11579208923731619542357098500868790785326998466564056403945758400791312963, 1157920892373161954235709850086879078532699846656405640394575840079131296, 3);
    assert [DigitChar(3)] == "3";
    assert "1157920892373161954235709850086879078532699846656405640394575840079131296" + "3" == "11579208923731619542357098500868790785326998466564056403945758400791312963";
    RenderStep(115792089237316195423570985008687907853269984665640564039457584007913129639, 11579208923731619542357098500868790785326998466564056403945758400791312963, 9);
    assert [DigitChar(9)] == "9";
    assert "11579208923731619542357098500868790785326998466564056403945758400791312963" + "9" == "115792089237316195423570985008687907853269984665640564039457584007913129639";
    RenderStep(1157920892373161954235709850086879078532699846656405640394575840079131296399, 115792089237316195423570985008687907853269984665640564039457584007913129639, 9);
    assert [DigitChar(9)] == "9";
    assert "115792089237316195423570985008687907853269984665640564039457584007913129639" + "9" == "1157920892373161954235709850086879078532699846656405640394575840079131296399";
    RenderStep(11579208923731619542357098500868790785326998466564056403945758400791312963993, 1157920892373161954235709850086879078532699846656405640394575840079131296399, 3);
    assert [DigitChar(3)] == "3";
    assert "1157920892373161954235709850086879078532699846656405640394575840079131296399" + "3" == "11579208923731619542357098500868790785326998466564056403945758400791312963993";
    RenderStep(115792089237316195423570985008687907853269984665640564039457584007913129639935, 11579208923731619542357098500868790785326998466564056403945758400791312963993, 5);
    assert [DigitChar(5)] == "5";
    assert "11579208923731619542357098500868790785326998466564056403945758400791312963993" + "5" == "115792089237316195423570985008687907853269984665640564039457584007913129639935";
  }

  /** The literal is the decimal rendering of 2^256 - 1. */
  lemma MaxUint256TextIsMax()
    ensures MaxUint256Text == NatToDecimal(Pow2(256) - 1)
    ensures Canonical(MaxUint256Text) && Value(MaxUint256Text) == Pow2(256) - 1
  {
    Pow2Of256();
    RenderPrefix78();
    ValueOfNatToDecimal(Pow2(256) - 1);
  }
}

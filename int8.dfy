/** Signed 8-bit integers and the ECMA-262 ToInt8 conversion (section 7.1.10 of
    ECMA-262, 2022 edition) that an assignment into an Int8Array element applies. */
module Int8 {

  newtype int8 = x: int | -128 <= x < 128

  /** ToInt8 on an integral Number: reduce modulo 2^8 into 0..255 and map
      128..255 to -128..-1. The result is the one int8 congruent to x modulo 256. */
  function ToInt8(x: int): (r: int8)
    ensures (x - r as int) % 256 == 0
  {
    var m := x % 256;
    if m >= 128 then (m - 256) as int8 else m as int8
  }

  /** No other int8 is congruent to x modulo 256: ToInt8 is the wrap-around. */
  lemma ToInt8Unique(x: int, y: int8)
    requires (x - y as int) % 256 == 0
    ensures y == ToInt8(x)
  {
    var r := ToInt8(x);
    var q1 := (x - y as int) / 256;
    var q2 := (x - r as int) / 256;
    assert x - y as int == 256 * q1;
    assert x - r as int == 256 * q2;
    assert r as int - y as int == 256 * (q1 - q2);
    assert -256 < r as int - y as int < 256;
    assert q1 == q2;
  }

  /** A value already in -128..127 is stored unchanged. */
  lemma ToInt8InRange(x: int)
    requires -128 <= x < 128
    ensures ToInt8(x) as int == x
  {
    ToInt8Unique(x, x as int8);
  }

  /** Adding a multiple of 256 does not change what is stored. */
  lemma ToInt8Periodic(x: int, k: int)
    ensures ToInt8(x + 256 * k) == ToInt8(x)
  {
    var r := ToInt8(x);
    assert (x + 256 * k - r as int) == (x - r as int) + 256 * k;
    ToInt8Unique(x + 256 * k, r);
  }
}

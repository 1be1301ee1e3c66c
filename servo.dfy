/** Servo Writer: the 4-byte control payload and the three fixed postures. */
module Servo {
  import opened Int8

  /** One payload for the servo characteristic: rightLeg, rightFoot, leftFoot, leftLeg. */
  type Frame = s: seq<int8> | |s| == 4 witness [0, 0, 0, 0]

  /** The bytes `writeServos` puts into its Int8Array view, in argument order,
      each argument wrapped into -128..127. */
  function Pack(rightLeg: int, rightFoot: int, leftFoot: int, leftLeg: int): (f: Frame)
    ensures (rightLeg - f[0] as int) % 256 == 0 && (rightFoot - f[1] as int) % 256 == 0
    ensures (leftFoot - f[2] as int) % 256 == 0 && (leftLeg - f[3] as int) % 256 == 0
  {
    [ToInt8(rightLeg), ToInt8(rightFoot), ToInt8(leftFoot), ToInt8(leftLeg)]
  }

  predicate InByteRange(x: int) {
    -128 <= x < 128
  }

  /** Arguments already in -128..127 reach the payload unchanged and in order. */
  lemma PackInRange(rightLeg: int, rightFoot: int, leftFoot: int, leftLeg: int)
    requires InByteRange(rightLeg) && InByteRange(rightFoot)
    requires InByteRange(leftFoot) && InByteRange(leftLeg)
    ensures Pack(rightLeg, rightFoot, leftFoot, leftLeg)
         == [rightLeg as int8, rightFoot as int8, leftFoot as int8, leftLeg as int8]
  {
    ToInt8InRange(rightLeg);
    ToInt8InRange(rightFoot);
    ToInt8InRange(leftFoot);
    ToInt8InRange(leftLeg);
  }

  /** Byte i of the payload is the only int8 congruent to argument i modulo 256. */
  lemma PackUnique(rightLeg: int, rightFoot: int, leftFoot: int, leftLeg: int, f: Frame)
    requires (rightLeg - f[0] as int) % 256 == 0 && (rightFoot - f[1] as int) % 256 == 0
    requires (leftFoot - f[2] as int) % 256 == 0 && (leftLeg - f[3] as int) % 256 == 0
    ensures f == Pack(rightLeg, rightFoot, leftFoot, leftLeg)
  {
    ToInt8Unique(rightLeg, f[0]);
    ToInt8Unique(rightFoot, f[1]);
    ToInt8Unique(leftFoot, f[2]);
    ToInt8Unique(leftLeg, f[3]);
  }

  /** The payload sent when all four servos take the same value. */
  function Uniform(v: int): Frame {
    Pack(v, v, v, v)
  }

  /** `stand()`: all four servos at 90. */
  const StandFrame: Frame := Pack(90, 90, 90, 90)

  /** `spread()`: legs apart and feet turned. */
  const SpreadFrame: Frame := Pack(110, 94, 86, 70)

  /** `rest()`: all four servos at 0. */
  const RestFrame: Frame := Pack(0, 0, 0, 0)

  /** The postures' values are in byte range, so the payloads carry them unchanged,
      and the three postures are pairwise distinct. */
  lemma Postures()
    ensures StandFrame == [90, 90, 90, 90]
    ensures SpreadFrame == [110, 94, 86, 70]
    ensures RestFrame == [0, 0, 0, 0]
    ensures StandFrame != SpreadFrame && StandFrame != RestFrame && SpreadFrame != RestFrame
  {
    PackInRange(90, 90, 90, 90);
    PackInRange(110, 94, 86, 70);
    PackInRange(0, 0, 0, 0);
  }
}

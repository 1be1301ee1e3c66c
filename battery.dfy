/** Battery Monitor: what `indicateBatteryLevel` shows for one battery level, as
    returned values instead of DOM updates. */
module Battery {
  import Decimal

  /** The five icon tiers, from empty to full. */
  datatype Tier = Empty | Quarter | Half | ThreeQuarters | Full

  /** What the two display elements receive: the label text and the icon class. */
  datatype Indication = Indication(text: string, iconClass: string)

  /** The strict `>` threshold chain of the source: each tier holds exactly its
      band of levels, in both directions. */
  function TierOf(value: nat): (t: Tier)
    ensures t == Full <==> value > 85
    ensures t == ThreeQuarters <==> 65 < value <= 85
    ensures t == Half <==> 40 < value <= 65
    ensures t == Quarter <==> 20 < value <= 40
    ensures t == Empty <==> value <= 20
  {
    if value > 85 then Full
    else if value > 65 then ThreeQuarters
    else if value > 40 then Half
    else if value > 20 then Quarter
    else Empty
  }

  /** Position of a tier in the order Empty < Quarter < Half < ThreeQuarters < Full. */
  function Rank(t: Tier): nat {
    match t
    case Empty => 0
    case Quarter => 1
    case Half => 2
    case ThreeQuarters => 3
    case Full => 4
  }

  /** The Font Awesome class the icon element receives: a battery icon of the tier's fill. */
  function IconClass(t: Tier): (c: string)
    ensures |c| > 14 && c[..14] == "fa fa-battery-"
  {
    match t
    case Full => "fa fa-battery-full"
    case ThreeQuarters => "fa fa-battery-three-quarters"
    case Half => "fa fa-battery-half"
    case Quarter => "fa fa-battery-quarter"
    case Empty => "fa fa-battery-empty"
  }

  /** The four thresholds, in increasing order. */
  const Thresholds: seq<nat> := [20, 40, 65, 85]

  /** A reference definition of the tier: how many thresholds the level lies strictly above. */
  function ThresholdsBelow(value: nat, ts: seq<nat>): nat {
    if ts == [] then 0
    else (if value > ts[0] then 1 else 0) + ThresholdsBelow(value, ts[1..])
  }

  /** The label `value + '%'`: the decimal rendering of the level followed by one percent sign. */
  function Label(value: nat): (s: string)
    ensures |s| >= 2 && s[|s| - 1] == '%'
    ensures forall i :: 0 <= i < |s| - 1 ==> s[i] != '%'
    ensures Decimal.AllDigits(s[..|s| - 1]) && Decimal.ParseDecimal(s[..|s| - 1]) == value
    ensures s[0] == '0' ==> value == 0 && |s| == 2
  {
    var digits := Decimal.NatToString(value);
    assert (digits + "%")[..|digits|] == digits;
    Decimal.ParseRendered(value);
    digits + "%"
  }

  /** The label and icon class `indicateBatteryLevel` writes for a level: the text
      is the level in decimal without leading zeros and one trailing '%'; the icon
      class follows the level's band. */
  function Indicate(value: nat): (d: Indication)
    ensures |d.text| >= 2 && d.text[|d.text| - 1] == '%'
    ensures forall i :: 0 <= i < |d.text| - 1 ==> d.text[i] != '%'
    ensures Decimal.AllDigits(d.text[..|d.text| - 1])
    ensures Decimal.ParseDecimal(d.text[..|d.text| - 1]) == value
    ensures d.text[0] == '0' ==> value == 0 && |d.text| == 2
    ensures d.iconClass == "fa fa-battery-full" <==> value > 85
    ensures d.iconClass == "fa fa-battery-three-quarters" <==> 65 < value <= 85
    ensures d.iconClass == "fa fa-battery-half" <==> 40 < value <= 65
    ensures d.iconClass == "fa fa-battery-quarter" <==> 20 < value <= 40
    ensures d.iconClass == "fa fa-battery-empty" <==> value <= 20
  {
    Indication(Label(value), IconClass(TierOf(value)))
  }

  /** The boundary levels fall into the lower tier since every comparison is strict. */
  lemma TierBoundaries()
    ensures TierOf(85) == ThreeQuarters && TierOf(65) == Half
    ensures TierOf(40) == Quarter && TierOf(20) == Empty
    ensures TierOf(0) == Empty && TierOf(100) == Full
  {
  }

  /** The tier is the number of thresholds the level exceeds. */
  lemma {:induction false} TierCountsThresholds(value: nat)
    ensures Rank(TierOf(value)) == ThresholdsBelow(value, Thresholds)
  {
    var b := (x: nat) => if value > x then 1 else 0;
    assert [85][1..] == [];
    assert ThresholdsBelow(value, [85]) == b(85);
    assert [65, 85][1..] == [85];
    assert ThresholdsBelow(value, [65, 85]) == b(65) + b(85);
    assert [40, 65, 85][1..] == [65, 85];
    assert ThresholdsBelow(value, [40, 65, 85]) == b(40) + b(65) + b(85);
    assert Thresholds[1..] == [40, 65, 85];
  }

  /** A higher level never shows a lower tier. */
  lemma TierMonotone(v: nat, w: nat)
    requires v <= w
    ensures Rank(TierOf(v)) <= Rank(TierOf(w))
  {
  }

  /** Different tiers show different icons. */
  lemma IconClassInjective(s: Tier, t: Tier)
    requires IconClass(s) == IconClass(t)
    ensures s == t
  {
  }

  /** A first read of 72 and a later notification of 15. */
  lemma ReadThenNotify()
    ensures Indicate(72) == Indication("72%", "fa fa-battery-three-quarters")
    ensures Indicate(15) == Indication("15%", "fa fa-battery-empty")
  {
    assert Decimal.NatToString(72) == "72";
    assert Decimal.NatToString(15) == "15";
  }
}

/**
  The app's temperature-to-colour mapping: the free functions
  `getBackgroundColor(for:)` and `getTextColor(for:)`.

  Both switch on a `Double` temperature with CLOSED integer ranges for the
  six inner bands (`23...27`, `20...22`, ...), so a temperature strictly
  between two of them (27.5, 22.5, 19.9, ...) matches no band and reaches
  `default`: a white background and black text.
 */
module Colors {
  import opened Switch

  /** The eight named colour assets, coldest first. */
  datatype Band = ExtremeCold | VeryCold | Cold | Cool | Mild | Warm | VeryHot | ExtremeHot

  /** `Color("<band name>")`, `Color.white` and `Color.black`. */
  datatype Color = Asset(band: Band) | White | Black

  /** Position of a band on the cold-to-hot scale. */
  function Rank(b: Band): nat
  {
    match b
    case ExtremeCold => 0
    case VeryCold => 1
    case Cold => 2
    case Cool => 3
    case Mild => 4
    case Warm => 5
    case VeryHot => 6
    case ExtremeHot => 7
  }

  /** The arms of the background switch, in source order. */
  const BackgroundArms: seq<(Interval, Color)> := [
    (AtLeast(28.0), Asset(ExtremeHot)),
    (Closed(23.0, 27.0), Asset(VeryHot)),
    (Closed(20.0, 22.0), Asset(Warm)),
    (Closed(17.0, 19.0), Asset(Mild)),
    (Closed(12.0, 16.0), Asset(Cool)),
    (Closed(9.0, 11.0), Asset(Cold)),
    (Closed(5.0, 8.0), Asset(VeryCold)),
    (Below(5.0), Asset(ExtremeCold))
  ]

  /** The arms of the text switch, in source order. */
  const TextArms: seq<(Interval, Color)> := [
    (AtLeast(28.0), White),
    (Closed(23.0, 27.0), White),
    (Closed(20.0, 22.0), Black),
    (Closed(17.0, 19.0), Black),
    (Closed(12.0, 16.0), Black),
    (Closed(9.0, 11.0), White),
    (Closed(5.0, 8.0), White),
    (Below(5.0), White)
  ]

  function GetBackgroundColor(temperature: real): Color
  {
    Select(BackgroundArms, temperature, White)
  }

  function GetTextColor(temperature: real): Color
  {
    Select(TextArms, temperature, Black)
  }

  /** The open intervals left uncovered by the closed integer bands. */
  predicate InClosedGap(t: real)
  {
    (27.0 < t < 28.0) || (22.0 < t < 23.0) || (19.0 < t < 20.0)
    || (16.0 < t < 17.0) || (11.0 < t < 12.0) || (8.0 < t < 9.0)
  }

  /** Exactly one arm of the table matches `t`. */
  predicate ExactlyOneArm(arms: seq<(Interval, Color)>, t: real)
  {
    exists k | 0 <= k < |arms| ::
      Contains(arms[k].0, t) && forall j | 0 <= j < |arms| && j != k :: !Contains(arms[j].0, t)
  }

  /** The band each temperature gets, and the white default in the gaps. */
  lemma BackgroundBands(t: real)
    ensures t >= 28.0 ==> GetBackgroundColor(t) == Asset(ExtremeHot)
    ensures 23.0 <= t <= 27.0 ==> GetBackgroundColor(t) == Asset(VeryHot)
    ensures 20.0 <= t <= 22.0 ==> GetBackgroundColor(t) == Asset(Warm)
    ensures 17.0 <= t <= 19.0 ==> GetBackgroundColor(t) == Asset(Mild)
    ensures 12.0 <= t <= 16.0 ==> GetBackgroundColor(t) == Asset(Cool)
    ensures 9.0 <= t <= 11.0 ==> GetBackgroundColor(t) == Asset(Cold)
    ensures 5.0 <= t <= 8.0 ==> GetBackgroundColor(t) == Asset(VeryCold)
    ensures t < 5.0 ==> GetBackgroundColor(t) == Asset(ExtremeCold)
    ensures InClosedGap(t) <==> GetBackgroundColor(t) == White
  {
    var a := BackgroundArms;
    if t >= 28.0 { SelectPicks(a, t, White, 0); }
    else if 23.0 <= t <= 27.0 { SelectPicks(a, t, White, 1); }
    else if 20.0 <= t <= 22.0 { SelectPicks(a, t, White, 2); }
    else if 17.0 <= t <= 19.0 { SelectPicks(a, t, White, 3); }
    else if 12.0 <= t <= 16.0 { SelectPicks(a, t, White, 4); }
    else if 9.0 <= t <= 11.0 { SelectPicks(a, t, White, 5); }
    else if 5.0 <= t <= 8.0 { SelectPicks(a, t, White, 6); }
    else if t < 5.0 { SelectPicks(a, t, White, 7); }
    else { SelectFallback(a, t, White); }
  }

  /** Black text exactly on the three middle bands and in the gaps; white elsewhere. */
  lemma TextColors(t: real)
    ensures GetTextColor(t) == Black <==> (12.0 <= t <= 22.0 || InClosedGap(t))
    ensures GetTextColor(t) == White <==> !(12.0 <= t <= 22.0 || InClosedGap(t))
  {
    var a := TextArms;
    if t >= 28.0 { SelectPicks(a, t, Black, 0); }
    else if 23.0 <= t <= 27.0 { SelectPicks(a, t, Black, 1); }
    else if 20.0 <= t <= 22.0 { SelectPicks(a, t, Black, 2); }
    else if 17.0 <= t <= 19.0 { SelectPicks(a, t, Black, 3); }
    else if 12.0 <= t <= 16.0 { SelectPicks(a, t, Black, 4); }
    else if 9.0 <= t <= 11.0 { SelectPicks(a, t, Black, 5); }
    else if 5.0 <= t <= 8.0 { SelectPicks(a, t, Black, 6); }
    else if t < 5.0 { SelectPicks(a, t, Black, 7); }
    else { SelectFallback(a, t, Black); }
  }

  /** The text colour is chosen to contrast with the background: black on
      Cool, Mild, Warm and on the white default, white on every other band. */
  lemma TextContrastsWithBackground(t: real)
    ensures GetTextColor(t) == Black <==>
      GetBackgroundColor(t) in {Asset(Cool), Asset(Mild), Asset(Warm), White}
    ensures GetTextColor(t) == White <==>
      GetBackgroundColor(t) in {Asset(ExtremeCold), Asset(VeryCold), Asset(Cold), Asset(VeryHot), Asset(ExtremeHot)}
  {
    BackgroundBands(t);
    TextColors(t);
  }

  /** The default is unreachable for whole-degree temperatures: every integer
      lies in exactly one of the eight ranges. */
  lemma IntegerTemperatureInOneBand(n: int)
    ensures GetBackgroundColor(n as real).Asset?
    ensures ExactlyOneArm(BackgroundArms, n as real)
  {
    var t := n as real;
    BackgroundBands(t);
    var a := BackgroundArms;
    var k := if n >= 28 then 0 else if n >= 23 then 1 else if n >= 20 then 2
      else if n >= 17 then 3 else if n >= 12 then 4 else if n >= 9 then 5
      else if n >= 5 then 6 else 7;
    assert Contains(a[k].0, t);
    assert forall j | 0 <= j < |a| && j != k :: !Contains(a[j].0, t);
  }

  /** Among temperatures that get a named band, a warmer one never gets a
      colder band. */
  lemma BackgroundMonotone(t1: real, t2: real)
    requires t1 <= t2
    requires GetBackgroundColor(t1).Asset? && GetBackgroundColor(t2).Asset?
    ensures Rank(GetBackgroundColor(t1).band) <= Rank(GetBackgroundColor(t2).band)
  {
    BackgroundBands(t1);
    BackgroundBands(t2);
  }
}

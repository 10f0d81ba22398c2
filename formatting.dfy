/**
 * The compact display of a count (`format_number`): a descending chain of
 * thresholds picks one of the suffixes B, M, K or none, and the value is shown
 * scaled to that suffix with one decimal, or as a whole number with no suffix.
 * A rendering is modelled by its tier and by the integer it shows, in units of
 * the last printed digit: tenths of the scaled value for the suffixed tiers,
 * the rounded value itself for the plain tier. Digit grouping and the digits'
 * characters are not modelled.
 */
module Formatting {
  import opened Numerics

  datatype Tier = Billions | Millions | Thousands | Plain

  function Suffix(t: Tier): string {
    match t
    case Billions => "B"
    case Millions => "M"
    case Thousands => "K"
    case Plain => ""
  }

  /** Digits printed after the decimal point. */
  function Decimals(t: Tier): nat {
    if t.Plain? then 0 else 1
  }

  /** The magnitude the tier divides by before printing. */
  function Divisor(t: Tier): real {
    match t
    case Billions => 1_000_000_000.0
    case Millions => 1_000_000.0
    case Thousands => 1_000.0
    case Plain => 1.0
  }

  /** The value of one unit of the last printed digit. */
  function Unit(t: Tier): real {
    if t.Plain? then 1.0 else Divisor(t) / 10.0
  }

  datatype Display = Display(tier: Tier, shown: int)

  /** The guard chain: the first threshold, from the top, that the number reaches. */
  function TierOf(num: real): (t: Tier)
    ensures t.Billions? <==> 1_000_000_000.0 <= num
    ensures t.Millions? <==> 1_000_000.0 <= num < 1_000_000_000.0
    ensures t.Thousands? <==> 1_000.0 <= num < 1_000_000.0
    ensures t.Plain? <==> num < 1_000.0
  {
    if num >= 1_000_000_000.0 then Billions
    else if num >= 1_000_000.0 then Millions
    else if num >= 1_000.0 then Thousands
    else Plain
  }

  /** The number shown in a given tier, rounded to the tier's last printed digit. */
  function Render(t: Tier, num: real): (s: Display)
    ensures s.tier == t
    ensures num / Unit(t) - 0.5 <= s.shown as real <= num / Unit(t) + 0.5
  {
    Display(t, Round(num / Unit(t)))
  }

  /** `format_number` as written: the tier is chosen on the unrounded number. */
  function FormatNumber(num: real): (s: Display)
    ensures s.tier == TierOf(num)
    ensures num / Unit(s.tier) - 0.5 <= s.shown as real <= num / Unit(s.tier) + 0.5
  {
    Render(TierOf(num), num)
  }

  /** In each suffixed tier the scaled value (number over divisor) lies in [1, 1000), except that billions are unbounded above. */
  lemma ScaledValueInRange(num: real)
    ensures var t := TierOf(num);
      && (!t.Plain? ==> 1.0 <= num / Divisor(t))
      && (t.Thousands? || t.Millions? ==> num / Divisor(t) < 1_000.0)
      && num == num / Divisor(t) * Divisor(t)
  {
  }

  /** Below 1000 and only there: no suffix and no decimals; elsewhere one decimal, so a shown unit is a tenth of the divisor. */
  lemma SuffixAndDecimalsFollowTier(num: real)
    ensures var t := TierOf(num);
      && (Suffix(t) == [] <==> num < 1_000.0)
      && (Decimals(t) == 0 <==> num < 1_000.0)
      && Unit(t) * (if Decimals(t) == 0 then 1.0 else 10.0) == Divisor(t)
  {
  }

  /** The smallest shown value that no longer fits the tier: 1000.0 for suffixed tiers, 1000 for the plain one. */
  function Limit(t: Tier): int {
    if t.Plain? then 1_000 else 10_000
  }

  function Next(t: Tier): Tier
    requires !t.Billions?
  {
    match t
    case Plain => Thousands
    case Thousands => Millions
    case Millions => Billions
  }

  /**
   * As written, the rounding that printing performs can carry the mantissa to
   * 1000 inside a tier: 999 990 is shown as "1000.0K" instead of "1.0M", and
   * 999.5 as "1,000" instead of "1.0K".
   */
  lemma FormatNumberMantissaOverflows()
    ensures FormatNumber(999_990.0) == Display(Thousands, 10_000)
    ensures FormatNumber(999.5) == Display(Plain, 1_000)
    ensures FormatNumber(999_990.0).shown >= Limit(Thousands)
  {
    RoundUnique(9999.9, 10_000);
    RoundUnique(999.5, 1_000);
  }

  /**
   * When the mantissa printed as written reaches the tier's limit, the number
   * lies just below the next threshold, and one tier up it shows as exactly 1.0.
   */
  lemma PromotionShowsOne(num: real)
    requires !FormatNumber(num).tier.Billions?
    requires FormatNumber(num).shown >= Limit(FormatNumber(num).tier)
    ensures Render(Next(FormatNumber(num).tier), num).shown == 10
  {
    match TierOf(num)
    case Plain =>
      assert 999.5 <= num < 1_000.0;
      assert Unit(Thousands) == 100.0;
      RoundUnique(num / 100.0, 10);
    case Thousands =>
      assert 999_950.0 <= num < 1_000_000.0;
      assert Unit(Millions) == 100_000.0;
      RoundUnique(num / 100_000.0, 10);
    case Millions =>
      assert 999_950_000.0 <= num < 1_000_000_000.0;
      assert Unit(Billions) == 100_000_000.0;
      RoundUnique(num / 100_000_000.0, 10);
  }

  /** The evidently intended rendering: when the shown mantissa reaches 1000, move up one tier. */
  function FormatCompact(num: real): (s: Display)
    ensures !s.tier.Plain? ==> 10 <= s.shown
    ensures s.tier.Plain? ==> s.shown < 1_000
    ensures s.tier.Thousands? || s.tier.Millions? ==> s.shown < 10_000
    ensures 0.0 <= num ==> 0 <= s.shown
    ensures var w := FormatNumber(num); (w.tier.Billions? || w.shown < Limit(w.tier)) ==> s == w
    ensures num / Unit(s.tier) - 0.5 <= s.shown as real <= num / Unit(s.tier) + 0.5
    ensures s.tier == TierOf(num) || (!TierOf(num).Billions? && s.tier == Next(TierOf(num)) && s.shown == 10)
  {
    var s := FormatNumber(num);
    if s.tier.Billions? || s.shown < Limit(s.tier) then s
    else PromotionShowsOne(num); Render(Next(s.tier), num)
  }

  /** The corrected rendering shows 999 990 as "1.0M" and 999.5 as "1.0K". */
  lemma FormatCompactPromotes()
    ensures FormatCompact(999_990.0) == Display(Millions, 10)
    ensures FormatCompact(999.5) == Display(Thousands, 10)
  {
    RoundUnique(9999.9, 10_000);
    RoundUnique(999.5, 1_000);
  }

  /** On 999, 1500, 2 300 000 and 4 000 000 000 the corrected rendering agrees with the original. */
  lemma FormatCompactAgrees()
    ensures FormatCompact(999.0) == FormatNumber(999.0) == Display(Plain, 999)
    ensures FormatCompact(1_500.0) == FormatNumber(1_500.0) == Display(Thousands, 15)
    ensures FormatCompact(2_300_000.0) == FormatNumber(2_300_000.0) == Display(Millions, 23)
    ensures FormatCompact(4_000_000_000.0) == FormatNumber(4_000_000_000.0) == Display(Billions, 40)
  {
    RoundOfInteger(999);
    RoundOfInteger(15);
    RoundOfInteger(23);
    RoundOfInteger(40);
  }
}

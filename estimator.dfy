/**
 * The BMR/TDEE estimator (app.js:36-51, 60-69, 192-247, 258-275): the
 * Mifflin-St Jeor basal rate from clamped body metrics, scaled by an
 * activity factor, four targets for four weight-loss paces and a warning
 * when the fastest pace drops below a safety floor.
 */
module Estimator {
  import opened Wrappers
  import opened Numeric
  import opened Text

  datatype Sex = Male | Female

  const AGE_MIN: real := 14.0
  const AGE_MAX: real := 90.0
  const HEIGHT_MIN: real := 120.0
  const HEIGHT_MAX: real := 220.0
  const WEIGHT_MIN: real := 35.0
  const WEIGHT_MAX: real := 250.0

  const SLOW_DEFICIT: real := 550.0
  const MODERATE_DEFICIT: real := 825.0
  const RAPID_DEFICIT: real := 1100.0

  /** `bmrMifflin`: basal metabolic rate in kcal/day from kilograms, centimetres and years. */
  function Bmr(sex: Sex, kg: real, cm: real, age: real): (r: real)
    ensures WEIGHT_MIN <= kg <= WEIGHT_MAX && HEIGHT_MIN <= cm <= HEIGHT_MAX && AGE_MIN <= age <= AGE_MAX
            ==> r >= 489.0
  {
    match sex
    case Male => 10.0 * kg + 6.25 * cm - 5.0 * age + 5.0
    case Female => 10.0 * kg + 6.25 * cm - 5.0 * age - 161.0
  }

  /** `ACTIVITY_FACTORS[act] || 1.2`: any name outside the table counts as sedentary. */
  function ActivityFactor(act: string): (f: real)
    ensures 1.2 <= f <= 1.9
    ensures act !in {"sedentary", "light", "moderate", "very", "extra"} ==> f == 1.2
  {
    if act == "sedentary" then 1.2
    else if act == "light" then 1.375
    else if act == "moderate" then 1.55
    else if act == "very" then 1.725
    else if act == "extra" then 1.9
    else 1.2
  }

  /** The lowest daily intake considered safe, before the BMR is taken into account. */
  function SexFloor(sex: Sex): (f: int)
    ensures f == 1500 || f == 1200
    ensures f == 1500 <==> sex == Male
  {
    match sex
    case Male => 1500
    case Female => 1200
  }

  datatype Targets = Targets(maintain: int, slow: int, moderate: int, rapid: int)

  /** What `computeTDEE` returns: rounded BMR and TDEE, the targets and the safe minimum. */
  datatype Estimate = Estimate(bmr: int, tdee: int, targets: Targets, minSafe: int)

  /**
   * Everything one `computeTDEE` call produces: the four targets it shows,
   * whether the rapid-pace warning is visible, and its return value (`None`
   * for `undefined`, when some input is not a finite number).
   */
  datatype TdeeView = TdeeView(shown: Targets, warn: bool, result: Option<Estimate>)

  /**
   * `readNum` on a field whose text is `raw`; `number` is what `Number`
   * gives for the trimmed text, `None` when that is not finite.
   */
  function ReadNum(raw: string, number: Option<real>): (r: Option<real>)
    ensures IsPartial(Trim(raw)) ==> r.None?
    ensures !IsPartial(Trim(raw)) ==> r == number
  {
    if IsPartial(Trim(raw)) then None else number
  }

  /** `tdee`: the basal rate scaled by the factor of the activity selected (an empty selection is sedentary). */
  function Tdee(bmr: real, activity: string): (r: real)
    ensures bmr > 0.0 ==> bmr * 1.2 <= r <= bmr * 1.9
    ensures activity == "" ==> r == bmr * 1.2
  {
    var f := ActivityFactor(if activity == "" then "sedentary" else activity);
    FactorScales(bmr, f);
    bmr * f
  }

  /** The four `targets`: each pace's deficit taken off the expenditure, floored at 0 and rounded. */
  function PaceTargets(tdee: real): (t: Targets)
    requires tdee >= 0.0
    ensures RoundsTo(t.maintain, tdee)
    ensures RoundsTo(t.slow, Max(0.0, tdee - SLOW_DEFICIT))
    ensures RoundsTo(t.moderate, Max(0.0, tdee - MODERATE_DEFICIT))
    ensures RoundsTo(t.rapid, Max(0.0, tdee - RAPID_DEFICIT))
    ensures t.maintain >= t.slow >= t.moderate >= t.rapid >= 0
  {
    RoundMonotone(Max(0.0, tdee - SLOW_DEFICIT), tdee);
    RoundMonotone(Max(0.0, tdee - MODERATE_DEFICIT), Max(0.0, tdee - SLOW_DEFICIT));
    RoundMonotone(Max(0.0, tdee - RAPID_DEFICIT), Max(0.0, tdee - MODERATE_DEFICIT));
    RoundMonotone(0.0, Max(0.0, tdee - RAPID_DEFICIT));
    Targets(Round(tdee), Round(Max(0.0, tdee - SLOW_DEFICIT)),
            Round(Max(0.0, tdee - MODERATE_DEFICIT)), Round(Max(0.0, tdee - RAPID_DEFICIT)))
  }

  /** `minSafe`: the rounded basal rate or the floor for the sex, whichever is larger. */
  function MinSafe(sex: Sex, bmr: int): (m: int)
    ensures m >= SexFloor(sex) && m >= bmr
    ensures m == SexFloor(sex) || m == bmr
  {
    if bmr >= SexFloor(sex) then bmr else SexFloor(sex)
  }

  /** What `computeTDEE` shows and returns once the three metrics are finite and clamped. */
  function Estimated(sex: Sex, age: real, height: real, weight: real, activity: string): (v: TdeeView)
    requires WEIGHT_MIN <= weight <= WEIGHT_MAX && HEIGHT_MIN <= height <= HEIGHT_MAX && AGE_MIN <= age <= AGE_MAX
    ensures v.result.Some?
    ensures var e := v.result.value;
      && v.shown == e.targets
      && (v.warn <==> e.targets.rapid < e.minSafe)
      && RoundsTo(e.bmr, Bmr(sex, weight, height, age)) && e.bmr > 0
      && RoundsTo(e.tdee, Tdee(Bmr(sex, weight, height, age), activity)) && e.tdee > 0
      && e.targets == PaceTargets(Tdee(Bmr(sex, weight, height, age), activity))
      && e.minSafe == MinSafe(sex, e.bmr)
      && e.minSafe >= SexFloor(sex) && e.minSafe >= e.bmr
  {
    var bmr := Bmr(sex, weight, height, age);
    var tdee := Tdee(bmr, activity);
    var targets := PaceTargets(tdee);
    var minSafe := MinSafe(sex, Round(bmr));
    TdeeView(targets, targets.rapid < minSafe, Some(Estimate(Round(bmr), Round(tdee), targets, minSafe)))
  }

  /**
   * `computeTDEE` for the sex chosen, the three field readings and the
   * activity selected: zeros and no warning unless all three readings are
   * finite, and otherwise the estimate for the readings clamped into range.
   */
  function ComputeTdee(sex: Sex, age: Option<real>, height: Option<real>, weight: Option<real>, activity: string): (v: TdeeView)
    ensures v.result.None? <==> (age.None? || height.None? || weight.None?)
    ensures v.result.None? ==> v.shown == Targets(0, 0, 0, 0) && !v.warn
    ensures v.result.Some? ==>
      v == Estimated(sex, Clamp(age.value, AGE_MIN, AGE_MAX), Clamp(height.value, HEIGHT_MIN, HEIGHT_MAX),
                     Clamp(weight.value, WEIGHT_MIN, WEIGHT_MAX), activity)
    ensures v.result.Some? && AGE_MIN <= age.value <= AGE_MAX && HEIGHT_MIN <= height.value <= HEIGHT_MAX
            && WEIGHT_MIN <= weight.value <= WEIGHT_MAX ==>
      v == Estimated(sex, age.value, height.value, weight.value, activity)
  {
    if age.None? || height.None? || weight.None? then
      TdeeView(Targets(0, 0, 0, 0), false, None)
    else
      Estimated(sex, Clamp(age.value, AGE_MIN, AGE_MAX), Clamp(height.value, HEIGHT_MIN, HEIGHT_MAX),
                Clamp(weight.value, WEIGHT_MIN, WEIGHT_MAX), activity)
  }

  /** `bmrMifflin` for a man is 166 kcal above a woman's with the same metrics. */
  lemma BmrSexGap(kg: real, cm: real, age: real)
    ensures Bmr(Male, kg, cm, age) - Bmr(Female, kg, cm, age) == 166.0
  {
  }

  /** A positive rate scaled by a factor in [1.2, 1.9] lies between 1.2 and 1.9 times the rate. */
  lemma FactorScales(x: real, f: real)
    ensures x > 0.0 && 1.2 <= f <= 1.9 ==> x * 1.2 <= x * f <= x * 1.9
  {
    if x > 0.0 && 1.2 <= f <= 1.9 {
      assert x * f - x * 1.2 == x * (f - 1.2);
      assert x * 1.9 - x * f == x * (1.9 - f);
    }
  }

  /**
   * Text still being typed (`isPartial`) in any one of the three fields makes
   * the estimate show zero targets, hide the warning and return nothing.
   */
  lemma PartialShowsZero(sex: Sex, raw: string, number: Option<real>,
                         age: Option<real>, height: Option<real>, weight: Option<real>, activity: string)
    requires IsPartial(Trim(raw))
    ensures var r := ReadNum(raw, number);
            var zero := TdeeView(Targets(0, 0, 0, 0), false, None);
            && ComputeTdee(sex, r, height, weight, activity) == zero
            && ComputeTdee(sex, age, r, weight, activity) == zero
            && ComputeTdee(sex, age, height, r, activity) == zero
  {
  }

  /** An empty activity selection and an unknown one both use the sedentary factor 1.2. */
  lemma UnknownActivityIsSedentary(bmr: real, activity: string)
    requires activity !in {"sedentary", "light", "moderate", "very", "extra"}
    ensures Tdee(bmr, activity) == Tdee(bmr, "sedentary") == bmr * 1.2
  {
  }

  /**
   * `clampOnBlur(el, lo, hi, integer)`: the value written back into the
   * field when it loses focus, `None` when it holds no finite number and is
   * left as it is.
   */
  function ClampOnBlur(reading: Option<real>, lo: real, hi: real, integer: bool): (r: Option<real>)
    ensures r.Some? <==> reading.Some?
    ensures r.Some? && !integer && lo <= hi ==> lo <= r.value <= hi
    ensures r.Some? && !integer && lo <= reading.value <= hi ==> r == reading
    ensures r.Some? && integer ==> r.value.Floor as real == r.value
    ensures r.Some? && integer && lo.Floor as real == lo && hi.Floor as real == hi && lo <= hi ==> lo <= r.value <= hi
    ensures r.Some? && !integer ==> r.value == Clamp(reading.value, lo, hi)
    ensures r.Some? && integer ==> RoundsTo(r.value.Floor, Clamp(reading.value, lo, hi))
  {
    match reading
    case None => None
    case Some(x) =>
      var v := Clamp(x, lo, hi);
      if !integer then Some(v)
      else
        // With whole-number bounds the rounded value stays in range.
        assert lo.Floor as real == lo && hi.Floor as real == hi && lo <= hi ==> lo.Floor <= Round(v) <= hi.Floor by {
          if lo.Floor as real == lo && hi.Floor as real == hi && lo <= hi {
            RoundWithin(v, lo.Floor, hi.Floor);
          }
        }
        Some(Round(v) as real)
  }

  /** The three numeric fields of the form. */
  datatype Metric = Age | Height | Weight

  /**
   * The estimator form. Each numeric field is represented by what `readNum`
   * gives for its text: `None` while it is blank, partial or not a number.
   */
  class MetricsForm {
    var sex: Sex
    var age: Option<real>
    var height: Option<real>
    var weight: Option<real>
    var activity: string

    constructor (sex: Sex, age: Option<real>, height: Option<real>, weight: Option<real>, activity: string)
      ensures this.sex == sex && this.age == age && this.height == height && this.weight == weight
      ensures this.activity == activity
    {
      this.sex := sex;
      this.age := age;
      this.height := height;
      this.weight := weight;
      this.activity := activity;
    }

    /** What `computeTDEE` shows for the form as it stands. */
    function View(): (v: TdeeView)
      reads this
      ensures v.result.None? <==> (age.None? || height.None? || weight.None?)
    {
      ComputeTdee(sex, age, height, weight, activity)
    }

    /** An 'input' event: the field's new reading, then `computeTDEE`, with nothing written back. */
    method Input(m: Metric, reading: Option<real>) returns (v: TdeeView)
      modifies this
      ensures age == (if m == Age then reading else old(age))
      ensures height == (if m == Height then reading else old(height))
      ensures weight == (if m == Weight then reading else old(weight))
      ensures sex == old(sex) && activity == old(activity)
      ensures v == View()
    {
      match m {
        case Age => age := reading;
        case Height => height := reading;
        case Weight => weight := reading;
      }
      v := View();
    }

    /**
     * A 'blur' event as bound in `initTDEE`: age is clamped to [14, 90] and
     * rounded, height to [120, 220], weight to [35, 250]; the estimate is
     * recomputed only when a value was written back.
     */
    method Blur(m: Metric) returns (v: Option<TdeeView>)
      modifies this
      ensures age == (if m == Age then ClampOnBlur(old(age), AGE_MIN, AGE_MAX, true) else old(age))
      ensures height == (if m == Height then ClampOnBlur(old(height), HEIGHT_MIN, HEIGHT_MAX, false) else old(height))
      ensures weight == (if m == Weight then ClampOnBlur(old(weight), WEIGHT_MIN, WEIGHT_MAX, false) else old(weight))
      ensures sex == old(sex) && activity == old(activity)
      ensures v == if (match m case Age => old(age) case Height => old(height) case Weight => old(weight)).None?
                   then None else Some(View())
    {
      match m {
        case Age =>
          if age.None? { return None; }
          age := ClampOnBlur(age, AGE_MIN, AGE_MAX, true);
        case Height =>
          if height.None? { return None; }
          height := ClampOnBlur(height, HEIGHT_MIN, HEIGHT_MAX, false);
        case Weight =>
          if weight.None? { return None; }
          weight := ClampOnBlur(weight, WEIGHT_MIN, WEIGHT_MAX, false);
      }
      v := Some(View());
    }
  }

  /** After a blur the age field holds a whole number of years within [14, 90]. */
  lemma BlurAgeInRange(reading: Option<real>)
    requires reading.Some?
    ensures var r := ClampOnBlur(reading, AGE_MIN, AGE_MAX, true);
            r.Some? && AGE_MIN <= r.value <= AGE_MAX && r.value.Floor as real == r.value
  {
  }

  /** Blurring the height or weight field rewrites it but leaves the estimate as it was. */
  lemma BlurHeightWeightKeepsEstimate(sex: Sex, age: Option<real>, height: Option<real>, weight: Option<real>, activity: string)
    ensures ComputeTdee(sex, age, ClampOnBlur(height, HEIGHT_MIN, HEIGHT_MAX, false), weight, activity)
         == ComputeTdee(sex, age, height, weight, activity)
    ensures ComputeTdee(sex, age, height, ClampOnBlur(weight, WEIGHT_MIN, WEIGHT_MAX, false), activity)
         == ComputeTdee(sex, age, height, weight, activity)
  {
  }

  /** A woman of 30, 165 cm and 60 kg, sedentary: BMR 1320, TDEE 1584, rapid 484 kcal, which is flagged. */
  lemma ScenarioSedentaryWoman()
    ensures ComputeTdee(Female, Some(30.0), Some(165.0), Some(60.0), "sedentary")
         == TdeeView(Targets(1584, 1034, 759, 484), true,
                     Some(Estimate(1320, 1584, Targets(1584, 1034, 759, 484), 1320)))
  {
  }
}

/** The BMI panel of the two profile pages, client/src/pages/Profile.jsx and
    src/pages/Profile.jsx: the category of a BMI value, the width of the gauge bar, and the
    colour class of the older page's bar. The BMI arrives as a real number; the
    division and the `toFixed(1)` string it is computed through are not modelled. */
module Bmi {
  datatype Category = Underweight | Healthy | Overweight | Obesity

  /** `getBmiCategory`, the same in both pages. */
  function CategoryOf(bmi: real): (c: Category)
    ensures c == Underweight <==> bmi < 18.5
    ensures c == Healthy <==> 18.5 <= bmi < 24.9
    ensures c == Overweight <==> 24.9 <= bmi < 30.0
    ensures c == Obesity <==> 30.0 <= bmi
  {
    if bmi < 18.5 then Underweight
    else if bmi < 24.9 then Healthy
    else if bmi < 30.0 then Overweight
    else Obesity
  }

  /** The label the page prints for a category. */
  function Label(c: Category): string {
    match c
    case Underweight => "Underweight"
    case Healthy => "Healthy"
    case Overweight => "Overweight"
    case Obesity => "Obesity"
  }

  /** The position of a category on the scale. */
  function Rank(c: Category): (n: nat)
    ensures n < 4
  {
    match c
    case Underweight => 0
    case Healthy => 1
    case Overweight => 2
    case Obesity => 3
  }

  /** A larger BMI never falls in an earlier category. */
  lemma CategoryMonotone(a: real, b: real)
    requires a <= b
    ensures Rank(CategoryOf(a)) <= Rank(CategoryOf(b))
  {
  }

  function Min(x: real, y: real): real { if x <= y then x else y }
  function Max(x: real, y: real): real { if x >= y then x else y }

  /** `Math.min(Math.max((bmi - 15) / 30 * 100, 0), 100)`, in percent. */
  function BarWidth(bmi: real): (w: real)
    ensures 0.0 <= w <= 100.0
    ensures bmi <= 15.0 ==> w == 0.0
    ensures bmi >= 45.0 ==> w == 100.0
    ensures 15.0 <= bmi <= 45.0 ==> w == (bmi - 15.0) / 30.0 * 100.0
  {
    Min(Max((bmi - 15.0) / 30.0 * 100.0, 0.0), 100.0)
  }

  /** The bar grows with the BMI. */
  lemma BarWidthMonotone(a: real, b: real)
    requires a <= b
    ensures BarWidth(a) <= BarWidth(b)
  {
    assert (a - 15.0) / 30.0 * 100.0 <= (b - 15.0) / 30.0 * 100.0;
  }

  /** The colour class of the older page's bar, chosen by its own chain of comparisons. */
  function BarClass(bmi: real): string {
    if bmi < 18.5 then "bg-red-400 w-[18%]"
    else if bmi < 24.9 then "bg-green-500 w-[32%] left-[18%]"
    else if bmi < 30.0 then "bg-yellow-400 w-[20%] left-[50%]"
    else "bg-red-500 w-[30%] left-[70%]"
  }

  /** One colour class per category. */
  function CategoryClass(c: Category): string {
    match c
    case Underweight => "bg-red-400 w-[18%]"
    case Healthy => "bg-green-500 w-[32%] left-[18%]"
    case Overweight => "bg-yellow-400 w-[20%] left-[50%]"
    case Obesity => "bg-red-500 w-[30%] left-[70%]"
  }

  /** The bar's colour and the printed category always agree, and different categories
      never share a colour. */
  lemma ColourAgreesWithCategory(bmi: real, other: real)
    ensures BarClass(bmi) == CategoryClass(CategoryOf(bmi))
    ensures BarClass(bmi) == BarClass(other) <==> CategoryOf(bmi) == CategoryOf(other)
  {
  }

  /** The initial 76 kg and 182 cm: the BMI lies in the Healthy band, and so does every
      value within the 0.05 that rounding to one decimal can move it. */
  lemma InitialIsHealthy(shown: real)
    requires -0.05 <= shown - 76.0 / (1.82 * 1.82) <= 0.05
    ensures CategoryOf(76.0 / (1.82 * 1.82)) == Healthy
    ensures CategoryOf(shown) == Healthy
  {
    var bmi := 76.0 / (1.82 * 1.82);
    assert 1.82 * 1.82 == 3.3124;
    assert 22.9 * 3.3124 < 76.0 < 23.0 * 3.3124;
    assert 22.9 < bmi < 23.0;
  }
}

/**
  The Early Wage Access slider screen: the 2.6% fee, the next-payday rule,
  the initial selection and the slider's bounds, and the confirm handler.
  Amounts are whole pesos.
*/
module EwaSlider {
  import opened Calendar

  /** The slider's declared lower bound (`min="100"`). */
  const SliderMin: int := 100

  /** The slider's declared step (`step="50"`). */
  const SliderStep: int := 50

  /**
    The values the range input offers for a given maximum: from the minimum up
    to the maximum, in steps of 50 from the minimum. A range input whose
    maximum lies below its minimum uses the minimum as its maximum.
  */
  function OnSliderGrid(value: int, maxAccess: int): (r: bool)
    ensures maxAccess >= SliderMin ==> (r <==> SliderMin <= value <= maxAccess && value % SliderStep == 0)
    ensures maxAccess < SliderMin ==> (r <==> value == SliderMin)
  {
    var top := if maxAccess < SliderMin then SliderMin else maxAccess;
    SliderMin <= value <= top && (value - SliderMin) % SliderStep == 0
  }

  /** The initial selection `Math.floor(maxAccess / 2)`. */
  function InitialSelection(maxAccess: int): (r: int)
    ensures 2 * r <= maxAccess < 2 * r + 2
  {
    maxAccess / 2
  }

  /** The initial selection is half the maximum, and it is neither clamped to the slider's minimum nor snapped to its grid. */
  lemma InitialSelectionNotClamped()
    ensures InitialSelection(2500) == 1250 && OnSliderGrid(1250, 2500)
    ensures InitialSelection(150) == 75 && !OnSliderGrid(InitialSelection(150), 150)
    ensures InitialSelection(2450) == 1225 && !OnSliderGrid(InitialSelection(2450), 2450)
  {
  }

  /**
    `Math.round(amount * 0.026)` computed exactly: 26 * amount / 1000 rounded
    to the nearest peso, halves rounded up.
  */
  function Fee(amount: int): (fee: int)
    ensures -500 < 1000 * fee - 26 * amount <= 500
    ensures amount >= 0 ==> 0 <= fee <= amount
  {
    (26 * amount + 500) / 1000
  }

  /** The fee is the only whole number within half a peso of 2.6% of the amount (ties going up). */
  lemma FeeIsNearestPeso(amount: int, f: int)
    requires -500 < 1000 * f - 26 * amount <= 500
    ensures f == Fee(amount)
  {
  }

  /** A larger amount never has a smaller fee. */
  lemma FeeMonotone(a: int, b: int)
    requires a <= b
    ensures Fee(a) <= Fee(b)
  {
    assert 1000 * Fee(a) < 26 * a + 500 + 1000;
    assert 26 * b - 500 < 1000 * Fee(b);
  }

  /** The worked example of the help text: withdrawing 2,000 pesos costs 52; 250 pesos sits on a half-peso tie and rounds up to 7. */
  lemma FeeExamples()
    ensures Fee(2000) == 52
    ensures Fee(2500) == 65
    ensures Fee(250) == 7
  {
  }

  /**
    The next payday: the 15th of this month before the 15th, else "the 30th"
    of this month before the 30th, else the 15th of next month, each built
    with the `Date` constructor.
  */
  function NextPayday(today: Date): (payday: Date)
    requires Valid(today)
    ensures Valid(payday)
    ensures Before(today, payday)
  {
    if today.day < 15 then NewDate(today.year, today.month, 15)
    else if today.day < 30 then NewDate(today.year, today.month, 30)
    else NewDate(today.year, today.month + 1, 15)
  }

  /** On the 15th the payday is the 30th (when the month has one); on the 30th or 31st it is the 15th of the next month. */
  lemma PaydayOnBoundaries(today: Date)
    requires Valid(today) && today.year >= 100
    ensures today.day == 15 && DaysInMonth(today.year, today.month) >= 30 ==>
      NextPayday(today) == Date(today.year, today.month, 30)
    ensures today.day >= 30 && today.month < 11 ==>
      NextPayday(today) == Date(today.year, today.month + 1, 15)
    ensures today.day >= 30 && today.month == 11 ==>
      NextPayday(today) == Date(today.year + 1, 0, 15)
  {
  }

  /** The slider screen's state: the amount currently selected. */
  class SliderScreen {
    const earnedAmount: int
    const maxAccess: int
    var selectedAmount: int

    constructor (earnedAmount: int, maxAccess: int)
      ensures this.earnedAmount == earnedAmount && this.maxAccess == maxAccess
      ensures selectedAmount == InitialSelection(maxAccess)
    {
      this.earnedAmount := earnedAmount;
      this.maxAccess := maxAccess;
      selectedAmount := maxAccess / 2;
    }

    /** The fee shown for the current selection. */
    function CurrentFee(): (fee: int)
      reads this
      ensures -500 < 1000 * fee - 26 * selectedAmount <= 500
    {
      Fee(selectedAmount)
    }

    /** `handleSliderChange`: the slider's value becomes the selection. */
    method HandleSliderChange(value: int)
      modifies this
      ensures selectedAmount == value
    {
      selectedAmount := value;
    }

    /** `handleConfirm`: hands over the selected amount and the fee of that same amount. */
    method HandleConfirm() returns (amount: int, fee: int)
      ensures amount == selectedAmount
      ensures fee == Fee(amount)
    {
      amount := selectedAmount;
      fee := CurrentFee();
    }
  }
}

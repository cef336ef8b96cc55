/**
  The cashout success screen: it shows the amount received and the payday on
  which the advance settles, computed by its own copy of the payday rule.
*/
module CashoutSuccess {
  import opened Calendar
  import EwaSlider

  /** This screen's copy of the next-payday rule. */
  function NextPayday(today: Date): (payday: Date)
    requires Valid(today)
    ensures Valid(payday)
    ensures Before(today, payday)
  {
    if today.day < 15 then NewDate(today.year, today.month, 15)
    else if today.day < 30 then NewDate(today.year, today.month, 30)
    else NewDate(today.year, today.month + 1, 15)
  }

  /** Before the 15th: the 15th of the current month. */
  lemma PaydayEarlyMonth(today: Date)
    requires Valid(today) && today.day < 15
    ensures NextPayday(today) == Date(FullYear(today.year), today.month, 15)
  {
  }

  /**
    From the 15th to the 29th: "the 30th" of the current month, which the
    `Date` constructor carries into March 1 (leap year) or March 2 in February.
  */
  lemma PaydayMidMonth(today: Date)
    requires Valid(today) && 15 <= today.day < 30
    ensures today.month != 1 ==> NextPayday(today) == Date(FullYear(today.year), today.month, 30)
    ensures today.month == 1 ==>
      NextPayday(today) == Date(FullYear(today.year), 2, if IsLeapYear(FullYear(today.year)) then 1 else 2)
  {
    if today.month == 1 {
      NewDateFebruaryThirtieth(today.year);
    }
  }

  /** On the 30th or 31st: the 15th of the next month, December rolling into January of the next year. */
  lemma PaydayEndOfMonth(today: Date)
    requires Valid(today) && today.day >= 30
    ensures today.month < 11 ==> NextPayday(today) == Date(FullYear(today.year), today.month + 1, 15)
    ensures today.month == 11 ==> NextPayday(today) == Date(FullYear(today.year) + 1, 0, 15)
  {
  }

  /** The two screens announce the same payday for every date. */
  lemma PaydayCopiesAgree(today: Date)
    requires Valid(today)
    ensures NextPayday(today) == EwaSlider.NextPayday(today)
  {
  }

  /** What the success screen displays. */
  datatype SuccessView = SuccessView(shownAmount: int, settlesOn: Date)

  /** The screen for a cashout of `amount` seen on `today`. */
  function Render(amount: int, today: Date): (v: SuccessView)
    requires Valid(today)
    ensures v.shownAmount == amount
    ensures Valid(v.settlesOn) && Before(today, v.settlesOn)
  {
    SuccessView(amount, NextPayday(today))
  }

  /** The amount shown is the amount received, not the amount net of the fee. */
  lemma ShownAmountIsGross(amount: int, today: Date)
    requires Valid(today) && amount >= 20
    ensures Render(amount, today).shownAmount != amount - EwaSlider.Fee(amount)
  {
  }
}

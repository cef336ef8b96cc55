/**
  The employee screen: the dashboard, the early-wage-access slider and the
  success screen, the employee data loaded from the backend, and the order in
  which the render picks what to show. The employee-data request is an
  outstanding completion that arrives as an event; the mount effect starts
  one, and going back from the success screen starts another.
*/
module EmployeeView {
  import opened Wrappers
  import EwaSlider

  /** `ScreenState`. */
  datatype Screen = Dashboard | Slider | Success

  /** The fields of the employee record the screen flow uses. */
  datatype EmployeeData = EmployeeData(name: string, earnedThisPeriod: int, availableForWithdrawal: int)

  /**
    The component's state. `pendingFetches` counts the employee-data
    requests started and not yet settled.
  */
  datatype ViewState = ViewState(screen: Screen, cashoutAmount: int, data: Option<EmployeeData>, loading: bool, pendingFetches: nat)

  /** How an employee-data request ended: a parsed body whose `employee` field may be missing, or a failure. */
  datatype FetchOutcome = Responded(employee: Option<EmployeeData>) | Failed

  /** What the render returns. */
  datatype View =
    | SliderView(earnedAmount: int, maxAccess: int)
    | SuccessView(amount: int)
    | LoadingView
    | ErrorView
    | DashboardView(employee: EmployeeData)

  /** The render: the slider only with data, then the success screen, then the spinner, the error text, and the dashboard. */
  function Render(s: ViewState): (v: View)
    ensures v.SuccessView? <==> s.screen == Success
    ensures v.LoadingView? <==> s.screen != Success && s.loading && !(s.screen == Slider && s.data.Some?)
    ensures v.ErrorView? <==> s.screen != Success && !s.loading && s.data.None?
  {
    if s.screen == Slider && s.data.Some? then SliderView(s.data.value.earnedThisPeriod, s.data.value.availableForWithdrawal)
    else if s.screen == Success then SuccessView(s.cashoutAmount)
    else if s.loading then LoadingView
    else if s.data.None? then ErrorView
    else DashboardView(s.data.value)
  }

  /** The state when the component mounts, with the mount effect's request outstanding. */
  function Initial(): (s: ViewState)
    ensures s.screen == Dashboard && s.cashoutAmount == 0 && s.data == None && s.loading
    ensures s.pendingFetches == 1
  {
    ViewState(Dashboard, 0, None, true, 1)
  }

  datatype Event =
    | AccessEarnings                        // the dashboard's "Access My Earnings"
    | ConfirmCashout(amount: int, fee: int) // the slider's confirm
    | BackFromSlider                        // the slider's back button
    | BackToDashboard                       // the success screen's button
    | FetchSettled(outcome: FetchOutcome)   // an employee-data request settles

  /** When an event can happen: each button needs its view on screen, and a settlement needs an outstanding request. */
  predicate Enabled(s: ViewState, e: Event) {
    match e
    case AccessEarnings => Render(s).DashboardView?
    case ConfirmCashout(_, _) => Render(s).SliderView?
    case BackFromSlider => Render(s).SliderView?
    case BackToDashboard => Render(s).SuccessView?
    case FetchSettled(_) => s.pendingFetches > 0
  }

  /** The state after one event. */
  function Step(s: ViewState, e: Event): (t: ViewState)
    requires Enabled(s, e)
    ensures !e.FetchSettled? ==> t.data == s.data && t.loading == s.loading
    ensures e.FetchSettled? ==> !t.loading && t.screen == s.screen && t.cashoutAmount == s.cashoutAmount
    ensures t.cashoutAmount != s.cashoutAmount ==> e.ConfirmCashout?
    ensures t.pendingFetches > s.pendingFetches <==> e.BackToDashboard?
  {
    match e
    case AccessEarnings => s.(screen := Slider)
    case ConfirmCashout(amount, _) => s.(cashoutAmount := amount, screen := Success)
    case BackFromSlider => s.(screen := Dashboard)
    case BackToDashboard => s.(screen := Dashboard, pendingFetches := s.pendingFetches + 1)
    case FetchSettled(Responded(employee)) => s.(data := employee, loading := false, pendingFetches := s.pendingFetches - 1)
    case FetchSettled(Failed) => s.(loading := false, pendingFetches := s.pendingFetches - 1)
  }

  /** The loading flag is set only while a request is outstanding. */
  predicate Inv(s: ViewState) {
    s.loading ==> s.pendingFetches > 0
  }

  lemma InitialInv()
    ensures Inv(Initial())
  {
  }

  /** Every event keeps the invariant. */
  lemma StepPreservesInv(s: ViewState, e: Event)
    requires Inv(s) && Enabled(s, e)
    ensures Inv(Step(s, e))
  {
  }

  /** The slider is shown exactly when the slider screen is selected and data is present, with the earned and available amounts. */
  lemma SliderNeedsData(s: ViewState)
    ensures Render(s).SliderView? <==> s.screen == Slider && s.data.Some?
    ensures Render(s).SliderView? ==>
      Render(s).earnedAmount == s.data.value.earnedThisPeriod && Render(s).maxAccess == s.data.value.availableForWithdrawal
  {
  }

  /** The slider screen without data falls through to the spinner or the error text, never to the dashboard. */
  lemma SliderWithoutDataFallsThrough(s: ViewState)
    requires s.screen == Slider && s.data.None?
    ensures Render(s) == (if s.loading then LoadingView else ErrorView)
  {
  }

  /** The success screen is shown whatever the data and the loading flag, with the recorded amount. */
  lemma SuccessRegardlessOfData(s: ViewState)
    requires s.screen == Success
    ensures Render(s) == SuccessView(s.cashoutAmount)
  {
  }

  /** The dashboard is shown only on the dashboard screen, after loading, with data present. */
  lemma DashboardNeedsData(s: ViewState)
    ensures Render(s).DashboardView? <==> s.screen == Dashboard && !s.loading && s.data.Some?
  {
  }

  /** "Access My Earnings" moves to the slider and changes nothing else. */
  lemma AccessEarningsOpensSlider(s: ViewState)
    requires Enabled(s, AccessEarnings)
    ensures Step(s, AccessEarnings) == s.(screen := Slider)
    ensures Render(Step(s, AccessEarnings)).SliderView?
  {
  }

  /** Confirming records the amount and shows the success screen with it; the fee is ignored. */
  lemma ConfirmIgnoresFee(s: ViewState, amount: int, fee1: int, fee2: int)
    requires Enabled(s, ConfirmCashout(amount, fee1))
    ensures Step(s, ConfirmCashout(amount, fee1)) == Step(s, ConfirmCashout(amount, fee2))
    ensures Render(Step(s, ConfirmCashout(amount, fee1))) == SuccessView(amount)
  {
  }

  /** The slider's confirm with its amount and fee puts the gross amount, not the amount net of the fee, on the success screen. */
  lemma SuccessShowsGrossAmount(s: ViewState, amount: int)
    requires Enabled(s, ConfirmCashout(amount, EwaSlider.Fee(amount))) && amount >= 20
    ensures Render(Step(s, ConfirmCashout(amount, EwaSlider.Fee(amount)))) == SuccessView(amount)
    ensures Render(Step(s, ConfirmCashout(amount, EwaSlider.Fee(amount)))).amount != amount - EwaSlider.Fee(amount)
  {
  }

  /** Both back actions return to the dashboard; only the one from the success screen starts a new request. */
  lemma BackActions(s: ViewState, t: ViewState)
    requires Enabled(s, BackFromSlider) && Enabled(t, BackToDashboard)
    ensures Step(s, BackFromSlider) == s.(screen := Dashboard)
    ensures Step(t, BackToDashboard) == t.(screen := Dashboard, pendingFetches := t.pendingFetches + 1)
  {
  }

  /** A settled request ends the loading state either way; a failure keeps the data shown before, a response replaces it. */
  lemma FetchEndsLoading(s: ViewState, outcome: FetchOutcome)
    requires Enabled(s, FetchSettled(outcome))
    ensures !Step(s, FetchSettled(outcome)).loading
    ensures Step(s, FetchSettled(outcome)).data == (if outcome.Responded? then outcome.employee else s.data)
    ensures Step(s, FetchSettled(outcome)).screen == s.screen
  {
  }

  /** The refetch after a cashout does not bring the spinner back: the loading flag is never set again once cleared. */
  lemma LoadingNeverReturns(s: ViewState, e: Event)
    requires Enabled(s, e) && !s.loading
    ensures !Step(s, e).loading
  {
  }

  /** The component's state held as fields, one method per handler. */
  class EmployeeScreen {
    var currentScreen: Screen
    var cashoutAmount: int
    var employeeData: Option<EmployeeData>
    var loading: bool
    var pendingFetches: nat

    function State(): ViewState
      reads this
    {
      ViewState(currentScreen, cashoutAmount, employeeData, loading, pendingFetches)
    }

    constructor ()
      ensures State() == Initial()
    {
      currentScreen := Dashboard;
      cashoutAmount := 0;
      employeeData := None;
      loading := true;
      pendingFetches := 1;
    }

    /** `handleAccessEarnings`. */
    method HandleAccessEarnings()
      requires Enabled(State(), AccessEarnings)
      modifies this
      ensures State() == Step(old(State()), AccessEarnings)
    {
      currentScreen := Slider;
    }

    /** `handleConfirmCashout`: the fee argument is not used. */
    method HandleConfirmCashout(amount: int, fee: int)
      requires Enabled(State(), ConfirmCashout(amount, fee))
      modifies this
      ensures State() == Step(old(State()), ConfirmCashout(amount, fee))
    {
      cashoutAmount := amount;
      currentScreen := Success;
    }

    /** `handleBackFromSlider`. */
    method HandleBackFromSlider()
      requires Enabled(State(), BackFromSlider)
      modifies this
      ensures State() == Step(old(State()), BackFromSlider)
    {
      currentScreen := Dashboard;
    }

    /** `handleBackToDashboard`: back to the dashboard, and a new request for the employee data. */
    method HandleBackToDashboard()
      requires Enabled(State(), BackToDashboard)
      modifies this
      ensures State() == Step(old(State()), BackToDashboard)
    {
      currentScreen := Dashboard;
      pendingFetches := pendingFetches + 1;
    }

    /** The rest of `fetchEmployeeData` once its request settles, including its `finally`. */
    method OnFetchSettled(outcome: FetchOutcome)
      requires Enabled(State(), FetchSettled(outcome))
      modifies this
      ensures State() == Step(old(State()), FetchSettled(outcome))
    {
      if outcome.Responded? {
        employeeData := outcome.employee;
      }
      loading := false;
      pendingFetches := pendingFetches - 1;
    }
  }
}

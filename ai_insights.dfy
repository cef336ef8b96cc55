/**
  The employer dashboard's AI insights panel: the colour and icon mappings
  for an insight's severity and a recommendation's priority, and the state
  set by `fetchInsights`. The two backend requests made together are one
  outstanding completion that arrives as an event.
*/
module AiInsights {
  import opened Wrappers

  const SuccessBackground: string := "bg-green-50 border-green-200"
  const WarningBackground: string := "bg-yellow-50 border-yellow-200"
  const InfoBackground: string := "bg-blue-50 border-blue-200"

  /** `getSeverityColor`: green for "success", yellow for "warning", blue for "info" and everything else. */
  function SeverityColor(severity: string): (r: string)
    ensures r == SuccessBackground <==> severity == "success"
    ensures r == WarningBackground <==> severity == "warning"
    ensures r == InfoBackground <==> severity != "success" && severity != "warning"
  {
    if severity == "success" then SuccessBackground
    else if severity == "warning" then WarningBackground
    else InfoBackground
  }

  const SuccessIconColor: string := "text-green-600"
  const WarningIconColor: string := "text-yellow-600"
  const InfoIconColor: string := "text-blue-600"

  /** `getSeverityIconColor`: the same three-way split as the card colour. */
  function SeverityIconColor(severity: string): (r: string)
    ensures r == SuccessIconColor <==> severity == "success"
    ensures r == WarningIconColor <==> severity == "warning"
    ensures r == InfoIconColor <==> severity != "success" && severity != "warning"
  {
    if severity == "success" then SuccessIconColor
    else if severity == "warning" then WarningIconColor
    else InfoIconColor
  }

  /** Two severities get the same card colour exactly when they get the same icon colour. */
  lemma SeverityMappingsAgree(a: string, b: string)
    ensures SeverityColor(a) == SeverityColor(b) <==> SeverityIconColor(a) == SeverityIconColor(b)
  {
  }

  /** Two severities share a colour exactly when both are "success", both are "warning", or neither is either. */
  lemma SameColourIff(a: string, b: string)
    ensures SeverityColor(a) == SeverityColor(b) <==>
      (a == "success" && b == "success") || (a == "warning" && b == "warning")
      || (a != "success" && a != "warning" && b != "success" && b != "warning")
  {
  }

  /** The heroicons drawn for a priority. */
  datatype IconKind = ExclamationTriangle | LightBulb | ArrowTrendingUp

  /** An icon and its class names. */
  datatype Icon = Icon(kind: IconKind, className: string)

  /** `getPriorityIcon`: the red triangle for "high", the yellow bulb for "medium", the blue trend arrow for "low" and everything else. */
  function PriorityIcon(priority: string): (icon: Icon)
    ensures icon.kind == ExclamationTriangle <==> priority == "high"
    ensures icon.kind == LightBulb <==> priority == "medium"
    ensures icon.kind == ArrowTrendingUp <==> priority != "high" && priority != "medium"
    ensures icon.kind == ExclamationTriangle ==> icon.className == "w-5 h-5 text-red-600"
    ensures icon.kind == LightBulb ==> icon.className == "w-5 h-5 text-yellow-600"
    ensures icon.kind == ArrowTrendingUp ==> icon.className == "w-5 h-5 text-blue-600"
  {
    if priority == "high" then Icon(ExclamationTriangle, "w-5 h-5 text-red-600")
    else if priority == "medium" then Icon(LightBulb, "w-5 h-5 text-yellow-600")
    else Icon(ArrowTrendingUp, "w-5 h-5 text-blue-600")
  }

  /** An insight as the frontend reads it. */
  datatype Insight = Insight(kind: string, title: string, description: string, severity: string)

  /** A recommendation as the frontend reads it. */
  datatype Recommendation = Recommendation(title: string, description: string, priority: string, potentialSavings: int)

  /** How the two requests ended: both bodies parsed, each with its list field possibly missing, or a failure anywhere. */
  datatype FetchOutcome = Parsed(insights: Option<seq<Insight>>, recommendations: Option<seq<Recommendation>>) | Failed

  /** The panel's state; `pending` while the requests started on mount are outstanding. */
  datatype Panel = Panel(insights: seq<Insight>, recommendations: seq<Recommendation>, loading: bool, pending: bool)

  /** The state when the component mounts, with its requests outstanding. */
  function Initial(): (p: Panel)
    ensures p.insights == [] && p.recommendations == [] && p.loading && p.pending
  {
    Panel([], [], true, true)
  }

  /** `value || []`: a missing list becomes the empty list. */
  function OrEmpty<T>(value: Option<seq<T>>): (r: seq<T>)
    ensures value.None? ==> r == []
    ensures value.Some? ==> r == value.value
  {
    match value
    case Some(v) => v
    case None => []
  }

  /**
    The rest of `fetchInsights` once both requests settle, including its
    `finally`: loading ends whether or not the requests failed, missing lists
    become empty, and a failure keeps both lists as they were.
  */
  function Settle(p: Panel, outcome: FetchOutcome): (q: Panel)
    requires p.pending
    ensures !q.loading && !q.pending
    ensures outcome.Parsed? ==>
      q.insights == (if outcome.insights.Some? then outcome.insights.value else [])
      && q.recommendations == (if outcome.recommendations.Some? then outcome.recommendations.value else [])
    ensures outcome.Failed? ==> q.insights == p.insights && q.recommendations == p.recommendations
  {
    match outcome
    case Parsed(insights, recommendations) =>
      Panel(OrEmpty(insights), OrEmpty(recommendations), false, false)
    case Failed => p.(loading := false, pending := false)
  }

  /** Since the requests start only on mount, a failure leaves both lists empty. */
  lemma FailureLeavesListsEmpty()
    ensures var p := Settle(Initial(), Failed);
      p.insights == [] && p.recommendations == [] && !p.loading
  {
  }

  /** The panel's state held as fields. */
  class InsightsPanel {
    var insights: seq<Insight>
    var recommendations: seq<Recommendation>
    var loading: bool
    var pending: bool

    function State(): Panel
      reads this
    {
      Panel(insights, recommendations, loading, pending)
    }

    constructor ()
      ensures State() == Initial()
    {
      insights := [];
      recommendations := [];
      loading := true;
      pending := true;
    }

    /** The rest of `fetchInsights` once both requests settle. */
    method OnFetchSettled(outcome: FetchOutcome)
      requires pending
      modifies this
      ensures State() == Settle(old(State()), outcome)
    {
      if outcome.Parsed? {
        insights := OrEmpty(outcome.insights);
        recommendations := OrEmpty(outcome.recommendations);
      }
      loading := false;
      pending := false;
    }
  }
}

/** The customer queue in the sidebar: one row per customer with a status
    badge derived from its analysis verdict, a selection highlight and an
    occupation line (sidebar.tsx, lines 58-111). */
module Sidebar {
  import opened Wrappers
  import Json
  import Customers
  import Adjudication

  /** The badge colour classes: the slate default, green, red. */
  datatype Tone = Pending | Green | Red

  datatype StatusBadge = StatusBadge(text: string, tone: Tone)

  /** The badge is rendered only when its text is non-empty (`statusText && ...`). */
  predicate Shown(b: StatusBadge) {
    b.text != ""
  }

  /** One entry of `analysisResults`: an analysis and its verdict (`summary`). */
  datatype AnalysisResult = AnalysisResult(analysis: Adjudication.Analysis, summary: Option<Json.Value>)

  /** The badge for a verdict: "Clean" in green exactly when the verdict's
      `status` is the string "Negative", "Risk" in red exactly when it is
      "Positive", and otherwise no text with the default tone. */
  function Status(summary: Option<Json.Value>): (b: StatusBadge)
    ensures b.text == "Clean" <==> summary.Some? && Json.Property(summary.value, "status") == Some(Json.JString("Negative"))
    ensures b.text == "Risk" <==> summary.Some? && Json.Property(summary.value, "status") == Some(Json.JString("Positive"))
    ensures b.tone == Green <==> b.text == "Clean"
    ensures b.tone == Red <==> b.text == "Risk"
    ensures !Shown(b) <==> b.tone == Pending
  {
    var status := if summary.Some? && Json.Truthy(summary.value)
                  then Json.Property(summary.value, "status") else None;
    if status == Some(Json.JString("Negative")) then StatusBadge("Clean", Green)
    else if status == Some(Json.JString("Positive")) then StatusBadge("Risk", Red)
    else StatusBadge("", Pending)
  }

  /** `customer.occupation || "Unknown Role"`. */
  function OccupationText(occupation: Option<string>): (r: string)
    ensures r == "Unknown Role" <==> occupation.None? || occupation.value in {"", "Unknown Role"}
    ensures r != "" 
    ensures occupation.Some? && occupation.value != "" ==> r == occupation.value
  {
    match occupation
    case Some(o) => if o != "" then o else "Unknown Role"
    case None => "Unknown Role"
  }

  /** What a row shows. */
  datatype Row = Row(selected: bool, badge: StatusBadge, occupation: string)

  /** The row for one customer, given the selection and the analysis results
      keyed by `_id` (an absent entry reads as no verdict). */
  function RenderRow(c: Customers.Customer, selectedUser: string,
                     results: map<string, AnalysisResult>): (r: Row)
    ensures r.selected <==> c.id == selectedUser
    ensures c.id !in results ==> !Shown(r.badge)
    ensures c.id in results ==> r.badge == Status(results[c.id].summary)
    ensures r.occupation == OccupationText(c.occupation)
  {
    var summary := if c.id in results then results[c.id].summary else None;
    Row(c.id == selectedUser, Status(summary), OccupationText(c.occupation))
  }

  /** The selection a click on a customer's row makes. */
  function Click(c: Customers.Customer): string {
    c.id
  }

  /** Among the rows of the customer index, exactly the row stored under
      the selected key is highlighted. */
  lemma SelectedRowIsUnique(data: seq<Customers.Customer>, selectedUser: string,
                            results: map<string, AnalysisResult>)
    ensures var idx := Customers.BuildIndex(data);
            forall k :: k in idx ==> (RenderRow(idx[k], selectedUser, results).selected <==> k == selectedUser)
  {
  }

  /** Clicking a row of the customer index highlights that row and no other. */
  lemma ClickSelectsOnlyThatRow(data: seq<Customers.Customer>, clicked: string,
                                results: map<string, AnalysisResult>)
    requires clicked in Customers.BuildIndex(data)
    ensures var idx := Customers.BuildIndex(data);
            forall k :: k in idx ==> (RenderRow(idx[k], Click(idx[clicked]), results).selected <==> k == clicked)
  {
  }
}

/** The integrated dashboard of `src/components/dashboard/Dashboard.jsx`: its own view
    switch, the full-screen anomaly and consent screens it embeds, and the feature cards. */
module Dashboard {
  import opened Common
  import AnomalyDetection
  import ConsentSummary

  datatype DashView = MainDashboard | AnomalyView | ConsentView | PolicyView

  /** The three named views render their screens; anything else renders the dashboard. */
  function RouteFor(view: string): (v: DashView)
    ensures v == AnomalyView <==> view == "anomaly-detection"
    ensures v == ConsentView <==> view == "consent-summary"
    ensures v == PolicyView <==> view == "policy-analyzer"
    ensures v == MainDashboard <==> view !in {"anomaly-detection", "consent-summary", "policy-analyzer"}
  {
    if view == "anomaly-detection" then AnomalyView
    else if view == "consent-summary" then ConsentView
    else if view == "policy-analyzer" then PolicyView
    else MainDashboard
  }

  /** The body of a feature card: a title and, for the three live features, the view
      its click opens. */
  datatype Card = Card(title: string, opens: Option<string>)

  const Cards: seq<Card> := [
    Card("Anomaly Detection", Some("anomaly-detection")),
    Card("AI Consent Summary", Some("consent-summary")),
    Card("Policy Analyzer", Some("policy-analyzer")),
    Card("Data Permissions", None), Card("Access Logs", None), Card("Security Settings", None),
    Card("Profile", None), Card("Notifications", None), Card("Connected Devices", None)]

  /** A card reads "Launch" when it has a click handler and "Explore" otherwise. */
  function CardLabel(hasOnClick: bool): (text: string)
    ensures text == "Launch" <==> hasOnClick
    ensures !hasOnClick ==> text == "Explore"
  {
    if hasOnClick then "Launch" else "Explore"
  }

  /** Exactly the three live cards read "Launch", and each opens a screen other than
      the dashboard itself. */
  lemma LaunchCardsOpenScreens(k: nat)
    requires k < |Cards|
    ensures CardLabel(Cards[k].opens.Some?) == "Launch" <==> k < 3
    ensures Cards[k].opens.Some? ==> RouteFor(Cards[k].opens.value) != MainDashboard
  {
  }

  class IntegratedDashboard {
    var currentView: string

    constructor ()
      ensures currentView == "dashboard" && RouteFor(currentView) == MainDashboard
    {
      currentView := "dashboard";
    }

    /** A live card's click. */
    method Open(view: string)
      modifies this
      ensures currentView == view
    {
      currentView := view;
    }

    /** Every screen's `onBack`. */
    method Back()
      modifies this
      ensures currentView == "dashboard" && RouteFor(currentView) == MainDashboard
    {
      currentView := "dashboard";
    }
  }

  const DefaultSeverity := "high"

  /** The embedded anomaly screen falls back to "high" where the standalone one falls
      back to "medium"; with a first severity present the two agree. */
  lemma SeverityDefaultsDiffer(subAlerts: seq<AnomalyDetection.SubAlert>)
    ensures (|subAlerts| == 0 || subAlerts[0].severity == "") <==>
              AnomalyDetection.CardSeverity(subAlerts, DefaultSeverity)
              != AnomalyDetection.CardSeverity(subAlerts, AnomalyDetection.DefaultSeverity)
  {
  }

  class AnomalyDetectionFull {
    var alerts: seq<AnomalyDetection.Alert>
    var selected: Option<AnomalyDetection.Alert>

    constructor ()
      ensures alerts == [] && selected.None?
    {
      alerts := [];
      selected := None;
    }

    method Select(a: AnomalyDetection.Alert)
      modifies this`selected
      ensures selected == Some(a)
    {
      selected := Some(a);
    }

    /** `acknowledgeAlert(id)`; all four action buttons call it the same way. */
    method Acknowledge(id: string)
      modifies this
      ensures alerts == AnomalyDetection.WithoutId(old(alerts), id)
      ensures selected.None?
    {
      alerts := AnomalyDetection.WithoutId(alerts, id);
      selected := None;
    }
  }

  const InitialFields: seq<string> := ["full_name", "email_address", "phone_number", "medical_records"]

  const InitialSelection: ConsentSummary.Selection :=
    [("full_name", true), ("email_address", true), ("phone_number", true), ("medical_records", true)]

  /** All four fields start selected, in this order, each once. */
  lemma InitialSelectionAllTrue()
    ensures Keys(InitialSelection) == InitialFields
    ensures ConsentSummary.UniqueKeys(InitialSelection)
    ensures forall f :: f in InitialFields ==> ConsentSummary.Lookup(InitialSelection, f) == Some(true)
  {
    forall f | f in InitialFields
      ensures ConsentSummary.Lookup(InitialSelection, f) == Some(true)
    {
      var k :| 0 <= k < |InitialFields| && InitialFields[k] == f;
      ConsentSummary.UniqueLookup(InitialSelection, k);
    }
  }

  class ConsentSummaryFull {
    var selected: ConsentSummary.Selection

    /** The selection is an object: no field name occurs twice. */
    predicate Valid()
      reads this
    {
      ConsentSummary.UniqueKeys(selected)
    }

    constructor ()
      ensures selected == InitialSelection
      ensures Valid()
    {
      selected := InitialSelection;
      InitialSelectionAllTrue();
    }

    method ToggleField(f: string)
      requires Valid()
      modifies this
      ensures selected == ConsentSummary.Toggle(old(selected), f)
      ensures Valid()
    {
      ConsentSummary.PutKeepsUnique(selected, f, !(ConsentSummary.Lookup(selected, f) == Some(true)));
      selected := ConsentSummary.Put(selected, f, !(ConsentSummary.Lookup(selected, f) == Some(true)));
    }
  }
}

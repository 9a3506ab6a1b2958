/** The alert working set of `src/components/AIFeatures/AnomalyDetection.jsx`: removing
    an acknowledged alert, the severity a card shows, the severity and risk lookups and
    the count badge. */
module AnomalyDetection {
  import opened Common
  import JsStrings

  /** One finding inside an alert; an empty severity stands for a missing one. */
  datatype SubAlert = SubAlert(kind: string, severity: string, description: string, recommendation: string)

  datatype Alert = Alert(id: string, summary: string, anomalyScore: int, subAlerts: seq<SubAlert>)

  /** `alerts.filter(a => a._id !== id)` */
  function WithoutId(alerts: seq<Alert>, id: string): (r: seq<Alert>)
    ensures |r| <= |alerts|
    ensures forall i :: 0 <= i < |r| ==> r[i].id != id
    ensures forall a :: a in r <==> a in alerts && a.id != id
  {
    if alerts == [] then []
    else (if alerts[0].id != id then [alerts[0]] else []) + WithoutId(alerts[1..], id)
  }

  /** The filter keeps the remaining alerts in their order: it distributes over
      concatenation. */
  lemma {:induction false} WithoutIdAppend(a: seq<Alert>, b: seq<Alert>, id: string)
    ensures WithoutId(a + b, id) == WithoutId(a, id) + WithoutId(b, id)
  {
    if a == [] {
      assert a + b == b;
    } else {
      assert (a + b)[0] == a[0];
      assert (a + b)[1..] == a[1..] + b;
      WithoutIdAppend(a[1..], b, id);
    }
  }

  /** Acknowledging an id that no alert has leaves the list as it was. */
  lemma {:induction false} WithoutAbsentId(alerts: seq<Alert>, id: string)
    requires forall i :: 0 <= i < |alerts| ==> alerts[i].id != id
    ensures WithoutId(alerts, id) == alerts
  {
    if alerts != [] {
      WithoutAbsentId(alerts[1..], id);
    }
  }

  /** Acknowledging the same id twice is the same as once. */
  lemma WithoutIdIdempotent(alerts: seq<Alert>, id: string)
    ensures WithoutId(WithoutId(alerts, id), id) == WithoutId(alerts, id)
  {
    WithoutAbsentId(WithoutId(alerts, id), id);
  }

  /** What the four action buttons report; the handler ignores it. */
  datatype Disposition = RevokedConsent | ContactedOrg | Reported | Acknowledged

  function DispositionCode(d: Disposition): (code: string)
    ensures code in {"revoked_consent", "contacted_org", "reported", "acknowledged"}
  {
    match d
    case RevokedConsent => "revoked_consent"
    case ContactedOrg => "contacted_org"
    case Reported => "reported"
    case Acknowledged => "acknowledged"
  }

  lemma DispositionCodesDistinct(a: Disposition, b: Disposition)
    requires DispositionCode(a) == DispositionCode(b)
    ensures a == b
  {
  }

  const DefaultSeverity := "medium"

  /** `alert.alerts[0]?.severity || fallback` */
  function CardSeverity(subAlerts: seq<SubAlert>, fallback: string): (s: string)
    ensures |subAlerts| > 0 && subAlerts[0].severity != "" ==> s == subAlerts[0].severity
    ensures (|subAlerts| == 0 || subAlerts[0].severity == "") ==> s == fallback
  {
    if |subAlerts| > 0 && subAlerts[0].severity != "" then subAlerts[0].severity else fallback
  }

  const HighGradient := "linear-gradient(to right, #ef4444, #ec4899)"
  const MediumGradient := "linear-gradient(to right, #f97316, #eab308)"
  const LowGradient := "linear-gradient(to right, #3b82f6, #06b6d4)"
  const GreyGradient := "linear-gradient(to right, #6b7280, #64748b)"

  function SeverityColor(severity: string): string {
    if severity == "high" then HighGradient
    else if severity == "medium" then MediumGradient
    else if severity == "low" then LowGradient
    else GreyGradient
  }

  datatype SeverityStyle = SeverityStyle(bg: string, border: string, text: string)

  const HighStyle := SeverityStyle("rgba(239, 68, 68, 0.2)", "rgba(239, 68, 68, 0.5)", "#f87171")
  const MediumStyle := SeverityStyle("rgba(249, 115, 22, 0.2)", "rgba(249, 115, 22, 0.5)", "#fb923c")
  const LowStyle := SeverityStyle("rgba(59, 130, 246, 0.2)", "rgba(59, 130, 246, 0.5)", "#60a5fa")
  const GreyStyle := SeverityStyle("rgba(107, 114, 128, 0.2)", "rgba(107, 114, 128, 0.5)", "#9ca3af")

  function SeverityStyles(severity: string): SeverityStyle {
    if severity == "high" then HighStyle
    else if severity == "medium" then MediumStyle
    else if severity == "low" then LowStyle
    else GreyStyle
  }

  predicate KnownSeverity(severity: string) {
    severity in {"high", "medium", "low"}
  }

  /** Both lookups are total; the three known severities get pairwise distinct colours
      and styles, and every other value gets the grey default. */
  lemma SeverityLookups(s: string, t: string)
    ensures !KnownSeverity(s) <==> SeverityColor(s) == GreyGradient
    ensures !KnownSeverity(s) <==> SeverityStyles(s) == GreyStyle
    ensures KnownSeverity(s) && KnownSeverity(t) ==>
              (SeverityColor(s) == SeverityColor(t) <==> s == t) && (SeverityStyles(s) == SeverityStyles(t) <==> s == t)
  {
  }

  datatype RiskLevel = Moderate | Elevated | Severe

  function Rank(r: RiskLevel): nat {
    match r
    case Moderate => 0
    case Elevated => 1
    case Severe => 2
  }

  /** The risk badge: at least 70 is severe, at least 40 elevated, the rest moderate. */
  function RiskBand(anomalyScore: int): (r: RiskLevel)
    ensures r == Severe <==> anomalyScore >= 70
    ensures r == Moderate <==> anomalyScore < 40
  {
    if anomalyScore >= 70 then Severe else if anomalyScore >= 40 then Elevated else Moderate
  }

  function RiskColor(r: RiskLevel): string {
    match r
    case Severe => "#f87171"
    case Elevated => "#fb923c"
    case Moderate => "#facc15"
  }

  lemma RiskBandMonotone(lo: int, hi: int)
    requires lo <= hi
    ensures Rank(RiskBand(lo)) <= Rank(RiskBand(hi))
  {
  }

  const AllClear := "All Clear"

  /** The header badge for `n` alerts. */
  function CountBadge(n: nat): (r: string)
    ensures r == AllClear <==> n == 0
    ensures n > 0 ==> JsStrings.StartsWith(r, JsStrings.NatToString(n))
    ensures n > 0 ==> (r[|r| - 1] == 's' <==> n > 1)
    ensures n > 0 ==> r[|JsStrings.NatToString(n)|..] == (if n > 1 then " Active Alerts" else " Active Alert")
  {
    if n == 0 then AllClear
    else JsStrings.NatToString(n) + " Active Alert" + (if n > 1 then "s" else "")
  }

  /** The length of the leading run of digits. */
  function DigitRun(s: string): (n: nat)
    ensures n <= |s|
  {
    if s != [] && JsStrings.IsDigit(s[0]) then 1 + DigitRun(s[1..]) else 0
  }

  lemma {:induction false} DigitRunOf(a: string, b: string)
    requires forall i :: 0 <= i < |a| ==> JsStrings.IsDigit(a[i])
    requires |b| > 0 && !JsStrings.IsDigit(b[0])
    ensures DigitRun(a + b) == |a|
  {
    if a == [] {
      assert a + b == b;
    } else {
      assert (a + b)[1..] == a[1..] + b;
      DigitRunOf(a[1..], b);
    }
  }

  lemma DigitPrefix(a: string, b: string, c: string, d: string)
    requires forall i :: 0 <= i < |a| ==> JsStrings.IsDigit(a[i])
    requires forall i :: 0 <= i < |c| ==> JsStrings.IsDigit(c[i])
    requires |b| > 0 && !JsStrings.IsDigit(b[0]) && |d| > 0 && !JsStrings.IsDigit(d[0])
    requires a + b == c + d
    ensures a == c
  {
    DigitRunOf(a, b);
    DigitRunOf(c, d);
    assert a == (a + b)[..|a|] && c == (c + d)[..|c|];
  }

  /** Distinct alert counts show distinct badges. */
  lemma CountBadgeInjective(m: nat, n: nat)
    requires CountBadge(m) == CountBadge(n)
    ensures m == n
  {
    if m > 0 && n > 0 {
      var sm := if m > 1 then "s" else "";
      var sn := if n > 1 then "s" else "";
      assert CountBadge(m) == JsStrings.NatToString(m) + (" Active Alert" + sm);
      assert CountBadge(n) == JsStrings.NatToString(n) + (" Active Alert" + sn);
      DigitPrefix(JsStrings.NatToString(m), " Active Alert" + sm, JsStrings.NatToString(n), " Active Alert" + sn);
      JsStrings.NatToStringInjective(m, n);
    }
  }

  class AnomalyScreen {
    var alerts: seq<Alert>
    var selected: Option<Alert>

    constructor ()
      ensures alerts == [] && selected.None?
    {
      alerts := [];
      selected := None;
    }

    method Select(a: Alert)
      modifies this`selected
      ensures selected == Some(a)
    {
      selected := Some(a);
    }

    /** `acknowledgeAlert(id, action)`: the action taken has no effect on the state. */
    method Acknowledge(id: string, action: Disposition)
      modifies this`alerts, this`selected
      ensures alerts == WithoutId(old(alerts), id)
      ensures selected.None?
    {
      alerts := WithoutId(alerts, id);
      selected := None;
    }
  }
}

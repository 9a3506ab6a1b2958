/** The policy analyzer of `src/components/AIFeatures/PolicyAnalyzer.jsx`: the checks made
    before a request, the trimmed payload, the error chosen on failure, the guarded
    analyze button, and the score, status, risk and export-name lookups. */
module PolicyAnalyzer {
  import opened Common
  import opened Json
  import JsStrings
  import Scores
  import Api

  const MinPolicyLength := 100
  const MissingInput := "Please provide both policy text and organization name"
  const TooShort := "Policy text too short. Minimum 100 characters required."
  const AnalysisFailed := "Analysis failed"
  const BackendDown := "Failed to analyze policy. Make sure the backend is running on http://localhost:5000"
  const AnalyzeUrl := "http://localhost:5000/api/v1/analyze-policy"

  /** The error set before any request: blank input first, then the length of the
      untrimmed text. */
  function ValidationError(policyText: string, organizationName: string): (e: Option<string>)
    ensures JsStrings.Trim(policyText) == [] || JsStrings.Trim(organizationName) == [] ==> e == Some(MissingInput)
    ensures JsStrings.Trim(policyText) != [] && JsStrings.Trim(organizationName) != [] ==>
              (e == Some(TooShort) <==> |policyText| < MinPolicyLength)
    ensures e.None? <==> JsStrings.Trim(policyText) != [] && JsStrings.Trim(organizationName) != []
                         && |policyText| >= MinPolicyLength
  {
    if JsStrings.Trim(policyText) == [] || JsStrings.Trim(organizationName) == [] then Some(MissingInput)
    else if |policyText| < MinPolicyLength then Some(TooShort)
    else None
  }

  function Payload(policyText: string, organizationName: string): Json {
    JObj([("organizationName", JStr(JsStrings.Trim(organizationName))), ("policyText", JStr(JsStrings.Trim(policyText)))])
  }

  /** The request: a POST with only the JSON content type and no bearer token. */
  function AnalyzeRequest(policyText: string, organizationName: string): Api.Request {
    Api.Request(AnalyzeUrl, Some("POST"), Api.JsonContentType, Some(Payload(policyText, organizationName)))
  }

  /** `analysis` and `error` once the reply is in: the body on success (a `null` body
      leaves `analysis` null); otherwise the message of the error thrown, or the
      backend-down text when that message is empty. */
  function Outcome(reply: Api.Reply): (r: (Option<Json>, Option<string>))
    ensures r.0.Some? <==> reply.Response? && reply.ok && reply.body != JNull
    ensures reply.Response? && reply.ok ==> r.1.None?
    ensures reply.NetworkFailure? && reply.reason != "" ==> r.1 == Some(reply.reason)
    ensures r.0.Some? ==> r.0.value == reply.body && r.1.None?
    ensures !(reply.Response? && reply.ok) ==> r.0.None? && r.1.Some? && r.1.value != ""
  {
    match reply
    case NetworkFailure(reason) => (None, Some(if reason != "" then reason else BackendDown))
    case Response(ok, data) =>
      if ok then (if data == JNull then None else Some(data), None)
      else
        match Prop(Some(data), "message")
        case Err(m) => (None, Some(m))
        case Ok(message) =>
          var text := ToText(Or(message, Some(JStr(AnalysisFailed))));
          (None, Some(if text != "" then text else BackendDown))
  }

  /** A failed reply reports its own message when it has one, and "Analysis failed"
      when its `message` is missing or falsy (`""`, `null`, `false`, `0`). */
  lemma FailureMessage(fields: seq<(string, Json)>)
    ensures Get(fields, "message").Some? && Get(fields, "message").value.JStr? && Get(fields, "message").value.s != "" ==>
              Outcome(Api.Response(false, JObj(fields))).1 == Some(Get(fields, "message").value.s)
    ensures !Truthy(Get(fields, "message")) ==> Outcome(Api.Response(false, JObj(fields))).1 == Some(AnalysisFailed)
  {
  }

  /** An unreachable backend whose error carries no message shows the backend-down
      text. */
  lemma SilentFailureShowsBackendDown()
    ensures Outcome(Api.NetworkFailure("")) == (None, Some(BackendDown))
  {
  }

  /** The analyze button: disabled while analyzing, for text shorter than the minimum,
      and for a blank organization name. */
  predicate AnalyzeDisabled(analyzing: bool, policyText: string, organizationName: string) {
    analyzing || |policyText| < MinPolicyLength || JsStrings.Trim(organizationName) == []
  }

  /** Text padded with white space up to the minimum passes the length check, yet the
      payload carries the shorter trimmed text. */
  lemma PaddingCountsTowardMinimum(core: string, pad: string, organizationName: string)
    requires core != [] && !JsStrings.IsWhite(core[0]) && !JsStrings.IsWhite(core[|core| - 1])
    requires JsStrings.AllWhite(pad) && |core| < MinPolicyLength <= |core + pad|
    requires JsStrings.Trim(organizationName) != []
    ensures ValidationError(core + pad, organizationName).None?
    ensures Payload(core + pad, organizationName).fields[1] == ("policyText", JStr(core))
    ensures |JsStrings.Trim(core + pad)| < MinPolicyLength
  {
    JsStrings.TrimDropsTrailingWhite(core, pad);
  }

  /** An enabled button lets the handler past the length check; of the blank-input
      check it has already covered the organization name, but not the policy text. */
  lemma EnabledButtonChecksOnlyBlankText(policyText: string, organizationName: string)
    requires !AnalyzeDisabled(false, policyText, organizationName)
    ensures ValidationError(policyText, organizationName)
         == if JsStrings.Trim(policyText) == [] then Some(MissingInput) else None
  {
  }

  /** Hence a text of one hundred spaces enables the button and is then refused. */
  lemma BlankTextEnablesButton(policyText: string, organizationName: string)
    requires |policyText| == MinPolicyLength && JsStrings.AllWhite(policyText)
    requires JsStrings.Trim(organizationName) != []
    ensures !AnalyzeDisabled(false, policyText, organizationName)
    ensures ValidationError(policyText, organizationName) == Some(MissingInput)
  {
    JsStrings.TrimEmptyIffAllWhite(policyText);
  }

  const ExcellentGradient := "linear-gradient(to right, #22c55e, #10b981)"
  const GoodGradient := "linear-gradient(to right, #eab308, #f97316)"
  const FairGradient := "linear-gradient(to right, #f97316, #ef4444)"
  const PoorGradient := "linear-gradient(to right, #ef4444, #ec4899)"

  function ScoreColor(score: int): string {
    match Scores.BandOf(score)
    case Excellent => ExcellentGradient
    case Good => GoodGradient
    case Fair => FairGradient
    case Poor => PoorGradient
  }

  datatype ScoreLabelStyle = ScoreLabelStyle(text: string, color: string)

  function ScoreLabel(score: int): ScoreLabelStyle {
    match Scores.BandOf(score)
    case Excellent => ScoreLabelStyle("Excellent", "#4ade80")
    case Good => ScoreLabelStyle("Good", "#facc15")
    case Fair => ScoreLabelStyle("Fair", "#fb923c")
    case Poor => ScoreLabelStyle("Poor", "#f87171")
  }

  /** Colour and label share their thresholds: two scores get the same colour exactly
      when they get the same label, exactly when they fall in the same band. */
  lemma ColorAndLabelAgree(s: int, t: int)
    ensures ScoreColor(s) == ScoreColor(t) <==> Scores.BandOf(s) == Scores.BandOf(t)
    ensures ScoreLabel(s) == ScoreLabel(t) <==> Scores.BandOf(s) == Scores.BandOf(t)
    ensures ScoreLabel(s).text == Scores.Label(Scores.BandOf(s))
  {
  }

  datatype StatusStyle = StatusStyle(bg: string, text: string, border: string)

  const CompliantStyle := StatusStyle("rgba(34, 197, 94, 0.2)", "#4ade80", "rgba(34, 197, 94, 0.5)")
  const PartialStyle := StatusStyle("rgba(234, 179, 8, 0.2)", "#facc15", "rgba(234, 179, 8, 0.5)")
  const NonCompliantStyle := StatusStyle("rgba(239, 68, 68, 0.2)", "#f87171", "rgba(239, 68, 68, 0.5)")

  /** `styles[status] || styles.non_compliant` */
  function StatusStyles(status: string): (r: StatusStyle)
    ensures status == "compliant" ==> r == CompliantStyle
    ensures status == "partially_compliant" ==> r == PartialStyle
    ensures status !in {"compliant", "partially_compliant"} <==> r == NonCompliantStyle
  {
    if status == "compliant" then CompliantStyle
    else if status == "partially_compliant" then PartialStyle
    else NonCompliantStyle
  }

  const ExportSuffix := "_NDPR_Analysis.json"

  /** The download name: the organization name (untrimmed) with every run of white space
      replaced by one underscore, then the fixed suffix. */
  function ExportFilename(organizationName: string): (r: string)
    ensures |r| >= |ExportSuffix| && r[|r| - |ExportSuffix|..] == ExportSuffix
    ensures JsStrings.NoWhite(r[..|r| - |ExportSuffix|])
  {
    var stem := JsStrings.CollapseWhite(organizationName);
    assert (stem + ExportSuffix)[|stem|..] == ExportSuffix;
    assert (stem + ExportSuffix)[..|stem|] == stem;
    stem + ExportSuffix
  }

  lemma {:induction false} CollapseKeepsWord(w: string, x: string)
    requires JsStrings.NoWhite(w)
    ensures JsStrings.CollapseWhite(w + x) == w + JsStrings.CollapseWhite(x)
  {
    if w == [] {
      assert w + x == x;
    } else {
      assert (w + x)[0] == w[0];
      assert (w + x)[1..] == w[1..] + x;
      CollapseKeepsWord(w[1..], x);
    }
  }

  /** Two words separated by any run of white space are joined by exactly one
      underscore. */
  lemma ExportFilenameJoinsWords(first: string, gap: string, second: string)
    requires JsStrings.NoWhite(first) && JsStrings.NoWhite(second) && second != []
    requires gap != [] && JsStrings.AllWhite(gap)
    ensures ExportFilename(first + gap + second) == first + "_" + second + ExportSuffix
  {
    assert first + gap + second == first + (gap + second);
    CollapseKeepsWord(first, gap + second);
    JsStrings.CollapseRun(gap, second);
    JsStrings.CollapseNoWhite(second);
  }

  /** Renaming an already exported name's stem again changes nothing. */
  lemma ExportStemStable(organizationName: string)
    ensures ExportFilename(JsStrings.CollapseWhite(organizationName)) == ExportFilename(organizationName)
  {
    JsStrings.CollapseIdempotent(organizationName);
  }

  datatype RiskSeverity = HighRisk | MediumRisk | LowRisk

  /** `RiskFlag`'s colour: "high" anywhere in the lower-cased risk wins over "medium";
      a missing (empty) risk and everything else is low. */
  function RiskSeverityOf(risk: string): (r: RiskSeverity)
    ensures r == HighRisk <==> JsStrings.Includes(JsStrings.ToLower(risk), "high")
    ensures r == MediumRisk <==> !JsStrings.Includes(JsStrings.ToLower(risk), "high")
                                 && JsStrings.Includes(JsStrings.ToLower(risk), "medium")
  {
    if risk != [] && JsStrings.Includes(JsStrings.ToLower(risk), "high") then HighRisk
    else if risk != [] && JsStrings.Includes(JsStrings.ToLower(risk), "medium") then MediumRisk
    else LowRisk
  }

  /** Upper or mixed case is recognised the same way. */
  lemma RiskIgnoresCase(risk: string)
    ensures RiskSeverityOf(JsStrings.ToLower(risk)) == RiskSeverityOf(risk)
  {
    JsStrings.ToLowerIdempotent(risk);
  }

  class PolicyScreen {
    var policyText: string
    var organizationName: string
    var analyzing: bool
    var analysis: Option<Json>
    var error: Option<string>

    constructor ()
      ensures policyText == "" && organizationName == "" && !analyzing && analysis.None? && error.None?
    {
      policyText := "";
      organizationName := "";
      analyzing := false;
      analysis := None;
      error := None;
    }

    /** `analyzePolicy` with the reply the backend gives. */
    method AnalyzePolicy(reply: Api.Reply) returns (sent: Option<Api.Request>)
      modifies this`analyzing, this`analysis, this`error
      ensures ValidationError(old(policyText), old(organizationName)).Some? ==>
                sent.None? && error == ValidationError(old(policyText), old(organizationName))
                && analysis == old(analysis) && analyzing == old(analyzing)
      ensures ValidationError(old(policyText), old(organizationName)).None? ==>
                sent == Some(AnalyzeRequest(old(policyText), old(organizationName))) && (analysis, error) == Outcome(reply) && !analyzing
    {
      var invalid := ValidationError(policyText, organizationName);
      if invalid.Some? {
        error := invalid;
        sent := None;
      } else {
        sent := Send(reply);
      }
    }

    /** The request `analyzePolicy` sends once the form is valid, and its reply. */
    method Send(reply: Api.Reply) returns (sent: Option<Api.Request>)
      modifies this`analyzing, this`analysis, this`error
      ensures sent == Some(AnalyzeRequest(old(policyText), old(organizationName))) && (analysis, error) == Outcome(reply) && !analyzing
    {
      sent := Some(AnalyzeRequest(policyText, organizationName));
      analyzing := true;
      Receive(reply);
      analyzing := false;
    }

    /** The part of `analyzePolicy` that handles the backend's reply or failure. */
    method Receive(reply: Api.Reply)
      modifies this`analysis, this`error
      ensures (analysis, error) == Outcome(reply)
    {
      analysis := None;
      error := None;
      var failure: Option<string> := None;
      match reply {
        case NetworkFailure(reason) => failure := Some(reason);
        case Response(ok, data) =>
          if ok {
            if data != JNull {
              analysis := Some(data);
            }
          } else {
            match Prop(Some(data), "message") {
              case Err(m) => failure := Some(m);
              case Ok(message) => failure := Some(ToText(Or(message, Some(JStr(AnalysisFailed)))));
            }
          }
      }
      if failure.Some? {
        error := Some(if failure.value != "" then failure.value else BackendDown);
        analysis := None;
      }
    }

    /** A click on the analyze button; a disabled button never runs the handler. */
    method ClickAnalyze(reply: Api.Reply) returns (sent: Option<Api.Request>)
      modifies this`analyzing, this`analysis, this`error
      ensures AnalyzeDisabled(old(analyzing), old(policyText), old(organizationName)) ==>
                sent.None? && analyzing == old(analyzing) && analysis == old(analysis) && error == old(error)
      ensures !AnalyzeDisabled(old(analyzing), old(policyText), old(organizationName)) && JsStrings.Trim(old(policyText)) == [] ==>
                sent.None? && error == Some(MissingInput) && analysis == old(analysis) && analyzing == old(analyzing)
      ensures !AnalyzeDisabled(old(analyzing), old(policyText), old(organizationName)) && JsStrings.Trim(old(policyText)) != [] ==>
                sent == Some(AnalyzeRequest(old(policyText), old(organizationName))) && (analysis, error) == Outcome(reply) && !analyzing
    {
      if analyzing || |policyText| < MinPolicyLength || JsStrings.Trim(organizationName) == [] {
        sent := None;
      } else {
        sent := AnalyzePolicy(reply);
      }
    }
  }
}

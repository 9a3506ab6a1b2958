/** The consent decision screen of `src/components/AIFeatures/ConsentSummary.jsx`: the
    per-field selection (an object whose keys keep insertion order, here a sequence of
    key/value pairs), the decision handed to `onApprove`, and the compliance bands. */
module ConsentSummary {
  import opened Common
  import Scores

  type Selection = seq<(string, bool)>

  predicate UniqueKeys(sel: Selection) {
    forall i, j :: 0 <= i < j < |sel| ==> sel[i].0 != sel[j].0
  }

  /** `selectedFields[f]`, `None` standing for `undefined`: the lookup of `Get`, written
      out on a selection so that the proofs about `Put` and `Toggle` unfold it directly. */
  function Lookup(sel: Selection, f: string): (r: Option<bool>)
    ensures r.None? <==> f !in Keys(sel)
  {
    if sel == [] then None
    else if sel[0].0 == f then Some(sel[0].1)
    else Lookup(sel[1..], f)
  }

  /** `{ ...sel, [f]: v }`: an existing key keeps its position, a new key goes last. */
  function Put(sel: Selection, f: string, v: bool): (r: Selection)
    ensures Keys(r) == if f in Keys(sel) then Keys(sel) else Keys(sel) + [f]
    ensures Lookup(r, f) == Some(v)
    ensures forall g :: g != f ==> Lookup(r, g) == Lookup(sel, g)
  {
    if sel == [] then [(f, v)]
    else if sel[0].0 == f then [(f, v)] + sel[1..]
    else [sel[0]] + Put(sel[1..], f, v)
  }

  lemma {:induction false} PutKeepsUnique(sel: Selection, f: string, v: bool)
    requires UniqueKeys(sel)
    ensures UniqueKeys(Put(sel, f, v))
  {
    var r := Put(sel, f, v);
    forall i, j | 0 <= i < j < |r|
      ensures r[i].0 != r[j].0
    {
      assert Keys(r)[i] == r[i].0 && Keys(r)[j] == r[j].0;
      if f !in Keys(sel) && j == |sel| {
        assert Keys(r)[i] == Keys(sel)[i];
      } else {
        assert Keys(r)[i] == Keys(sel)[i] && Keys(r)[j] == Keys(sel)[j];
      }
    }
  }

  /** `toggleField(f)`: `!undefined` is `true`, so a field never seen becomes selected. */
  function Toggle(sel: Selection, f: string): Selection {
    Put(sel, f, !(Lookup(sel, f) == Some(true)))
  }

  /** The initial-selection effect: every requested field set to `true`, one at a time. */
  function FromFields(fields: seq<string>): Selection
  {
    if fields == [] then []
    else Put(FromFields(fields[..|fields| - 1]), fields[|fields| - 1], true)
  }

  /** After initialisation exactly the requested fields are present, each selected. */
  lemma {:induction false} InitialSelectionLookup(fields: seq<string>, f: string)
    ensures Lookup(FromFields(fields), f) == (if f in fields then Some(true) else None)
  {
    if fields != [] {
      var init := fields[..|fields| - 1];
      var last := fields[|fields| - 1];
      InitialSelectionLookup(init, f);
      var prev := FromFields(init);
      assert FromFields(fields) == Put(prev, last, true);
    }
  }

  /** No key repeats after initialisation, and every value is `true`. */
  lemma {:induction false} InitialSelectionAllTrue(fields: seq<string>)
    ensures UniqueKeys(FromFields(fields))
    ensures forall i :: 0 <= i < |FromFields(fields)| ==> FromFields(fields)[i].1
  {
    if fields != [] {
      var init := fields[..|fields| - 1];
      InitialSelectionAllTrue(init);
      PutKeepsUnique(FromFields(init), fields[|fields| - 1], true);
    }
    var r := FromFields(fields);
    forall i | 0 <= i < |r|
      ensures r[i].1
    {
      UniqueLookup(r, i);
      InitialSelectionLookup(fields, r[i].0);
    }
  }

  lemma {:induction false} UniqueLookup(sel: Selection, i: nat)
    requires UniqueKeys(sel) && i < |sel|
    ensures Lookup(sel, sel[i].0) == Some(sel[i].1)
  {
    if i > 0 {
      assert sel[0].0 != sel[i].0;
      UniqueLookup(sel[1..], i - 1);
    }
  }

  predicate Distinct(s: seq<string>) {
    forall i, j :: 0 <= i < j < |s| ==> s[i] != s[j]
  }

  lemma DistinctSplit(s: seq<string>)
    requires Distinct(s) && s != []
    ensures Distinct(s[..|s| - 1]) && s[|s| - 1] !in s[..|s| - 1]
    ensures s[..|s| - 1] + [s[|s| - 1]] == s
  {
    var init := s[..|s| - 1];
    forall i, j | 0 <= i < j < |init|
      ensures init[i] != init[j]
    {
      assert init[i] == s[i] && init[j] == s[j];
    }
    forall i | 0 <= i < |init|
      ensures init[i] != s[|s| - 1]
    {
      assert init[i] == s[i];
    }
  }

  /** With no repeated field in the request, the keys are exactly the request's fields
      in its order. */
  lemma {:induction false} InitialSelectionOrder(fields: seq<string>)
    requires Distinct(fields)
    ensures Keys(FromFields(fields)) == fields
  {
    if fields != [] {
      var init := fields[..|fields| - 1];
      DistinctSplit(fields);
      InitialSelectionOrder(init);
    }
  }

  /** `toggleField(f)` flips entry `f` and no other. */
  lemma ToggleFlipsOne(sel: Selection, f: string)
    ensures Lookup(Toggle(sel, f), f) == Some(Lookup(sel, f) != Some(true))
    ensures forall g :: g != f ==> Lookup(Toggle(sel, f), g) == Lookup(sel, g)
    ensures f in Keys(sel) ==> Keys(Toggle(sel, f)) == Keys(sel)
  {
  }

  /** Toggling passes over an entry of another field. */
  lemma ToggleSkips(x: (string, bool), rest: Selection, f: string)
    requires x.0 != f
    ensures Toggle([x] + rest, f) == [x] + Toggle(rest, f)
  {
    assert ([x] + rest)[1..] == rest;
  }

  /** Toggling a present field twice restores the selection. */
  lemma {:induction false} ToggleTwice(sel: Selection, f: string)
    requires f in Keys(sel)
    ensures Toggle(Toggle(sel, f), f) == sel
  {
    if sel[0].0 != f {
      assert Keys(sel) == [sel[0].0] + Keys(sel[1..]);
      ToggleTwice(sel[1..], f);
      assert sel == [sel[0]] + sel[1..];
      ToggleSkips(sel[0], sel[1..], f);
      ToggleSkips(sel[0], Toggle(sel[1..], f), f);
    } else {
      var t := Toggle(sel, f);
      assert t == [(f, !(sel[0].1 == true))] + sel[1..];
      assert Toggle(t, f) == [(f, sel[0].1)] + sel[1..];
    }
  }

  datatype ApprovedEntry = ApprovedEntry(fieldName: string, approved: bool, purpose: Option<string>)

  /** `Object.keys(sel).filter(f => sel[f]).map(...)` */
  function ApprovedFields(sel: Selection, purpose: Option<string>): (r: seq<ApprovedEntry>)
    ensures |r| <= |sel|
    ensures forall i :: 0 <= i < |r| ==> r[i].approved && r[i].purpose == purpose
  {
    if sel == [] then []
    else (if sel[0].1 then [ApprovedEntry(sel[0].0, true, purpose)] else []) + ApprovedFields(sel[1..], purpose)
  }

  /** Filtering keeps key order: it distributes over concatenation. */
  lemma {:induction false} ApprovedFieldsAppend(a: Selection, b: Selection, purpose: Option<string>)
    ensures ApprovedFields(a + b, purpose) == ApprovedFields(a, purpose) + ApprovedFields(b, purpose)
  {
    if a == [] {
      assert a + b == b;
    } else {
      assert (a + b)[0] == a[0];
      assert (a + b)[1..] == a[1..] + b;
      ApprovedFieldsAppend(a[1..], b, purpose);
    }
  }

  function Names(entries: seq<ApprovedEntry>): (r: seq<string>)
    ensures |r| == |entries|
  {
    seq(|entries|, i requires 0 <= i < |entries| => entries[i].fieldName)
  }

  lemma {:induction false} UniqueTail(sel: Selection)
    requires UniqueKeys(sel) && sel != []
    ensures UniqueKeys(sel[1..])
    ensures sel[0].0 !in Keys(sel[1..])
  {
    forall i, j | 0 <= i < j < |sel[1..]|
      ensures sel[1..][i].0 != sel[1..][j].0
    {
      assert sel[1..][i] == sel[i + 1] && sel[1..][j] == sel[j + 1];
    }
    forall k | 0 <= k < |sel[1..]|
      ensures Keys(sel[1..])[k] != sel[0].0
    {
      assert Keys(sel[1..])[k] == sel[k + 1].0;
    }
  }

  /** A field is approved exactly when it is selected; denied fields never appear. */
  lemma {:induction false} ApprovedIffSelected(sel: Selection, purpose: Option<string>, f: string)
    requires UniqueKeys(sel)
    ensures f in Names(ApprovedFields(sel, purpose)) <==> Lookup(sel, f) == Some(true)
  {
    if sel != [] {
      var head := if sel[0].1 then [ApprovedEntry(sel[0].0, true, purpose)] else [];
      var rest := ApprovedFields(sel[1..], purpose);
      assert ApprovedFields(sel, purpose) == head + rest;
      assert Names(head + rest) == Names(head) + Names(rest);
      UniqueTail(sel);
      ApprovedIffSelected(sel[1..], purpose, f);
      assert Names(head) == if sel[0].1 then [sel[0].0] else [];
      if sel[0].0 == f {
        assert Lookup(sel[1..], f).None?;
        assert f !in Names(rest);
        assert Lookup(sel, f) == Some(sel[0].1);
      } else {
        assert f !in Names(head);
        assert Lookup(sel, f) == Lookup(sel[1..], f);
      }
    }
  }

  /** `Object.values(sel).every(v => !v)`: true for the empty selection too. */
  predicate ApproveDisabled(sel: Selection) {
    forall i :: 0 <= i < |sel| ==> !sel[i].1
  }

  /** Approval is disabled exactly when it would approve nothing. */
  lemma {:induction false} DisabledIffNothingApproved(sel: Selection, purpose: Option<string>)
    ensures ApproveDisabled(sel) <==> ApprovedFields(sel, purpose) == []
  {
    if sel != [] {
      DisabledIffNothingApproved(sel[1..], purpose);
      if !sel[0].1 {
        assert ApproveDisabled(sel) <==> ApproveDisabled(sel[1..]) by {
          if ApproveDisabled(sel[1..]) {
            forall i | 0 <= i < |sel|
              ensures !sel[i].1
            {
              if i > 0 { assert sel[i] == sel[1..][i - 1]; }
            }
          }
        }
      }
    }
  }

  datatype ConsentType = OneTime | DurationLimited

  function ConsentTypeCode(t: ConsentType): string {
    match t
    case OneTime => "one_time"
    case DurationLimited => "duration_limited"
  }

  /** The request being decided: an organization id, the requested fields and the
      purpose (an absent id or purpose is `undefined` and passes through as such). */
  datatype ConsentRequest = ConsentRequest(organizationId: Option<string>, dataFields: seq<string>, purpose: Option<string>)

  /** The object handed to `onApprove`; `expiresAt` is a millisecond instant. */
  datatype Decision = Decision(organizationId: Option<string>, dataFields: seq<ApprovedEntry>, purpose: Option<string>,
                               consentType: ConsentType, expiresAt: Option<int>, language: string)

  const MsPerDay := 24 * 60 * 60 * 1000

  /** `handleApprove`'s payload at time `now`. */
  function BuildDecision(req: ConsentRequest, sel: Selection, days: int, language: string, now: int): (d: Decision)
    ensures d.consentType == OneTime <==> days == 0
    ensures d.expiresAt.None? <==> days == 0
    ensures days != 0 ==> d.expiresAt == Some(now + days * MsPerDay)
    ensures d.organizationId == req.organizationId && d.purpose == req.purpose && d.language == language
    ensures d.dataFields == ApprovedFields(sel, req.purpose)
  {
    var expiresAt := now + days * MsPerDay;
    Decision(req.organizationId, ApprovedFields(sel, req.purpose), req.purpose,
             if days == 0 then OneTime else DurationLimited,
             if days == 0 then None else Some(expiresAt), language)
  }

  /** The four expiry buttons as (days, label). */
  const ExpirationOptions: seq<(int, string)> := [(7, "7 Days"), (30, "30 Days"), (90, "90 Days"), (0, "Ongoing")]

  /** Choosing "Ongoing" yields a one-time consent with no expiry; every other button
      yields a consent limited to its number of days. */
  lemma OngoingIsOneTime(req: ConsentRequest, sel: Selection, language: string, now: int, k: nat)
    requires k < |ExpirationOptions|
    ensures var d := BuildDecision(req, sel, ExpirationOptions[k].0, language, now);
            (ExpirationOptions[k].1 == "Ongoing") <==> (d.consentType == OneTime && d.expiresAt.None?)
  {
  }

  const ExcellentColor := "#4ade80"
  const GoodColor := "#facc15"
  const LowColor := "#f87171"

  /** The compliance colour has three bands: at least 85, at least 70, and the rest. */
  function ComplianceColor(score: int): (c: string)
    ensures c == ExcellentColor <==> score >= 85
    ensures c == GoodColor <==> 70 <= score < 85
    ensures c == LowColor <==> score < 70
  {
    if score >= 85 then ExcellentColor else if score >= 70 then GoodColor else LowColor
  }

  function ComplianceLabel(score: int): string {
    Scores.Label(Scores.BandOf(score))
  }

  /** The label agrees with the colour at the two shared thresholds: green exactly for
      "Excellent", yellow exactly for "Good", and red for "Fair" and "Poor". */
  lemma ColorMatchesLabel(score: int)
    ensures ComplianceColor(score) == ExcellentColor <==> ComplianceLabel(score) == "Excellent"
    ensures ComplianceColor(score) == GoodColor <==> ComplianceLabel(score) == "Good"
    ensures ComplianceColor(score) == LowColor <==> ComplianceLabel(score) in {"Fair", "Poor"}
  {
  }

  /** `summaries[language] || summaries.en` over a table of (language, text) pairs. */
  function SummaryFor(summaries: seq<(string, string)>, language: string): Option<string> {
    match Get(summaries, language)
    case Some(s) => if s != "" then Some(s) else Get(summaries, "en")
    case None => Get(summaries, "en")
  }

  /** A language missing from the table, or one whose text is empty, shows the English
      summary; any other language shows its own text. */
  lemma UnknownLanguageFallsBack(summaries: seq<(string, string)>, language: string)
    ensures (forall i :: 0 <= i < |summaries| ==> summaries[i].0 != language) ==>
              SummaryFor(summaries, language) == Get(summaries, "en")
    ensures Get(summaries, language).Some? && Get(summaries, language).value != "" ==>
              SummaryFor(summaries, language) == Get(summaries, language)
  {
    GetFinds(summaries, language);
  }

  class ConsentScreen {
    var selected: Selection
    var expirationDays: int
    var language: string
    var summary: Option<string>
    var loading: bool

    /** The selection is an object: no field name occurs twice. */
    predicate Valid()
      reads this
    {
      UniqueKeys(selected)
    }

    constructor ()
      ensures selected == [] && expirationDays == 30 && language == "en" && summary.None? && loading
      ensures Valid()
    {
      selected := [];
      expirationDays := 30;
      language := "en";
      summary := None;
      loading := true;
    }

    /** The mount effect that selects every requested field. */
    method InitializeSelection(dataFields: seq<string>)
      modifies this`selected
      ensures selected == FromFields(dataFields)
      ensures Valid()
    {
      var initial: Selection := [];
      var i := 0;
      while i < |dataFields|
        invariant 0 <= i <= |dataFields|
        invariant initial == FromFields(dataFields[..i])
      {
        assert dataFields[..i + 1][..i] == dataFields[..i];
        initial := Put(initial, dataFields[i], true);
        i := i + 1;
      }
      assert dataFields[..|dataFields|] == dataFields;
      selected := initial;
      InitialSelectionAllTrue(dataFields);
    }

    method ToggleField(f: string)
      requires Valid()
      modifies this`selected
      ensures selected == Toggle(old(selected), f)
      ensures Valid()
    {
      PutKeepsUnique(selected, f, !(Lookup(selected, f) == Some(true)));
      selected := Put(selected, f, !(Lookup(selected, f) == Some(true)));
    }

    /** One of the expiry buttons. */
    method ChooseExpiration(k: nat)
      requires k < |ExpirationOptions|
      modifies this`expirationDays
      ensures expirationDays == ExpirationOptions[k].0
    {
      expirationDays := ExpirationOptions[k].0;
    }

    /** A language change reloads the summary for the new language. */
    method ChooseLanguage(code: string, summaries: seq<(string, string)>)
      modifies this`language, this`summary, this`loading
      ensures language == code && summary == SummaryFor(summaries, code) && !loading
    {
      language := code;
      loading := true;
      summary := SummaryFor(summaries, language);
      loading := false;
    }

    /** Clicking Approve at time `now`: nothing while the button is disabled, and
        nothing when no `onApprove` callback was supplied, and nothing while loading,
        when only the spinner is on screen. The fields sent are exactly those selected. */
    method Approve(req: ConsentRequest, hasOnApprove: bool, now: int) returns (d: Option<Decision>)
      requires Valid()
      ensures d.Some? <==> hasOnApprove && !loading && !ApproveDisabled(selected)
      ensures d.Some? ==> d.value == BuildDecision(req, selected, expirationDays, language, now)
      ensures d.Some? ==> forall f :: f in Names(d.value.dataFields) <==> Lookup(selected, f) == Some(true)
    {
      if loading || ApproveDisabled(selected) || !hasOnApprove {
        d := None;
      } else {
        var approvedFields := ApprovedFields(selected, req.purpose);
        var expiresAt := now + expirationDays * MsPerDay;
        d := Some(Decision(req.organizationId, approvedFields, req.purpose,
                           if expirationDays == 0 then OneTime else DurationLimited,
                           if expirationDays == 0 then None else Some(expiresAt), language));
        forall f {
          ApprovedIffSelected(selected, req.purpose, f);
        }
      }
    }
  }
}

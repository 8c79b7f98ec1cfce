/** The performance page's display rules: colours for OKR progress and
    review status, the readable form of a status, the OKR completion rate,
    and the guard on the create-OKR button. */
module PerformancePage {

  import opened Numeric
  import opened Strings
  import Ui

  /** `getProgressColor`: 70 and up is success, 40 to 69 warning, below 40 error. */
  function ProgressColour(progress: int): (c: Ui.Colour)
    ensures c == Ui.Success <==> progress >= 70
    ensures c == Ui.Warning <==> 40 <= progress < 70
    ensures c == Ui.Error <==> progress < 40
  {
    if progress >= 70 then Ui.Success
    else if progress >= 40 then Ui.Warning
    else Ui.Error
  }

  /** How good a progress colour is: error, then warning, then success. */
  function Rank(c: Ui.Colour): nat {
    match c
    case Success => 2
    case Warning => 1
    case _ => 0
  }

  /** More progress never gets a worse colour. */
  lemma ProgressColourMonotone(a: int, b: int)
    requires a <= b
    ensures Rank(ProgressColour(a)) <= Rank(ProgressColour(b))
  {
  }

  /** `getStatusColor`: any status not listed, such as `cancelled`, is an error. */
  function StatusColour(status: string): (c: Ui.Colour)
    ensures c == Ui.Success <==> status == "on_track"
    ensures c == Ui.Warning <==> status == "at_risk"
    ensures c == Ui.Info <==> status == "completed"
    ensures c == Ui.Default <==> status == "not_started"
    ensures c == Ui.Error <==> status !in {"on_track", "at_risk", "completed", "not_started"}
  {
    if status == "on_track" then Ui.Success
    else if status == "at_risk" then Ui.Warning
    else if status == "completed" then Ui.Info
    else if status == "not_started" then Ui.Default
    else Ui.Error
  }

  /** A character matched by the regular expression class `\w`. */
  predicate IsWordChar(c: char) {
    'a' <= c <= 'z' || 'A' <= c <= 'Z' || '0' <= c <= '9' || c == '_'
  }

  /** `s.replace(/_/g, ' ')`. */
  function UnderscoresToSpaces(s: string): (r: string)
    ensures |r| == |s|
    ensures forall i :: 0 <= i < |s| ==> r[i] == (if s[i] == '_' then ' ' else s[i])
    ensures '_' !in r
  {
    seq(|s|, i requires 0 <= i < |s| => if s[i] == '_' then ' ' else s[i])
  }

  /** `s.replace(/\b\w/g, c => c.toUpperCase())`: a word character that
      starts a word (nothing or a non-word character before it) is upper-cased. */
  function CapitaliseWords(s: string): (r: string)
    ensures |r| == |s|
    ensures forall i :: 0 <= i < |s| ==>
              r[i] == (if IsWordChar(s[i]) && (i == 0 || !IsWordChar(s[i - 1])) then UpperChar(s[i]) else s[i])
  {
    seq(|s|, i requires 0 <= i < |s| =>
      if IsWordChar(s[i]) && (i == 0 || !IsWordChar(s[i - 1])) then UpperChar(s[i]) else s[i])
  }

  /** The label shown when no translation exists. */
  function FallbackLabel(status: string): (r: string)
    ensures |r| == |status|
    ensures '_' !in r
  {
    var spaced := UnderscoresToSpaces(status);
    var r := CapitaliseWords(spaced);
    assert forall i :: 0 <= i < |r| ==> r[i] != '_';
    r
  }

  /** `getStatusLabel`: the translation of `performance.<status>` when there
      is one, the fallback label otherwise. */
  function StatusLabel(translations: map<string, string>, status: string): (r: string)
    ensures "performance." + status in translations ==> r == translations["performance." + status]
    ensures "performance." + status !in translations ==> r == FallbackLabel(status)
  {
    var key := "performance." + status;
    if key in translations then translations[key] else FallbackLabel(status)
  }

  /** `not_started` reads "Not Started" and `at_risk` reads "At Risk". */
  lemma FallbackExamples()
    ensures FallbackLabel("not_started") == "Not Started"
    ensures FallbackLabel("at_risk") == "At Risk"
  {
  }

  /** A text without underscores is left as it is. */
  lemma UnderscoresToSpacesKeepsPlain(s: string)
    requires '_' !in s
    ensures UnderscoresToSpaces(s) == s
  {
    assert forall i :: 0 <= i < |s| ==> s[i] != '_';
  }

  /** Replacing underscores a second time changes nothing. */
  lemma UnderscoresToSpacesIdempotent(s: string)
    ensures UnderscoresToSpaces(UnderscoresToSpaces(s)) == UnderscoresToSpaces(s)
  {
    UnderscoresToSpacesKeepsPlain(UnderscoresToSpaces(s));
  }

  /** A fallback label is its own fallback label. */
  lemma FallbackLabelIdempotent(s: string)
    ensures FallbackLabel(FallbackLabel(s)) == FallbackLabel(s)
  {
    var once := FallbackLabel(s);
    UnderscoresToSpacesKeepsPlain(once);
    CapitaliseWordsIdempotent(UnderscoresToSpaces(s));
  }

  /** Capitalising already-capitalised words changes nothing. */
  lemma CapitaliseWordsIdempotent(s: string)
    ensures CapitaliseWords(CapitaliseWords(s)) == CapitaliseWords(s)
  {
    var once := CapitaliseWords(s);
    assert forall i :: 0 <= i < |s| ==> (IsWordChar(once[i]) <==> IsWordChar(s[i]));
  }

  /** The OKR completion rate: `total ? round(completed / total * 100) : 0`. */
  function CompletionRate(completed: nat, total: nat): (r: int)
    ensures total == 0 ==> r == 0
    ensures total > 0 ==> (2 * r - 1) * total <= 200 * completed < (2 * r + 1) * total
    ensures completed <= total ==> 0 <= r <= 100
  {
    if total == 0 then 0
    else
      RoundedPercentRange(completed, total);
      RoundedPercent(completed, total)
  }

  /** All OKRs completed is 100 percent. */
  lemma AllCompletedIsFull(total: nat)
    requires total > 0
    ensures CompletionRate(total, total) == 100
  {
    RoundedPercentEnds(total);
  }

  /** The new-OKR form's three required fields. */
  datatype OkrForm = OkrForm(title: string, startDate: string, endDate: string)

  function CreateDisabled(f: OkrForm): (b: bool)
    ensures !b <==> f.title != "" && f.startDate != "" && f.endDate != ""
  {
    f.title == "" || f.startDate == "" || f.endDate == ""
  }
}

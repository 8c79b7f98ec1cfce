/** The audit log page's two display helpers: the short name of a logged
    subject class and the colour of an event. */
module AuditLogPage {

  import opened Strings
  import Ui

  const Backslash: char := '\\'

  /** `subject.split('\\').pop() || subject`: the text after the last
      backslash, or the whole subject when that text is empty. */
  function FormatLogSubject(subject: string): (r: string)
    ensures Backslash !in subject ==> r == subject
    ensures |r| <= |subject| && r == subject[|subject| - |r|..]
    ensures |subject| > 0 && subject[|subject| - 1] == Backslash ==> r == subject
    ensures Backslash in subject && subject[|subject| - 1] != Backslash ==>
              && Backslash !in r && |r| > 0
              && subject[|subject| - |r| - 1] == Backslash
  {
    var pieces := Split(subject, Backslash);
    var last := pieces[|pieces| - 1];
    SplitLast(subject, Backslash);
    if last != "" then last else subject
  }

  /** The result has no backslash unless the subject ends with one. */
  lemma NoBackslashUnlessTrailing(subject: string)
    requires |subject| == 0 || subject[|subject| - 1] != Backslash
    ensures Backslash !in FormatLogSubject(subject)
  {
  }

  /** A fully qualified model class is shown by its class name. */
  lemma ModelClassShortName()
    ensures FormatLogSubject("App\\Models\\Employee") == "Employee"
  {
    var parts := ["App", "Models", "Employee"];
    assert Join(parts, Backslash) == "App\\Models\\Employee";
    SplitJoin(parts, Backslash);
  }

  /** `getEventColor`. */
  function EventColour(event: string): (c: Ui.Colour)
    ensures c == Ui.Success <==> event == "created"
    ensures c == Ui.Info <==> event == "updated"
    ensures c == Ui.Error <==> event == "deleted"
    ensures c == Ui.Default <==> event !in {"created", "updated", "deleted"}
  {
    if event == "created" then Ui.Success
    else if event == "updated" then Ui.Info
    else if event == "deleted" then Ui.Error
    else Ui.Default
  }
}

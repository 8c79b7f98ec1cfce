/** In-app notifications as both the top bar's menu and the notifications
    page handle them: which page a notification leads to, and its text. */
module Notifications {

  import opened Wrappers

  /** The notification's `data` object; `kind` is its `type` field. */
  datatype Payload = Payload(
    kind: string,
    name: Option<string>,
    message: Option<string>,
    month: Option<string>,
    job: Option<string>)

  datatype Notification = Notification(id: string, data: Payload, readAt: Option<string>)

  /** `!noti.read_at`: no read time, or an empty one, means unread. */
  predicate Unread(n: Notification) {
    n.readAt.None? || n.readAt.value == ""
  }

  /** The four notification types that lead somewhere. */
  const RoutedKinds: set<string> := {"leave", "attendance", "payroll", "candidate"}

  /** The page a notification of type `kind` leads to; any other type stays put. */
  function Route(kind: string): (r: Option<string>)
    ensures r.Some? <==> kind in RoutedKinds
    ensures kind == "leave" ==> r == Some("/leave")
    ensures kind == "attendance" ==> r == Some("/attendance")
    ensures kind == "payroll" ==> r == Some("/payroll")
    ensures kind == "candidate" ==> r == Some("/recruitment")
  {
    match kind
    case "leave" => Some("/leave")
    case "attendance" => Some("/attendance")
    case "payroll" => Some("/payroll")
    case "candidate" => Some("/recruitment")
    case _ => None
  }

  /** Different types never lead to the same page. */
  lemma RoutesDistinct(a: string, b: string)
    requires Route(a).Some? && Route(a) == Route(b)
    ensures a == b
  {
  }

  /** What a notification says: a translated sentence with one interpolated
      value, or plain text. */
  datatype Text =
    | Translated(key: string, param: string, value: Option<string>)
    | Plain(text: string)

  /** `getNotificationText`: the four known types are translated with their
      own field; any other type shows `message`, or nothing. */
  function TextOf(n: Notification): (r: Text)
    ensures r.Plain? <==> n.data.kind !in RoutedKinds
    ensures r.Plain? ==> r.text == n.data.message.GetOr("")
    ensures n.data.kind == "leave" ==> r == Translated("notifications.newLeaveRequest", "name", n.data.name)
    ensures n.data.kind == "attendance" ==> r == Translated("notifications.attendanceAlert", "name", n.data.name)
    ensures n.data.kind == "payroll" ==> r == Translated("notifications.payrollProcessed", "month", n.data.month)
    ensures n.data.kind == "candidate" ==> r == Translated("notifications.newCandidate", "job", n.data.job)
  {
    match n.data.kind
    case "leave" => Translated("notifications.newLeaveRequest", "name", n.data.name)
    case "attendance" => Translated("notifications.attendanceAlert", "name", n.data.name)
    case "payroll" => Translated("notifications.payrollProcessed", "month", n.data.month)
    case "candidate" => Translated("notifications.newCandidate", "job", n.data.job)
    case _ => Plain(n.data.message.GetOr(""))
  }

  /** A notification is translated exactly when it also leads somewhere. */
  lemma TranslatedIffRouted(n: Notification)
    ensures TextOf(n).Translated? <==> Route(n.data.kind).Some?
  {
  }

  /** The effect of clicking a notification: the id to mark as read, if any,
      whether the list is fetched again, and the page to go to, if any. */
  datatype Click = Click(markRead: Option<string>, refresh: bool, navigateTo: Option<string>)

  /** `handleMarkAsRead`: an unread notification is first marked read on the
      server (`succeeded` is that request's outcome); when the request fails
      the handler stops, so it neither refreshes nor navigates. A read
      notification makes no request and navigates by its type. */
  function Open(n: Notification, succeeded: bool): (r: Click)
    ensures r.markRead.Some? <==> Unread(n)
    ensures r.markRead.Some? ==> r.markRead.value == n.id
    ensures r.refresh <==> Unread(n) && succeeded
    ensures Unread(n) && !succeeded ==> r.navigateTo.None?
    ensures !Unread(n) || succeeded ==> r.navigateTo == Route(n.data.kind)
    ensures r.navigateTo.Some? ==> n.data.kind in RoutedKinds
  {
    if Unread(n) && !succeeded then Click(Some(n.id), false, None)
    else Click(if Unread(n) then Some(n.id) else None, Unread(n), Route(n.data.kind))
  }

  /** Opening a notification that has been read makes no request, so the
      outcome of a request cannot matter, and it leads to the page a
      successful first opening led to. */
  lemma ReopenMakesNoCall(n: Notification, readAt: string, succeeded: bool)
    requires readAt != ""
    ensures Open(n.(readAt := Some(readAt)), succeeded).markRead.None?
    ensures Open(n.(readAt := Some(readAt)), succeeded) == Open(n.(readAt := Some(readAt)), !succeeded)
    ensures Open(n.(readAt := Some(readAt)), succeeded).navigateTo == Open(n, true).navigateTo
  {
  }
}

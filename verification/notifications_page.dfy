/** The notifications page: the list with its dividers, the unread header
    and the mark-all button. Clicking an item is `Notifications.Open`. */
module NotificationsPage {

  import opened Seqs

  /** The header text: the unread count, or the "no notifications" message. */
  datatype Header = UnreadCount(count: nat) | NothingNew

  function HeaderOf(unreadCount: int): (h: Header)
    ensures h.UnreadCount? <==> unreadCount > 0
    ensures h.UnreadCount? ==> h.count == unreadCount
  {
    if unreadCount > 0 then UnreadCount(unreadCount) else NothingNew
  }

  /** The mark-all button is shown exactly when there are unread notifications. */
  function MarkAllShown(unreadCount: int): (b: bool)
    ensures b <==> unreadCount > 0
  {
    unreadCount > 0
  }

  /** The header and the mark-all button never disagree. */
  lemma MarkAllShownWithCount(unreadCount: int)
    ensures MarkAllShown(unreadCount) <==> HeaderOf(unreadCount).UnreadCount?
  {
  }

  /** Whether a divider follows the item at each index of a list of `n`. */
  function Dividers(n: nat): (d: seq<bool>)
    ensures |d| == n
    ensures forall i :: 0 <= i < n ==> (d[i] <==> i < n - 1)
  {
    seq(n, i => i < n - 1)
  }

  function IsDivider(b: bool): bool { b }

  /** `n` items are separated by exactly `n - 1` dividers. */
  lemma DividerCount(n: nat)
    requires n > 0
    ensures Count(IsDivider, Dividers(n)) == n - 1
  {
    var d := Dividers(n);
    assert d == seq(n - 1, _ => true) + [false];
    FilterAppend(IsDivider, seq(n - 1, _ => true), [false]);
    CountConstant(IsDivider, true, n - 1);
    assert Filter(IsDivider, [false]) == [];
  }
}

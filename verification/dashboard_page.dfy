/** The dashboard's editable layout: two lists of widget names (the stat
    cards and the main widgets) that the user reorders by drag and drop. */
module DashboardPage {

  import opened Wrappers

  /** Which of the two lists a drag happened in. */
  datatype Zone = Stats | Main

  /** The two widget orders. */
  datatype Layout = Layout(statOrder: seq<string>, mainOrder: seq<string>)

  const InitialLayout: Layout :=
    Layout(["total", "present", "leave", "depts", "period"], ["chart", "activity"])

  /** A drop: the position the item was dragged from and, unless it was
      dropped outside the list, the position it was dropped at. */
  datatype Drop = Drop(source: nat, destination: Option<nat>)

  /** `s` without its element at position `i`. */
  function RemoveAt<T>(s: seq<T>, i: nat): (r: seq<T>)
    requires i < |s|
    ensures |r| == |s| - 1
  {
    s[..i] + s[i + 1..]
  }

  /** Where `splice(dst, 0, x)` inserts into a list of length `n`: positions
      past the end mean the end. */
  function InsertPosition(dst: nat, n: nat): (p: nat)
    ensures p <= n
    ensures dst <= n ==> p == dst
  {
    if dst <= n then dst else n
  }

  /** `splice(src, 1)` then `splice(dst, 0, item)` on a copy of `items`. */
  function Reorder<T>(items: seq<T>, src: nat, dst: nat): (r: seq<T>)
    requires src < |items|
    ensures |r| == |items|
    ensures multiset(r) == multiset(items)
    ensures r[InsertPosition(dst, |items| - 1)] == items[src]
    ensures RemoveAt(r, InsertPosition(dst, |items| - 1)) == RemoveAt(items, src)
  {
    var rest := RemoveAt(items, src);
    var d := InsertPosition(dst, |rest|);
    var r := rest[..d] + [items[src]] + rest[d..];
    assert items == items[..src] + [items[src]] + items[src + 1..];
    assert rest == rest[..d] + rest[d..];
    assert r[..d] == rest[..d] && r[d + 1..] == rest[d..];
    calc {
      multiset(r);
      multiset(rest[..d]) + multiset([items[src]]) + multiset(rest[d..]);
      multiset(rest) + multiset([items[src]]);
      multiset(items[..src]) + multiset(items[src + 1..]) + multiset([items[src]]);
      multiset(items);
    }
    r
  }

  /** Dropping an item where it was picked up changes nothing. */
  lemma ReorderInPlace<T>(items: seq<T>, i: nat)
    requires i < |items|
    ensures Reorder(items, i, i) == items
  {
    var r := Reorder(items, i, i);
    assert r[..i] == RemoveAt(r, i)[..i] == items[..i];
    assert r[i + 1..] == RemoveAt(r, i)[i..] == items[i + 1..];
    assert items == items[..i] + [items[i]] + items[i + 1..];
    assert r == r[..i] + [r[i]] + r[i + 1..];
  }

  /** The list a zone names. */
  function ListOf(layout: Layout, zone: Zone): seq<string> {
    match zone
    case Stats => layout.statOrder
    case Main => layout.mainOrder
  }

  /** `onDragEnd`: a drop outside the list changes nothing; otherwise only the
      list of the zone the drag happened in is reordered. */
  function OnDragEnd(layout: Layout, zone: Zone, drop: Drop): (r: Layout)
    requires drop.source < |ListOf(layout, zone)|
    ensures drop.destination.None? ==> r == layout
    ensures drop.destination.Some? ==>
              ListOf(r, zone) == Reorder(ListOf(layout, zone), drop.source, drop.destination.value)
    ensures zone == Stats ==> r.mainOrder == layout.mainOrder
    ensures zone == Main ==> r.statOrder == layout.statOrder
  {
    match drop.destination
    case None => layout
    case Some(dst) =>
      var items := Reorder(ListOf(layout, zone), drop.source, dst);
      match zone
      case Stats => layout.(statOrder := items)
      case Main => layout.(mainOrder := items)
  }

  /** Any drop keeps each list a rearrangement of the widgets it had. */
  lemma DropKeepsWidgets(layout: Layout, zone: Zone, drop: Drop)
    requires drop.source < |ListOf(layout, zone)|
    ensures multiset(OnDragEnd(layout, zone, drop).statOrder) == multiset(layout.statOrder)
    ensures multiset(OnDragEnd(layout, zone, drop).mainOrder) == multiset(layout.mainOrder)
  {
  }
}

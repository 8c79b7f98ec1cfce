/** A checkbox selection of names (a role's permissions, a user's roles):
    clicking a name removes it when it is selected and appends it otherwise. */
module Selection {

  import opened Seqs

  /** The names other than `name`, and `name` itself, as filter predicates. */
  function Except(name: string): string -> bool {
    x => x != name
  }

  function Only(name: string): string -> bool {
    x => x == name
  }

  /** Every entry of `sel` is either `name` or another name. */
  lemma {:induction false} ExceptOnlyCount(sel: seq<string>, name: string)
    ensures Count(Except(name), sel) + Count(Only(name), sel) == |sel|
    decreases |sel|
  {
    if sel != [] {
      ExceptOnlyCount(sel[1..], name);
    }
  }

  /** `prev.includes(name) ? prev.filter(p => p !== name) : [...prev, name]`:
      a selected name loses every one of its occurrences and nothing else, an
      unselected one is appended after the unchanged selection. */
  function Toggle(sel: seq<string>, name: string): (r: seq<string>)
    ensures name in sel ==> Subseq(r, sel) && |r| + Count(Only(name), sel) == |sel|
    ensures name !in sel ==> |r| == |sel| + 1 && r[..|sel|] == sel && r[|sel|] == name
    ensures name in r <==> name !in sel
    ensures forall x :: x != name ==> (x in r <==> x in sel)
  {
    if name in sel then
      ExceptOnlyCount(sel, name);
      Filter(Except(name), sel)
    else sel + [name]
  }

  /** A duplicate-free selection stays duplicate-free. */
  lemma ToggleKeepsNoDuplicates(sel: seq<string>, name: string)
    requires NoDuplicates(sel)
    ensures NoDuplicates(Toggle(sel, name))
  {
    if name in sel {
      FilterNoDuplicates(Except(name), sel);
    } else {
      var r := sel + [name];
      forall i, j | 0 <= i < j < |r|
        ensures r[i] != r[j]
      {
        if j == |sel| {
          assert r[i] == sel[i];
        } else {
          assert r[i] == sel[i] && r[j] == sel[j];
        }
      }
    }
  }

  /** Clicking an unselected name twice gives back exactly the same list. */
  lemma ToggleTwiceAbsent(sel: seq<string>, name: string)
    requires name !in sel
    ensures Toggle(Toggle(sel, name), name) == sel
  {
    var f := Except(name);
    FilterAppend(f, sel, [name]);
    FilterAll(f, sel);
  }

  /** Clicking a selected name twice selects it again, but at the end of the list. */
  lemma ToggleTwicePresent(sel: seq<string>, name: string)
    requires name in sel
    ensures Toggle(Toggle(sel, name), name) == Filter(Except(name), sel) + [name]
  {
  }
}

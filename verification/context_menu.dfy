/**
 The keyboard selection of an open context menu: it starts on the first item that is not a separator,
 and moves between those.
*/
module ContextMenu {
  import opened Options

  datatype Item = Separator | Entry(enabled: bool)

  predicate Selectable(items: seq<Item>, i: nat) {
    i < |items| && !items[i].Separator?
  }

  /** The nearest selectable row on each side of `from`, or `from` when there is none. */
  predicate IsPrev(items: seq<Item>, from: nat, r: nat) {
    || (r < from && Selectable(items, r) && forall k :: r < k < from ==> !Selectable(items, k))
    || (r == from && forall k :: 0 <= k < from ==> !Selectable(items, k))
  }

  predicate IsNext(items: seq<Item>, from: nat, r: nat) {
    || (from < r && Selectable(items, r) && forall k :: from < k < r ==> !Selectable(items, k))
    || (r == from && forall k :: from < k < |items| ==> !Selectable(items, k))
  }

  /** Down then up comes back to where it was, and up then down, whenever the first of the two moved. */
  lemma MovesAreInverse(items: seq<Item>, from: nat, there: nat, back: nat)
    requires Selectable(items, from) && there != from
    ensures IsNext(items, from, there) && IsPrev(items, there, back) ==> back == from
    ensures IsPrev(items, from, there) && IsNext(items, there, back) ==> back == from
  {
    assert from < there || there < from;
    if IsNext(items, from, there) && IsPrev(items, there, back) {
      assert from < there;
      assert !(back < from) by { assert Selectable(items, from); }
    }
    if IsPrev(items, from, there) && IsNext(items, there, back) {
      assert there < from;
      assert !(back > from) by { assert Selectable(items, from); }
    }
  }

  class ActiveContextMenu {
    const items: seq<Item>
    var selected: nat

    /** What Enter acts on: never a separator, provided the menu has anything else. */
    ghost predicate Valid()
      reads this
    {
      && ((exists i :: Selectable(items, i)) ==> Selectable(items, selected))
      && (if items == [] then selected == 0 else selected < |items|)
    }

    constructor (items: seq<Item>)
      ensures Valid() && this.items == items
      ensures forall k :: 0 <= k < selected ==> !Selectable(items, k)
    {
      var i := 0;
      while i < |items| && items[i].Separator?
        invariant i <= |items| && forall k :: 0 <= k < i ==> !Selectable(items, k)
      {
        i := i + 1;
      }
      this.items := items;
      this.selected := if i < |items| then i else 0;
    }

    method SelectPrev()
      requires Valid()
      modifies this
      ensures Valid() && IsPrev(items, old(selected), selected)
    {
      var i := selected;
      while i > 0
        invariant 0 <= i <= selected == old(selected)
        invariant forall k :: i <= k < selected ==> !Selectable(items, k)
        decreases i
      {
        i := i - 1;
        if !items[i].Separator? {
          selected := i;
          return;
        }
      }
    }

    method SelectNext()
      requires Valid()
      modifies this
      ensures Valid() && IsNext(items, old(selected), selected)
    {
      var i := selected;
      while i + 1 < |items|
        invariant selected <= i && selected == old(selected)
        invariant forall k :: selected < k <= i ==> !Selectable(items, k)
      {
        i := i + 1;
        if !items[i].Separator? {
          selected := i;
          return;
        }
      }
    }
  }
}

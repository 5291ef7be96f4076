/** The order list (src/components/pages/order/Order.jsx): a selection of
    order ids maintained by a per-row toggle, a select-all checkbox and a
    clear button. */
module Order {
  import Lists

  /** The ids held by a list, as a set. */
  function Members(s: seq<string>): (m: set<string>)
    ensures forall x :: x in m <==> x in s
  {
    set x | x in s
  }

  /** A list without duplicates has as many members as elements. */
  lemma {:induction false} DistinctMembers(s: seq<string>)
    requires Lists.Distinct(s)
    ensures |Members(s)| == |s|
    decreases |s|
  {
    if s != [] {
      DistinctMembers(s[1..]);
      assert Members(s) == {s[0]} + Members(s[1..]);
      assert s[0] !in s[1..];
    }
  }

  /** `isAllSelected` compares only lengths; for a duplicate-free selection
      drawn from the (duplicate-free) order ids it holds exactly when every
      order is selected. */
  lemma AllSelectedIffEvery(orders: seq<string>, selected: seq<string>)
    requires Lists.Distinct(orders) && Lists.Distinct(selected)
    requires forall i :: 0 <= i < |selected| ==> selected[i] in orders
    ensures |selected| == |orders| <==> forall i :: 0 <= i < |orders| ==> orders[i] in selected
  {
    DistinctMembers(orders);
    DistinctMembers(selected);
    var o := Members(orders);
    var s := Members(selected);
    assert s <= o;
    if |selected| == |orders| {
      SameSizeSubset(s, o);
      assert forall i :: 0 <= i < |orders| ==> orders[i] in o;
    }
    if forall i :: 0 <= i < |orders| ==> orders[i] in selected {
      assert o <= s;
      assert s == o;
      assert |s| == |o|;
    }
  }

  /** A subset of the same size is the whole set. */
  lemma SameSizeSubset(s: set<string>, o: set<string>)
    requires s <= o && |s| == |o|
    ensures s == o
  {
    var d := o - s;
    assert o == s + d && s * d == {};
    assert |o| == |s| + |d|;
    assert d == {};
  }

  /** `isAllSelected`: a non-empty list and a selection of the same length. */
  predicate AllSelected(orders: seq<string>, selected: seq<string>)
  {
    |orders| > 0 && |selected| == |orders|
  }

  class OrderSelection {
    /** The ids of the listed orders, in list order. */
    const orders: seq<string>
    var selectedIds: seq<string>

    /** The selection holds listed ids, each once. */
    predicate Valid()
      reads this
    {
      Lists.Distinct(orders) && Lists.Distinct(selectedIds)
      && forall i :: 0 <= i < |selectedIds| ==> selectedIds[i] in orders
    }

    constructor(orders: seq<string>)
      requires Lists.Distinct(orders)
      ensures this.orders == orders && selectedIds == [] && Valid()
    {
      this.orders := orders;
      selectedIds := [];
    }

    /** `handleSelectAll`: every id in list order when checked, none when
        unchecked. */
    method SelectAll(checked: bool)
      modifies this
      ensures checked ==> selectedIds == orders
      ensures !checked ==> selectedIds == []
      ensures Lists.Distinct(orders) ==> Valid()
      ensures checked ==> (IsAllSelected() <==> |orders| > 0)
    {
      if checked {
        selectedIds := orders;
      } else {
        selectedIds := [];
      }
    }

    /** `handleSelectOne`: the id is removed if selected, appended if not;
        a listed id keeps the selection valid. */
    method SelectOne(id: string)
      modifies this
      ensures selectedIds == Lists.Toggle(old(selectedIds), id)
      ensures id in selectedIds <==> id !in old(selectedIds)
      ensures old(Valid()) && id in orders ==> Valid()
    {
      if Lists.Distinct(selectedIds) {
        Lists.ToggleDistinct(selectedIds, id);
      }
      selectedIds := Lists.Toggle(selectedIds, id);
    }

    /** The clear button of the selection bar. */
    method Clear()
      modifies this
      ensures selectedIds == []
      ensures old(Valid()) ==> Valid()
    {
      selectedIds := [];
    }

    /** `isAllSelected` */
    predicate IsAllSelected()
      reads this
    {
      AllSelected(orders, selectedIds)
    }
  }

  /** Selecting a row twice gives back the selection it started from when
      the row was not selected, and in a duplicate-free selection it only
      moves the row to the end. */
  lemma SelectOneTwice(selected: seq<string>, id: string)
    requires Lists.Distinct(selected)
    ensures id !in selected ==> Lists.Toggle(Lists.Toggle(selected, id), id) == selected
    ensures id in selected ==>
      multiset(Lists.Toggle(Lists.Toggle(selected, id), id)) == multiset(selected)
  {
    if id !in selected {
      Lists.ToggleTwiceAbsent(selected, id);
    } else {
      var k :| 0 <= k < |selected| && selected[k] == id;
      DistinctCount(selected, k);
      Lists.ToggleTwicePresent(selected, id);
    }
  }

  lemma {:induction false} DistinctCount(s: seq<string>, k: int)
    requires Lists.Distinct(s) && 0 <= k < |s|
    ensures multiset(s)[s[k]] == 1
    decreases |s|
  {
    if k == 0 {
      assert s == [s[0]] + s[1..];
      assert s[0] !in s[1..];
      assert s[0] !in multiset(s[1..]);
    } else {
      assert s == [s[0]] + s[1..];
      assert s[1..][k - 1] == s[k];
      assert Lists.Distinct(s[1..]);
      DistinctCount(s[1..], k - 1);
      assert s[0] != s[k];
    }
  }
}

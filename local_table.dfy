/** The optimistic table update the CRUD screens repeat after a successful
    save or delete: the fetched page of rows and the server's `total` are
    edited locally instead of being fetched again.
      create: `setRows(prev => [record, ...prev])`, `total + 1`
      edit:   `setRows(prev => prev.map(item => item.id === editingId ? record : item))`
      delete: `setRows(prev => prev.filter(item => item.id !== deleteId))`, `total - 1` */
module LocalTable {
  import opened Js

  /** A table row: its `id` and the rest of the record. */
  datatype Row<D> = Row(id: JsVal, data: D)

  /** `rows.map(item => item.id === id ? record : item)` */
  function ReplaceById<D>(rows: seq<Row<D>>, id: JsVal, record: Row<D>): (r: seq<Row<D>>)
    ensures |r| == |rows|
    ensures forall i :: 0 <= i < |rows| && rows[i].id == id ==> r[i] == record
    ensures forall i :: 0 <= i < |rows| && rows[i].id != id ==> r[i] == rows[i]
  {
    if rows == [] then []
    else [if rows[0].id == id then record else rows[0]] + ReplaceById(rows[1..], id, record)
  }

  /** `rows.filter(item => item.id !== id)` */
  function RemoveById<D>(rows: seq<Row<D>>, id: JsVal): (r: seq<Row<D>>)
    ensures |r| <= |rows|
    ensures forall i :: 0 <= i < |r| ==> r[i].id != id && r[i] in rows
    ensures forall i :: 0 <= i < |rows| && rows[i].id != id ==> rows[i] in r
  {
    if rows == [] then []
    else if rows[0].id == id then RemoveById(rows[1..], id)
    else [rows[0]] + RemoveById(rows[1..], id)
  }

  /** How many rows carry `id`. */
  function Count<D>(rows: seq<Row<D>>, id: JsVal): nat
  {
    if rows == [] then 0 else (if rows[0].id == id then 1 else 0) + Count(rows[1..], id)
  }

  /** No two rows share an id. */
  predicate UniqueIds<D>(rows: seq<Row<D>>)
  {
    forall i, j :: 0 <= i < j < |rows| ==> rows[i].id != rows[j].id
  }

  /** Deleting drops exactly the rows carrying the id. */
  lemma {:induction false} RemoveByIdLength<D>(rows: seq<Row<D>>, id: JsVal)
    ensures |RemoveById(rows, id)| == |rows| - Count(rows, id)
    decreases |rows|
  {
    if rows != [] {
      RemoveByIdLength(rows[1..], id);
    }
  }

  /** A row id that is present occurs at least once. */
  lemma {:induction false} CountPresent<D>(rows: seq<Row<D>>, id: JsVal, k: int)
    requires 0 <= k < |rows| && rows[k].id == id
    ensures Count(rows, id) >= 1
    decreases |rows|
  {
    if k > 0 {
      CountPresent(rows[1..], id, k - 1);
    }
  }

  /** With unique ids, an id occurs at most once. */
  lemma {:induction false} CountUnique<D>(rows: seq<Row<D>>, id: JsVal)
    requires UniqueIds(rows)
    ensures Count(rows, id) <= 1
    decreases |rows|
  {
    if rows != [] {
      CountUnique(rows[1..], id);
      if rows[0].id == id && Count(rows[1..], id) == 1 {
        CountAbsent(rows[1..], id);
      }
    }
  }

  /** An id no row carries has count zero, and back. */
  lemma {:induction false} CountAbsent<D>(rows: seq<Row<D>>, id: JsVal)
    ensures Count(rows, id) == 0 <==> forall i :: 0 <= i < |rows| ==> rows[i].id != id
    decreases |rows|
  {
    if rows != [] {
      CountAbsent(rows[1..], id);
      assert forall i :: 1 <= i < |rows| ==> rows[i] == rows[1..][i - 1];
    }
  }

  /** Deleting one id from a table with unique ids removes exactly one row
      when the id is on the page and none otherwise. */
  lemma DeleteOneRow<D>(rows: seq<Row<D>>, id: JsVal)
    requires UniqueIds(rows)
    ensures (exists k :: 0 <= k < |rows| && rows[k].id == id) ==> |RemoveById(rows, id)| == |rows| - 1
    ensures (forall k :: 0 <= k < |rows| ==> rows[k].id != id) ==> RemoveById(rows, id) == rows
  {
    RemoveByIdLength(rows, id);
    CountUnique(rows, id);
    CountAbsent(rows, id);
    if exists k :: 0 <= k < |rows| && rows[k].id == id {
      var k :| 0 <= k < |rows| && rows[k].id == id;
      CountPresent(rows, id, k);
    } else {
      RemoveAbsent(rows, id);
    }
  }

  lemma {:induction false} RemoveAbsent<D>(rows: seq<Row<D>>, id: JsVal)
    requires forall k :: 0 <= k < |rows| ==> rows[k].id != id
    ensures RemoveById(rows, id) == rows
    decreases |rows|
  {
    if rows != [] {
      RemoveAbsent(rows[1..], id);
    }
  }

  /** Editing keeps ids unique when the saved record keeps the edited id. */
  lemma ReplaceKeepsUnique<D>(rows: seq<Row<D>>, id: JsVal, record: Row<D>)
    requires UniqueIds(rows) && record.id == id
    ensures UniqueIds(ReplaceById(rows, id, record))
  {
    var r := ReplaceById(rows, id, record);
    forall i, j | 0 <= i < j < |r| ensures r[i].id != r[j].id {
      assert r[i].id == rows[i].id && r[j].id == rows[j].id;
    }
  }

  /** Deleting keeps ids unique. */
  lemma {:induction false} RemoveKeepsUnique<D>(rows: seq<Row<D>>, id: JsVal)
    requires UniqueIds(rows)
    ensures UniqueIds(RemoveById(rows, id))
    decreases |rows|
  {
    if rows != [] {
      var tail := rows[1..];
      assert UniqueIds(tail) by {
        forall i, j | 0 <= i < j < |tail| ensures tail[i].id != tail[j].id {
          assert tail[i] == rows[i + 1] && tail[j] == rows[j + 1];
        }
      }
      RemoveKeepsUnique(tail, id);
      if rows[0].id != id {
        var r := RemoveById(tail, id);
        var s := [rows[0]] + r;
        forall i, j | 0 <= i < j < |s| ensures s[i].id != s[j].id {
          if i == 0 {
            assert s[j] == r[j - 1] && r[j - 1] in tail;
            var k :| 0 <= k < |tail| && tail[k] == r[j - 1];
            assert tail[k] == rows[k + 1];
          } else {
            assert s[i] == r[i - 1] && s[j] == r[j - 1];
          }
        }
      }
    }
  }

  /** Creating keeps ids unique when the returned record's id is new. */
  lemma PrependKeepsUnique<D>(rows: seq<Row<D>>, record: Row<D>)
    requires UniqueIds(rows)
    requires forall k :: 0 <= k < |rows| ==> rows[k].id != record.id
    ensures UniqueIds([record] + rows)
  {
    var s := [record] + rows;
    forall i, j | 0 <= i < j < |s| ensures s[i].id != s[j].id {
      assert s[j] == rows[j - 1];
      if i > 0 { assert s[i] == rows[i - 1]; }
    }
  }

  /** The fetched page of rows, the pagination `total`, and the id waiting
      in the delete confirmation, as one screen keeps them. */
  class Table<D> {
    var rows: seq<Row<D>>
    var total: int
    var deleteId: JsVal

    constructor(rows: seq<Row<D>>, total: int)
      ensures this.rows == rows && this.total == total && deleteId == Null
    {
      this.rows := rows;
      this.total := total;
      deleteId := Null;
    }

    /** A fetch replaces the page and the total. */
    method Load(rows: seq<Row<D>>, total: int)
      modifies this
      ensures this.rows == rows && this.total == total
    {
      this.rows := rows;
      this.total := total;
    }

    /** After a successful create: the returned record goes first and the
        total grows by one, so `total - |rows|` (the rows on other pages) is
        unchanged. */
    method Prepend(record: Row<D>)
      modifies this
      ensures rows == [record] + old(rows)
      ensures total == old(total) + 1
      ensures total - |rows| == old(total - |rows|)
      ensures deleteId == old(deleteId)
    {
      rows := [record] + rows;
      total := total + 1;
    }

    /** After a successful edit: the rows carrying `id` become the returned
        record; the length and the total do not change. */
    method Replace(id: JsVal, record: Row<D>)
      modifies this
      ensures rows == ReplaceById(old(rows), id, record)
      ensures |rows| == |old(rows)| && total == old(total)
      ensures deleteId == old(deleteId)
    {
      rows := ReplaceById(rows, id, record);
    }

    /** After a successful delete: every row carrying `id` goes and the total
        shrinks by one. When the page held exactly one such row,
        `total - |rows|` is unchanged. */
    method Remove(id: JsVal)
      modifies this
      ensures rows == RemoveById(old(rows), id)
      ensures total == old(total) - 1
      ensures Count(old(rows), id) == 1 ==> total - |rows| == old(total - |rows|)
      ensures deleteId == old(deleteId)
    {
      RemoveByIdLength(rows, id);
      rows := RemoveById(rows, id);
      total := total - 1;
    }

    /** The local update after a successful save: `editingId ? edit : create`. */
    method Saved(editingId: JsVal, record: Row<D>)
      modifies this
      ensures Truthy(editingId) ==>
        rows == ReplaceById(old(rows), editingId, record) && total == old(total)
      ensures !Truthy(editingId) ==> rows == [record] + old(rows) && total == old(total) + 1
      ensures deleteId == old(deleteId)
    {
      if Truthy(editingId) {
        Replace(editingId, record);
      } else {
        Prepend(record);
      }
    }

    /** The delete button opens the confirmation for `id`. */
    method AskDelete(id: JsVal)
      modifies this
      ensures deleteId == id && rows == old(rows) && total == old(total)
    {
      deleteId := id;
    }

    /** `handleDelete`: nothing without a pending id (`if (!deleteId) return`);
        a successful delete removes the id's rows and lowers the total; either
        way the pending id is then cleared. */
    method ConfirmDelete(succeeded: bool)
      modifies this
      ensures !Truthy(old(deleteId)) ==>
        deleteId == old(deleteId) && rows == old(rows) && total == old(total)
      ensures Truthy(old(deleteId)) && succeeded ==>
        rows == RemoveById(old(rows), old(deleteId)) && total == old(total) - 1
      ensures Truthy(old(deleteId)) && !succeeded ==> rows == old(rows) && total == old(total)
      ensures Truthy(old(deleteId)) ==> deleteId == Null
    {
      if !Truthy(deleteId) {
        return;
      }
      if succeeded {
        Remove(deleteId);
      }
      deleteId := Null;
    }
  }
}

/** The in-memory record list behind each screen: an ordered sequence of records,
    each an id plus the rest of its fields, changed only by appending, by
    replacing the fields of the records with a given id, and by removing the
    records with a given id. */
module RecordList {

  /** A stored record: its id and everything else (the draft's shape). */
  datatype Row<F> = Row(id: string, fields: F)

  predicate HasId<F>(rows: seq<Row<F>>, id: string)
  {
    exists k :: 0 <= k < |rows| && rows[k].id == id
  }

  /** No two records share an id. The screens do not enforce this: ids come from
      a millisecond clock, so two creates in the same millisecond collide. */
  predicate UniqueIds<F>(rows: seq<Row<F>>)
  {
    forall i, j :: 0 <= i < j < |rows| ==> rows[i].id != rows[j].id
  }

  /** The ids of the records, in list order. */
  function Ids<F>(rows: seq<Row<F>>): (ids: seq<string>)
    ensures |ids| == |rows|
    ensures forall k :: 0 <= k < |rows| ==> ids[k] == rows[k].id
  {
    if rows == [] then [] else [rows[0].id] + Ids(rows[1..])
  }

  /** `rows.filter(r => r.id !== id)`: the delete handlers. */
  function WithoutId<F>(rows: seq<Row<F>>, id: string): (r: seq<Row<F>>)
    ensures |r| <= |rows|
    ensures forall k :: 0 <= k < |r| ==> r[k].id != id && r[k] in rows
  {
    if rows == [] then []
    else (if rows[0].id == id then [] else [rows[0]]) + WithoutId(rows[1..], id)
  }

  /** `rows.map(r => r.id === id ? { ...r, ...fields } : r)`: the save handlers.
      The id of a replaced record is kept. */
  function ReplaceId<F>(rows: seq<Row<F>>, id: string, fields: F): (r: seq<Row<F>>)
    ensures |r| == |rows|
    ensures forall k :: 0 <= k < |rows| ==>
              r[k] == if rows[k].id == id then Row(id, fields) else rows[k]
  {
    if rows == [] then []
    else [if rows[0].id == id then Row(rows[0].id, fields) else rows[0]]
         + ReplaceId(rows[1..], id, fields)
  }

  // ---- delete ----

  /** Delete removes every record with the id and no other: each record occurs
      as often as before unless it has that id, and then not at all. */
  lemma {:induction false} WithoutIdCount<F>(rows: seq<Row<F>>, id: string, x: Row<F>)
    ensures multiset(WithoutId(rows, id))[x] == if x.id == id then 0 else multiset(rows)[x]
  {
    if rows != [] {
      WithoutIdCount(rows[1..], id, x);
      var head := if rows[0].id == id then [] else [rows[0]];
      var rest := WithoutId(rows[1..], id);
      assert WithoutId(rows, id) == head + rest;
      assert multiset(head + rest) == multiset(head) + multiset(rest);
      assert rows == [rows[0]] + rows[1..];
      assert multiset(rows) == multiset([rows[0]]) + multiset(rows[1..]);
    }
  }

  /** Delete keeps the remaining records in their order: it works on each part
      of the list separately. */
  lemma {:induction false} WithoutIdAppend<F>(a: seq<Row<F>>, b: seq<Row<F>>, id: string)
    ensures WithoutId(a + b, id) == WithoutId(a, id) + WithoutId(b, id)
  {
    if a == [] {
      assert a + b == b;
    } else {
      assert (a + b)[1..] == a[1..] + b;
      WithoutIdAppend(a[1..], b, id);
    }
  }

  /** Deleting an id that no record has changes nothing. */
  lemma {:induction false} WithoutIdAbsent<F>(rows: seq<Row<F>>, id: string)
    requires !HasId(rows, id)
    ensures WithoutId(rows, id) == rows
  {
    if rows != [] {
      assert rows[0].id != id;
      assert !HasId(rows[1..], id) by {
        forall k | 0 <= k < |rows[1..]| ensures rows[1..][k].id != id {
          assert rows[1..][k] == rows[k + 1];
        }
      }
      WithoutIdAbsent(rows[1..], id);
    }
  }

  /** After a delete no record has the id, so deleting it again is a no-op. */
  lemma WithoutIdIdempotent<F>(rows: seq<Row<F>>, id: string)
    ensures !HasId(WithoutId(rows, id), id)
    ensures WithoutId(WithoutId(rows, id), id) == WithoutId(rows, id)
  {
    WithoutIdAbsent(WithoutId(rows, id), id);
  }

  /** Delete keeps ids unique. */
  lemma {:induction false} WithoutIdUnique<F>(rows: seq<Row<F>>, id: string)
    requires UniqueIds(rows)
    ensures UniqueIds(WithoutId(rows, id))
  {
    if rows != [] {
      var tail := rows[1..];
      assert UniqueIds(tail) by {
        forall i, j | 0 <= i < j < |tail| ensures tail[i].id != tail[j].id {
          assert tail[i] == rows[i + 1] && tail[j] == rows[j + 1];
        }
      }
      WithoutIdUnique(tail, id);
      var rest := WithoutId(tail, id);
      if rows[0].id != id {
        forall k | 0 <= k < |rest| ensures rest[k].id != rows[0].id {
          var m :| 0 <= m < |tail| && tail[m] == rest[k];
          assert tail[m] == rows[m + 1];
        }
        assert WithoutId(rows, id) == [rows[0]] + rest;
      } else {
        assert WithoutId(rows, id) == rest;
      }
    }
  }

  // ---- save ----

  /** Save leaves the ids, and so the length and order of the records, as they were. */
  lemma ReplaceIdKeepsIds<F>(rows: seq<Row<F>>, id: string, fields: F)
    ensures Ids(ReplaceId(rows, id, fields)) == Ids(rows)
  {
  }

  /** Saving fields that every record with the id already carries changes nothing:
      opening a record for edit and saving at once leaves the list as it was. */
  lemma ReplaceIdNoop<F>(rows: seq<Row<F>>, id: string, fields: F)
    requires forall k :: 0 <= k < |rows| && rows[k].id == id ==> rows[k].fields == fields
    ensures ReplaceId(rows, id, fields) == rows
  {
  }

  /** Saving the same fields twice is the same as saving them once. */
  lemma ReplaceIdIdempotent<F>(rows: seq<Row<F>>, id: string, fields: F)
    ensures ReplaceId(ReplaceId(rows, id, fields), id, fields) == ReplaceId(rows, id, fields)
  {
  }

  /** With unique ids, after a save exactly one record has the edited id (when
      one had it before) and it carries the saved fields; ids stay unique. */
  lemma ReplaceIdExactlyOne<F>(rows: seq<Row<F>>, id: string, fields: F, k: nat)
    requires UniqueIds(rows)
    requires k < |rows| && rows[k].id == id
    ensures UniqueIds(ReplaceId(rows, id, fields))
    ensures ReplaceId(rows, id, fields)[k] == Row(id, fields)
    ensures forall j :: 0 <= j < |rows| && j != k ==>
              ReplaceId(rows, id, fields)[j].id != id && ReplaceId(rows, id, fields)[j] == rows[j]
  {
  }

  // ---- create ----

  /** Appending a record whose id is new keeps ids unique. */
  lemma AppendUnique<F>(rows: seq<Row<F>>, row: Row<F>)
    requires UniqueIds(rows) && !HasId(rows, row.id)
    ensures UniqueIds(rows + [row])
  {
  }
}

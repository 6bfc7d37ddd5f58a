/**
 * The hosted database as the data service uses it: one table per entity,
 * keyed by the row id. Query building, server-side filtering and ordering
 * are outside the model; a read is the `{data, error}` response it returns.
 */
module Remote {
  import opened Wrappers
  import opened Ids

  /** A `{data, error}` response; `data` is null when nothing came back. */
  datatype Response<T> = Response(data: Option<T>, error: bool)

  /** One listed row together with its id. */
  datatype Listed<R> = Listed(id: string, row: R)

  /** `data || []` on a list response. */
  function ListedRows<R>(resp: Response<seq<Listed<R>>>): seq<Listed<R>> {
    resp.data.GetOr([])
  }

  /** `rows.map(f)` over a listing. */
  function MapListed<R, T>(rows: seq<Listed<R>>, f: (string, R) -> T): seq<T> {
    seq(|rows|, i requires 0 <= i < |rows| => f(rows[i].id, rows[i].row))
  }

  /**
   * A listing of a whole table, in whatever order the query returns it:
   * every listed row is the table's row under its id, and every row is listed.
   */
  predicate ListsTable<R(==)>(listing: seq<Listed<R>>, rows: map<string, R>) {
    && (forall i :: 0 <= i < |listing| ==> listing[i].id in rows && rows[listing[i].id] == listing[i].row)
    && (forall k :: k in rows ==> exists i :: 0 <= i < |listing| && listing[i].id == k)
  }

  /**
   * Reading a listing of a table through `f` yields every row of the table,
   * each under its own id, and nothing that is not a row of the table.
   */
  lemma ListedRead<R, T>(listing: seq<Listed<R>>, rows: map<string, R>, f: (string, R) -> T)
    requires ListsTable(listing, rows)
    ensures forall k :: k in rows ==> f(k, rows[k]) in MapListed(listing, f)
    ensures forall x :: x in MapListed(listing, f) ==> exists k :: k in rows && x == f(k, rows[k])
  {
    var read := MapListed(listing, f);
    forall k | k in rows
      ensures f(k, rows[k]) in read
    {
      var i :| 0 <= i < |listing| && listing[i].id == k;
      assert read[i] == f(k, rows[k]);
    }
    forall x | x in read
      ensures exists k :: k in rows && x == f(k, rows[k])
    {
      var i :| 0 <= i < |read| && read[i] == x;
      assert x == f(listing[i].id, rows[listing[i].id]);
    }
  }

  /** `update(columns).eq('id', id)`: the matching row gets the columns, no row matching is no change. */
  function Patched<R>(rows: map<string, R>, id: string, patch: R -> R): (r: map<string, R>)
    ensures r.Keys == rows.Keys
    ensures forall k :: k in r && k != id ==> r[k] == rows[k]
    ensures id in rows ==> r[id] == patch(rows[id])
  {
    if id in rows then rows[id := patch(rows[id])] else rows
  }

  /** The id of the row a save writes: the record's own id when it is real, else the id the store issues. */
  function SaveTarget(id: string, newId: string): string {
    if IsRealId(id) then id else newId
  }

  /**
   * The effect of `if (isRealId(id)) update(row).eq('id', id) else insert(row)`
   * on a table, `newId` being the id the store issues on insert. Exactly one
   * table operation happens, and no row other than its target changes.
   */
  function Upserted<R>(rows: map<string, R>, id: string, row: R, newId: string): (r: map<string, R>)
    requires newId !in rows
    ensures IsRealId(id) ==> r.Keys == rows.Keys && (id in rows ==> r[id] == row)
    ensures !IsRealId(id) ==> r.Keys == rows.Keys + {newId} && r[newId] == row
    ensures forall k :: k in rows && k != SaveTarget(id, newId) ==> k in r && r[k] == rows[k]
  {
    if IsRealId(id) then Patched(rows, id, _ => row) else rows[newId := row]
  }

  /**
   * A record first saved under a temporary id lands under the real id the
   * store issued; saving it again under that id updates the same row.
   */
  lemma SecondSaveUpdates<R>(rows: map<string, R>, tempId: string, newId: string, row1: R, row2: R, unusedId: string)
    requires !IsRealId(tempId) && IsRealId(newId) && newId !in rows
    requires unusedId !in rows[newId := row1]
    ensures Upserted(Upserted(rows, tempId, row1, newId), newId, row2, unusedId) == rows[newId := row2]
  {
    var once := Upserted(rows, tempId, row1, newId);
    assert once == rows[newId := row1];
  }

  /**
   * A row saved by the upsert dispatch is read back by the next listing of
   * its table, under the id it was saved under. A real id must name an
   * existing row: an update matching no row writes nothing.
   */
  lemma SavedRowListed<R, T>(rows: map<string, R>, id: string, row: R, newId: string,
                             listing: seq<Listed<R>>, f: (string, R) -> T)
    requires newId !in rows && (IsRealId(id) ==> id in rows)
    requires ListsTable(listing, Upserted(rows, id, row, newId))
    ensures f(SaveTarget(id, newId), row) in MapListed(listing, f)
  {
    ListedRead(listing, Upserted(rows, id, row, newId), f);
  }

  /** The last order given to `id` in a list of `(id, order)` updates, if any. */
  function LastOrderFor(updates: seq<(string, int)>, id: string): Option<int>
    decreases |updates|
  {
    if updates == [] then None
    else
      var later := LastOrderFor(updates[1..], id);
      if later.Some? then later else if updates[0].0 == id then Some(updates[0].1) else None
  }

  /**
   * `LastOrderFor` is the order of the last update naming the id: it is
   * found exactly when some update names the id, and no later update does.
   */
  lemma {:induction false} LastOrderForSpec(updates: seq<(string, int)>, id: string)
    ensures LastOrderFor(updates, id).Some? <==> exists i :: 0 <= i < |updates| && updates[i].0 == id
    ensures LastOrderFor(updates, id).Some? ==>
      exists i :: 0 <= i < |updates| && updates[i] == (id, LastOrderFor(updates, id).value) &&
        forall j :: i < j < |updates| ==> updates[j].0 != id
    decreases |updates|
  {
    if updates != [] {
      var tail := updates[1..];
      LastOrderForSpec(tail, id);
      var later := LastOrderFor(tail, id);
      if later.Some? {
        var i :| 0 <= i < |tail| && tail[i] == (id, later.value) && forall j :: i < j < |tail| ==> tail[j].0 != id;
        assert updates[i + 1] == tail[i];
        forall j | i + 1 < j < |updates|
          ensures updates[j].0 != id
        {
          assert updates[j] == tail[j - 1];
        }
      } else {
        forall j | 0 < j < |updates|
          ensures updates[j].0 != id
        {
          assert updates[j] == tail[j - 1];
        }
        if updates[0].0 == id {
          assert updates[0] == (id, LastOrderFor(updates, id).value);
        }
      }
    }
  }

  /** The updates of a batch that the store took: each update's `{error}` is ignored, so a refused one is skipped. */
  function Kept(updates: seq<(string, int)>, written: seq<bool>): seq<(string, int)>
    requires |written| == |updates|
    decreases |updates|
  {
    if updates == [] then []
    else (if written[0] then [updates[0]] else []) + Kept(updates[1..], written[1..])
  }

  /** When the store takes every update of the batch, `Kept` is the whole batch. */
  lemma {:induction false} KeptAll(updates: seq<(string, int)>, written: seq<bool>)
    requires |written| == |updates| && forall i :: 0 <= i < |written| ==> written[i]
    ensures Kept(updates, written) == updates
    decreases |updates|
  {
    if updates != [] {
      KeptAll(updates[1..], written[1..]);
      assert [updates[0]] + updates[1..] == updates;
    }
  }

  /** When the store refuses every update of the batch, none is kept. */
  lemma {:induction false} KeptNone(updates: seq<(string, int)>, written: seq<bool>)
    requires |written| == |updates| && forall i :: 0 <= i < |written| ==> !written[i]
    ensures Kept(updates, written) == []
    decreases |updates|
  {
    if updates != [] {
      KeptNone(updates[1..], written[1..]);
    }
  }

  /** One `update({order_index}).eq('id', id)` per update, in list order. */
  function Reordered<R>(rows: map<string, R>, updates: seq<(string, int)>, setOrder: (R, int) -> R): map<string, R>
    decreases |updates|
  {
    if updates == [] then rows
    else Reordered(Patched(rows, updates[0].0, r => setOrder(r, updates[0].1)), updates[1..], setOrder)
  }

  /**
   * When setting the order overwrites the previous one, a sequence of order
   * updates leaves the table's ids as they were, leaves unlisted rows alone,
   * and gives each listed row the order of its last update.
   */
  lemma {:induction false} ReorderedEffect<R>(rows: map<string, R>, updates: seq<(string, int)>, setOrder: (R, int) -> R)
    requires forall r: R, a: int, b: int :: setOrder(setOrder(r, a), b) == setOrder(r, b)
    ensures Reordered(rows, updates, setOrder).Keys == rows.Keys
    ensures forall k :: k in rows ==>
      Reordered(rows, updates, setOrder)[k]
        == (if LastOrderFor(updates, k).Some? then setOrder(rows[k], LastOrderFor(updates, k).value) else rows[k])
    decreases |updates|
  {
    if updates != [] {
      var p := Patched(rows, updates[0].0, r => setOrder(r, updates[0].1));
      ReorderedEffect(p, updates[1..], setOrder);
      forall k | k in rows
        ensures Reordered(rows, updates, setOrder)[k]
          == (if LastOrderFor(updates, k).Some? then setOrder(rows[k], LastOrderFor(updates, k).value) else rows[k])
      {
        var later := LastOrderFor(updates[1..], k);
        if later.Some? {
          if k == updates[0].0 {
            assert p[k] == setOrder(rows[k], updates[0].1);
            assert setOrder(p[k], later.value) == setOrder(rows[k], later.value);
          }
        }
      }
    }
  }

  class Table<R> {
    var rows: map<string, R>

    constructor (init: map<string, R>)
      ensures rows == init
    {
      rows := init;
    }

    /** `insert(row)`; the store issues the fresh id `newId`. */
    method Insert(row: R, newId: string)
      requires newId !in rows
      modifies this
      ensures rows == old(rows)[newId := row]
    {
      rows := rows[newId := row];
    }

    /** `update(columns).eq('id', id)`, the columns given as a patch on the row. */
    method Update(id: string, patch: R -> R)
      modifies this
      ensures rows == Patched(old(rows), id, patch)
    {
      if id in rows {
        rows := rows[id := patch(rows[id])];
      }
    }

    /** `delete().eq('id', id)`: idempotent. */
    method Delete(id: string)
      modifies this
      ensures rows == old(rows) - {id}
    {
      rows := rows - {id};
    }

    /** `upsert(row, {onConflict: key})`. */
    method Upsert(key: string, row: R)
      modifies this
      ensures rows == old(rows)[key := row]
    {
      rows := rows[key := row];
    }
  }
}

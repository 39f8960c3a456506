/** What the statements on the `expenses` table do to its rows: the UPDATE and
    DELETE keyed by id, and the listing ordered by date, newest first. */
module ExpenseRows {
  import opened Schema

  predicate HasId(rows: seq<Expense>, id: int) {
    exists i :: 0 <= i < |rows| && rows[i].id == id
  }

  /** The PRIMARY KEY constraint: no two rows share an id. */
  predicate UniqueIds(rows: seq<Expense>) {
    forall i, j :: 0 <= i < j < |rows| ==> rows[i].id != rows[j].id
  }

  /** `UPDATE expenses SET date, amount, category, payment_method WHERE id = id`. */
  function Updated(rows: seq<Expense>, id: int, date: Date, amount: int, category: string, paymentMethod: string): seq<Expense>
  {
    if rows == [] then []
    else
      var head := if rows[0].id == id then Expense(id, date, amount, category, paymentMethod) else rows[0];
      [head] + Updated(rows[1..], id, date, amount, category, paymentMethod)
  }

  /** Row by row, the update rewrites the four fields of the rows carrying `id`,
      keeps their id and leaves every other row as it was. */
  lemma {:induction false} UpdatedRows(rows: seq<Expense>, id: int, date: Date, amount: int, category: string, paymentMethod: string)
    ensures var r := Updated(rows, id, date, amount, category, paymentMethod);
      && |r| == |rows|
      && forall i :: 0 <= i < |rows| ==>
           r[i] == if rows[i].id == id then Expense(id, date, amount, category, paymentMethod) else rows[i]
  {
    if rows != [] {
      UpdatedRows(rows[1..], id, date, amount, category, paymentMethod);
    }
  }

  /** An update never changes an id, so it keeps the ids unique. */
  lemma {:induction false} UpdatedKeepsIds(rows: seq<Expense>, id: int, date: Date, amount: int, category: string, paymentMethod: string)
    ensures var r := Updated(rows, id, date, amount, category, paymentMethod);
      && |r| == |rows|
      && (forall i :: 0 <= i < |rows| ==> r[i].id == rows[i].id)
      && (UniqueIds(rows) ==> UniqueIds(r))
  {
    UpdatedRows(rows, id, date, amount, category, paymentMethod);
  }

  /** Updating an id that no row carries changes nothing. */
  lemma {:induction false} UpdateOfAbsentId(rows: seq<Expense>, id: int, date: Date, amount: int, category: string, paymentMethod: string)
    requires !HasId(rows, id)
    ensures Updated(rows, id, date, amount, category, paymentMethod) == rows
  {
    var r := Updated(rows, id, date, amount, category, paymentMethod);
    UpdatedRows(rows, id, date, amount, category, paymentMethod);
    assert forall i :: 0 <= i < |rows| ==> r[i] == rows[i];
  }

  /** `DELETE FROM expenses WHERE id = id`: the rows without that id, in order. */
  function Deleted(rows: seq<Expense>, id: int): seq<Expense>
  {
    if rows == [] then []
    else if rows[0].id == id then Deleted(rows[1..], id)
    else [rows[0]] + Deleted(rows[1..], id)
  }

  /** Deleting keeps exactly the rows whose id differs from `id`. */
  lemma {:induction false} DeletedRows(rows: seq<Expense>, id: int)
    ensures var r := Deleted(rows, id);
      && |r| <= |rows|
      && forall e :: e in r <==> e in rows && e.id != id
  {
    if rows != [] {
      DeletedRows(rows[1..], id);
      assert rows == [rows[0]] + rows[1..];
    }
  }

  /** No row with the deleted id is left. */
  lemma {:induction false} DeletedIdIsGone(rows: seq<Expense>, id: int)
    ensures !HasId(Deleted(rows, id), id)
  {
    var r := Deleted(rows, id);
    DeletedRows(rows, id);
    forall i | 0 <= i < |r| ensures r[i].id != id {
      assert r[i] in r;
    }
  }

  /** Deleting an id no row carries changes nothing; in particular a second
      delete of the same id is a no-op on the table. */
  lemma {:induction false} DeleteOfAbsentId(rows: seq<Expense>, id: int)
    requires !HasId(rows, id)
    ensures Deleted(rows, id) == rows
  {
    if rows != [] {
      assert rows[0].id != id;
      assert !HasId(rows[1..], id) by {
        forall i | 0 <= i < |rows[1..]| ensures rows[1..][i].id != id {
          assert rows[1..][i] == rows[i + 1];
        }
      }
      DeleteOfAbsentId(rows[1..], id);
    }
  }

  lemma {:induction false} DeleteIsIdempotent(rows: seq<Expense>, id: int)
    ensures Deleted(Deleted(rows, id), id) == Deleted(rows, id)
  {
    DeletedRows(rows, id);
    DeleteOfAbsentId(Deleted(rows, id), id);
  }

  /** Splitting off the first row of a table. */
  lemma TailHasId(rows: seq<Expense>, id: int)
    requires rows != []
    ensures HasId(rows, id) <==> rows[0].id == id || HasId(rows[1..], id)
    ensures UniqueIds(rows) ==> UniqueIds(rows[1..])
    ensures UniqueIds(rows) && rows[0].id == id ==> !HasId(rows[1..], id)
  {
    var tail := rows[1..];
    assert forall i :: 0 <= i < |tail| ==> tail[i] == rows[i + 1];
    if HasId(rows, id) {
      var i :| 0 <= i < |rows| && rows[i].id == id;
      if i > 0 { assert tail[i - 1] == rows[i]; }
    }
  }

  /** A table whose first row's id occurs nowhere else, and whose rest has unique ids. */
  lemma ConsUniqueIds(e: Expense, rest: seq<Expense>)
    requires UniqueIds(rest) && !HasId(rest, e.id)
    ensures UniqueIds([e] + rest)
  {
    var r := [e] + rest;
    forall i, j | 0 <= i < j < |r| ensures r[i].id != r[j].id {
      assert r[j] == rest[j - 1];
      if i > 0 { assert r[i] == rest[i - 1]; }
    }
  }

  /** With unique ids a delete removes one row when the id is present and none
      otherwise, and the ids left stay unique. */
  lemma {:induction false} DeletedCount(rows: seq<Expense>, id: int)
    requires UniqueIds(rows)
    ensures |Deleted(rows, id)| == if HasId(rows, id) then |rows| - 1 else |rows|
    ensures UniqueIds(Deleted(rows, id))
  {
    if rows != [] {
      var tail := rows[1..];
      TailHasId(rows, id);
      DeletedCount(tail, id);
      if rows[0].id != id {
        var d := Deleted(tail, id);
        DeletedRows(tail, id);
        TailHasId(rows, rows[0].id);
        forall k | 0 <= k < |d| ensures d[k].id != rows[0].id {
          assert d[k] in d;
        }
        ConsUniqueIds(rows[0], d);
      }
    }
  }

  /** `ORDER BY date DESC`: row `i` is dated on or after every later row. */
  predicate NewestFirst(rows: seq<Expense>) {
    forall i, j :: 0 <= i < j < |rows| ==> DateLe(rows[j].date, rows[i].date)
  }

  /** What `SELECT … FROM expenses ORDER BY date DESC` may return: every stored
      row exactly once, newest first; rows of the same date in any order. */
  predicate IsListing(result: seq<Expense>, rows: seq<Expense>) {
    multiset(result) == multiset(rows) && NewestFirst(result)
  }

  /** Places `e` into a newest-first listing, after the rows dated on or after it. */
  function InsertByDate(e: Expense, sorted: seq<Expense>): seq<Expense>
  {
    if sorted == [] || !DateLe(e.date, sorted[0].date) then [e] + sorted
    else [sorted[0]] + InsertByDate(e, sorted[1..])
  }

  /** One order the database may return the rows in. */
  function Listing(rows: seq<Expense>): seq<Expense>
  {
    if rows == [] then [] else InsertByDate(rows[0], Listing(rows[1..]))
  }

  lemma {:induction false} InsertByDateSorted(e: Expense, sorted: seq<Expense>)
    requires NewestFirst(sorted)
    ensures multiset(InsertByDate(e, sorted)) == multiset(sorted) + multiset{e}
    ensures NewestFirst(InsertByDate(e, sorted))
    ensures |InsertByDate(e, sorted)| == |sorted| + 1
    ensures forall x :: x in InsertByDate(e, sorted) ==> x == e || x in sorted
  {
    if sorted == [] || !DateLe(e.date, sorted[0].date) {
    } else {
      var tail := sorted[1..];
      assert sorted == [sorted[0]] + tail;
      InsertByDateSorted(e, tail);
      var r := InsertByDate(e, sorted);
      assert r == [sorted[0]] + InsertByDate(e, tail);
      forall i, j | 0 <= i < j < |r| ensures DateLe(r[j].date, r[i].date) {
        if i == 0 {
          assert r[j] in InsertByDate(e, tail);
        }
      }
    }
  }

  /** The listing is a permutation of the table, newest first. */
  lemma {:induction false} ListingIsListing(rows: seq<Expense>)
    ensures IsListing(Listing(rows), rows)
  {
    if rows != [] {
      ListingIsListing(rows[1..]);
      InsertByDateSorted(rows[0], Listing(rows[1..]));
      assert rows == [rows[0]] + rows[1..];
    }
  }
}

/** What `INSERT … ON CONFLICT (category) DO UPDATE` does to the `budgets`
    table, whose `category` column is UNIQUE. */
module BudgetRows {
  import opened Schema

  /** The UNIQUE constraint on `budgets.category`. */
  predicate UniqueCategories(rows: seq<Budget>) {
    forall i, j :: 0 <= i < j < |rows| ==> rows[i].category != rows[j].category
  }

  /** The number of rows budgeting `category`. */
  function CountCategory(rows: seq<Budget>, category: string): nat
  {
    if rows == [] then 0
    else (if rows[0].category == category then 1 else 0) + CountCategory(rows[1..], category)
  }

  /** The first row budgeting `category`, if any. */
  function Lookup(rows: seq<Budget>, category: string): Option<Budget>
  {
    if rows == [] then None
    else if rows[0].category == category then Some(rows[0])
    else Lookup(rows[1..], category)
  }

  /** The upsert: overwrite both amounts of the row for `b.category` in place,
      or append a row when there is none. */
  function Upserted(rows: seq<Budget>, b: Budget): seq<Budget>
  {
    if rows == [] then [b]
    else if rows[0].category == b.category then [b] + rows[1..]
    else [rows[0]] + Upserted(rows[1..], b)
  }

  /** A table with unique categories has at most one row per category. */
  lemma {:induction false} UniqueCount(rows: seq<Budget>, category: string)
    requires UniqueCategories(rows)
    ensures CountCategory(rows, category) <= 1
    ensures CountCategory(rows, category) == 0 <==> Lookup(rows, category) == None
  {
    if rows != [] {
      var tail := rows[1..];
      assert UniqueCategories(tail) by {
        forall i, j | 0 <= i < j < |tail| ensures tail[i].category != tail[j].category {
          assert tail[i] == rows[i + 1] && tail[j] == rows[j + 1];
        }
      }
      UniqueCount(tail, category);
      if rows[0].category == category {
        AbsentFromTail(rows);
      }
    }
  }

  /** Under the UNIQUE constraint the first row's category occurs nowhere else. */
  lemma {:induction false} AbsentFromTail(rows: seq<Budget>)
    requires rows != [] && UniqueCategories(rows)
    ensures CountCategory(rows[1..], rows[0].category) == 0
    decreases |rows|
  {
    if |rows| > 1 {
      var rest := [rows[0]] + rows[2..];
      assert UniqueCategories(rest) by {
        forall i, j | 0 <= i < j < |rest| ensures rest[i].category != rest[j].category {
          if i == 0 {
            assert rest[j] == rows[j + 1];
          } else {
            assert rest[i] == rows[i + 1] && rest[j] == rows[j + 1];
          }
        }
      }
      AbsentFromTail(rest);
      assert rest[1..] == rows[1..][1..];
    }
  }

  /** After the upsert the table holds exactly one row for `b.category`, and it
      carries the new amounts; every other category reads as before; the row
      count grows by one only when the category was new. */
  lemma {:induction false} UpsertedRows(rows: seq<Budget>, b: Budget)
    requires UniqueCategories(rows)
    ensures var r := Upserted(rows, b);
      && UniqueCategories(r)
      && CountCategory(r, b.category) == 1
      && Lookup(r, b.category) == Some(b)
      && (forall c :: c != b.category ==> Lookup(r, c) == Lookup(rows, c))
      && |r| == if Lookup(rows, b.category) == None then |rows| + 1 else |rows|
  {
    var r := Upserted(rows, b);
    if rows == [] {
    } else {
      var tail := rows[1..];
      assert UniqueCategories(tail) by {
        forall i, j | 0 <= i < j < |tail| ensures tail[i].category != tail[j].category {
          assert tail[i] == rows[i + 1] && tail[j] == rows[j + 1];
        }
      }
      if rows[0].category == b.category {
        AbsentFromTail(rows);
        UniqueCount(tail, b.category);
        assert r == [b] + tail;
        assert UniqueCategories(r) by {
          forall i, j | 0 <= i < j < |r| ensures r[i].category != r[j].category {
            if i > 0 {
              assert r[i] == rows[i] && r[j] == rows[j];
            } else {
              assert r[j] == rows[j];
            }
          }
        }
      } else {
        UpsertedRows(tail, b);
        var u := Upserted(tail, b);
        assert r == [rows[0]] + u;
        AbsentFromTail(rows);
        assert CountCategory(u, rows[0].category) == 0 by {
          UpsertedCountOther(tail, b, rows[0].category);
        }
        UniqueCount(u, rows[0].category);
        assert UniqueCategories(r) by {
          forall i, j | 0 <= i < j < |r| ensures r[i].category != r[j].category {
            if i > 0 {
              assert r[i] == u[i - 1] && r[j] == u[j - 1];
            } else {
              assert r[j] == u[j - 1];
              CountPositive(u, j - 1);
            }
          }
        }
      }
    }
  }

  /** The upsert leaves the row count of every other category alone. */
  lemma {:induction false} UpsertedCountOther(rows: seq<Budget>, b: Budget, c: string)
    requires c != b.category
    ensures CountCategory(Upserted(rows, b), c) == CountCategory(rows, c)
  {
    if rows != [] && rows[0].category != b.category {
      UpsertedCountOther(rows[1..], b, c);
    } else if rows != [] {
      assert Upserted(rows, b)[1..] == rows[1..];
    }
  }

  /** A row at index `k` is counted for its own category. */
  lemma {:induction false} CountPositive(rows: seq<Budget>, k: int)
    requires 0 <= k < |rows|
    ensures CountCategory(rows, rows[k].category) >= 1
  {
    if k > 0 {
      CountPositive(rows[1..], k - 1);
    }
  }

  /** Every row after the upsert is the new row or an old one. */
  lemma {:induction false} UpsertedMembers(rows: seq<Budget>, b: Budget)
    ensures forall x :: x in Upserted(rows, b) ==> x == b || x in rows
  {
    if rows != [] && rows[0].category != b.category {
      UpsertedMembers(rows[1..], b);
    }
  }

  /** Upserting the same category twice leaves what the second call wrote. */
  lemma {:induction false} UpsertTwice(rows: seq<Budget>, first: Budget, second: Budget)
    requires first.category == second.category
    ensures Upserted(Upserted(rows, first), second) == Upserted(rows, second)
  {
    if rows != [] && rows[0].category != first.category {
      UpsertTwice(rows[1..], first, second);
    }
  }
}

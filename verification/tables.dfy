/**
 Tables as sequences of rows, for the tables whose pairs carry no uniqueness
 constraint: a duplicate row is representable, and `filter_by(...).first()`
 followed by a delete removes the earliest matching row.
 */
module Tables {

  /** No row appears twice. */
  predicate NoDuplicates<T(==)>(rows: seq<T>)
  {
    forall i, j :: 0 <= i < j < |rows| ==> rows[i] != rows[j]
  }

  /** The table without its earliest row equal to `x`; unchanged when there is none. */
  function RemoveFirst<T(==)>(rows: seq<T>, x: T): (r: seq<T>)
    ensures multiset(r) == multiset(rows) - multiset{x}
    ensures x !in rows ==> r == rows
    ensures x in rows ==> |r| == |rows| - 1
  {
    if |rows| == 0 then []
    else if rows[0] == x then
      assert rows == [rows[0]] + rows[1..];
      rows[1..]
    else
      assert rows == [rows[0]] + rows[1..];
      [rows[0]] + RemoveFirst(rows[1..], x)
  }

  /** The row removed is the earliest one equal to `x`; the others keep their order. */
  lemma {:induction false} RemoveFirstIsEarliest<T>(rows: seq<T>, x: T, i: nat)
    requires i < |rows| && rows[i] == x && x !in rows[..i]
    ensures RemoveFirst(rows, x) == rows[..i] + rows[i + 1..]
  {
    if i > 0 {
      assert rows[0] in rows[..i];
      assert rows[1..][..i - 1] == rows[1..i];
      assert x !in rows[1..][..i - 1];
      RemoveFirstIsEarliest(rows[1..], x, i - 1);
      assert rows[..i] == [rows[0]] + rows[1..][..i - 1];
      assert rows[1..][i..] == rows[i + 1..];
    }
  }

  /** In a table without duplicates, removing the first `x` removes every `x`. */
  lemma {:induction false} RemoveFirstRemovesAll<T>(rows: seq<T>, x: T)
    requires NoDuplicates(rows)
    ensures x !in RemoveFirst(rows, x)
    ensures NoDuplicates(RemoveFirst(rows, x))
  {
    if |rows| > 0 {
      var tail := rows[1..];
      UnconsNoDuplicates(rows);
      if rows[0] != x {
        RemoveFirstRemovesAll(tail, x);
        var rest := RemoveFirst(tail, x);
        assert rows[0] !in multiset(rest) by {
          assert multiset(rest) <= multiset(tail);
          assert rows[0] !in multiset(tail);
        }
        ConsNoDuplicates(rows[0], rest);
      }
    }
  }

  lemma UnconsNoDuplicates<T>(rows: seq<T>)
    requires NoDuplicates(rows) && |rows| > 0
    ensures NoDuplicates(rows[1..]) && rows[0] !in rows[1..]
  {
    var tail := rows[1..];
    forall k | 0 <= k < |tail| ensures tail[k] != rows[0] { assert tail[k] == rows[k + 1]; }
  }

  lemma ConsNoDuplicates<T>(a: T, rows: seq<T>)
    requires NoDuplicates(rows) && a !in rows
    ensures NoDuplicates([a] + rows)
  {
    var r := [a] + rows;
    forall i, j | 0 <= i < j < |r| ensures r[i] != r[j] {
      if i == 0 { assert r[j] == rows[j - 1]; } else { assert r[i] == rows[i - 1] && r[j] == rows[j - 1]; }
    }
  }

  /** Appending a row the table does not hold keeps it duplicate-free. */
  lemma AppendFresh<T>(rows: seq<T>, x: T)
    requires NoDuplicates(rows) && x !in rows
    ensures NoDuplicates(rows + [x])
  {
    var r := rows + [x];
    forall i, j | 0 <= i < j < |r| ensures r[i] != r[j] {
      if j == |rows| {
        assert r[i] == rows[i];
      } else {
        assert r[i] == rows[i] && r[j] == rows[j];
      }
    }
  }

  /** Removing the first `x` from a table that gained `x` at its end, and held none before, restores it. */
  lemma {:induction false} RemoveFirstAppended<T>(rows: seq<T>, x: T)
    requires x !in rows
    ensures RemoveFirst(rows + [x], x) == rows
  {
    if |rows| > 0 {
      assert (rows + [x])[1..] == rows[1..] + [x];
      RemoveFirstAppended(rows[1..], x);
      assert rows == [rows[0]] + rows[1..];
    }
  }
}

/**
 * The order of the ledger queries: `ORDER BY symbol, purchase_date` over the stored
 * rows. Symbols compare character by character (SQLite's binary collation); rows
 * that tie on both keys keep their row order.
 */
module LedgerOrder {
  import opened Options

  /** A row of the lot table: the stored columns the engine reads. */
  datatype LotRow = LotRow(
    id: int,
    symbol: string,
    shares: real,
    purchasePrice: real,
    purchaseDate: int,
    notes: Option<string>)

  /** Lexicographic order on strings: the first differing character decides, and a proper prefix comes first. */
  function StrLess(a: string, b: string): bool {
    if b == [] then false
    else if a == [] then true
    else if a[0] != b[0] then a[0] < b[0]
    else StrLess(a[1..], b[1..])
  }

  lemma {:induction false} StrLessIrreflexive(a: string)
    ensures !StrLess(a, a)
    decreases |a|
  {
    if a != [] {
      StrLessIrreflexive(a[1..]);
    }
  }

  lemma {:induction false} StrLessTransitive(a: string, b: string, c: string)
    requires StrLess(a, b) && StrLess(b, c)
    ensures StrLess(a, c)
    decreases |a|
  {
    if a != [] && a[0] == b[0] && b[0] == c[0] {
      StrLessTransitive(a[1..], b[1..], c[1..]);
    }
  }

  /** Any two different strings are ordered one way or the other. */
  lemma {:induction false} StrLessTotal(a: string, b: string)
    requires a != b
    ensures StrLess(a, b) || StrLess(b, a)
    decreases |a|
  {
    if a != [] && b != [] && a[0] == b[0] {
      assert a == [a[0]] + a[1..] && b == [b[0]] + b[1..];
      StrLessTotal(a[1..], b[1..]);
    }
  }

  /** `a` may come before `b`: a smaller symbol, or the same symbol and a date no later. */
  predicate LotLeq(a: LotRow, b: LotRow) {
    StrLess(a.symbol, b.symbol) || (a.symbol == b.symbol && a.purchaseDate <= b.purchaseDate)
  }

  /** `a` must come before `b`. */
  predicate LotLess(a: LotRow, b: LotRow) {
    StrLess(a.symbol, b.symbol) || (a.symbol == b.symbol && a.purchaseDate < b.purchaseDate)
  }

  lemma {:induction false} LotLeqTransitive(a: LotRow, b: LotRow, c: LotRow)
    requires LotLeq(a, b) && LotLeq(b, c)
    ensures LotLeq(a, c)
  {
    if StrLess(a.symbol, b.symbol) && StrLess(b.symbol, c.symbol) {
      StrLessTransitive(a.symbol, b.symbol, c.symbol);
    }
  }

  /** Whatever does not have to come before `y` may come after it. */
  lemma {:induction false} LotLessTotal(x: LotRow, y: LotRow)
    requires !LotLess(x, y)
    ensures LotLeq(y, x)
  {
    if x.symbol != y.symbol {
      StrLessTotal(x.symbol, y.symbol);
    }
  }

  ghost predicate Ordered(rows: seq<LotRow>) {
    forall i, j :: 0 <= i < j < |rows| ==> LotLeq(rows[i], rows[j])
  }

  lemma {:induction false} TailOrdered(rows: seq<LotRow>)
    requires rows != [] && Ordered(rows)
    ensures Ordered(rows[1..])
    ensures forall k :: 0 <= k < |rows| ==> LotLeq(rows[0], rows[k])
  {
    var tail := rows[1..];
    forall i, j | 0 <= i < j < |tail| ensures LotLeq(tail[i], tail[j]) {
      assert tail[i] == rows[i + 1] && tail[j] == rows[j + 1];
    }
    forall k | 0 <= k < |rows| ensures LotLeq(rows[0], rows[k]) {
      if k == 0 {
        StrLessIrreflexive(rows[0].symbol);
      }
    }
  }

  lemma {:induction false} ConsOrdered(x: LotRow, rest: seq<LotRow>)
    requires Ordered(rest)
    requires forall k :: 0 <= k < |rest| ==> LotLeq(x, rest[k])
    ensures Ordered([x] + rest)
  {
    var r := [x] + rest;
    forall i, j | 0 <= i < j < |r| ensures LotLeq(r[i], r[j]) {
      if i == 0 {
        assert r[j] == rest[j - 1];
      } else {
        assert r[i] == rest[i - 1] && r[j] == rest[j - 1];
      }
    }
  }

  /** Insert `x` in front of the first row that must come after it, so after the rows it ties with. */
  function InsertLot(x: LotRow, rows: seq<LotRow>): (r: seq<LotRow>)
    ensures multiset(r) == multiset(rows) + multiset{x}
    ensures |r| == |rows| + 1
    ensures forall k :: 0 <= k < |r| ==> r[k] == x || r[k] in rows
  {
    if rows == [] then [x]
    else if LotLess(x, rows[0]) then [x] + rows
    else
      assert rows == [rows[0]] + rows[1..];
      [rows[0]] + InsertLot(x, rows[1..])
  }

  lemma {:induction false} InsertLotOrdered(x: LotRow, rows: seq<LotRow>)
    requires Ordered(rows)
    ensures Ordered(InsertLot(x, rows))
    decreases |rows|
  {
    if rows != [] {
      TailOrdered(rows);
      if LotLess(x, rows[0]) {
        forall k | 0 <= k < |rows| ensures LotLeq(x, rows[k]) {
          LotLeqTransitive(x, rows[0], rows[k]);
        }
        ConsOrdered(x, rows);
      } else {
        LotLessTotal(x, rows[0]);
        InsertLotOrdered(x, rows[1..]);
        var tail := InsertLot(x, rows[1..]);
        forall k | 0 <= k < |tail| ensures LotLeq(rows[0], tail[k]) {
          if tail[k] != x {
            var m :| 0 <= m < |rows| - 1 && rows[1..][m] == tail[k];
            assert rows[m + 1] == tail[k];
          }
        }
        ConsOrdered(rows[0], tail);
      }
    }
  }

  lemma {:induction false} LastMultiset(rows: seq<LotRow>)
    requires rows != []
    ensures multiset(rows) == multiset(rows[..|rows| - 1]) + multiset{rows[|rows| - 1]}
  {
    assert rows == rows[..|rows| - 1] + [rows[|rows| - 1]];
  }

  /** The rows of the query in `ORDER BY symbol, purchase_date` order, ties in row order. */
  function SortLots(rows: seq<LotRow>): (r: seq<LotRow>)
    ensures multiset(r) == multiset(rows) && |r| == |rows|
    ensures Ordered(r)
  {
    if rows == [] then []
    else
      var n := |rows| - 1;
      var sorted := SortLots(rows[..n]);
      InsertLotOrdered(rows[n], sorted);
      LastMultiset(rows);
      InsertLot(rows[n], sorted)
  }

  /** Rows of one stored symbol come out by purchase date. */
  lemma {:induction false} SameSymbolByDate(rows: seq<LotRow>, symbol: string)
    requires forall i :: 0 <= i < |rows| ==> rows[i].symbol == symbol
    ensures forall i, j :: 0 <= i < j < |SortLots(rows)| ==> SortLots(rows)[i].purchaseDate <= SortLots(rows)[j].purchaseDate
  {
    var r := SortLots(rows);
    forall i, j | 0 <= i < j < |r| ensures r[i].purchaseDate <= r[j].purchaseDate {
      assert r[i] in multiset(rows) && r[j] in multiset(rows);
      StrLessIrreflexive(symbol);
      assert LotLeq(r[i], r[j]);
    }
  }
}

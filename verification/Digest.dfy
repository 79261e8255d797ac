/**
  The order-independent snapshot digest (src/airgap_sync/common/verification.py).

  SHA-256 under its two domain prefixes is a pair of arbitrary functions on rows, carried as
  a parameter: nothing below depends on what they compute.
 */
module Digest {
  newtype byte = x: int | 0 <= x < 256

  // A row in its canonical encoding, without the line feed.
  type Row = seq<byte>

  const MODULUS: nat := 0x1_0000000000000000_0000000000000000_0000000000000000_0000000000000000

  datatype Hashes = Hashes(a: Row -> nat, b: Row -> nat)

  datatype Summary = Summary(rowCount: nat, digestA: nat, digestB: nat)

  // The sum of the hashes of the rows, reduced at every step as the accumulator does.
  function SumMod(h: Row -> nat, rows: seq<Row>): (r: nat)
    ensures r < MODULUS
  {
    if rows == [] then 0 else (SumMod(h, rows[..|rows| - 1]) + h(rows[|rows| - 1])) % MODULUS
  }

  function Summarize(hs: Hashes, rows: seq<Row>): Summary {
    Summary(|rows|, SumMod(hs.a, rows), SumMod(hs.b, rows))
  }

  // What the digest means: the plain sum of all hashes, reduced once.
  function Sum(h: Row -> nat, rows: seq<Row>): nat {
    if rows == [] then 0 else Sum(h, rows[..|rows| - 1]) + h(rows[|rows| - 1])
  }

  lemma {:induction false} SumModIsSum(h: Row -> nat, rows: seq<Row>)
    ensures SumMod(h, rows) == Sum(h, rows) % MODULUS
  {
    if rows != [] {
      SumModIsSum(h, rows[..|rows| - 1]);
      ModAdd(Sum(h, rows[..|rows| - 1]), h(rows[|rows| - 1]), MODULUS);
    }
  }

  lemma ModAdd(x: nat, y: nat, m: nat)
    requires 0 < m
    ensures (x % m + y) % m == (x + y) % m
  {
    var q := x / m;
    assert x == q * m + x % m;
    ModPlusMultiple(x % m + y, q, m);
  }

  lemma ModPlusMultiple(x: nat, q: nat, m: nat)
    requires 0 < m
    ensures (x + q * m) % m == x % m
  {
    if q != 0 {
      ModPlusMultiple(x, q - 1, m);
      assert x + q * m == (x + (q - 1) * m) + m;
      ModPlusOne(x + (q - 1) * m, m);
    }
  }

  lemma ModPlusOne(x: nat, m: nat)
    requires 0 < m
    ensures (x + m) % m == x % m
  {
    var d := (x + m) / m - x / m - 1;
    assert d * m == x % m - (x + m) % m;
    assert d >= 1 ==> d * m >= m;
    assert d <= -1 ==> d * m + m <= 0;
  }

  lemma {:induction false} SumAppend(h: Row -> nat, xs: seq<Row>, ys: seq<Row>)
    ensures Sum(h, xs + ys) == Sum(h, xs) + Sum(h, ys)
  {
    if ys == [] {
      assert xs + ys == xs;
    } else {
      var n := |ys| - 1;
      assert (xs + ys)[..|xs + ys| - 1] == xs + ys[..n];
      SumAppend(h, xs, ys[..n]);
    }
  }

  lemma SumOfOne(h: Row -> nat, row: Row)
    ensures Sum(h, [row]) == h(row)
  {
    assert [row][..0] == [];
  }

  // Taking one row out of any position takes exactly its own hash out of the sum.
  lemma SumWithout(h: Row -> nat, before: seq<Row>, row: Row, after: seq<Row>)
    ensures Sum(h, before + [row] + after) == Sum(h, before + after) + h(row)
  {
    SumAppend(h, before + [row], after);
    SumAppend(h, before, [row]);
    SumAppend(h, before, after);
    SumOfOne(h, row);
  }

  // Both sequences lose the same row.
  lemma LoseOne(xs: seq<Row>, row: Row, before: seq<Row>, after: seq<Row>)
    requires multiset(xs + [row]) == multiset(before + [row] + after)
    ensures multiset(xs) == multiset(before + after)
  {
    assert multiset(xs + [row]) == multiset(xs) + multiset{row};
    assert multiset(before + [row] + after) == multiset(before + after) + multiset{row};
    assert multiset(xs) == multiset(xs + [row]) - multiset{row};
    assert multiset(before + after) == multiset(before + [row] + after) - multiset{row};
  }

  lemma {:induction false} SumOfPermutation(h: Row -> nat, xs: seq<Row>, ys: seq<Row>)
    requires multiset(xs) == multiset(ys)
    ensures Sum(h, xs) == Sum(h, ys)
    decreases |xs|
  {
    SameSize(xs, ys);
    if xs != [] {
      var n := |xs| - 1;
      assert xs[n] in multiset(ys);
      var i :| 0 <= i < |ys| && ys[i] == xs[n];
      assert xs == xs[..n] + [xs[n]];
      assert ys == ys[..i] + [xs[n]] + ys[i + 1..];
      LoseOne(xs[..n], xs[n], ys[..i], ys[i + 1..]);
      SumOfPermutation(h, xs[..n], ys[..i] + ys[i + 1..]);
      SumWithout(h, ys[..i], xs[n], ys[i + 1..]);
    }
  }

  lemma SameSize(xs: seq<Row>, ys: seq<Row>)
    requires multiset(xs) == multiset(ys)
    ensures |xs| == |ys|
  {
    assert |multiset(xs)| == |xs| && |multiset(ys)| == |ys|;
  }

  // The digest does not depend on the order in which rows are read.
  lemma SummaryIgnoresOrder(hs: Hashes, xs: seq<Row>, ys: seq<Row>)
    requires multiset(xs) == multiset(ys)
    ensures Summarize(hs, xs) == Summarize(hs, ys)
  {
    SameSize(xs, ys);
    SumOfPermutation(hs.a, xs, ys);
    SumOfPermutation(hs.b, xs, ys);
    SumModIsSum(hs.a, xs);
    SumModIsSum(hs.a, ys);
    SumModIsSum(hs.b, xs);
    SumModIsSum(hs.b, ys);
  }

  // Every copy of a row counts: one more copy adds its hash once more, so copies never cancel.
  lemma EveryCopyCounts(hs: Hashes, rows: seq<Row>, row: Row)
    ensures var once, twice := Summarize(hs, rows), Summarize(hs, rows + [row]);
            && twice.rowCount == once.rowCount + 1
            && twice.digestA == (once.digestA + hs.a(row)) % MODULUS
            && twice.digestB == (once.digestB + hs.b(row)) % MODULUS
  {
    assert (rows + [row])[..|rows|] == rows;
  }

  ghost predicate Lists(order: seq<Row>, rows: multiset<Row>) {
    multiset(order) == rows
  }

  // A table's rows can be listed in some order.
  lemma {:induction false} OrderExists(rows: multiset<Row>)
    ensures exists order: seq<Row> :: Lists(order, rows)
    decreases |rows|
  {
    if rows == multiset{} {
      assert Lists([], rows);
    } else {
      var row :| row in rows;
      OrderExists(rows - multiset{row});
      var order: seq<Row> :| Lists(order, rows - multiset{row});
      assert Lists(order + [row], rows);
    }
  }

  ghost function AnOrder(rows: multiset<Row>): (order: seq<Row>)
    ensures Lists(order, rows)
  {
    OrderExists(rows);
    var order: seq<Row> :| Lists(order, rows);
    order
  }

  // The digest of a table's rows, read in whatever order the database returns them.
  ghost function ContentSummary(hs: Hashes, rows: multiset<Row>): Summary {
    Summarize(hs, AnOrder(rows))
  }

  lemma AnyReadOrder(hs: Hashes, order: seq<Row>)
    ensures Summarize(hs, order) == ContentSummary(hs, multiset(order))
  {
    SummaryIgnoresOrder(hs, order, AnOrder(multiset(order)));
  }

  // The streaming accumulator: two sums and a row count.
  class MultisetDigest {
    const hs: Hashes
    var sumA: nat
    var sumB: nat
    var rowCount: nat

    ghost predicate Holds(rows: seq<Row>)
      reads this
    {
      Summary(rowCount, sumA, sumB) == Summarize(hs, rows)
    }

    constructor (hs: Hashes)
      ensures this.hs == hs && Holds([])
    {
      this.hs := hs;
      sumA, sumB, rowCount := 0, 0, 0;
    }

    method Update(row: Row, ghost before: seq<Row>)
      requires Holds(before)
      modifies this
      ensures Holds(before + [row])
    {
      assert (before + [row])[..|before|] == before;
      sumA := (sumA + hs.a(row)) % MODULUS;
      sumB := (sumB + hs.b(row)) % MODULUS;
      rowCount := rowCount + 1;
    }

    method Finish(ghost rows: seq<Row>) returns (s: Summary)
      requires Holds(rows)
      ensures s == Summarize(hs, rows)
      ensures s == ContentSummary(hs, multiset(rows))
    {
      s := Summary(rowCount, sumA, sumB);
      AnyReadOrder(hs, rows);
    }
  }
}

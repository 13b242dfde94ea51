/** Rows that hang from the same row of a flat, depth-annotated list, and the order they stand in. */
module Siblings {
  import opened Common
  import opened Outline
  import opened Subsequences

  // ---- rows of one depth

  /** The keys of the rows of this depth. */
  function Tops(rows: seq<Row>, depth: nat): seq<Key> {
    if rows == [] then [] else (if rows[0].depth == depth then [rows[0].key] else []) + Tops(rows[1..], depth)
  }

  lemma {:induction false} TopsConcat(a: seq<Row>, b: seq<Row>, depth: nat)
    ensures Tops(a + b, depth) == Tops(a, depth) + Tops(b, depth)
  {
    if a == [] {
      assert a + b == b;
    } else {
      assert (a + b)[1..] == a[1..] + b;
      TopsConcat(a[1..], b, depth);
      Assoc(if a[0].depth == depth then [a[0].key] else [], Tops(a[1..], depth), Tops(b, depth));
    }
  }

  lemma {:induction false} AtLeastAt(rows: seq<Row>, depth: nat, n: nat)
    requires AtLeast(rows, depth) && n < |rows|
    ensures rows[n].depth >= depth
    decreases |rows|
  {
    if n < |rows| - 1 { AtLeastAt(rows[..|rows| - 1], depth, n); }
  }

  lemma {:induction false} DeepHaveNoTops(rows: seq<Row>, depth: nat)
    requires AtLeast(rows, depth + 1)
    ensures Tops(rows, depth) == []
    decreases |rows|
  {
    if rows != [] {
      var front, last := rows[..|rows| - 1], [rows[|rows| - 1]];
      assert rows == front + last && last[1..] == [];
      DeepHaveNoTops(front, depth);
      TopsConcat(front, last, depth);
    }
  }

  /** A row with deeper ones below it. */
  lemma {:induction false} OneTop(row: Row, below: seq<Row>)
    requires AtLeast(below, row.depth + 1)
    ensures Tops([row] + below, row.depth) == [row.key]
  {
    DeepHaveNoTops(below, row.depth);
    assert ([row] + below)[1..] == below;
  }

  lemma {:induction false} TopAt(rows: seq<Row>, depth: nat, i: nat)
    requires i < |rows| && rows[i].depth == depth
    ensures var m := |Tops(rows[..i], depth)|;
      m < |Tops(rows, depth)| && Tops(rows, depth)[m] == rows[i].key
  {
    var a, b := rows[..i], rows[i..];
    assert rows == a + b;
    TopsConcat(a, b, depth);
  }

  lemma {:induction false} TwoTops(rows: seq<Row>, depth: nat, i: nat, j: nat) returns (m: nat, n: nat)
    requires i < j < |rows| && rows[i].depth == depth && rows[j].depth == depth
    ensures m < n < |Tops(rows, depth)|
    ensures Tops(rows, depth)[m] == rows[i].key && Tops(rows, depth)[n] == rows[j].key
  {
    m, n := |Tops(rows[..i], depth)|, |Tops(rows[..j], depth)|;
    TopAt(rows, depth, i);
    TopAt(rows, depth, j);
    TopAt(rows[..j], depth, i);
    assert rows[..j][..i] == rows[..i];
  }

  // ---- rows that hang from a row

  /** Row `i` hangs from row `h`: it is one deeper, and so are all between them or more. */
  ghost predicate Hangs(rows: seq<Row>, h: nat, i: nat) {
    && h < i < |rows| && rows[i].depth == rows[h].depth + 1
    && Deeper(rows, h, i)
  }

  ghost predicate Deeper(rows: seq<Row>, h: nat, i: nat)
    requires h <= i < |rows|
  {
    forall n | h < n <= i :: rows[n].depth > rows[h].depth
  }

  /** Nothing hangs across to a list that starts no deeper. */
  lemma {:induction false} HangsInFront(a: seq<Row>, b: seq<Row>, h: nat, i: nat)
    requires h < |a| && (b != [] ==> b[0].depth <= a[h].depth)
    ensures Hangs(a + b, h, i) <==> Hangs(a, h, i)
  {
    if h < i < |a| {
      assert forall n | h < n <= i :: (a + b)[n] == a[n];
    } else if h < i < |a + b| {
      assert (a + b)[|a|] == b[0];
    }
  }

  /** Where a list starts over at the depth of the one before, nothing hangs across. */
  lemma {:induction false} HangsApart(a: seq<Row>, b: seq<Row>, depth: nat, h: nat, i: nat)
    requires AtLeast(a, depth) && (b != [] ==> b[0].depth == depth) && h < |a|
    ensures Hangs(a + b, h, i) <==> Hangs(a, h, i)
  {
    AtLeastAt(a, depth, h);
    HangsInFront(a, b, h, i);
  }

  lemma {:induction false} HangsBehind(a: seq<Row>, b: seq<Row>, h: nat, i: nat)
    requires h < i
    ensures Hangs(a + b, |a| + h, |a| + i) <==> Hangs(b, h, i)
  {
    if i < |b| {
      assert forall n | h <= n <= i :: (a + b)[|a| + n] == b[n];
      if Deeper(a + b, |a| + h, |a| + i) {
        forall n | h < n <= i ensures b[n].depth > b[h].depth {
          assert (a + b)[|a| + n].depth > (a + b)[|a| + h].depth;
        }
      }
      if Deeper(b, h, i) {
        forall n | |a| + h < n <= |a| + i ensures (a + b)[n].depth > (a + b)[|a| + h].depth {
          assert (a + b)[n] == b[n - |a|];
        }
      }
    }
  }

  /** Below a row at the head of a list of deeper ones hang those that are one deeper. */
  lemma {:induction false} HangsFromHead(row: Row, below: seq<Row>, i: nat)
    requires AtLeast(below, row.depth + 1) && 0 < i <= |below|
    ensures Hangs([row] + below, 0, i) <==> below[i - 1].depth == row.depth + 1
  {
    forall n | 0 < n <= i ensures ([row] + below)[n].depth > row.depth {
      AtLeastAt(below, row.depth + 1, n - 1);
    }
  }

  /** Row `n` stands at this depth or hangs from a row. */
  ghost predicate Rooted(rows: seq<Row>, depth: nat, n: nat) {
    n < |rows| ==> rows[n].depth == depth || exists h :: Hangs(rows, h, n)
  }

  lemma {:induction false} RootedBefore(a: seq<Row>, b: seq<Row>, depth: nat, n: nat)
    requires AtLeast(a, depth) && (b != [] ==> b[0].depth == depth) && n < |a| && Rooted(a, depth, n)
    ensures Rooted(a + b, depth, n)
  {
    if a[n].depth != depth {
      var h :| Hangs(a, h, n);
      HangsApart(a, b, depth, h, n);
    }
  }

  lemma {:induction false} RootedBehind(a: seq<Row>, b: seq<Row>, depth: nat, n: nat)
    requires n >= |a| && Rooted(b, depth, n - |a|)
    ensures Rooted(a + b, depth, n)
  {
    if n < |a + b| && b[n - |a|].depth != depth {
      var h :| Hangs(b, h, n - |a|);
      HangsBehind(a, b, h, n - |a|);
      assert Hangs(a + b, |a| + h, n);
    }
  }

  lemma {:induction false} RootedBelow(row: Row, below: seq<Row>, n: nat)
    requires AtLeast(below, row.depth + 1) && (n > 0 ==> Rooted(below, row.depth + 1, n - 1))
    ensures Rooted([row] + below, row.depth, n)
  {
    if 0 < n <= |below| {
      if below[n - 1].depth == row.depth + 1 {
        HangsFromHead(row, below, n);
      } else {
        RootedBehind([row], below, row.depth + 1, n);
      }
    }
  }
}

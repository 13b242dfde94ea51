/** Some elements of a sequence, in its order. */
module Subsequences {
  import opened Common

  /** `some` are some of `all`, in the same order. */
  ghost predicate Among<T>(some: seq<T>, all: seq<T>) {
    || some == []
    || (all != [] && (Among(some, all[1..]) || (some[0] == all[0] && Among(some[1..], all[1..]))))
  }

  lemma {:induction false} AmongAt<T>(some: seq<T>, all: seq<T>, i: nat) returns (m: nat)
    requires Among(some, all) && i < |some|
    ensures m < |all| && some[i] == all[m] && Among(some[i + 1..], all[m + 1..])
    decreases all
  {
    if Among(some, all[1..]) {
      m := AmongAt(some, all[1..], i);
      m := m + 1;
    } else if i > 0 {
      m := AmongAt(some[1..], all[1..], i - 1);
      assert some[1..][i..] == some[i + 1..];
      m := m + 1;
    } else {
      m := 0;
    }
    assert m > 0 ==> all[1..][m..] == all[m + 1..];
  }

  lemma {:induction false} TwoAmong<T>(some: seq<T>, all: seq<T>, i: nat, j: nat) returns (m: nat, n: nat)
    requires Among(some, all) && i < j < |some|
    ensures m < n < |all| && some[i] == all[m] && some[j] == all[n]
  {
    m := AmongAt(some, all, i);
    n := AmongAt(some[i + 1..], all[m + 1..], j - i - 1);
    n := m + 1 + n;
  }

  /** At most one is taken of the first, the others of the rest. */
  lemma {:induction false} AmongStep<T>(one: seq<T>, some: seq<T>, all: seq<T>)
    requires all != [] && Among(some, all[1..]) && (one == [] || one == [all[0]])
    ensures Among(one + some, all)
  {
    if one == [] {
      assert one + some == some;
    } else {
      assert (one + some)[1..] == some;
    }
  }

  lemma {:induction false} AmongOne<T>(some: seq<T>, x: T)
    requires Among(some, [x])
    ensures some == [] || some == [x]
  {
    if some != [] {
      assert [x][1..] == [];
      assert some == [some[0]] + some[1..];
    }
  }

  lemma {:induction false} AmongAmong<T>(some: seq<T>, more: seq<T>, all: seq<T>)
    requires Among(some, more) && Among(more, all)
    ensures Among(some, all)
    decreases |all|
  {
    if some != [] {
      if Among(more, all[1..]) {
        AmongAmong(some, more, all[1..]);
      } else if Among(some, more[1..]) {
        AmongAmong(some, more[1..], all[1..]);
      } else {
        AmongAmong(some[1..], more[1..], all[1..]);
      }
    }
  }

  lemma {:induction false} AmongDistinct<T>(some: seq<T>, all: seq<T>)
    requires Among(some, all) && Distinct(all)
    ensures Distinct(some)
  {
    forall i, j | 0 <= i < j < |some| ensures some[i] != some[j] {
      var m, n := TwoAmong(some, all, i, j);
    }
  }
}

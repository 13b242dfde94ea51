/** An ordered string map: the entry list of a `BTreeMap<String, V>` in ascending key order. */
module OrderedMap {
  import opened Common

  datatype Dict<+V> = Empty | Entry(key: string, value: V, rest: Dict<V>)

  /** Lexicographic order by code point, the order of Rust's `String`. */
  predicate Less(a: string, b: string) {
    b != [] && (a == [] || a[0] < b[0] || (a[0] == b[0] && Less(a[1..], b[1..])))
  }

  lemma {:induction false} LessTransitive(a: string, b: string, c: string)
    requires Less(a, b) && Less(b, c)
    ensures Less(a, c)
  {
    if a != [] && a[0] == b[0] && b[0] == c[0] {
      LessTransitive(a[1..], b[1..], c[1..]);
    }
  }

  lemma {:induction false} LessTotal(a: string, b: string)
    ensures !(Less(a, b) && Less(b, a))
    ensures a != b ==> Less(a, b) || Less(b, a)
    ensures a == b ==> !Less(a, b)
  {
    if a != [] && b != [] && a[0] == b[0] {
      LessTotal(a[1..], b[1..]);
      assert a == [a[0]] + a[1..] && b == [b[0]] + b[1..];
    }
  }

  /** `a` is a proper prefix of `b`, or has the smaller code point where they first differ. */
  ghost predicate Before(a: string, b: string) {
    a < b || exists i: nat :: DiffersAt(a, b, i) && a[i] < b[i]
  }

  ghost predicate DiffersAt(a: string, b: string, i: nat) {
    i < |a| && i < |b| && a[..i] == b[..i] && a[i] != b[i]
  }

  lemma {:induction false} LessIsBefore(a: string, b: string)
    requires Less(a, b)
    ensures Before(a, b)
  {
    if a != [] && a[0] == b[0] {
      var c, d := a[1..], b[1..];
      LessIsBefore(c, d);
      assert a == [a[0]] + c && b == [b[0]] + d;
      if !(c < d) {
        var i: nat :| DiffersAt(c, d, i) && c[i] < d[i];
        assert a[..i + 1] == [a[0]] + c[..i] && b[..i + 1] == [b[0]] + d[..i];
        assert DiffersAt(a, b, i + 1);
      }
    } else if a != [] {
      assert DiffersAt(a, b, 0);
    }
  }

  lemma {:induction false} BeforeIsLess(a: string, b: string, i: nat)
    requires a < b || (DiffersAt(a, b, i) && a[i] < b[i])
    ensures Less(a, b)
  {
    if a != [] && a[0] == b[0] {
      var c, d := a[1..], b[1..];
      if a < b {
        assert c < d;
      } else {
        assert c[..i - 1] == a[..i][1..] && d[..i - 1] == b[..i][1..];
      }
      BeforeIsLess(c, d, if a < b then i else i - 1);
    }
  }

  /** The order of the ordered maps, told without recursion. */
  lemma {:induction false} LessExact(a: string, b: string)
    ensures Less(a, b) <==> Before(a, b)
  {
    if Less(a, b) { LessIsBefore(a, b); }
    if a < b {
      BeforeIsLess(a, b, 0);
    } else if Before(a, b) {
      var i: nat :| DiffersAt(a, b, i) && a[i] < b[i];
      BeforeIsLess(a, b, i);
    }
  }

  function Keys<V>(d: Dict<V>): set<string> {
    match d
    case Empty => {}
    case Entry(k, _, rest) => {k} + Keys(rest)
  }

  predicate Sorted<V>(d: Dict<V>) {
    d.Entry? ==> (d.rest.Entry? ==> Less(d.key, d.rest.key)) && Sorted(d.rest)
  }

  function Get<V>(d: Dict<V>, k: string): (r: Option<V>)
    ensures r.Some? <==> k in Keys(d)
  {
    match d
    case Empty => None
    case Entry(key, v, rest) => if key == k then Some(v) else Get(rest, k)
  }

  function GetOr<V>(d: Dict<V>, k: string, default: V): V {
    var r := Get(d, k);
    if r.Some? then r.value else default
  }

  function Put<V>(d: Dict<V>, k: string, v: V): (r: Dict<V>)
    ensures Keys(r) == Keys(d) + {k}
  {
    match d
    case Empty => Entry(k, v, Empty)
    case Entry(key, was, rest) =>
      if key == k then Entry(k, v, rest)
      else if Less(k, key) then Entry(k, v, d)
      else Entry(key, was, Put(rest, k, v))
  }

  lemma {:induction false} GetPut<V>(d: Dict<V>, k: string, v: V, k': string)
    ensures Get(Put(d, k, v), k') == if k' == k then Some(v) else Get(d, k')
  {
    if d.Entry? && d.key != k && !Less(k, d.key) {
      GetPut(d.rest, k, v, k');
    }
  }

  /** In a sorted map no later key repeats or precedes the first one. */
  lemma {:induction false} HeadIsLeast<V>(d: Dict<V>, k: string)
    requires Sorted(d) && d.Entry? && k in Keys(d.rest)
    ensures Less(d.key, k) && k != d.key
  {
    if k != d.rest.key {
      HeadIsLeast(d.rest, k);
      LessTransitive(d.key, d.rest.key, k);
    }
    LessTotal(d.key, k);
  }

  lemma {:induction false} PutSorted<V>(d: Dict<V>, k: string, v: V)
    requires Sorted(d)
    ensures Sorted(Put(d, k, v))
  {
    if d.Entry? && d.key != k && !Less(k, d.key) {
      PutSorted(d.rest, k, v);
      LessTotal(d.key, k);
    }
  }

  /** A key below the first one, or equal to it, does not occur later. */
  lemma {:induction false} NotLater<V>(d: Dict<V>, k: string)
    requires Sorted(d) && d.Entry? && (k == d.key || Less(k, d.key))
    ensures k !in Keys(d.rest)
    ensures Less(k, d.key) ==> k !in Keys(d)
  {
    LessTotal(k, d.key);
    if k in Keys(d.rest) {
      HeadIsLeast(d, k);
    }
  }
}

/** Stable sorting, as `sort_by` and `sort_by_key` do it. */
module Sorting {
  import opened OrderedMap

  predicate Ascending(s: seq<string>) {
    forall i, j | 0 <= i < j < |s| :: !Less(s[j], s[i])
  }

  function InsertId(s: seq<string>, x: string): (r: seq<string>)
    requires Ascending(s)
    ensures Ascending(r)
    ensures forall y :: y in r <==> y in s || y == x
  {
    if s == [] || Less(x, s[0]) then
      FrontIsLeast(s, x);
      [x] + s
    else
      var t := InsertId(s[1..], x);
      assert s == [s[0]] + s[1..];
      HeadStays(s, x, t);
      [s[0]] + t
  }

  lemma HeadStays(s: seq<string>, x: string, t: seq<string>)
    requires s != [] && Ascending(s) && Ascending(t) && !Less(x, s[0])
    requires forall y :: y in t <==> y in s[1..] || y == x
    ensures Ascending([s[0]] + t)
  {
    forall j | 0 <= j < |t| ensures !Less(t[j], s[0]) {
      assert t[j] in t;
    }
  }

  lemma FrontIsLeast(s: seq<string>, x: string)
    requires Ascending(s) && (s == [] || Less(x, s[0]))
    ensures Ascending([x] + s)
  {
    forall j | 0 <= j < |s| ensures !Less(s[j], x) {
      if Less(s[j], x) {
        LessTransitive(s[j], x, s[0]);
        LessTotal(s[0], s[0]);
      }
    }
  }

  function SortIds(s: seq<string>): (r: seq<string>)
    ensures Ascending(r)
    ensures forall y :: y in r <==> y in s
  {
    if s == [] then [] else
      assert s == s[..|s| - 1] + [s[|s| - 1]];
      InsertId(SortIds(s[..|s| - 1]), s[|s| - 1])
  }
}

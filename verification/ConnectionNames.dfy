/** Choosing a name for a new connection. */
module ConnectionNames {
  import opened Common
  import opened Numerals

  datatype Connection = Connection(id: string, configuration: string)

  /** The code points `char::is_whitespace` accepts. */
  predicate IsWhitespace(c: char) {
    var n := c as int;
    0x9 <= n <= 0xD || n == 0x20 || n == 0x85 || n == 0xA0 || n == 0x1680 || 0x2000 <= n <= 0x200A
    || n == 0x2028 || n == 0x2029 || n == 0x202F || n == 0x205F || n == 0x3000
  }

  function TrimStart(s: string): string {
    if s != "" && IsWhitespace(s[0]) then TrimStart(s[1..]) else s
  }

  function TrimEnd(s: string): string {
    if s != "" && IsWhitespace(s[|s| - 1]) then TrimEnd(s[..|s| - 1]) else s
  }

  function Base(nodeName: string): string {
    var trimmed := TrimEnd(TrimStart(nodeName));
    if trimmed == "" then "runtime" else trimmed
  }

  /** Starts and ends with a character that is no white space. */
  predicate Trimmed(s: string) { s != "" && !IsWhitespace(s[0]) && !IsWhitespace(s[|s| - 1]) }

  lemma {:induction false} TrimStartClean(s: string)
    ensures TrimStart(s) != "" ==> !IsWhitespace(TrimStart(s)[0])
  {
    if s != "" && IsWhitespace(s[0]) { TrimStartClean(s[1..]); }
  }

  lemma {:induction false} TrimEndClean(s: string)
    ensures TrimEnd(s) <= s && (TrimEnd(s) != "" ==> !IsWhitespace(TrimEnd(s)[|TrimEnd(s)| - 1]))
  {
    if s != "" && IsWhitespace(s[|s| - 1]) { TrimEndClean(s[..|s| - 1]); }
  }

  lemma {:induction false} BaseIsTrimmed(nodeName: string)
    ensures Trimmed(Base(nodeName))
  {
    TrimStartClean(nodeName);
    TrimEndClean(TrimStart(nodeName));
  }

  predicate AllWhite(s: string) { forall c | c in s :: IsWhitespace(c) }

  lemma {:induction false} TrimStartCuts(s: string) returns (i: nat)
    ensures i <= |s| && TrimStart(s) == s[i..] && AllWhite(s[..i])
  {
    i := 0;
    if s != "" && IsWhitespace(s[0]) {
      i := TrimStartCuts(s[1..]);
      assert s[..i + 1] == [s[0]] + s[1..][..i];
      i := i + 1;
    }
  }

  lemma {:induction false} TrimEndCuts(s: string) returns (i: nat)
    ensures i <= |s| && TrimEnd(s) == s[..i] && AllWhite(s[i..])
  {
    i := |s|;
    if s != "" && IsWhitespace(s[|s| - 1]) {
      i := TrimEndCuts(s[..|s| - 1]);
      assert s[i..] == s[..|s| - 1][i..] + [s[|s| - 1]];
    }
  }

  /** What is left between white space at both ends. */
  ghost predicate Core(s: string, i: nat, j: nat, core: string) {
    && i <= j <= |s| && core == s[i..j] && AllWhite(s[..i]) && AllWhite(s[j..])
    && (i < j ==> !IsWhitespace(s[i]) && !IsWhitespace(s[j - 1]))
  }

  lemma {:induction false} TrimCuts(s: string) returns (i: nat, j: nat)
    ensures Core(s, i, j, TrimEnd(TrimStart(s)))
  {
    i := TrimStartCuts(s);
    var k := TrimEndCuts(s[i..]);
    j := i + k;
    TrimStartClean(s);
    TrimEndClean(s[i..]);
    assert s[i..][..k] == s[i..j] && s[i..][k..] == s[j..];
  }

  /** The base is the name without the white space at its ends, or `runtime` if nothing is left. */
  lemma {:induction false} BaseExact(nodeName: string) returns (i: nat, j: nat, core: string)
    ensures Core(nodeName, i, j, core) && Base(nodeName) == if i < j then core else "runtime"
  {
    i, j := TrimCuts(nodeName);
    core := TrimEnd(TrimStart(nodeName));
  }

  function Ids(connections: seq<Connection>): (ids: set<string>)
    ensures |ids| <= |connections|
  {
    if connections == [] then {} else {connections[0].id} + Ids(connections[1..])
  }

  predicate Used(connections: seq<Connection>, name: string) {
    name in Ids(connections)
  }

  lemma {:induction false} UsedByOne(connections: seq<Connection>, name: string)
    ensures Used(connections, name) <==> exists c :: c in connections && c.id == name
  {
    if connections != [] { UsedByOne(connections[1..], name); }
  }

  function Candidate(base: string, suffix: nat): string {
    base + " (" + Decimal(suffix) + ")"
  }

  lemma {:induction false} CandidatesDiffer(base: string, a: nat, b: nat)
    requires Candidate(base, a) == Candidate(base, b)
    ensures a == b
  {
    var x, y := Candidate(base, a), Candidate(base, b);
    assert x[|base| + 2..|x| - 1] == Decimal(a);
    assert y[|base| + 2..|y| - 1] == Decimal(b);
    DecimalInjective(a, b);
  }

  lemma {:induction false} SubsetSize<T>(a: set<T>, b: set<T>)
    requires a <= b
    ensures |a| <= |b|
  {
    if x :| x in a { SubsetSize(a - {x}, b - {x}); }
  }

  predicate UsedBelow(connections: seq<Connection>, base: string, suffix: nat) {
    suffix <= 2 || (Used(connections, Candidate(base, suffix - 1)) && UsedBelow(connections, base, suffix - 1))
  }

  /** The base name and its candidates below `suffix`. */
  ghost function Names(base: string, suffix: nat): set<string>
    requires suffix >= 2
  {
    if suffix == 2 then {base} else Names(base, suffix - 1) + {Candidate(base, suffix - 1)}
  }

  lemma {:induction false} NamesMember(base: string, suffix: nat, k: nat)
    requires 2 <= suffix <= k
    ensures Candidate(base, k) !in Names(base, suffix)
  {
    if suffix == 2 {
      assert |Candidate(base, k)| > |base|;
    } else {
      NamesMember(base, suffix - 1, k);
      if Candidate(base, k) == Candidate(base, suffix - 1) { CandidatesDiffer(base, k, suffix - 1); }
    }
  }

  /** Candidates are pairwise different, so that many used ones need that many connections. */
  lemma {:induction false} Pigeonhole(connections: seq<Connection>, base: string, suffix: nat)
    requires suffix >= 2 && Used(connections, base)
    requires UsedBelow(connections, base, suffix)
    ensures |Names(base, suffix)| == suffix - 1 && Names(base, suffix) <= Ids(connections)
    ensures suffix - 1 <= |connections|
  {
    if suffix > 2 {
      Pigeonhole(connections, base, suffix - 1);
      NamesMember(base, suffix - 1, suffix - 1);
    }
    SubsetSize(Names(base, suffix), Ids(connections));
  }

  /** The base name when it is unused or already names this very configuration; otherwise the least
      free suffix from 2 on, found after at most as many tries as there are connections. */
  method AvailableConnectionName(nodeName: string, configuration: string, context: Option<seq<Connection>>)
      returns (name: string)
    ensures Trimmed(name)
    ensures context.None? ==> name == Base(nodeName)
    ensures context.Some? ==> var connections := context.value;
      if !Used(connections, Base(nodeName)) || Connection(Base(nodeName), configuration) in connections
      then name == Base(nodeName)
      else
        && !Used(connections, name)
        && exists k ::
          && 2 <= k <= |connections| + 1 && name == Candidate(Base(nodeName), k)
          && UsedBelow(connections, Base(nodeName), k)
  {
    var base := Base(nodeName);
    BaseIsTrimmed(nodeName);
    if context.None? { return base; }
    var connections := context.value;
    if !Used(connections, base) || Connection(base, configuration) in connections { return base; }
    var suffix: nat := 2;
    Pigeonhole(connections, base, suffix);
    while true
      invariant 2 <= suffix <= |connections| + 1
      invariant UsedBelow(connections, base, suffix)
      decreases |connections| + 2 - suffix
    {
      name := Candidate(base, suffix);
      if !Used(connections, name) { return; }
      suffix := suffix + 1;
      Pigeonhole(connections, base, suffix);
    }
  }
}

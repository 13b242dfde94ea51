/** How a URI is cut into folder and file names. */
module SourceUri {
  import opened Common
  import opened SourceTrie
  import opened Subsequences

  /** What `Url::parse` says about a URI. */
  datatype Url =
    | Unparsable
    | CannotBeABase
    | Hierarchical(root: string, segments: seq<string>, query: Option<string>, fragment: Option<string>)

  function SplitOnSlash(s: string): (r: seq<string>)
    ensures forall c | c in r :: '/' !in c && c != ""
  {
    SplitFrom(s, "")
  }

  function SplitFrom(s: string, pending: string): (r: seq<string>)
    requires '/' !in pending
    ensures forall c | c in r :: '/' !in c && c != ""
    decreases s
  {
    if s == "" then (if pending == "" then [] else [pending])
    else if s[0] == '/' then (if pending == "" then [] else [pending]) + SplitFrom(s[1..], "")
    else SplitFrom(s[1..], pending + [s[0]])
  }

  function NonEmpty(segments: seq<string>): (r: seq<string>)
    ensures forall c | c in r :: c in segments && c != ""
  {
    if segments == [] then []
    else (if segments[0] == "" then [] else [segments[0]]) + NonEmpty(segments[1..])
  }

  function Components(url: Url, uri: string): seq<string> {
    match url
    case Unparsable => SplitOnSlash(uri)
    case CannotBeABase => [uri]
    case Hierarchical(root, segments, query, fragment) =>
      var plain := [root] + NonEmpty(segments);
      var last := plain[|plain| - 1]
        + (if query.Some? then "?" + query.value else "")
        + (if fragment.Some? then "#" + fragment.value else "");
      plain[|plain| - 1 := last]
  }

  type Parser = string -> Url

  /** All components but the last are folders, the last names the file. */
  function PlaceOf(parse: Parser, uri: string): Place {
    var c := Components(parse(uri), uri);
    if c == [] then Place([], uri) else Place(c[..|c| - 1], c[|c| - 1])
  }

  function PlacerOf(parse: Parser): Placer {
    uri => PlaceOf(parse, uri)
  }

  // ---- what the cuts are

  lemma {:induction false} SplitWord(w: string, pending: string)
    requires '/' !in w && '/' !in pending
    ensures SplitFrom(w, pending) == if pending + w == "" then [] else [pending + w]
    decreases w
  {
    if w == "" {
      assert pending + w == pending;
    } else {
      SplitWord(w[1..], pending + [w[0]]);
      assert pending + [w[0]] + w[1..] == pending + w;
    }
  }

  lemma {:induction false} SplitJoined(a: string, pending: string, b: string)
    requires '/' !in pending
    ensures SplitFrom(a + "/" + b, pending) == SplitFrom(a, pending) + SplitOnSlash(b)
    decreases a
  {
    var s := a + "/" + b;
    if a == "" {
      assert s[0] == '/' && s[1..] == b;
    } else {
      assert s[1..] == a[1..] + "/" + b;
      if a[0] == '/' {
        SplitJoined(a[1..], "", b);
      } else {
        SplitJoined(a[1..], pending + [a[0]], b);
      }
    }
  }

  /** Slashes separate the components, and what is between them is kept unless it is empty. */
  lemma {:induction false} SplitExact(a: string, b: string, w: string)
    requires '/' !in w
    ensures SplitOnSlash(a + "/" + b) == SplitOnSlash(a) + SplitOnSlash(b)
    ensures SplitOnSlash(w) == if w == "" then [] else [w]
  {
    SplitJoined(a, "", b);
    SplitWord(w, "");
    assert "" + w == w;
  }

  lemma {:induction false} NonEmptyExact(segments: seq<string>)
    ensures Among(NonEmpty(segments), segments)
    ensures forall c :: c in NonEmpty(segments) <==> c in segments && c != ""
  {
    if segments != [] {
      assert segments == [segments[0]] + segments[1..];
      NonEmptyExact(segments[1..]);
      AmongStep(if segments[0] == "" then [] else [segments[0]], NonEmpty(segments[1..]), segments);
    }
  }

  /** A URI with an origin hangs below it: the segments of its path that are not empty are its folders, all but
      the last component; that one names the file, together with the query and the fragment. */
  lemma {:induction false} HierarchicalPlace(
      parse: Parser, uri: string, root: string, segments: seq<string>, query: Option<string>,
      fragment: Option<string>)
    requires parse(uri) == Hierarchical(root, segments, query, fragment)
    ensures var names, p := [root] + NonEmpty(segments), PlaceOf(parse, uri);
      && p.folder == names[..|names| - 1]
      && p.name == names[|names| - 1] + (if query.None? then "" else "?" + query.value)
           + (if fragment.None? then "" else "#" + fragment.value)
  {
  }

  /** Any other URI is cut at its slashes, or is a file at the top when it cannot be cut. */
  lemma {:induction false} PlainPlace(parse: Parser, uri: string)
    requires !parse(uri).Hierarchical?
    ensures var p, words := PlaceOf(parse, uri), SplitOnSlash(uri);
      if parse(uri).CannotBeABase? || words == [] then p == Place([], uri) else p.folder + [p.name] == words
  {
  }
}

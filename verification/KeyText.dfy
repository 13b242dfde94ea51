/** The text of row keys. Distinct rows get distinct texts, although a folder key joins its path
    with a character that may also occur inside the first component. */
module KeyText {
  import opened Numerals
  import opened Outline
  import opened SourceUri

  function KindText(kind: SourceKind): string {
    match kind
    case Loaded => "loaded"
    case SourceMapped => "source-mapped"
    case Formatted => "formatted"
    case Resolved => "resolved"
  }

  function Join(path: seq<string>): string {
    if path == [] then ""
    else if |path| == 1 then path[0]
    else Join(path[..|path| - 1]) + "/" + path[|path| - 1]
  }

  function Tag(k: Key): string {
    match k
    case SectionKey(_) => "section"
    case ContextKey(_) => "context"
    case ProcessTreeKey(_) => "process-tree"
    case ProcessKey(_, _) => "process"
    case WindowKey(_, _) => "process-window"
    case AgentSessionKey(_, _) => "agent-session"
    case ResourceKey(_) => "resource"
    case ProcessTargetKey(_, _) => "process-target"
    case TargetGroupKey(_) => "target-group"
    case BreakpointKey(_) => "breakpoint"
    case FolderKey(_, _) => "source-folder"
    case SourceKey(_) => "source"
    case OtherKey(tag, _) => tag
  }

  function Rest(k: Key): string {
    match k
    case SectionKey(section) => Decimal(SectionIndex(section))
    case ContextKey(id) => id
    case ProcessTreeKey(root) => Decimal(root)
    case ProcessKey(root, pid) => Decimal(root) + ":" + Decimal(pid)
    case WindowKey(root, w) => Decimal(root) + ":" + Decimal(w)
    case AgentSessionKey(pid, id) => Decimal(pid) + ":" + id
    case ResourceKey(id) => id
    case ProcessTargetKey(root, id) => Decimal(root) + ":" + id
    case TargetGroupKey(group) => group
    case BreakpointKey(id) => id
    case FolderKey(kind, path) => KindText(kind) + ":" + Join(path)
    case SourceKey(uri) => uri
    case OtherKey(_, rest) => rest
  }

  function Text(k: Key): string {
    Tag(k) + ":" + Rest(k)
  }

  /** The formats of the keys that only name a row. */
  const OTHER_TAGS := {
    "connections", "connection", "connection-candidate", "targets", "target", "breakpoint-app", "capture",
    "call-stack", "stack-frame", "attention" }

  // ---- folder paths

  predicate Plain(s: string) { s != "" && '/' !in s }

  /** `scheme://authority`, the authority possibly empty. */
  ghost predicate SchemeAndAuthority(s: string, a: string, b: string) {
    s == a + "//" + b && '/' !in a && '/' !in b
  }

  ghost predicate GoodRoot(s: string) {
    Plain(s) || exists a, b :: SchemeAndAuthority(s, a, b)
  }

  /** What folder paths look like: slashes only inside the leading origin. */
  ghost predicate GoodPath(path: seq<string>) {
    && path != [] && GoodRoot(path[0])
    && forall i | 0 < i < |path| :: Plain(path[i])
  }

  /** The URL parser returns an origin of that shape and segments without slashes. */
  ghost predicate GoodUrl(url: Url) {
    url.Hierarchical? ==> GoodRoot(url.root) && forall s | s in url.segments :: '/' !in s
  }

  lemma {:induction false} FolderPathIsGood(parse: Parser, uri: string)
    requires GoodUrl(parse(uri))
    ensures PlaceOf(parse, uri).folder != [] ==> GoodPath(PlaceOf(parse, uri).folder)
  {
    var url, c := parse(uri), Components(parse(uri), uri);
    var folder := PlaceOf(parse, uri).folder;
    if folder != [] {
      match url
      case Unparsable =>
        forall i | 0 <= i < |folder| ensures Plain(folder[i]) { assert folder[i] in c; }
      case CannotBeABase =>
      case Hierarchical(root, segments, _, _) =>
        forall i | 0 < i < |folder| ensures Plain(folder[i]) { assert folder[i] in NonEmpty(segments); }
        assert folder[0] == root;
    }
  }

  function FirstIndex(c: char, s: string): nat {
    if s == "" || s[0] == c then 0 else 1 + FirstIndex(c, s[1..])
  }

  function LastIndex(c: char, s: string): (n: nat)
    requires c in s
    ensures n < |s|
  {
    if s[|s| - 1] == c then |s| - 1 else
      assert s == s[..|s| - 1] + [s[|s| - 1]];
      LastIndex(c, s[..|s| - 1])
  }

  lemma {:induction false} FirstIndexOfJoined(c: char, a: string, x: string)
    requires c !in a
    ensures FirstIndex(c, a + [c] + x) == |a|
  {
    if a != "" {
      assert (a + [c] + x)[1..] == a[1..] + [c] + x;
      FirstIndexOfJoined(c, a[1..], x);
    }
  }

  lemma {:induction false} LastIndexOfJoined(c: char, x: string, a: string)
    requires c !in a
    ensures c in x + [c] + a && LastIndex(c, x + [c] + a) == |x|
  {
    var s := x + [c] + a;
    assert s[|x|] == c;
    if a != "" {
      assert s[|s| - 1] == a[|a| - 1];
      assert s[..|s| - 1] == x + [c] + a[..|a| - 1];
      LastIndexOfJoined(c, x, a[..|a| - 1]);
    }
  }

  lemma {:induction false} LastSlash(x: string, a: string, y: string, b: string)
    requires x + "/" + a == y + "/" + b && '/' !in a && '/' !in b
    ensures x == y && a == b
  {
    LastIndexOfJoined('/', x, a);
    LastIndexOfJoined('/', y, b);
    var s := x + "/" + a;
    assert x == s[..|x|] && y == s[..|y|];
    assert a == s[|x| + 1..] && b == s[|y| + 1..];
  }

  lemma {:induction false} FirstColon(a: string, x: string, b: string, y: string)
    requires a + ":" + x == b + ":" + y && ':' !in a && ':' !in b
    ensures a == b && x == y
  {
    FirstIndexOfJoined(':', a, x);
    FirstIndexOfJoined(':', b, y);
    var s := a + ":" + x;
    assert a == s[..|a|] && b == s[..|b|];
    assert x == s[|a| + 1..] && y == s[|b| + 1..];
  }

  /** A scheme and a single slash: what precedes the last slash of an origin. */
  predicate SchemeAndSlash(u: string) {
    u != "" && u[|u| - 1] == '/' && '/' !in u[..|u| - 1]
  }

  lemma {:induction false} OriginHead(root: string)
    requires GoodRoot(root) && '/' in root
    ensures SchemeAndSlash(root[..LastIndex('/', root)])
    ensures !SchemeAndSlash(root)
  {
    var a, b :| SchemeAndAuthority(root, a, b);
    assert root == (a + "/") + ['/'] + b;
    LastIndexOfJoined('/', a + "/", b);
    assert root[..|a| + 1] == a + "/";
    assert (a + "/")[..|a|] == a;
    if b == "" {
      assert root[..|root| - 1][|a|] == '/';
    } else {
      assert root[|root| - 1] == b[|b| - 1];
    }
  }

  lemma {:induction false} JoinedIsNoHead(p: seq<string>)
    requires GoodPath(p)
    ensures !SchemeAndSlash(Join(p))
  {
    if |p| == 1 {
      if '/' in p[0] { OriginHead(p[0]); }
    } else {
      var last := p[|p| - 1];
      assert Join(p)[|Join(p)| - 1] == last[|last| - 1];
    }
  }

  /** A joined path of several components is no single component. */
  lemma {:induction false} JoinIsLonger(p: seq<string>, q: seq<string>)
    requires GoodPath(p) && GoodPath(q) && |p| == 1 && |q| >= 2
    ensures Join(p) != Join(q)
  {
    var front, last := q[..|q| - 1], q[|q| - 1];
    LastIndexOfJoined('/', Join(front), last);
    assert Join(q) == Join(front) + ['/'] + last;
    assert Join(q)[..|Join(front)|] == Join(front);
    JoinedIsNoHead(front);
    if '/' in p[0] { OriginHead(p[0]); }
  }

  lemma {:induction false} JoinInjective(p: seq<string>, q: seq<string>)
    requires GoodPath(p) && GoodPath(q) && Join(p) == Join(q)
    ensures p == q
  {
    if |p| == 1 && |q| == 1 {
      assert p == [p[0]] && q == [q[0]];
    } else if |p| == 1 {
      JoinIsLonger(p, q);
    } else if |q| == 1 {
      JoinIsLonger(q, p);
    } else {
      LastSlash(Join(p[..|p| - 1]), p[|p| - 1], Join(q[..|q| - 1]), q[|q| - 1]);
      JoinInjective(p[..|p| - 1], q[..|q| - 1]);
      assert p == p[..|p| - 1] + [p[|p| - 1]] && q == q[..|q| - 1] + [q[|q| - 1]];
    }
  }

  // ---- keys

  lemma {:induction false} PairInjective(a: nat, x: string, b: nat, y: string)
    requires Decimal(a) + ":" + x == Decimal(b) + ":" + y
    ensures a == b && x == y
  {
    DecimalHasNo(':', a);
    DecimalHasNo(':', b);
    FirstColon(Decimal(a), x, Decimal(b), y);
    DecimalInjective(a, b);
  }

  /** Keys whose text is read back in one way. */
  ghost predicate GoodKey(k: Key) {
    && (k.FolderKey? ==> GoodPath(k.path))
    && (k.OtherKey? ==> k.tag in OTHER_TAGS)
  }

  lemma {:induction false} SameTag(k: Key, l: Key)
    requires GoodKey(k) && GoodKey(l) && Tag(k) == Tag(l)
    ensures k.SectionKey? == l.SectionKey? && k.ContextKey? == l.ContextKey? && k.ProcessTreeKey? == l.ProcessTreeKey?
    ensures k.ProcessKey? == l.ProcessKey? && k.WindowKey? == l.WindowKey? && k.AgentSessionKey? == l.AgentSessionKey?
    ensures k.ResourceKey? == l.ResourceKey? && k.TargetGroupKey? == l.TargetGroupKey?
      && k.BreakpointKey? == l.BreakpointKey?
    ensures k.FolderKey? == l.FolderKey? && k.SourceKey? == l.SourceKey? && k.OtherKey? == l.OtherKey?
    ensures k.ProcessTargetKey? == l.ProcessTargetKey?
  {
    assert |Tag(k)| == |Tag(l)| && Tag(k)[0] == Tag(l)[0] && Tag(k)[|Tag(k)| - 1] == Tag(l)[|Tag(l)| - 1];
  }

  lemma OtherTagIsPlain(tag: string)
    requires tag in OTHER_TAGS
    ensures ':' !in tag
  {
  }

  lemma TagIsPlain(k: Key)
    requires GoodKey(k)
    ensures ':' !in Tag(k)
  {
    if k.OtherKey? { OtherTagIsPlain(k.tag); }
  }

  lemma {:induction false} SplitText(k: Key, l: Key)
    requires GoodKey(k) && GoodKey(l) && Text(k) == Text(l)
    ensures Tag(k) == Tag(l) && Rest(k) == Rest(l)
  {
    TagIsPlain(k);
    TagIsPlain(l);
    FirstColon(Tag(k), Rest(k), Tag(l), Rest(l));
  }

  /** Keys with the same text are the same key. */
  lemma {:induction false} TextInjective(k: Key, l: Key)
    requires GoodKey(k) && GoodKey(l) && Text(k) == Text(l)
    ensures k == l
  {
    SplitText(k, l);
    SameTag(k, l);
    match k
    case SectionKey(section) => DecimalInjective(SectionIndex(section), SectionIndex(l.section));
    case ProcessTreeKey(root) => DecimalInjective(root, l.rootPid);
    case ProcessKey(root, pid) =>
      PairInjective(root, Decimal(pid), l.rootPid, Decimal(l.pid));
      DecimalInjective(pid, l.pid);
    case WindowKey(root, w) =>
      PairInjective(root, Decimal(w), l.rootPid, Decimal(l.windowId));
      DecimalInjective(w, l.windowId);
    case AgentSessionKey(pid, id) => PairInjective(pid, id, l.pid, l.sessionId);
    case ProcessTargetKey(root, id) => PairInjective(root, id, l.rootPid, l.targetId);
    case FolderKey(kind, path) => FolderTextInjective(kind, path, l.kind, l.path);
    case _ =>
  }

  lemma {:induction false} FolderTextInjective(k: SourceKind, p: seq<string>, l: SourceKind, q: seq<string>)
    requires GoodPath(p) && GoodPath(q) && KindText(k) + ":" + Join(p) == KindText(l) + ":" + Join(q)
    ensures k == l && p == q
  {
    FirstColon(KindText(k), Join(p), KindText(l), Join(q));
    assert |KindText(k)| == |KindText(l)| && KindText(k)[0] == KindText(l)[0];
    JoinInjective(p, q);
  }
}

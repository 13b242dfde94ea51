/** The list of loaded sources and the `loadedSource` events that keep a client's copy of it. */
module DapSources {
  import opened Common

  datatype Binding = Binding(connectionId: string, targetId: string)

  datatype Info = Info(path: string, connectionId: Option<string>, targetId: Option<string>)

  datatype Event = NewSource(path: string) | RemovedSource(path: string)

  /** Sources of the bound target and those that belong to no connection. */
  predicate Concerns(info: Info, binding: Binding) {
    info.connectionId.None?
    || (info.connectionId == Some(binding.connectionId) && info.targetId == Some(binding.targetId))
  }

  /** Nothing is listed before a target is bound. */
  function Paths(infos: seq<Info>, binding: Option<Binding>): seq<string> {
    if infos == [] || binding.None? then []
    else (if Concerns(infos[0], binding.value) then [infos[0].path] else []) + Paths(infos[1..], binding)
  }

  /** Listed are the paths of the bound target's sources and of those without a connection. */
  lemma {:induction false} PathsExact(infos: seq<Info>, binding: Option<Binding>, p: string)
    ensures p in Paths(infos, binding) <==>
      binding.Some? && exists info | info in infos ::
        info.path == p
        && (info.connectionId.None?
            || (info.connectionId == Some(binding.value.connectionId)
                && info.targetId == Some(binding.value.targetId)))
  {
    if infos != [] {
      assert infos == [infos[0]] + infos[1..];
      PathsExact(infos[1..], binding, p);
    }
  }

  /** The elements in order of first insertion, as a JavaScript `Set` keeps them. */
  function Inserted(known: seq<string>, paths: seq<string>): seq<string>
    decreases |paths|
  {
    if paths == [] then known
    else Inserted(if paths[0] in known then known else known + [paths[0]], paths[1..])
  }

  function News(known: seq<string>, paths: seq<string>): seq<Event> {
    if paths == [] then []
    else (if paths[0] in known then [] else [NewSource(paths[0])]) + News(known, paths[1..])
  }

  function Removals(known: seq<string>, next: seq<string>): seq<Event> {
    if known == [] then []
    else (if known[0] in next then [] else [RemovedSource(known[0])]) + Removals(known[1..], next)
  }

  function RefreshEvents(known: seq<string>, paths: seq<string>): seq<Event> {
    News(known, paths) + Removals(known, Inserted([], paths))
  }

  class Sources {
    var sourcePaths: seq<string>
    var queued: nat                     // refreshes chained behind the running one
    var listing: bool                   // a refresh waits for its listing
    var events: seq<Event>

    ghost predicate Valid()
      reads this
    {
      Replay({}, events) == Elements(sourcePaths) && Distinct(sourcePaths)
    }

    constructor ()
      ensures Valid() && sourcePaths == [] && events == [] && queued == 0 && !listing
    {
      sourcePaths, queued, listing, events := [], 0, false, [];
    }

    method ScheduleRefresh()
      requires Valid()
      modifies `queued
      ensures Valid() && queued == old(queued) + 1
    {
      queued := queued + 1;
    }

    /** The task chain starts the next refresh when the one before has settled, failed or not. */
    method BeginRefresh()
      requires Valid() && !listing && queued > 0
      modifies `queued, `listing
      ensures Valid() && listing && queued == old(queued) - 1
    {
      queued, listing := queued - 1, true;
    }

    /** The listing arrives, or `None` when it failed. */
    method SettleRefresh(infos: Option<seq<Info>>, binding: Option<Binding>)
      requires Valid() && listing
      modifies `listing, `sourcePaths, `events
      ensures Valid() && !listing
      ensures infos.None? ==> sourcePaths == old(sourcePaths) && events == old(events)
      ensures infos.Some? ==> var paths := Paths(infos.value, binding);
        sourcePaths == Inserted([], paths) && events == old(events) + RefreshEvents(old(sourcePaths), paths)
    {
      listing := false;
      if infos.None? { return; }
      var paths := Paths(infos.value, binding);
      var next := Insert(paths);
      SendNew(paths);
      SendRemoved(next);
      Assoc(old(events), News(sourcePaths, paths), Removals(sourcePaths, next));
      RefreshReplays(old(events), sourcePaths, paths);
      InsertedIsDistinct([], paths);
      sourcePaths := next;
    }

    method SendNew(paths: seq<string>)
      modifies `events
      ensures events == old(events) + News(sourcePaths, paths)
    {
      var rest := paths;
      while rest != []
        invariant events + News(sourcePaths, rest) == old(events) + News(sourcePaths, paths)
        decreases |rest|
      {
        if rest[0] !in sourcePaths {
          Assoc(events, [NewSource(rest[0])], News(sourcePaths, rest[1..]));
          events := events + [NewSource(rest[0])];
        }
        rest := rest[1..];
      }
      assert events + [] == events;
    }

    method SendRemoved(next: seq<string>)
      modifies `events
      ensures events == old(events) + Removals(sourcePaths, next)
    {
      var rest := sourcePaths;
      while rest != []
        invariant events + Removals(rest, next) == old(events) + Removals(sourcePaths, next)
        decreases |rest|
      {
        if rest[0] !in next {
          Assoc(events, [RemovedSource(rest[0])], Removals(rest[1..], next));
          events := events + [RemovedSource(rest[0])];
        }
        rest := rest[1..];
      }
      assert events + [] == events;
    }
  }

  method Insert(paths: seq<string>) returns (known: seq<string>)
    ensures known == Inserted([], paths)
  {
    known := [];
    var rest := paths;
    while rest != []
      invariant Inserted(known, rest) == Inserted([], paths)
      decreases |rest|
    {
      if rest[0] !in known { known := known + [rest[0]]; }
      rest := rest[1..];
    }
  }

  // ---- a client that replays the events

  ghost function Elements(s: seq<string>): set<string> { set x | x in s }

  ghost function Replay(have: set<string>, events: seq<Event>): set<string>
    decreases |events|
  {
    if events == [] then have
    else
      Replay(match events[0] case NewSource(path) => have + {path} case RemovedSource(path) => have - {path},
        events[1..])
  }

  lemma {:induction false} ReplayConcat(have: set<string>, a: seq<Event>, b: seq<Event>)
    ensures Replay(have, a + b) == Replay(Replay(have, a), b)
    decreases |a|
  {
    if a == [] {
      assert a + b == b;
    } else {
      assert (a + b)[1..] == a[1..] + b;
      ReplayConcat(match a[0] case NewSource(path) => have + {path} case RemovedSource(path) => have - {path},
        a[1..], b);
    }
  }

  lemma {:induction false} InsertedIsDistinct(known: seq<string>, paths: seq<string>)
    requires Distinct(known)
    ensures Distinct(Inserted(known, paths)) && Elements(Inserted(known, paths)) == Elements(known) + Elements(paths)
    decreases |paths|
  {
    if paths != [] {
      InsertedIsDistinct(if paths[0] in known then known else known + [paths[0]], paths[1..]);
      assert Elements(known + [paths[0]]) == Elements(known) + {paths[0]};
      assert Elements(paths) == {paths[0]} + Elements(paths[1..]);
    }
  }

  lemma {:induction false} NewsReplay(have: set<string>, known: seq<string>, paths: seq<string>)
    requires Elements(known) <= have
    ensures Replay(have, News(known, paths)) == have + Elements(paths)
    decreases |paths|
  {
    if paths != [] {
      var next := if paths[0] in known then have else have + {paths[0]};
      NewsReplay(next, known, paths[1..]);
      assert paths[0] in known ==> paths[0] in Elements(known);
      ReplayConcat(have, if paths[0] in known then [] else [NewSource(paths[0])], News(known, paths[1..]));
      assert Elements(paths) == {paths[0]} + Elements(paths[1..]);
    }
  }

  lemma {:induction false} RemovalsReplay(have: set<string>, known: seq<string>, next: seq<string>)
    ensures Replay(have, Removals(known, next)) == have - (Elements(known) - Elements(next))
    decreases |known|
  {
    if known != [] {
      var left := if known[0] in next then have else have - {known[0]};
      RemovalsReplay(left, known[1..], next);
      ReplayConcat(have, if known[0] in next then [] else [RemovedSource(known[0])], Removals(known[1..], next));
      assert known[0] in next <==> known[0] in Elements(next);
      assert Elements(known) == {known[0]} + Elements(known[1..]);
    }
  }

  /** Replaying one more refresh gives its listing, duplicates and all. */
  lemma {:induction false} RefreshReplays(events: seq<Event>, known: seq<string>, paths: seq<string>)
    requires Replay({}, events) == Elements(known)
    ensures Replay({}, events + RefreshEvents(known, paths)) == Elements(Inserted([], paths)) == Elements(paths)
  {
    var next := Inserted([], paths);
    ReplayConcat({}, events, RefreshEvents(known, paths));
    ReplayConcat(Elements(known), News(known, paths), Removals(known, next));
    NewsReplay(Elements(known), known, paths);
    RemovalsReplay(Elements(known) + Elements(paths), known, next);
    InsertedIsDistinct([], paths);
  }

  // ---- how often each event is sent

  ghost function Times<T>(x: T, s: seq<T>): nat {
    if s == [] then 0 else (if s[0] == x then 1 else 0) + Times(x, s[1..])
  }

  lemma {:induction false} TimesConcat<T>(x: T, a: seq<T>, b: seq<T>)
    ensures Times(x, a + b) == Times(x, a) + Times(x, b)
  {
    if a == [] {
      assert a + b == b;
    } else {
      assert (a + b)[1..] == a[1..] + b;
      TimesConcat(x, a[1..], b);
    }
  }

  lemma {:induction false} NewsTimes(known: seq<string>, paths: seq<string>, p: string)
    ensures Times(NewSource(p), News(known, paths)) == if p in known then 0 else Times(p, paths)
    ensures Times(RemovedSource(p), News(known, paths)) == 0
    decreases |paths|
  {
    if paths != [] {
      NewsTimes(known, paths[1..], p);
      TimesConcat(NewSource(p), if paths[0] in known then [] else [NewSource(paths[0])], News(known, paths[1..]));
      TimesConcat(RemovedSource(p), if paths[0] in known then [] else [NewSource(paths[0])], News(known, paths[1..]));
    }
  }

  lemma {:induction false} RemovalsTimes(known: seq<string>, next: seq<string>, p: string)
    ensures Times(NewSource(p), Removals(known, next)) == 0
    ensures Times(RemovedSource(p), Removals(known, next)) == if p in next then 0 else Times(p, known)
    decreases |known|
  {
    if known != [] {
      RemovalsTimes(known[1..], next, p);
      TimesConcat(NewSource(p), if known[0] in next then [] else [RemovedSource(known[0])], Removals(known[1..], next));
      TimesConcat(
        RemovedSource(p), if known[0] in next then [] else [RemovedSource(known[0])], Removals(known[1..], next));
    }
  }

  lemma {:induction false} TimesInDistinct(s: seq<string>, p: string)
    requires Distinct(s)
    ensures Times(p, s) == if p in s then 1 else 0
  {
    if s != [] { TimesInDistinct(s[1..], p); }
  }

  /** A path is announced once per listing of it, and removed once if it is gone. So each change is
      sent exactly once precisely when the listing does not repeat a new path. */
  lemma {:induction false} ChangesSent(known: seq<string>, paths: seq<string>, p: string)
    requires Distinct(known)
    ensures var events := RefreshEvents(known, paths);
      && Times(NewSource(p), events) == (if p in known then 0 else Times(p, paths))
      && Times(RemovedSource(p), events) == (if p in known && p !in paths then 1 else 0)
  {
    var next := Inserted([], paths);
    NewsTimes(known, paths, p);
    RemovalsTimes(known, next, p);
    TimesConcat(NewSource(p), News(known, paths), Removals(known, next));
    TimesConcat(RemovedSource(p), News(known, paths), Removals(known, next));
    TimesInDistinct(known, p);
    InsertedIsDistinct([], paths);
    assert p in next <==> p in Elements(next);
    assert p in paths <==> p in Elements(paths);
  }
}

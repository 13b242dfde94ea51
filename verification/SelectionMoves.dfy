/** Moving the selection up and down over the headers and rows of a tab. */
module SelectionMoves {
  import opened Common
  import opened Outline
  import opened AppModel

  lemma {:induction false} RowPositionsAre(s: Section, n: nat, j: nat)
    requires j < n
    ensures RowPositions(s, n)[j] == Focus(s, Some(j))
  {
    if j < n - 1 { RowPositionsAre(s, n - 1, j); }
  }

  function BlockOf(e: Env, a: App, s: Section): seq<Focus> {
    [Focus(s, None)] + if s !in a.collapsed && s in a.visible then RowPositions(s, |Rows(e, a, s)|) else []
  }

  lemma {:induction false} BlockDistinct(e: Env, a: App, s: Section)
    ensures Distinct(BlockOf(e, a, s)) && forall f | f in BlockOf(e, a, s) :: f.section == s
  {
    var block := BlockOf(e, a, s);
    forall j: nat | 0 < j < |block| ensures block[j] == Focus(s, Some(j - 1)) {
      RowPositionsAre(s, |Rows(e, a, s)|, j - 1);
    }
  }

  /** No header and no row can be selected in two places. */
  lemma {:induction false} PositionsDistinct(e: Env, a: App, sections: seq<Section>)
    requires Distinct(sections)
    ensures Distinct(PositionsIn(e, a, sections))
    ensures forall f | f in PositionsIn(e, a, sections) :: f.section in sections
    decreases |sections|
  {
    if sections != [] {
      assert sections[0] !in sections[1..];
      PositionsDistinct(e, a, sections[1..]);
      BlockDistinct(e, a, sections[0]);
      DistinctConcat(BlockOf(e, a, sections[0]), PositionsIn(e, a, sections[1..]));
      assert PositionsIn(e, a, sections) == BlockOf(e, a, sections[0]) + PositionsIn(e, a, sections[1..]);
    }
  }

  /** The order of a tab's sections. */
  function Place(s: Section): nat {
    match s
    case Contexts => 0
    case Processes => 1
    case Connections => 2
    case Targets => 3
    case Attention => 0
    case Sources => 1
    case Breakpoints => 2
    case Captures => 3
    case CallStacks => 4
  }

  /** The focus can be here: on the header of a section of the tab, or on a row of it that is shown. */
  predicate Selectable(e: Env, a: App, f: Focus) {
    && (f.section in {Contexts, Processes, Connections, Targets} <==> a.tab.Runtime?)
    && (f.row.Some? ==>
          f.section !in a.collapsed && f.section in a.visible && f.row.value < |Rows(e, a, f.section)|)
  }

  /** Section by section, the header before the rows, and these from the top down. */
  predicate Above(f: Focus, g: Focus) {
    || Place(f.section) < Place(g.section)
    || (f.section == g.section && g.row.Some? && (f.row.None? || f.row.value < g.row.value))
  }

  lemma {:induction false} BlockExact(e: Env, a: App, s: Section, f: Focus)
    ensures f in BlockOf(e, a, s) <==>
      f.section == s
      && (f.row.Some? ==> s !in a.collapsed && s in a.visible && f.row.value < |Rows(e, a, s)|)
  {
    var block := BlockOf(e, a, s);
    forall j: nat | 0 < j < |block| ensures block[j] == Focus(s, Some(j - 1)) {
      RowPositionsAre(s, |Rows(e, a, s)|, j - 1);
    }
    if f.row.None? {
      assert block[0] == Focus(s, None);
    } else if f.row.value + 1 < |block| {
      assert block[f.row.value + 1] == Focus(s, Some(f.row.value));
    }
  }

  lemma {:induction false} BlockAbove(e: Env, a: App, s: Section, i: nat, j: nat)
    requires i < j < |BlockOf(e, a, s)|
    ensures Above(BlockOf(e, a, s)[i], BlockOf(e, a, s)[j])
  {
    if i > 0 { RowPositionsAre(s, |Rows(e, a, s)|, i - 1); }
    RowPositionsAre(s, |Rows(e, a, s)|, j - 1);
  }

  lemma {:induction false} PositionsInExact(e: Env, a: App, sections: seq<Section>, f: Focus)
    ensures f in PositionsIn(e, a, sections) <==> f.section in sections && f in BlockOf(e, a, f.section)
    decreases |sections|
  {
    if sections != [] {
      var s := sections[0];
      assert sections == [s] + sections[1..];
      PositionsInExact(e, a, sections[1..], f);
      BlockExact(e, a, s, f);
      assert PositionsIn(e, a, sections) == BlockOf(e, a, s) + PositionsIn(e, a, sections[1..]);
    }
  }

  lemma {:induction false} PositionsInAbove(e: Env, a: App, sections: seq<Section>, i: nat, j: nat)
    requires i < j < |PositionsIn(e, a, sections)|
    requires forall k, l | 0 <= k < l < |sections| :: Place(sections[k]) < Place(sections[l])
    ensures Above(PositionsIn(e, a, sections)[i], PositionsIn(e, a, sections)[j])
    decreases |sections|
  {
    var block, rest := BlockOf(e, a, sections[0]), PositionsIn(e, a, sections[1..]);
    assert PositionsIn(e, a, sections) == block + rest;
    if j < |block| {
      BlockAbove(e, a, sections[0], i, j);
    } else if i >= |block| {
      PositionsInAbove(e, a, sections[1..], i - |block|, j - |block|);
    } else {
      var f, g := block[i], rest[j - |block|];
      BlockExact(e, a, sections[0], f);
      PositionsInExact(e, a, sections[1..], g);
    }
  }

  lemma SectionsExact(tab: Tab, s: Section)
    ensures s in SectionsOf(tab) <==> (s in {Contexts, Processes, Connections, Targets} <==> tab.Runtime?)
    ensures forall k, l | 0 <= k < l < |SectionsOf(tab)| :: Place(SectionsOf(tab)[k]) < Place(SectionsOf(tab)[l])
  {
  }

  /** The selection passes over every place where the focus can be. */
  lemma {:induction false} PositionsExact(e: Env, a: App, f: Focus)
    ensures f in Positions(e, a) <==> Selectable(e, a, f)
  {
    SectionsExact(a.tab, f.section);
    PositionsInExact(e, a, SectionsOf(a.tab), f);
    BlockExact(e, a, f.section, f);
  }

  /** It goes from the top down. */
  lemma {:induction false} PositionsInOrder(e: Env, a: App, i: nat, j: nat)
    requires i < j < |Positions(e, a)|
    ensures Above(Positions(e, a)[i], Positions(e, a)[j])
  {
    SectionsExact(a.tab, Contexts);
    PositionsInAbove(e, a, SectionsOf(a.tab), i, j);
  }

  lemma {:induction false} PositionsSame(e: Env, a: App, b: App, sections: seq<Section>)
    requires b == a.(focus := b.focus, lastVisited := b.lastVisited)
    ensures PositionsIn(e, b, sections) == PositionsIn(e, a, sections)
    decreases |sections|
  {
    if sections != [] { PositionsSame(e, a, b, sections[1..]); }
  }

  lemma {:induction false} PositionFound(positions: seq<Focus>, i: nat)
    requires Distinct(positions) && i < |positions|
    ensures PositionOf(positions, positions[i], 0) == Some(i)
  {
    assert positions[0..] == positions;
  }

  /** Only the focus of the shown tab and the memory of visited children differ. */
  ghost predicate Selected(a: App, b: App, f: Focus) {
    b == a.(focus := a.focus.Set(a.tab, f), lastVisited := b.lastVisited)
  }

  /** Moving the selection ends at one of the positions. */
  lemma {:induction false} SelectsPosition(e: Env, a: App, delta: int) returns (j: nat)
    requires !a.documentFocused
    ensures j < |Positions(e, a)| && Selected(a, MoveSelection(e, a, delta), Positions(e, a)[j])
  {
    var positions := Positions(e, a);
    var found := PositionOf(positions, a.focus.Get(a.tab), 0);
    var wanted := (if found.Some? then found.value else 0) + delta;
    j := if wanted < 0 then 0 else if wanted >= |positions| then |positions| - 1 else wanted;
  }

  /** The keys for the edges end at the first and the last position. */
  lemma {:induction false} SelectsEdge(e: Env, a: App, last: bool)
    requires !a.documentFocused
    ensures Selected(a, SelectEdge(e, a, last), Positions(e, a)[if last then |Positions(e, a)| - 1 else 0])
  {
  }

  /** From the i-th position the selection moves by `delta` places and stops at the ends. */
  lemma {:induction false} MovesByDelta(e: Env, a: App, i: nat, delta: int)
    requires !a.documentFocused && i < |Positions(e, a)| && a.focus.Get(a.tab) == Positions(e, a)[i]
    ensures var positions := Positions(e, a);
      Selected(a, MoveSelection(e, a, delta),
        positions[if i + delta < 0 then 0 else if i + delta >= |positions| then |positions| - 1 else i + delta])
  {
    PositionsDistinct(e, a, SectionsOf(a.tab));
    PositionFound(Positions(e, a), i);
  }

  lemma {:induction false} UpFrom(e: Env, a: App, b: App, j: nat)
    requires !a.documentFocused && j < |Positions(e, a)| && Selected(a, b, Positions(e, a)[j])
    ensures Selected(b, MoveSelection(e, b, -1), Positions(e, a)[if j == 0 then 0 else j - 1])
  {
    PositionsSame(e, a, b, SectionsOf(a.tab));
    MovesByDelta(e, b, j, -1);
  }

  /** The position reached from the i-th of `n` by going down and up again. */
  function Back(i: nat, n: nat): nat { if i + 1 < n || i == 0 then i else i - 1 }

  lemma {:induction false} DownUp(e: Env, a: App, i: nat)
    requires !a.documentFocused && i < |Positions(e, a)| && a.focus.Get(a.tab) == Positions(e, a)[i]
    ensures var positions := Positions(e, a);
      MoveSelection(e, MoveSelection(e, a, 1), -1).focus == a.focus.Set(a.tab, positions[Back(i, |positions|)])
  {
    MovesByDelta(e, a, i, 1);
    UpFrom(e, a, MoveSelection(e, a, 1), if i + 1 < |Positions(e, a)| then i + 1 else i);
  }

  lemma PositionsDiffer(e: Env, a: App)
    ensures Distinct(Positions(e, a))
  {
    PositionsDistinct(e, a, SectionsOf(a.tab));
  }

  /** Setting a tab's focus to another of different positions changes it. */
  lemma SetFocusSame(focus: PerTab<Focus>, tab: Tab, positions: seq<Focus>, i: nat, k: nat)
    requires Distinct(positions) && i < |positions| && k < |positions| && focus.Get(tab) == positions[i]
    ensures focus.Set(tab, positions[k]) == focus <==> k == i
  {
    if k != i { assert positions[k] != positions[i]; }
  }

  /** Up undoes Down, except at the last of several positions. */
  lemma {:induction false} DownThenUp(e: Env, a: App, i: nat)
    requires !a.documentFocused && i < |Positions(e, a)| && a.focus.Get(a.tab) == Positions(e, a)[i]
    ensures MoveSelection(e, MoveSelection(e, a, 1), -1).focus == a.focus <==> i + 1 < |Positions(e, a)| || i == 0
  {
    var positions := Positions(e, a);
    DownUp(e, a, i);
    PositionsDiffer(e, a);
    SetFocusSame(a.focus, a.tab, positions, i, Back(i, |positions|));
  }
}

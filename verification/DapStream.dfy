/** What a client of the debug adapter can rely on in the event stream of an observer. */
module DapStream {
  import opened Common
  import opened DapObserver

  // ---- stopped and continued

  /** The epoch of the last stop that has not been continued. */
  ghost function Pausing(events: seq<Event>): Option<int> {
    if events == [] then None
    else
      match events[|events| - 1]
      case Stopped(epoch, _) => Some(epoch)
      case Continued => None
      case Output(_) => Pausing(events[..|events| - 1])
  }

  /** Only a stop is continued, and a stop on top of another has a higher epoch. */
  ghost predicate Proper(events: seq<Event>) {
    events != [] ==>
      var last, before := events[|events| - 1], events[..|events| - 1];
      && Proper(before)
      && (last.Continued? ==> Pausing(before).Some?)
      && (last.Stopped? ==> Pausing(before).None? || Pausing(before).value < last.epoch)
  }

  ghost predicate Agrees(s: State, before: seq<Event>) {
    Pausing(before) == if s.paused then Some(s.pauseEpoch) else None
  }

  lemma OneMore(before: seq<Event>, event: Event)
    ensures Pausing(before + [event])
      == if event.Stopped? then Some(event.epoch) else if event.Continued? then None else Pausing(before)
    ensures Proper(before + [event]) <==>
      Proper(before) && (event.Continued? ==> Pausing(before).Some?)
      && (event.Stopped? ==> Pausing(before).None? || Pausing(before).value < event.epoch)
  {
    assert (before + [event])[..|before|] == before;
  }

  lemma {:induction false} OutputsAreNeutral(before: seq<Event>, logs: seq<Log>)
    requires Proper(before)
    ensures Proper(before + Outputs(logs)) && Pausing(before + Outputs(logs)) == Pausing(before)
    decreases |logs|
  {
    if logs == [] {
      assert before + [] == before;
    } else {
      OneMore(before, Output(logs[0]));
      OutputsAreNeutral(before + [Output(logs[0])], logs[1..]);
      Assoc(before, [Output(logs[0])], Outputs(logs[1..]));
    }
  }

  lemma {:induction false} TransitionIsProper(before: seq<Event>, s: State, t: Snapshot)
    requires Proper(before) && Agrees(s, before)
    ensures Proper(before + Transition(s, t)) && Agrees(Next(s, t), before + Transition(s, t))
  {
    if Transition(s, t) == [] {
      assert before + [] == before;
    } else {
      OneMore(before, Transition(s, t)[0]);
    }
  }

  lemma {:induction false} RunIsProper(before: seq<Event>, s: State, passes: seq<Pass>)
    requires Proper(before) && Agrees(s, before)
    ensures Proper(before + Run(s, passes))
    decreases |passes|
  {
    if passes == [] || passes[0].Rejected? || passes[0].cancelled {
      assert before + [] == before;
    } else if passes[0].snapshot.None? {
      RunIsProper(before, s, passes[1..]);
    } else {
      var t := passes[0].snapshot.value;
      var out, after := Outputs(Printed(s.logIndex, t.logs)), Transition(s, t);
      OutputsAreNeutral(before, Printed(s.logIndex, t.logs));
      if passes[0].refreshed {
        TransitionIsProper(before + out, s, t);
        RunIsProper(before + out + after, Next(s, t), passes[1..]);
        Regroup(before, out, after, Run(Next(s, t), passes[1..]));
      } else {
        assert out + [] == out;
      }
    }
  }

  lemma {:induction false} ProperPrefix(events: seq<Event>, n: nat)
    requires Proper(events) && n <= |events|
    ensures Proper(events[..n])
  {
    if n < |events| {
      assert events[..|events| - 1][..n] == events[..n];
      ProperPrefix(events[..|events| - 1], n);
    } else {
      assert events[..n] == events;
    }
  }

  lemma {:induction false} ContinuedUntilStopped(events: seq<Event>, i: nat)
    requires i < |events| && events[i].Continued? && forall m | i < m < |events| :: !events[m].Stopped?
    ensures Pausing(events).None?
  {
    if i < |events| - 1 { ContinuedUntilStopped(events[..|events| - 1], i); }
  }

  lemma {:induction false} PausedUntilContinued(events: seq<Event>, i: nat)
    requires Proper(events) && i < |events| && events[i].Stopped?
      && forall m | i < m < |events| :: !events[m].Continued?
    ensures Pausing(events).Some? && events[i].epoch <= Pausing(events).value
  {
    if i < |events| - 1 { PausedUntilContinued(events[..|events| - 1], i); }
  }

  lemma {:induction false} NothingPausesYet(events: seq<Event>)
    requires forall m | 0 <= m < |events| :: !events[m].Stopped?
    ensures Pausing(events).None?
  {
    if events != [] { NothingPausesYet(events[..|events| - 1]); }
  }

  /** Every observer's stream, whatever snapshots it sees. */
  lemma StreamIsProper(passes: seq<Pass>)
    ensures Proper(Run(INITIAL, passes))
  {
    RunIsProper([], INITIAL, passes);
    assert [] + Run(INITIAL, passes) == Run(INITIAL, passes);
  }

  /** Every pass was handled to its end. */
  predicate AllHandled(passes: seq<Pass>) {
    forall p | p in passes :: p.Answered? && !p.cancelled && p.refreshed
  }

  /** What a client that has seen these events is told of the next snapshot, next to its output: that the
      target stopped, if it is paused and the client takes it for running or for paused at an earlier epoch;
      that it continued, if it runs and the client takes it for paused; and else nothing. */
  ghost function Report(seen: seq<Event>, t: Snapshot): seq<Event> {
    if t.phase.Paused? && t.pause.Some? then
      if Pausing(seen).None? || Pausing(seen).value < t.pause.value.epoch
      then [Stopped(t.pause.value.epoch, t.pause.value.reason)] else []
    else if t.phase.Running? && Pausing(seen).Some? then [Continued]
    else []
  }

  lemma {:induction false} RunReports(before: seq<Event>, s: State, passes: seq<Pass>, t: Snapshot)
      returns (logs: seq<Log>)
    requires Proper(before) && Agrees(s, before) && AllHandled(passes)
    ensures before + Run(s, passes + [Answered(Some(t), false, true)])
      == before + Run(s, passes) + Outputs(logs) + Report(before + Run(s, passes), t)
    decreases |passes|
  {
    var all := passes + [Answered(Some(t), false, true)];
    if passes == [] {
      logs := Printed(s.logIndex, t.logs);
      assert all[1..] == [] && before + [] == before;
      assert Run(s, all) == Outputs(logs) + (Transition(s, t) + []);
      Assoc(before, Outputs(logs), Transition(s, t));
    } else {
      assert passes[0] in passes && all[1..] == passes[1..] + [Answered(Some(t), false, true)];
      if passes[0].snapshot.None? {
        logs := RunReports(before, s, passes[1..], t);
      } else {
        var u := passes[0].snapshot.value;
        var out, after := Outputs(Printed(s.logIndex, u.logs)), Transition(s, u);
        OutputsAreNeutral(before, Printed(s.logIndex, u.logs));
        TransitionIsProper(before + out, s, u);
        logs := RunReports(before + out + after, Next(s, u), passes[1..], t);
        Regroup(before, out, after, Run(Next(s, u), passes[1..]));
        Regroup(before, out, after, Run(Next(s, u), all[1..]));
      }
    }
  }

  /** After the output of a snapshot the client is told of the stop or the continuation that it does not know
      of yet, and of nothing else. */
  lemma {:induction false} SnapshotIsReported(passes: seq<Pass>, t: Snapshot) returns (logs: seq<Log>)
    requires AllHandled(passes)
    ensures Run(INITIAL, passes + [Answered(Some(t), false, true)])
      == Run(INITIAL, passes) + Outputs(logs) + Report(Run(INITIAL, passes), t)
  {
    logs := RunReports([], INITIAL, passes, t);
    var next := passes + [Answered(Some(t), false, true)];
    assert [] + Run(INITIAL, passes) == Run(INITIAL, passes) && [] + Run(INITIAL, next) == Run(INITIAL, next);
  }

  /** Passes that timed out, handled or not, leave no trace. */
  lemma {:induction false} TimeOutIsSkipped(s: State, a: seq<Pass>, refreshed: bool, b: seq<Pass>)
    ensures Run(s, a + [Answered(None, false, refreshed)] + b) == Run(s, a + b)
    decreases |a|
  {
    var longer := a + [Answered(None, false, refreshed)] + b;
    if a == [] {
      assert longer[1..] == b && a + b == b;
    } else {
      assert longer[1..] == a[1..] + [Answered(None, false, refreshed)] + b && (a + b)[1..] == a[1..] + b;
      if a[0].Answered? && !a[0].cancelled {
        TimeOutIsSkipped(if a[0].snapshot.None? then s else Next(s, a[0].snapshot.value), a[1..], refreshed, b);
      }
    }
  }

  /** Nothing is sent after a rejected pass or one that was cancelled, and after one whose sources could not be
      refreshed nothing but its output. */
  lemma {:induction false} StreamEnds(s: State, a: seq<Pass>, last: Pass, b: seq<Pass>)
    requires last.Rejected? || last.cancelled || (last.snapshot.Some? && !last.refreshed)
    ensures Run(s, a + [last] + b) == Run(s, a + [last])
    ensures last.Rejected? || last.cancelled ==> Run(s, a + [last]) == Run(s, a)
    decreases |a|
  {
    var longer, shorter := a + [last] + b, a + [last];
    if a == [] {
      assert longer[0] == last && shorter[0] == last;
    } else {
      assert longer[1..] == a[1..] + [last] + b && shorter[1..] == a[1..] + [last];
      if a[0].Answered? && !a[0].cancelled {
        StreamEnds(if a[0].snapshot.None? then s else Next(s, a[0].snapshot.value), a[1..], last, b);
      }
    }
  }

  /** Before each `continued`, and between two of them, there is a `stopped`. */
  lemma {:induction false} ContinuedAreSeparated(passes: seq<Pass>, j: nat)
    requires j < |Run(INITIAL, passes)| && Run(INITIAL, passes)[j].Continued?
    ensures var events := Run(INITIAL, passes);
      && (exists m :: 0 <= m < j && events[m].Stopped?)
      && (forall i | 0 <= i < j && events[i].Continued? :: exists m :: i < m < j && events[m].Stopped?)
  {
    var events := Run(INITIAL, passes);
    StreamIsProper(passes);
    ProperPrefix(events, j + 1);
    assert events[..j + 1][..j] == events[..j];
    if forall m | 0 <= m < j :: !events[m].Stopped? {
      NothingPausesYet(events[..j]);
      assert false;
    }
    forall i | 0 <= i < j && events[i].Continued? ensures exists m :: i < m < j && events[m].Stopped? {
      if forall m | i < m < j :: !events[m].Stopped? {
        ContinuedUntilStopped(events[..j], i);
        assert false;
      }
    }
  }

  /** Two stops with no `continued` between them have increasing epochs. */
  lemma {:induction false} StopsIncrease(passes: seq<Pass>, i: nat, j: nat)
    requires i < j < |Run(INITIAL, passes)| && Run(INITIAL, passes)[i].Stopped? && Run(INITIAL, passes)[j].Stopped?
    requires forall m | i < m < j :: !Run(INITIAL, passes)[m].Continued?
    ensures Run(INITIAL, passes)[i].epoch < Run(INITIAL, passes)[j].epoch
  {
    var events := Run(INITIAL, passes);
    StreamIsProper(passes);
    ProperPrefix(events, j + 1);
    assert events[..j + 1][..j] == events[..j];
    ProperPrefix(events, j);
    PausedUntilContinued(events[..j], i);
  }

  // ---- output

  /** All logs of the snapshots that the observer handled. */
  ghost function Seen(passes: seq<Pass>): seq<Log> {
    if passes == [] || passes[0].Rejected? || passes[0].cancelled then []
    else if passes[0].snapshot.None? then Seen(passes[1..])
    else passes[0].snapshot.value.logs + if passes[0].refreshed then Seen(passes[1..]) else []
  }

  ghost function OutputsIn(events: seq<Event>): seq<Log> {
    if events == [] then []
    else (if events[0].Output? then [events[0].log] else []) + OutputsIn(events[1..])
  }

  lemma {:induction false} OutputsInConcat(a: seq<Event>, b: seq<Event>)
    ensures OutputsIn(a + b) == OutputsIn(a) + OutputsIn(b)
  {
    if a == [] {
      assert a + b == b;
    } else {
      assert (a + b)[1..] == a[1..] + b;
      OutputsInConcat(a[1..], b);
      Assoc(if a[0].Output? then [a[0].log] else [], OutputsIn(a[1..]), OutputsIn(b));
    }
  }

  lemma {:induction false} OutputsInOutputs(logs: seq<Log>)
    ensures OutputsIn(Outputs(logs)) == logs
  {
    if logs != [] { OutputsInOutputs(logs[1..]); }
  }

  lemma {:induction false} PrintedConcat(last: int, a: seq<Log>, b: seq<Log>)
    ensures Printed(last, a + b) == Printed(last, a) + Printed(LastPrinted(last, a), b)
    decreases |a|
  {
    if a == [] {
      assert a + b == b;
    } else {
      assert (a + b)[1..] == a[1..] + b;
      PrintedConcat(if a[0].index > last then a[0].index else last, a[1..], b);
    }
  }

  /** The output of a run is that of all logs it saw, taken together. */
  lemma {:induction false} RunPrints(s: State, passes: seq<Pass>)
    ensures OutputsIn(Run(s, passes)) == Printed(s.logIndex, Seen(passes))
    decreases |passes|
  {
    if passes == [] || passes[0].Rejected? || passes[0].cancelled {
    } else if passes[0].snapshot.None? {
      RunPrints(s, passes[1..]);
    } else {
      var t := passes[0].snapshot.value;
      var logs := Printed(s.logIndex, t.logs);
      OutputsInOutputs(logs);
      if passes[0].refreshed {
        RunPrints(Next(s, t), passes[1..]);
        PrintedConcat(s.logIndex, t.logs, Seen(passes[1..]));
        OutputsInConcat(Outputs(logs), Transition(s, t) + Run(Next(s, t), passes[1..]));
        OutputsInConcat(Transition(s, t), Run(Next(s, t), passes[1..]));
        assert OutputsIn(Transition(s, t)) == [];
      } else {
        assert Outputs(logs) + [] == Outputs(logs);
        assert t.logs + [] == t.logs;
      }
    }
  }

  lemma {:induction false} PrintedIncreases(last: int, logs: seq<Log>, i: nat, j: nat)
    requires i <= j < |Printed(last, logs)|
    ensures last < Printed(last, logs)[i].index
    ensures i < j ==> Printed(last, logs)[i].index < Printed(last, logs)[j].index
    decreases |logs|
  {
    if logs[0].index <= last {
      PrintedIncreases(last, logs[1..], i, j);
    } else if j > 0 {
      PrintedIncreases(logs[0].index, logs[1..], if i == 0 then j - 1 else i - 1, j - 1);
    }
  }

  /** Some log with index `v` comes before any with a higher index, and `v` is above `last`. */
  ghost predicate InOrder(last: int, logs: seq<Log>, v: int) {
    v > last && exists p :: 0 <= p < |logs| && logs[p].index == v && forall q | 0 <= q < p :: logs[q].index < v
  }

  ghost predicate HasIndex(logs: seq<Log>, v: int) {
    exists l :: l in logs && l.index == v
  }

  lemma {:induction false} InOrderStep(last: int, logs: seq<Log>, v: int)
    requires logs != []
    ensures InOrder(last, logs, v) <==>
      v > last && (logs[0].index == v || (logs[0].index < v && InOrder(last, logs[1..], v)))
  {
    if InOrder(last, logs, v) && logs[0].index != v {
      var p :| 0 <= p < |logs| && logs[p].index == v && forall q | 0 <= q < p :: logs[q].index < v;
      assert logs[1..][p - 1].index == v;
    }
    if v > last && logs[0].index < v && InOrder(last, logs[1..], v) {
      var p :| 0 <= p < |logs[1..]| && logs[1..][p].index == v && forall q | 0 <= q < p :: logs[1..][q].index < v;
      forall q | 0 <= q < p + 1 ensures logs[q].index < v {
        if q > 0 { assert logs[q] == logs[1..][q - 1]; }
      }
      assert logs[p + 1].index == v;
    }
  }

  /** An index is printed exactly when it comes in order. */
  lemma {:induction false} PrintedIffInOrder(last: int, logs: seq<Log>, v: int)
    ensures HasIndex(Printed(last, logs), v) <==> InOrder(last, logs, v)
    decreases |logs|
  {
    if logs != [] {
      InOrderStep(last, logs, v);
      var next := if logs[0].index > last then logs[0].index else last;
      PrintedIffInOrder(next, logs[1..], v);
      if logs[0].index > last { HasIndexStep(logs[0], Printed(next, logs[1..]), v); }
    }
  }

  lemma HasIndexStep(first: Log, rest: seq<Log>, v: int)
    ensures HasIndex([first] + rest, v) <==> first.index == v || HasIndex(rest, v)
  {
    assert first in [first] + rest;
    assert forall l :: l in rest ==> l in [first] + rest;
  }

  /** Every printed index is above all printed before, so none is printed twice; and an index is
      printed exactly when it is positive and is seen before any higher one. */
  lemma {:induction false} EachIndexPrintedOnce(passes: seq<Pass>, v: int)
    ensures var printed := OutputsIn(Run(INITIAL, passes));
      && (forall i, j | 0 <= i < j < |printed| :: printed[i].index < printed[j].index)
      && (HasIndex(printed, v) <==> InOrder(0, Seen(passes), v))
  {
    RunPrints(INITIAL, passes);
    PrintedIffInOrder(0, Seen(passes), v);
    var printed := Printed(0, Seen(passes));
    forall i, j | 0 <= i < j < |printed| ensures printed[i].index < printed[j].index {
      PrintedIncreases(0, Seen(passes), i, j);
    }
  }

  /** No index arrives after a higher one for the first time. */
  ghost predicate NoneLate(logs: seq<Log>) {
    forall q, p | 0 <= q < p < |logs| && logs[q].index > logs[p].index ::
      exists o :: 0 <= o < q && logs[o].index == logs[p].index
  }

  /** The first entry with an index. */
  function FirstWith(logs: seq<Log>, v: int): (p: nat)
    requires HasIndex(logs, v)
    ensures p < |logs| && logs[p].index == v && forall q | 0 <= q < p :: logs[q].index != v
  {
    if logs[0].index == v then 0
    else
      assert forall l | l in logs :: l == logs[0] || l in logs[1..];
      1 + FirstWith(logs[1..], v)
  }

  lemma {:induction false} NotLateInOrder(logs: seq<Log>, v: int)
    requires NoneLate(logs) && HasIndex(logs, v) && v > 0
    ensures InOrder(0, logs, v)
  {
    var p := FirstWith(logs, v);
    forall q | 0 <= q < p ensures logs[q].index < v {
      assert logs[p].index == v;
    }
  }

  lemma {:induction false} InOrderNotLate(logs: seq<Log>)
    requires forall l | l in logs :: InOrder(0, logs, l.index)
    ensures NoneLate(logs)
  {
    forall q, p | 0 <= q < p < |logs| && logs[q].index > logs[p].index
      ensures exists o :: 0 <= o < q && logs[o].index == logs[p].index
    {
      var v := logs[p].index;
      assert InOrder(0, logs, v);
      var o :| 0 <= o < |logs| && logs[o].index == v && forall r | 0 <= r < o :: logs[r].index < v;
      assert o < q;
    }
  }

  /** The service counts log entries from 1 on. All entries seen are printed exactly when no index
      arrives late; and no entry is printed twice. */
  lemma {:induction false} AllLogsPrinted(passes: seq<Pass>)
    requires forall l | l in Seen(passes) :: l.index > 0
    ensures var printed := OutputsIn(Run(INITIAL, passes));
      && ((forall l | l in Seen(passes) :: HasIndex(printed, l.index)) <==> NoneLate(Seen(passes)))
      && (forall i, j | 0 <= i < j < |printed| :: printed[i].index != printed[j].index)
  {
    var logs, printed := Seen(passes), OutputsIn(Run(INITIAL, passes));
    EachIndexPrintedOnce(passes, 0);
    forall l | l in logs ensures HasIndex(printed, l.index) <==> InOrder(0, logs, l.index) {
      EachIndexPrintedOnce(passes, l.index);
    }
    if NoneLate(logs) {
      forall l | l in logs ensures HasIndex(printed, l.index) {
        NotLateInOrder(logs, l.index);
      }
    } else if forall l | l in logs :: HasIndex(printed, l.index) {
      InOrderNotLate(logs);
      assert false;
    }
  }
}

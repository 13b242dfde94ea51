/** The Debug Adapter Protocol events of one target observer. */
module DapObserver {
  import opened Common

  datatype Log = Log(index: int, values: seq<string>)

  datatype Phase = Paused | Running | OtherPhase

  datatype Pause = Pause(epoch: int, reason: string)

  datatype Snapshot = Snapshot(revision: nat, logs: seq<Log>, phase: Phase, pause: Option<Pause>)

  /** One pass of the loop: the answer of the service (`None` after a time-out), whether the observer
      was cancelled by then, and whether the refresh of the sources succeeded. */
  datatype Pass = Answered(snapshot: Option<Snapshot>, cancelled: bool, refreshed: bool) | Rejected

  datatype Event = Output(log: Log) | Stopped(epoch: int, reason: string) | Continued

  datatype State = State(revision: nat, pauseEpoch: int, logIndex: int, paused: bool)

  const INITIAL := State(0, 0, 0, false)

  /** The logs with an index above all printed before. */
  function Printed(last: int, logs: seq<Log>): seq<Log>
    decreases |logs|
  {
    if logs == [] then []
    else if logs[0].index > last then [logs[0]] + Printed(logs[0].index, logs[1..])
    else Printed(last, logs[1..])
  }

  function LastPrinted(last: int, logs: seq<Log>): int
    decreases |logs|
  {
    if logs == [] then last
    else LastPrinted(if logs[0].index > last then logs[0].index else last, logs[1..])
  }

  function Outputs(logs: seq<Log>): seq<Event> {
    if logs == [] then [] else [Output(logs[0])] + Outputs(logs[1..])
  }

  predicate Stops(s: State, t: Snapshot) {
    t.phase.Paused? && t.pause.Some? && (!s.paused || t.pause.value.epoch > s.pauseEpoch)
  }

  function Transition(s: State, t: Snapshot): seq<Event> {
    if Stops(s, t) then [Stopped(t.pause.value.epoch, t.pause.value.reason)]
    else if s.paused && t.phase.Running? then [Continued]
    else []
  }

  function Next(s: State, t: Snapshot): State {
    State(t.revision,
          if Stops(s, t) then t.pause.value.epoch else s.pauseEpoch,
          LastPrinted(s.logIndex, t.logs),
          Stops(s, t) || (s.paused && !t.phase.Running?))
  }

  /** All events from state `s` on. A failing source refresh ends the observer after the output. */
  function Run(s: State, passes: seq<Pass>): seq<Event>
    decreases |passes|
  {
    if passes == [] || passes[0].Rejected? || passes[0].cancelled then []
    else if passes[0].snapshot.None? then Run(s, passes[1..])
    else
      var t := passes[0].snapshot.value;
      Outputs(Printed(s.logIndex, t.logs))
      + if passes[0].refreshed then Transition(s, t) + Run(Next(s, t), passes[1..]) else []
  }

  class Observer {
    var lastRevision: nat
    var lastPauseEpoch: int
    var lastLogIndex: int
    var paused: bool
    var events: seq<Event>

    constructor ()
      ensures Now() == INITIAL && events == []
    {
      lastRevision, lastPauseEpoch, lastLogIndex, paused, events := 0, 0, 0, false, [];
    }

    function Now(): State
      reads this
    {
      State(lastRevision, lastPauseEpoch, lastLogIndex, paused)
    }

    method PrintLogs(logs: seq<Log>)
      modifies `events, `lastLogIndex
      ensures events == old(events) + Outputs(Printed(old(lastLogIndex), logs))
      ensures lastLogIndex == LastPrinted(old(lastLogIndex), logs)
    {
      var rest := logs;
      while rest != []
        invariant events + Outputs(Printed(lastLogIndex, rest)) == old(events)
          + Outputs(Printed(old(lastLogIndex), logs))
        invariant LastPrinted(lastLogIndex, rest) == LastPrinted(old(lastLogIndex), logs)
        decreases |rest|
      {
        if rest[0].index > lastLogIndex {
          Assoc(events, [Output(rest[0])], Outputs(Printed(rest[0].index, rest[1..])));
          events := events + [Output(rest[0])];
          lastLogIndex := rest[0].index;
        }
        rest := rest[1..];
      }
      assert events + [] == events;
    }

    method ReportPhase(t: Snapshot)
      modifies `events, `lastPauseEpoch, `paused
      ensures events == old(events) + Transition(old(Now()), t)
      ensures lastPauseEpoch == Next(old(Now()), t).pauseEpoch && paused == Next(old(Now()), t).paused
    {
      if t.phase.Paused? && t.pause.Some? && (!paused || t.pause.value.epoch > lastPauseEpoch) {
        lastPauseEpoch := t.pause.value.epoch;
        paused := true;
        events := events + [Stopped(t.pause.value.epoch, t.pause.value.reason)];
      } else if paused && t.phase.Running? {
        paused := false;
        events := events + [Continued];
      } else {
        assert events + [] == events;
      }
    }

    /** `observeTarget`. */
    method Observe(passes: seq<Pass>)
      modifies this
      ensures events == old(events) + Run(old(Now()), passes)
    {
      var rest := passes;
      ghost var start := Now();
      while rest != []
        invariant events + Run(Now(), rest) == old(events) + Run(start, passes)
        decreases |rest|
      {
        var pass := rest[0];
        if pass.Rejected? || pass.cancelled { break; }
        if pass.snapshot.Some? {
          var t := pass.snapshot.value;
          ghost var was, before := Now(), events;
          lastRevision := t.revision;
          PrintLogs(t.logs);
          if !pass.refreshed { break; }
          ReportPhase(t);
          assert Now() == Next(was, t);
          Regroup(before, Outputs(Printed(was.logIndex, t.logs)), Transition(was, t), Run(Next(was, t), rest[1..]));
        }
        rest := rest[1..];
      }
      assert events + [] == events;
    }
  }

  lemma Regroup<T>(a: seq<T>, b: seq<T>, c: seq<T>, d: seq<T>)
    ensures a + (b + (c + d)) == a + b + c + d
  {
  }
}

/** A running engine that has nothing left to retry: what its procedures do is a benign run, so that every
    delivery they admitted is completed or failed. */
module Draining {
  import opened Types
  import opened Machine
  import opened Calls
  import opened Engine
  import Decisions
  import Endings
  import Measure
  import Quiescence
  import Safety
  import Schedule
  import Service
  import Verdict

  /** A request, or a call that succeeds. */
  ghost predicate Work(l: Label) {
    (l.Advance? && l.ch.reply == Ok) || Spawns(l)
  }

  /** The later trace goes on with such steps. */
  ghost predicate Worked(before: seq<Label>, after: seq<Label>) {
    before <= after && forall i :: |before| <= i < |after| ==> Work(after[i])
  }

  /** This is what every procedure of a reliable engine promises about the trace. */
  lemma ReliableWorks(before: seq<Label>, mid: seq<Label>, after: seq<Label>, t: ThreadId)
    requires Worked(before, mid) && By(mid, after, t, true)
    ensures Worked(before, after)
  {
    assert Unfold(ThePath, 0);
    forall i | |before| <= i < |after|
      ensures Work(after[i])
    {
      if i < |mid| {
        assert after[i] == mid[i];
      }
    }
  }

  /** The trace of an engine before, between and after calls that found everything reliable. */
  ghost predicate ReliableCalls(traces: seq<seq<Label>>, callers: seq<ThreadId>) {
    |traces| == |callers| + 1 && forall i :: 0 <= i < |callers| ==> By(traces[i], traces[i + 1], callers[i], true)
  }

  lemma {:induction false} CallsWork(traces: seq<seq<Label>>, callers: seq<ThreadId>)
    requires ReliableCalls(traces, callers)
    ensures Worked(traces[0], traces[|callers|])
    decreases |callers|
  {
    if callers != [] {
      var last := |callers| - 1;
      CallsWork(traces[..|callers|], callers[..last]);
      ReliableWorks(traces[0], traces[last], traces[|callers|], callers[last]);
    }
  }

  /** A trace leads to one state only. */
  lemma {:induction false} RunUnique(c: Config, labels: seq<Label>, s: State, s': State)
    requires Run(c, INIT, labels, s) && Run(c, INIT, labels, s')
    ensures s == s'
    decreases |labels|
  {
    if labels != [] {
      var init, l := labels[..|labels| - 1], labels[|labels| - 1];
      var m :| Run(c, INIT, init, m) && Enabled(c, m, l) && s == Step(c, m, l);
      var m' :| Run(c, INIT, init, m') && Enabled(c, m', l) && s' == Step(c, m', l);
      RunUnique(c, init, m, m');
    }
  }

  lemma WorkKeepsRow(c: Config, s: State, l: Label, d: DeliveryId)
    requires Enabled(c, s, l) && d in s.deliveries && (l.Advance? || Spawns(l))
    ensures d in Step(c, s, l).deliveries
  {
    if l.Advance? {
      EffectKeepsRow(s, Perform(c, s, s.threads[l.t], l.ch).effect, d);
    } else {
      Endings.SpawnShape(c, s, l);
    }
  }

  lemma EffectKeepsRow(s: State, e: Effect, d: DeliveryId)
    requires d in s.deliveries
    ensures d in Apply(s, e).deliveries
  {
  }

  lemma BenignGrows(c: Config, s0: State, work: seq<Label>, s: State, s': State, d: DeliveryId)
    requires work != [] && Work(work[|work| - 1]) && Leads(c, s, work[|work| - 1], s')
    requires Quiescence.BenignRun(c, s0, work[..|work| - 1], s, d) && d in s.deliveries
    ensures d in s'.deliveries && Quiescence.BenignRun(c, s0, work, s', d)
  {
    assert Unfold(TheRun, 0);
    WorkKeepsRow(c, s, work[|work| - 1], d);
  }

  lemma NoWork(c: Config, before: seq<Label>, s0: State, s: State, d: DeliveryId)
    requires Traced(c, before, s0) && Traced(c, before, s)
    ensures s == s0 && Quiescence.BenignRun(c, s0, [], s, d)
  {
    TraceIsRun(c, before, s0);
    TraceIsRun(c, before, s);
    RunUnique(c, before, s0, s);
  }

  lemma {:induction false} WorkIsBenign(c: Config, before: seq<Label>, work: seq<Label>, s0: State, s: State,
                                        d: DeliveryId)
    requires Traced(c, before, s0) && Traced(c, before + work, s) && d in s0.deliveries
    requires forall l :: l in work ==> Work(l)
    ensures d in s.deliveries && Quiescence.BenignRun(c, s0, work, s, d)
    decreases |work|
  {
    if work == [] {
      assert before + work == before;
      NoWork(c, before, s0, s, d);
    } else {
      var m := LastStep(c, before, work, s);
      WorkIsBenign(c, before, work[..|work| - 1], s0, m, d);
      BenignGrows(c, s0, work, m, s, d);
    }
  }

  lemma LastStep(c: Config, before: seq<Label>, work: seq<Label>, s: State) returns (m: State)
    requires work != [] && Traced(c, before + work, s)
    ensures Traced(c, before + work[..|work| - 1], m) && Leads(c, m, work[|work| - 1], s)
  {
    TraceIsRun(c, before + work, s);
    var labels, l := before + work[..|work| - 1], work[|work| - 1];
    assert (before + work)[..|before + work| - 1] == labels && (before + work)[|before + work| - 1] == l;
    m :| Run(c, INIT, labels, m) && Enabled(c, m, l) && s == Step(c, m, l);
  }

  ghost predicate Leads(c: Config, m: State, l: Label, s: State) {
    Enabled(c, m, l) && s == Step(c, m, l)
  }

  /** A delivery that was new and calm, and only work since: that is the history the theorems ask for. */
  lemma WorkedIsCalm(c: Config, before: seq<Label>, after: seq<Label>, s0: State, s: State, d: DeliveryId, g: Content)
    requires Traced(c, before, s0) && Traced(c, after, s) && Worked(before, after)
    requires Quiescence.Calm(c, s0, d, g) && Quiescence.Untried(s0, d)
    ensures Quiescence.CalmHistory(c, s, d)
  {
    var work := after[|before|..];
    assert after == before + work;
    WorkIsBenign(c, before, work, s0, s, d);
    assert Reachable(c, s0);
  }

  /** When the retries that all scheduled attempts stand for have come down to zero and nobody is at work, every
      admitted delivery is completed or failed: failed exactly when an active action used up its attempts. */
  lemma DrainedAtZero(c: Config, s: State, d: DeliveryId)
    requires Quiescence.CalmHistory(c, s, d) && !Quiescence.InFlight(s, d)
    requires d in s.deliveries && s.deliveries[d].status != Pending
    requires Measure.RetriesLeft(c.maxRetries, s.attempts) == 0
    ensures s.deliveries[d].status in {Completed, Failed}
    ensures s.deliveries[d].status == Failed <==>
            exists a :: a in Decisions.Acts(s, d) && Verdict.Exhausted(c.maxRetries, s.attempts, d, a)
  {
    var g := Quiescence.CalmHistoryInv(c, s, d);
    assert forall k :: k in s.attempts ==> Safety.RowOk(c.maxRetries, s.hist.log, k, s.attempts[k]);
    Measure.NothingLeft(c.maxRetries, s.attempts);
    Quiescence.Drained(c, s, d);
  }

  /** The same for an engine whose procedures were called one after the other since the delivery was new, and found
      the store, the stream and the dispatcher reliable. */
  lemma EngineDrained(e: Engine, traces: seq<seq<Label>>, callers: seq<ThreadId>, s0: State, d: DeliveryId, g: Content)
    requires e.Valid() && ReliableCalls(traces, callers)
    requires Traced(e.c, traces[0], s0) && traces[|callers|] == e.trace
    requires Quiescence.Calm(e.c, s0, d, g) && Quiescence.Untried(s0, d)
    requires e.machine.threads == map[] && d in e.deliveries && e.deliveries[d].status != Pending
    requires Measure.RetriesLeft(e.c.maxRetries, e.attempts) == 0
    ensures e.deliveries[d].status in {Completed, Failed}
    ensures e.deliveries[d].status == Failed <==>
            exists a :: a in ActiveIds(e.actions, e.deliveries[d].source)
                        && Verdict.Exhausted(e.c.maxRetries, e.attempts, d, a)
  {
    CallsWork(traces, callers);
    WorkedIsCalm(e.c, traces[0], e.trace, s0, e.machine, d, g);
    DrainedAtZero(e.c, e.machine, d);
  }

  /** Retrying comes to an end with every such delivery completed or failed: after as many retry ticks, each when all
      that is scheduled is due, as there were retries left, with nothing dispatched in between. */
  lemma TicksDrain(e: Engine, ts: seq<Tables>, times: seq<Option<int>>, traces: seq<seq<Label>>,
                   callers: seq<ThreadId>, s0: State, d: DeliveryId, g: Content)
    requires e.Valid() && ReliableCalls(traces, callers)
    requires Traced(e.c, traces[0], s0) && traces[|callers|] == e.trace
    requires Quiescence.Calm(e.c, s0, d, g) && Quiescence.Untried(s0, d)
    requires e.machine.threads == map[] && d in e.deliveries && e.deliveries[d].status != Pending
    requires Service.Drains(e.c, ts, times) && ts[|times|] == e.Now()
    requires Service.TicksIn(times) >= Measure.RetriesLeft(e.c.maxRetries, ts[0].attempts)
    ensures e.deliveries[d].status in {Completed, Failed}
    ensures e.deliveries[d].status == Failed <==>
            exists a :: a in ActiveIds(e.actions, e.deliveries[d].source)
                        && Verdict.Exhausted(e.c.maxRetries, e.attempts, d, a)
  {
    Service.DrainingEnds(e.c, ts, times);
    EngineDrained(e, traces, callers, s0, d, g);
  }

  // -------------------------------------------------- due attempts

  /** What was added to the trace leads from the earlier state to the later one. */
  lemma {:induction false} TraceTail(c: Config, before: seq<Label>, tail: seq<Label>, s: State, s': State)
    requires Traced(c, before, s) && Traced(c, before + tail, s')
    ensures Run(c, s, tail, s')
    decreases |tail|
  {
    if tail == [] {
      assert before + tail == before;
      TraceIsRun(c, before, s);
      TraceIsRun(c, before, s');
      RunUnique(c, before, s, s');
    } else {
      var m := LastStep(c, before, tail, s');
      TraceTail(c, before, tail[..|tail| - 1], s, m);
    }
  }

  /** Whoever reads the clock after `before` finds it past `at`. */
  ghost predicate Past(before: seq<Label>, after: seq<Label>, at: int) {
    before <= after && forall i :: |before| <= i < |after| ==> Schedule.LaterStep(after[i], at)
  }

  lemma TraceLeads(c: Config, before: seq<Label>, after: seq<Label>, s: State, s': State, at: int)
    requires Traced(c, before, s) && Traced(c, after, s') && Past(before, after, at)
    ensures Schedule.Leads(c, s, s', at)
  {
    var tail := after[|before|..];
    assert after == before + tail;
    TraceTail(c, before, tail, s, s');
    assert Schedule.LaterRun(c, s, tail, s', at);
  }

  /** The bounded wait for a due attempt, along the trace of an engine: with `n` attempts scheduled ahead of it, it is
      taken up within `n / 100 + 1` ticks, whichever procedures are called in between, and however their calls end. */
  lemma EngineTakesUp(c: Config, traces: seq<seq<Label>>, states: seq<State>, k: Key, at: int)
    requires Schedule.NoOverflow(c) && states != [] && |traces| == |states|
    requires forall i :: 0 <= i < |states| ==> Traced(c, traces[i], states[i])
    requires forall i :: 0 <= i < |states| - 1 ==> Past(traces[i], traces[i + 1], at)
    requires Schedule.Scheduled(states[0].attempts, k) && states[0].attempts[k].nextRetryAt == Some(at)
    requires Schedule.Ticks(states, at) >= |Schedule.Ahead(states[0].attempts, k, at)| / 100 + 1
    ensures !Schedule.Scheduled(states[|states| - 1].attempts, k)
  {
    forall i | 0 <= i < |states| - 1
      ensures Schedule.Leads(c, states[i], states[i + 1], at)
    {
      TraceLeads(c, traces[i], traces[i + 1], states[i], states[i + 1], at);
    }
    Schedule.DueIsTakenUp(c, states, k, at);
  }
}

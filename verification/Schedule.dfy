/** When failed attempts are due.  Every time on the schedule is the clock of a settlement plus the delay it drew, and a
    due attempt is taken up within a bounded number of ticks of the retry poll, whatever else goes on. */
module Schedule {
  import opened Types
  import opened Machine
  import opened Safety
  import opened Backoff
  import Guarantees
  import Horizon
  import Patience

  ghost predicate Scheduled(att: map<Key, Attempt>, k: Key) {
    k in att && att[k].nextRetryAt.Some?
  }

  /** What is scheduled is due the drawn delay after the clock of its settlement. */
  ghost predicate OnClock(s: State) {
    forall k :: Scheduled(s.attempts, k) ==>
      k in s.hist.waits && s.attempts[k].nextRetryAt.value == s.hist.waits[k].clock + s.hist.waits[k].delay
  }

  // -------------------------------------------------- a settlement

  /** A failure that is recorded while the clock shows `ch.now` is scheduled if the attempt has retries left, and is
      due three to five quarters of the capped power of two later; a success is never scheduled. */
  lemma SettlesOnTime(c: Config, s: State, t: ThreadId, ch: Choice)
    requires t in s.threads && s.threads[t].Settle? && ChoiceOk(s, s.threads[t], ch)
    requires ch.reply != Refused && s.threads[t].key in s.attempts
    ensures var s', key := AdvanceStep(c, s, t, ch), s.threads[t].key;
      && s'.attempts == s.attempts[key := s'.attempts[key]]
      && s'.attempts[key].status == (if s.threads[t].success then AttemptSuccess else AttemptFailed)
      && (s'.attempts[key].nextRetryAt.Some? <==> !s.threads[t].success && key.number < c.maxRetries)
      && (s'.attempts[key].nextRetryAt.Some? ==>
            var at := s'.attempts[key].nextRetryAt.value;
            && Timely(c.baseDelay, key.number, ch.now, at)
            && s'.hist.waits == s.hist.waits[key := Wait(ch.now, at - ch.now)])
  {
    NextIsTimely(c, s.threads[t].key.number, ch.now, ch.jitter);
  }

  // -------------------------------------------------- the schedule, step by step

  /** A write to the schedule is noted with its clock and delay; such an attempt was pending. */
  ghost predicate Noted(e: Effect) {
    e.UpdateRow? && e.attempt.nextRetryAt.Some? ==>
      e.wait.Some? && e.attempt.nextRetryAt.value == e.wait.value.clock + e.wait.value.delay
  }

  lemma CallIsNoted(c: Config, s: State, pc: Pc, ch: Choice)
    requires ChoiceOk(s, pc, ch)
    ensures Noted(Perform(c, s, pc, ch).effect)
  {
  }

  lemma NotedApplies(s: State, e: Effect)
    requires OnClock(s) && Noted(e)
    ensures OnClock(Apply(s, e))
  {
  }

  lemma OnClockStep(c: Config, s: State, l: Label)
    requires OnClock(s) && Enabled(c, s, l)
    ensures OnClock(Step(c, s, l))
  {
    if l.Advance? {
      CallIsNoted(c, s, s.threads[l.t], l.ch);
      NotedApplies(s, Perform(c, s, s.threads[l.t], l.ch).effect);
    }
  }

  lemma {:induction false} OnClockRun(c: Config, labels: seq<Label>, s: State)
    requires Run(c, INIT, labels, s)
    ensures OnClock(s)
    decreases |labels|
  {
    if labels != [] {
      var init, l := labels[..|labels| - 1], labels[|labels| - 1];
      var m :| Run(c, INIT, init, m) && Enabled(c, m, l) && s == Step(c, m, l);
      OnClockRun(c, init, m);
      OnClockStep(c, m, l);
    }
  }

  /** In every reachable state: what is scheduled has retries left, and was scheduled on time. */
  lemma ScheduleIsTimely(c: Config, s: State, k: Key)
    requires Reachable(c, s) && Scheduled(s.attempts, k)
    ensures 1 <= k.number < c.maxRetries && k in s.hist.waits
    ensures var at, wait := s.attempts[k].nextRetryAt.value, s.hist.waits[k];
      at == wait.clock + wait.delay && Timely(c.baseDelay, k.number, wait.clock, at)
  {
    var labels :| Traced(c, labels, s);
    TraceIsRun(c, labels, s);
    OnClockRun(c, labels, s);
    Horizon.ReachableWaits(c, s);
    var wait := s.hist.waits[k];
    WaitIsTimely(c.baseDelay, k.number, wait.clock, wait.clock + wait.delay);
  }

  /** Over its whole chain, one action on one delivery waits at most 1.25 times the geometric sum of the delays, and at
      most 1.25 times five minutes for each retry.  The sum has every delay that was drawn, each of which is what lies
      between the clock of its settlement and the time on the schedule. */
  lemma RetryHorizon(c: Config, s: State, d: DeliveryId, a: ActionId)
    requires Reachable(c, s) && c.baseDelay > 0 && c.maxRetries >= 2
    requires c.baseDelay * Pow2(c.maxRetries - 2) <= MAX_INT64
    ensures var total := Horizon.TotalWait(s.hist.waits, d, a, c.maxRetries - 1);
      && 4 * total <= 5 * (c.baseDelay * (Pow2(c.maxRetries - 1) - 1))
      && 4 * total <= 5 * ((c.maxRetries - 1) * 300_000_000_000)
    ensures forall n: nat :: n > 0 ==>
              Horizon.TotalWait(s.hist.waits, d, a, n)
              == Horizon.TotalWait(s.hist.waits, d, a, n - 1)
                 + if Key(d, a, n) in s.hist.waits then s.hist.waits[Key(d, a, n)].delay else 0
    ensures forall n :: Key(d, a, n) in s.hist.waits ==> 1 <= n <= c.maxRetries - 1
    ensures forall n :: Scheduled(s.attempts, Key(d, a, n)) ==>
              && Key(d, a, n) in s.hist.waits
              && s.attempts[Key(d, a, n)].nextRetryAt.value
                 == s.hist.waits[Key(d, a, n)].clock + s.hist.waits[Key(d, a, n)].delay
  {
    Horizon.ReachableWaits(c, s);
    Horizon.TotalWaitBound(c, s, d, a, c.maxRetries - 1);
    TotalDelayBound(c.baseDelay, c.maxRetries, c.maxRetries - 1);
    forall n | Scheduled(s.attempts, Key(d, a, n))
      ensures Key(d, a, n) in s.hist.waits
      ensures s.attempts[Key(d, a, n)].nextRetryAt.value
           == s.hist.waits[Key(d, a, n)].clock + s.hist.waits[Key(d, a, n)].delay
    {
      ScheduleIsTimely(c, s, Key(d, a, n));
    }
  }

  // -------------------------------------------------- the clock moves on

  /** Whoever reads the clock finds it past `at`. */
  ghost predicate LaterStep(l: Label, at: int) {
    l.Advance? ==> l.ch.now > at
  }

  /** A run in which the clock is past `at`; calls may fail, threads may crash, and rows may be deleted. */
  ghost predicate LaterRun(c: Config, s: State, labels: seq<Label>, s': State, at: int) {
    forall n: nat :: Unfold(TheRun, n) ==> Run(c, s, labels, s') && forall l :: l in labels ==> LaterStep(l, at)
  }

  /** What is scheduled was so before, or was not settled before and is due after `at`. */
  ghost predicate OnlyLater(s: State, s': State, at: int) {
    && (forall k :: k in s.hist.waits ==> k in s'.hist.waits)
    && (forall k :: Scheduled(s'.attempts, k) ==>
          || (Scheduled(s.attempts, k) && s.attempts[k].nextRetryAt == s'.attempts[k].nextRetryAt)
          || (k !in s.hist.waits && s'.attempts[k].nextRetryAt.value > at))
  }

  lemma OnlyLaterTwice(s: State, m: State, s': State, at: int)
    requires OnlyLater(s, m, at) && OnlyLater(m, s', at)
    ensures OnlyLater(s, s', at)
  {
  }

  /** The delays of all retries fit into 64 bits. */
  ghost predicate NoOverflow(c: Config) {
    c.baseDelay > 0 && (c.maxRetries >= 2 ==> c.baseDelay * Pow2(c.maxRetries - 2) <= MAX_INT64)
  }

  /** What a write to the schedule needs: the attempt is new there, and due after `at`. */
  ghost predicate NotesLater(s: State, e: Effect, at: int) {
    e.UpdateRow? && e.attempt.nextRetryAt.Some? && e.key in s.attempts ==>
      e.wait.Some? && e.key !in s.hist.waits && e.attempt.nextRetryAt.value > at
  }

  lemma OnlySettlesSchedule(c: Config, s: State, pc: Pc, ch: Choice)
    requires ChoiceOk(s, pc, ch) && !pc.Settle?
    ensures var e := Perform(c, s, pc, ch).effect;
      e.UpdateRow? ==> e.attempt.nextRetryAt == None
  {
  }

  lemma SettleNotesLater(c: Config, s: State, pc: Pc, ch: Choice, at: int)
    requires NoOverflow(c) && Horizon.WaitsOk(c, s) && ChoiceOk(s, pc, ch) && ch.now > at && pc.Settle?
    requires pc.key.number >= 1 && (pc.key in s.attempts ==> s.attempts[pc.key].status == AttemptPending)
    ensures NotesLater(s, Perform(c, s, pc, ch).effect, at)
  {
    if !pc.success && pc.key.number < c.maxRetries {
      NextIsTimely(c, pc.key.number, ch.now, ch.jitter);
      TimelyIsLater(c.baseDelay, c.maxRetries, pc.key.number, ch.now,
                    NextRetry(c, pc.key.number, ch.now, ch.jitter).value);
    }
  }

  lemma CallNotesLater(c: Config, s: State, pc: Pc, ch: Choice, at: int)
    requires NoOverflow(c) && Horizon.WaitsOk(c, s) && ChoiceOk(s, pc, ch) && ch.now > at
    requires PcOk(c.maxRetries, s.attempts, s.hist.issued, s.hist.log, pc)
    requires IssuedOk(c.maxRetries, s.hist.issued, s.hist.log)
    ensures NotesLater(s, Perform(c, s, pc, ch).effect, at)
  {
    if pc.Settle? {
      SettleNotesLater(c, s, pc, ch, at);
    } else {
      OnlySettlesSchedule(c, s, pc, ch);
    }
  }

  lemma LaterApplies(s: State, e: Effect, at: int)
    requires NotesLater(s, e, at)
    ensures OnlyLater(s, Apply(s, e), at)
  {
  }

  lemma StepIsLater(c: Config, s: State, l: Label, at: int)
    requires NoOverflow(c) && Inv(c, s) && Horizon.WaitsOk(c, s) && Enabled(c, s, l) && LaterStep(l, at)
    ensures OnlyLater(s, Step(c, s, l), at)
  {
    if l.Advance? {
      CallNotesLater(c, s, s.threads[l.t], l.ch, at);
      LaterApplies(s, Perform(c, s, s.threads[l.t], l.ch).effect, at);
    }
  }

  /** Without overflow, nothing that fails from now on is due before what is due now. */
  lemma {:induction false} RunIsLater(c: Config, s: State, labels: seq<Label>, s': State, at: int)
    requires NoOverflow(c) && Inv(c, s) && Horizon.WaitsOk(c, s)
    requires Run(c, s, labels, s') && forall l :: l in labels ==> LaterStep(l, at)
    ensures Inv(c, s') && Horizon.WaitsOk(c, s') && OnlyLater(s, s', at)
    decreases |labels|
  {
    if labels != [] {
      var init, l := labels[..|labels| - 1], labels[|labels| - 1];
      var m :| Run(c, s, init, m) && Enabled(c, m, l) && s' == Step(c, m, l);
      RunIsLater(c, s, init, m, at);
      StepKeeps(c, m, l);
      Horizon.WaitsStep(c, m, l);
      StepIsLater(c, m, l, at);
      OnlyLaterTwice(s, m, s', at);
    }
  }

  // -------------------------------------------------- bounded waiting

  /** What a retry poll at time `now` lists: the due attempts, the earliest first, and at most 100 of them. */
  ghost predicate DuePage(att: map<Key, Attempt>, page: seq<Key>, now: int) {
    && |page| <= 100
    && (forall i :: 0 <= i < |page| ==>
          && Scheduled(att, page[i]) && att[page[i]].status == AttemptFailed
          && att[page[i]].nextRetryAt.value <= now)
    && (forall i, j :: 0 <= i < j < |page| ==>
          page[i] != page[j] && att[page[i]].nextRetryAt.value <= att[page[j]].nextRetryAt.value)
    && (forall k, i :: Scheduled(att, k) && att[k].status == AttemptFailed && k !in page && 0 <= i < |page| ==>
          att[page[i]].nextRetryAt.value <= att[k].nextRetryAt.value)
    && (|page| < 100 ==>
          forall k :: Scheduled(att, k) && att[k].status == AttemptFailed && att[k].nextRetryAt.value <= now ==>
            k in page)
  }

  /** From the first tables to the second, a retry poll listed a page at `at` or later, and took it off the
      schedule. */
  ghost predicate TakesUp(before: map<Key, Attempt>, after: map<Key, Attempt>, at: int) {
    exists page, now :: now >= at && DuePage(before, page, now) && forall k :: k in page ==> !Scheduled(after, k)
  }

  /** The attempts that may be retried before `k`, which is due at `at`. */
  ghost function Ahead(att: map<Key, Attempt>, k: Key, at: int): set<Key> {
    set e | e in att && e != k && Scheduled(att, e) && att[e].nextRetryAt.value <= at
  }

  lemma NoMoreAhead(s: State, s': State, k: Key, at: int)
    requires OnlyLater(s, s', at)
    ensures Ahead(s'.attempts, k, at) <= Ahead(s.attempts, k, at)
    ensures |Ahead(s'.attempts, k, at)| <= |Ahead(s.attempts, k, at)|
  {
    SubsetSize(Ahead(s'.attempts, k, at), Ahead(s.attempts, k, at));
  }

  /** A tick that misses a due attempt takes up 100 of those ahead of it. */
  lemma TickTakesUp(s: State, s': State, k: Key, at: int)
    requires OnlyLater(s, s', at) && TakesUp(s.attempts, s'.attempts, at)
    requires forall e :: Scheduled(s.attempts, e) ==> s.attempts[e].status == AttemptFailed
    requires Scheduled(s.attempts, k) && s.attempts[k].nextRetryAt == Some(at) && Scheduled(s'.attempts, k)
    ensures |Ahead(s'.attempts, k, at)| + 100 <= |Ahead(s.attempts, k, at)|
  {
    var page, now :| now >= at && DuePage(s.attempts, page, now) && forall e :: e in page ==> !Scheduled(s'.attempts, e);
    var taken := Patience.Members(page);
    assert s.attempts[k].nextRetryAt.value <= now && k !in page;
    Patience.PageSize(page);
    forall e | e in taken + Ahead(s'.attempts, k, at)
      ensures e in Ahead(s.attempts, k, at)
    {
      if e in taken {
        var i :| 0 <= i < |page| && page[i] == e;
        assert s.attempts[page[i]].nextRetryAt.value <= at;
      }
    }
    assert taken !! Ahead(s'.attempts, k, at);
    assert |taken + Ahead(s'.attempts, k, at)| == |taken| + |Ahead(s'.attempts, k, at)|;
    SubsetSize(taken + Ahead(s'.attempts, k, at), Ahead(s.attempts, k, at));
  }

  /** How many of the steps are such ticks, of whichever replica. */
  ghost function Ticks(states: seq<State>, at: int): nat {
    if |states| <= 1 then 0
    else
      var n := |states|;
      Ticks(states[..n - 1], at)
      + (if TakesUp(states[n - 2].attempts, states[n - 1].attempts, at) then 1 else 0)
  }

  ghost predicate TickAt(states: seq<State>, i: int, at: int) {
    0 <= i < |states| - 1 && TakesUp(states[i].attempts, states[i + 1].attempts, at)
  }

  /** The steps that are ticks. */
  ghost function TickSteps(states: seq<State>, at: int): set<int> {
    set i | 0 <= i < |states| && TickAt(states, i, at)
  }

  lemma SameTick(states: seq<State>, i: int, at: int)
    requires |states| > 1
    ensures TickAt(states[..|states| - 1], i, at) <==> i != |states| - 2 && TickAt(states, i, at)
  {
    if 0 <= i < |states| - 2 {
      assert states[..|states| - 1][i] == states[i] && states[..|states| - 1][i + 1] == states[i + 1];
    }
  }

  lemma MoreTicks(states: seq<State>, at: int)
    requires |states| > 1
    ensures |TickSteps(states, at)|
         == |TickSteps(states[..|states| - 1], at)| + if TickAt(states, |states| - 2, at) then 1 else 0
  {
    var before, last := TickSteps(states[..|states| - 1], at), |states| - 2;
    var more := if TickAt(states, last, at) then {last} else {};
    forall i
      ensures i in TickSteps(states, at) <==> i in before + more
    {
      SameTick(states, i, at);
    }
    assert TickSteps(states, at) == before + more;
    SameTick(states, last, at);
  }

  lemma {:induction false} TicksCounted(states: seq<State>, at: int)
    ensures Ticks(states, at) == |TickSteps(states, at)|
  {
    if |states| <= 1 {
      assert TickSteps(states, at) == {};
    } else {
      TicksCounted(states[..|states| - 1], at);
      MoreTicks(states, at);
    }
  }

  ghost predicate Leads(c: Config, s: State, s': State, at: int) {
    exists labels :: LaterRun(c, s, labels, s', at)
  }

  /** States of one execution, each after the one before it, with the clock past `at`. */
  ghost predicate Later(c: Config, states: seq<State>, at: int) {
    && states != [] && Reachable(c, states[0])
    && forall i :: 0 <= i < |states| - 1 ==> Leads(c, states[i], states[i + 1], at)
  }

  /** In a reachable state, `k` was scheduled once, to be due at `at`. */
  ghost predicate Tracked(c: Config, s: State, k: Key, at: int) {
    && Inv(c, s) && Horizon.WaitsOk(c, s) && k in s.hist.waits
    && (Scheduled(s.attempts, k) ==> s.attempts[k].nextRetryAt == Some(at))
  }

  lemma StartsTracked(c: Config, s: State, k: Key, at: int)
    requires Reachable(c, s) && Scheduled(s.attempts, k) && s.attempts[k].nextRetryAt == Some(at)
    ensures Tracked(c, s, k, at)
  {
    Guarantees.ReachableInv(c, s);
    Horizon.ReachableWaits(c, s);
    ScheduleIsTimely(c, s, k);
  }

  lemma StaysTracked(c: Config, s: State, s': State, k: Key, at: int)
    requires NoOverflow(c) && Tracked(c, s, k, at) && Leads(c, s, s', at)
    ensures Tracked(c, s', k, at) && OnlyLater(s, s', at) && (Scheduled(s'.attempts, k) ==> Scheduled(s.attempts, k))
  {
    var labels :| LaterRun(c, s, labels, s', at);
    assert Unfold(TheRun, 0);
    RunIsLater(c, s, labels, s', at);
  }

  /** One step of the execution, which may be a tick. */
  lemma StepTakesUp(c: Config, s: State, s': State, k: Key, at: int)
    requires NoOverflow(c) && Tracked(c, s, k, at) && Leads(c, s, s', at) && Scheduled(s'.attempts, k)
    ensures Scheduled(s.attempts, k)
    ensures |Ahead(s'.attempts, k, at)| + (if TakesUp(s.attempts, s'.attempts, at) then 100 else 0)
         <= |Ahead(s.attempts, k, at)|
  {
    StaysTracked(c, s, s', k, at);
    NoMoreAhead(s, s', k, at);
    if TakesUp(s.attempts, s'.attempts, at) {
      ScheduledHasFailed(c, s);
      TickTakesUp(s, s', k, at);
    }
  }

  lemma {:induction false} StillScheduled(c: Config, states: seq<State>, k: Key, at: int)
    requires NoOverflow(c) && Later(c, states, at)
    requires Scheduled(states[0].attempts, k) && states[0].attempts[k].nextRetryAt == Some(at)
    ensures var first, last := states[0], states[|states| - 1];
      && Tracked(c, last, k, at)
      && (Scheduled(last.attempts, k) ==>
            |Ahead(last.attempts, k, at)| + 100 * Ticks(states, at) <= |Ahead(first.attempts, k, at)|)
    decreases |states|
  {
    if |states| == 1 {
      StartsTracked(c, states[0], k, at);
    } else {
      var n := |states|;
      var init, m, s := states[..n - 1], states[n - 2], states[n - 1];
      StillScheduled(c, init, k, at);
      assert Leads(c, states[n - 2], states[n - 2 + 1], at);
      StaysTracked(c, m, s, k, at);
      if Scheduled(s.attempts, k) {
        StepTakesUp(c, m, s, k, at);
      }
    }
  }

  lemma ScheduledHasFailed(c: Config, s: State)
    requires Inv(c, s)
    ensures forall e :: Scheduled(s.attempts, e) ==> s.attempts[e].status == AttemptFailed
  {
    forall e | Scheduled(s.attempts, e)
      ensures s.attempts[e].status == AttemptFailed
    {
      assert RowOk(c.maxRetries, s.hist.log, e, s.attempts[e]);
    }
  }

  /** With `n` attempts scheduled ahead of it, an attempt that is due is off the schedule after `n / 100 + 1` ticks:
      other attempts keep failing and being scheduled, calls fail and threads crash between the ticks, and other
      replicas tick as well. */
  lemma DueIsTakenUp(c: Config, states: seq<State>, k: Key, at: int)
    requires NoOverflow(c) && Later(c, states, at)
    requires Scheduled(states[0].attempts, k) && states[0].attempts[k].nextRetryAt == Some(at)
    requires Ticks(states, at) >= |Ahead(states[0].attempts, k, at)| / 100 + 1
    ensures !Scheduled(states[|states| - 1].attempts, k)
  {
    StillScheduled(c, states, k, at);
  }
}

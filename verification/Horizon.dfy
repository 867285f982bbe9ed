/** How long the retries of one action on one delivery can take: the attempt chain meets the backoff. */
module Horizon {
  import opened Types
  import opened Machine
  import opened Safety
  import opened Backoff
  import Guarantees

  /** Each delay was drawn for a retry that the chain allows. */
  ghost predicate WaitsOk(c: Config, s: State) {
    forall k :: k in s.hist.waits ==>
      && k in s.hist.issued && 1 <= k.number < c.maxRetries && WaitFor(c.baseDelay, k.number, s.hist.waits[k].delay)
      && (k in s.attempts ==> s.attempts[k].status == AttemptFailed)
  }

  ghost predicate WaitsKept(s: State, s': State) {
    forall k :: k in s.hist.waits ==> k in s'.hist.waits && s'.hist.waits[k] == s.hist.waits[k]
  }

  lemma UpdateWait(c: Config, s: State, pc: Pc, ch: Choice)
    requires ChoiceOk(s, pc, ch) && PcOk(c.maxRetries, s.attempts, s.hist.issued, s.hist.log, pc)
    requires IssuedOk(c.maxRetries, s.hist.issued, s.hist.log)
    requires Perform(c, s, pc, ch).effect.UpdateRow?
    ensures var Move(UpdateRow(key, row, wait), _) := Perform(c, s, pc, ch);
      && (wait.Some? ==>
            && key in s.hist.issued && 1 <= key.number < c.maxRetries
            && WaitFor(c.baseDelay, key.number, wait.value.delay)
            && row.status == AttemptFailed && (key in s.attempts ==> s.attempts[key].status == AttemptPending))
      && (key in s.attempts && s.attempts[key].status == AttemptFailed ==> row.status == AttemptFailed)
  {
  }

  /** Once drawn, a delay is not drawn again. */
  lemma WaitsCall(c: Config, s: State, t: ThreadId, ch: Choice)
    requires Inv(c, s) && WaitsOk(c, s) && t in s.threads && ChoiceOk(s, s.threads[t], ch)
    ensures WaitsOk(c, AdvanceStep(c, s, t, ch)) && WaitsKept(s, AdvanceStep(c, s, t, ch))
  {
    var pc := s.threads[t];
    var e := Perform(c, s, pc, ch).effect;
    if e.UpdateRow? {
      UpdateWait(c, s, pc, ch);
    } else if e.InsertRow? {
      Guarantees.RowCalls(c, s, t, ch);
      assert e.key !in s.hist.issued;
    }
    WaitsApply(c, s, e);
  }

  lemma WaitsApply(c: Config, s: State, e: Effect)
    requires WaitsOk(c, s)
    requires e.InsertRow? ==> e.key !in s.hist.issued
    requires e.UpdateRow? && e.wait.Some? ==>
               && e.key in s.hist.issued && 1 <= e.key.number < c.maxRetries
               && WaitFor(c.baseDelay, e.key.number, e.wait.value.delay)
               && e.attempt.status == AttemptFailed
               && (e.key in s.attempts ==> s.attempts[e.key].status == AttemptPending)
    requires e.UpdateRow? && e.key in s.attempts && s.attempts[e.key].status == AttemptFailed ==>
               e.attempt.status == AttemptFailed
    ensures WaitsOk(c, Apply(s, e)) && WaitsKept(s, Apply(s, e))
  {
  }

  lemma WaitsStep(c: Config, s: State, l: Label)
    requires Inv(c, s) && WaitsOk(c, s) && Enabled(c, s, l)
    ensures WaitsOk(c, Step(c, s, l)) && WaitsKept(s, Step(c, s, l))
  {
    if l.Advance? {
      WaitsCall(c, s, l.t, l.ch);
    }
  }

  lemma {:induction false} WaitsRun(c: Config, labels: seq<Label>, s: State)
    requires Run(c, INIT, labels, s)
    ensures Inv(c, s) && WaitsOk(c, s)
    decreases |labels|
  {
    if labels != [] {
      var init, l := labels[..|labels| - 1], labels[|labels| - 1];
      var m :| Run(c, INIT, init, m) && Enabled(c, m, l) && s == Step(c, m, l);
      WaitsRun(c, init, m);
      StepKeeps(c, m, l);
      WaitsStep(c, m, l);
    }
  }

  lemma ReachableWaits(c: Config, s: State)
    requires Reachable(c, s)
    ensures WaitsOk(c, s)
  {
    var labels :| Traced(c, labels, s);
    TraceIsRun(c, labels, s);
    WaitsRun(c, labels, s);
  }

  /** The sum of the delays drawn for the first `n` attempts of an action on a delivery. */
  ghost function TotalWait(waits: map<Key, Wait>, d: DeliveryId, a: ActionId, n: nat): int {
    if n == 0 then 0
    else TotalWait(waits, d, a, n - 1) + (if Key(d, a, n) in waits then waits[Key(d, a, n)].delay else 0)
  }

  lemma {:induction false} TotalWaitBound(c: Config, s: State, d: DeliveryId, a: ActionId, n: nat)
    requires WaitsOk(c, s) && c.baseDelay > 0 && n < c.maxRetries
    requires n > 0 ==> c.baseDelay * Pow2(c.maxRetries - 2) <= MAX_INT64
    ensures 4 * TotalWait(s.hist.waits, d, a, n) <= 5 * TotalDelay(c.baseDelay, n)
  {
    if n > 0 {
      TotalWaitBound(c, s, d, a, n - 1);
      DelayGrows(c.baseDelay, c.maxRetries, n, n);
      var k := Key(d, a, n);
      if k in s.hist.waits {
        var r :| 0.0 <= r < 1.0 && s.hist.waits[k].delay == Jittered(Delay(c.baseDelay, n), r);
        JitterBounds(Delay(c.baseDelay, n), r);
      }
    }
  }
}

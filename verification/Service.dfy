/** Sequences of whole calls when nothing fails: a final status is absorbing whatever the source is like, pending
    deliveries are served in turn, and retrying comes to an end. */
module Service {
  import opened Types
  import opened Machine
  import opened Plans
  import opened Calls
  import Guarantees
  import Measure
  import Patience
  import Safety
  import Schedule
  import Verdict

  /** What goes on in a running engine: single calls, and ticks of the two polls. */
  ghost predicate Progress(c: Config, before: Tables, after: Tables) {
    || (exists call :: Done(c, call, before, after))
    || (exists page :: Serves(c, before, PendingCalls(page), after))
    || (exists page, now :: Serves(c, before, RetryCalls(page, now), after))
  }

  /** The tables between such steps. */
  ghost predicate Chain(c: Config, ts: seq<Tables>) {
    && (forall n :: 0 <= n < |ts| - 1 ==> Progress(c, ts[n], ts[n + 1]))
    && (forall n :: 0 <= n < |ts| ==> Proper(c, ts[n]))
  }

  // -------------------------------------------------- final statuses

  ghost predicate NoAttempts(att: map<Key, Attempt>, d: DeliveryId) {
    forall k :: k in att ==> k.delivery != d
  }

  /** While `d` exists, these are the active actions of its source. */
  ghost predicate Fixed(tables: Tables, d: DeliveryId, acts: set<ActionId>) {
    d in tables.deliveries ==> ActiveIds(tables.actions, tables.deliveries[d].source) == acts
  }

  ghost predicate Final(status: DeliveryStatus) {
    status == Completed || status == Failed
  }

  /** A delivery that waits has no attempts, and one with a final status has none or deserves it. */
  ghost predicate Consistent(c: Config, att: map<Key, Attempt>, deliveries: map<DeliveryId, Delivery>, d: DeliveryId,
                             acts: set<ActionId>)
  {
    if d !in deliveries then NoAttempts(att, d)
    else
      var status := deliveries[d].status;
      && (status == Pending || status == Recorded ==> NoAttempts(att, d))
      && (Final(status) ==> NoAttempts(att, d) || Verdict.Of(c.maxRetries, acts, att, d) == Some(status))
  }

  /** The final status of `d` stays. */
  ghost predicate FinalKept(before: map<DeliveryId, Delivery>, after: map<DeliveryId, Delivery>, d: DeliveryId) {
    && (d in before ==> d in after)
    && (d in before && Final(before[d].status) ==> after[d].status == before[d].status)
  }

  ghost predicate SameAttempts(att: map<Key, Attempt>, att': map<Key, Attempt>, d: DeliveryId) {
    forall k: Key :: k.delivery == d ==> (k in att <==> k in att') && (k in att ==> att'[k] == att[k])
  }

  lemma SameConsistent(c: Config, att: map<Key, Attempt>, att': map<Key, Attempt>,
                       before: map<DeliveryId, Delivery>, after: map<DeliveryId, Delivery>, d: DeliveryId,
                       acts: set<ActionId>)
    requires Consistent(c, att, before, d, acts) && SameAttempts(att, att', d)
    requires d in before <==> d in after
    requires d in before ==>
               after[d].status == before[d].status
               || (!Final(before[d].status) && before[d].status != Processing && !Final(after[d].status))
    ensures Consistent(c, att', after, d, acts) && FinalKept(before, after, d)
  {
    forall a | a in acts
      ensures Guarantees.SameRows(att, att', d, a)
    {
      assert forall n :: Key(d, a, n).delivery == d;
    }
    Guarantees.VerdictSame(c.maxRetries, acts, att, att', d);
  }

  lemma VerdictIsFinal(maxRetries: int, acts: set<ActionId>, att: map<Key, Attempt>, d: DeliveryId)
    ensures Verdict.Of(maxRetries, acts, att, d).Some? ==> Final(Verdict.Of(maxRetries, acts, att, d).value)
  {
  }

  /** A plan that is carried out for a delivery without attempts. */
  lemma CarriedOutConsistent(c: Config, actions: map<ActionId, Action>, att: map<Key, Attempt>, att': map<Key, Attempt>,
                             before: map<DeliveryId, Delivery>, after: map<DeliveryId, Delivery>, d: DeliveryId,
                             plan: Plan, acts: set<ActionId>)
    requires CarriedOut(c, actions, att, att', before, after, d, plan) && NoAttempts(att, d)
    requires d in before && before[d].status == Processing && acts == ActiveIds(actions, before[d].source)
    requires plan.Finish? ==> Final(plan.status)
    ensures Consistent(c, att', after, d, acts)
  {
    VerdictIsFinal(c.maxRetries, acts, att', d);
  }

  lemma DispatchedConsistent(c: Config, script: Option<Script>, actions: map<ActionId, Action>, row: Delivery,
                             att: map<Key, Attempt>, att': map<Key, Attempt>,
                             before: map<DeliveryId, Delivery>, after: map<DeliveryId, Delivery>, d: DeliveryId,
                             acts: set<ActionId>)
    requires Dispatched(c, script, actions, row, att, att', before, after, d) && NoAttempts(att, d)
    requires d in before && before[d].status == Processing && acts == ActiveIds(actions, before[d].source)
    ensures Consistent(c, att', after, d, acts)
  {
    assert Unfold(ThePlan, 0);
    var plan :| IsPlan(c, script, actions, row, plan) && Outcome(c, actions, att, att', before, after, d, plan);
    PlansAreOk(c, script, actions, row, plan);
    if plan.Persist? {
      var stored := WithContent(before, d, plan.payload, plan.headers);
      CarriedOutConsistent(c, actions, att, att', stored, after, d, Narrowed(plan), acts);
    } else {
      CarriedOutConsistent(c, actions, att, att', before, after, d, plan, acts);
    }
  }

  lemma HandledConsistent(c: Config, before: Tables, after: Tables, e: DeliveryId, force: bool, d: DeliveryId,
                          acts: set<ActionId>)
    requires Handled(c, before.sources, before.actions, before.attempts, after.attempts,
                     before.deliveries, after.deliveries, e, force)
    requires Consistent(c, before.attempts, before.deliveries, d, acts) && Fixed(before, d, acts)
    ensures Consistent(c, after.attempts, after.deliveries, d, acts)
    ensures FinalKept(before.deliveries, after.deliveries, d)
  {
    assert Unfold(TheHandling, 0);
    if e != d || !Admissible(before.deliveries, e, force) {
      SameConsistent(c, before.attempts, after.attempts, before.deliveries, after.deliveries, d, acts);
    } else {
      var row := before.deliveries[d];
      var source := before.sources[row.source];
      if force || source.mode != Record {
        DispatchedConsistent(c, source.script, before.actions, row, before.attempts, after.attempts,
                             WithStatus(before.deliveries, d, Processing), after.deliveries, d, acts);
      }
    }
  }

  /** A retry of a due attempt of `d` finds the verdict, if there is one, and leaves it. */
  lemma RetryLeavesVerdict(c: Config, before: Tables, after: Tables, key: Key, now: int, acts: set<ActionId>)
    requires Proper(c, before) && Due(before.attempts, key, now)
    requires Kept(before.attempts, after.attempts, key)
    requires Measure.Retried(c.maxRetries, before.attempts, after.attempts, key)
    requires Verdict.Of(c.maxRetries, acts, before.attempts, key.delivery).Some?
    ensures Verdict.Of(c.maxRetries, acts, after.attempts, key.delivery)
         == Verdict.Of(c.maxRetries, acts, before.attempts, key.delivery)
  {
    var d := key.delivery;
    forall a | a in acts
      ensures Guarantees.SameRows(before.attempts, after.attempts, d, a)
    {
      assert Verdict.Terminal(c.maxRetries, before.attempts, d, a);
      if a == key.action {
        Guarantees.TerminalChain(c.maxRetries, before.attempts, key);
        assert Succ(key) in before.attempts;
      }
    }
    Guarantees.VerdictSame(c.maxRetries, acts, before.attempts, after.attempts, d);
  }

  lemma RetryConsistent(c: Config, before: Tables, after: Tables, key: Key, now: int, d: DeliveryId, acts: set<ActionId>)
    requires Proper(c, before) && Due(before.attempts, key, now)
    requires RetriedOne(c, before.actions, before.attempts, after.attempts, before.deliveries, after.deliveries, key)
    requires Consistent(c, before.attempts, before.deliveries, d, acts) && Fixed(before, d, acts)
    ensures Consistent(c, after.attempts, after.deliveries, d, acts)
    ensures FinalKept(before.deliveries, after.deliveries, d)
  {
    if key.delivery != d {
      SameConsistent(c, before.attempts, after.attempts, before.deliveries, after.deliveries, d, acts);
    } else {
      VerdictIsFinal(c.maxRetries, acts, after.attempts, d);
      if Verdict.Of(c.maxRetries, acts, before.attempts, d).Some? {
        RetryLeavesVerdict(c, before, after, key, now, acts);
      }
    }
  }

  lemma HandlerConsistent(c: Config, call: Call, before: Tables, after: Tables, d: DeliveryId, acts: set<ActionId>)
    requires Done(c, call, before, after) && (call.OfPost? || call.OfForward? || call.OfForwardAll?)
    requires Proper(c, before) && Consistent(c, before.attempts, before.deliveries, d, acts)
    ensures Consistent(c, after.attempts, after.deliveries, d, acts)
    ensures FinalKept(before.deliveries, after.deliveries, d)
  {
    assert Unfold(TheCall, 0);
    if d in before.deliveries || d !in after.deliveries {
      SameConsistent(c, before.attempts, after.attempts, before.deliveries, after.deliveries, d, acts);
    }
  }

  /** Every call keeps the status of a delivery consistent with its attempts, and leaves a final one alone. */
  lemma CallConsistent(c: Config, call: Call, before: Tables, after: Tables, d: DeliveryId, acts: set<ActionId>)
    requires Done(c, call, before, after) && Proper(c, before)
    requires Fixed(before, d, acts) && Consistent(c, before.attempts, before.deliveries, d, acts)
    ensures Consistent(c, after.attempts, after.deliveries, d, acts)
    ensures FinalKept(before.deliveries, after.deliveries, d)
  {
    assert Unfold(TheCall, 0);
    match call {
      case OfMessage(m) => HandledConsistent(c, before, after, m.delivery, m.force, d, acts);
      case OfPending(e) => HandledConsistent(c, before, after, e, false, d, acts);
      case OfRetry(key, now) => RetryConsistent(c, before, after, key, now, d, acts);
      case OfSource(_, _) =>
      case OfAction(_, _) =>
      case _ => HandlerConsistent(c, call, before, after, d, acts);
    }
  }

  ghost predicate PollCall(call: Call) {
    call.OfPending? || call.OfRetry?
  }

  lemma PollCallFixed(c: Config, call: Call, before: Tables, after: Tables, d: DeliveryId, acts: set<ActionId>)
    requires Done(c, call, before, after) && PollCall(call) && Fixed(before, d, acts)
    ensures Fixed(after, d, acts)
  {
    assert Unfold(TheCall, 0) && Unfold(TheHandling, 0);
  }

  /** So does every tick of a poll. */
  lemma {:induction false} PollConsistent(c: Config, before: Tables, calls: seq<Call>, after: Tables, d: DeliveryId,
                                          acts: set<ActionId>)
    requires Serves(c, before, calls, after) && (forall call :: call in calls ==> PollCall(call))
    requires Fixed(before, d, acts) && Consistent(c, before.attempts, before.deliveries, d, acts)
    ensures Proper(c, after) && Fixed(after, d, acts) && Consistent(c, after.attempts, after.deliveries, d, acts)
    ensures FinalKept(before.deliveries, after.deliveries, d)
    decreases |calls|
  {
    assert Unfold(TheChain, 0);
    assert Steps(c, before, calls, after);
    if calls != [] {
      var init, call := calls[..|calls| - 1], calls[|calls| - 1];
      var mid :| Steps(c, before, init, mid) && Done(c, call, mid, after) && Proper(c, after);
      PollConsistent(c, before, init, mid, d, acts);
      CallConsistent(c, call, mid, after, d, acts);
      PollCallFixed(c, call, mid, after, d, acts);
    }
  }

  lemma ProgressConsistent(c: Config, before: Tables, after: Tables, d: DeliveryId, acts: set<ActionId>)
    requires Progress(c, before, after) && Proper(c, before)
    requires Fixed(before, d, acts) && Consistent(c, before.attempts, before.deliveries, d, acts)
    ensures Consistent(c, after.attempts, after.deliveries, d, acts)
    ensures FinalKept(before.deliveries, after.deliveries, d)
  {
    if call :| Done(c, call, before, after) {
      CallConsistent(c, call, before, after, d, acts);
    } else if page :| Serves(c, before, PendingCalls(page), after) {
      PollConsistent(c, before, PendingCalls(page), after, d, acts);
    } else {
      var page, now :| Serves(c, before, RetryCalls(page, now), after);
      PollConsistent(c, before, RetryCalls(page, now), after, d, acts);
    }
  }

  /** `completed` and `failed` are absorbing: for a source of any mode, with or without a script, whichever actions
      skip, through forwards, edits and ticks of both polls, a final status never changes again while the active
      actions stay. */
  lemma {:induction false} FinalStays(c: Config, ts: seq<Tables>, d: DeliveryId, acts: set<ActionId>, i: nat, j: nat)
    requires Chain(c, ts) && (forall n :: 0 <= n < |ts| ==> Fixed(ts[n], d, acts))
    requires i <= j < |ts| && d !in ts[0].deliveries
    requires d in ts[i].deliveries && Final(ts[i].deliveries[d].status)
    ensures d in ts[j].deliveries && ts[j].deliveries[d].status == ts[i].deliveries[d].status
    decreases j
  {
    if i < j {
      FinalStays(c, ts, d, acts, i, j - 1);
      ChainConsistent(c, ts, d, acts, j - 1);
      ProgressConsistent(c, ts[j - 1], ts[j], d, acts);
    }
  }

  lemma {:induction false} ChainConsistent(c: Config, ts: seq<Tables>, d: DeliveryId, acts: set<ActionId>, i: nat)
    requires Chain(c, ts) && (forall n :: 0 <= n < |ts| ==> Fixed(ts[n], d, acts))
    requires i < |ts| && d !in ts[0].deliveries
    ensures Consistent(c, ts[i].attempts, ts[i].deliveries, d, acts)
  {
    if i > 0 {
      ChainConsistent(c, ts, d, acts, i - 1);
      ProgressConsistent(c, ts[i - 1], ts[i], d, acts);
    } else {
      assert Proper(c, ts[0]);
    }
  }

  // -------------------------------------------------- chains that end too early

  /** The chain of attempts ends at `key` although it has retries left: it failed, is not scheduled, and has no
      successor. */
  ghost predicate Stuck(c: Config, att: map<Key, Attempt>, key: Key) {
    && key in att && att[key] == Attempt(AttemptFailed, None) && key.number < c.maxRetries && Succ(key) !in att
  }

  /** A retry leaves its chain stuck exactly if the transform of the action, as it is now, skips the stored content,
      and no other retry had continued the chain. */
  lemma RetryAbandonsExactly(c: Config, key: Key, now: int, before: Tables, after: Tables)
    requires Done(c, OfRetry(key, now), before, after) && Proper(c, before)
    ensures key.delivery in before.deliveries && key.action in before.actions
    ensures Stuck(c, after.attempts, key) <==>
            Succ(key) !in before.attempts
            && SkippedBy(c, before.actions[key.action].transform, StoredPayload(before.deliveries[key.delivery]),
                         StoredHeaders(before.deliveries[key.delivery]))
  {
    assert Unfold(TheCall, 0);
    assert before.attempts[key].nextRetryAt.Some?;
  }

  lemma CallLeavesStuck(c: Config, call: Call, before: Tables, after: Tables, key: Key)
    requires Done(c, call, before, after) && Proper(c, before) && Stuck(c, before.attempts, key)
    ensures Stuck(c, after.attempts, key)
  {
    assert Unfold(TheCall, 0);
    match call {
      case OfMessage(m) => HandlerLeavesStuck(c, before, after, m.delivery, m.force, key);
      case OfPending(e) => HandlerLeavesStuck(c, before, after, e, false, key);
      case _ =>
    }
  }

  lemma HandlerLeavesStuck(c: Config, before: Tables, after: Tables, e: DeliveryId, force: bool, key: Key)
    requires Handled(c, before.sources, before.actions, before.attempts, after.attempts,
                     before.deliveries, after.deliveries, e, force)
    requires Proper(c, before) && Stuck(c, before.attempts, key)
    ensures Stuck(c, after.attempts, key)
  {
    assert Unfold(TheHandling, 0);
  }

  lemma {:induction false} PollLeavesStuck(c: Config, before: Tables, calls: seq<Call>, after: Tables, key: Key)
    requires Serves(c, before, calls, after) && Stuck(c, before.attempts, key)
    ensures Proper(c, after) && Stuck(c, after.attempts, key)
    decreases |calls|
  {
    assert Unfold(TheChain, 0);
    assert Steps(c, before, calls, after);
    if calls != [] {
      var init, call := calls[..|calls| - 1], calls[|calls| - 1];
      var mid :| Steps(c, before, init, mid) && Done(c, call, mid, after) && Proper(c, after);
      PollLeavesStuck(c, before, init, mid, key);
      CallLeavesStuck(c, call, mid, after, key);
    }
  }

  /** Nothing continues a stuck chain: whatever else goes on, it is never attempted again, and as long as its action is
      active the attempts of its delivery have no verdict. */
  lemma {:induction false} StuckForever(c: Config, ts: seq<Tables>, key: Key, acts: set<ActionId>, i: nat, j: nat)
    requires Chain(c, ts) && i <= j < |ts| && Stuck(c, ts[i].attempts, key)
    ensures Stuck(c, ts[j].attempts, key)
    ensures key.action in acts ==> Verdict.Of(c.maxRetries, acts, ts[j].attempts, key.delivery) == None
    decreases j
  {
    if i < j {
      StuckForever(c, ts, key, acts, i, j - 1);
      var before, after := ts[j - 1], ts[j];
      assert Progress(c, before, after) && Proper(c, before);
      if call :| Done(c, call, before, after) {
        CallLeavesStuck(c, call, before, after, key);
      } else if page :| Serves(c, before, PendingCalls(page), after) {
        PollLeavesStuck(c, before, PendingCalls(page), after, key);
      } else {
        var page, now :| Serves(c, before, RetryCalls(page, now), after);
        PollLeavesStuck(c, before, RetryCalls(page, now), after, key);
      }
    }
    StuckHasNoVerdict(c, ts[j], key, acts);
  }

  lemma StuckHasNoVerdict(c: Config, tables: Tables, key: Key, acts: set<ActionId>)
    requires Proper(c, tables) && Stuck(c, tables.attempts, key)
    ensures key.action in acts ==> Verdict.Of(c.maxRetries, acts, tables.attempts, key.delivery) == None
  {
    if Verdict.Terminal(c.maxRetries, tables.attempts, key.delivery, key.action) {
      Guarantees.TerminalChain(c.maxRetries, tables.attempts, key);
    }
  }

  // -------------------------------------------------- bounded waiting

  /** The call brings nothing into the queue that was received before `d`. */
  ghost predicate Younger(call: Call, tables: Tables, d: DeliveryId)
    requires d in tables.deliveries
  {
    var since := tables.deliveries[d].receivedAt;
    match call
    case OfPost(_, row, _) => row.receivedAt > since
    case OfForward(_, e) => e in tables.deliveries ==> tables.deliveries[e].receivedAt > since
    case OfForwardAll(_, page) =>
      forall e :: e in page && e in tables.deliveries ==> tables.deliveries[e].receivedAt > since
    case _ => true
  }

  lemma HandlerOnward(c: Config, before: Tables, after: Tables, e: DeliveryId, force: bool, d: DeliveryId)
    requires Handled(c, before.sources, before.actions, before.attempts, after.attempts,
                     before.deliveries, after.deliveries, e, force)
    requires d in before.deliveries
    ensures Patience.Onward(before.deliveries, after.deliveries, d)
  {
    assert Unfold(TheHandling, 0);
  }

  lemma CallOnward(c: Config, call: Call, before: Tables, after: Tables, d: DeliveryId)
    requires Done(c, call, before, after) && d in before.deliveries && Younger(call, before, d)
    ensures Patience.Onward(before.deliveries, after.deliveries, d)
  {
    if call.OfForwardAll? {
      ForwardAllOnward(c, call.source, call.page, before, after, d);
    } else {
      assert Unfold(TheCall, 0);
      match call {
        case OfMessage(m) => HandlerOnward(c, before, after, m.delivery, m.force, d);
        case OfPending(e) => HandlerOnward(c, before, after, e, false, d);
        case _ =>
      }
    }
  }

  lemma ForwardAllOnward(c: Config, source: SourceId, page: seq<DeliveryId>, before: Tables, after: Tables,
                         d: DeliveryId)
    requires Done(c, OfForwardAll(source, page), before, after)
    requires d in before.deliveries && Younger(OfForwardAll(source, page), before, d)
    ensures Patience.Onward(before.deliveries, after.deliveries, d)
  {
    assert Unfold(TheCall, 0);
  }

  lemma {:induction false} PollOnward(c: Config, before: Tables, calls: seq<Call>, after: Tables, d: DeliveryId)
    requires Serves(c, before, calls, after) && d in before.deliveries
    requires forall call :: call in calls ==> call.OfPending? || call.OfRetry?
    ensures Patience.Onward(before.deliveries, after.deliveries, d)
    decreases |calls|
  {
    assert Unfold(TheChain, 0);
    if calls != [] {
      var init, call := calls[..|calls| - 1], calls[|calls| - 1];
      assert Steps(c, before, calls, after);
      var mid :| Steps(c, before, init, mid) && Done(c, call, mid, after) && Proper(c, after);
      PollOnward(c, before, init, mid, d);
      CallOnward(c, call, mid, after, d);
      Patience.OnwardTwice(before.deliveries, mid.deliveries, after.deliveries, d);
    }
  }

  /** Such a step that brings nothing into the queue that was received before `d`. */
  ghost predicate Activity(c: Config, before: Tables, after: Tables, d: DeliveryId)
    requires d in before.deliveries
  {
    || (exists call :: Done(c, call, before, after) && Younger(call, before, d))
    || (exists page :: Serves(c, before, PendingCalls(page), after))
    || (exists page, now :: Serves(c, before, RetryCalls(page, now), after))
  }

  lemma ActivityOnward(c: Config, before: Tables, after: Tables, d: DeliveryId)
    requires d in before.deliveries && Activity(c, before, after, d)
    ensures Patience.Onward(before.deliveries, after.deliveries, d)
  {
    if call :| Done(c, call, before, after) && Younger(call, before, d) {
      CallOnward(c, call, before, after, d);
    } else if page :| Serves(c, before, PendingCalls(page), after) {
      PollOnward(c, before, PendingCalls(page), after, d);
    } else {
      var page, now :| Serves(c, before, RetryCalls(page, now), after);
      PollOnward(c, before, RetryCalls(page, now), after, d);
    }
  }

  ghost function DeliveriesOf(ts: seq<Tables>): Patience.History {
    seq(|ts|, i requires 0 <= i < |ts| => ts[i].deliveries)
  }

  /** A pending delivery of a running engine, with `k` pending ones received no later, is not pending any more after
      `k / 100 + 1` catch-up ticks, whatever else is consumed, retried, posted or forwarded between them, as long as
      nothing received before it comes back. */
  lemma {:induction false} PendingIsServed(c: Config, ts: seq<Tables>, d: DeliveryId)
    requires ts != [] && forall i :: 0 <= i < |ts| ==> d in ts[i].deliveries
    requires forall i :: 0 <= i < |ts| - 1 ==> Activity(c, ts[i], ts[i + 1], d)
    requires ts[0].deliveries[d].status == Pending
    requires var queue := Patience.PendingOf(ts[0].deliveries);
      Patience.Ticks(DeliveriesOf(ts)) >= |Patience.Ahead(queue, d)| / 100 + 1
    ensures ts[|ts| - 1].deliveries[d].status != Pending
  {
    var history := DeliveriesOf(ts);
    forall i | 0 <= i < |history| - 1
      ensures Patience.Onward(history[i], history[i + 1], d)
    {
      ActivityOnward(c, ts[i], ts[i + 1], d);
    }
    Patience.BoundedWait(history, d);
  }

  // -------------------------------------------------- the end of retrying

  ghost predicate AllDue(att: map<Key, Attempt>, now: int) {
    forall k :: k in att && att[k].nextRetryAt.Some? ==> att[k].nextRetryAt.value <= now
  }

  /** A tick of the retry poll. */
  ghost predicate RetryTick(c: Config, before: Tables, after: Tables, now: int) {
    exists page :: Patience.IsPage(DueTimes(before.attempts, now), page, Patience.LIMIT)
      && Serves(c, before, RetryCalls(page, now), after)
  }

  /** A tick takes the attempts that have been due longest off the schedule: it is what the bounded wait for a due
      attempt counts. */
  lemma TickTakesUp(c: Config, before: Tables, after: Tables, now: int, at: int)
    requires RetryTick(c, before, after, now) && at <= now
    ensures Schedule.TakesUp(before.attempts, after.attempts, at)
  {
    var page :| Patience.IsPage(DueTimes(before.attempts, now), page, Patience.LIMIT)
      && Serves(c, before, RetryCalls(page, now), after);
    PageIsDue(before.attempts, page, now);
    RetryPageClears(c, before, page, now, after);
  }

  /** While something is scheduled and all of it is due, a tick finds a page that is not empty. */
  lemma TickProgresses(c: Config, before: Tables, after: Tables, now: int)
    requires RetryTick(c, before, after, now) && AllDue(before.attempts, now) && Proper(c, before)
    ensures Proper(c, after)
    ensures Measure.RetriesLeft(c.maxRetries, before.attempts) > 0 ==>
              Measure.RetriesLeft(c.maxRetries, after.attempts) < Measure.RetriesLeft(c.maxRetries, before.attempts)
    ensures Measure.RetriesLeft(c.maxRetries, after.attempts) <= Measure.RetriesLeft(c.maxRetries, before.attempts)
  {
    var page :| Patience.IsPage(DueTimes(before.attempts, now), page, Patience.LIMIT)
      && Serves(c, before, RetryCalls(page, now), after);
    RetryPageUsesUp(c, before, RetryCalls(page, now), after);
    if Measure.RetriesLeft(c.maxRetries, before.attempts) > 0 {
      Measure.NothingLeft(c.maxRetries, before.attempts);
      var k :| k in before.attempts && before.attempts[k].nextRetryAt != None;
      assert k in DueTimes(before.attempts, now);
    }
  }

  /** Anything but a dispatch of a delivery: a single retry, a post, a forward or an edit. */
  ghost predicate Quietly(c: Config, before: Tables, after: Tables) {
    Proper(c, after) && exists call :: Done(c, call, before, after) && !call.OfMessage? && !call.OfPending?
  }

  lemma QuietlyKeeps(c: Config, before: Tables, after: Tables)
    requires Quietly(c, before, after) && Proper(c, before)
    ensures Measure.RetriesLeft(c.maxRetries, after.attempts) <= Measure.RetriesLeft(c.maxRetries, before.attempts)
  {
    var call :| Done(c, call, before, after) && !call.OfMessage? && !call.OfPending?;
    if call.OfRetry? {
      RetryCallUsesUp(c, before, after, call.key, call.now);
    } else {
      assert Unfold(TheCall, 0);
    }
  }

  /** Each step is a tick of the retry poll at a time when all that is scheduled is due, or dispatches nothing. */
  ghost predicate Drains(c: Config, ts: seq<Tables>, times: seq<Option<int>>) {
    && |ts| == |times| + 1 && Proper(c, ts[0])
    && forall i :: 0 <= i < |times| ==> DrainStep(c, ts[i], ts[i + 1], times[i])
  }

  ghost predicate DrainStep(c: Config, before: Tables, after: Tables, time: Option<int>) {
    if time.Some? then RetryTick(c, before, after, time.value) && AllDue(before.attempts, time.value)
    else Quietly(c, before, after)
  }

  function TicksIn(times: seq<Option<int>>): nat {
    if times == [] then 0
    else TicksIn(times[..|times| - 1]) + if times[|times| - 1].Some? then 1 else 0
  }

  /** The ticks are the steps that have a time. */
  ghost function TimedSteps(times: seq<Option<int>>): set<int> {
    set i | 0 <= i < |times| && times[i].Some?
  }

  lemma {:induction false} TicksCounted(times: seq<Option<int>>)
    ensures TicksIn(times) == |TimedSteps(times)|
  {
    if times == [] {
      assert TimedSteps(times) == {};
    } else {
      var n := |times| - 1;
      TicksCounted(times[..n]);
      assert TimedSteps(times) == TimedSteps(times[..n]) + if times[n].Some? then {n} else {};
    }
  }

  /** Draining ends: as many such ticks as there are retries left, with single retries, posts, forwards and edits in
      between, leave nothing scheduled. */
  lemma DrainingEnds(c: Config, ts: seq<Tables>, times: seq<Option<int>>)
    requires Drains(c, ts, times) && TicksIn(times) >= Measure.RetriesLeft(c.maxRetries, ts[0].attempts)
    ensures Measure.RetriesLeft(c.maxRetries, ts[|times|].attempts) == 0
    ensures forall k :: k in ts[|times|].attempts ==> ts[|times|].attempts[k].nextRetryAt == None
  {
    DrainingGoesDown(c, ts, times);
    Measure.NothingLeft(c.maxRetries, ts[|times|].attempts);
  }

  lemma {:induction false} DrainingGoesDown(c: Config, ts: seq<Tables>, times: seq<Option<int>>)
    requires Drains(c, ts, times)
    ensures Proper(c, ts[|times|])
    ensures var left, first := Measure.RetriesLeft(c.maxRetries, ts[|times|].attempts),
                               Measure.RetriesLeft(c.maxRetries, ts[0].attempts);
      left == 0 || left + TicksIn(times) <= first
    decreases |times|
  {
    if times != [] {
      var n := |times| - 1;
      forall i | 0 <= i < n
        ensures DrainStep(c, ts[..n + 1][i], ts[..n + 1][i + 1], times[..n][i])
      {
        assert DrainStep(c, ts[i], ts[i + 1], times[i]);
      }
      DrainingGoesDown(c, ts[..n + 1], times[..n]);
      assert DrainStep(c, ts[n], ts[n + 1], times[n]);
      if times[n].Some? {
        TickProgresses(c, ts[n], ts[n + 1], times[n].value);
      } else {
        QuietlyKeeps(c, ts[n], ts[n + 1]);
      }
    }
  }
}

/** The delivery engine as it runs: tables that the store calls update in place, and the worker and handler
    procedures that make those calls.  A ghost machine follows along, so that every procedure is proved to be
    one thread of the protocol, from its first call to its last. */
module Engine {
  import opened Types
  import opened Machine
  import Backoff
  import opened Calls
  import FanOut
  import Filter
  import Guarantees
  import Measure
  import Patience
  import opened Plans
  import Safety
  import Schedule
  import Verdict

  /** Thread `t` makes a call, which succeeds if `reliable`. */
  ghost predicate CallBy(l: Label, t: ThreadId, reliable: bool) {
    l.Advance? && l.t == t && (reliable ==> l.ch.reply == Ok)
  }

  /** The later trace goes on from the earlier one with calls of thread `t` only; all succeed if `reliable`.  Like a
      trace, this and the next two are folded. */
  ghost predicate Continues(before: seq<Label>, after: seq<Label>, t: ThreadId, reliable: bool) {
    forall n: nat :: Unfold(ThePath, n) ==>
      before <= after && forall i :: |before| <= i < |after| ==> CallBy(after[i], t, reliable)
  }

  /** Thread `t` may also have been started, several times. */
  ghost predicate By(before: seq<Label>, after: seq<Label>, t: ThreadId, reliable: bool) {
    forall n: nat :: Unfold(ThePath, n) ==>
      && before <= after
      && forall i :: |before| <= i < |after| ==>
           CallBy(after[i], t, reliable) || (Spawns(after[i]) && after[i].t == t)
  }

  /** No thread but `t` moved. */
  ghost predicate Alone(before: map<ThreadId, Pc>, after: map<ThreadId, Pc>, t: ThreadId) {
    forall n: nat :: Unfold(ThePath, n) ==> after - {t} == before - {t}
  }

  lemma AloneTwice(before: map<ThreadId, Pc>, mid: map<ThreadId, Pc>, after: map<ThreadId, Pc>, t: ThreadId)
    requires Alone(before, mid, t) && Alone(mid, after, t)
    ensures Alone(before, after, t)
  {
    assert Unfold(ThePath, 0);
  }

  lemma ContinuesTwice(before: seq<Label>, mid: seq<Label>, after: seq<Label>, t: ThreadId, reliable: bool)
    requires Continues(before, mid, t, reliable) && Continues(mid, after, t, reliable)
    ensures Continues(before, after, t, reliable)
  {
    assert Unfold(ThePath, 0);
    forall i | |before| <= i < |after|
      ensures CallBy(after[i], t, reliable)
    {
      assert i < |mid| ==> after[i] == mid[i];
    }
  }

  lemma ByTwice(before: seq<Label>, mid: seq<Label>, after: seq<Label>, t: ThreadId, reliable: bool)
    requires By(before, mid, t, reliable) && By(mid, after, t, reliable)
    ensures By(before, after, t, reliable)
  {
    assert Unfold(ThePath, 0);
    forall i | |before| <= i < |after|
      ensures CallBy(after[i], t, reliable) || (Spawns(after[i]) && after[i].t == t)
    {
      assert i < |mid| ==> after[i] == mid[i];
    }
  }

  lemma CallsAreBy(before: seq<Label>, after: seq<Label>, t: ThreadId, reliable: bool)
    requires Continues(before, after, t, reliable)
    ensures By(before, after, t, reliable)
  {
    assert Unfold(ThePath, 0);
  }

  /** The threads and the trace at some point of a procedure. */
  datatype Moment = Moment(threads: map<ThreadId, Pc>, trace: seq<Label>)

  lemma CallsJoin(before: Moment, mid: Moment, after: Moment, t: ThreadId, reliable: bool)
    requires Alone(before.threads, mid.threads, t) && Continues(before.trace, mid.trace, t, reliable)
    requires Alone(mid.threads, after.threads, t) && Continues(mid.trace, after.trace, t, reliable)
    ensures Alone(before.threads, after.threads, t) && Continues(before.trace, after.trace, t, reliable)
  {
    AloneTwice(before.threads, mid.threads, after.threads, t);
    ContinuesTwice(before.trace, mid.trace, after.trace, t, reliable);
  }

  lemma StartJoins(before: Moment, mid: Moment, after: Moment, t: ThreadId, reliable: bool)
    requires Alone(before.threads, mid.threads, t) && By(before.trace, mid.trace, t, reliable)
    requires Alone(mid.threads, after.threads, t) && Continues(mid.trace, after.trace, t, reliable)
    ensures Alone(before.threads, after.threads, t) && By(before.trace, after.trace, t, reliable)
  {
    AloneTwice(before.threads, mid.threads, after.threads, t);
    CallsAreBy(mid.trace, after.trace, t, reliable);
    ByTwice(before.trace, mid.trace, after.trace, t, reliable);
  }

  ghost function PcOf(c: Config, d: DeliveryId, plan: Plan): Pc
    requires !plan.Stop?
  {
    match plan
    case Finish(status) => PdFinish(d, status)
    case FanOut(acts, p, h) => NextFan(c, d, acts, p, h)
    case Persist(p, h, acts, kept) => PdPersist(d, p, h, acts, kept)
  }

  /** Where a retry goes on once its content is known. */
  ghost function Prepared(prev: Key, outcome: ActionOutcome): Pc {
    match outcome
    case Skip => Clear(prev)
    case Send(p, h) => Insert(Succ(prev), p, h, Redo(prev))
  }

  ghost function Ch(reply: Reply): Choice {
    Choice(reply, false, 0, 0.0, 0, [])
  }

  class Engine {
    const c: Config
    /** Whether the calls to the database and the stream always succeed. */
    const reliable: bool

    var sources: map<SourceId, Source>
    var actions: map<ActionId, Action>
    var deliveries: map<DeliveryId, Delivery>
    var attempts: map<Key, Attempt>
    var stream: multiset<Message>

    ghost var machine: State
    ghost var trace: seq<Label>

    ghost predicate Follows(s: State)
      reads this
    {
      && s.sources == sources && s.actions == actions && s.deliveries == deliveries
      && s.attempts == attempts && s.stream == stream
    }

    ghost function Now(): Tables
      reads this
    {
      Tables(sources, actions, deliveries, attempts, stream)
    }

    ghost function Here(): Moment
      reads this
    {
      Moment(machine.threads, trace)
    }

    ghost predicate Valid()
      reads this
    {
      Follows(machine) && Traced(c, trace, machine)
    }

    /** The thread `t` is about to make the call `pc`. */
    ghost predicate At(t: ThreadId, pc: Pc)
      reads this
    {
      Valid() && t in machine.threads && machine.threads[t] == pc
    }

    /** Since that moment, only thread `t` made calls. */
    ghost predicate Since(threads: map<ThreadId, Pc>, before: seq<Label>, t: ThreadId)
      reads this
    {
      Valid() && Alone(threads, machine.threads, t) && Continues(before, trace, t, reliable)
    }

    constructor (c: Config, reliable: bool)
      ensures Valid() && this.c == c && this.reliable == reliable
      ensures machine == INIT && trace == []
    {
      this.c, this.reliable := c, reliable;
      sources, actions, deliveries, attempts, stream := map[], map[], map[], map[], multiset{};
      machine, trace := INIT, [];
      assert Run(c, INIT, [], INIT);
    }

    // ------------------------------------------------ following the machine

    ghost method Do(l: Label)
      requires Traced(c, trace, machine) && Enabled(c, machine, l) && Follows(Step(c, machine, l))
      modifies this`machine, this`trace
      ensures Valid() && machine == Step(c, old(machine), l) && trace == old(trace) + [l]
    {
      TraceGrows(c, trace, machine, l);
      machine, trace := Step(c, machine, l), trace + [l];
    }

    /** Thread `t` makes its next call, with this outcome. */
    ghost method Go(t: ThreadId, ch: Choice, move: Move)
      requires Traced(c, trace, machine) && t in machine.threads && ChoiceOk(machine, machine.threads[t], ch)
      requires Perform(c, machine, machine.threads[t], ch) == move
      requires Follows(Apply(machine, move.effect))
      requires reliable ==> ch.reply == Ok
      modifies this`machine, this`trace
      ensures Since(old(machine.threads), old(trace), t)
      ensures if move.next.Some? then At(t, move.next.value) else t !in machine.threads
    {
      Do(Advance(t, ch));
      assert Unfold(ThePath, 0);
    }

    /** A request starts thread `t`. */
    ghost method Start(l: Label)
      requires Traced(c, trace, machine) && Spawns(l) && Enabled(c, machine, l)
      requires Follows(machine.(stream := StreamAfter(machine, l)))
      modifies this`machine, this`trace
      ensures At(l.t, NewPc(old(machine), l)) && By(old(trace), trace, l.t, reliable)
      ensures Alone(old(machine.threads), machine.threads, l.t) && machine.hist == old(machine.hist)
    {
      Do(l);
      assert Unfold(ThePath, 0);
    }

    // ------------------------------------------------ the store

    method Read() returns (ok: bool, ghost reply: Reply)
      ensures ok <==> reply == Ok
      ensures reliable ==> ok
    {
      ok := true;
      reply := Ok;
      if !reliable {
        ok := *;
        reply := if ok then Ok else Refused;
      }
    }

    /** A write may be refused, or take effect and still report an error. */
    method Write() returns (ok: bool, applied: bool, ghost reply: Reply)
      ensures ok <==> reply == Ok
      ensures applied <==> reply != Refused
      ensures reliable ==> ok
    {
      ok, applied := true, true;
      reply := Ok;
      if !reliable {
        applied := *;
        ok := *;
        ok := ok && applied;
        reply := if ok then Ok else if applied then Uncertain else Refused;
      }
    }

    method GetDelivery(d: DeliveryId) returns (row: Option<Delivery>, ghost reply: Reply)
      ensures row == if reply == Ok && d in deliveries then Some(deliveries[d]) else None
      ensures reliable ==> reply == Ok
    {
      var ok;
      ok, reply := Read();
      row := if ok && d in deliveries then Some(deliveries[d]) else None;
    }

    method GetSource(source: SourceId) returns (row: Option<Source>, ghost reply: Reply)
      ensures row == if reply == Ok && source in sources then Some(sources[source]) else None
      ensures reliable ==> reply == Ok
    {
      var ok;
      ok, reply := Read();
      row := if ok && source in sources then Some(sources[source]) else None;
    }

    method GetAction(a: ActionId) returns (row: Option<Action>, ghost reply: Reply)
      ensures row == if reply == Ok && a in actions then Some(actions[a]) else None
      ensures reliable ==> reply == Ok
    {
      var ok;
      ok, reply := Read();
      row := if ok && a in actions then Some(actions[a]) else None;
    }

    method UpdateStatus(d: DeliveryId, status: DeliveryStatus) returns (ok: bool, ghost reply: Reply)
      modifies this`deliveries
      ensures ok <==> reply == Ok
      ensures deliveries == if reply != Refused then WithStatus(old(deliveries), d, status) else old(deliveries)
      ensures reply != Refused && d in old(deliveries) ==>
                deliveries == old(deliveries)[d := old(deliveries)[d].(status := status)]
      ensures reliable ==> ok
    {
      var applied;
      ok, applied, reply := Write();
      if applied {
        deliveries := WithStatus(deliveries, d, status);
      }
    }

    method SetTransformed(d: DeliveryId, payload: Json, headers: Json) returns (ok: bool, ghost reply: Reply)
      modifies this`deliveries
      ensures ok <==> reply == Ok
      ensures deliveries ==
              if reply != Refused && d in old(deliveries) then
                old(deliveries)[d := old(deliveries)[d].(transformedPayload := Some(payload),
                                                         transformedHeaders := Some(headers))]
              else old(deliveries)
      ensures reliable ==> ok
    {
      var applied;
      ok, applied, reply := Write();
      if applied && d in deliveries {
        deliveries := deliveries[d := deliveries[d].(transformedPayload := Some(payload),
                                                     transformedHeaders := Some(headers))];
      }
    }

    /** The insert fails if the row exists or a foreign key does not. */
    method CreateAttempt(key: Key) returns (ok: bool, ghost inserted: bool, ghost reply: Reply)
      modifies this`attempts
      ensures inserted <==>
              reply != Refused && key !in old(attempts) && key.delivery in deliveries && key.action in actions
      ensures ok <==> inserted && reply == Ok
      ensures attempts ==
              if inserted then old(attempts)[key := Attempt(AttemptPending, None)] else old(attempts)
      ensures reliable ==> reply == Ok
    {
      var applied;
      ok, applied, reply := Write();
      ok := ok && key !in attempts && key.delivery in deliveries && key.action in actions;
      inserted := applied && key !in attempts && key.delivery in deliveries && key.action in actions;
      if applied && key !in attempts && key.delivery in deliveries && key.action in actions {
        attempts := attempts[key := Attempt(AttemptPending, None)];
      }
    }

    method UpdateAttempt(key: Key, row: Attempt) returns (ok: bool, ghost reply: Reply)
      modifies this`attempts
      ensures ok <==> reply == Ok
      ensures attempts ==
              if reply != Refused && key in old(attempts) then old(attempts)[key := row] else old(attempts)
      ensures reliable ==> ok
    {
      var applied;
      ok, applied, reply := Write();
      if applied && key in attempts {
        attempts := attempts[key := row];
      }
    }

    /** The active actions of a source, in some order. */
    method ListActive(source: SourceId)
      returns (found: Option<seq<ActionId>>, ghost reply: Reply, ghost listing: seq<ActionId>)
      ensures found == if reply == Ok then Some(listing) else None
      ensures Lists(actions, source, listing)
      ensures forall a :: a in listing <==> a in actions && actions[a].source == source && actions[a].active
      ensures reliable ==> reply == Ok
    {
      var left := ActiveIds(actions, source);
      var ids: seq<ActionId> := [];
      while left != {}
        invariant forall i, j :: 0 <= i < j < |ids| ==> ids[i] != ids[j]
        invariant forall a :: a in ActiveIds(actions, source) <==> a in left || a in ids
        invariant forall a :: a in left ==> a !in ids
        decreases |left|
      {
        var a :| a in left;
        left, ids := left - {a}, ids + [a];
      }
      listing := ids;
      var ok;
      ok, reply := Read();
      found := if ok then Some(ids) else None;
    }

    method ListAttempts(d: DeliveryId) returns (rows: Option<seq<AttemptRow>>, ghost reply: Reply)
      ensures rows.Some? <==> reply == Ok
      ensures rows.Some? ==> Verdict.RowsOf(attempts, d, rows.value)
      ensures rows.Some? ==> forall i, j :: 0 <= i < j < |rows.value| ==> rows.value[i].key != rows.value[j].key
      ensures reliable ==> reply == Ok
    {
      var ok;
      ok, reply := Read();
      if !ok {
        return None, reply;
      }
      var left := set k | k in attempts && k.delivery == d;
      var found: seq<AttemptRow> := [];
      while left != {}
        invariant forall k :: k in left ==> k in attempts && k.delivery == d
        invariant forall i :: 0 <= i < |found| ==> found[i].key !in left
        invariant forall i, j :: 0 <= i < j < |found| ==> found[i].key != found[j].key
        invariant forall i :: 0 <= i < |found| ==>
                    found[i].key in attempts && found[i].key.delivery == d && attempts[found[i].key] == found[i].attempt
        invariant forall k :: k in attempts && k.delivery == d && k !in left ==>
                    exists i :: 0 <= i < |found| && found[i].key == k
        decreases |left|
      {
        var k :| k in left;
        left := left - {k};
        ghost var before := found;
        found := found + [AttemptRow(k, attempts[k])];
        assert found[|before|].key == k;
        assert forall i :: 0 <= i < |before| ==> found[i] == before[i];
      }
      rows := Some(found);
    }

    // ------------------------------------------------ the worker

    method InsertAttempt(ghost t: ThreadId, key: Key, ghost payload: Json, ghost headers: Json, ghost k: Cont)
      returns (ok: bool)
      requires At(t, Insert(key, payload, headers, k))
      modifies this`attempts, this`machine, this`trace
      ensures Since(old(machine.threads), old(trace), t)
      ensures At(t, if ok then Dispatch(key, payload, headers, k) else Resume(c, key.delivery, k))
      ensures ok ==> key !in old(attempts) && attempts == old(attempts)[key := Attempt(AttemptPending, None)]
      ensures reliable && key.delivery in deliveries && key.action in actions ==> (ok <==> key !in old(attempts))
      ensures reliable && key.delivery in deliveries && key.action in actions ==> key in attempts
      ensures attempts == old(attempts)
           || (key !in old(attempts) && attempts == old(attempts)[key := Attempt(AttemptPending, None)])
    {
      ghost var inserted, r;
      ok, inserted, r := CreateAttempt(key);
      if ok {
        Go(t, Ch(r), Move(InsertRow(key), Some(Dispatch(key, payload, headers, k))));
      } else if inserted {
        Go(t, Ch(r), Move(InsertRow(key), Some(Resume(c, key.delivery, k))));
      } else {
        Go(t, Ch(r), Goto(Resume(c, key.delivery, k)));
      }
    }

    /** The dispatcher may answer anything. */
    method CallDispatcher(ghost t: ThreadId, key: Key, payload: Json, headers: Json, ghost k: Cont)
      returns (success: bool)
      requires At(t, Dispatch(key, payload, headers, k))
      modifies this`machine, this`trace
      ensures Since(old(machine.threads), old(trace), t)
      ensures At(t, Settle(key, success, k))
    {
      success := *;
      Go(t, Ch(Ok).(success := success),
         Move(Effect.Sent(Event(key, success, payload, headers)), Some(Settle(key, success, k))));
    }

    /** The clock may show anything. */
    method ReadClock() returns (now: int)
    {
      now := *;
    }

    /** The outcome of a dispatch, recorded while the clock shows `now`. */
    method RecordOutcome(ghost t: ThreadId, key: Key, success: bool, now: int, ghost k: Cont)
      requires At(t, Settle(key, success, k))
      modifies this`attempts, this`machine, this`trace
      ensures Since(old(machine.threads), old(trace), t)
      ensures At(t, Resume(c, key.delivery, k))
      ensures key in attempts <==> key in old(attempts)
      ensures attempts == OnlyAt(old(attempts), attempts, key)
      ensures key in attempts ==>
                attempts[key] == old(attempts)[key] || Settled(c, key, success, now, attempts[key])
      ensures reliable && key in attempts ==> Settled(c, key, success, now, attempts[key])
    {
      var jitter: real := *;
      if !(0.0 <= jitter < 1.0) {
        jitter := 0.0;
      }
      Backoff.NextIsTimely(c, key.number, now, jitter);
      var next := Backoff.NextRetry(c, key.number, now, jitter);
      var row := if success then Attempt(AttemptSuccess, None) else Attempt(AttemptFailed, next);
      ghost var wait := if success || next.None? then None else Some(Wait(now, next.value - now));
      var _, r := UpdateAttempt(key, row);
      Go(t, Choice(r, false, now, jitter, 0, []),
         Move(When(r != Refused, UpdateRow(key, row, wait)), Some(Resume(c, key.delivery, k))));
    }

    /** One attempt: insert the row, call the dispatcher, record the outcome, while the clock shows `now`.  An attempt
        that was there already is left alone.  A new one that is settled has succeeded, or has failed and is
        scheduled in time if retries are left; with a reliable store it is settled. */
    method DispatchAction(ghost t: ThreadId, key: Key, payload: Json, headers: Json, now: int, ghost k: Cont)
      returns (success: bool)
      requires At(t, Insert(key, payload, headers, k))
      modifies this`attempts, this`machine, this`trace
      ensures Since(old(machine.threads), old(trace), t)
      ensures At(t, Resume(c, key.delivery, k))
      ensures attempts == OnlyAt(old(attempts), attempts, key)
      ensures key in old(attempts) ==> attempts == old(attempts)
      ensures success ==> key !in old(attempts)
      ensures key in attempts && key !in old(attempts) ==>
                attempts[key] == Attempt(AttemptPending, None)
                || Settled(c, key, success, now, attempts[key])
      ensures reliable && key.delivery in deliveries && key.action in actions ==>
                key in attempts
                && (key !in old(attempts) ==> Settled(c, key, success, now, attempts[key]))
    {
      var ok := InsertAttempt(t, key, payload, headers, k);
      if !ok {
        return false;
      }
      ghost var mid, inserted := Here(), attempts;
      success := SendAttempt(t, key, payload, headers, now, k);
      OnlyAtTwice(old(attempts), inserted, attempts, key);
      CallsJoin(old(Here()), mid, Here(), t, reliable);
    }

    method SendAttempt(ghost t: ThreadId, key: Key, payload: Json, headers: Json, now: int, ghost k: Cont)
      returns (success: bool)
      requires At(t, Dispatch(key, payload, headers, k))
      modifies this`attempts, this`machine, this`trace
      ensures Since(old(machine.threads), old(trace), t)
      ensures At(t, Resume(c, key.delivery, k))
      ensures key in attempts <==> key in old(attempts)
      ensures attempts == OnlyAt(old(attempts), attempts, key)
      ensures key in attempts ==>
                attempts[key] == old(attempts)[key] || Settled(c, key, success, now, attempts[key])
      ensures reliable && key in attempts ==> Settled(c, key, success, now, attempts[key])
    {
      success := CallDispatcher(t, key, payload, headers, k);
      ghost var mid := Here();
      RecordOutcome(t, key, success, now, k);
      CallsJoin(old(Here()), mid, Here(), t, reliable);
    }

    // The calls of a roll-up, one by one.

    method ReadForRollUp(ghost t: ThreadId, d: DeliveryId) returns (source: Option<SourceId>)
      requires At(t, RollDelivery(d))
      modifies this`machine, this`trace
      ensures Since(old(machine.threads), old(trace), t)
      ensures if source.Some? then At(t, RollActions(d, source.value)) else t !in machine.threads
      ensures source.Some? ==> d in deliveries && source.value == deliveries[d].source
      ensures reliable && d in deliveries ==> source.Some?
    {
      var row, r := GetDelivery(d);
      if row == None {
        Go(t, Ch(r), EXIT);
        return None;
      }
      Go(t, Ch(r), Goto(RollActions(d, row.value.source)));
      return Some(row.value.source);
    }

    method ListForRollUp(ghost t: ThreadId, d: DeliveryId, source: SourceId) returns (listing: Option<seq<ActionId>>)
      requires At(t, RollActions(d, source))
      modifies this`machine, this`trace
      ensures Since(old(machine.threads), old(trace), t)
      ensures if listing.Some? then At(t, RollAttempts(d, listing.value)) else t !in machine.threads
      ensures listing.Some? ==> IdSet(listing.value) == ActiveIds(actions, source)
      ensures reliable ==> listing.Some?
    {
      ghost var r, active;
      listing, r, active := ListActive(source);
      Go(t, Ch(r).(listing := active), if r == Ok then Goto(RollAttempts(d, active)) else EXIT);
    }

    method JudgeAttempts(ghost t: ThreadId, d: DeliveryId, listing: seq<ActionId>)
      returns (verdict: Option<DeliveryStatus>)
      requires At(t, RollAttempts(d, listing))
      modifies this`machine, this`trace
      ensures Since(old(machine.threads), old(trace), t)
      ensures if verdict.Some? then At(t, RollWrite(d, verdict.value)) else t !in machine.threads
      ensures verdict.Some? ==> verdict.value == Completed || verdict.value == Failed
      ensures reliable ==> verdict == Verdict.Of(c.maxRetries, IdSet(listing), attempts, d)
    {
      var rows, r := ListAttempts(d);
      if rows == None {
        Go(t, Ch(r), EXIT);
        return None;
      }
      verdict := Verdict.RollUp(c.maxRetries, listing, rows.value, attempts, d);
      Go(t, Ch(r), if verdict.Some? then Goto(RollWrite(d, verdict.value)) else EXIT);
    }

    /** The last call of a thread: it writes a status. */
    method WriteStatus(ghost t: ThreadId, d: DeliveryId, status: DeliveryStatus)
      requires At(t, RollWrite(d, status)) || At(t, PdFinish(d, status)) || (status == Recorded && At(t, PdRecord(d)))
      requires status != Pending
      modifies this`deliveries, this`machine, this`trace
      ensures Since(old(machine.threads), old(trace), t) && t !in machine.threads
      ensures OnlyRow(old(deliveries), deliveries, d)
      ensures reliable ==> deliveries == WithStatus(old(deliveries), d, status)
    {
      var _, r := UpdateStatus(d, status);
      Go(t, Ch(r), Move(When(r != Refused, SetStatus(d, status)), None));
    }

    /** If every call succeeds, the verdict of the attempts is written, if there is one, and nothing else. */
    method RollUpDeliveryStatus(ghost t: ThreadId, d: DeliveryId)
      requires At(t, RollDelivery(d))
      modifies this`deliveries, this`machine, this`trace
      ensures Since(old(machine.threads), old(trace), t) && t !in machine.threads
      ensures OnlyRow(old(deliveries), deliveries, d)
      ensures reliable ==> RolledUp(c.maxRetries, actions, attempts, old(deliveries), deliveries, d)
    {
      var listing := ActionsForRollUp(t, d);
      if listing.Some? {
        ghost var mid := Here();
        FinishRollUp(t, d, listing.value);
        CallsJoin(old(Here()), mid, Here(), t, reliable);
      }
    }

    method ActionsForRollUp(ghost t: ThreadId, d: DeliveryId) returns (listing: Option<seq<ActionId>>)
      requires At(t, RollDelivery(d))
      modifies this`machine, this`trace
      ensures Since(old(machine.threads), old(trace), t)
      ensures if listing.Some? then At(t, RollAttempts(d, listing.value)) else t !in machine.threads
      ensures listing.Some? ==> d in deliveries && IdSet(listing.value) == ActiveIds(actions, deliveries[d].source)
      ensures reliable && d in deliveries ==> listing.Some?
    {
      listing := None;
      var source := ReadForRollUp(t, d);
      if source.Some? {
        listing := ListForRollUp(t, d, source.value);
      }
    }

    method FinishRollUp(ghost t: ThreadId, d: DeliveryId, listing: seq<ActionId>)
      requires At(t, RollAttempts(d, listing))
      requires d in deliveries && IdSet(listing) == ActiveIds(actions, deliveries[d].source)
      modifies this`deliveries, this`machine, this`trace
      ensures Since(old(machine.threads), old(trace), t) && t !in machine.threads
      ensures OnlyRow(old(deliveries), deliveries, d)
      ensures reliable ==> RolledUp(c.maxRetries, actions, attempts, old(deliveries), deliveries, d)
    {
      var verdict := JudgeAttempts(t, d, listing);
      if verdict.Some? {
        ghost var mid := Here();
        WriteStatus(t, d, verdict.value);
        CallsJoin(old(Here()), mid, Here(), t, reliable);
      }
    }

    // ------------------------------------------------ processDelivery

    /** Loading the delivery: it must be pending, or recorded and forced. */
    method LoadDelivery(ghost t: ThreadId, d: DeliveryId, force: bool) returns (row: Option<Delivery>)
      requires At(t, PdStart(d, force))
      modifies this`machine, this`trace
      ensures Since(old(machine.threads), old(trace), t)
      ensures if row.Some? then At(t, PdSource(d, force, row.value)) else t !in machine.threads
      ensures row.Some? ==> Admissible(deliveries, d, force) && row.value == deliveries[d]
      ensures row.Some? ==> row.value.status == Pending || (row.value.status == Recorded && force)
      ensures reliable && Admissible(deliveries, d, force) ==> row.Some?
    {
      ghost var r;
      row, r := GetDelivery(d);
      if row.Some? && (row.value.status == Pending || (force && row.value.status == Recorded)) {
        Go(t, Ch(r), Goto(PdSource(d, force, row.value)));
      } else {
        Go(t, Ch(r), EXIT);
        row := None;
      }
    }

    /** Loading the source, which decides between recording the delivery and admitting it. */
    method LoadSource(ghost t: ThreadId, d: DeliveryId, force: bool, row: Delivery) returns (src: Option<Source>)
      requires At(t, PdSource(d, force, row))
      modifies this`machine, this`trace
      ensures Since(old(machine.threads), old(trace), t)
      ensures if src == None then t !in machine.threads
              else if !force && src.value.mode == Record then At(t, PdRecord(d))
              else At(t, PdAdmit(d, force, row, src.value.script))
      ensures reliable && row.source in sources ==> src.Some?
      ensures src.Some? ==> row.source in sources && src.value == sources[row.source]
    {
      ghost var r;
      src, r := GetSource(row.source);
      if src == None {
        Go(t, Ch(r), EXIT);
      } else if !force && src.value.mode == Record {
        Go(t, Ch(r), Goto(PdRecord(d)));
      } else {
        Go(t, Ch(r), Goto(PdAdmit(d, force, row, src.value.script)));
      }
    }

    method AdmitDelivery(ghost t: ThreadId, d: DeliveryId, ghost force: bool, ghost row: Delivery,
                         ghost script: Option<Script>)
      returns (ok: bool)
      requires At(t, PdAdmit(d, force, row, script))
      modifies this`deliveries, this`machine, this`trace
      ensures Since(old(machine.threads), old(trace), t)
      ensures if ok then At(t, PdActions(d, row, script)) else t !in machine.threads
      ensures OnlyRow(old(deliveries), deliveries, d)
      ensures reliable ==> ok && deliveries == WithStatus(old(deliveries), d, Processing)
    {
      ghost var r;
      ok, r := UpdateStatus(d, Processing);
      Go(t, Ch(r), Move(When(r != Refused, Effect.Admit(d, force)),
                        if ok then Some(PdActions(d, row, script)) else None));
    }

    /** Reading the active actions and running the source script over them. */
    method PlanFanOut(ghost t: ThreadId, d: DeliveryId, row: Delivery, script: Option<Script>) returns (plan: Plan)
      requires At(t, PdActions(d, row, script))
      modifies this`machine, this`trace
      ensures Since(old(machine.threads), old(trace), t)
      ensures Planned(t, d, plan)
      ensures reliable ==> !plan.Stop?
      ensures !plan.Stop? ==> IsPlan(c, script, actions, row, plan)
    {
      var listing, r, active := ListActive(row.source);
      if listing == None {
        Go(t, Ch(r).(listing := active), EXIT);
        return Stop;
      }
      var acts := Todos(actions, listing.value);
      if acts == [] {
        plan := Finish(Completed);
        assert active == [];
      } else if !HasScript(script) {
        plan := FanOut(acts, row.payload, row.headers);
      } else {
        match c.runSource(script.value, row.payload, row.headers, listing.value) {
          case ScriptError => plan := Finish(Failed);
          case Dropped => plan := Finish(Completed);
          case Transformed(p, h, kept) => plan := Persist(p, h, acts, kept);
        }
      }
      Go(t, Ch(r).(listing := active), Goto(PcOf(c, d, plan)));
    }

    ghost predicate Planned(t: ThreadId, d: DeliveryId, plan: Plan)
      reads this
    {
      if plan.Stop? then t !in machine.threads else At(t, PcOf(c, d, plan))
    }

    /** Storing the transformed content; a failure is only logged. */
    method PersistContent(ghost t: ThreadId, d: DeliveryId, payload: Json, headers: Json, acts: seq<Todo>,
                          kept: seq<ActionId>)
      returns (plan: Plan)
      requires At(t, PdPersist(d, payload, headers, acts, kept))
      modifies this`deliveries, this`machine, this`trace
      ensures Since(old(machine.threads), old(trace), t)
      ensures Planned(t, d, plan) && plan == Narrowed(Persist(payload, headers, acts, kept))
      ensures OnlyRow(old(deliveries), deliveries, d)
      ensures reliable ==> deliveries == WithContent(old(deliveries), d, payload, headers)
    {
      var _, r := SetTransformed(d, payload, headers);
      Go(t, Ch(r), Move(When(r != Refused, Effect.SetTransformed(d, payload, headers)),
                        Some(AfterPersist(c, d, payload, headers, acts, kept))));
      if kept == [] {
        Filter.KeptNone(acts, IdSet(kept));
        return Finish(Completed);
      }
      var chosen := Filter.FilterActions(acts, kept);
      plan := if chosen == [] then Finish(Completed) else FanOut(chosen, payload, headers);
    }

    /** The fan-out loop: one first attempt for each action that its own transform does not skip. */
    method FanOutAll(ghost t: ThreadId, d: DeliveryId, acts: seq<Todo>, payload: Json, headers: Json)
      requires At(t, NextFan(c, d, acts, payload, headers))
      modifies this`attempts, this`machine, this`trace
      ensures Since(old(machine.threads), old(trace), t)
      ensures At(t, RollDelivery(d))
      ensures FirstOf(old(attempts), attempts, d, FanOut.Targets(c, acts, payload, headers))
      ensures reliable && d in deliveries && (forall todo :: todo in acts ==> todo.id in actions) ==>
                AllIn(attempts, d, FanOut.Targets(c, acts, payload, headers))
    {
      ghost var sure := reliable && d in deliveries && forall todo :: todo in acts ==> todo.id in actions;
      assert acts[0..] == acts;
      FanStarts(c, attempts, d, acts, payload, headers, sure);
      for i := 0 to |acts|
        invariant Since(old(machine.threads), old(trace), t)
        invariant At(t, NextFan(c, d, acts[i..], payload, headers))
        invariant Fanned(c, old(attempts), attempts, d, acts, i, payload, headers, sure)
      {
        assert acts[i..] == [acts[i]] + acts[i + 1..];
        ghost var mid := attempts;
        ghost var target := FanOutOne(t, d, acts[i], acts[i + 1..], payload, headers);
        FanGoesOn(c, old(attempts), mid, attempts, d, acts, i, payload, headers, sure, target);
      }
      FanEnds(c, old(attempts), attempts, d, acts, payload, headers, sure);
    }

    method FanOutOne(ghost t: ThreadId, d: DeliveryId, todo: Todo, ghost rest: seq<Todo>, payload: Json, headers: Json)
      returns (ghost target: seq<ActionId>)
      requires At(t, NextFan(c, d, [todo] + rest, payload, headers))
      modifies this`attempts, this`machine, this`trace
      ensures Since(old(machine.threads), old(trace), t)
      ensures At(t, NextFan(c, d, rest, payload, headers))
      ensures FanOut.Targets(c, [todo] + rest, payload, headers) == target + FanOut.Targets(c, rest, payload, headers)
      ensures FirstOf(old(attempts), attempts, d, target)
      ensures reliable && d in deliveries && todo.id in actions ==> AllIn(attempts, d, target)
    {
      assert ([todo] + rest)[1..] == rest;
      match Transform(c, todo.transform, payload, headers) {
        case Skip => target := [];
        case Send(p, h) =>
          var now := ReadClock();
          var _ := DispatchAction(t, Key(d, todo.id, 1), p, h, now, Fan(rest, payload, headers));
          target := [todo.id];
      }
    }

    /** Fanning out and rolling up, or writing the status that is already known. */
    method CarryOut(ghost t: ThreadId, d: DeliveryId, plan: Plan)
      requires (plan.Finish? || plan.FanOut?) && At(t, PcOf(c, d, plan)) && PlanOk(actions, plan)
      modifies this`deliveries, this`attempts, this`machine, this`trace
      ensures Since(old(machine.threads), old(trace), t) && t !in machine.threads
      ensures OnlyRow(old(deliveries), deliveries, d) && OnlyFirst(old(attempts), attempts, d)
      ensures reliable ==> CarriedOut(c, actions, old(attempts), attempts, old(deliveries), deliveries, d, plan)
    {
      match plan {
        case Finish(status) => WriteStatus(t, d, status);
        case FanOut(acts, p, h) =>
          FanOutAll(t, d, acts, p, h);
          ghost var mid := Here();
          RollUpDeliveryStatus(t, d);
          CallsJoin(old(Here()), mid, Here(), t, reliable);
      }
    }

    method CarryOutPlan(ghost t: ThreadId, d: DeliveryId, plan: Plan)
      requires !plan.Stop? && At(t, PcOf(c, d, plan)) && PlanOk(actions, plan)
      modifies this`deliveries, this`attempts, this`machine, this`trace
      ensures Since(old(machine.threads), old(trace), t) && t !in machine.threads
      ensures OnlyRow(old(deliveries), deliveries, d) && OnlyFirst(old(attempts), attempts, d)
      ensures reliable ==> Outcome(c, actions, old(attempts), attempts, old(deliveries), deliveries, d, plan)
    {
      if plan.Persist? {
        NarrowedOk(actions, plan);
        var left := PersistContent(t, d, plan.payload, plan.headers, plan.acts, plan.kept);
        ghost var mid, stored := Here(), deliveries;
        CarryOut(t, d, left);
        CallsJoin(old(Here()), mid, Here(), t, reliable);
        OnlyRowTwice(old(deliveries), stored, deliveries, d);
      } else {
        CarryOut(t, d, plan);
      }
    }

    method PlanAndCarryOut(ghost t: ThreadId, d: DeliveryId, row: Delivery, script: Option<Script>)
      requires At(t, PdActions(d, row, script))
      modifies this`deliveries, this`attempts, this`machine, this`trace
      ensures Since(old(machine.threads), old(trace), t) && t !in machine.threads
      ensures OnlyRow(old(deliveries), deliveries, d) && OnlyFirst(old(attempts), attempts, d)
      ensures reliable ==>
                Dispatched(c, script, actions, row, old(attempts), attempts, old(deliveries), deliveries, d)
    {
      var plan := PlanFanOut(t, d, row, script);
      if !plan.Stop? {
        PlansAreOk(c, script, actions, row, plan);
        CarryOutPlan(t, d, plan);
        if reliable {
          DispatchedBy(c, script, actions, row, old(attempts), attempts, old(deliveries), deliveries, d, plan);
        }
      }
    }

    method AdmitAndDispatch(ghost t: ThreadId, d: DeliveryId, ghost force: bool, row: Delivery, script: Option<Script>)
      requires At(t, PdAdmit(d, force, row, script))
      modifies this`deliveries, this`attempts, this`machine, this`trace
      ensures Since(old(machine.threads), old(trace), t) && t !in machine.threads
      ensures OnlyRow(old(deliveries), deliveries, d) && OnlyFirst(old(attempts), attempts, d)
      ensures reliable && d in deliveries ==> deliveries[d].status != Pending
      ensures reliable ==>
                Dispatched(c, script, actions, row, old(attempts), attempts,
                           WithStatus(old(deliveries), d, Processing), deliveries, d)
    {
      var ok := AdmitDelivery(t, d, force, row, script);
      if ok {
        ghost var mid, admitted := Here(), deliveries;
        PlanAndCarryOut(t, d, row, script);
        CallsJoin(old(Here()), mid, Here(), t, reliable);
        OnlyRowTwice(old(deliveries), admitted, deliveries, d);
      }
    }

    /** Recording or admitting a delivery whose source is known. */
    method ProcessLoaded(ghost t: ThreadId, d: DeliveryId, force: bool, row: Delivery)
      requires At(t, PdSource(d, force, row)) && row.source in sources
      modifies this`deliveries, this`attempts, this`machine, this`trace
      ensures Since(old(machine.threads), old(trace), t) && t !in machine.threads
      ensures OnlyRow(old(deliveries), deliveries, d) && OnlyFirst(old(attempts), attempts, d)
      ensures reliable && d in deliveries ==> deliveries[d].status != Pending
      ensures reliable ==>
                Processed(c, sources[row.source], actions, row, old(attempts), attempts,
                          old(deliveries), deliveries, d, force)
    {
      var src := LoadSource(t, d, force, row);
      if src.Some? {
        ghost var mid := Here();
        ProcessFor(t, d, force, row, src.value);
        CallsJoin(old(Here()), mid, Here(), t, reliable);
      }
    }

    method ProcessFor(ghost t: ThreadId, d: DeliveryId, force: bool, row: Delivery, src: Source)
      requires if !force && src.mode == Record then At(t, PdRecord(d)) else At(t, PdAdmit(d, force, row, src.script))
      modifies this`deliveries, this`attempts, this`machine, this`trace
      ensures Since(old(machine.threads), old(trace), t) && t !in machine.threads
      ensures OnlyRow(old(deliveries), deliveries, d) && OnlyFirst(old(attempts), attempts, d)
      ensures reliable && d in deliveries ==> deliveries[d].status != Pending
      ensures reliable ==>
                Processed(c, src, actions, row, old(attempts), attempts, old(deliveries), deliveries, d, force)
    {
      if !force && src.mode == Record {
        WriteStatus(t, d, Recorded);
      } else {
        AdmitAndDispatch(t, d, force, row, src.script);
      }
    }

    lemma TablesAreOk()
      requires Valid()
      ensures Safety.Inv(c, machine)
    {
      Guarantees.ReachableInv(c, machine);
    }

    lemma TablesAreProper()
      requires Valid()
      ensures Proper(c, Now())
    {
      TablesAreOk();
      forall k | k in attempts
        ensures k.number >= 1
        ensures attempts[k].nextRetryAt.Some? ==> attempts[k].status == AttemptFailed && k.number < c.maxRetries
      {
        assert Safety.RowOk(c.maxRetries, machine.hist.log, k, attempts[k]);
      }
    }

    lemma NothingServed()
      requires Valid()
      ensures Serves(c, Now(), [], Now())
    {
      TablesAreProper();
      ServesNothing(c, Now());
    }

    lemma SourceExists(d: DeliveryId)
      requires Valid() && d in deliveries
      ensures deliveries[d].source in sources
    {
      TablesAreOk();
    }

    /** The same for a delivery that is known to be admissible. */
    method ProcessAdmissible(ghost t: ThreadId, d: DeliveryId, force: bool, row: Delivery)
      requires At(t, PdSource(d, force, row)) && Admissible(deliveries, d, force) && row == deliveries[d]
      modifies this`deliveries, this`attempts, this`machine, this`trace
      ensures Since(old(machine.threads), old(trace), t) && t !in machine.threads
      ensures OnlyRow(old(deliveries), deliveries, d) && OnlyFirst(old(attempts), attempts, d)
      ensures reliable && d in deliveries ==> deliveries[d].status != Pending
      ensures reliable ==>
                Handled(c, sources, actions, old(attempts), attempts, old(deliveries), deliveries, d, force)
    {
      SourceExists(d);
      ProcessLoaded(t, d, force, row);
      if reliable {
        HandledBy(c, sources, actions, old(attempts), attempts, old(deliveries), deliveries, d, force);
      }
    }

    /** One message or one pending delivery: the whole of `processDelivery`, by thread `t`.  A delivery that is
        being processed, or is completed or failed, is left alone.  If every call succeeds, no branch leaves the
        delivery pending. */
    method ProcessDelivery(ghost t: ThreadId, d: DeliveryId, force: bool)
      requires At(t, PdStart(d, force))
      modifies this`deliveries, this`attempts, this`machine, this`trace
      ensures Since(old(machine.threads), old(trace), t) && t !in machine.threads
      ensures OnlyRow(old(deliveries), deliveries, d) && OnlyFirst(old(attempts), attempts, d)
      ensures !Admissible(old(deliveries), d, force) ==> deliveries == old(deliveries) && attempts == old(attempts)
      ensures d in old(deliveries) && (old(deliveries)[d].status in {Processing, Completed, Failed}
                                       || (old(deliveries)[d].status == Recorded && !force)) ==>
                deliveries == old(deliveries) && attempts == old(attempts)
      ensures reliable && d in deliveries ==> deliveries[d].status != Pending
      ensures reliable ==>
                Handled(c, sources, actions, old(attempts), attempts, old(deliveries), deliveries, d, force)
    {
      var row := LoadDelivery(t, d, force);
      if row.Some? {
        ghost var mid := Here();
        ProcessAdmissible(t, d, force, row.value);
        CallsJoin(old(Here()), mid, Here(), t, reliable);
      } else if reliable {
        LeftAlone(c, sources, actions, attempts, deliveries, d, force);
      }
    }

    // ------------------------------------------------ retryAttempt

    method LoadForRetry(ghost t: ThreadId, prev: Key) returns (row: Option<Delivery>)
      requires At(t, RtDelivery(prev))
      modifies this`machine, this`trace
      ensures Since(old(machine.threads), old(trace), t)
      ensures if row.Some? then At(t, RtAction(prev, row.value)) else t !in machine.threads
      ensures reliable && prev.delivery in deliveries ==> row.Some?
      ensures row.Some? ==> prev.delivery in deliveries && row.value == deliveries[prev.delivery]
    {
      ghost var r;
      row, r := GetDelivery(prev.delivery);
      Go(t, Ch(r), if row.Some? then Goto(RtAction(prev, row.value)) else EXIT);
    }

    /** Rebuilding the content from the stored columns, and transforming it for the action as it is now. */
    method PrepareRetry(ghost t: ThreadId, prev: Key, row: Delivery) returns (outcome: Option<ActionOutcome>)
      requires At(t, RtAction(prev, row))
      modifies this`machine, this`trace
      ensures Since(old(machine.threads), old(trace), t)
      ensures if outcome.Some? then At(t, Prepared(prev, outcome.value)) else t !in machine.threads
      ensures reliable && prev.action in actions ==> outcome.Some?
      ensures outcome.Some? ==> prev.action in actions && outcome.value == RetryOf(c, actions[prev.action], row)
      ensures outcome.Some? ==>
                var p := if row.transformedPayload.Some? then row.transformedPayload.value else row.payload;
                var h := if row.transformedHeaders.Some? then row.transformedHeaders.value else row.headers;
                var script := actions[prev.action].transform;
                outcome.value
                == if script.Some? && script.value != "" then c.runAction(script.value, p, h) else Send(p, h)
    {
      var action, r := GetAction(prev.action);
      if action == None {
        Go(t, Ch(r), EXIT);
        return None;
      }
      var sent := RetryOf(c, action.value, row);
      Go(t, Ch(r), Goto(Prepared(prev, sent)));
      outcome := Some(sent);
    }

    method LoadRetry(ghost t: ThreadId, prev: Key) returns (outcome: Option<ActionOutcome>)
      requires At(t, RtDelivery(prev))
      modifies this`machine, this`trace
      ensures Since(old(machine.threads), old(trace), t)
      ensures if outcome.Some? then At(t, Prepared(prev, outcome.value)) else t !in machine.threads
      ensures reliable && prev.delivery in deliveries && prev.action in actions ==> outcome.Some?
      ensures outcome.Some? ==>
                && prev.delivery in deliveries && prev.action in actions
                && outcome.value == RetryOf(c, actions[prev.action], deliveries[prev.delivery])
    {
      outcome := None;
      var row := LoadForRetry(t, prev);
      if row.Some? {
        outcome := PrepareRetry(t, prev, row.value);
      }
    }

    method ClearSchedule(ghost t: ThreadId, prev: Key)
      requires At(t, Clear(prev))
      modifies this`attempts, this`machine, this`trace
      ensures Since(old(machine.threads), old(trace), t) && At(t, RollDelivery(prev.delivery))
      ensures attempts == if prev in old(attempts) && attempts != old(attempts) then
                            old(attempts)[prev := Attempt(AttemptFailed, None)]
                          else old(attempts)
      ensures reliable && prev in attempts ==> attempts[prev] == Attempt(AttemptFailed, None)
    {
      var _, r := UpdateAttempt(prev, Attempt(AttemptFailed, None));
      Go(t, Ch(r), Move(When(r != Refused, UpdateRow(prev, Attempt(AttemptFailed, None), None)),
                        Some(RollDelivery(prev.delivery))));
    }

    lemma RowExists(key: Key)
      requires Valid() && key in attempts
      ensures key.delivery in deliveries && key.action in actions
      ensures attempts[key].nextRetryAt.Some? ==> key.number < c.maxRetries
    {
      TablesAreOk();
      assert Safety.RowOk(c.maxRetries, machine.hist.log, key, attempts[key]);
    }

    /** The attempt that follows, unless the action's transform skips it now. */
    method Redispatch(ghost t: ThreadId, prev: Key, outcome: ActionOutcome)
      requires At(t, Prepared(prev, outcome))
      modifies this`attempts, this`machine, this`trace
      ensures Since(old(machine.threads), old(trace), t) && At(t, Clear(prev))
      ensures Redispatched(old(attempts), attempts, prev)
      ensures reliable && prev.delivery in deliveries && prev.action in actions ==>
                (Succ(prev) in attempts <==> Succ(prev) in old(attempts) || outcome.Send?)
    {
      if outcome.Send? {
        var now := ReadClock();
        var _ := DispatchAction(t, Succ(prev), outcome.payload, outcome.headers, now, Redo(prev));
      }
    }

    /** One retry.  If every call succeeds, it uses up some of the retries that were left: a skip, too. */
    method RetryAttempt(ghost t: ThreadId, prev: Key)
      requires At(t, RtDelivery(prev)) && prev in attempts
      modifies this`deliveries, this`attempts, this`machine, this`trace
      ensures Since(old(machine.threads), old(trace), t) && t !in machine.threads
      ensures OnlyRow(old(deliveries), deliveries, prev.delivery)
      ensures Kept(old(attempts), attempts, prev)
      ensures reliable ==> RetriedOne(c, actions, old(attempts), attempts, old(deliveries), deliveries, prev)
      ensures reliable ==>
                var next, row := Key(prev.delivery, prev.action, prev.number + 1), old(deliveries)[prev.delivery];
                && prev in attempts && attempts[prev] == Attempt(AttemptFailed, None)
                && (next in attempts <==>
                      next in old(attempts)
                      || !SkippedBy(c, actions[prev.action].transform, StoredPayload(row), StoredHeaders(row)))
      ensures reliable && old(attempts)[prev].nextRetryAt.Some? ==>
                Measure.RetriesLeft(c.maxRetries, attempts) < Measure.RetriesLeft(c.maxRetries, old(attempts))
    {
      RowExists(prev);
      var outcome := LoadRetry(t, prev);
      if outcome.Some? {
        ghost var mid := Here();
        RetryPrepared(t, prev, outcome.value);
        CallsJoin(old(Here()), mid, Here(), t, reliable);
      }
      if reliable && old(attempts)[prev].nextRetryAt.Some? {
        Measure.RetryUsesUp(c.maxRetries, old(attempts), attempts, prev);
      }
    }

    method RetryPrepared(ghost t: ThreadId, prev: Key, outcome: ActionOutcome)
      requires At(t, Prepared(prev, outcome))
      requires prev in attempts
      modifies this`deliveries, this`attempts, this`machine, this`trace
      ensures Since(old(machine.threads), old(trace), t) && t !in machine.threads
      ensures OnlyRow(old(deliveries), deliveries, prev.delivery)
      ensures Kept(old(attempts), attempts, prev) && prev in attempts
      ensures reliable ==> attempts[prev] == Attempt(AttemptFailed, None)
      ensures reliable ==> RolledUp(c.maxRetries, actions, attempts, old(deliveries), deliveries, prev.delivery)
      ensures reliable && prev.delivery in deliveries && prev.action in actions ==>
                (Succ(prev) in attempts <==> Succ(prev) in old(attempts) || outcome.Send?)
    {
      RedispatchAndClear(t, prev, outcome);
      ghost var mid := Here();
      RollUpDeliveryStatus(t, prev.delivery);
      CallsJoin(old(Here()), mid, Here(), t, reliable);
    }

    method RedispatchAndClear(ghost t: ThreadId, prev: Key, outcome: ActionOutcome)
      requires At(t, Prepared(prev, outcome))
      requires prev in attempts
      modifies this`attempts, this`machine, this`trace
      ensures Since(old(machine.threads), old(trace), t) && At(t, RollDelivery(prev.delivery))
      ensures Kept(old(attempts), attempts, prev) && prev in attempts
      ensures reliable ==> attempts[prev] == Attempt(AttemptFailed, None)
      ensures reliable && prev.delivery in deliveries && prev.action in actions ==>
                (Succ(prev) in attempts <==> Succ(prev) in old(attempts) || outcome.Send?)
    {
      Redispatch(t, prev, outcome);
      RedispatchKeeps(old(attempts), attempts, prev);
      ghost var mid := Here();
      ClearSchedule(t, prev);
      CallsJoin(old(Here()), mid, Here(), t, reliable);
    }

    // ------------------------------------------------ polling and consuming

    /** A message is read once and removed when it has been processed. */
    method ConsumeMessage(ghost t: ThreadId, m: Message)
      requires Valid() && t !in machine.threads && m in stream
      modifies this`deliveries, this`attempts, this`stream, this`machine, this`trace
      ensures Valid() && Alone(old(machine.threads), machine.threads, t) && t !in machine.threads
      ensures By(old(trace), trace, t, reliable)
      ensures stream == old(stream) - multiset{m}
      ensures !Admissible(old(deliveries), m.delivery, m.force) ==>
                deliveries == old(deliveries) && attempts == old(attempts)
      ensures OnlyRow(old(deliveries), deliveries, m.delivery)
      ensures OnlyFirst(old(attempts), attempts, m.delivery)
      ensures reliable ==> Done(c, OfMessage(m), old(Now()), Now())
    {
      ghost var before := Now();
      TakeMessage(t, m);
      ghost var mid := Here();
      ProcessDelivery(t, m.delivery, m.force);
      StartJoins(old(Here()), mid, Here(), t, reliable);
      if reliable {
        MessageDone(c, m, before, Now());
      }
    }

    method TakeMessage(ghost t: ThreadId, m: Message)
      requires Valid() && t !in machine.threads && m in stream
      modifies this`stream, this`machine, this`trace
      ensures At(t, PdStart(m.delivery, m.force)) && Alone(old(machine.threads), machine.threads, t)
      ensures By(old(trace), trace, t, reliable)
      ensures stream == old(stream) - multiset{m}
    {
      stream := stream - multiset{m};
      Start(ReadStream(t, m, false));
    }

    method ProcessListed(ghost t: ThreadId, d: DeliveryId)
      requires Valid() && t !in machine.threads && d in deliveries && deliveries[d].status == Pending
      modifies this`deliveries, this`attempts, this`machine, this`trace
      ensures Valid() && Alone(old(machine.threads), machine.threads, t) && t !in machine.threads
      ensures By(old(trace), trace, t, reliable)
      ensures OnlyRow(old(deliveries), deliveries, d)
      ensures reliable ==> deliveries[d].status != Pending && Done(c, OfPending(d), old(Now()), Now())
    {
      Start(Label.PollPending(t, d));
      ghost var mid := Here();
      ProcessDelivery(t, d, false);
      StartJoins(old(Here()), mid, Here(), t, reliable);
    }

    method RetryListed(ghost t: ThreadId, key: Key, now: int)
      requires Valid() && t !in machine.threads && Due(attempts, key, now)
      modifies this`deliveries, this`attempts, this`machine, this`trace
      ensures Valid() && Alone(old(machine.threads), machine.threads, t) && t !in machine.threads
      ensures By(old(trace), trace, t, reliable)
      ensures Kept(old(attempts), attempts, key)
      ensures reliable ==> Done(c, OfRetry(key, now), old(Now()), Now())
      ensures reliable ==>
                Measure.RetriesLeft(c.maxRetries, attempts) < Measure.RetriesLeft(c.maxRetries, old(attempts))
    {
      Start(PollRetry(t, key, now));
      ghost var mid := Here();
      RetryAttempt(t, key);
      StartJoins(old(Here()), mid, Here(), t, reliable);
      if reliable {
        RetryDone(c, key, now, old(Now()), Now());
      }
    }

    /** One tick of the catch-up poll: the pending deliveries that have waited longest, at most 100 of them, are
        processed. */
    method PollPending(ghost t: ThreadId) returns (ghost page: seq<DeliveryId>)
      requires Valid() && t !in machine.threads
      modifies this`deliveries, this`attempts, this`machine, this`trace
      ensures Valid() && Alone(old(machine.threads), machine.threads, t) && t !in machine.threads
      ensures By(old(trace), trace, t, reliable)
      ensures page == [] || OldestPage(old(deliveries), page)
      ensures reliable ==> OldestPage(old(deliveries), page) && PageServed(deliveries, page, |page|)
      ensures reliable ==> Serves(c, old(Now()), PendingCalls(page), Now())
      ensures reliable ==> Patience.Tick(Patience.PendingOf(old(deliveries)), Patience.PendingOf(deliveries))
    {
      page := [];
      var ok, _ := Read();
      if !ok {
        return;
      }
      var listed := Patience.Page(Patience.PendingOf(deliveries), Patience.LIMIT);
      page := listed;
      PageIsOldest(deliveries, page);
      ProcessPage(t, listed);
      if reliable {
        PageIsServed(old(deliveries), deliveries, page);
      }
    }

    method ProcessPage(ghost t: ThreadId, page: seq<DeliveryId>)
      requires Valid() && t !in machine.threads
      requires PendingPage(deliveries, page)
      modifies this`deliveries, this`attempts, this`machine, this`trace
      ensures Valid() && Alone(old(machine.threads), machine.threads, t) && t !in machine.threads
      ensures By(old(trace), trace, t, reliable)
      ensures Untouched(old(deliveries), deliveries, page)
      ensures reliable ==> PageServed(deliveries, page, |page|)
      ensures reliable ==> Serves(c, old(Now()), PendingCalls(page), Now())
    {
      NothingServed();
      assert page[..0] == [] && PendingCalls([]) == [];
      PageStarts(deliveries, page, reliable);
      for i := 0 to |page|
        invariant Valid() && Alone(old(machine.threads), machine.threads, t) && t !in machine.threads
        invariant By(old(trace), trace, t, reliable)
        invariant Paged(old(deliveries), deliveries, page, i, reliable)
        invariant reliable ==> Serves(c, old(Now()), PendingCalls(page[..i]), Now())
      {
        StillPending(old(deliveries), deliveries, page, i, reliable);
        ghost var mid := deliveries;
        ProcessNext(t, page, i, old(Now()));
        PageGoesOn(old(deliveries), mid, deliveries, page, i, reliable);
      }
      assert page[..|page|] == page;
      PageEnds(old(deliveries), deliveries, page, reliable);
    }

    method ProcessNext(ghost t: ThreadId, page: seq<DeliveryId>, i: nat, ghost before: Tables)
      requires Valid() && t !in machine.threads && i < |page|
      requires page[i] in deliveries && deliveries[page[i]].status == Pending
      requires reliable ==> Serves(c, before, PendingCalls(page[..i]), Now())
      modifies this`deliveries, this`attempts, this`machine, this`trace
      ensures Valid() && Alone(old(machine.threads), machine.threads, t) && t !in machine.threads
      ensures By(old(trace), trace, t, reliable)
      ensures OnlyRow(old(deliveries), deliveries, page[i])
      ensures reliable ==> deliveries[page[i]].status != Pending
      ensures reliable ==> Serves(c, before, PendingCalls(page[..i + 1]), Now())
    {
      ghost var mid := Now();
      ProcessListed(t, page[i]);
      TablesAreProper();
      if reliable {
        PendingServed(c, before, mid, Now(), page, i);
      }
    }

    /** One tick of the retry poll at time `now`: the attempts that have been due longest, at most 100 of them, are taken
        off the schedule. */
    method PollRetries(ghost t: ThreadId, now: int) returns (page: seq<Key>)
      requires Valid() && t !in machine.threads
      modifies this`deliveries, this`attempts, this`machine, this`trace
      ensures Valid() && Alone(old(machine.threads), machine.threads, t) && t !in machine.threads
      ensures By(old(trace), trace, t, reliable)
      ensures page == [] || Schedule.DuePage(old(attempts), page, now)
      ensures reliable ==> Schedule.DuePage(old(attempts), page, now) && Cleared(attempts, page)
      ensures reliable ==> Serves(c, old(Now()), RetryCalls(page, now), Now())
      ensures reliable ==>
                && Patience.IsPage(DueTimes(old(attempts), now), page, Patience.LIMIT)
                && Measure.RetriesLeft(c.maxRetries, attempts) + |page|
                   <= Measure.RetriesLeft(c.maxRetries, old(attempts))
    {
      page := [];
      var ok, _ := Read();
      if !ok {
        return;
      }
      page := Patience.Page(DueTimes(attempts, now), Patience.LIMIT);
      PageIsDue(attempts, page, now);
      RetryPage(t, page, now);
      if reliable {
        RetryPageClears(c, old(Now()), page, now, Now());
      }
    }

    method RetryPage(ghost t: ThreadId, page: seq<Key>, now: int)
      requires Valid() && t !in machine.threads
      requires Patience.IsPage(DueTimes(attempts, now), page, Patience.LIMIT)
      modifies this`deliveries, this`attempts, this`machine, this`trace
      ensures Valid() && Alone(old(machine.threads), machine.threads, t) && t !in machine.threads
      ensures By(old(trace), trace, t, reliable)
      ensures reliable ==> Serves(c, old(Now()), RetryCalls(page, now), Now())
      ensures reliable ==>
                Measure.RetriesLeft(c.maxRetries, attempts) + |page|
                <= Measure.RetriesLeft(c.maxRetries, old(attempts))
    {
      NothingServed();
      assert page[..0] == [] && RetryCalls([], now) == [];
      DueStarts(attempts, page, now);
      for i := 0 to |page|
        invariant Valid() && Alone(old(machine.threads), machine.threads, t) && t !in machine.threads
        invariant By(old(trace), trace, t, reliable)
        invariant StillDue(attempts, page, i, now)
        invariant reliable ==> Serves(c, old(Now()), RetryCalls(page[..i], now), Now())
      {
        RetryNext(t, page, i, now, old(Now()));
      }
      assert page[..|page|] == page;
      if reliable {
        RetryPageUsesUp(c, old(Now()), RetryCalls(page, now), Now());
      }
    }

    method RetryNext(ghost t: ThreadId, page: seq<Key>, i: nat, now: int, ghost before: Tables)
      requires Valid() && t !in machine.threads && i < |page| && StillDue(attempts, page, i, now)
      requires reliable ==> Serves(c, before, RetryCalls(page[..i], now), Now())
      modifies this`deliveries, this`attempts, this`machine, this`trace
      ensures Valid() && Alone(old(machine.threads), machine.threads, t) && t !in machine.threads
      ensures By(old(trace), trace, t, reliable)
      ensures StillDue(attempts, page, i + 1, now)
      ensures reliable ==> Serves(c, before, RetryCalls(page[..i + 1], now), Now())
    {
      ghost var mid := Now();
      DueNow(attempts, page, i, now);
      RetryListed(t, page[i], now);
      DueGoesOn(old(attempts), attempts, page, i, now);
      TablesAreProper();
      if reliable {
        RetryServed(c, before, mid, Now(), page, i, now);
      }
    }

    // ------------------------------------------------ handlers

    /** Adding a message to the stream. */
    method Publish(m: Message) returns (ok: bool, ghost reply: Reply)
      modifies this`stream
      ensures ok <==> reply == Ok
      ensures stream == if reply != Refused then old(stream) + multiset{m} else old(stream)
      ensures reliable ==> ok
    {
      var applied;
      ok, applied, reply := Write();
      if applied {
        stream := stream + multiset{m};
      }
    }

    /** Inserting a delivery under the ID that the database draws: it fails when the key is taken. */
    method CreateDelivery(ghost t: ThreadId, source: SourceId, mode: Mode, idem: string, headers: Json, payload: Json,
                          id: DeliveryId, now: int)
      returns (ok: bool)
      requires At(t, IgInsert(source, mode, idem, headers, payload)) && id !in machine.hist.home
      modifies this`deliveries, this`machine, this`trace
      ensures Since(old(machine.threads), old(trace), t)
      ensures if ok then At(t, if mode == Record then IgRecord(id) else IgPublish(id)) else t !in machine.threads
      ensures !ok && Taken(old(deliveries), source, idem) ==> deliveries == old(deliveries)
      ensures ok ==>
                && !Taken(old(deliveries), source, idem) && id !in old(deliveries)
                && deliveries == old(deliveries)[id := Row(source, idem, headers, payload, now)]
      ensures deliveries == old(deliveries)
           || deliveries == old(deliveries)[id := Row(source, idem, headers, payload, now)]
      ensures reliable && source in sources && !Taken(old(deliveries), source, idem) ==> ok
    {
      NewId(id);
      ghost var inserted, r;
      ok, inserted, r := InsertDelivery(source, idem, headers, payload, id, now);
      ghost var next := if mode == Record then IgRecord(id) else IgPublish(id);
      ghost var row := Row(source, idem, headers, payload, now);
      Go(t, Ch(r).(newId := id, now := now),
         if inserted then Move(NewDelivery(id, row), if ok then Some(next) else None) else EXIT);
    }

    method InsertDelivery(source: SourceId, idem: string, headers: Json, payload: Json, id: DeliveryId, now: int)
      returns (ok: bool, ghost inserted: bool, ghost reply: Reply)
      modifies this`deliveries
      ensures inserted <==>
              && reply != Refused && source in sources
              && forall d :: d in old(deliveries) ==>
                   old(deliveries)[d].source != source || old(deliveries)[d].idem != idem
      ensures ok <==> inserted && reply == Ok
      ensures deliveries ==
              if inserted then old(deliveries)[id := Row(source, idem, headers, payload, now)] else old(deliveries)
      ensures inserted ==>
                && deliveries[id].source == source && deliveries[id].idem == idem
                && deliveries[id].headers == headers && deliveries[id].payload == payload
                && deliveries[id].receivedAt == now && deliveries[id].status == Pending
                && deliveries[id].transformedPayload == None && deliveries[id].transformedHeaders == None
      ensures reliable ==> reply == Ok
    {
      var applied;
      ok, applied, reply := Write();
      ok := ok && source in sources && !Taken(deliveries, source, idem);
      inserted := applied && source in sources && !Taken(deliveries, source, idem);
      if applied && source in sources && !Taken(deliveries, source, idem) {
        deliveries := deliveries[id := Row(source, idem, headers, payload, now)];
      }
    }

    lemma NewId(id: DeliveryId)
      requires Valid() && id !in machine.hist.home
      ensures id !in deliveries
    {
      TablesAreOk();
    }

    method AnnounceDelivery(ghost t: ThreadId, mode: Mode, id: DeliveryId)
      requires At(t, if mode == Record then IgRecord(id) else IgPublish(id))
      modifies this`deliveries, this`stream, this`machine, this`trace
      ensures Since(old(machine.threads), old(trace), t) && t !in machine.threads
      ensures Toggled(old(deliveries), deliveries, id)
      ensures reliable && mode == Record && id in old(deliveries) ==>
                deliveries == old(deliveries)[id := old(deliveries)[id].(status := Recorded)] && stream == old(stream)
      ensures reliable && mode == Active ==>
                deliveries == old(deliveries) && stream == old(stream) + multiset{Message(id, false)}
    {
      if mode == Record {
        var _, r := UpdateStatus(id, Recorded);
        Go(t, Ch(r), Move(When(r != Refused, SetStatus(id, Recorded)), None));
      } else {
        var _, r := Publish(Message(id, false));
        Go(t, Ch(r), Move(When(r != Refused, Effect.Publish(Message(id, false))), None));
      }
    }

    /** A webhook arrives: it is stored under its idempotency key, and then recorded or published.  A key that is
        taken stores nothing. */
    method Ingest(ghost t: ThreadId, source: SourceId, idem: string, headers: Json, payload: Json,
                  id: DeliveryId, now: int)
      returns (stored: bool)
      requires Valid() && t !in machine.threads && id !in machine.hist.home
      modifies this`deliveries, this`stream, this`machine, this`trace
      ensures Valid() && Alone(old(machine.threads), machine.threads, t) && t !in machine.threads
      ensures By(old(trace), trace, t, reliable)
      ensures source !in sources || (exists d :: d in old(deliveries)
                                       && old(deliveries)[d].source == source && old(deliveries)[d].idem == idem) ==>
                !stored && deliveries == old(deliveries) && stream == old(stream)
      ensures reliable && source in sources && (forall d :: d in old(deliveries) ==>
                old(deliveries)[d].source != source || old(deliveries)[d].idem != idem) ==>
                stored
      ensures stored ==> StoredAs(old(deliveries), deliveries, id, Row(source, idem, headers, payload, now))
      ensures stored ==> id in deliveries
      ensures id in deliveries ==>
                && deliveries[id].source == source && deliveries[id].idem == idem
                && deliveries[id].headers == headers && deliveries[id].payload == payload
                && deliveries[id].receivedAt == now && deliveries[id].status in {Pending, Recorded}
                && deliveries[id].transformedPayload == None && deliveries[id].transformedHeaders == None
      ensures !stored ==>
                deliveries == old(deliveries)
                || deliveries == old(deliveries)[id := Row(source, idem, headers, payload, now)]
      ensures reliable && stored ==>
                if sources[source].mode == Record then deliveries[id].status == Recorded && stream == old(stream)
                else deliveries[id].status == Pending && stream == old(stream) + multiset{Message(id, false)}
      ensures reliable ==>
                && (stored <==> source in sources && !Taken(old(deliveries), source, idem))
                && Done(c, OfPost(source, Row(source, idem, headers, payload, now), id), old(Now()), Now())
    {
      NewId(id);
      ghost var before := Now();
      stored := false;
      if source in sources {
        stored := IngestFor(t, source, sources[source].mode, idem, headers, payload, id, now);
      }
      if reliable {
        PostDone(c, source, Row(source, idem, headers, payload, now), id, before, Now());
      }
    }

    method IngestFor(ghost t: ThreadId, source: SourceId, mode: Mode, idem: string, headers: Json, payload: Json,
                     id: DeliveryId, now: int)
      returns (stored: bool)
      requires Valid() && t !in machine.threads && id !in machine.hist.home
      requires source in sources && sources[source].mode == mode
      modifies this`deliveries, this`stream, this`machine, this`trace
      ensures Valid() && Alone(old(machine.threads), machine.threads, t) && t !in machine.threads
      ensures By(old(trace), trace, t, reliable)
      ensures Taken(old(deliveries), source, idem) ==>
                !stored && deliveries == old(deliveries) && stream == old(stream)
      ensures stored ==> StoredAs(old(deliveries), deliveries, id, Row(source, idem, headers, payload, now))
      ensures !stored ==>
                deliveries == old(deliveries)
                || deliveries == old(deliveries)[id := Row(source, idem, headers, payload, now)]
      ensures reliable && !Taken(old(deliveries), source, idem) ==>
                stored && Accepted(old(deliveries), deliveries, old(stream), stream, mode, id,
                                   Row(source, idem, headers, payload, now))
    {
      Start(Post(t, source, idem, headers, payload));
      ghost var mid := Here();
      stored := IngestLoaded(t, source, mode, idem, headers, payload, id, now);
      StartJoins(old(Here()), mid, Here(), t, reliable);
    }

    method IngestLoaded(ghost t: ThreadId, source: SourceId, mode: Mode, idem: string, headers: Json, payload: Json,
                        id: DeliveryId, now: int)
      returns (stored: bool)
      requires At(t, IgInsert(source, mode, idem, headers, payload)) && id !in machine.hist.home
      modifies this`deliveries, this`stream, this`machine, this`trace
      ensures Since(old(machine.threads), old(trace), t) && t !in machine.threads
      ensures Taken(old(deliveries), source, idem) ==>
                !stored && deliveries == old(deliveries) && stream == old(stream)
      ensures stored ==> StoredAs(old(deliveries), deliveries, id, Row(source, idem, headers, payload, now))
      ensures !stored ==>
                stream == old(stream)
                && (deliveries == old(deliveries)
                    || deliveries == old(deliveries)[id := Row(source, idem, headers, payload, now)])
      ensures reliable && source in sources && !Taken(old(deliveries), source, idem) ==>
                stored && Accepted(old(deliveries), deliveries, old(stream), stream, mode, id,
                                   Row(source, idem, headers, payload, now))
    {
      stored := CreateDelivery(t, source, mode, idem, headers, payload, id, now);
      if stored {
        ghost var mid, inserted := Here(), deliveries;
        AnnounceDelivery(t, mode, id);
        CallsJoin(old(Here()), mid, Here(), t, reliable);
        StoredAndAnnounced(old(deliveries), inserted, deliveries, id, Row(source, idem, headers, payload, now));
      }
    }

    /** Setting a recorded delivery back to pending, and publishing a forced message for it. */
    method ResetAndPublish(ghost t: ThreadId, d: DeliveryId)
      requires At(t, FwReset(d))
      modifies this`deliveries, this`stream, this`machine, this`trace
      ensures Since(old(machine.threads), old(trace), t) && t !in machine.threads
      ensures Toggled(old(deliveries), deliveries, d)
      ensures reliable && d in deliveries ==> deliveries[d] == old(deliveries)[d].(status := Pending)
      ensures reliable ==> stream == old(stream) + multiset{Message(d, true)}
    {
      var ok := ResetStatus(t, d);
      if ok {
        ghost var mid, reset := Here(), deliveries;
        var _ := PublishForced(t, d);
        ToggledTwice(old(deliveries), reset, deliveries, d);
        CallsJoin(old(Here()), mid, Here(), t, reliable);
      }
    }

    method ResetStatus(ghost t: ThreadId, d: DeliveryId) returns (ok: bool)
      requires At(t, FwReset(d))
      modifies this`deliveries, this`machine, this`trace
      ensures Since(old(machine.threads), old(trace), t)
      ensures if ok then At(t, FwPublish(d)) else t !in machine.threads
      ensures Toggled(old(deliveries), deliveries, d)
      ensures reliable ==> ok && (d in deliveries ==> deliveries[d] == old(deliveries)[d].(status := Pending))
    {
      ghost var r;
      ok, r := UpdateStatus(d, Pending);
      Go(t, Ch(r), Move(When(r != Refused, SetStatus(d, Pending)), if ok then Some(FwPublish(d)) else None));
    }

    /** If publishing reports a failure, the status is set back to recorded, unless that fails, too. */
    method PublishForced(ghost t: ThreadId, d: DeliveryId) returns (ok: bool)
      requires At(t, FwPublish(d))
      modifies this`deliveries, this`stream, this`machine, this`trace
      ensures Since(old(machine.threads), old(trace), t) && t !in machine.threads
      ensures ok ==> deliveries == old(deliveries) && stream == old(stream) + multiset{Message(d, true)}
      ensures deliveries == old(deliveries) || deliveries == WithStatus(old(deliveries), d, Recorded)
      ensures stream == old(stream) || stream == old(stream) + multiset{Message(d, true)}
      ensures reliable ==> ok
    {
      ok := SendForced(t, d);
      if !ok {
        UndoForward(t, d);
      }
    }

    method SendForced(ghost t: ThreadId, d: DeliveryId) returns (ok: bool)
      requires At(t, FwPublish(d))
      modifies this`stream, this`machine, this`trace
      ensures Since(old(machine.threads), old(trace), t)
      ensures if ok then t !in machine.threads else At(t, FwUndo(d))
      ensures stream == old(stream) + multiset{Message(d, true)} || (!ok && stream == old(stream))
      ensures reliable ==> ok
    {
      ghost var r;
      ok, r := Publish(Message(d, true));
      Go(t, Ch(r), Move(When(r != Refused, Effect.Publish(Message(d, true))), if ok then None else Some(FwUndo(d))));
    }

    method UndoForward(ghost t: ThreadId, d: DeliveryId)
      requires At(t, FwUndo(d))
      modifies this`deliveries, this`machine, this`trace
      ensures Since(old(machine.threads), old(trace), t) && t !in machine.threads
      ensures deliveries == old(deliveries) || deliveries == WithStatus(old(deliveries), d, Recorded)
    {
      var _, r := UpdateStatus(d, Recorded);
      Go(t, Ch(r), Move(When(r != Refused, SetStatus(d, Recorded)), None));
    }

    /** Forwarding one delivery: only a recorded delivery of this source. */
    method ForwardDelivery(ghost t: ThreadId, source: SourceId, d: DeliveryId) returns (found: bool)
      requires Valid() && t !in machine.threads
      modifies this`deliveries, this`stream, this`machine, this`trace
      ensures Valid() && Alone(old(machine.threads), machine.threads, t) && t !in machine.threads
      ensures By(old(trace), trace, t, reliable)
      ensures if d in old(deliveries) && old(deliveries)[d].source == source && old(deliveries)[d].status == Recorded
              then ForwardedOne(old(deliveries), deliveries, old(stream), stream, d, reliable)
              else deliveries == old(deliveries) && stream == old(stream)
      ensures reliable ==> (found <==> d in old(deliveries) && old(deliveries)[d].source == source)
      ensures reliable ==> Done(c, OfForward(source, d), old(Now()), Now())
    {
      ghost var before := Now();
      Start(Forward(t, source, d));
      ghost var mid := Here();
      found := ForwardLoaded(t, source, d);
      StartJoins(old(Here()), mid, Here(), t, reliable);
      if reliable {
        ForwardDone(c, source, d, before, Now());
      }
    }

    method ForwardLoaded(ghost t: ThreadId, source: SourceId, d: DeliveryId) returns (found: bool)
      requires At(t, FwLoad(source, d))
      modifies this`deliveries, this`stream, this`machine, this`trace
      ensures Since(old(machine.threads), old(trace), t) && t !in machine.threads
      ensures if Forwardable(old(deliveries), source, d)
              then ForwardedOne(old(deliveries), deliveries, old(stream), stream, d, reliable)
              else deliveries == old(deliveries) && stream == old(stream)
      ensures reliable ==> (found <==> d in old(deliveries) && old(deliveries)[d].source == source)
    {
      var recorded;
      found, recorded := LoadForForward(t, source, d);
      if recorded {
        ResetAndPublish(t, d);
      }
    }

    method LoadForForward(ghost t: ThreadId, source: SourceId, d: DeliveryId) returns (found: bool, recorded: bool)
      requires At(t, FwLoad(source, d))
      modifies this`machine, this`trace
      ensures Since(old(machine.threads), old(trace), t)
      ensures if recorded then At(t, FwReset(d)) else t !in machine.threads
      ensures recorded ==> Forwardable(deliveries, source, d)
      ensures reliable && Forwardable(deliveries, source, d) ==> recorded
      ensures reliable ==> (found <==> d in deliveries && deliveries[d].source == source)
    {
      var row, r := GetDelivery(d);
      found := row.Some? && row.value.source == source;
      recorded := found && row.value.status == DeliveryStatus.Recorded;
      Go(t, Ch(r), if recorded then Goto(FwReset(d)) else EXIT);
    }

    method ForwardRecorded(ghost t: ThreadId, d: DeliveryId)
      requires Valid() && t !in machine.threads && d in deliveries && deliveries[d].status == Recorded
      modifies this`deliveries, this`stream, this`machine, this`trace
      ensures Valid() && Alone(old(machine.threads), machine.threads, t) && t !in machine.threads
      ensures By(old(trace), trace, t, reliable)
      ensures Toggled(old(deliveries), deliveries, d)
      ensures reliable ==> deliveries[d] == old(deliveries)[d].(status := Pending)
      ensures reliable ==> stream == old(stream) + multiset{Message(d, true)}
    {
      Start(ForwardListed(t, d));
      ResetAndPublish(t, d);
    }

    /** Forwarding the recorded ones among the 200 newest deliveries of a source. */
    method ForwardAllRecorded(ghost t: ThreadId, source: SourceId) returns (page: seq<DeliveryId>)
      requires Valid() && t !in machine.threads
      modifies this`deliveries, this`stream, this`machine, this`trace
      ensures Valid() && Alone(old(machine.threads), machine.threads, t) && t !in machine.threads
      ensures By(old(trace), trace, t, reliable)
      ensures page == [] || NewestPage(old(deliveries), source, page)
      ensures OthersKept(old(deliveries), deliveries, page)
      ensures reliable ==>
                && NewestPage(old(deliveries), source, page) && Forwarded(old(deliveries), deliveries, page)
                && stream == old(stream) + ForcedFor(old(deliveries), page)
      ensures reliable ==> Done(c, OfForwardAll(source, page), old(Now()), Now())
    {
      page := [];
      var ok, _ := Read();
      if !ok {
        return;
      }
      page := Patience.Page(Ages(deliveries, source), 200);
      PageIsNewest(deliveries, source, page);
      ForwardPage(t, page, deliveries);
      if reliable {
        ForwardAllDone(c, source, page, old(Now()), Now());
      }
    }

    /** Of the listed deliveries, those that were recorded. */
    method ForwardPage(ghost t: ThreadId, page: seq<DeliveryId>, listed: map<DeliveryId, Delivery>)
      requires Valid() && t !in machine.threads && listed == deliveries
      requires forall i :: 0 <= i < |page| ==> page[i] in listed
      requires forall i, j :: 0 <= i < j < |page| ==> page[i] != page[j]
      modifies this`deliveries, this`stream, this`machine, this`trace
      ensures Valid() && Alone(old(machine.threads), machine.threads, t) && t !in machine.threads
      ensures By(old(trace), trace, t, reliable)
      ensures OthersKept(listed, deliveries, page)
      ensures reliable ==> Forwarded(listed, deliveries, page) && stream == old(stream) + ForcedFor(listed, page)
    {
      for i := 0 to |page|
        invariant Valid() && Alone(old(machine.threads), machine.threads, t) && t !in machine.threads
        invariant By(old(trace), trace, t, reliable)
        invariant OthersKept(listed, deliveries, page[..i])
        invariant reliable ==>
                    Forwarded(listed, deliveries, page[..i]) && stream == old(stream) + ForcedFor(listed, page[..i])
      {
        NotYetForwarded(listed, deliveries, page, i);
        ghost var mid, streamMid := deliveries, stream;
        ForwardIfRecorded(t, page[i], listed[page[i]].status);
        ForwardStep(listed, mid, deliveries, old(stream), streamMid, stream, page, i, reliable);
      }
      assert page[..|page|] == page;
    }

    method ForwardIfRecorded(ghost t: ThreadId, d: DeliveryId, status: DeliveryStatus)
      requires Valid() && t !in machine.threads && d in deliveries && deliveries[d].status == status
      modifies this`deliveries, this`stream, this`machine, this`trace
      ensures Valid() && Alone(old(machine.threads), machine.threads, t) && t !in machine.threads
      ensures By(old(trace), trace, t, reliable)
      ensures ForwardedOne(old(deliveries), deliveries, old(stream), stream, d, reliable)
    {
      if status == Recorded {
        ForwardRecorded(t, d);
      }
    }

    // ------------------------------------------------ edits

    method EditSource(source: SourceId, def: Source)
      requires Valid()
      modifies this`sources, this`machine, this`trace
      ensures Valid() && machine.threads == old(machine.threads) && machine.hist == old(machine.hist)
      ensures sources == old(sources)[source := def]
      ensures trace == old(trace) + [PutSource(source, def)]
      ensures Done(c, OfSource(source, def), old(Now()), Now())
    {
      sources := sources[source := def];
      Do(PutSource(source, def));
    }

    /** Adding or changing an action; an action stays with its source. */
    method EditAction(a: ActionId, act: Action)
      requires Valid() && act.source in sources && a !in machine.hist.retired
      requires a in actions ==> actions[a].source == act.source
      modifies this`actions, this`machine, this`trace
      ensures Valid() && machine.threads == old(machine.threads) && machine.hist == old(machine.hist)
      ensures actions == old(actions)[a := act]
      ensures trace == old(trace) + [PutAction(a, act)]
      ensures Done(c, OfAction(a, act), old(Now()), Now())
    {
      actions := actions[a := act];
      Do(PutAction(a, act));
    }
  }
}

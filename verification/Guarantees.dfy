/** The guarantees that hold in every reachable state, whatever fails. */
module Guarantees {
  import opened Types
  import opened Machine
  import opened Safety
  import Verdict

  lemma ReachableInv(c: Config, s: State)
    requires Reachable(c, s)
    ensures Inv(c, s)
  {
    var labels :| Traced(c, labels, s);
    TraceIsRun(c, labels, s);
    RunKeeps(c, INIT, labels, s);
  }

  // -------------------------------------------------- at most one dispatch, at most one success

  /** Before the call for an attempt, all earlier attempts were called and failed, in order. */
  lemma {:induction false} FailedBefore(log: seq<Event>, i: nat, m: int)
    requires LogOk(log) && i < |log| && 1 <= m < log[i].key.number
    ensures exists j :: 0 <= j < i && log[j].key == Key(log[i].key.delivery, log[i].key.action, m) && !log[j].success
    decreases log[i].key.number
  {
    var k := log[i].key;
    assert CalledWith(log[..i], Prev(k), false);
    var j :| 0 <= j < |log[..i]| && log[..i][j].key == Prev(k) && log[..i][j].success == false;
    assert log[j].key == Prev(k) && !log[j].success;
    if m < k.number - 1 {
      FailedBefore(log, j, m);
    }
  }

  ghost predicate SamePair(k: Key, k': Key) {
    k.delivery == k'.delivery && k.action == k'.action
  }

  /** No attempt is ever dispatched twice, and nothing is dispatched after a success. */
  lemma AtMostOnce(c: Config, s: State)
    requires Reachable(c, s)
    ensures forall i, j :: 0 <= i < j < |s.hist.log| ==> s.hist.log[i].key != s.hist.log[j].key
    ensures forall i, j :: 0 <= i < j < |s.hist.log| && s.hist.log[i].success ==>
              !SamePair(s.hist.log[i].key, s.hist.log[j].key)
  {
    ReachableInv(c, s);
    forall i, j | 0 <= i < j < |s.hist.log| && s.hist.log[i].success
      ensures !SamePair(s.hist.log[i].key, s.hist.log[j].key)
    {
      NothingAfterSuccess(s.hist.log, i, j);
    }
  }

  /** A retry is dispatched only after all earlier attempts of its action on its delivery were dispatched and failed. */
  lemma RetriesFollowFailures(c: Config, s: State, i: nat, m: int)
    requires Reachable(c, s) && i < |s.hist.log| && 1 <= m < s.hist.log[i].key.number
    ensures exists j :: 0 <= j < i && !s.hist.log[j].success
              && s.hist.log[j].key == Key(s.hist.log[i].key.delivery, s.hist.log[i].key.action, m)
  {
    ReachableInv(c, s);
    FailedBefore(s.hist.log, i, m);
  }

  lemma NothingAfterSuccess(log: seq<Event>, i: nat, j: nat)
    requires LogOk(log) && i < j < |log| && log[i].success
    requires log[i].key.number >= 1 && log[j].key.number >= 1
    ensures !SamePair(log[i].key, log[j].key)
  {
    if SamePair(log[i].key, log[j].key) {
      var n, m := log[i].key.number, log[j].key.number;
      assert log[i].key != log[j].key;
      if n < m {
        FailedBefore(log, j, n);
      } else {
        FailedBefore(log, i, m);
      }
    }
  }

  // -------------------------------------------------- the attempt chain

  lemma {:induction false} ChainDown(att: Attempts, k: Key, m: int)
    requires ChainOk(att) && k in att && 1 <= m <= k.number
    ensures Key(k.delivery, k.action, m) in att
    ensures m < k.number ==> att[Key(k.delivery, k.action, m)].status == AttemptFailed
    decreases k.number
  {
    if m < k.number {
      if m < k.number - 1 {
        ChainDown(att, Prev(k), m);
      }
    }
  }

  /** The attempts of an action on a delivery are numbered from one without gaps, at most
      max(1, maxRetries) of them, all failed but the last; only a failed one with retries left is scheduled. */
  lemma AttemptChain(c: Config, s: State)
    requires Reachable(c, s)
    ensures forall k, m :: k in s.attempts && 1 <= m <= k.number ==> Key(k.delivery, k.action, m) in s.attempts
    ensures forall k, m :: k in s.attempts && 1 <= m < k.number ==>
              s.attempts[Key(k.delivery, k.action, m)].status == AttemptFailed
    ensures forall k :: k in s.attempts ==> k.number == 1 || 1 < k.number <= c.maxRetries
    ensures forall k :: k in s.attempts && s.attempts[k].nextRetryAt.Some? ==>
              s.attempts[k].status == AttemptFailed && k.number < c.maxRetries
  {
    ReachableInv(c, s);
    forall k, m | k in s.attempts && 1 <= m <= k.number
      ensures Key(k.delivery, k.action, m) in s.attempts
      ensures m < k.number ==> s.attempts[Key(k.delivery, k.action, m)].status == AttemptFailed
    {
      ChainDown(s.attempts, k, m);
    }
    assert forall k :: k in s.attempts ==> RowOk(c.maxRetries, s.hist.log, k, s.attempts[k]);
  }

  // -------------------------------------------------- a bound on the work for one delivery

  ghost function CalledKeys(log: seq<Event>, d: DeliveryId): set<Key> {
    set i | 0 <= i < |log| && log[i].key.delivery == d :: log[i].key
  }

  /** How many dispatcher calls were made for a delivery. */
  ghost function CallCount(log: seq<Event>, d: DeliveryId): nat {
    if log == [] then 0
    else CallCount(log[..|log| - 1], d) + (if log[|log| - 1].key.delivery == d then 1 else 0)
  }

  ghost function Tried(log: seq<Event>, d: DeliveryId): set<ActionId> {
    set i | 0 <= i < |log| && log[i].key.delivery == d :: log[i].key.action
  }

  lemma {:induction false} CallsDistinct(log: seq<Event>, d: DeliveryId)
    requires forall i, j :: 0 <= i < j < |log| ==> log[i].key != log[j].key
    ensures CallCount(log, d) == |CalledKeys(log, d)|
  {
    if log == [] {
      assert CalledKeys(log, d) == {};
    } else {
      var init, e := log[..|log| - 1], log[|log| - 1];
      CallsDistinct(init, d);
      CallsMore(init, e, d);
      assert init + [e] == log && e.key !in CalledKeys(init, d);
    }
  }

  lemma CallsMore(log: seq<Event>, e: Event, d: DeliveryId)
    ensures CalledKeys(log + [e], d) == CalledKeys(log, d) + if e.key.delivery == d then {e.key} else {}
  {
    var log' := log + [e];
    forall k | k in CalledKeys(log', d)
      ensures k in CalledKeys(log, d) || (k == e.key && e.key.delivery == d)
    {
      var i :| 0 <= i < |log'| && log'[i].key == k && k.delivery == d;
      assert i < |log| ==> log[i] == log'[i];
    }
    forall k | k in CalledKeys(log, d)
      ensures k in CalledKeys(log', d)
    {
      var i :| 0 <= i < |log| && log[i].key == k;
      assert log'[i] == log[i];
    }
    assert log'[|log|] == e;
  }

  ghost function Grid(d: DeliveryId, acts: set<ActionId>, m: nat): set<Key> {
    set a, n | a in acts && 1 <= n <= m :: Key(d, a, n)
  }

  lemma {:induction false} ColumnSize(d: DeliveryId, a: ActionId, m: nat)
    ensures |Grid(d, {a}, m)| == m
  {
    if m == 0 {
      assert Grid(d, {a}, m) == {};
    } else {
      ColumnSize(d, a, m - 1);
      assert Grid(d, {a}, m) == Grid(d, {a}, m - 1) + {Key(d, a, m)};
    }
  }

  lemma {:induction false} GridSize(d: DeliveryId, acts: set<ActionId>, m: nat)
    ensures |Grid(d, acts, m)| == |acts| * m
  {
    if acts == {} {
      assert Grid(d, acts, m) == {};
    } else {
      var a :| a in acts;
      GridSize(d, acts - {a}, m);
      ColumnSize(d, a, m);
      GridSplit(d, acts, a, m);
      assert |acts| * m == (|acts| - 1) * m + m;
    }
  }

  lemma GridSplit(d: DeliveryId, acts: set<ActionId>, a: ActionId, m: nat)
    requires a in acts
    ensures |Grid(d, acts, m)| == |Grid(d, acts - {a}, m)| + |Grid(d, {a}, m)|
  {
    var rest, column := Grid(d, acts - {a}, m), Grid(d, {a}, m);
    forall k
      ensures k in Grid(d, acts, m) <==> k in rest + column
    {
    }
    assert Grid(d, acts, m) == rest + column;
    assert rest !! column;
  }

  /** A delivery costs at most max(1, maxRetries) dispatcher calls for each action it was ever tried on. */
  lemma DispatchBound(c: Config, s: State, d: DeliveryId)
    requires Reachable(c, s)
    ensures CallCount(s.hist.log, d) <= |Tried(s.hist.log, d)| * (if c.maxRetries > 1 then c.maxRetries else 1)
  {
    ReachableInv(c, s);
    var log, m := s.hist.log, Max(1, c.maxRetries);
    CallsDistinct(log, d);
    assert CalledKeys(log, d) <= Grid(d, Tried(log, d), m);
    SubsetSize(CalledKeys(log, d), Grid(d, Tried(log, d), m));
    GridSize(d, Tried(log, d), m);
  }

  // -------------------------------------------------- idempotent ingest

  lemma UniqueStep(c: Config, s: State, l: Label)
    requires UniqueOk(s) && Enabled(c, s, l)
    ensures UniqueOk(Step(c, s, l))
  {
    if l.Advance? {
      NewIsUnique(c, s, s.threads[l.t], l.ch);
      UniqueApply(s, Perform(c, s, s.threads[l.t], l.ch).effect);
    }
  }

  lemma NewIsUnique(c: Config, s: State, pc: Pc, ch: Choice)
    requires ChoiceOk(s, pc, ch)
    ensures var e := Perform(c, s, pc, ch).effect;
      e.NewDelivery? ==> !Taken(s.deliveries, e.row.source, e.row.idem)
  {
    if !pc.IgInsert? {
      OnlyIngestInserts(c, s, pc, ch);
    }
  }

  lemma OnlyIngestInserts(c: Config, s: State, pc: Pc, ch: Choice)
    requires ChoiceOk(s, pc, ch) && !pc.IgInsert?
    ensures !Perform(c, s, pc, ch).effect.NewDelivery?
  {
  }

  lemma UniqueApply(s: State, e: Effect)
    requires UniqueOk(s) && (e.NewDelivery? ==> !Taken(s.deliveries, e.row.source, e.row.idem))
    ensures UniqueOk(Apply(s, e))
  {
  }

  lemma {:induction false} UniqueRun(c: Config, labels: seq<Label>, s: State)
    requires Run(c, INIT, labels, s)
    ensures UniqueOk(s)
    decreases |labels|
  {
    if labels != [] {
      var init, l := labels[..|labels| - 1], labels[|labels| - 1];
      var m :| Run(c, INIT, init, m) && Enabled(c, m, l) && s == Step(c, m, l);
      UniqueRun(c, init, m);
      UniqueStep(c, m, l);
    }
  }

  /** However often an event is posted, and however often its message is delivered: one idempotency key, one
      delivery, and at most one successful dispatch for each action. */
  lemma IdempotentIngest(c: Config, s: State, i: nat, j: nat)
    requires Reachable(c, s)
    requires i < |s.hist.log| && j < |s.hist.log| && s.hist.log[i].success && s.hist.log[j].success
    requires var d, e := s.hist.log[i].key.delivery, s.hist.log[j].key.delivery;
      && d in s.deliveries && e in s.deliveries && s.hist.log[i].key.action == s.hist.log[j].key.action
      && s.deliveries[d].source == s.deliveries[e].source && s.deliveries[d].idem == s.deliveries[e].idem
    ensures i == j
  {
    var labels :| Traced(c, labels, s);
    TraceIsRun(c, labels, s);
    UniqueRun(c, labels, s);
    AtMostOnce(c, s);
    assert s.hist.log[i].key.delivery == s.hist.log[j].key.delivery;
    assert SamePair(s.hist.log[i].key, s.hist.log[j].key) && SamePair(s.hist.log[j].key, s.hist.log[i].key);
  }

  // -------------------------------------------------- verdicts are final

  ghost predicate SameRows(att: Attempts, att': Attempts, d: DeliveryId, a: ActionId) {
    && (forall n :: Key(d, a, n) in att <==> Key(d, a, n) in att')
    && (forall n :: Key(d, a, n) in att ==> att'[Key(d, a, n)].status == att[Key(d, a, n)].status)
  }

  lemma SameRowsSameFate(maxRetries: int, att: Attempts, att': Attempts, d: DeliveryId, a: ActionId)
    requires SameRows(att, att', d, a)
    ensures Verdict.Succeeded(att', d, a) <==> Verdict.Succeeded(att, d, a)
    ensures Verdict.Exhausted(maxRetries, att', d, a) <==> Verdict.Exhausted(maxRetries, att, d, a)
  {
    assert forall n :: Verdict.IsLatest(att, d, a, n) <==> Verdict.IsLatest(att', d, a, n);
  }

  /** Below a terminal latest attempt every row is failed, and no successor of a failed row is missing. */
  lemma TerminalChain(maxRetries: int, att: Attempts, k: Key)
    requires ChainOk(att) && Verdict.Terminal(maxRetries, att, k.delivery, k.action)
    requires forall x :: x in att ==> x.number >= 1
    ensures k in att ==> att[k].status != AttemptPending
    ensures k in att && att[k].status == AttemptFailed && k.number < maxRetries ==> Succ(k) in att
    ensures k.number == 1 ==> k in att
  {
    var d, a := k.delivery, k.action;
    var n :| Verdict.IsLatest(att, d, a, n) && att[Key(d, a, n)].status != AttemptPending
      && (att[Key(d, a, n)].status == AttemptFailed ==> n >= maxRetries);
    ChainDown(att, Key(d, a, n), 1);
    if k in att && k.number < n {
      ChainDown(att, Key(d, a, n), k.number);
      ChainDown(att, Key(d, a, n), k.number + 1);
    }
  }

  /** An insertion starts a chain or follows a failure with retries left; what is not pending stays as it is. */
  ghost predicate WriteOk(c: Config, s: State, e: Effect) {
    && (e.InsertRow? ==>
          CanInsert(s, e.key)
          && (e.key.number != 1 ==>
                Prev(e.key).number < c.maxRetries && Prev(e.key) in s.attempts
                && s.attempts[Prev(e.key)].status == AttemptFailed))
    && (e.UpdateRow? && e.key in s.attempts && s.attempts[e.key].status != AttemptPending ==>
          s.attempts[e.key].status == e.attempt.status == AttemptFailed)
  }

  ghost predicate WrittenBy(s: State, pc: Pc, e: Effect) {
    && (e.InsertRow? ==> pc.Insert? && e.key == pc.key && CanInsert(s, e.key))
    && (e.UpdateRow? ==>
          (pc.Settle? && e.key == pc.key) || (pc.Clear? && e.key == pc.prev && e.attempt.status == AttemptFailed))
  }

  lemma WhoWrites(c: Config, s: State, pc: Pc, ch: Choice)
    requires ChoiceOk(s, pc, ch)
    ensures WrittenBy(s, pc, Perform(c, s, pc, ch).effect)
  {
  }

  lemma WritesOk(c: Config, s: State, pc: Pc, e: Effect)
    requires RowsOk(c.maxRetries, s.attempts, s.hist.issued, s.hist.log) && TablesOk(s)
    requires PcOk(c.maxRetries, s.attempts, s.hist.issued, s.hist.log, pc) && WrittenBy(s, pc, e)
    ensures WriteOk(c, s, e)
  {
    if e.InsertRow? {
      InsertIsOk(c, s, pc);
    }
  }

  lemma InsertIsOk(c: Config, s: State, pc: Pc)
    requires RowsOk(c.maxRetries, s.attempts, s.hist.issued, s.hist.log) && TablesOk(s)
    requires PcOk(c.maxRetries, s.attempts, s.hist.issued, s.hist.log, pc) && pc.Insert? && CanInsert(s, pc.key)
    ensures WriteOk(c, s, InsertRow(pc.key))
  {
    if pc.k.Redo? {
      assert Prev(pc.key) == pc.k.prev;
    }
  }

  /** The calls that write attempts, told apart by what justifies them. */
  lemma RowCalls(c: Config, s: State, t: ThreadId, ch: Choice)
    requires Inv(c, s) && t in s.threads && ChoiceOk(s, s.threads[t], ch)
    ensures WriteOk(c, s, Perform(c, s, s.threads[t], ch).effect)
  {
    var pc := s.threads[t];
    assert PcOk(c.maxRetries, s.attempts, s.hist.issued, s.hist.log, pc);
    WhoWrites(c, s, pc, ch);
    WritesOk(c, s, pc, Perform(c, s, pc, ch).effect);
  }

  lemma EffectLeavesTerminal(c: Config, s: State, e: Effect, d: DeliveryId, a: ActionId)
    requires ChainOk(s.attempts) && (forall x :: x in s.attempts ==> x.number >= 1)
    requires Verdict.Terminal(c.maxRetries, s.attempts, d, a) && WriteOk(c, s, e)
    ensures SameRows(s.attempts, Apply(s, e).attempts, d, a)
  {
    if (e.InsertRow? || e.UpdateRow?) && SamePair(e.key, Key(d, a, 1)) {
      WriteMissesTerminal(c, s, e);
    }
  }

  lemma WriteMissesTerminal(c: Config, s: State, e: Effect)
    requires ChainOk(s.attempts) && (forall x :: x in s.attempts ==> x.number >= 1)
    requires (e.InsertRow? || e.UpdateRow?) && WriteOk(c, s, e)
    requires Verdict.Terminal(c.maxRetries, s.attempts, e.key.delivery, e.key.action)
    ensures e.UpdateRow? && (e.key in s.attempts ==> s.attempts[e.key].status == e.attempt.status)
  {
    TerminalChain(c.maxRetries, s.attempts, e.key);
    if e.InsertRow? && e.key.number != 1 {
      TerminalChain(c.maxRetries, s.attempts, Prev(e.key));
    }
  }

  lemma CallLeavesTerminal(c: Config, s: State, t: ThreadId, ch: Choice, d: DeliveryId, a: ActionId)
    requires Inv(c, s) && t in s.threads && ChoiceOk(s, s.threads[t], ch)
    requires Verdict.Terminal(c.maxRetries, s.attempts, d, a)
    ensures SameRows(s.attempts, AdvanceStep(c, s, t, ch).attempts, d, a)
  {
    RowCalls(c, s, t, ch);
    EffectLeavesTerminal(c, s, Perform(c, s, s.threads[t], ch).effect, d, a);
  }

  /** No step disturbs a terminal latest attempt: nothing is inserted after it and its status stays. */
  lemma TerminalStays(c: Config, s: State, l: Label, d: DeliveryId, a: ActionId)
    requires Inv(c, s) && Enabled(c, s, l)
    requires Verdict.Terminal(c.maxRetries, s.attempts, d, a)
    requires d in Step(c, s, l).deliveries && a in Step(c, s, l).actions
    ensures SameRows(s.attempts, Step(c, s, l).attempts, d, a)
  {
    if l.Advance? {
      CallLeavesTerminal(c, s, l.t, l.ch, d, a);
    } else {
      WorldLeavesRows(c, s, l, d, a);
    }
  }

  lemma WorldLeavesRows(c: Config, s: State, l: Label, d: DeliveryId, a: ActionId)
    requires TablesOk(s) && Enabled(c, s, l) && !l.Advance?
    requires d in Step(c, s, l).deliveries && a in Step(c, s, l).actions
    ensures SameRows(s.attempts, Step(c, s, l).attempts, d, a)
  {
    if !l.DeleteAction? && !l.DeleteSource? {
      WorldLeavesAttempts(c, s, l);
    }
  }

  lemma WorldLeavesAttempts(c: Config, s: State, l: Label)
    requires Enabled(c, s, l) && !l.Advance? && !l.DeleteAction? && !l.DeleteSource?
    ensures Step(c, s, l).attempts == s.attempts
  {
  }

  /** With the active actions of a source unchanged, a verdict once reached is final, whatever else happens. */
  lemma VerdictStable(c: Config, s: State, l: Label, d: DeliveryId)
    requires Reachable(c, s) && Enabled(c, s, l) && d in s.deliveries && d in Step(c, s, l).deliveries
    requires var src := s.deliveries[d].source;
      ActiveIds(Step(c, s, l).actions, src) == ActiveIds(s.actions, src)
    requires Verdict.Of(c.maxRetries, ActiveIds(s.actions, s.deliveries[d].source), s.attempts, d).Some?
    ensures var src := s.deliveries[d].source;
      Verdict.Of(c.maxRetries, ActiveIds(s.actions, src), Step(c, s, l).attempts, d)
      == Verdict.Of(c.maxRetries, ActiveIds(s.actions, src), s.attempts, d)
  {
    ReachableInv(c, s);
    VerdictStays(c, s, l, d);
  }

  lemma VerdictStays(c: Config, s: State, l: Label, d: DeliveryId)
    requires Inv(c, s) && Enabled(c, s, l) && d in s.deliveries && d in Step(c, s, l).deliveries
    requires var src := s.deliveries[d].source;
      ActiveIds(Step(c, s, l).actions, src) == ActiveIds(s.actions, src)
    requires Verdict.Of(c.maxRetries, ActiveIds(s.actions, s.deliveries[d].source), s.attempts, d).Some?
    ensures var src := s.deliveries[d].source;
      Verdict.Of(c.maxRetries, ActiveIds(s.actions, src), Step(c, s, l).attempts, d)
      == Verdict.Of(c.maxRetries, ActiveIds(s.actions, src), s.attempts, d)
  {
    var acts := ActiveIds(s.actions, s.deliveries[d].source);
    forall a | a in acts
      ensures SameRows(s.attempts, Step(c, s, l).attempts, d, a)
    {
      assert a in ActiveIds(Step(c, s, l).actions, s.deliveries[d].source);
      TerminalStays(c, s, l, d, a);
    }
    VerdictSame(c.maxRetries, acts, s.attempts, Step(c, s, l).attempts, d);
  }

  /** `d` exists, and these are the active actions of its source. */
  ghost predicate ActsOn(s: State, d: DeliveryId, acts: set<ActionId>) {
    d in s.deliveries && ActiveIds(s.actions, s.deliveries[d].source) == acts
  }

  /** A run during which `d` exists and the active actions of its source are the same. */
  ghost predicate FixedRun(c: Config, s: State, labels: seq<Label>, s': State, d: DeliveryId, acts: set<ActionId>)
    decreases |labels|
  {
    if labels == [] then s == s' && ActsOn(s, d, acts)
    else
      var init, l := labels[..|labels| - 1], labels[|labels| - 1];
      exists m :: FixedRun(c, s, init, m, d, acts) && Enabled(c, m, l) && s' == Step(c, m, l) && ActsOn(s', d, acts)
  }

  /** With a fixed active set, a verdict is final over a whole run: crashes, failed calls, duplicated messages and
      any other edits included. */
  lemma {:induction false} VerdictFinal(c: Config, s: State, labels: seq<Label>, s': State, d: DeliveryId,
                                        acts: set<ActionId>)
    requires Reachable(c, s) && FixedRun(c, s, labels, s', d, acts)
    requires Verdict.Of(c.maxRetries, acts, s.attempts, d).Some?
    ensures Verdict.Of(c.maxRetries, acts, s'.attempts, d) == Verdict.Of(c.maxRetries, acts, s.attempts, d)
  {
    ReachableInv(c, s);
    FixedRunKeeps(c, s, labels, s', d, acts);
  }

  lemma {:induction false} FixedRunKeeps(c: Config, s: State, labels: seq<Label>, s': State, d: DeliveryId,
                                         acts: set<ActionId>)
    requires Inv(c, s) && FixedRun(c, s, labels, s', d, acts)
    requires Verdict.Of(c.maxRetries, acts, s.attempts, d).Some?
    ensures Inv(c, s') && ActsOn(s', d, acts)
    ensures Verdict.Of(c.maxRetries, acts, s'.attempts, d) == Verdict.Of(c.maxRetries, acts, s.attempts, d)
    decreases |labels|
  {
    if labels != [] {
      var init, l := labels[..|labels| - 1], labels[|labels| - 1];
      var m :| FixedRun(c, s, init, m, d, acts) && Enabled(c, m, l) && s' == Step(c, m, l) && ActsOn(s', d, acts);
      FixedRunKeeps(c, s, init, m, d, acts);
      StepKeeps(c, m, l);
      HomeStays(c, m, l, d);
      VerdictStays(c, m, l, d);
    }
  }

  /** A delivery does not change its source. */
  lemma HomeStays(c: Config, s: State, l: Label, d: DeliveryId)
    requires TablesOk(s) && Enabled(c, s, l)
    requires d in s.deliveries && d in Step(c, s, l).deliveries
    ensures Step(c, s, l).deliveries[d].source == s.deliveries[d].source
  {
    if l.Advance? {
      HomeApplies(s, Perform(c, s, s.threads[l.t], l.ch).effect, d);
      NewIsNew(c, s, s.threads[l.t], l.ch);
    }
  }

  lemma NewIsNew(c: Config, s: State, pc: Pc, ch: Choice)
    requires ChoiceOk(s, pc, ch)
    ensures var e := Perform(c, s, pc, ch).effect; e.NewDelivery? ==> e.id !in s.hist.home
  {
  }

  lemma HomeApplies(s: State, e: Effect, d: DeliveryId)
    requires TablesOk(s) && d in s.deliveries
    ensures d in Apply(s, e).deliveries
    ensures (e.NewDelivery? ==> e.id !in s.hist.home) ==> Apply(s, e).deliveries[d].source == s.deliveries[d].source
  {
  }

  lemma VerdictSame(maxRetries: int, acts: set<ActionId>, att: Attempts, att': Attempts, d: DeliveryId)
    requires forall a :: a in acts ==> SameRows(att, att', d, a)
    ensures Verdict.Of(maxRetries, acts, att', d) == Verdict.Of(maxRetries, acts, att, d)
  {
    forall a | a in acts
      ensures Verdict.Succeeded(att', d, a) <==> Verdict.Succeeded(att, d, a)
      ensures Verdict.Exhausted(maxRetries, att', d, a) <==> Verdict.Exhausted(maxRetries, att, d, a)
    {
      SameRowsSameFate(maxRetries, att, att', d, a);
    }
  }
}

/** A retry sends what the first attempt sent: with unchanged scripts, and a source script whose content does not depend
    on the listed actions and is stored, every attempt of an action on a delivery carries the same payload and
    headers.  Workers may race for the delivery, threads may crash, other calls may fail, and actions may come, go and
    be toggled. */
module Payload {
  import opened Types
  import opened Machine
  import opened Safety
  import Guarantees
  import Quiescence

  type Transforms = ActionId -> Option<Script>

  ghost predicate Gives(o: SourceOutcome, p: Json, h: Json) {
    o.Transformed? && o.payload == p && o.headers == h
  }

  /** The source script can turn the delivery into this content. */
  ghost predicate Yields(c: Config, script: Option<Script>, row: Delivery, p: Json, h: Json) {
    if !HasScript(script) then p == row.payload && h == row.headers
    else exists listing :: Gives(c.runSource(script.value, row.payload, row.headers, listing), p, h)
  }

  /** The content does not depend on the order or choice of the listed actions. */
  ghost predicate Deterministic(c: Config, script: Option<Script>, row: Delivery) {
    forall p, h, p', h' :: Yields(c, script, row, p, h) && Yields(c, script, row, p', h') ==> p == p' && h == h'
  }

  /** A retry that read the row now would start from the right content. */
  ghost predicate Stored(c: Config, script: Option<Script>, row: Delivery) {
    Yields(c, script, row, StoredPayload(row), StoredHeaders(row))
  }

  /** Both columns are empty, or both hold what the script yields. */
  ghost predicate ColumnsOk(c: Config, script: Option<Script>, row: Delivery) {
    || (row.transformedPayload == None && row.transformedHeaders == None)
    || (row.transformedPayload.Some? && row.transformedHeaders.Some? && Stored(c, script, row))
  }

  /** What an attempt of action `a` should carry. */
  ghost predicate SendOk(c: Config, script: Option<Script>, tr: Transforms, row: Delivery, a: ActionId, p: Json,
                         h: Json) {
    exists p0, h0 :: Yields(c, script, row, p0, h0) && Transform(c, tr(a), p0, h0) == Send(p, h)
  }

  ghost predicate TodosSteady(tr: Transforms, todos: seq<Todo>) {
    forall todo :: todo in todos ==> todo.transform == tr(todo.id)
  }

  ghost predicate ContSteady(c: Config, script: Option<Script>, tr: Transforms, row: Delivery, k: Cont) {
    k.Fan? ==> Yields(c, script, row, k.payload, k.headers) && TodosSteady(tr, k.rest)
  }

  ghost predicate PcSteady(c: Config, script: Option<Script>, tr: Transforms, row: Delivery, pc: Pc) {
    match pc
    case PdSource(_, _, snap) => SameContent(row, snap)
    case PdAdmit(_, _, snap, sc) => SameContent(row, snap) && sc == script
    case PdActions(_, snap, sc) => SameContent(row, snap) && sc == script
    case PdPersist(_, p, h, acts, _) => HasScript(script) && Yields(c, script, row, p, h) && TodosSteady(tr, acts)
    case Insert(key, p, h, k) =>
      SendOk(c, script, tr, row, key.action, p, h) && ContSteady(c, script, tr, row, k) && Stored(c, script, row)
    case Dispatch(key, p, h, k) =>
      SendOk(c, script, tr, row, key.action, p, h) && ContSteady(c, script, tr, row, k) && Stored(c, script, row)
    case Settle(_, _, k) => ContSteady(c, script, tr, row, k) && Stored(c, script, row)
    case RtAction(_, snap) => Yields(c, script, row, StoredPayload(snap), StoredHeaders(snap))
    case _ => true
  }

  ghost predicate FixedScripts(s: State, d: DeliveryId, script: Option<Script>, tr: Transforms) {
    && d in s.deliveries && s.deliveries[d].source in s.sources
    && s.sources[s.deliveries[d].source].script == script
    && (forall a :: a in s.actions ==> s.actions[a].transform == tr(a))
  }

  ghost predicate ThreadsSteady(c: Config, s: State, d: DeliveryId, script: Option<Script>, tr: Transforms)
    requires d in s.deliveries
  {
    forall t :: t in s.threads && Quiescence.Subject(s.threads[t]) == Some(d) ==>
      PcSteady(c, script, tr, s.deliveries[d], s.threads[t])
  }

  ghost predicate LogSteady(c: Config, log: seq<Event>, d: DeliveryId, row: Delivery, script: Option<Script>,
                            tr: Transforms) {
    forall i :: 0 <= i < |log| && log[i].key.delivery == d ==>
      SendOk(c, script, tr, row, log[i].key.action, log[i].payload, log[i].headers)
  }

  ghost predicate SteadyInv(c: Config, s: State, d: DeliveryId, script: Option<Script>, tr: Transforms) {
    && FixedScripts(s, d, script, tr)
    && var row := s.deliveries[d];
    && ColumnsOk(c, script, row)
    && (!HasScript(script) ==> row.transformedPayload == None && row.transformedHeaders == None)
    && ((exists k :: k in s.hist.issued && k.delivery == d) ==> Stored(c, script, row))
    && ThreadsSteady(c, s, d, script, tr)
    && LogSteady(c, s.hist.log, d, row, script, tr)
  }

  /** The scripts that `d` meets stay, and the store call that saves its transformed content takes effect. */
  ghost predicate SteadyStep(s: State, l: Label, d: DeliveryId, script: Option<Script>, tr: Transforms)
    requires d in s.deliveries
  {
    match l
    case Advance(t, ch) =>
      t in s.threads && s.threads[t].PdPersist? && s.threads[t].d == d ==> ch.reply != Refused
    case PutSource(x, row) => x == s.deliveries[d].source ==> row.script == script
    case PutAction(a, def) => def.transform == tr(a)
    case DeleteSource(x) => x != s.deliveries[d].source
    case _ => true
  }

  // -------------------------------------------------- one call

  lemma SameContentSteady(c: Config, script: Option<Script>, tr: Transforms, row: Delivery, row': Delivery, pc: Pc)
    requires SameContent(row, row') && PcSteady(c, script, tr, row, pc)
    requires Stored(c, script, row) ==> Stored(c, script, row')
    ensures PcSteady(c, script, tr, row', pc)
  {
    SameYields(c, script, row, row');
  }

  lemma SameYields(c: Config, script: Option<Script>, row: Delivery, row': Delivery)
    requires SameContent(row, row')
    ensures forall p, h :: Yields(c, script, row, p, h) <==> Yields(c, script, row', p, h)
  {
  }

  lemma {:induction false} NextFanSteady(c: Config, script: Option<Script>, tr: Transforms, row: Delivery,
                                         d: DeliveryId, rest: seq<Todo>, p: Json, h: Json)
    requires Yields(c, script, row, p, h) && TodosSteady(tr, rest) && Stored(c, script, row)
    ensures PcSteady(c, script, tr, row, NextFan(c, d, rest, p, h))
    decreases |rest|
  {
    if rest != [] {
      assert rest[0] in rest && forall todo :: todo in rest[1..] ==> todo in rest;
      if Transform(c, rest[0].transform, p, h).Skip? {
        NextFanSteady(c, script, tr, row, d, rest[1..], p, h);
      }
    }
  }

  lemma {:induction false} KeptSteady(tr: Transforms, all: seq<Todo>, ids: set<ActionId>)
    requires TodosSteady(tr, all)
    ensures TodosSteady(tr, Filter.Kept(all, ids))
  {
    if all != [] {
      assert all[0] in all && forall todo :: todo in all[1..] ==> todo in all;
      KeptSteady(tr, all[1..], ids);
    }
  }

  lemma ResumeSteady(c: Config, script: Option<Script>, tr: Transforms, row: Delivery, d: DeliveryId, k: Cont)
    requires ContSteady(c, script, tr, row, k) && Stored(c, script, row)
    ensures PcSteady(c, script, tr, row, Resume(c, d, k))
  {
    if k.Fan? {
      NextFanSteady(c, script, tr, row, d, k.rest, k.payload, k.headers);
    }
  }

  lemma ListedSteady(c: Config, s: State, pc: Pc, ch: Choice, script: Option<Script>, tr: Transforms)
    requires pc.PdActions? && pc.d in s.deliveries && SteadyInv(c, s, pc.d, script, tr) && ChoiceOk(s, pc, ch)
    requires PcSteady(c, script, tr, s.deliveries[pc.d], pc)
    ensures var next := Perform(c, s, pc, ch).next;
      next.Some? ==> PcSteady(c, script, tr, s.deliveries[pc.d], next.value)
  {
    var acts := Todos(s.actions, ch.listing);
    forall todo | todo in acts
      ensures todo.transform == tr(todo.id)
    {
      var i :| 0 <= i < |acts| && acts[i] == todo;
      assert ch.listing[i] in ch.listing;
    }
    if !HasScript(script) {
      NextFanSteady(c, script, tr, s.deliveries[pc.d], pc.d, acts, pc.snap.payload, pc.snap.headers);
    }
  }

  lemma AttemptNext(c: Config, s: State, pc: Pc, ch: Choice, d: DeliveryId, script: Option<Script>, tr: Transforms)
    requires d in s.deliveries && ChoiceOk(s, pc, ch) && PcSteady(c, script, tr, s.deliveries[d], pc)
    requires (pc.Insert? || pc.Dispatch? || pc.Settle?) && pc.key.delivery == d
    ensures var next := Perform(c, s, pc, ch).next;
      next.Some? && PcSteady(c, script, tr, s.deliveries[d], next.value)
  {
    if !pc.Dispatch? {
      ResumeSteady(c, script, tr, s.deliveries[d], d, pc.k);
    }
  }

  lemma RetryNext(c: Config, s: State, pc: Pc, ch: Choice, d: DeliveryId, script: Option<Script>, tr: Transforms)
    requires SteadyInv(c, s, d, script, tr) && ChoiceOk(s, pc, ch) && PcSteady(c, script, tr, s.deliveries[d], pc)
    requires (pc.RtDelivery? || pc.RtAction?) && pc.prev.delivery == d && pc.prev in s.hist.issued
    ensures var next := Perform(c, s, pc, ch).next;
      next.Some? ==> PcSteady(c, script, tr, s.deliveries[d], next.value)
  {
    assert Stored(c, script, s.deliveries[d]);
  }

  /** The next call of a thread of `d` is steady on the row as this call leaves it. */
  lemma NextSteady(c: Config, s: State, pc: Pc, ch: Choice, d: DeliveryId, script: Option<Script>, tr: Transforms)
    requires SteadyInv(c, s, d, script, tr) && ChoiceOk(s, pc, ch)
    requires Quiescence.Subject(pc) == Some(d) && PcSteady(c, script, tr, s.deliveries[d], pc) && !pc.PdPersist?
    requires PcOk(c.maxRetries, s.attempts, s.hist.issued, s.hist.log, pc)
    ensures var next := Perform(c, s, pc, ch).next;
      next.Some? ==> PcSteady(c, script, tr, s.deliveries[d], next.value)
  {
    if pc.PdActions? {
      ListedSteady(c, s, pc, ch, script, tr);
    } else if pc.Insert? || pc.Dispatch? || pc.Settle? {
      AttemptNext(c, s, pc, ch, d, script, tr);
    } else if pc.RtDelivery? || pc.RtAction? {
      RetryNext(c, s, pc, ch, d, script, tr);
    } else {
      PlainNext(c, s, pc, ch, d, script, tr);
    }
  }

  lemma PlainNext(c: Config, s: State, pc: Pc, ch: Choice, d: DeliveryId, script: Option<Script>, tr: Transforms)
    requires FixedScripts(s, d, script, tr) && ChoiceOk(s, pc, ch)
    requires Quiescence.Subject(pc) == Some(d) && PcSteady(c, script, tr, s.deliveries[d], pc)
    requires !(pc.PdActions? || pc.Insert? || pc.Dispatch? || pc.Settle? || pc.RtDelivery? || pc.RtAction?)
    requires !pc.PdPersist?
    ensures var next := Perform(c, s, pc, ch).next;
      next.Some? ==> PcSteady(c, script, tr, s.deliveries[d], next.value)
  {
  }

  /** An effect that keeps the stored content and the log right. */
  ghost predicate EffectSteady(c: Config, s: State, e: Effect, d: DeliveryId, script: Option<Script>, tr: Transforms)
    requires d in s.deliveries
  {
    var row := s.deliveries[d];
    match e
    case SetTransformed(x, p, h) => x == d ==> HasScript(script) && Yields(c, script, row, p, h)
    case InsertRow(key) => key.delivery == d ==> Stored(c, script, row)
    case Sent(event) =>
      event.key.delivery == d ==> SendOk(c, script, tr, row, event.key.action, event.payload, event.headers)
    case NewDelivery(id, _) => id != d
    case _ => true
  }

  lemma CallSteady(c: Config, s: State, pc: Pc, ch: Choice, d: DeliveryId, script: Option<Script>, tr: Transforms)
    requires TablesOk(s) && d in s.deliveries && ChoiceOk(s, pc, ch)
    requires Quiescence.Subject(pc) == Some(d) ==> PcSteady(c, script, tr, s.deliveries[d], pc)
    ensures EffectSteady(c, s, Perform(c, s, pc, ch).effect, d, script, tr)
  {
    if pc.PdPersist? || pc.Insert? || pc.Dispatch? {
      ContentOf(c, s, pc, ch);
      CarriesSteady(c, s, pc, Perform(c, s, pc, ch).effect, d, script, tr);
    } else {
      NoContent(c, s, pc, ch);
    }
  }

  /** The calls that carry content carry their thread's. */
  ghost predicate Carries(pc: Pc, e: Effect) {
    match e
    case NoEffect => true
    case SetTransformed(d, p, h) => pc.PdPersist? && d == pc.d && p == pc.payload && h == pc.headers
    case InsertRow(key) => pc.Insert? && key == pc.key
    case Sent(event) =>
      pc.Dispatch? && event.key == pc.key && event.payload == pc.payload && event.headers == pc.headers
    case _ => false
  }

  lemma ContentOf(c: Config, s: State, pc: Pc, ch: Choice)
    requires ChoiceOk(s, pc, ch) && (pc.PdPersist? || pc.Insert? || pc.Dispatch?)
    ensures Carries(pc, Perform(c, s, pc, ch).effect)
  {
  }

  lemma CarriesSteady(c: Config, s: State, pc: Pc, e: Effect, d: DeliveryId, script: Option<Script>, tr: Transforms)
    requires d in s.deliveries && Carries(pc, e)
    requires Quiescence.Subject(pc) == Some(d) ==> PcSteady(c, script, tr, s.deliveries[d], pc)
    ensures EffectSteady(c, s, e, d, script, tr)
  {
  }

  lemma NoContent(c: Config, s: State, pc: Pc, ch: Choice)
    requires ChoiceOk(s, pc, ch) && !pc.PdPersist? && !pc.Insert? && !pc.Dispatch?
    ensures var e := Perform(c, s, pc, ch).effect;
      !e.SetTransformed? && !e.InsertRow? && !e.Sent? && (e.NewDelivery? ==> e.id !in s.hist.home)
  {
  }

  lemma EffectRow(c: Config, s: State, e: Effect, d: DeliveryId, script: Option<Script>, tr: Transforms)
    requires SteadyInv(c, s, d, script, tr) && EffectSteady(c, s, e, d, script, tr)
    ensures var s' := Apply(s, e);
      && d in s'.deliveries && SameContent(s.deliveries[d], s'.deliveries[d])
      && ColumnsOk(c, script, s'.deliveries[d])
      && (!HasScript(script) ==>
            s'.deliveries[d].transformedPayload == None && s'.deliveries[d].transformedHeaders == None)
      && (Stored(c, script, s.deliveries[d]) ==> Stored(c, script, s'.deliveries[d]))
      && (e.SetTransformed? && e.d == d ==> Stored(c, script, s'.deliveries[d]))
  {
    var s' := Apply(s, e);
    RowAfter(s, e, d);
    SameYields(c, script, s.deliveries[d], s'.deliveries[d]);
  }

  lemma RowAfter(s: State, e: Effect, d: DeliveryId)
    requires d in s.deliveries && (e.NewDelivery? ==> e.id != d)
    ensures d in Apply(s, e).deliveries
    ensures var row, row' := s.deliveries[d], Apply(s, e).deliveries[d];
      && SameContent(row, row')
      && row'.transformedPayload
         == (if e.SetTransformed? && e.d == d then Some(e.payload) else row.transformedPayload)
      && row'.transformedHeaders
         == (if e.SetTransformed? && e.d == d then Some(e.headers) else row.transformedHeaders)
  {
  }

  lemma SameSend(c: Config, script: Option<Script>, tr: Transforms, row: Delivery, row': Delivery, a: ActionId,
                 p: Json, h: Json)
    requires SameContent(row, row') && SendOk(c, script, tr, row, a, p, h)
    ensures SendOk(c, script, tr, row', a, p, h)
  {
    SameYields(c, script, row, row');
  }

  lemma EffectKeeps(c: Config, s: State, e: Effect, d: DeliveryId, script: Option<Script>, tr: Transforms)
    requires SteadyInv(c, s, d, script, tr) && EffectSteady(c, s, e, d, script, tr)
    ensures SteadyInv(c, Apply(s, e), d, script, tr)
  {
    var s' := Apply(s, e);
    var row, row' := s.deliveries[d], s'.deliveries[d];
    EffectRow(c, s, e, d, script, tr);
    forall t | t in s.threads && Quiescence.Subject(s.threads[t]) == Some(d)
      ensures PcSteady(c, script, tr, row', s.threads[t])
    {
      SameContentSteady(c, script, tr, row, row', s.threads[t]);
    }
    forall i | 0 <= i < |s'.hist.log| && s'.hist.log[i].key.delivery == d
      ensures SendOk(c, script, tr, row', s'.hist.log[i].key.action, s'.hist.log[i].payload, s'.hist.log[i].headers)
    {
      SameSend(c, script, tr, row, row', s'.hist.log[i].key.action, s'.hist.log[i].payload, s'.hist.log[i].headers);
    }
    assert forall k :: k in s'.hist.issued && k.delivery == d ==> k in s.hist.issued || e == InsertRow(k);
  }

  lemma PersistSteady(c: Config, s: State, pc: Pc, ch: Choice, d: DeliveryId, script: Option<Script>, tr: Transforms)
    requires SteadyInv(c, s, d, script, tr) && ChoiceOk(s, pc, ch) && ch.reply != Refused
    requires pc.PdPersist? && pc.d == d && PcSteady(c, script, tr, s.deliveries[d], pc)
    ensures var move := Perform(c, s, pc, ch);
      && EffectSteady(c, s, move.effect, d, script, tr)
      && d in Apply(s, move.effect).deliveries
      && PcSteady(c, script, tr, Apply(s, move.effect).deliveries[d], move.next.value)
  {
    var move := Perform(c, s, pc, ch);
    EffectRow(c, s, move.effect, d, script, tr);
    var row' := Apply(s, move.effect).deliveries[d];
    SameYields(c, script, s.deliveries[d], row');
    KeptSteady(tr, pc.acts, IdSet(pc.kept));
    NextFanSteady(c, script, tr, row', d, Filter.Kept(pc.acts, IdSet(pc.kept)), pc.payload, pc.headers);
  }

  lemma AdvanceSteady(c: Config, s: State, t: ThreadId, ch: Choice, d: DeliveryId, script: Option<Script>,
                      tr: Transforms)
    requires Inv(c, s) && SteadyInv(c, s, d, script, tr) && t in s.threads && ChoiceOk(s, s.threads[t], ch)
    requires SteadyStep(s, Advance(t, ch), d, script, tr)
    ensures SteadyInv(c, AdvanceStep(c, s, t, ch), d, script, tr)
  {
    var pc := s.threads[t];
    var move := Perform(c, s, pc, ch);
    CallSteady(c, s, pc, ch, d, script, tr);
    EffectKeeps(c, s, move.effect, d, script, tr);
    ArrivesSteady(c, s, pc, ch, d, script, tr);
    ThreadReplaced(c, Apply(s, move.effect), t, move.next, d, script, tr);
    assert AdvanceStep(c, s, t, ch)
        == Apply(s, move.effect).(threads := Threads(Apply(s, move.effect).threads, t, move.next));
  }

  lemma ArrivesSteady(c: Config, s: State, pc: Pc, ch: Choice, d: DeliveryId, script: Option<Script>, tr: Transforms)
    requires Inv(c, s) && SteadyInv(c, s, d, script, tr) && ChoiceOk(s, pc, ch)
    requires PcOk(c.maxRetries, s.attempts, s.hist.issued, s.hist.log, pc)
    requires Quiescence.Subject(pc) == Some(d) ==> PcSteady(c, script, tr, s.deliveries[d], pc)
    requires pc.PdPersist? && pc.d == d ==> ch.reply != Refused
    ensures var move := Perform(c, s, pc, ch);
      && d in Apply(s, move.effect).deliveries
      && (move.next.Some? && Quiescence.Subject(move.next.value) == Some(d) ==>
            PcSteady(c, script, tr, Apply(s, move.effect).deliveries[d], move.next.value))
  {
    var move := Perform(c, s, pc, ch);
    Quiescence.SubjectStays(c, s, pc, ch);
    CallSteady(c, s, pc, ch, d, script, tr);
    EffectRow(c, s, move.effect, d, script, tr);
    if Quiescence.Subject(pc) == Some(d) && move.next.Some? {
      if pc.PdPersist? {
        PersistSteady(c, s, pc, ch, d, script, tr);
      } else {
        NextSteady(c, s, pc, ch, d, script, tr);
        SameContentSteady(c, script, tr, s.deliveries[d], Apply(s, move.effect).deliveries[d], move.next.value);
      }
    }
  }

  lemma ThreadReplaced(c: Config, s: State, t: ThreadId, next: Option<Pc>, d: DeliveryId, script: Option<Script>,
                       tr: Transforms)
    requires SteadyInv(c, s, d, script, tr)
    requires next.Some? && Quiescence.Subject(next.value) == Some(d) ==>
               PcSteady(c, script, tr, s.deliveries[d], next.value)
    ensures SteadyInv(c, s.(threads := Threads(s.threads, t, next)), d, script, tr)
  {
  }

  lemma EditSteady(c: Config, s: State, l: Label, d: DeliveryId, script: Option<Script>, tr: Transforms)
    requires TablesOk(s) && SteadyInv(c, s, d, script, tr) && Enabled(c, s, l) && !l.Advance? && !Spawns(l)
    requires SteadyStep(s, l, d, script, tr)
    ensures SteadyInv(c, Step(c, s, l), d, script, tr)
  {
  }

  lemma WorldSteady(c: Config, s: State, l: Label, d: DeliveryId, script: Option<Script>, tr: Transforms)
    requires Inv(c, s) && SteadyInv(c, s, d, script, tr) && Enabled(c, s, l) && !l.Advance?
    requires SteadyStep(s, l, d, script, tr)
    ensures SteadyInv(c, Step(c, s, l), d, script, tr)
  {
    if Spawns(l) {
      assert PcSteady(c, script, tr, s.deliveries[d], NewPc(s, l));
      ThreadReplaced(c, s, l.t, Some(NewPc(s, l)), d, script, tr);
    } else {
      EditSteady(c, s, l, d, script, tr);
    }
  }

  // -------------------------------------------------- the theorem

  ghost predicate SteadySteps(c: Config, s: State, labels: seq<Label>, s': State, d: DeliveryId,
                              script: Option<Script>, tr: Transforms)
    decreases |labels|
  {
    if labels == [] then s == s'
    else
      var init, l := labels[..|labels| - 1], labels[|labels| - 1];
      exists m :: SteadySteps(c, s, init, m, d, script, tr) && d in m.deliveries && Enabled(c, m, l)
        && SteadyStep(m, l, d, script, tr) && s' == Step(c, m, l)
  }

  /** A run of such steps. */
  ghost predicate SteadyRun(c: Config, s: State, labels: seq<Label>, s': State, d: DeliveryId,
                            script: Option<Script>, tr: Transforms) {
    forall n: nat :: Unfold(TheRun, n) ==> SteadySteps(c, s, labels, s', d, script, tr)
  }

  lemma SteadyStepKeeps(c: Config, s: State, l: Label, d: DeliveryId, script: Option<Script>, tr: Transforms)
    requires Inv(c, s) && SteadyInv(c, s, d, script, tr) && Enabled(c, s, l) && SteadyStep(s, l, d, script, tr)
    ensures SteadyInv(c, Step(c, s, l), d, script, tr)
    ensures SameContent(s.deliveries[d], Step(c, s, l).deliveries[d])
  {
    if l.Advance? {
      AdvanceSteady(c, s, l.t, l.ch, d, script, tr);
      CallSteady(c, s, s.threads[l.t], l.ch, d, script, tr);
      EffectRow(c, s, Perform(c, s, s.threads[l.t], l.ch).effect, d, script, tr);
    } else {
      WorldSteady(c, s, l, d, script, tr);
    }
  }

  lemma {:induction false} SteadyStepsKeep(c: Config, s: State, labels: seq<Label>, s': State, d: DeliveryId,
                                          script: Option<Script>, tr: Transforms)
    requires Inv(c, s) && SteadyInv(c, s, d, script, tr) && SteadySteps(c, s, labels, s', d, script, tr)
    ensures Inv(c, s') && SteadyInv(c, s', d, script, tr)
    ensures SameContent(s.deliveries[d], s'.deliveries[d])
    decreases |labels|
  {
    if labels != [] {
      var init, l := labels[..|labels| - 1], labels[|labels| - 1];
      var m :| SteadySteps(c, s, init, m, d, script, tr) && d in m.deliveries && Enabled(c, m, l)
        && SteadyStep(m, l, d, script, tr) && s' == Step(c, m, l);
      SteadyStepsKeep(c, s, init, m, d, script, tr);
      StepKeeps(c, m, l);
      SteadyStepKeeps(c, m, l, d, script, tr);
    }
  }

  /** Every attempt of an action on a delivery is dispatched with the same payload and headers. */
  lemma RetrySendsTheSame(c: Config, s0: State, labels: seq<Label>, s: State, d: DeliveryId,
                          script: Option<Script>, tr: Transforms, i: nat, j: nat)
    requires Reachable(c, s0) && Quiescence.Fresh(s0, d) && FixedScripts(s0, d, script, tr)
    requires s0.deliveries[d].transformedPayload == None && s0.deliveries[d].transformedHeaders == None
    requires Deterministic(c, script, s0.deliveries[d])
    requires SteadyRun(c, s0, labels, s, d, script, tr)
    requires i < |s.hist.log| && j < |s.hist.log|
    requires s.hist.log[i].key.delivery == d && s.hist.log[j].key.delivery == d
    requires s.hist.log[i].key.action == s.hist.log[j].key.action
    ensures s.hist.log[i].payload == s.hist.log[j].payload && s.hist.log[i].headers == s.hist.log[j].headers
  {
    Guarantees.ReachableInv(c, s0);
    FreshSteady(c, s0, d, script, tr);
    assert Unfold(TheRun, 0);
    SteadyStepsKeep(c, s0, labels, s, d, script, tr);
    SameYields(c, script, s0.deliveries[d], s.deliveries[d]);
    var a := s.hist.log[i].key.action;
    var p, h :| Yields(c, script, s.deliveries[d], p, h)
      && Transform(c, tr(a), p, h) == Send(s.hist.log[i].payload, s.hist.log[i].headers);
    var p', h' :| Yields(c, script, s.deliveries[d], p', h')
      && Transform(c, tr(a), p', h') == Send(s.hist.log[j].payload, s.hist.log[j].headers);
  }

  /** Nothing was ever sent for a new delivery. */
  lemma FreshSteady(c: Config, s: State, d: DeliveryId, script: Option<Script>, tr: Transforms)
    requires Inv(c, s) && Quiescence.Fresh(s, d) && FixedScripts(s, d, script, tr)
    requires s.deliveries[d].transformedPayload == None && s.deliveries[d].transformedHeaders == None
    ensures SteadyInv(c, s, d, script, tr)
  {
  }
}

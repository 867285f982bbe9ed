/** From the webhook to the dispatcher: what is posted is stored, column by column, and is what the attempts start
    from. */
module Arrivals {
  import opened Types
  import opened Machine
  import opened Safety
  import Guarantees
  import Payload
  import Persistence
  import Quiescence

  // -------------------------------------------------- from the request to the insert

  /** The step is not one of thread `t`. */
  ghost predicate NotBy(l: Label, t: ThreadId) {
    l.Advance? || l.Crash? ==> l.t != t
  }

  lemma StepWaits(c: Config, s: State, l: Label, t: ThreadId)
    requires Enabled(c, s, l) && t in s.threads && NotBy(l, t)
    ensures t in Step(c, s, l).threads && Step(c, s, l).threads[t] == s.threads[t]
  {
    if l.Advance? {
      EffectKeepsThreads(s, Perform(c, s, s.threads[l.t], l.ch).effect);
    }
  }

  lemma EffectKeepsThreads(s: State, e: Effect)
    ensures Apply(s, e).threads == s.threads
  {
  }

  lemma {:induction false} RunWaits(c: Config, s: State, labels: seq<Label>, s': State, t: ThreadId)
    requires Run(c, s, labels, s') && t in s.threads && forall l :: l in labels ==> NotBy(l, t)
    ensures t in s'.threads && s'.threads[t] == s.threads[t]
    decreases |labels|
  {
    if labels != [] {
      var init, l := labels[..|labels| - 1], labels[|labels| - 1];
      var m :| Run(c, s, init, m) && Enabled(c, m, l) && s' == Step(c, m, l);
      RunWaits(c, s, init, m, t);
      StepWaits(c, m, l, t);
    }
  }

  /** The request that thread `t` carries was posted at `s`, and `t` has not moved since. */
  ghost predicate Carries(c: Config, s: State, between: seq<Label>, m: State, t: ThreadId, source: SourceId,
                          idem: string, headers: Json, payload: Json)
  {
    forall n: nat :: Unfold(TheRun, n) ==>
      && Reachable(c, m) && Enabled(c, s, Post(t, source, idem, headers, payload))
      && Run(c, Step(c, s, Post(t, source, idem, headers, payload)), between, m)
      && forall l :: l in between ==> NotBy(l, t)
  }

  lemma RequestIsCarried(c: Config, s: State, between: seq<Label>, m: State, t: ThreadId, source: SourceId,
                         idem: string, headers: Json, payload: Json)
    requires Carries(c, s, between, m, t, source, idem, headers, payload)
    ensures source in s.sources && t in m.threads
    ensures m.threads[t] == IgInsert(source, s.sources[source].mode, idem, headers, payload)
  {
    assert Unfold(TheRun, 0);
    RunWaits(c, Step(c, s, Post(t, source, idem, headers, payload)), between, m, t);
  }

  // -------------------------------------------------- a new ID is new everywhere

  /** Only a thread that has not found its delivery yet can be about one that was never made. */
  ghost predicate Homed(s: State) {
    forall t :: t in s.threads ==> PcHomed(s, s.threads[t])
  }

  ghost predicate PcHomed(s: State, pc: Pc) {
    Quiescence.Subject(pc).Some? ==> Quiescence.Subject(pc).value in s.hist.home || pc.PdStart? || pc.FwLoad?
  }

  lemma CallHomed(c: Config, s: State, pc: Pc, ch: Choice)
    requires TablesOk(s) && PcHomed(s, pc) && ChoiceOk(s, pc, ch)
    requires PcOk(c.maxRetries, s.attempts, s.hist.issued, s.hist.log, pc)
    ensures var move := Perform(c, s, pc, ch);
      move.next.Some? ==> PcHomed(Apply(s, move.effect), move.next.value)
  {
    var move := Perform(c, s, pc, ch);
    Quiescence.SubjectStays(c, s, pc, ch);
    HomeGrows(s, move.effect);
    if pc.IgInsert? {
      InsertHomes(c, s, pc, ch);
    } else if pc.PdStart? || pc.FwLoad? {
      LookupHomes(c, s, pc, ch);
    }
  }

  lemma HomeGrows(s: State, e: Effect)
    ensures forall d :: d in s.hist.home ==> d in Apply(s, e).hist.home
    ensures Apply(s, e).threads == s.threads
  {
  }

  lemma InsertHomes(c: Config, s: State, pc: Pc, ch: Choice)
    requires pc.IgInsert? && ChoiceOk(s, pc, ch)
    ensures var move := Perform(c, s, pc, ch);
      move.next.Some? ==> ch.newId in Apply(s, move.effect).hist.home
  {
  }

  lemma LookupHomes(c: Config, s: State, pc: Pc, ch: Choice)
    requires TablesOk(s) && (pc.PdStart? || pc.FwLoad?) && ChoiceOk(s, pc, ch)
    ensures Perform(c, s, pc, ch).next.Some? ==> pc.d in s.hist.home
  {
  }

  lemma HomedStep(c: Config, s: State, l: Label)
    requires Inv(c, s) && Homed(s) && Enabled(c, s, l)
    ensures Homed(Step(c, s, l))
  {
    if l.Advance? {
      var move := Perform(c, s, s.threads[l.t], l.ch);
      CallHomed(c, s, s.threads[l.t], l.ch);
      HomeGrows(s, move.effect);
      AfterHomed(s, Apply(s, move.effect), l.t, move.next, Step(c, s, l));
    } else if Spawns(l) {
      SpawnHomed(c, s, l);
    }
  }

  lemma AfterHomed(s: State, m: State, t: ThreadId, next: Option<Pc>, s': State)
    requires Homed(s) && m.threads == s.threads && forall d :: d in s.hist.home ==> d in m.hist.home
    requires next.Some? ==> PcHomed(m, next.value)
    requires s' == m.(threads := Threads(s.threads, t, next))
    ensures Homed(s')
  {
  }

  lemma SpawnHomed(c: Config, s: State, l: Label)
    requires TablesOk(s) && Homed(s) && Enabled(c, s, l) && Spawns(l)
    ensures Homed(Step(c, s, l))
  {
    NewPcHomed(c, s, l);
    AfterHomed(s, s.(stream := StreamAfter(s, l)), l.t, Some(NewPc(s, l)), Step(c, s, l));
  }

  lemma NewPcHomed(c: Config, s: State, l: Label)
    requires TablesOk(s) && Enabled(c, s, l) && Spawns(l)
    ensures PcHomed(s, NewPc(s, l))
  {
  }

  lemma {:induction false} HomedRun(c: Config, labels: seq<Label>, s: State)
    requires Run(c, INIT, labels, s)
    ensures Inv(c, s) && Homed(s)
    decreases |labels|
  {
    if labels != [] {
      var init, l := labels[..|labels| - 1], labels[|labels| - 1];
      var m :| Run(c, INIT, init, m) && Enabled(c, m, l) && s == Step(c, m, l);
      HomedRun(c, init, m);
      StepKeeps(c, m, l);
      HomedStep(c, m, l);
    }
  }

  lemma ReachableHomed(c: Config, s: State)
    requires Reachable(c, s)
    ensures Inv(c, s) && Homed(s)
  {
    var labels :| Traced(c, labels, s);
    TraceIsRun(c, labels, s);
    HomedRun(c, labels, s);
  }

  // -------------------------------------------------- the insert

  /** Thread `t` stores its request under the new ID `d`. */
  ghost predicate Stores(c: Config, m: State, t: ThreadId, ch: Choice, d: DeliveryId) {
    && t in m.threads && m.threads[t].IgInsert? && ChoiceOk(m, m.threads[t], ch) && d == ch.newId
    && d in AdvanceStep(c, m, t, ch).deliveries
  }

  /** Every column holds what was posted. */
  lemma RequestIsStored(c: Config, m: State, t: ThreadId, ch: Choice, d: DeliveryId)
    requires Reachable(c, m) && Stores(c, m, t, ch, d)
    ensures var row, pc := AdvanceStep(c, m, t, ch).deliveries[d], m.threads[t];
      && d !in m.deliveries && row.source == pc.source && row.idem == pc.idem
      && row.headers == pc.headers && row.payload == pc.payload && row.receivedAt == ch.now && row.status == Pending
      && row.transformedPayload == None && row.transformedHeaders == None
  {
    Guarantees.ReachableInv(c, m);
  }

  lemma StoredIsNew(c: Config, m: State, t: ThreadId, ch: Choice, d: DeliveryId)
    requires Inv(c, m) && Homed(m) && Stores(c, m, t, ch, d)
    ensures var s := AdvanceStep(c, m, t, ch);
      && s.hist.issued == m.hist.issued && s.hist.log == m.hist.log
      && (forall k :: k in s.hist.issued ==> k.delivery != d)
      && (forall i :: 0 <= i < |s.hist.log| ==> s.hist.log[i].key.delivery != d)
      && (forall u :: u in s.threads && Quiescence.Subject(s.threads[u]) == Some(d) ==>
            s.threads[u].PdStart? || s.threads[u].FwLoad? || s.threads[u].IgRecord? || s.threads[u].IgPublish?)
  {
    forall u | u in m.threads && Quiescence.Subject(m.threads[u]) == Some(d)
      ensures m.threads[u].PdStart? || m.threads[u].FwLoad?
    {
      assert PcHomed(m, m.threads[u]);
    }
  }

  lemma StoredStarts(c: Config, m: State, t: ThreadId, ch: Choice, d: DeliveryId, script: Option<Script>,
                     tr: Payload.Transforms)
    requires Reachable(c, m) && Stores(c, m, t, ch, d)
    requires Payload.FixedScripts(AdvanceStep(c, m, t, ch), d, script, tr)
    ensures Persistence.OneInv(c, AdvanceStep(c, m, t, ch), d, script, tr, None)
  {
    ReachableHomed(c, m);
    RequestIsStored(c, m, t, ch, d);
    StoredIsNew(c, m, t, ch, d);
    NothingSent(c, AdvanceStep(c, m, t, ch), d, script, tr);
  }

  lemma NothingSent(c: Config, s: State, d: DeliveryId, script: Option<Script>, tr: Payload.Transforms)
    requires Payload.FixedScripts(s, d, script, tr) && Persistence.Columns(s.deliveries[d], None)
    requires forall k :: k in s.hist.issued ==> k.delivery != d
    requires forall i :: 0 <= i < |s.hist.log| ==> s.hist.log[i].key.delivery != d
    requires forall u :: u in s.threads && Quiescence.Subject(s.threads[u]) == Some(d) ==>
               s.threads[u].PdStart? || s.threads[u].FwLoad? || s.threads[u].IgRecord? || s.threads[u].IgPublish?
    ensures Persistence.OneInv(c, s, d, script, tr, None)
  {
  }

  // -------------------------------------------------- from the insert to the dispatcher

  lemma ContentStays(c: Config, s: State, l: Label, d: DeliveryId)
    requires TablesOk(s) && Enabled(c, s, l) && d in s.deliveries && d in Step(c, s, l).deliveries
    ensures SameContent(s.deliveries[d], Step(c, s, l).deliveries[d])
  {
    if l.Advance? {
      NewIdOnly(c, s, s.threads[l.t], l.ch);
      Payload.RowAfter(s, Perform(c, s, s.threads[l.t], l.ch).effect, d);
    }
  }

  lemma NewIdOnly(c: Config, s: State, pc: Pc, ch: Choice)
    requires ChoiceOk(s, pc, ch)
    ensures var e := Perform(c, s, pc, ch).effect;
      e.NewDelivery? ==> e.id !in s.hist.home
  {
  }

  lemma {:induction false} OnceContentStays(c: Config, s: State, labels: seq<Label>, s': State, d: DeliveryId,
                                            script: Option<Script>, tr: Payload.Transforms,
                                            w: Option<Persistence.Stored>)
    requires Inv(c, s) && d in s.deliveries && Persistence.OnceSteps(c, s, labels, s', d, script, tr, w)
    requires d in s'.deliveries
    ensures Inv(c, s') && SameContent(s.deliveries[d], s'.deliveries[d])
    decreases |labels|
  {
    if labels != [] {
      var init, l := labels[..|labels| - 1], labels[|labels| - 1];
      var m, w0 :| Persistence.OnceSteps(c, s, init, m, d, script, tr, w0) && d in m.deliveries && Enabled(c, m, l)
        && Persistence.ScriptsStay(m, l, d, script, tr) && Persistence.StoresOnce(m, l, d, w0, w)
        && s' == Step(c, m, l);
      OnceContentStays(c, s, init, m, d, script, tr, w0);
      StepKeeps(c, m, l);
      ContentStays(c, m, l, d);
    }
  }

  /** From the request to the dispatcher, with anything else going on in between: the posted payload and headers are
      stored as such, and every attempt on the delivery carries them, or what the source script made of them, as the
      action's own script leaves it. */
  lemma PostedIsSent(c: Config, s0: State, between: seq<Label>, m: State, t: ThreadId, source: SourceId, idem: string,
                     headers: Json, payload: Json, ch: Choice, d: DeliveryId, labels: seq<Label>, s: State,
                     script: Option<Script>, tr: Payload.Transforms, w: Option<Persistence.Stored>)
    requires Carries(c, s0, between, m, t, source, idem, headers, payload) && Stores(c, m, t, ch, d)
    requires Payload.FixedScripts(AdvanceStep(c, m, t, ch), d, script, tr)
    requires Persistence.OnceRun(c, AdvanceStep(c, m, t, ch), labels, s, d, script, tr, w)
    ensures d in s.deliveries && s.deliveries[d].payload == payload && s.deliveries[d].headers == headers
    ensures s.deliveries[d].source == source
    ensures Persistence.SentAsMade(c, s.hist.log, d, payload, headers, script, tr, w)
  {
    RequestIsCarried(c, s0, between, m, t, source, idem, headers, payload);
    assert Unfold(TheRun, 0);
    RequestIsStored(c, m, t, ch, d);
    StoredStarts(c, m, t, ch, d, script, tr);
    StoredIsSent(c, m, t, ch, d, labels, s, script, tr, w);
  }

  lemma StoredIsSent(c: Config, m: State, t: ThreadId, ch: Choice, d: DeliveryId, labels: seq<Label>, s: State,
                     script: Option<Script>, tr: Payload.Transforms, w: Option<Persistence.Stored>)
    requires Reachable(c, m) && Stores(c, m, t, ch, d)
    requires Persistence.OneInv(c, AdvanceStep(c, m, t, ch), d, script, tr, None)
    requires Persistence.OnceRun(c, AdvanceStep(c, m, t, ch), labels, s, d, script, tr, w)
    ensures d in s.deliveries && SameContent(AdvanceStep(c, m, t, ch).deliveries[d], s.deliveries[d])
    ensures Persistence.SentAsMade(c, s.hist.log, d, s.deliveries[d].payload, s.deliveries[d].headers, script, tr, w)
  {
    Guarantees.ReachableInv(c, m);
    assert Step(c, m, Advance(t, ch)) == AdvanceStep(c, m, t, ch);
    StepKeeps(c, m, Advance(t, ch));
    assert Unfold(TheRun, 0);
    Persistence.OnceStepsKeep(c, AdvanceStep(c, m, t, ch), labels, s, d, script, tr, w);
    OnceContentStays(c, AdvanceStep(c, m, t, ch), labels, s, d, script, tr, w);
    Persistence.TablesSay(c, s, d, script, tr, w);
  }

  /** Without scripts, that is the posted payload and headers themselves, in every attempt. */
  lemma PostedIsSentPlainly(c: Config, s0: State, between: seq<Label>, m: State, t: ThreadId, source: SourceId,
                            idem: string, headers: Json, payload: Json, ch: Choice, d: DeliveryId, labels: seq<Label>,
                            s: State, script: Option<Script>, tr: Payload.Transforms,
                            w: Option<Persistence.Stored>, i: nat)
    requires Carries(c, s0, between, m, t, source, idem, headers, payload) && Stores(c, m, t, ch, d)
    requires Payload.FixedScripts(AdvanceStep(c, m, t, ch), d, script, tr)
    requires script in {None, Some("")} && forall a :: tr(a) in {None, Some("")}
    requires Persistence.OnceRun(c, AdvanceStep(c, m, t, ch), labels, s, d, script, tr, w)
    requires i < |s.hist.log| && s.hist.log[i].key.delivery == d
    ensures s.hist.log[i].payload == payload && s.hist.log[i].headers == headers
  {
    PostedIsSent(c, s0, between, m, t, source, idem, headers, payload, ch, d, labels, s, script, tr, w);
    assert tr(s.hist.log[i].key.action) in {None, Some("")};
  }
}

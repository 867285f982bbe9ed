/** A source that is in record mode throughout: nothing is sent unless a forward asks for it, and a forward is
    never turned away for good. */
module RecordMode {
  import opened Types
  import opened Machine
  import opened Safety
  import Filter
  import Quiescence

  ghost predicate Recording(s: State, source: SourceId) {
    source in s.sources ==> s.sources[source].mode == Record
  }

  /** A run from the start through states in which `source` records. */
  ghost predicate RecordSteps(c: Config, labels: seq<Label>, s: State, source: SourceId)
    decreases |labels|
  {
    if labels == [] then s == INIT
    else
      var init, l := labels[..|labels| - 1], labels[|labels| - 1];
      exists m :: RecordSteps(c, init, m, source) && Enabled(c, m, l) && s == Step(c, m, l) && Recording(s, source)
  }

  /** Such a run, kept folded. */
  ghost predicate RecordRun(c: Config, labels: seq<Label>, s: State, source: SourceId) {
    forall n: nat :: Unfold(TheRun, n) ==> RecordSteps(c, labels, s, source)
  }

  /** A thread here acts for an admitted delivery. */
  ghost predicate Past(pc: Pc) {
    || pc.PdActions? || pc.PdPersist? || pc.PdFinish? || pc.Insert? || pc.Dispatch? || pc.Settle?
    || pc.RtDelivery? || pc.RtAction? || pc.Clear?
    || pc.RollDelivery? || pc.RollActions? || pc.RollAttempts? || pc.RollWrite?
  }

  ghost predicate PcRec(hist: History, source: SourceId, pc: Pc) {
    var d := Quiescence.Subject(pc);
    && (d.Some? && !pc.FwLoad? ==> d.value in hist.home)
    && ((pc.PdStart? || pc.PdSource? || pc.PdAdmit?) && pc.force ==> pc.d in hist.forced)
    && (pc.PdSource? || pc.PdAdmit? ==> pc.d in hist.home && pc.snap.source == hist.home[pc.d])
    && (d.Some? && d.value in hist.home && hist.home[d.value] == source ==>
          (pc.PdAdmit? ==> pc.force) && (Past(pc) ==> d.value in hist.admitted))
  }

  /** Of a recording source only admitted deliveries, all of them forwarded, have attempts or a further status. */
  ghost predicate TablesRec(s: State, source: SourceId) {
    && s.hist.admitted <= s.hist.forced && s.hist.admitted <= s.hist.home.Keys
    && (forall m :: m in s.stream ==> m.delivery in s.hist.home && (m.force ==> m.delivery in s.hist.forced))
    && (forall d :: d in s.deliveries && s.deliveries[d].source == source ==>
          s.deliveries[d].status in {Pending, Recorded} || d in s.hist.admitted)
    && (forall k :: k in s.hist.issued && k.delivery in s.hist.home && s.hist.home[k.delivery] == source ==>
          k.delivery in s.hist.admitted)
  }

  ghost predicate RecInv(s: State, source: SourceId) {
    TablesRec(s, source) && forall t :: t in s.threads ==> PcRec(s.hist, source, s.threads[t])
  }

  lemma {:induction false} NextFanPast(c: Config, d: DeliveryId, rest: seq<Todo>, payload: Json, headers: Json)
    ensures Past(NextFan(c, d, rest, payload, headers))
    decreases |rest|
  {
    if rest != [] && Transform(c, rest[0].transform, payload, headers).Skip? {
      NextFanPast(c, d, rest[1..], payload, headers);
    }
  }

  /** Once past admission, always past it; and only an admitting thread gets there. */
  ghost predicate GoesOn(pc: Pc, move: Move) {
    && (pc.PdAdmit? && move.next.Some? ==> move.effect == Effect.Admit(pc.d, pc.force))
    && (!pc.PdAdmit? && move.next.Some? ==> (Past(move.next.value) <==> Past(pc)))
    && (pc.PdAdmit? && move.next.Some? ==> Past(move.next.value))
  }

  lemma PastStays(c: Config, s: State, pc: Pc, ch: Choice)
    requires ChoiceOk(s, pc, ch)
    ensures GoesOn(pc, Perform(c, s, pc, ch))
  {
    if pc.PdActions? || pc.PdPersist? {
      ListedPast(c, s, pc, ch);
    } else if (pc.Insert? || pc.Settle?) && pc.k.Fan? {
      NextFanPast(c, pc.key.delivery, pc.k.rest, pc.k.payload, pc.k.headers);
    }
  }

  lemma ListedPast(c: Config, s: State, pc: Pc, ch: Choice)
    requires ChoiceOk(s, pc, ch) && (pc.PdActions? || pc.PdPersist?)
    ensures GoesOn(pc, Perform(c, s, pc, ch))
  {
    if pc.PdActions? {
      NextFanPast(c, pc.d, Todos(s.actions, ch.listing), pc.snap.payload, pc.snap.headers);
    } else {
      NextFanPast(c, pc.d, Filter.Kept(pc.acts, IdSet(pc.kept)), pc.payload, pc.headers);
    }
  }

  /** What a call may do to a recording source's deliveries. */
  ghost predicate EffectRec(s: State, e: Effect, source: SourceId) {
    match e
    case SetStatus(d, status) =>
      d in s.deliveries && s.deliveries[d].source == source ==>
        status in {Pending, Recorded} || d in s.hist.admitted
    case Admit(d, force) =>
      && (force ==> d in s.hist.forced && d in s.hist.home)
      && (d in s.deliveries && s.deliveries[d].source == source ==> force)
    case InsertRow(key) =>
      key.delivery in s.hist.home && s.hist.home[key.delivery] == source ==> key.delivery in s.hist.admitted
    case Publish(m) => m.delivery in s.hist.home
    case NewDelivery(id, row) => row.status == Pending && id !in s.hist.home
    case _ => true
  }

  lemma CallRec(c: Config, s: State, pc: Pc, ch: Choice, source: SourceId)
    requires TablesOk(s) && ChoiceOk(s, pc, ch) && PcRec(s.hist, source, pc)
    ensures EffectRec(s, Perform(c, s, pc, ch).effect, source)
  {
  }

  ghost predicate HistGrows(hist: History, hist': History) {
    && hist.forced <= hist'.forced && hist.admitted <= hist'.admitted
    && (forall d :: d in hist.home ==> d in hist'.home && hist'.home[d] == hist.home[d])
  }

  /** Histories only grow, so what threads know stays true. */
  lemma PcRecStays(hist: History, hist': History, source: SourceId, pc: Pc)
    requires PcRec(hist, source, pc)
    requires HistGrows(hist, hist')
    ensures PcRec(hist', source, pc)
  {
  }

  lemma EffectGrows(s: State, e: Effect)
    requires e.NewDelivery? ==> e.id !in s.hist.home
    ensures HistGrows(s.hist, Apply(s, e).hist) && Apply(s, e).threads == s.threads
  {
  }

  lemma EffectKeepsTables(s: State, e: Effect, source: SourceId)
    requires TablesOk(s) && TablesRec(s, source) && EffectRec(s, e, source)
    ensures TablesRec(Apply(s, e), source)
  {
  }

  lemma EffectKeepsRec(c: Config, s: State, e: Effect, source: SourceId)
    requires TablesOk(s) && RecInv(s, source) && EffectRec(s, e, source)
    ensures RecInv(Apply(s, e), source) && HistGrows(s.hist, Apply(s, e).hist)
  {
    EffectGrows(s, e);
    EffectKeepsTables(s, e, source);
    forall t | t in s.threads
      ensures PcRec(Apply(s, e).hist, source, s.threads[t])
    {
      PcRecStays(s.hist, Apply(s, e).hist, source, s.threads[t]);
    }
  }

  // -------------------------------------------------- steps

  lemma NextRec(c: Config, s: State, pc: Pc, ch: Choice, hist': History, source: SourceId)
    requires Inv(c, s) && RecInv(s, source) && Recording(s, source)
    requires ChoiceOk(s, pc, ch) && PcRec(s.hist, source, pc)
    requires PcOk(c.maxRetries, s.attempts, s.hist.issued, s.hist.log, pc)
    requires hist' == Apply(s, Perform(c, s, pc, ch).effect).hist
    requires HistGrows(s.hist, hist')
    ensures var next := Perform(c, s, pc, ch).next; next.Some? ==> PcRec(hist', source, next.value)
  {
    PastStays(c, s, pc, ch);
    Quiescence.SubjectStays(c, s, pc, ch);
    if !Past(pc) {
      EarlyRec(c, s, pc, ch, hist', source);
    } else {
      PastRec(c, s, pc, ch, hist', source);
    }
  }

  lemma PastRec(c: Config, s: State, pc: Pc, ch: Choice, hist': History, source: SourceId)
    requires ChoiceOk(s, pc, ch) && PcRec(s.hist, source, pc) && Past(pc)
    requires Quiescence.KeepsTo(pc, Perform(c, s, pc, ch), Quiescence.Subject(pc))
    requires var next := Perform(c, s, pc, ch).next; next.Some? ==> Past(next.value)
    requires HistGrows(s.hist, hist')
    ensures var next := Perform(c, s, pc, ch).next; next.Some? ==> PcRec(hist', source, next.value)
  {
  }

  /** Before admission only a forced thread of a recording source gets on to admit. */
  lemma EarlyRec(c: Config, s: State, pc: Pc, ch: Choice, hist': History, source: SourceId)
    requires TablesOk(s) && Recording(s, source)
    requires ChoiceOk(s, pc, ch) && PcRec(s.hist, source, pc) && !Past(pc)
    requires var next := Perform(c, s, pc, ch).next; !pc.PdAdmit? && next.Some? ==> !Past(next.value)
    requires hist' == Apply(s, Perform(c, s, pc, ch).effect).hist
    requires HistGrows(s.hist, hist')
    ensures var next := Perform(c, s, pc, ch).next; next.Some? ==> PcRec(hist', source, next.value)
  {
  }

  lemma AdvanceRec(c: Config, s: State, t: ThreadId, ch: Choice, source: SourceId)
    requires Inv(c, s) && RecInv(s, source) && Recording(s, source)
    requires t in s.threads && ChoiceOk(s, s.threads[t], ch)
    ensures RecInv(AdvanceStep(c, s, t, ch), source)
  {
    var pc := s.threads[t];
    var move := Perform(c, s, pc, ch);
    CallRec(c, s, pc, ch, source);
    EffectKeepsRec(c, s, move.effect, source);
    NextRec(c, s, pc, ch, Apply(s, move.effect).hist, source);
    ThreadRec(Apply(s, move.effect), t, move.next, source);
    assert AdvanceStep(c, s, t, ch)
        == Apply(s, move.effect).(threads := Threads(Apply(s, move.effect).threads, t, move.next));
  }

  lemma ThreadRec(s: State, t: ThreadId, next: Option<Pc>, source: SourceId)
    requires RecInv(s, source) && (next.Some? ==> PcRec(s.hist, source, next.value))
    ensures RecInv(s.(threads := Threads(s.threads, t, next)), source)
  {
  }

  lemma SpawnRec(s: State, s': State, t: ThreadId, pc: Pc, source: SourceId)
    requires RecInv(s, source) && PcRec(s.hist, source, pc)
    requires s' == Spawn(s, t, pc).(stream := s'.stream) && s'.stream <= s.stream
    ensures RecInv(s', source)
  {
  }

  lemma NewPcRec(c: Config, s: State, l: Label, source: SourceId)
    requires RowsOk(c.maxRetries, s.attempts, s.hist.issued, s.hist.log) && TablesOk(s)
    requires RecInv(s, source) && Enabled(c, s, l) && Spawns(l)
    ensures PcRec(s.hist, source, NewPc(s, l))
  {
  }

  lemma WorldRec(c: Config, s: State, l: Label, source: SourceId)
    requires Inv(c, s) && RecInv(s, source) && Enabled(c, s, l) && !l.Advance?
    ensures RecInv(Step(c, s, l), source)
  {
    if l.Crash? {
      ThreadRec(s, l.t, None, source);
    } else if Spawns(l) {
      NewPcRec(c, s, l, source);
      SpawnRec(s, Step(c, s, l), l.t, NewPc(s, l), source);
    } else {
      EditRec(c, s, l, source);
    }
  }

  lemma EditRec(c: Config, s: State, l: Label, source: SourceId)
    requires RecInv(s, source) && Enabled(c, s, l) && !l.Advance? && !l.Crash? && !Spawns(l)
    ensures RecInv(Step(c, s, l), source)
  {
  }

  lemma {:induction false} RecStepsKeep(c: Config, labels: seq<Label>, s: State, source: SourceId)
    requires RecordSteps(c, labels, s, source)
    ensures Inv(c, s) && RecInv(s, source) && Recording(s, source)
    decreases |labels|
  {
    if labels != [] {
      var init, l := labels[..|labels| - 1], labels[|labels| - 1];
      var m :| RecordSteps(c, init, m, source) && Enabled(c, m, l) && s == Step(c, m, l) && Recording(s, source);
      RecStepsKeep(c, init, m, source);
      StepKeeps(c, m, l);
      if l.Advance? {
        AdvanceRec(c, m, l.t, l.ch, source);
      } else {
        WorldRec(c, m, l, source);
      }
    }
  }

  // -------------------------------------------------- the theorems

  /** No attempt and no dispatch for a delivery of a recording source, now or before, unless a forward published
      a forced message for it. */
  lemma RecordIsolation(c: Config, labels: seq<Label>, s: State, source: SourceId, d: DeliveryId)
    requires RecordRun(c, labels, s, source)
    requires d in s.hist.home && s.hist.home[d] == source && d !in s.hist.forced
    ensures forall k :: k in s.attempts ==> k.delivery != d
    ensures forall i :: 0 <= i < |s.hist.log| ==> s.hist.log[i].key.delivery != d
    ensures d in s.deliveries ==> s.deliveries[d].status in {Pending, Recorded}
  {
    assert Unfold(TheRun, 0);
    RecStepsKeep(c, labels, s, source);
  }

  /** While a forced message waits, its delivery can still be admitted, or an earlier forced message did it;
      so a thread that reads the delivery for the message turns away only what was admitted already.  In
      particular, a catch-up poll that set the delivery back to recorded does not spoil the forward. */
  lemma ForwardHandshake(c: Config, labels: seq<Label>, s: State, source: SourceId, d: DeliveryId, ch: Choice)
    requires RecordRun(c, labels, s, source) && d in s.deliveries && s.deliveries[d].source == source
    requires ch.reply == Ok && 0.0 <= ch.jitter < 1.0
    ensures s.deliveries[d].status in {Pending, Recorded} || d in s.hist.admitted
    ensures source in s.sources
    ensures d !in s.hist.admitted ==>
              Perform(c, s, PdStart(d, true), ch).next == Some(PdSource(d, true, s.deliveries[d]))
    ensures Perform(c, s, PdSource(d, true, s.deliveries[d]), ch).next
         == Some(PdAdmit(d, true, s.deliveries[d], s.sources[source].script))
  {
    assert Unfold(TheRun, 0);
    RecStepsKeep(c, labels, s, source);
  }
}

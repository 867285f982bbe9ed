/** What racing workers converge to when nothing fails: one delivery of an active source whose script, if it has one,
    keeps all active actions, none of which skips it.  Other deliveries and sources may do anything. */
module Quiescence {
  import opened Types
  import opened Machine
  import opened Decisions
  import opened Safety
  import Verdict
  import Filter
  import Guarantees

  /** The delivery a thread works on. */
  ghost function Subject(pc: Pc): Option<DeliveryId> {
    match pc
    case Insert(key, _, _, _) => Some(key.delivery)
    case Dispatch(key, _, _, _) => Some(key.delivery)
    case Settle(key, _, _) => Some(key.delivery)
    case RtDelivery(prev) => Some(prev.delivery)
    case RtAction(prev, _) => Some(prev.delivery)
    case Clear(prev) => Some(prev.delivery)
    case IgInsert(_, _, _, _, _) => None
    case _ => Some(pc.d)
  }

  ghost predicate InFlight(s: State, d: DeliveryId) {
    exists t :: t in s.threads && Subject(s.threads[t]) == Some(d)
  }

  /** Calls on behalf of `d` succeed and its threads do not crash; its source and the actions of its source
      are not edited or deleted. */
  ghost predicate Benign(s: State, l: Label, d: DeliveryId)
    requires d in s.deliveries
  {
    var source := s.deliveries[d].source;
    match l
    case Advance(t, ch) => t in s.threads && Subject(s.threads[t]) == Some(d) ==> ch.reply == Ok
    case Crash(t) => t in s.threads ==> Subject(s.threads[t]) != Some(d)
    case PutSource(x, _) => x != source
    case PutAction(_, def) => def.source != source
    case DeleteAction(a) => a in s.actions ==> s.actions[a].source != source
    case DeleteSource(x) => x != source
    case _ => true
  }

  ghost predicate BenignSteps(c: Config, s: State, labels: seq<Label>, s': State, d: DeliveryId)
    decreases |labels|
  {
    if labels == [] then s == s'
    else
      var init, l := labels[..|labels| - 1], labels[|labels| - 1];
      exists m :: BenignSteps(c, s, init, m, d) && d in m.deliveries && Enabled(c, m, l) && Benign(m, l, d)
        && s' == Step(c, m, l)
  }

  /** A run of benign steps. */
  ghost predicate BenignRun(c: Config, s: State, labels: seq<Label>, s': State, d: DeliveryId) {
    forall n: nat :: Unfold(TheRun, n) ==> BenignSteps(c, s, labels, s', d)
  }

  /** The columns of the transformed content are empty, or they hold `g`. */
  ghost predicate ColumnsHold(row: Delivery, g: Content) {
    || (row.transformedPayload == None && row.transformedHeaders == None)
    || (row.transformedPayload == Some(g.payload) && row.transformedHeaders == Some(g.headers))
  }

  /** A worker that read the source goes on to admit the delivery: the source is active, or the message was forced. */
  ghost predicate Admits(sources: map<SourceId, Source>, row: Delivery, force: bool) {
    row.source in sources && (force || sources[row.source].mode == Active)
  }

  /** What the source of this row says now. */
  ghost predicate ScriptRead(sources: map<SourceId, Source>, row: Delivery, script: Option<Script>) {
    row.source in sources && sources[row.source].script == script
  }

  /** Every active action of the source of `d` is to be sent what it makes of the content `g`. */
  ghost predicate Calm(c: Config, s: State, d: DeliveryId, g: Content) {
    && Served(s, d) && ColumnsHold(s.deliveries[d], g)
    && (Acts(s, d) != {} ==> Decided(c, s, d, Goes(g, Acts(s, d))))
    && (forall a :: a in Acts(s, d) ==> TransformContent(c, s.actions[a].transform, g) != Skip)
  }

  /** `d` is new: pending, never tried, and at most freshly announced. */
  ghost predicate Fresh(s: State, d: DeliveryId) {
    && d in s.deliveries && s.deliveries[d].status == Pending
    && (forall k :: k in s.hist.issued ==> k.delivery != d)
    && (forall t :: t in s.threads && Subject(s.threads[t]) == Some(d) ==>
          s.threads[t].PdStart? || s.threads[t].IgPublish?)
  }

  /** A thread here has not listed the actions yet; it read what the tables still hold, and will write no status
      but `processing`. */
  ghost predicate Early(s: State, d: DeliveryId, pc: Pc)
    requires d in s.deliveries
  {
    var row := s.deliveries[d];
    match pc
    case PdStart(_, _) => true
    case PdSource(_, force, snap) => SameContent(row, snap) && Admits(s.sources, row, force)
    case PdAdmit(_, _, snap, script) => SameContent(row, snap) && ScriptRead(s.sources, row, script)
    case PdActions(_, snap, script) => SameContent(row, snap) && ScriptRead(s.sources, row, script)
    case FwLoad(_, _) => true
    case FwPublish(_) => true
    case IgPublish(_) => true
    case _ => false
  }

  ghost predicate SomeLists(threads: map<ThreadId, Pc>, d: DeliveryId) {
    exists t :: t in threads && threads[t].PdActions? && threads[t].d == d
  }

  /** `d` was never tried: it is pending, or just admitted, and nobody has listed the actions for it yet. */
  ghost predicate Untried(s: State, d: DeliveryId) {
    && d in s.deliveries && s.deliveries[d].status in {Pending, Processing}
    && (forall k :: k in s.hist.issued ==> k.delivery != d)
    && (forall t :: t in s.threads && Subject(s.threads[t]) == Some(d) ==> Early(s, d, s.threads[t]))
    && (s.deliveries[d].status == Processing ==> SomeLists(s.threads, d))
    && (s.deliveries[d].status == Pending ==> !SomeLists(s.threads, d))
  }

  lemma FreshIsUntried(s: State, d: DeliveryId)
    requires Fresh(s, d)
    ensures Untried(s, d)
  {
  }

  ghost function VerdictOf(c: Config, s: State, d: DeliveryId): Option<DeliveryStatus>
    requires d in s.deliveries
  {
    Verdict.Of(c.maxRetries, Acts(s, d), s.attempts, d)
  }

  /** Once a thread is here it goes on to a roll-up, or writes the status at once. */
  ghost predicate Owes(pc: Pc) {
    || pc.PdActions? || pc.PdPersist? || pc.PdFinish? || pc.Insert? || pc.Dispatch? || pc.Settle? || pc.Clear?
    || pc.RollDelivery? || pc.RollActions? || pc.RollAttempts? || pc.RollWrite?
  }

  ghost predicate SomeOwes(threads: map<ThreadId, Pc>, d: DeliveryId) {
    exists t :: t in threads && Subject(threads[t]) == Some(d) && Owes(threads[t])
  }

  ghost predicate SomeHolds(threads: map<ThreadId, Pc>, k: Key) {
    exists t :: t in threads && Held(threads[t]) == Some(k)
  }

  ghost predicate Awaits(k: Cont, a: ActionId) {
    k.Fan? && exists todo :: todo in k.rest && todo.id == a
  }

  /** The thread will try to insert the first attempt of `a` on `d`. */
  ghost predicate WillInsert(pc: Pc, d: DeliveryId, a: ActionId) {
    || ((pc.PdActions? || pc.PdPersist?) && pc.d == d)
    || (pc.Insert? && pc.key == Key(d, a, 1))
    || ((pc.Insert? || pc.Dispatch? || pc.Settle?) && pc.key.delivery == d && Awaits(pc.k, a))
  }

  ghost predicate SomeInserts(threads: map<ThreadId, Pc>, d: DeliveryId, a: ActionId) {
    exists t :: t in threads && WillInsert(threads[t], d, a)
  }

  ghost predicate TodosOk(c: Config, rest: seq<Todo>, g: Content) {
    forall todo :: todo in rest ==> TransformContent(c, todo.transform, g) != Skip
  }

  ghost predicate ContCalm(c: Config, k: Cont, g: Content) {
    k.Fan? ==> Content(k.payload, k.headers) == g && TodosOk(c, k.rest, g)
  }

  /** The fan-out of `todos` goes to all these actions. */
  ghost predicate Covers(todos: seq<Todo>, acts: set<ActionId>) {
    forall a :: a in acts ==> exists todo :: todo in todos && todo.id == a
  }

  /** The thread is about to store the content, and keeps all active actions. */
  ghost predicate PersistCalm(c: Config, acts: set<ActionId>, pc: Pc, g: Content)
    requires pc.PdPersist?
  {
    && Content(pc.payload, pc.headers) == g && TodosOk(c, pc.acts, g) && Covers(pc.acts, acts)
    && pc.acts != [] && forall todo :: todo in pc.acts ==> todo.id in IdSet(pc.kept)
  }

  ghost predicate PcCalm(c: Config, s: State, d: DeliveryId, pc: Pc, g: Content)
    requires d in s.deliveries
  {
    var row := s.deliveries[d];
    match pc
    case PdStart(_, _) => true
    case PdSource(_, force, snap) => SameContent(row, snap) && Admits(s.sources, row, force)
    case PdAdmit(_, _, snap, script) => SameContent(row, snap) && ScriptRead(s.sources, row, script)
    case PdActions(_, snap, script) => SameContent(row, snap) && ScriptRead(s.sources, row, script)
    case PdPersist(_, _, _, _, _) => PersistCalm(c, Acts(s, d), pc, g)
    case PdFinish(_, status) => status == Completed && Acts(s, d) == {}
    case Insert(_, _, _, k) => ContCalm(c, k, g) && StoredContent(row) == g
    case Dispatch(_, _, _, k) => ContCalm(c, k, g) && StoredContent(row) == g
    case Settle(_, _, k) => ContCalm(c, k, g) && StoredContent(row) == g
    case RtDelivery(_) => StoredContent(row) == g
    case RtAction(_, snap) => StoredContent(row) == g && StoredContent(snap) == g
    case Clear(prev) => prev.action in Acts(s, d) ==> Succ(prev) in s.attempts
    case RollDelivery(_) => true
    case RollActions(_, source) => source == row.source
    case RollAttempts(_, listing) => IdSet(listing) == Acts(s, d)
    case RollWrite(_, status) => VerdictOf(c, s, d) == Some(status)
    case FwLoad(_, _) => true
    case FwPublish(_) => true
    case IgPublish(_) => true
    case _ => false
  }

  ghost predicate ThreadsCalm(c: Config, s: State, d: DeliveryId, g: Content)
    requires d in s.deliveries
  {
    forall t :: t in s.threads && Subject(s.threads[t]) == Some(d) ==>
      PcCalm(c, s, d, s.threads[t], g) && (Owes(s.threads[t]) ==> s.deliveries[d].status != Pending)
  }

  /** An attempt still pending is in the hands of a thread. */
  ghost predicate PendingHeld(s: State, d: DeliveryId) {
    forall k :: k in s.attempts && k.delivery == d && s.attempts[k].status == AttemptPending ==>
      SomeHolds(s.threads, k)
  }

  /** A failed attempt with retries left is scheduled until its successor exists. */
  ghost predicate RetriesKept(c: Config, s: State, d: DeliveryId)
    requires d in s.deliveries
  {
    forall k :: k in s.attempts && k.delivery == d && k.action in Acts(s, d) ==>
      s.attempts[k].status == AttemptFailed && k.number < c.maxRetries ==>
        s.attempts[k].nextRetryAt.Some? || Succ(k) in s.attempts
  }

  /** Once `d` is admitted, every active action is tried or about to be. */
  ghost predicate AllTried(s: State, d: DeliveryId)
    requires d in s.deliveries
  {
    s.deliveries[d].status != Pending ==>
      forall a :: a in Acts(s, d) ==> Key(d, a, 1) in s.attempts || SomeInserts(s.threads, d, a)
  }

  /** Whatever was sent is what the row holds now, so that a retry sends it again. */
  ghost predicate ContentStored(s: State, d: DeliveryId, g: Content)
    requires d in s.deliveries
  {
    forall k :: k in s.attempts && k.delivery == d ==> StoredContent(s.deliveries[d]) == g
  }

  /** A final status is the verdict; a verdict that the status does not show yet is known to some thread. */
  ghost predicate StatusTracks(c: Config, s: State, d: DeliveryId)
    requires d in s.deliveries
  {
    var status := s.deliveries[d].status;
    && status != Recorded
    && (status == Completed || status == Failed ==> VerdictOf(c, s, d) == Some(status))
    && (status != Pending && VerdictOf(c, s, d).Some? && VerdictOf(c, s, d) != Some(status) ==>
          SomeOwes(s.threads, d))
    && (status == Pending ==> forall k :: k in s.attempts ==> k.delivery != d)
  }

  ghost predicate CalmInv(c: Config, s: State, d: DeliveryId, g: Content) {
    && Calm(c, s, d, g) && ThreadsCalm(c, s, d, g) && PendingHeld(s, d) && RetriesKept(c, s, d)
    && AllTried(s, d) && StatusTracks(c, s, d) && ContentStored(s, d, g)
  }

  /** The same, folded: the quantifier keeps a proof from unfolding what it only passes on. */
  ghost predicate Quiet(c: Config, s: State, d: DeliveryId, g: Content) {
    forall n: nat :: Unfold(TheCalm, n) ==> CalmInv(c, s, d, g)
  }

  lemma UntriedCalm(c: Config, s: State, d: DeliveryId, g: Content)
    requires Inv(c, s) && Calm(c, s, d, g) && Untried(s, d)
    ensures CalmInv(c, s, d, g)
  {
    assert forall k :: k in s.attempts ==> k.delivery != d;
    UntriedThreads(c, s, d, g);
    if s.deliveries[d].status == Processing {
      var t :| t in s.threads && s.threads[t].PdActions? && s.threads[t].d == d;
      assert Subject(s.threads[t]) == Some(d) && Owes(s.threads[t]);
      forall a
        ensures SomeInserts(s.threads, d, a)
      {
        assert WillInsert(s.threads[t], d, a);
      }
    }
    VerdictValue(c, s, d);
  }

  lemma UntriedThreads(c: Config, s: State, d: DeliveryId, g: Content)
    requires Calm(c, s, d, g) && Untried(s, d)
    ensures ThreadsCalm(c, s, d, g)
  {
  }

  // -------------------------------------------------- steps on behalf of others

  /** Nothing that concerns `d` differs. */
  ghost predicate SameFor(s: State, s': State, d: DeliveryId)
    requires d in s.deliveries
  {
    var source := s.deliveries[d].source;
    && d in s'.deliveries && s'.deliveries[d] == s.deliveries[d]
    && (source in s.sources ==> source in s'.sources && s'.sources[source] == s.sources[source])
    && ActiveIds(s'.actions, source) == ActiveIds(s.actions, source)
    && (forall a :: a in ActiveIds(s.actions, source) ==> s'.actions[a] == s.actions[a])
    && (forall k :: k in s'.attempts && k.delivery == d ==> k in s.attempts && s'.attempts[k] == s.attempts[k])
    && (forall k :: k in s.attempts && k.delivery == d && k.action in Acts(s, d) ==> k in s'.attempts)
  }

  /** The threads working on `d` are the same. */
  ghost predicate SameThreadsFor(s: State, s': State, d: DeliveryId) {
    && (forall t :: t in s.threads && Subject(s.threads[t]) == Some(d) ==>
          t in s'.threads && s'.threads[t] == s.threads[t])
    && (forall t :: t in s'.threads && Subject(s'.threads[t]) == Some(d) ==>
          t in s.threads && s'.threads[t] == s.threads[t])
  }

  /** The same, up to newcomers that owe nothing. */
  ghost predicate JoinedFor(c: Config, s: State, s': State, d: DeliveryId, g: Content)
    requires d in s'.deliveries
  {
    && (forall t :: t in s.threads && Subject(s.threads[t]) == Some(d) ==>
          t in s'.threads && s'.threads[t] == s.threads[t])
    && (forall t :: t in s'.threads && Subject(s'.threads[t]) == Some(d) ==>
          (t in s.threads && s'.threads[t] == s.threads[t])
          || (PcCalm(c, s', d, s'.threads[t], g) && !Owes(s'.threads[t])))
  }

  lemma SameVerdictFor(c: Config, s: State, s': State, d: DeliveryId)
    requires d in s.deliveries && SameFor(s, s', d)
    ensures VerdictOf(c, s', d) == VerdictOf(c, s, d)
  {
    Guarantees.VerdictSame(c.maxRetries, Acts(s, d), s.attempts, s'.attempts, d);
  }

  lemma HoldersSubject(pc: Pc, d: DeliveryId, k: Key, a: ActionId)
    ensures Held(pc) == Some(k) ==> Subject(pc) == Some(k.delivery)
    ensures WillInsert(pc, d, a) ==> Subject(pc) == Some(d)
  {
  }

  lemma FrameCalm(c: Config, s: State, s': State, d: DeliveryId, g: Content)
    requires CalmInv(c, s, d, g) && SameFor(s, s', d) && JoinedFor(c, s, s', d, g)
    ensures CalmInv(c, s', d, g)
  {
    SameVerdictFor(c, s, s', d);
    assert Acts(s', d) == Acts(s, d);
    FrameSource(c, s, s', d, g);
    FrameThreads(c, s, s', d, g);
    FrameHeld(s, s', d);
    FrameTried(s, s', d);
    if SomeOwes(s.threads, d) {
      var t :| t in s.threads && Subject(s.threads[t]) == Some(d) && Owes(s.threads[t]);
      assert t in s'.threads && s'.threads[t] == s.threads[t];
    }
  }

  lemma FrameSource(c: Config, s: State, s': State, d: DeliveryId, g: Content)
    requires Calm(c, s, d, g) && SameFor(s, s', d)
    ensures Calm(c, s', d, g)
  {
    assert Acts(s', d) == Acts(s, d);
    if Acts(s, d) != {} {
      DecidedStays(c, s, s', d, Goes(g, Acts(s, d)));
    }
  }

  lemma FrameThreads(c: Config, s: State, s': State, d: DeliveryId, g: Content)
    requires d in s.deliveries && ThreadsCalm(c, s, d, g) && s.deliveries[d].source in s.sources
    requires SameFor(s, s', d) && JoinedFor(c, s, s', d, g) && VerdictOf(c, s', d) == VerdictOf(c, s, d)
    ensures ThreadsCalm(c, s', d, g)
  {
    assert Acts(s', d) == Acts(s, d);
  }

  lemma FrameHeld(s: State, s': State, d: DeliveryId)
    requires d in s.deliveries && SameFor(s, s', d) && PendingHeld(s, d)
    requires forall t :: t in s.threads && Subject(s.threads[t]) == Some(d) ==>
               t in s'.threads && s'.threads[t] == s.threads[t]
    ensures PendingHeld(s', d)
  {
    forall k | k in s'.attempts && k.delivery == d && s'.attempts[k].status == AttemptPending
      ensures SomeHolds(s'.threads, k)
    {
      var t :| t in s.threads && Held(s.threads[t]) == Some(k);
      assert t in s'.threads && Held(s'.threads[t]) == Some(k);
    }
  }

  lemma FrameTried(s: State, s': State, d: DeliveryId)
    requires d in s.deliveries && SameFor(s, s', d) && AllTried(s, d)
    requires forall t :: t in s.threads && Subject(s.threads[t]) == Some(d) ==>
               t in s'.threads && s'.threads[t] == s.threads[t]
    ensures AllTried(s', d)
  {
    forall a | a in Acts(s, d) && SomeInserts(s.threads, d, a)
      ensures SomeInserts(s'.threads, d, a)
    {
      var t :| t in s.threads && WillInsert(s.threads[t], d, a);
      HoldersSubject(s.threads[t], d, Key(d, a, 1), a);
      assert WillInsert(s'.threads[t], d, a);
    }
  }

  ghost function EffectOn(e: Effect): Option<DeliveryId> {
    match e
    case NoEffect => None
    case SetStatus(d, _) => Some(d)
    case Admit(d, _) => Some(d)
    case SetTransformed(d, _, _) => Some(d)
    case InsertRow(key) => Some(key.delivery)
    case Sent(event) => Some(event.key.delivery)
    case UpdateRow(key, _, _) => Some(key.delivery)
    case Publish(m) => Some(m.delivery)
    case NewDelivery(id, _) => Some(id)
  }

  lemma NextFanSubject(c: Config, d: DeliveryId, rest: seq<Todo>, payload: Json, headers: Json)
    ensures Subject(NextFan(c, d, rest, payload, headers)) == Some(d)
    decreases |rest|
  {
    if rest != [] && Transform(c, rest[0].transform, payload, headers).Skip? {
      NextFanSubject(c, d, rest[1..], payload, headers);
    }
  }

  lemma ResumeSubject(c: Config, d: DeliveryId, k: Cont)
    requires k.Redo? ==> k.prev.delivery == d
    ensures Subject(Resume(c, d, k)) == Some(d)
  {
    if k.Fan? {
      NextFanSubject(c, d, k.rest, k.payload, k.headers);
    }
  }

  ghost predicate KeepsTo(pc: Pc, move: Move, d: Option<DeliveryId>) {
    && (move.next.Some? ==> Subject(move.next.value) == d)
    && (!move.effect.NoEffect? ==> EffectOn(move.effect) == d)
  }

  lemma FanKeepsTo(c: Config, s: State, pc: Pc, ch: Choice)
    requires ChoiceOk(s, pc, ch) && (pc.PdActions? || pc.PdPersist?)
    ensures KeepsTo(pc, Perform(c, s, pc, ch), Subject(pc))
  {
    if pc.PdActions? {
      NextFanSubject(c, pc.d, Todos(s.actions, ch.listing), pc.snap.payload, pc.snap.headers);
    } else {
      NextFanSubject(c, pc.d, Filter.Kept(pc.acts, IdSet(pc.kept)), pc.payload, pc.headers);
    }
  }

  lemma AttemptKeepsTo(c: Config, s: State, pc: Pc, ch: Choice)
    requires ChoiceOk(s, pc, ch) && (pc.Insert? || pc.Settle?)
    requires pc.k.Redo? ==> pc.k.prev.delivery == pc.key.delivery
    ensures KeepsTo(pc, Perform(c, s, pc, ch), Subject(pc))
  {
    ResumeSubject(c, pc.key.delivery, pc.k);
  }

  lemma PlainKeepsTo(c: Config, s: State, pc: Pc, ch: Choice)
    requires ChoiceOk(s, pc, ch) && !pc.PdActions? && !pc.PdPersist? && !pc.Insert? && !pc.Settle? && !pc.IgInsert?
    ensures KeepsTo(pc, Perform(c, s, pc, ch), Subject(pc))
  {
  }

  /** A thread keeps to its delivery. */
  lemma SubjectStays(c: Config, s: State, pc: Pc, ch: Choice)
    requires ChoiceOk(s, pc, ch)
    requires PcOk(c.maxRetries, s.attempts, s.hist.issued, s.hist.log, pc)
    ensures KeepsTo(pc, Perform(c, s, pc, ch), if pc.IgInsert? then Some(ch.newId) else Subject(pc))
  {
    if pc.PdActions? || pc.PdPersist? {
      FanKeepsTo(c, s, pc, ch);
    } else if pc.Insert? || pc.Settle? {
      AttemptKeepsTo(c, s, pc, ch);
    } else if !pc.IgInsert? {
      PlainKeepsTo(c, s, pc, ch);
    }
  }

  lemma OtherEffect(s: State, e: Effect, d: DeliveryId)
    requires d in s.deliveries && EffectOn(e) != Some(d)
    ensures SameFor(s, Apply(s, e), d) && Apply(s, e).threads == s.threads
  {
  }

  lemma OtherAdvance(c: Config, s: State, t: ThreadId, ch: Choice, d: DeliveryId, g: Content)
    requires Inv(c, s) && CalmInv(c, s, d, g) && t in s.threads && ChoiceOk(s, s.threads[t], ch)
    requires Subject(s.threads[t]) != Some(d)
    ensures CalmInv(c, AdvanceStep(c, s, t, ch), d, g)
  {
    var move := Perform(c, s, s.threads[t], ch);
    SubjectStays(c, s, s.threads[t], ch);
    OtherEffect(s, move.effect, d);
    FrameCalm(c, s, AdvanceStep(c, s, t, ch), d, g);
  }

  lemma SpawnCalm(c: Config, s: State, s': State, t: ThreadId, pc: Pc, d: DeliveryId, g: Content)
    requires CalmInv(c, s, d, g) && t !in s.threads && s' == Spawn(s, t, pc).(stream := s'.stream)
    requires Subject(pc) == Some(d) ==> !Owes(pc) && PcCalm(c, s, d, pc, g)
    ensures CalmInv(c, s', d, g)
  {
    FrameCalm(c, s, s', d, g);
  }

  lemma SpawnsCalm(c: Config, s: State, l: Label, d: DeliveryId, g: Content)
    requires CalmInv(c, s, d, g) && Enabled(c, s, l) && Spawns(l)
    ensures CalmInv(c, Step(c, s, l), d, g)
  {
    NewcomerOwesNothing(c, s, l, d, g);
    SpawnCalm(c, s, Step(c, s, l), l.t, NewPc(s, l), d, g);
  }

  lemma NewcomerOwesNothing(c: Config, s: State, l: Label, d: DeliveryId, g: Content)
    requires CalmInv(c, s, d, g) && Enabled(c, s, l) && Spawns(l)
    ensures var pc := NewPc(s, l); Subject(pc) == Some(d) ==> !Owes(pc) && PcCalm(c, s, d, pc, g)
  {
  }

  /** Edits, deletions, crashes and lost messages elsewhere leave `d` alone. */
  lemma EditSame(c: Config, s: State, l: Label, d: DeliveryId)
    requires TablesOk(s) && d in s.deliveries && Enabled(c, s, l) && Benign(s, l, d)
    requires l.Crash? || l.LoseMessage? || l.PutSource? || l.PutAction? || l.DeleteAction?
    ensures SameFor(s, Step(c, s, l), d) && SameThreadsFor(s, Step(c, s, l), d)
  {
    if l.PutAction? || l.DeleteAction? {
      ActionEdited(c, s, l, d);
    }
  }

  lemma ActionEdited(c: Config, s: State, l: Label, d: DeliveryId)
    requires d in s.deliveries && Enabled(c, s, l) && Benign(s, l, d)
    requires l.PutAction? || l.DeleteAction?
    ensures SameFor(s, Step(c, s, l), d)
  {
    var source := s.deliveries[d].source;
    assert ActiveIds(Step(c, s, l).actions, source) == ActiveIds(s.actions, source);
  }

  lemma DeleteSame(c: Config, s: State, x: SourceId, d: DeliveryId)
    requires TablesOk(s) && d in s.deliveries && x in s.sources && x != s.deliveries[d].source
    ensures SameFor(s, Step(c, s, DeleteSource(x)), d) && SameThreadsFor(s, Step(c, s, DeleteSource(x)), d)
  {
  }

  /** Steps of the outside world. */
  lemma WorldCalm(c: Config, s: State, l: Label, d: DeliveryId, g: Content)
    requires Inv(c, s) && CalmInv(c, s, d, g) && Enabled(c, s, l) && Benign(s, l, d) && !l.Advance?
    ensures CalmInv(c, Step(c, s, l), d, g)
  {
    if l.Crash? || l.LoseMessage? || l.PutSource? || l.PutAction? || l.DeleteAction? {
      EditSame(c, s, l, d);
      FrameCalm(c, s, Step(c, s, l), d, g);
    } else if l.DeleteSource? {
      DeleteSame(c, s, l.source, d);
      FrameCalm(c, s, Step(c, s, l), d, g);
    } else {
      SpawnsCalm(c, s, l, d, g);
    }
  }

  // -------------------------------------------------- calls on behalf of the delivery

  /** A call that only moves its thread from one place that owes nothing to another. */
  lemma BeforeAdmission(c: Config, s: State, t: ThreadId, next: Option<Pc>, d: DeliveryId, g: Content)
    requires Quiet(c, s, d, g) && d in s.deliveries && t in s.threads
    requires Subject(s.threads[t]) == Some(d) && !Owes(s.threads[t])
    requires next.Some? ==> Subject(next.value) == Some(d) && PcCalm(c, s, d, next.value, g) && !Owes(next.value)
    ensures Quiet(c, s.(threads := Threads(s.threads, t, next)), d, g)
  {
    assert Unfold(TheCalm, 0);
    var s' := s.(threads := Threads(s.threads, t, next));
    NothingHeld(s.threads, t, next, d);
    NothingInserted(s.threads, t, next, d);
    ThreadsGoOn(c, s, t, next, d, g);
    assert Acts(s', d) == Acts(s, d) && VerdictOf(c, s', d) == VerdictOf(c, s, d);
  }

  lemma ThreadsGoOn(c: Config, s: State, t: ThreadId, next: Option<Pc>, d: DeliveryId, g: Content)
    requires d in s.deliveries && ThreadsCalm(c, s, d, g)
    requires next.Some? ==> Subject(next.value) == Some(d) && PcCalm(c, s, d, next.value, g) && !Owes(next.value)
    ensures ThreadsCalm(c, s.(threads := Threads(s.threads, t, next)), d, g)
  {
  }

  lemma NothingInserted(threads: map<ThreadId, Pc>, t: ThreadId, next: Option<Pc>, d: DeliveryId)
    requires t in threads && !Owes(threads[t])
    ensures forall a :: SomeInserts(threads, d, a) ==> SomeInserts(Threads(threads, t, next), d, a)
  {
    var threads' := Threads(threads, t, next);
    forall a | SomeInserts(threads, d, a)
      ensures SomeInserts(threads', d, a)
    {
      var u :| u in threads && WillInsert(threads[u], d, a);
      assert u in threads' && WillInsert(threads'[u], d, a);
    }
  }

  /** What other threads hold and owe is not the business of a thread that holds and owes nothing. */
  lemma NothingHeld(threads: map<ThreadId, Pc>, t: ThreadId, next: Option<Pc>, d: DeliveryId)
    requires t in threads && !Owes(threads[t])
    ensures forall k :: SomeHolds(threads, k) ==> SomeHolds(Threads(threads, t, next), k)
    ensures SomeOwes(threads, d) ==> SomeOwes(Threads(threads, t, next), d)
  {
    var threads' := Threads(threads, t, next);
    forall k | SomeHolds(threads, k)
      ensures SomeHolds(threads', k)
    {
      var u :| u in threads && Held(threads[u]) == Some(k);
      assert u in threads' && Held(threads'[u]) == Some(k);
    }
    if SomeOwes(threads, d) {
      var u :| u in threads && Subject(threads[u]) == Some(d) && Owes(threads[u]);
      assert u in threads' && threads'[u] == threads[u];
    }
  }

  /** What a call on behalf of `d` may do to its row: change the status, or store the content `g`. */
  ghost predicate RowGoesOn(row: Delivery, row': Delivery, g: Content) {
    && SameContent(row, row') && (ColumnsHold(row, g) ==> ColumnsHold(row', g))
    && (StoredContent(row) == g ==> StoredContent(row') == g)
  }

  /** The shared state as one call on behalf of `d` leaves it. */
  ghost predicate OwnCall(c: Config, s: State, s': State, d: DeliveryId, g: Content)
    requires d in s.deliveries
  {
    && d in s'.deliveries
    && RowGoesOn(s.deliveries[d], s'.deliveries[d], g)
    && s'.sources == s.sources && s'.actions == s.actions
    && s.attempts.Keys <= s'.attempts.Keys
    && s'.deliveries[d].status != Pending
    && (VerdictOf(c, s, d).Some? ==> VerdictOf(c, s', d) == VerdictOf(c, s, d))
  }

  lemma OwnThreads(c: Config, s: State, s': State, t: ThreadId, next: Option<Pc>, d: DeliveryId, g: Content)
    requires CalmInv(c, s, d, g) && OwnCall(c, s, s', d, g) && s'.threads == Threads(s.threads, t, next)
    requires next.Some? ==> PcCalm(c, s', d, next.value, g)
    ensures Calm(c, s', d, g) && ThreadsCalm(c, s', d, g)
  {
    assert Acts(s', d) == Acts(s, d);
    forall u | u in s.threads && Subject(s.threads[u]) == Some(d)
      ensures PcCalm(c, s', d, s.threads[u], g)
    {
    }
  }

  lemma OwnHeld(s: State, s': State, t: ThreadId, next: Option<Pc>, d: DeliveryId)
    requires PendingHeld(s, d) && t in s.threads && s'.threads == Threads(s.threads, t, next)
    requires forall k :: k in s'.attempts && k.delivery == d && s'.attempts[k].status == AttemptPending ==>
               (next.Some? && Held(next.value) == Some(k))
               || (k in s.attempts && s.attempts[k].status == AttemptPending && Held(s.threads[t]) != Some(k))
    ensures PendingHeld(s', d)
  {
    forall k | k in s'.attempts && k.delivery == d && s'.attempts[k].status == AttemptPending
      ensures SomeHolds(s'.threads, k)
    {
      if next.Some? && Held(next.value) == Some(k) {
        assert Held(s'.threads[t]) == Some(k);
      } else {
        var u :| u in s.threads && Held(s.threads[u]) == Some(k);
        assert u in s'.threads && Held(s'.threads[u]) == Some(k);
      }
    }
  }

  lemma OwnTried(c: Config, s: State, s': State, t: ThreadId, next: Option<Pc>, d: DeliveryId, g: Content)
    requires d in s.deliveries && AllTried(s, d) && OwnCall(c, s, s', d, g)
    requires t in s.threads && s'.threads == Threads(s.threads, t, next)
    requires s.deliveries[d].status != Pending
    requires forall a :: a in Acts(s, d) && WillInsert(s.threads[t], d, a) ==>
               Key(d, a, 1) in s'.attempts || (next.Some? && WillInsert(next.value, d, a))
    ensures AllTried(s', d)
  {
    forall a | a in Acts(s', d)
      ensures Key(d, a, 1) in s'.attempts || SomeInserts(s'.threads, d, a)
    {
      if Key(d, a, 1) !in s.attempts {
        var u :| u in s.threads && WillInsert(s.threads[u], d, a);
        if u != t {
          assert u in s'.threads && WillInsert(s'.threads[u], d, a);
        } else if Key(d, a, 1) !in s'.attempts {
          assert WillInsert(s'.threads[t], d, a);
        }
      }
    }
  }

  lemma OwnStatus(c: Config, s: State, s': State, t: ThreadId, next: Option<Pc>, d: DeliveryId, g: Content)
    requires CalmInv(c, s, d, g) && OwnCall(c, s, s', d, g) && s'.threads == Threads(s.threads, t, next)
    requires s'.deliveries[d].status == s.deliveries[d].status
    requires next.Some? && Subject(next.value) == Some(d) && Owes(next.value)
    ensures StatusTracks(c, s', d)
  {
    assert t in s'.threads && Owes(s'.threads[t]);
  }

  /** What the tables hold for the threads of `d` changed hands, if at all, with this one thread. */
  ghost predicate HandedOn(s: State, s': State, t: ThreadId, next: Pc, d: DeliveryId)
    requires d in s.deliveries && t in s.threads
  {
    && (forall k :: k in s'.attempts && k.delivery == d && s'.attempts[k].status == AttemptPending ==>
          Held(next) == Some(k)
          || (k in s.attempts && s.attempts[k].status == AttemptPending && Held(s.threads[t]) != Some(k)))
    && (forall a :: a in Acts(s, d) && WillInsert(s.threads[t], d, a) ==>
          Key(d, a, 1) in s'.attempts || WillInsert(next, d, a))
  }

  /** A call on the attempts by a thread that owes a roll-up and goes on owing it. */
  lemma OwnMoved(c: Config, s: State, s': State, t: ThreadId, next: Pc, d: DeliveryId, g: Content)
    requires Quiet(c, s, d, g) && d in s.deliveries && t in s.threads && s.deliveries[d].status != Pending
    requires OwnCall(c, s, s', d, g) && s'.deliveries[d].status == s.deliveries[d].status
    requires s'.threads == Threads(s.threads, t, Some(next))
    requires PcCalm(c, s', d, next, g) && Owes(next) && Subject(next) == Some(d)
    requires RetriesKept(c, s', d) && HandedOn(s, s', t, next, d) && ContentStored(s', d, g)
    ensures Quiet(c, s', d, g)
  {
    assert Unfold(TheCalm, 0);
    OwnThreads(c, s, s', t, Some(next), d, g);
    OwnHeld(s, s', t, Some(next), d);
    OwnTried(c, s, s', t, Some(next), d, g);
    OwnStatus(c, s, s', t, Some(next), d, g);
  }

  // Where a fan-out without skips goes on.

  lemma FanCalm(c: Config, d: DeliveryId, rest: seq<Todo>, g: Content)
    requires TodosOk(c, rest, g)
    ensures var pc := NextFan(c, d, rest, g.payload, g.headers);
      && Owes(pc) && Subject(pc) == Some(d) && Held(pc) == None
      && (pc.RollDelivery? || (pc.Insert? && ContCalm(c, pc.k, g)))
      && (forall a :: (exists todo :: todo in rest && todo.id == a) ==> WillInsert(pc, d, a))
  {
    if rest != [] {
      assert rest[0] in rest;
      assert forall todo :: todo in rest[1..] ==> todo in rest;
      assert forall todo :: todo in rest ==> todo == rest[0] || todo in rest[1..];
    }
  }

  lemma ContGoesOn(c: Config, s: State, d: DeliveryId, key: Key, k: Cont, g: Content)
    requires d in s.deliveries && key.delivery == d && ContCalm(c, k, g) && StoredContent(s.deliveries[d]) == g
    requires k.Redo? ==> key == Succ(k.prev) && (key.action in Acts(s, d) ==> key in s.attempts)
    ensures var pc := Resume(c, d, k);
      && Owes(pc) && Subject(pc) == Some(d) && Held(pc) == None && PcCalm(c, s, d, pc, g)
      && (forall a :: Awaits(k, a) ==> WillInsert(pc, d, a))
  {
    if k.Fan? {
      FanCalm(c, d, k.rest, g);
    }
  }

  /** `t` is about to make a call on behalf of `d`, which will succeed, and this is its move.  As with runs, the
      quantifier keeps the step folded. */
  ghost predicate Makes(c: Config, s: State, t: ThreadId, ch: Choice, move: Move) {
    Moves(c, s, t, ch, move) && ch.reply == Ok
  }

  ghost predicate Calling(c: Config, s: State, t: ThreadId, ch: Choice, move: Move, d: DeliveryId, g: Content) {
    && Sound(c, s) && Quiet(c, s, d, g) && d in s.deliveries && t in s.threads && Subject(s.threads[t]) == Some(d)
    && Makes(c, s, t, ch, move)
  }

  lemma CallFacts(c: Config, s: State, t: ThreadId, ch: Choice, move: Move, d: DeliveryId, g: Content)
    requires Calling(c, s, t, ch, move, d, g)
    ensures Served(s, d) && Calm(c, s, d, g) && s.deliveries[d].status != Recorded
    ensures PcCalm(c, s, d, s.threads[t], g) && (Owes(s.threads[t]) ==> s.deliveries[d].status != Pending)
    ensures PcOk(c.maxRetries, s.attempts, s.hist.issued, s.hist.log, s.threads[t])
  {
    assert Unfold(TheInvariant, 0) && Unfold(TheCalm, 0);
  }

  lemma TableFacts(c: Config, s: State, t: ThreadId, ch: Choice, move: Move, d: DeliveryId, g: Content)
    requires Calling(c, s, t, ch, move, d, g)
    ensures d in s.deliveries && RetriesKept(c, s, d) && ContentStored(s, d, g) && TablesOk(s)
  {
    assert Unfold(TheInvariant, 0) && Unfold(TheCalm, 0);
  }

  /** Reading the delivery and the source before admission, and a request that finds nothing to do. */
  lemma EarlyCall(c: Config, s: State, t: ThreadId, ch: Choice, move: Move, d: DeliveryId, g: Content)
    requires Calling(c, s, t, ch, move, d, g)
    requires var pc := s.threads[t]; pc.PdStart? || pc.PdSource? || pc.RtDelivery? || pc.FwLoad?
    ensures Quiet(c, After(s, t, move), d, g)
  {
    CallFacts(c, s, t, ch, move, d, g);
    EarlyMoves(c, s, t, ch, move, d, g);
    BeforeAdmission(c, s, t, move.next, d, g);
  }

  lemma EarlyMoves(c: Config, s: State, t: ThreadId, ch: Choice, move: Move, d: DeliveryId, g: Content)
    requires t in s.threads && Makes(c, s, t, ch, move) && Calm(c, s, d, g) && s.deliveries[d].status != Recorded
    requires var pc := s.threads[t];
      (pc.PdStart? || pc.PdSource? || pc.RtDelivery? || pc.FwLoad?) && Subject(pc) == Some(d) && PcCalm(c, s, d, pc, g)
    ensures move.effect == NoEffect
    ensures move.next.Some? ==>
              Subject(move.next.value) == Some(d) && PcCalm(c, s, d, move.next.value, g) && !Owes(move.next.value)
  {
    assert Unfold(TheMove, 0);
  }

  ghost predicate Publishes(pc: Pc) {
    pc.IgPublish? || pc.FwPublish?
  }

  lemma PublishCall(c: Config, s: State, t: ThreadId, ch: Choice, move: Move, d: DeliveryId, g: Content)
    requires Calling(c, s, t, ch, move, d, g) && Publishes(s.threads[t])
    ensures Quiet(c, After(s, t, move), d, g)
  {
    PublishMoves(c, s, t, ch, move);
    CallFacts(c, s, t, ch, move, d, g);
    Published(c, s, t, d, s.threads[t].FwPublish?, g);
  }

  lemma Published(c: Config, s: State, t: ThreadId, d: DeliveryId, force: bool, g: Content)
    requires Quiet(c, s, d, g) && d in s.deliveries
    requires t in s.threads && Publishes(s.threads[t]) && s.threads[t].d == d
    ensures Quiet(c, After(s, t, Move(Publish(Message(d, force)), None)), d, g)
  {
    var s' := s.(threads := Threads(s.threads, t, None));
    BeforeAdmission(c, s, t, None, d, g);
    PublishedCalm(c, s', Message(d, force), d, g);
    assert After(s, t, Move(Publish(Message(d, force)), None)) == Apply(s', Publish(Message(d, force)));
  }

  lemma PublishMoves(c: Config, s: State, t: ThreadId, ch: Choice, move: Move)
    requires t in s.threads && Publishes(s.threads[t]) && Makes(c, s, t, ch, move)
    ensures move == Move(Publish(Message(s.threads[t].d, s.threads[t].FwPublish?)), None)
  {
    assert Unfold(TheMove, 0);
  }

  lemma PublishedCalm(c: Config, s: State, m: Message, d: DeliveryId, g: Content)
    requires Quiet(c, s, d, g)
    ensures Quiet(c, Apply(s, Publish(m)), d, g)
  {
    assert Unfold(TheCalm, 0);
    FrameCalm(c, s, Apply(s, Publish(m)), d, g);
  }

  /** Admission: whatever the status was by now, it becomes `processing`. */
  lemma AdmitCall(c: Config, s: State, t: ThreadId, ch: Choice, move: Move, d: DeliveryId, g: Content)
    requires Calling(c, s, t, ch, move, d, g) && s.threads[t].PdAdmit?
    ensures Quiet(c, After(s, t, move), d, g)
  {
    AdmitMoves(c, s, t, ch, move);
    CallFacts(c, s, t, ch, move, d, g);
    Admitted(c, s, t, move, d, g);
  }

  lemma Admitted(c: Config, s: State, t: ThreadId, move: Move, d: DeliveryId, g: Content)
    requires Quiet(c, s, d, g) && d in s.deliveries && t in s.threads && s.threads[t].PdAdmit? && s.threads[t].d == d
    requires PcCalm(c, s, d, s.threads[t], g)
    requires var PdAdmit(_, force, snap, script) := s.threads[t];
      move == Move(Effect.Admit(d, force), Some(PdActions(d, snap, script)))
    ensures Quiet(c, After(s, t, move), d, g)
  {
    assert Unfold(TheCalm, 0);
    var s' := After(s, t, move);
    OwnThreads(c, s, s', t, move.next, d, g);
    OwnHeld(s, s', t, move.next, d);
    assert WillInsert(s'.threads[t], d, 0) && Owes(s'.threads[t]);
    assert forall a :: SomeInserts(s'.threads, d, a) by {
      assert forall a :: WillInsert(s'.threads[t], d, a);
    }
  }

  lemma AdmitMoves(c: Config, s: State, t: ThreadId, ch: Choice, move: Move)
    requires t in s.threads && s.threads[t].PdAdmit? && Makes(c, s, t, ch, move)
    ensures var PdAdmit(d, force, snap, script) := s.threads[t];
      move == Move(Effect.Admit(d, force), Some(PdActions(d, snap, script)))
  {
    assert Unfold(TheMove, 0);
  }

  /** A read by a thread that owes a roll-up and goes on owing it. */
  lemma ReadCall(c: Config, s: State, t: ThreadId, next: Pc, d: DeliveryId, g: Content)
    requires Quiet(c, s, d, g) && d in s.deliveries && t in s.threads && Subject(s.threads[t]) == Some(d)
    requires Held(s.threads[t]) == None && s.deliveries[d].status != Pending
    requires Owes(next) && Subject(next) == Some(d) && PcCalm(c, s, d, next, g)
    requires forall a :: a in Acts(s, d) && WillInsert(s.threads[t], d, a) ==>
               Key(d, a, 1) in s.attempts || WillInsert(next, d, a)
    ensures Quiet(c, s.(threads := s.threads[t := next]), d, g)
  {
    assert Unfold(TheCalm, 0);
    var s' := s.(threads := s.threads[t := next]);
    OwnThreads(c, s, s', t, Some(next), d, g);
    OwnHeld(s, s', t, Some(next), d);
    OwnTried(c, s, s', t, Some(next), d, g);
    OwnStatus(c, s, s', t, Some(next), d, g);
  }

  /** Reading the active actions: the fan-out will try them all. */
  lemma ListCall(c: Config, s: State, t: ThreadId, ch: Choice, move: Move, d: DeliveryId, g: Content)
    requires Calling(c, s, t, ch, move, d, g) && s.threads[t].PdActions?
    ensures Quiet(c, After(s, t, move), d, g)
  {
    CallFacts(c, s, t, ch, move, d, g);
    ListMoves(c, s, t, ch, move, d, g);
    ReadCall(c, s, t, move.next.value, d, g);
  }

  lemma ListMoves(c: Config, s: State, t: ThreadId, ch: Choice, move: Move, d: DeliveryId, g: Content)
    requires t in s.threads && s.threads[t].PdActions? && s.threads[t].d == d && Makes(c, s, t, ch, move)
    requires Calm(c, s, d, g) && PcCalm(c, s, d, s.threads[t], g)
    ensures move.effect == NoEffect && move.next.Some?
    ensures var next := move.next.value;
      && Owes(next) && Subject(next) == Some(d) && PcCalm(c, s, d, next, g)
      && forall a :: a in Acts(s, d) ==> WillInsert(next, d, a)
  {
    ListMakes(c, s, t, ch, move, d);
    assert IdSet(ch.listing) == Acts(s, d);
    if ch.listing == [] {
      assert move.next == Some(PdFinish(d, Completed));
    } else {
      assert ch.listing[0] in Acts(s, d);
      TodosOfActive(c, s, d, ch.listing, g);
      FanCalm(c, d, Todos(s.actions, ch.listing), g);
      ListGoes(c, s, t, ch, move, d, g);
    }
  }

  lemma ListMakes(c: Config, s: State, t: ThreadId, ch: Choice, move: Move, d: DeliveryId)
    requires t in s.threads && s.threads[t].PdActions? && s.threads[t].d == d && Makes(c, s, t, ch, move)
    requires Served(s, d) && s.threads[t].snap.source == s.deliveries[d].source
    ensures ch.reply == Ok && ChoiceOk(s, s.threads[t], ch) && Lists(s.actions, s.deliveries[d].source, ch.listing)
    ensures move == Perform(c, s, s.threads[t], ch)
    ensures ch.listing == [] ==> move == Goto(PdFinish(d, Completed))
  {
    assert Unfold(TheMove, 0);
  }

  lemma ListGoes(c: Config, s: State, t: ThreadId, ch: Choice, move: Move, d: DeliveryId, g: Content)
    requires t in s.threads && s.threads[t].PdActions? && s.threads[t].d == d && Calm(c, s, d, g)
    requires PcCalm(c, s, d, s.threads[t], g) && ch.reply == Ok && ChoiceOk(s, s.threads[t], ch)
    requires Lists(s.actions, s.deliveries[d].source, ch.listing) && Acts(s, d) == IdSet(ch.listing) != {}
    requires move == Perform(c, s, s.threads[t], ch)
    ensures var acts := Todos(s.actions, ch.listing);
      && move.effect == NoEffect && move.next.Some?
      && if move.next.value.PdPersist? then
           && move.next.value.d == d && move.next.value.acts == acts != []
           && Content(move.next.value.payload, move.next.value.headers) == g
           && forall todo :: todo in acts ==> todo.id in IdSet(move.next.value.kept)
         else
           move.next.value == NextFan(c, d, acts, g.payload, g.headers) && StoredContent(s.deliveries[d]) == g
  {
    var pc := s.threads[t];
    ListsAsDecided(c, s, pc, ch);
    TodosListed(s.actions, ch.listing);
    assert Received(pc.snap) == Received(s.deliveries[d]);
    assert DecisionFor(c, pc.script, Received(pc.snap), ch.listing) == Goes(g, Acts(s, d));
    if !HasScript(pc.script) {
      assert g == Received(s.deliveries[d]);
    }
  }

  lemma TodosOfActive(c: Config, s: State, d: DeliveryId, listing: seq<ActionId>, g: Content)
    requires Calm(c, s, d, g) && Lists(s.actions, s.deliveries[d].source, listing)
    ensures var todos := Todos(s.actions, listing); TodosOk(c, todos, g) && Covers(todos, Acts(s, d))
  {
    var todos := Todos(s.actions, listing);
    TodosListed(s.actions, listing);
    forall a | a in Acts(s, d)
      ensures exists todo :: todo in todos && todo.id == a
    {
      assert Todo(a, s.actions[a].transform) in todos;
    }
  }

  /** Storing the content that the script made, and going on to send it. */
  lemma PersistCall(c: Config, s: State, t: ThreadId, ch: Choice, move: Move, d: DeliveryId, g: Content)
    requires Calling(c, s, t, ch, move, d, g) && s.threads[t].PdPersist?
    ensures Quiet(c, After(s, t, move), d, g)
  {
    CallFacts(c, s, t, ch, move, d, g);
    TableFacts(c, s, t, ch, move, d, g);
    PersistMoves(c, s, t, ch, move, d, g);
    PersistHands(c, s, t, move, d, g);
    OwnMoved(c, s, After(s, t, move), t, move.next.value, d, g);
  }

  lemma PersistMoves(c: Config, s: State, t: ThreadId, ch: Choice, move: Move, d: DeliveryId, g: Content)
    requires t in s.threads && s.threads[t].PdPersist? && s.threads[t].d == d && Makes(c, s, t, ch, move)
    requires d in s.deliveries && PcCalm(c, s, d, s.threads[t], g)
    ensures move == Move(SetTransformed(d, g.payload, g.headers),
                         Some(NextFan(c, d, s.threads[t].acts, g.payload, g.headers)))
  {
    assert Unfold(TheMove, 0);
    var PdPersist(_, _, _, acts, kept) := s.threads[t];
    Filter.KeptAll(acts, IdSet(kept));
    assert acts[0] in acts && acts[0].id in kept;
  }

  lemma PersistHands(c: Config, s: State, t: ThreadId, move: Move, d: DeliveryId, g: Content)
    requires Calm(c, s, d, g) && s.deliveries[d].status != Pending && RetriesKept(c, s, d)
    requires t in s.threads && s.threads[t].PdPersist? && s.threads[t].d == d && PcCalm(c, s, d, s.threads[t], g)
    requires move == Move(SetTransformed(d, g.payload, g.headers),
                          Some(NextFan(c, d, s.threads[t].acts, g.payload, g.headers)))
    ensures var s', next := After(s, t, move), move.next.value;
      && OwnCall(c, s, s', d, g) && s'.deliveries[d].status == s.deliveries[d].status
      && PcCalm(c, s', d, next, g) && Owes(next) && Subject(next) == Some(d)
      && RetriesKept(c, s', d) && HandedOn(s, s', t, next, d) && ContentStored(s', d, g)
  {
    FanCalm(c, d, s.threads[t].acts, g);
  }

  /** The second read of a retry. */
  lemma RetryCall(c: Config, s: State, t: ThreadId, ch: Choice, move: Move, d: DeliveryId, g: Content)
    requires Calling(c, s, t, ch, move, d, g) && s.threads[t].RtAction?
    ensures Quiet(c, After(s, t, move), d, g)
  {
    CallFacts(c, s, t, ch, move, d, g);
    RetryMoves(c, s, t, ch, move, d, g);
    if move.next == None {
      BeforeAdmission(c, s, t, None, d, g);
    } else {
      TableFacts(c, s, t, ch, move, d, g);
      assert s.threads[t].prev in s.attempts;
      TriedNotPending(c, s, s.threads[t].prev, g);
      ReadCall(c, s, t, move.next.value, d, g);
    }
  }

  lemma TriedNotPending(c: Config, s: State, k: Key, g: Content)
    requires Quiet(c, s, k.delivery, g) && k in s.attempts
    ensures k.delivery in s.deliveries && s.deliveries[k.delivery].status != Pending
  {
    assert Unfold(TheCalm, 0);
  }

  lemma RetryMoves(c: Config, s: State, t: ThreadId, ch: Choice, move: Move, d: DeliveryId, g: Content)
    requires t in s.threads && s.threads[t].RtAction? && Makes(c, s, t, ch, move) && Calm(c, s, d, g)
    requires Subject(s.threads[t]) == Some(d) && PcCalm(c, s, d, s.threads[t], g)
    ensures move.effect == NoEffect
    ensures move.next.Some? ==>
              && s.threads[t].prev.action in s.actions && Owes(move.next.value)
              && Subject(move.next.value) == Some(d) && PcCalm(c, s, d, move.next.value, g)
  {
    assert Unfold(TheMove, 0);
  }

  // Calls on the attempts.

  ghost predicate OnAttempts(pc: Pc) {
    pc.Insert? || pc.Dispatch? || pc.Settle? || pc.Clear?
  }

  lemma AttemptMoves(c: Config, s: State, t: ThreadId, ch: Choice, move: Move)
    requires t in s.threads && OnAttempts(s.threads[t]) && Makes(c, s, t, ch, move)
    ensures var e := move.effect; e.NoEffect? || e.InsertRow? || e.Sent? || e.UpdateRow?
  {
    assert Unfold(TheMove, 0);
  }

  lemma AttemptFrame(s: State, t: ThreadId, move: Move)
    requires var e := move.effect; e.NoEffect? || e.InsertRow? || e.Sent? || e.UpdateRow?
    ensures var s' := After(s, t, move);
      && s'.deliveries == s.deliveries && s'.sources == s.sources && s'.actions == s.actions
      && s.attempts.Keys <= s'.attempts.Keys
  {
  }

  lemma AttemptVerdict(c: Config, s: State, t: ThreadId, ch: Choice, move: Move, d: DeliveryId)
    requires Sound(c, s) && d in s.deliveries && VerdictOf(c, s, d).Some?
    requires t in s.threads && Makes(c, s, t, ch, move)
    requires After(s, t, move).deliveries == s.deliveries && After(s, t, move).actions == s.actions
    ensures VerdictOf(c, After(s, t, move), d) == VerdictOf(c, s, d)
  {
    assert Unfold(TheMove, 0) && Unfold(TheInvariant, 0);
    var l := Advance(t, ch);
    assert Enabled(c, s, l) && Step(c, s, l) == After(s, t, move);
    Guarantees.VerdictStays(c, s, l, d);
  }

  /** A call on the attempts leaves everything else of `d` alone, and any verdict. */
  lemma AttemptCall(c: Config, s: State, t: ThreadId, ch: Choice, move: Move, d: DeliveryId, g: Content)
    requires Calling(c, s, t, ch, move, d, g) && OnAttempts(s.threads[t])
    ensures OwnCall(c, s, After(s, t, move), d, g) && After(s, t, move).deliveries == s.deliveries
  {
    CallFacts(c, s, t, ch, move, d, g);
    AttemptMoves(c, s, t, ch, move);
    AttemptFrame(s, t, move);
    if VerdictOf(c, s, d).Some? {
      AttemptVerdict(c, s, t, ch, move, d);
    }
  }

  /** Inserting an attempt, or finding it already there. */
  lemma InsertCall(c: Config, s: State, t: ThreadId, ch: Choice, move: Move, d: DeliveryId, g: Content)
    requires Calling(c, s, t, ch, move, d, g) && s.threads[t].Insert?
    ensures Quiet(c, After(s, t, move), d, g)
  {
    var Insert(key, p, h, k) := s.threads[t];
    CallFacts(c, s, t, ch, move, d, g);
    InsertMoves(c, s, t, ch, move);
    if CanInsert(s, key) {
      InsertNew(c, s, t, ch, move, d, g);
    } else {
      ContGoesOn(c, s, d, key, k, g);
      ReadCall(c, s, t, Resume(c, d, k), d, g);
    }
  }

  lemma InsertMoves(c: Config, s: State, t: ThreadId, ch: Choice, move: Move)
    requires t in s.threads && s.threads[t].Insert? && Makes(c, s, t, ch, move)
    ensures var Insert(key, p, h, k) := s.threads[t];
      move == if CanInsert(s, key) then Move(InsertRow(key), Some(Dispatch(key, p, h, k)))
              else Goto(Resume(c, key.delivery, k))
  {
    assert Unfold(TheMove, 0);
  }

  lemma InsertNew(c: Config, s: State, t: ThreadId, ch: Choice, move: Move, d: DeliveryId, g: Content)
    requires Calling(c, s, t, ch, move, d, g) && s.threads[t].Insert? && CanInsert(s, s.threads[t].key)
    requires var Insert(key, p, h, k) := s.threads[t]; move == Move(InsertRow(key), Some(Dispatch(key, p, h, k)))
    ensures Quiet(c, After(s, t, move), d, g)
  {
    CallFacts(c, s, t, ch, move, d, g);
    TableFacts(c, s, t, ch, move, d, g);
    InsertHands(c, s, t, move, d, g);
    AttemptCall(c, s, t, ch, move, d, g);
    OwnMoved(c, s, After(s, t, move), t, move.next.value, d, g);
  }

  lemma InsertHands(c: Config, s: State, t: ThreadId, move: Move, d: DeliveryId, g: Content)
    requires d in s.deliveries && RetriesKept(c, s, d)
    requires t in s.threads && s.threads[t].Insert? && PcCalm(c, s, d, s.threads[t], g)
    requires s.threads[t].key !in s.attempts
    requires var Insert(key, p, h, k) := s.threads[t]; move == Move(InsertRow(key), Some(Dispatch(key, p, h, k)))
    ensures var s', next := After(s, t, move), move.next.value;
      RetriesKept(c, s', d) && HandedOn(s, s', t, next, d) && PcCalm(c, s', d, next, g)
  {
    InsertedRows(c, s, After(s, t, move), s.threads[t].key, d);
  }

  lemma InsertedRows(c: Config, s: State, s': State, key: Key, d: DeliveryId)
    requires d in s.deliveries && RetriesKept(c, s, d) && key !in s.attempts
    requires s'.attempts == s.attempts[key := Attempt(AttemptPending, None)]
    requires s'.deliveries == s.deliveries && s'.actions == s.actions
    ensures RetriesKept(c, s', d)
  {
  }

  lemma DispatchCall(c: Config, s: State, t: ThreadId, ch: Choice, move: Move, d: DeliveryId, g: Content)
    requires Calling(c, s, t, ch, move, d, g) && s.threads[t].Dispatch?
    ensures Quiet(c, After(s, t, move), d, g)
  {
    CallFacts(c, s, t, ch, move, d, g);
    DispatchShape(c, s, t, ch, move);
    TableFacts(c, s, t, ch, move, d, g);
    DispatchHands(c, s, t, move, d, g);
    AttemptCall(c, s, t, ch, move, d, g);
    OwnMoved(c, s, After(s, t, move), t, move.next.value, d, g);
  }

  lemma DispatchHands(c: Config, s: State, t: ThreadId, move: Move, d: DeliveryId, g: Content)
    requires d in s.deliveries && RetriesKept(c, s, d)
    requires t in s.threads && s.threads[t].Dispatch? && PcCalm(c, s, d, s.threads[t], g)
    requires move.effect.Sent? && move.next.Some? && move.next.value.Settle?
    requires move.next.value.key == s.threads[t].key && move.next.value.k == s.threads[t].k
    ensures var s', next := After(s, t, move), move.next.value;
      RetriesKept(c, s', d) && HandedOn(s, s', t, next, d) && PcCalm(c, s', d, next, g)
  {
  }

  /** Recording an outcome: the attempt is final, or scheduled. */
  lemma SettleCall(c: Config, s: State, t: ThreadId, ch: Choice, move: Move, d: DeliveryId, g: Content)
    requires Calling(c, s, t, ch, move, d, g) && s.threads[t].Settle?
    ensures Quiet(c, After(s, t, move), d, g)
  {
    CallFacts(c, s, t, ch, move, d, g);
    SettleMoves(c, s, t, ch, move);
    TableFacts(c, s, t, ch, move, d, g);
    SettleHands(c, s, t, move, d, g);
    AttemptCall(c, s, t, ch, move, d, g);
    OwnMoved(c, s, After(s, t, move), t, move.next.value, d, g);
  }

  lemma SettleHands(c: Config, s: State, t: ThreadId, move: Move, d: DeliveryId, g: Content)
    requires TablesOk(s) && d in s.deliveries && RetriesKept(c, s, d)
    requires t in s.threads && PcOk(c.maxRetries, s.attempts, s.hist.issued, s.hist.log, s.threads[t])
    requires s.threads[t].Settle? && s.threads[t].key.delivery == d && PcCalm(c, s, d, s.threads[t], g)
    requires move.effect.UpdateRow? && move.effect.key == s.threads[t].key
    requires Settles(c.maxRetries, s.threads[t].key, s.threads[t].success, move.effect.attempt)
    requires move.next == Some(Resume(c, d, s.threads[t].k))
    ensures var s', next := After(s, t, move), move.next.value;
      && d in s'.deliveries && RetriesKept(c, s', d) && HandedOn(s, s', t, next, d)
      && PcCalm(c, s', d, next, g) && Owes(next) && Subject(next) == Some(d)
  {
    var s' := After(s, t, move);
    var Settle(key, success, k) := s.threads[t];
    SettleRows(c, s, s', key, success, move.effect.attempt, d);
    ContGoesOn(c, s', d, key, k, g);
    SettleHandsOn(s, s', t, move.next.value, d);
  }

  lemma SettleHandsOn(s: State, s': State, t: ThreadId, next: Pc, d: DeliveryId)
    requires d in s.deliveries && t in s.threads && s.threads[t].Settle? && s.threads[t].key.delivery == d
    requires s'.attempts.Keys == s.attempts.Keys
    requires forall k :: k in s.attempts && k != s.threads[t].key ==> s'.attempts[k] == s.attempts[k]
    requires s.threads[t].key in s.attempts ==> s'.attempts[s.threads[t].key].status != AttemptPending
    requires forall a :: Awaits(s.threads[t].k, a) ==> WillInsert(next, d, a)
    ensures HandedOn(s, s', t, next, d)
  {
  }

  lemma SettleMoves(c: Config, s: State, t: ThreadId, ch: Choice, move: Move)
    requires t in s.threads && s.threads[t].Settle? && Makes(c, s, t, ch, move)
    ensures var Settle(key, success, k) := s.threads[t];
      && move.effect.UpdateRow? && move.effect.key == key && Settles(c.maxRetries, key, success, move.effect.attempt)
      && move.next == Some(Resume(c, key.delivery, k))
  {
    assert Unfold(TheMove, 0);
  }

  lemma SettleRows(c: Config, s: State, s': State, key: Key, success: bool, row: Attempt, d: DeliveryId)
    requires TablesOk(s) && d in s.deliveries && RetriesKept(c, s, d)
    requires key in s.hist.issued && key.delivery == d && Settles(c.maxRetries, key, success, row)
    requires s'.attempts == if key in s.attempts then s.attempts[key := row] else s.attempts
    requires s'.deliveries == s.deliveries && s'.actions == s.actions
    ensures s'.attempts.Keys == s.attempts.Keys && RetriesKept(c, s', d)
    ensures key in s.attempts ==> s'.attempts[key].status != AttemptPending
    ensures key.action in Acts(s, d) ==> key in s.attempts
  {
  }

  /** Clearing a schedule whose successor exists. */
  lemma ClearCall(c: Config, s: State, t: ThreadId, ch: Choice, move: Move, d: DeliveryId, g: Content)
    requires Calling(c, s, t, ch, move, d, g) && s.threads[t].Clear?
    ensures Quiet(c, After(s, t, move), d, g)
  {
    CallFacts(c, s, t, ch, move, d, g);
    ClearMoves(c, s, t, ch, move);
    TableFacts(c, s, t, ch, move, d, g);
    ClearHands(c, s, t, move, d, g);
    AttemptCall(c, s, t, ch, move, d, g);
    OwnMoved(c, s, After(s, t, move), t, move.next.value, d, g);
  }

  lemma ClearHands(c: Config, s: State, t: ThreadId, move: Move, d: DeliveryId, g: Content)
    requires d in s.deliveries && RetriesKept(c, s, d)
    requires t in s.threads && PcOk(c.maxRetries, s.attempts, s.hist.issued, s.hist.log, s.threads[t])
    requires s.threads[t].Clear? && s.threads[t].prev.delivery == d && PcCalm(c, s, d, s.threads[t], g)
    requires var prev := s.threads[t].prev;
      move == Move(UpdateRow(prev, Attempt(AttemptFailed, None), None), Some(RollDelivery(d)))
    ensures RetriesKept(c, After(s, t, move), d) && HandedOn(s, After(s, t, move), t, move.next.value, d)
  {
    assert PcOk(c.maxRetries, s.attempts, s.hist.issued, s.hist.log, s.threads[t]);
    ClearRows(c, s, After(s, t, move), s.threads[t].prev, d);
  }

  lemma ClearMoves(c: Config, s: State, t: ThreadId, ch: Choice, move: Move)
    requires t in s.threads && s.threads[t].Clear? && Makes(c, s, t, ch, move)
    ensures var prev := s.threads[t].prev;
      move == Move(UpdateRow(prev, Attempt(AttemptFailed, None), None), Some(RollDelivery(prev.delivery)))
  {
    assert Unfold(TheMove, 0);
  }

  lemma ClearRows(c: Config, s: State, s': State, prev: Key, d: DeliveryId)
    requires d in s.deliveries && RetriesKept(c, s, d) && prev.delivery == d
    requires prev in s.attempts ==> s.attempts[prev].status == AttemptFailed
    requires prev.action in Acts(s, d) ==> Succ(prev) in s.attempts
    requires s'.attempts
          == if prev in s.attempts then s.attempts[prev := Attempt(AttemptFailed, None)] else s.attempts
    requires s'.deliveries == s.deliveries && s'.actions == s.actions
    ensures s'.attempts.Keys == s.attempts.Keys && RetriesKept(c, s', d)
    ensures forall k :: k in s.attempts ==> s'.attempts[k].status == s.attempts[k].status
  {
  }

  // Rolling up.

  lemma RollReadCall(c: Config, s: State, t: ThreadId, ch: Choice, move: Move, d: DeliveryId, g: Content)
    requires Calling(c, s, t, ch, move, d, g)
    requires s.threads[t].RollDelivery? || s.threads[t].RollActions?
    ensures Quiet(c, After(s, t, move), d, g)
  {
    CallFacts(c, s, t, ch, move, d, g);
    RollMoves(c, s, t, ch, move, d, g);
    ReadCall(c, s, t, move.next.value, d, g);
  }

  lemma RollMoves(c: Config, s: State, t: ThreadId, ch: Choice, move: Move, d: DeliveryId, g: Content)
    requires t in s.threads && Makes(c, s, t, ch, move) && d in s.deliveries && Subject(s.threads[t]) == Some(d)
    requires (s.threads[t].RollDelivery? || s.threads[t].RollActions?) && PcCalm(c, s, d, s.threads[t], g)
    ensures move.effect == NoEffect && move.next.Some? && Owes(move.next.value)
    ensures Subject(move.next.value) == Some(d) && PcCalm(c, s, d, move.next.value, g)
  {
    assert Unfold(TheMove, 0);
    if s.threads[t].RollActions? {
      assert IdSet(ch.listing) == Acts(s, d);
    }
  }

  /** Reading the verdict: there is none yet, or the thread is going to write it. */
  lemma RollVerdictCall(c: Config, s: State, t: ThreadId, ch: Choice, move: Move, d: DeliveryId, g: Content)
    requires Calling(c, s, t, ch, move, d, g) && s.threads[t].RollAttempts?
    ensures Quiet(c, After(s, t, move), d, g)
  {
    CallFacts(c, s, t, ch, move, d, g);
    VerdictMoves(c, s, t, ch, move, d, g);
    if VerdictOf(c, s, d).Some? {
      ReadCall(c, s, t, RollWrite(d, VerdictOf(c, s, d).value), d, g);
    } else {
      NoVerdict(c, s, t, d, g);
    }
  }

  lemma VerdictMoves(c: Config, s: State, t: ThreadId, ch: Choice, move: Move, d: DeliveryId, g: Content)
    requires t in s.threads && Makes(c, s, t, ch, move) && d in s.deliveries
    requires s.threads[t].RollAttempts? && s.threads[t].d == d && PcCalm(c, s, d, s.threads[t], g)
    ensures move == if VerdictOf(c, s, d).Some? then Goto(RollWrite(d, VerdictOf(c, s, d).value)) else EXIT
  {
    assert Unfold(TheMove, 0);
  }

  /** Without a verdict a thread may stop owing one. */
  lemma NoVerdict(c: Config, s: State, t: ThreadId, d: DeliveryId, g: Content)
    requires Quiet(c, s, d, g) && t in s.threads && s.threads[t].RollAttempts? && s.threads[t].d == d
    requires d in s.deliveries && VerdictOf(c, s, d) == None
    ensures Quiet(c, s.(threads := Threads(s.threads, t, None)), d, g)
  {
    assert Unfold(TheCalm, 0);
    var s' := s.(threads := Threads(s.threads, t, None));
    assert OwnCall(c, s, s', d, g);
    OwnThreads(c, s, s', t, None, d, g);
    OwnHeld(s, s', t, None, d);
    OwnTried(c, s, s', t, None, d, g);
  }

  /** Writing a final status: it is the verdict. */
  lemma FinalCall(c: Config, s: State, t: ThreadId, ch: Choice, move: Move, d: DeliveryId, g: Content)
    requires Calling(c, s, t, ch, move, d, g) && (s.threads[t].RollWrite? || s.threads[t].PdFinish?)
    ensures Quiet(c, After(s, t, move), d, g)
  {
    CallFacts(c, s, t, ch, move, d, g);
    FinalMoves(c, s, t, ch, move);
    FinalWritten(c, s, t, s.threads[t].status, d, g);
  }

  lemma FinalMoves(c: Config, s: State, t: ThreadId, ch: Choice, move: Move)
    requires t in s.threads && (s.threads[t].RollWrite? || s.threads[t].PdFinish?) && Makes(c, s, t, ch, move)
    ensures move == Move(SetStatus(s.threads[t].d, s.threads[t].status), None)
  {
    assert Unfold(TheMove, 0);
  }

  lemma FinalWritten(c: Config, s: State, t: ThreadId, status: DeliveryStatus, d: DeliveryId, g: Content)
    requires Quiet(c, s, d, g) && t in s.threads && Subject(s.threads[t]) == Some(d)
    requires s.threads[t].RollWrite? || s.threads[t].PdFinish?
    requires d in s.deliveries && VerdictOf(c, s, d) == Some(status) && s.deliveries[d].status != Pending
    ensures Quiet(c, After(s, t, Move(SetStatus(d, status), None)), d, g)
  {
    assert Unfold(TheCalm, 0);
    var s' := After(s, t, Move(SetStatus(d, status), None));
    assert s'.deliveries[d] == s.deliveries[d].(status := status);
    VerdictValue(c, s, d);
    assert OwnCall(c, s, s', d, g);
    OwnThreads(c, s, s', t, None, d, g);
    OwnHeld(s, s', t, None, d);
    OwnTried(c, s, s', t, None, d, g);
  }

  lemma VerdictValue(c: Config, s: State, d: DeliveryId)
    requires d in s.deliveries
    ensures VerdictOf(c, s, d) in {None, Some(Completed), Some(Failed)}
  {
  }

  lemma BenignKeeps(c: Config, s: State, l: Label, d: DeliveryId, g: Content)
    requires Inv(c, s) && CalmInv(c, s, d, g) && Enabled(c, s, l) && Benign(s, l, d)
    ensures CalmInv(c, Step(c, s, l), d, g)
  {
    if !l.Advance? {
      WorldCalm(c, s, l, d, g);
    } else if Subject(s.threads[l.t]) != Some(d) {
      OtherAdvance(c, s, l.t, l.ch, d, g);
    } else {
      OwnKeeps(c, s, l.t, l.ch, d, g);
    }
  }

  lemma OwnKeeps(c: Config, s: State, t: ThreadId, ch: Choice, d: DeliveryId, g: Content)
    requires Inv(c, s) && CalmInv(c, s, d, g) && t in s.threads && ChoiceOk(s, s.threads[t], ch)
    requires Subject(s.threads[t]) == Some(d) && ch.reply == Ok
    ensures CalmInv(c, AdvanceStep(c, s, t, ch), d, g)
  {
    var move := Perform(c, s, s.threads[t], ch);
    assert AdvanceStep(c, s, t, ch) == After(s, t, move);
    OwnMoveKeeps(c, s, t, ch, move, d, g);
    assert Unfold(TheCalm, 0);
  }

  lemma OwnMoveKeeps(c: Config, s: State, t: ThreadId, ch: Choice, move: Move, d: DeliveryId, g: Content)
    requires Calling(c, s, t, ch, move, d, g)
    ensures Quiet(c, After(s, t, move), d, g)
  {
    CallFacts(c, s, t, ch, move, d, g);
    match s.threads[t] {
      case PdAdmit(_, _, _, _) => AdmitCall(c, s, t, ch, move, d, g);
      case PdActions(_, _, _) => ListCall(c, s, t, ch, move, d, g);
      case PdPersist(_, _, _, _, _) => PersistCall(c, s, t, ch, move, d, g);
      case Insert(_, _, _, _) => InsertCall(c, s, t, ch, move, d, g);
      case Dispatch(_, _, _, _) => DispatchCall(c, s, t, ch, move, d, g);
      case Settle(_, _, _) => SettleCall(c, s, t, ch, move, d, g);
      case RtAction(_, _) => RetryCall(c, s, t, ch, move, d, g);
      case Clear(_) => ClearCall(c, s, t, ch, move, d, g);
      case RollDelivery(_) => RollReadCall(c, s, t, ch, move, d, g);
      case RollActions(_, _) => RollReadCall(c, s, t, ch, move, d, g);
      case RollAttempts(_, _) => RollVerdictCall(c, s, t, ch, move, d, g);
      case RollWrite(_, _) => FinalCall(c, s, t, ch, move, d, g);
      case PdFinish(_, _) => FinalCall(c, s, t, ch, move, d, g);
      case IgPublish(_) => PublishCall(c, s, t, ch, move, d, g);
      case FwPublish(_) => PublishCall(c, s, t, ch, move, d, g);
      case _ => EarlyCall(c, s, t, ch, move, d, g);
    }
  }

  // -------------------------------------------------- the theorems

  /** `s` was reached from a state where `d` was never tried, and nothing failed for `d` since. */
  ghost predicate CalmHistory(c: Config, s: State, d: DeliveryId) {
    exists s0, labels, g ::
      Reachable(c, s0) && Calm(c, s0, d, g) && Untried(s0, d) && BenignRun(c, s0, labels, s, d)
  }

  lemma {:induction false} BenignStepsKeep(c: Config, s: State, labels: seq<Label>, s': State, d: DeliveryId, g: Content)
    requires Inv(c, s) && CalmInv(c, s, d, g) && BenignSteps(c, s, labels, s', d)
    ensures Inv(c, s') && CalmInv(c, s', d, g)
    ensures VerdictOf(c, s, d).Some? ==> VerdictOf(c, s', d) == VerdictOf(c, s, d)
    ensures s.deliveries[d].status != Pending ==> s'.deliveries[d].status != Pending
    decreases |labels|
  {
    if labels != [] {
      var init, l := labels[..|labels| - 1], labels[|labels| - 1];
      var m :| BenignSteps(c, s, init, m, d) && d in m.deliveries && Enabled(c, m, l) && Benign(m, l, d)
        && s' == Step(c, m, l);
      BenignStepsKeep(c, s, init, m, d, g);
      StepKeeps(c, m, l);
      BenignKeeps(c, m, l, d, g);
      BenignVerdict(c, m, l, d, g);
    }
  }

  lemma BenignVerdict(c: Config, s: State, l: Label, d: DeliveryId, g: Content)
    requires Inv(c, s) && CalmInv(c, s, d, g) && Enabled(c, s, l) && Benign(s, l, d)
    requires CalmInv(c, Step(c, s, l), d, g)
    ensures VerdictOf(c, s, d).Some? ==> VerdictOf(c, Step(c, s, l), d) == VerdictOf(c, s, d)
    ensures s.deliveries[d].status != Pending ==> Step(c, s, l).deliveries[d].status != Pending
  {
    if l.Advance? {
      OwnRowStays(c, s, l.t, l.ch, d, g);
    } else {
      WorldRowStays(c, s, l, d);
    }
    if VerdictOf(c, s, d).Some? {
      Guarantees.VerdictStays(c, s, l, d);
    }
  }

  lemma OwnRowStays(c: Config, s: State, t: ThreadId, ch: Choice, d: DeliveryId, g: Content)
    requires Inv(c, s) && CalmInv(c, s, d, g) && t in s.threads && ChoiceOk(s, s.threads[t], ch)
    ensures var s' := AdvanceStep(c, s, t, ch);
      && d in s'.deliveries && s'.deliveries[d].source == s.deliveries[d].source && Acts(s', d) == Acts(s, d)
      && (s.deliveries[d].status != Pending ==> s'.deliveries[d].status != Pending)
  {
    var pc := s.threads[t];
    assert Subject(pc) == Some(d) ==> PcCalm(c, s, d, pc, g);
    NeverReset(c, s, pc, ch, d, g);
    EffectRow(s, Perform(c, s, pc, ch).effect, d);
  }

  lemma EffectRow(s: State, e: Effect, d: DeliveryId)
    requires d in s.deliveries && (e.NewDelivery? ==> e.id != d)
    requires e != SetStatus(d, Pending)
    ensures var s' := Apply(s, e);
      && d in s'.deliveries && s'.deliveries[d].source == s.deliveries[d].source && s'.actions == s.actions
      && (s.deliveries[d].status != Pending ==> s'.deliveries[d].status != Pending)
  {
  }

  lemma NeverReset(c: Config, s: State, pc: Pc, ch: Choice, d: DeliveryId, g: Content)
    requires TablesOk(s) && d in s.deliveries && ChoiceOk(s, pc, ch)
    requires Subject(pc) == Some(d) ==> PcCalm(c, s, d, pc, g)
    ensures var e := Perform(c, s, pc, ch).effect; e != SetStatus(d, Pending) && (e.NewDelivery? ==> e.id != d)
  {
    PendingWriters(c, s, pc, ch, d);
    Guarantees.NewIsNew(c, s, pc, ch);
    NoPendingWriter(c, s, pc, d, g);
  }

  /** The calls that can set `d` to pending. */
  ghost predicate WritesPending(pc: Pc, d: DeliveryId) {
    Subject(pc) == Some(d) && (pc.FwReset? || ((pc.PdFinish? || pc.RollWrite?) && pc.status == Pending))
  }

  lemma PendingWriters(c: Config, s: State, pc: Pc, ch: Choice, d: DeliveryId)
    requires ChoiceOk(s, pc, ch)
    ensures Perform(c, s, pc, ch).effect == SetStatus(d, Pending) ==> WritesPending(pc, d)
  {
  }

  lemma NoPendingWriter(c: Config, s: State, pc: Pc, d: DeliveryId, g: Content)
    requires d in s.deliveries && (Subject(pc) == Some(d) ==> PcCalm(c, s, d, pc, g))
    ensures !WritesPending(pc, d)
  {
    VerdictValue(c, s, d);
  }

  lemma WorldRowStays(c: Config, s: State, l: Label, d: DeliveryId)
    requires TablesOk(s) && d in s.deliveries && Enabled(c, s, l) && Benign(s, l, d) && !l.Advance?
    ensures d in Step(c, s, l).deliveries && Step(c, s, l).deliveries[d] == s.deliveries[d]
    ensures Acts(Step(c, s, l), d) == Acts(s, d)
  {
    if l.DeleteSource? {
      DeleteSame(c, s, l.source, d);
    } else if !Spawns(l) {
      EditSame(c, s, l, d);
    } else {
      SpawnSame(c, s, l);
    }
  }

  lemma SpawnSame(c: Config, s: State, l: Label)
    requires Enabled(c, s, l) && Spawns(l)
    ensures Step(c, s, l).deliveries == s.deliveries && Step(c, s, l).actions == s.actions
  {
  }

  lemma CalmHistoryInv(c: Config, s: State, d: DeliveryId) returns (g: Content)
    requires CalmHistory(c, s, d)
    ensures Inv(c, s) && CalmInv(c, s, d, g)
  {
    var s0, labels, content :|
      Reachable(c, s0) && Calm(c, s0, d, content) && Untried(s0, d) && BenignRun(c, s0, labels, s, d);
    g := content;
    Guarantees.ReachableInv(c, s0);
    UntriedCalm(c, s0, d, g);
    assert Unfold(TheRun, 0);
    BenignStepsKeep(c, s0, labels, s, d, g);
  }

  /** The status is right, or some thread still owes it; when nobody works on an admitted delivery, its status
      is its verdict, and `processing` means that there is none yet. */
  lemma QuiescentConsistency(c: Config, s: State, d: DeliveryId)
    requires CalmHistory(c, s, d)
    ensures d in s.deliveries
    ensures var status := s.deliveries[d].status;
      && (status != Pending && VerdictOf(c, s, d).Some? && VerdictOf(c, s, d) != Some(status) ==>
            SomeOwes(s.threads, d))
      && (status == Completed || status == Failed ==> VerdictOf(c, s, d) == Some(status))
      && (!InFlight(s, d) && status != Pending ==>
            status == if VerdictOf(c, s, d).Some? then VerdictOf(c, s, d).value else Processing)
  {
    var g := CalmHistoryInv(c, s, d);
  }

  lemma {:induction false} LatestExists(att: Attempts, k: Key, bound: int)
    requires k in att && (forall x :: x in att ==> x.number <= bound) && ChainOk(att)
    requires forall x :: x in att ==> x.number >= 1
    ensures exists n :: Verdict.IsLatest(att, k.delivery, k.action, n)
    decreases bound - k.number
  {
    if Succ(k) in att {
      LatestExists(att, Succ(k), bound);
    } else {
      forall m | Key(k.delivery, k.action, m) in att
        ensures m <= k.number
      {
        if m > k.number {
          Guarantees.ChainDown(att, Key(k.delivery, k.action, m), k.number + 1);
        }
      }
      assert Verdict.IsLatest(att, k.delivery, k.action, k.number);
    }
  }

  /** The latest attempt of `a` failed, may be retried, and is scheduled. */
  ghost predicate AwaitsRetry(c: Config, s: State, d: DeliveryId, a: ActionId) {
    exists n :: Verdict.IsLatest(s.attempts, d, a, n) && n < c.maxRetries
      && s.attempts[Key(d, a, n)].status == AttemptFailed && s.attempts[Key(d, a, n)].nextRetryAt.Some?
  }

  /** No retry is lost: with nobody working on a delivery, each of its active actions is done or scheduled. */
  lemma NoLostRetry(c: Config, s: State, d: DeliveryId, a: ActionId)
    requires CalmHistory(c, s, d) && !InFlight(s, d)
    requires d in s.deliveries && s.deliveries[d].status != Pending && a in Acts(s, d)
    ensures Verdict.Terminal(c.maxRetries, s.attempts, d, a) <==> !AwaitsRetry(c, s, d, a)
  {
    var g := CalmHistoryInv(c, s, d);
    IdleAction(c, s, d, a, g);
  }

  /** With nobody at work, an active action has a latest attempt, which is not pending. */
  lemma IdleLatest(c: Config, s: State, d: DeliveryId, a: ActionId, g: Content) returns (n: int)
    requires Inv(c, s) && CalmInv(c, s, d, g) && !InFlight(s, d)
    requires s.deliveries[d].status != Pending && a in Acts(s, d)
    ensures Verdict.IsLatest(s.attempts, d, a, n) && s.attempts[Key(d, a, n)].status != AttemptPending
  {
    forall t | t in s.threads && WillInsert(s.threads[t], d, a)
      ensures false
    {
      HoldersSubject(s.threads[t], d, Key(d, a, 1), a);
    }
    LatestExists(s.attempts, Key(d, a, 1), Max(1, c.maxRetries));
    n :| Verdict.IsLatest(s.attempts, d, a, n);
    if s.attempts[Key(d, a, n)].status == AttemptPending {
      var t :| t in s.threads && Held(s.threads[t]) == Some(Key(d, a, n));
      HoldersSubject(s.threads[t], d, Key(d, a, n), a);
    }
  }

  lemma IdleAction(c: Config, s: State, d: DeliveryId, a: ActionId, g: Content)
    requires Inv(c, s) && CalmInv(c, s, d, g) && !InFlight(s, d)
    requires s.deliveries[d].status != Pending && a in Acts(s, d)
    ensures Verdict.Terminal(c.maxRetries, s.attempts, d, a) <==> !AwaitsRetry(c, s, d, a)
  {
    var n := IdleLatest(c, s, d, a, g);
    Verdict.TerminalMeaning(c.maxRetries, s.attempts, d, a, n);
    forall t | t in s.threads
      ensures Held(s.threads[t]) != Some(Key(d, a, n))
    {
      HoldersSubject(s.threads[t], d, Key(d, a, n), a);
    }
  }

  /** A schedule is cleared only when the attempt that follows exists. */
  lemma ClearedWasRetried(c: Config, s: State, k: Key)
    requires CalmHistory(c, s, k.delivery) && k in s.attempts && k.delivery in s.deliveries
    requires k.action in Acts(s, k.delivery)
    requires s.attempts[k].status == AttemptFailed && k.number < c.maxRetries && s.attempts[k].nextRetryAt == None
    ensures Succ(k) in s.attempts
  {
    var g := CalmHistoryInv(c, s, k.delivery);
  }

  /** A delivery left `processing` still has a scheduled retry to wait for. */
  lemma ProcessingWaits(c: Config, s: State, d: DeliveryId)
    requires CalmHistory(c, s, d) && !InFlight(s, d)
    requires d in s.deliveries && s.deliveries[d].status == Processing
    ensures exists a :: a in Acts(s, d) && AwaitsRetry(c, s, d, a)
  {
    QuiescentConsistency(c, s, d);
    var a :| a in Acts(s, d) && !Verdict.Terminal(c.maxRetries, s.attempts, d, a);
    NoLostRetry(c, s, d, a);
  }

  /** A drained system: nobody at work and nothing scheduled.  Every admitted delivery is completed or failed,
      and failed exactly when an active action used up its attempts. */
  lemma Drained(c: Config, s: State, d: DeliveryId)
    requires CalmHistory(c, s, d) && !InFlight(s, d)
    requires d in s.deliveries && s.deliveries[d].status != Pending
    requires forall k :: k in s.attempts && k.delivery == d && k.action in Acts(s, d) ==>
               s.attempts[k].nextRetryAt == None
    ensures s.deliveries[d].status in {Completed, Failed}
    ensures s.deliveries[d].status == Failed <==>
            exists a :: a in Acts(s, d) && Verdict.Exhausted(c.maxRetries, s.attempts, d, a)
    ensures s.deliveries[d].status == Completed <==>
            forall a :: a in Acts(s, d) ==> Verdict.Succeeded(s.attempts, d, a)
  {
    QuiescentConsistency(c, s, d);
    forall a | a in Acts(s, d)
      ensures Verdict.Terminal(c.maxRetries, s.attempts, d, a)
    {
      NoLostRetry(c, s, d, a);
    }
  }

  /** A final status is absorbing: whatever raced in between, it is back whenever nobody is at work. */
  lemma FinalIsAbsorbing(c: Config, s: State, labels: seq<Label>, s': State, d: DeliveryId)
    requires CalmHistory(c, s, d) && BenignRun(c, s, labels, s', d)
    requires d in s.deliveries && d in s'.deliveries && s.deliveries[d].status in {Completed, Failed}
    requires !InFlight(s', d)
    ensures s'.deliveries[d].status == s.deliveries[d].status
  {
    var g := CalmHistoryInv(c, s, d);
    assert Unfold(TheRun, 0);
    BenignStepsKeep(c, s, labels, s', d, g);
  }
}

/** The fine-grained protocol.  Threads of the workers, of the ingest handler and of the forward handlers
    interleave; every store, stream and dispatcher call is one atomic step, and each call may be refused, or may
    take effect and still report an error.  Requests of the outside world (new posts, forwards, edits and
    deletions of sources and actions, crashes, lost and duplicated messages) are steps too. */
module Machine {
  import opened Types
  import opened Filter
  import Verdict
  import Backoff

  /** How a call to the database or the stream ends. */
  datatype Reply = Ok | Refused | Uncertain

  /** The nondeterminism of one step of a thread. */
  datatype Choice = Choice(
    reply: Reply, success: bool, now: int, jitter: real, newId: DeliveryId, listing: seq<ActionId>)

  /** Where a thread goes on after a dispatch: to the rest of its fan-out, or to clearing the retried attempt. */
  datatype Cont =
    | Fan(rest: seq<Todo>, payload: Json, headers: Json)
    | Redo(prev: Key)

  /** The call a thread makes next, with its local variables. */
  datatype Pc =
      // processDelivery
    | PdStart(d: DeliveryId, force: bool)
    | PdSource(d: DeliveryId, force: bool, snap: Delivery)
    | PdRecord(d: DeliveryId)
    | PdAdmit(d: DeliveryId, force: bool, snap: Delivery, script: Option<Script>)
    | PdActions(d: DeliveryId, snap: Delivery, script: Option<Script>)
    | PdPersist(d: DeliveryId, payload: Json, headers: Json, acts: seq<Todo>, kept: seq<ActionId>)
    | PdFinish(d: DeliveryId, status: DeliveryStatus)
      // dispatchAction
    | Insert(key: Key, payload: Json, headers: Json, k: Cont)
    | Dispatch(key: Key, payload: Json, headers: Json, k: Cont)
    | Settle(key: Key, success: bool, k: Cont)
      // retryAttempt
    | RtDelivery(prev: Key)
    | RtAction(prev: Key, snap: Delivery)
    | Clear(prev: Key)
      // rollUpDeliveryStatus
    | RollDelivery(d: DeliveryId)
    | RollActions(d: DeliveryId, source: SourceId)
    | RollAttempts(d: DeliveryId, listing: seq<ActionId>)
    | RollWrite(d: DeliveryId, status: DeliveryStatus)
      // forwarding a recorded delivery
    | FwLoad(source: SourceId, d: DeliveryId)
    | FwReset(d: DeliveryId)
    | FwPublish(d: DeliveryId)
    | FwUndo(d: DeliveryId)
      // ingest
    | IgInsert(source: SourceId, mode: Mode, idem: string, headers: Json, payload: Json)
    | IgRecord(d: DeliveryId)
    | IgPublish(d: DeliveryId)

  /** A retry was scheduled when the clock showed `clock`, to be due `delay` later. */
  datatype Wait = Wait(clock: int, delay: int)

  /** What has happened so far; the program cannot read it.
      `issued`: keys ever inserted into the attempts table.  `log`: dispatcher calls, in order.
      `waits`: the clock when each failed attempt was scheduled, and the delay.  `forced`: deliveries for which a
      forced message was published.  `admitted`: deliveries that a forced message moved to `processing`.
      `home`: the source of each delivery ever made; `retired`: deleted actions.  Neither ID is given out again. */
  datatype History = History(
    issued: set<Key>, log: seq<Event>, waits: map<Key, Wait>, forced: set<DeliveryId>, admitted: set<DeliveryId>,
    home: map<DeliveryId, SourceId>, retired: set<ActionId>)

  datatype State = State(
    sources: map<SourceId, Source>, actions: map<ActionId, Action>, deliveries: map<DeliveryId, Delivery>,
    attempts: map<Key, Attempt>, stream: multiset<Message>, threads: map<ThreadId, Pc>, hist: History)

  ghost const INIT: State :=
    State(map[], map[], map[], map[], multiset{}, map[], History({}, [], map[], {}, {}, map[], {}))

  /** The effect of one call on the shared state. */
  datatype Effect =
    | NoEffect
    | SetStatus(d: DeliveryId, status: DeliveryStatus)
    | Admit(d: DeliveryId, force: bool)
    | SetTransformed(d: DeliveryId, payload: Json, headers: Json)
    | InsertRow(key: Key)
    | Sent(event: Event)
    | UpdateRow(key: Key, attempt: Attempt, wait: Option<Wait>)
    | Publish(message: Message)
    | NewDelivery(id: DeliveryId, row: Delivery)

  datatype Move = Move(effect: Effect, next: Option<Pc>)

  function ActiveIds(actions: map<ActionId, Action>, source: SourceId): set<ActionId> {
    set a | a in actions && actions[a].source == source && actions[a].active
  }

  /** `listing` lists the active actions of `source` in some order. */
  ghost predicate Lists(actions: map<ActionId, Action>, source: SourceId, listing: seq<ActionId>) {
    && (forall i, j :: 0 <= i < j < |listing| ==> listing[i] != listing[j])
    && (forall a :: a in listing <==> a in ActiveIds(actions, source))
  }

  function Todos(actions: map<ActionId, Action>, listing: seq<ActionId>): (todos: seq<Todo>)
    requires forall a :: a in listing ==> a in actions
  {
    seq(|listing|, i requires 0 <= i < |listing| => Todo(listing[i], actions[listing[i]].transform))
  }

  /** The next dispatch of a fan-out, past the actions whose transform skips. */
  ghost function NextFan(c: Config, d: DeliveryId, rest: seq<Todo>, payload: Json, headers: Json): Pc {
    if rest == [] then RollDelivery(d)
    else match Transform(c, rest[0].transform, payload, headers)
      case Skip => NextFan(c, d, rest[1..], payload, headers)
      case Send(p, h) => Insert(Key(d, rest[0].id, 1), p, h, Fan(rest[1..], payload, headers))
  }

  ghost function Resume(c: Config, d: DeliveryId, k: Cont): Pc {
    match k
    case Fan(rest, payload, headers) => NextFan(c, d, rest, payload, headers)
    case Redo(prev) => Clear(prev)
  }

  ghost function AfterPersist(c: Config, d: DeliveryId, payload: Json, headers: Json, acts: seq<Todo>,
                              kept: seq<ActionId>): Pc {
    var chosen := Kept(acts, IdSet(kept));
    if kept == [] || chosen == [] then PdFinish(d, Completed) else NextFan(c, d, chosen, payload, headers)
  }

  ghost predicate ChoiceOk(s: State, pc: Pc, ch: Choice) {
    && 0.0 <= ch.jitter < 1.0
    && (pc.PdActions? ==> Lists(s.actions, pc.snap.source, ch.listing))
    && (pc.RollActions? ==> Lists(s.actions, pc.source, ch.listing))
    && (pc.IgInsert? ==> ch.newId !in s.hist.home)
  }

  const EXIT: Move := Move(NoEffect, None)

  ghost function Goto(pc: Pc): Move {
    Move(NoEffect, Some(pc))
  }

  ghost function When(applied: bool, e: Effect): Effect {
    if applied then e else NoEffect
  }

  /** Another attempt at `key` can be inserted: its foreign keys exist and the unique key is free. */
  ghost predicate CanInsert(s: State, key: Key) {
    key !in s.attempts && key.delivery in s.deliveries && key.action in s.actions
  }

  /** The idempotency key is in use for the source. */
  predicate Taken(deliveries: map<DeliveryId, Delivery>, source: SourceId, idem: string) {
    exists d | d in deliveries :: deliveries[d].source == source && deliveries[d].idem == idem
  }

  function Row(source: SourceId, idem: string, headers: Json, payload: Json, now: int): Delivery {
    Delivery(source, idem, headers, payload, Pending, now, None, None)
  }

  /** The next call of a thread at `pc`, and where the thread goes from there. */
  ghost function Perform(c: Config, s: State, pc: Pc, ch: Choice): Move
    requires ChoiceOk(s, pc, ch)
  {
    var ok := ch.reply == Ok;
    var applied := ch.reply != Refused;
    match pc
    case PdStart(d, force) =>
      if !ok || d !in s.deliveries then EXIT
      else
        var row := s.deliveries[d];
        if row.status == Pending || (force && row.status == Recorded) then Goto(PdSource(d, force, row)) else EXIT
    case PdSource(d, force, snap) =>
      if !ok || snap.source !in s.sources then EXIT
      else
        var src := s.sources[snap.source];
        if !force && src.mode == Record then Goto(PdRecord(d)) else Goto(PdAdmit(d, force, snap, src.script))
    case PdRecord(d) => Move(When(applied, SetStatus(d, Recorded)), None)
    case PdAdmit(d, force, snap, script) =>
      Move(When(applied, Effect.Admit(d, force)), if ok then Some(PdActions(d, snap, script)) else None)
    case PdActions(d, snap, script) =>
      if !ok then EXIT
      else
        var acts := Todos(s.actions, ch.listing);
        if acts == [] then Goto(PdFinish(d, Completed))
        else if !HasScript(script) then Goto(NextFan(c, d, acts, snap.payload, snap.headers))
        else (match c.runSource(script.value, snap.payload, snap.headers, ch.listing)
          case ScriptError => Goto(PdFinish(d, Failed))
          case Dropped => Goto(PdFinish(d, Completed))
          case Transformed(p, h, kept) => Goto(PdPersist(d, p, h, acts, kept)))
    case PdPersist(d, p, h, acts, kept) =>
      Move(When(applied, SetTransformed(d, p, h)), Some(AfterPersist(c, d, p, h, acts, kept)))
    case PdFinish(d, status) => Move(When(applied, SetStatus(d, status)), None)
    case Insert(key, p, h, k) =>
      if CanInsert(s, key) && applied then
        Move(InsertRow(key), Some(if ok then Dispatch(key, p, h, k) else Resume(c, key.delivery, k)))
      else Goto(Resume(c, key.delivery, k))
    case Dispatch(key, p, h, k) =>
      Move(Effect.Sent(Event(key, ch.success, p, h)), Some(Settle(key, ch.success, k)))
    case Settle(key, success, k) =>
      var next := Backoff.NextRetry(c, key.number, ch.now, ch.jitter);
      var row := if success then Attempt(AttemptSuccess, None) else Attempt(AttemptFailed, next);
      var wait := if success || next.None? then None else Some(Wait(ch.now, next.value - ch.now));
      Move(When(applied, UpdateRow(key, row, wait)), Some(Resume(c, key.delivery, k)))
    case RtDelivery(prev) =>
      if !ok || prev.delivery !in s.deliveries then EXIT else Goto(RtAction(prev, s.deliveries[prev.delivery]))
    case RtAction(prev, snap) =>
      if !ok || prev.action !in s.actions then EXIT
      else (match Transform(c, s.actions[prev.action].transform, StoredPayload(snap), StoredHeaders(snap))
        case Skip => Goto(Clear(prev))
        case Send(p, h) => Goto(Insert(Succ(prev), p, h, Redo(prev))))
    case Clear(prev) =>
      Move(When(applied, UpdateRow(prev, Attempt(AttemptFailed, None), None)), Some(RollDelivery(prev.delivery)))
    case RollDelivery(d) =>
      if !ok || d !in s.deliveries then EXIT else Goto(RollActions(d, s.deliveries[d].source))
    case RollActions(d, source) => if !ok then EXIT else Goto(RollAttempts(d, ch.listing))
    case RollAttempts(d, listing) =>
      if !ok then EXIT
      else (match Verdict.Of(c.maxRetries, IdSet(listing), s.attempts, d)
        case None => EXIT
        case Some(status) => Goto(RollWrite(d, status)))
    case RollWrite(d, status) => Move(When(applied, SetStatus(d, status)), None)
    case FwLoad(source, d) =>
      if !ok || d !in s.deliveries || s.deliveries[d].source != source || s.deliveries[d].status != Recorded
      then EXIT else Goto(FwReset(d))
    case FwReset(d) => Move(When(applied, SetStatus(d, Pending)), if ok then Some(FwPublish(d)) else None)
    case FwPublish(d) => Move(When(applied, Publish(Message(d, true))), if ok then None else Some(FwUndo(d)))
    case FwUndo(d) => Move(When(applied, SetStatus(d, Recorded)), None)
    case IgInsert(source, mode, idem, headers, payload) =>
      if !applied || source !in s.sources || Taken(s.deliveries, source, idem) then EXIT
      else
        Move(NewDelivery(ch.newId, Row(source, idem, headers, payload, ch.now)),
             if !ok then None
             else Some(if mode == Record then IgRecord(ch.newId) else IgPublish(ch.newId)))
    case IgRecord(d) => Move(When(applied, SetStatus(d, Recorded)), None)
    case IgPublish(d) => Move(When(applied, Publish(Message(d, false))), None)
  }

  /** Updating a row that does not exist changes nothing. */
  function WithStatus(deliveries: map<DeliveryId, Delivery>, d: DeliveryId, status: DeliveryStatus)
    : map<DeliveryId, Delivery>
  {
    if d in deliveries then deliveries[d := deliveries[d].(status := status)] else deliveries
  }

  ghost function Apply(s: State, e: Effect): State {
    match e
    case NoEffect => s
    case SetStatus(d, status) => s.(deliveries := WithStatus(s.deliveries, d, status))
    case Admit(d, force) =>
      s.(deliveries := WithStatus(s.deliveries, d, Processing),
         hist := if force then s.hist.(admitted := s.hist.admitted + {d}) else s.hist)
    case SetTransformed(d, p, h) =>
      if d in s.deliveries then
        s.(deliveries :=
           s.deliveries[d := s.deliveries[d].(transformedPayload := Some(p), transformedHeaders := Some(h))])
      else s
    case InsertRow(key) =>
      s.(attempts := s.attempts[key := Attempt(AttemptPending, None)],
         hist := s.hist.(issued := s.hist.issued + {key}))
    case Sent(event) => s.(hist := s.hist.(log := s.hist.log + [event]))
    case UpdateRow(key, row, wait) =>
      if key in s.attempts then
        s.(attempts := s.attempts[key := row],
           hist := if wait.Some? then s.hist.(waits := s.hist.waits[key := wait.value]) else s.hist)
      else s
    case Publish(m) =>
      s.(stream := s.stream + multiset{m},
         hist := if m.force then s.hist.(forced := s.hist.forced + {m.delivery}) else s.hist)
    case NewDelivery(id, row) =>
      s.(deliveries := s.deliveries[id := row], hist := s.hist.(home := s.hist.home[id := row.source]))
  }

  datatype Label =
    | Advance(t: ThreadId, ch: Choice)
    | Crash(t: ThreadId)
    | ReadStream(t: ThreadId, m: Message, kept: bool)
    | LoseMessage(m: Message)
    | PollPending(t: ThreadId, d: DeliveryId)
    | PollRetry(t: ThreadId, key: Key, now: int)
    | Forward(t: ThreadId, source: SourceId, d: DeliveryId)
    | ForwardListed(t: ThreadId, d: DeliveryId)
    | Post(t: ThreadId, source: SourceId, idem: string, headers: Json, payload: Json)
    | PutSource(source: SourceId, row: Source)
    | PutAction(action: ActionId, def: Action)
    | DeleteAction(action: ActionId)
    | DeleteSource(source: SourceId)

  /** The attempt may be picked up by a retry poll at time `now`. */
  ghost predicate Due(att: map<Key, Attempt>, key: Key, now: int) {
    && key in att
    && att[key].status == AttemptFailed
    && att[key].nextRetryAt.Some?
    && att[key].nextRetryAt.value <= now
  }

  ghost predicate Enabled(c: Config, s: State, l: Label) {
    match l
    case Advance(t, ch) => t in s.threads && ChoiceOk(s, s.threads[t], ch)
    case Crash(t) => t in s.threads
    case ReadStream(t, m, _) => t !in s.threads && m in s.stream
    case LoseMessage(m) => m in s.stream
    case PollPending(t, d) => t !in s.threads && d in s.deliveries && s.deliveries[d].status == Pending
    case PollRetry(t, key, now) => t !in s.threads && Due(s.attempts, key, now)
    case Forward(t, _, _) => t !in s.threads
    case ForwardListed(t, d) => t !in s.threads && d in s.deliveries && s.deliveries[d].status == Recorded
    case Post(t, source, _, _, _) => t !in s.threads && source in s.sources
    case PutSource(_, _) => true
    case PutAction(a, def) =>
      && a !in s.hist.retired && def.source in s.sources
      && (a in s.actions ==> s.actions[a].source == def.source)
    case DeleteAction(a) => a in s.actions
    case DeleteSource(source) => source in s.sources
  }

  ghost predicate Spawns(l: Label) {
    l.ReadStream? || l.PollPending? || l.PollRetry? || l.Forward? || l.ForwardListed? || l.Post?
  }

  /** Where the thread that a request starts begins. */
  ghost function NewPc(s: State, l: Label): Pc
    requires Spawns(l) && (l.Post? ==> l.source in s.sources)
  {
    match l
    case ReadStream(_, m, _) => PdStart(m.delivery, m.force)
    case PollPending(_, d) => PdStart(d, false)
    case PollRetry(_, key, _) => RtDelivery(key)
    case Forward(_, source, d) => FwLoad(source, d)
    case ForwardListed(_, d) => FwReset(d)
    case Post(_, source, idem, headers, payload) => IgInsert(source, s.sources[source].mode, idem, headers, payload)
  }

  /** A message that is read is gone, unless it is delivered again. */
  ghost function StreamAfter(s: State, l: Label): multiset<Message> {
    if l.ReadStream? && !l.kept then s.stream - multiset{l.m} else s.stream
  }

  ghost function Spawn(s: State, t: ThreadId, pc: Pc): State {
    s.(threads := s.threads[t := pc])
  }

  ghost function WithoutAction(att: map<Key, Attempt>, a: ActionId): map<Key, Attempt> {
    map k | k in att && k.action != a :: att[k]
  }

  /** Deleting a source cascades to its actions and deliveries, and through them to their attempts. */
  ghost function WithoutSource(s: State, source: SourceId): State {
    var actions := map a | a in s.actions && s.actions[a].source != source :: s.actions[a];
    var deliveries := map d | d in s.deliveries && s.deliveries[d].source != source :: s.deliveries[d];
    var attempts := map k | k in s.attempts && k.delivery in deliveries && k.action in actions :: s.attempts[k];
    s.(sources := s.sources - {source}, actions := actions, deliveries := deliveries, attempts := attempts,
       hist := s.hist.(retired := s.hist.retired + (s.actions.Keys - actions.Keys)))
  }

  ghost function Threads(threads: map<ThreadId, Pc>, t: ThreadId, next: Option<Pc>): map<ThreadId, Pc> {
    if next.Some? then threads[t := next.value] else threads - {t}
  }

  /** The state after a move of thread `t`. */
  ghost function After(s: State, t: ThreadId, move: Move): State {
    Apply(s, move.effect).(threads := Threads(s.threads, t, move.next))
  }

  ghost function AdvanceStep(c: Config, s: State, t: ThreadId, ch: Choice): State
    requires t in s.threads && ChoiceOk(s, s.threads[t], ch)
  {
    After(s, t, Perform(c, s, s.threads[t], ch))
  }

  ghost function Step(c: Config, s: State, l: Label): State
    requires Enabled(c, s, l)
  {
    match l
    case Advance(t, ch) => AdvanceStep(c, s, t, ch)
    case Crash(t) => s.(threads := s.threads - {t})
    case LoseMessage(m) => s.(stream := s.stream - multiset{m})
    case PutSource(source, row) => s.(sources := s.sources[source := row])
    case PutAction(a, def) => s.(actions := s.actions[a := def])
    case DeleteAction(a) =>
      s.(actions := s.actions - {a}, attempts := WithoutAction(s.attempts, a),
         hist := s.hist.(retired := s.hist.retired + {a}))
    case DeleteSource(source) => WithoutSource(s, source)
    case _ => Spawn(s, l.t, NewPc(s, l)).(stream := StreamAfter(s, l))
  }

  /** The states that a run with these labels passes through lead from `s` to `s'`. */
  ghost predicate Run(c: Config, s: State, labels: seq<Label>, s': State)
    decreases |labels|
  {
    if labels == [] then s == s'
    else
      var init := labels[..|labels| - 1];
      var l := labels[|labels| - 1];
      exists m :: Run(c, s, init, m) && Enabled(c, m, l) && s' == Step(c, m, l)
  }

  /** What stands under a quantifier so that a proof that only passes it on does not see its definition.  Opening one
      leaves the others closed. */
  datatype Folded =
    | TheRun | TheMove | TheInvariant | TheCalm | ThePlan | TheHandling | TheCall | TheChain | ThePage | ThePath

  ghost predicate Unfold(what: Folded, n: nat) {
    true
  }

  /** `s` is where a run with these labels leads.  The quantifier keeps the definition of a run folded: a proof that
      needs it says `Unfold(TheRun, 0)`. */
  ghost predicate Traced(c: Config, labels: seq<Label>, s: State) {
    forall n: nat :: Unfold(TheRun, n) ==> Run(c, INIT, labels, s)
  }

  ghost predicate Reachable(c: Config, s: State) {
    exists labels :: Traced(c, labels, s)
  }

  /** Thread `t` is about to make this move; folded like a trace. */
  ghost predicate Moves(c: Config, s: State, t: ThreadId, ch: Choice, move: Move) {
    forall n: nat :: Unfold(TheMove, n) ==>
      t in s.threads && ChoiceOk(s, s.threads[t], ch) && move == Perform(c, s, s.threads[t], ch)
  }

  lemma TraceGrows(c: Config, labels: seq<Label>, s: State, l: Label)
    requires Traced(c, labels, s) && Enabled(c, s, l)
    ensures Traced(c, labels + [l], Step(c, s, l))
  {
    assert Unfold(TheRun, 0);
    assert (labels + [l])[..|labels|] == labels;
  }

  lemma TraceIsRun(c: Config, labels: seq<Label>, s: State)
    requires Traced(c, labels, s)
    ensures Run(c, INIT, labels, s)
  {
    assert Unfold(TheRun, 0);
  }
}

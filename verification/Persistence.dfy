/** What retries send when the transformed content of a delivery is stored once: its first attempts carry what the
    source script made, and its retries start from the stored columns.  The two agree exactly if the store call took
    effect or the action's transform makes the same of both.  Any call may fail, threads may crash, and actions may
    come, go and be toggled; the source script may look at the listed actions. */
module Persistence {
  import opened Types
  import opened Machine
  import opened Safety
  import Endings
  import Guarantees
  import Filter
  import Payload
  import Quiescence

  type Transforms = Payload.Transforms

  /** The one store call of the transformed content, and whether it took effect. */
  datatype Stored = Stored(content: Content, applied: bool)

  /** It is settled what first attempts carry: there is no script, or its content was handed to the store. */
  ghost predicate Known(script: Option<Script>, w: Option<Stored>) {
    !HasScript(script) || w.Some?
  }

  /** What first attempts start from. */
  ghost function First(script: Option<Script>, row: Delivery, w: Option<Stored>): Content {
    if HasScript(script) && w.Some? then w.value.content else Received(row)
  }

  /** What retries start from. */
  ghost function Again(row: Delivery, w: Option<Stored>): Content {
    if w.Some? && w.value.applied then w.value.content else Received(row)
  }

  ghost predicate Sends(c: Config, script: Option<Script>, tr: Transforms, row: Delivery, w: Option<Stored>,
                        key: Key, p: Json, h: Json)
  {
    && Known(script, w)
    && TransformContent(c, tr(key.action), if key.number == 1 then First(script, row, w) else Again(row, w))
       == Send(p, h)
  }

  ghost predicate ContOne(script: Option<Script>, tr: Transforms, row: Delivery, w: Option<Stored>, k: Cont) {
    k.Fan? ==> Content(k.payload, k.headers) == First(script, row, w) && Payload.TodosSteady(tr, k.rest)
  }

  ghost predicate PcOne(c: Config, script: Option<Script>, tr: Transforms, row: Delivery, w: Option<Stored>, pc: Pc) {
    match pc
    case PdSource(_, _, snap) => SameContent(row, snap)
    case PdAdmit(_, _, snap, sc) => SameContent(row, snap) && sc == script
    case PdActions(_, snap, sc) => SameContent(row, snap) && sc == script
    case PdPersist(_, p, h, acts, _) =>
      HasScript(script) && Payload.TodosSteady(tr, acts) && Payload.Yields(c, script, row, p, h)
    case Insert(key, p, h, k) => Sends(c, script, tr, row, w, key, p, h) && ContOne(script, tr, row, w, k)
    case Dispatch(key, p, h, k) => Sends(c, script, tr, row, w, key, p, h) && ContOne(script, tr, row, w, k)
    case Settle(_, _, k) => Known(script, w) && ContOne(script, tr, row, w, k)
    case RtAction(_, snap) => Known(script, w) && StoredContent(snap) == Again(row, w)
    case _ => true
  }

  ghost predicate Columns(row: Delivery, w: Option<Stored>) {
    if w.Some? && w.value.applied then
      && row.transformedPayload == Some(w.value.content.payload)
      && row.transformedHeaders == Some(w.value.content.headers)
    else row.transformedPayload == None && row.transformedHeaders == None
  }

  ghost predicate LogOne(c: Config, log: seq<Event>, d: DeliveryId, row: Delivery, script: Option<Script>,
                         tr: Transforms, w: Option<Stored>)
  {
    forall i :: 0 <= i < |log| && log[i].key.delivery == d ==>
      Sends(c, script, tr, row, w, log[i].key, log[i].payload, log[i].headers)
  }

  /** What was handed to the store is what the source script made of what was received. */
  ghost predicate Made(c: Config, script: Option<Script>, row: Delivery, w: Option<Stored>) {
    w.Some? ==> HasScript(script) && Payload.Yields(c, script, row, w.value.content.payload, w.value.content.headers)
  }

  ghost predicate TablesOne(c: Config, s: State, d: DeliveryId, script: Option<Script>, tr: Transforms,
                            w: Option<Stored>)
  {
    && Payload.FixedScripts(s, d, script, tr)
    && Columns(s.deliveries[d], w) && Made(c, script, s.deliveries[d], w)
    && (forall k :: k in s.hist.issued && k.delivery == d ==> Known(script, w))
    && LogOne(c, s.hist.log, d, s.deliveries[d], script, tr, w)
  }

  ghost predicate ThreadsOne(c: Config, s: State, d: DeliveryId, script: Option<Script>, tr: Transforms,
                             w: Option<Stored>)
    requires d in s.deliveries
  {
    forall t :: t in s.threads && Quiescence.Subject(s.threads[t]) == Some(d) ==>
      PcOne(c, script, tr, s.deliveries[d], w, s.threads[t])
  }

  ghost predicate OneInv(c: Config, s: State, d: DeliveryId, script: Option<Script>, tr: Transforms,
                         w: Option<Stored>)
  {
    TablesOne(c, s, d, script, tr, w) && ThreadsOne(c, s, d, script, tr, w)
  }

  // -------------------------------------------------- runs that store the content once

  ghost predicate Persists(s: State, l: Label, d: DeliveryId) {
    l.Advance? && l.t in s.threads && s.threads[l.t].PdPersist? && s.threads[l.t].d == d
  }

  /** The scripts that `d` meets stay. */
  ghost predicate ScriptsStay(s: State, l: Label, d: DeliveryId, script: Option<Script>, tr: Transforms)
    requires d in s.deliveries
  {
    match l
    case PutSource(x, row) => x == s.deliveries[d].source ==> row.script == script
    case PutAction(a, def) => def.transform == tr(a)
    case DeleteSource(x) => x != s.deliveries[d].source
    case _ => true
  }

  /** What was stored for `d` before and after a step; it happens once. */
  ghost predicate StoresOnce(s: State, l: Label, d: DeliveryId, w: Option<Stored>, w': Option<Stored>) {
    if Persists(s, l, d) then
      && w == None
      && w' == Some(Stored(Content(s.threads[l.t].payload, s.threads[l.t].headers), l.ch.reply != Refused))
    else w' == w
  }

  ghost predicate OnceSteps(c: Config, s: State, labels: seq<Label>, s': State, d: DeliveryId,
                            script: Option<Script>, tr: Transforms, w: Option<Stored>)
    decreases |labels|
  {
    if labels == [] then s == s' && w == None
    else
      var init, l := labels[..|labels| - 1], labels[|labels| - 1];
      exists m, w0 :: OnceSteps(c, s, init, m, d, script, tr, w0) && d in m.deliveries && Enabled(c, m, l)
        && ScriptsStay(m, l, d, script, tr) && StoresOnce(m, l, d, w0, w) && s' == Step(c, m, l)
  }

  /** A run in which the content of `d` is handed to the store at most once: `w` says what and whether it took
      effect. */
  ghost predicate OnceRun(c: Config, s: State, labels: seq<Label>, s': State, d: DeliveryId,
                          script: Option<Script>, tr: Transforms, w: Option<Stored>)
  {
    forall n: nat :: Unfold(TheRun, n) ==> OnceSteps(c, s, labels, s', d, script, tr, w)
  }

  // -------------------------------------------------- calls on behalf of the delivery

  /** What a call on behalf of `d` may do, and where its thread may go on. */
  ghost predicate MoveOne(c: Config, row: Delivery, script: Option<Script>, tr: Transforms, w: Option<Stored>,
                          move: Move, d: DeliveryId)
  {
    && (match move.effect
        case SetTransformed(_, _, _) => false
        case NewDelivery(_, _) => false
        case InsertRow(key) => Known(script, w)
        case Sent(e) => Sends(c, script, tr, row, w, e.key, e.payload, e.headers)
        case _ => true)
    && (move.next.Some? ==> PcOne(c, script, tr, row, w, move.next.value))
  }

  lemma {:induction false} NextFanOne(c: Config, script: Option<Script>, tr: Transforms, row: Delivery,
                                      w: Option<Stored>, d: DeliveryId, rest: seq<Todo>, p: Json, h: Json)
    requires Known(script, w) && Content(p, h) == First(script, row, w) && Payload.TodosSteady(tr, rest)
    ensures PcOne(c, script, tr, row, w, NextFan(c, d, rest, p, h))
    decreases |rest|
  {
    if rest != [] {
      assert rest[0] in rest && forall todo :: todo in rest[1..] ==> todo in rest;
      if Transform(c, rest[0].transform, p, h).Skip? {
        NextFanOne(c, script, tr, row, w, d, rest[1..], p, h);
      }
    }
  }

  lemma ResumeOne(c: Config, script: Option<Script>, tr: Transforms, row: Delivery, w: Option<Stored>,
                  d: DeliveryId, k: Cont)
    requires Known(script, w) && ContOne(script, tr, row, w, k)
    ensures PcOne(c, script, tr, row, w, Resume(c, d, k))
  {
    if k.Fan? {
      NextFanOne(c, script, tr, row, w, d, k.rest, k.payload, k.headers);
    }
  }

  lemma ListOne(c: Config, s: State, pc: Pc, ch: Choice, d: DeliveryId, script: Option<Script>, tr: Transforms,
                w: Option<Stored>)
    requires TablesOne(c, s, d, script, tr, w) && ChoiceOk(s, pc, ch) && pc.PdActions? && pc.d == d
    requires PcOne(c, script, tr, s.deliveries[d], w, pc)
    ensures MoveOne(c, s.deliveries[d], script, tr, w, Perform(c, s, pc, ch), d)
  {
    var acts := Todos(s.actions, ch.listing);
    forall todo | todo in acts
      ensures todo.transform == tr(todo.id)
    {
      var i :| 0 <= i < |acts| && acts[i] == todo;
      assert ch.listing[i] in ch.listing;
    }
    if !HasScript(script) {
      NextFanOne(c, script, tr, s.deliveries[d], w, d, acts, pc.snap.payload, pc.snap.headers);
    }
  }

  lemma AttemptOne(c: Config, s: State, pc: Pc, ch: Choice, d: DeliveryId, script: Option<Script>, tr: Transforms,
                   w: Option<Stored>)
    requires d in s.deliveries && ChoiceOk(s, pc, ch) && PcOne(c, script, tr, s.deliveries[d], w, pc)
    requires (pc.Insert? || pc.Dispatch? || pc.Settle?) && pc.key.delivery == d
    ensures MoveOne(c, s.deliveries[d], script, tr, w, Perform(c, s, pc, ch), d)
  {
    if !pc.Dispatch? {
      ResumeOne(c, script, tr, s.deliveries[d], w, d, pc.k);
    }
  }

  /** A retry reads the columns, and goes on to an attempt that is not the first. */
  lemma RetryOne(c: Config, s: State, pc: Pc, ch: Choice, d: DeliveryId, script: Option<Script>, tr: Transforms,
                 w: Option<Stored>)
    requires TablesOne(c, s, d, script, tr, w) && ChoiceOk(s, pc, ch) && PcOne(c, script, tr, s.deliveries[d], w, pc)
    requires (pc.RtDelivery? || pc.RtAction?) && pc.prev.delivery == d && pc.prev in s.hist.issued && pc.prev.number >= 1
    ensures MoveOne(c, s.deliveries[d], script, tr, w, Perform(c, s, pc, ch), d)
  {
    assert StoredContent(s.deliveries[d]) == Again(s.deliveries[d], w);
  }

  lemma PlainOne(c: Config, s: State, pc: Pc, ch: Choice, d: DeliveryId, script: Option<Script>, tr: Transforms,
                 w: Option<Stored>)
    requires Payload.FixedScripts(s, d, script, tr) && ChoiceOk(s, pc, ch) && Quiescence.Subject(pc) == Some(d)
    requires PcOne(c, script, tr, s.deliveries[d], w, pc)
    requires !(pc.PdActions? || pc.PdPersist? || pc.Insert? || pc.Dispatch? || pc.Settle?
               || pc.RtDelivery? || pc.RtAction?)
    ensures MoveOne(c, s.deliveries[d], script, tr, w, Perform(c, s, pc, ch), d)
  {
  }

  lemma OwnOne(c: Config, s: State, pc: Pc, ch: Choice, d: DeliveryId, script: Option<Script>, tr: Transforms,
               w: Option<Stored>)
    requires TablesOne(c, s, d, script, tr, w) && ChoiceOk(s, pc, ch) && Quiescence.Subject(pc) == Some(d)
    requires PcOk(c.maxRetries, s.attempts, s.hist.issued, s.hist.log, pc) && !pc.PdPersist?
    requires IssuedOk(c.maxRetries, s.hist.issued, s.hist.log)
    requires PcOne(c, script, tr, s.deliveries[d], w, pc)
    ensures MoveOne(c, s.deliveries[d], script, tr, w, Perform(c, s, pc, ch), d)
  {
    if pc.PdActions? {
      ListOne(c, s, pc, ch, d, script, tr, w);
    } else if pc.Insert? || pc.Dispatch? || pc.Settle? {
      AttemptOne(c, s, pc, ch, d, script, tr, w);
    } else if pc.RtDelivery? || pc.RtAction? {
      RetryOne(c, s, pc, ch, d, script, tr, w);
    } else {
      PlainOne(c, s, pc, ch, d, script, tr, w);
    }
  }

  // -------------------------------------------------- the invariant, step by step

  lemma SameRowOne(c: Config, script: Option<Script>, tr: Transforms, row: Delivery, row': Delivery, w: Option<Stored>,
                   pc: Pc)
    requires PcOne(c, script, tr, row, w, pc) && SameContent(row, row')
    ensures PcOne(c, script, tr, row', w, pc)
  {
  }

  lemma EffectOne(c: Config, s: State, move: Move, d: DeliveryId, script: Option<Script>, tr: Transforms,
                  w: Option<Stored>)
    requires TablesOne(c, s, d, script, tr, w) && MoveOne(c, s.deliveries[d], script, tr, w, move, d)
    ensures TablesOne(c, Apply(s, move.effect), d, script, tr, w)
    ensures SameContent(s.deliveries[d], Apply(s, move.effect).deliveries[d])
  {
    EffectRow(c, s, move, d, script, tr, w);
    var s' := Apply(s, move.effect);
    if move.effect.Sent? {
      LogMore(c, s.hist.log, move.effect.event, d, s.deliveries[d], script, tr, w);
    }
    LogSameRow(c, s'.hist.log, d, s.deliveries[d], s'.deliveries[d], script, tr, w);
  }

  lemma EffectRow(c: Config, s: State, move: Move, d: DeliveryId, script: Option<Script>, tr: Transforms,
                  w: Option<Stored>)
    requires TablesOne(c, s, d, script, tr, w) && MoveOne(c, s.deliveries[d], script, tr, w, move, d)
    ensures var s' := Apply(s, move.effect);
      && Payload.FixedScripts(s', d, script, tr) && SameContent(s.deliveries[d], s'.deliveries[d])
      && Columns(s'.deliveries[d], w) && (forall k :: k in s'.hist.issued && k.delivery == d ==> Known(script, w))
      && s'.hist.log == if move.effect.Sent? then s.hist.log + [move.effect.event] else s.hist.log
  {
    KeepsColumns(s, move.effect, d);
  }

  lemma KeepsColumns(s: State, e: Effect, d: DeliveryId)
    requires d in s.deliveries && !e.SetTransformed? && !e.NewDelivery?
    ensures var s' := Apply(s, e);
      && d in s'.deliveries && s'.deliveries[d].(status := s.deliveries[d].status) == s.deliveries[d]
      && s'.sources == s.sources && s'.actions == s.actions
      && s'.hist.issued == (if e.InsertRow? then s.hist.issued + {e.key} else s.hist.issued)
      && s'.hist.log == if e.Sent? then s.hist.log + [e.event] else s.hist.log
  {
  }

  lemma LogMore(c: Config, log: seq<Event>, e: Event, d: DeliveryId, row: Delivery, script: Option<Script>,
                tr: Transforms, w: Option<Stored>)
    requires LogOne(c, log, d, row, script, tr, w) && Sends(c, script, tr, row, w, e.key, e.payload, e.headers)
    ensures LogOne(c, log + [e], d, row, script, tr, w)
  {
  }

  lemma LogSameRow(c: Config, log: seq<Event>, d: DeliveryId, row: Delivery, row': Delivery, script: Option<Script>,
                   tr: Transforms, w: Option<Stored>)
    requires LogOne(c, log, d, row, script, tr, w) && SameContent(row, row')
    ensures LogOne(c, log, d, row', script, tr, w)
  {
  }

  lemma OtherOne(c: Config, s: State, e: Effect, d: DeliveryId, script: Option<Script>, tr: Transforms,
                 w: Option<Stored>)
    requires TablesOne(c, s, d, script, tr, w) && Quiescence.EffectOn(e) != Some(d)
    ensures TablesOne(c, Apply(s, e), d, script, tr, w)
    ensures SameContent(s.deliveries[d], Apply(s, e).deliveries[d])
  {
    OtherTables(s, e, d);
    var log' := Apply(s, e).hist.log;
    assert forall i :: 0 <= i < |s.hist.log| ==> log'[i] == s.hist.log[i];
  }

  /** An effect on another delivery. */
  lemma OtherTables(s: State, e: Effect, d: DeliveryId)
    requires d in s.deliveries && Quiescence.EffectOn(e) != Some(d)
    ensures var s' := Apply(s, e);
      && d in s'.deliveries && s'.deliveries[d] == s.deliveries[d]
      && s'.sources == s.sources && s'.actions == s.actions
      && (forall k :: k in s'.hist.issued && k.delivery == d ==> k in s.hist.issued)
      && s'.hist.log == if e.Sent? then s.hist.log + [e.event] else s.hist.log
  {
  }

  lemma ThreadsMove(c: Config, s: State, s': State, t: ThreadId, next: Option<Pc>, d: DeliveryId,
                    script: Option<Script>, tr: Transforms, w: Option<Stored>)
    requires d in s.deliveries && ThreadsOne(c, s, d, script, tr, w)
    requires d in s'.deliveries && SameContent(s.deliveries[d], s'.deliveries[d])
    requires s'.threads == Threads(s.threads, t, next)
    requires next.Some? && Quiescence.Subject(next.value) == Some(d) ==>
               PcOne(c, script, tr, s.deliveries[d], w, next.value)
    ensures ThreadsOne(c, s', d, script, tr, w)
  {
    forall u | u in s'.threads && Quiescence.Subject(s'.threads[u]) == Some(d)
      ensures PcOne(c, script, tr, s'.deliveries[d], w, s'.threads[u])
    {
      SameRowOne(c, script, tr, s.deliveries[d], s'.deliveries[d], w, s'.threads[u]);
    }
  }

  lemma AfterTables(c: Config, s: State, t: ThreadId, move: Move, d: DeliveryId, script: Option<Script>, tr: Transforms,
                    w: Option<Stored>)
    requires TablesOne(c, Apply(s, move.effect), d, script, tr, w)
    ensures TablesOne(c, After(s, t, move), d, script, tr, w)
  {
  }

  lemma OwnCallOne(c: Config, s: State, t: ThreadId, ch: Choice, move: Move, d: DeliveryId, script: Option<Script>,
                   tr: Transforms, w: Option<Stored>)
    requires Sound(c, s) && OneInv(c, s, d, script, tr, w) && t in s.threads && Moves(c, s, t, ch, move)
    requires Quiescence.Subject(s.threads[t]) == Some(d) && !s.threads[t].PdPersist?
    ensures OneInv(c, After(s, t, move), d, script, tr, w)
  {
    MoveIsOne(c, s, t, ch, move, d, script, tr, w);
    EffectOne(c, s, move, d, script, tr, w);
    AfterTables(c, s, t, move, d, script, tr, w);
    ThreadsMove(c, s, After(s, t, move), t, move.next, d, script, tr, w);
  }

  lemma MoveIsOne(c: Config, s: State, t: ThreadId, ch: Choice, move: Move, d: DeliveryId, script: Option<Script>,
                  tr: Transforms, w: Option<Stored>)
    requires Sound(c, s) && OneInv(c, s, d, script, tr, w) && t in s.threads && Moves(c, s, t, ch, move)
    requires Quiescence.Subject(s.threads[t]) == Some(d) && !s.threads[t].PdPersist?
    ensures MoveOne(c, s.deliveries[d], script, tr, w, move, d)
  {
    IssuedFacts(c, s, t);
    assert Unfold(TheMove, 0) && Unfold(TheInvariant, 0);
    OwnOne(c, s, s.threads[t], ch, d, script, tr, w);
  }

  lemma IssuedFacts(c: Config, s: State, t: ThreadId)
    requires Sound(c, s) && t in s.threads
    ensures PcOk(c.maxRetries, s.attempts, s.hist.issued, s.hist.log, s.threads[t])
    ensures IssuedOk(c.maxRetries, s.hist.issued, s.hist.log)
  {
    assert Unfold(TheInvariant, 0);
  }

  lemma OtherCallOne(c: Config, s: State, t: ThreadId, ch: Choice, move: Move, d: DeliveryId, script: Option<Script>,
                     tr: Transforms, w: Option<Stored>)
    requires Sound(c, s) && OneInv(c, s, d, script, tr, w) && t in s.threads && Moves(c, s, t, ch, move)
    requires Quiescence.Subject(s.threads[t]) != Some(d)
    ensures OneInv(c, After(s, t, move), d, script, tr, w)
  {
    OtherMoves(c, s, t, ch, move, d);
    OtherOne(c, s, move.effect, d, script, tr, w);
    AfterTables(c, s, t, move, d, script, tr, w);
    ThreadsMove(c, s, After(s, t, move), t, move.next, d, script, tr, w);
  }

  lemma OtherMoves(c: Config, s: State, t: ThreadId, ch: Choice, move: Move, d: DeliveryId)
    requires Sound(c, s) && d in s.deliveries && t in s.threads && Moves(c, s, t, ch, move)
    requires Quiescence.Subject(s.threads[t]) != Some(d)
    ensures Quiescence.EffectOn(move.effect) != Some(d)
    ensures move.next.Some? ==> Quiescence.Subject(move.next.value) != Some(d)
  {
    assert Unfold(TheMove, 0) && Unfold(TheInvariant, 0);
    Quiescence.SubjectStays(c, s, s.threads[t], ch);
  }

  /** The store call: from now on it is settled what first attempts and retries start from. */
  lemma PersistOne(c: Config, s: State, t: ThreadId, ch: Choice, move: Move, d: DeliveryId, script: Option<Script>,
                   tr: Transforms, w: Option<Stored>)
    requires OneInv(c, s, d, script, tr, None) && t in s.threads && Moves(c, s, t, ch, move)
    requires s.threads[t].PdPersist? && s.threads[t].d == d
    requires w == Some(Stored(Content(s.threads[t].payload, s.threads[t].headers), ch.reply != Refused))
    ensures OneInv(c, After(s, t, move), d, script, tr, w)
  {
    var s', row := After(s, t, move), s.deliveries[d];
    PersistMoves(c, s, t, ch, move);
    assert PcOne(c, script, tr, row, None, s.threads[t]);
    PersistTables(c, s, s', d, script, tr, w);
    PersistNext(c, s, t, d, script, tr, w);
    forall u | u in s'.threads && Quiescence.Subject(s'.threads[u]) == Some(d)
      ensures PcOne(c, script, tr, s'.deliveries[d], w, s'.threads[u])
    {
      if u != t {
        NothingKnown(c, script, tr, row, w, s.threads[u]);
      }
      SameRowOne(c, script, tr, row, s'.deliveries[d], w, s'.threads[u]);
    }
  }

  lemma PersistMoves(c: Config, s: State, t: ThreadId, ch: Choice, move: Move)
    requires t in s.threads && Moves(c, s, t, ch, move) && s.threads[t].PdPersist?
    ensures var PdPersist(d, p, h, acts, kept) := s.threads[t];
      move == Move(When(ch.reply != Refused, Effect.SetTransformed(d, p, h)),
                   Some(AfterPersist(c, d, p, h, acts, kept)))
  {
    assert Unfold(TheMove, 0);
  }

  /** Before the store call no thread has content to send. */
  lemma NothingKnown(c: Config, script: Option<Script>, tr: Transforms, row: Delivery, w: Option<Stored>, pc: Pc)
    requires HasScript(script) && PcOne(c, script, tr, row, None, pc)
    ensures PcOne(c, script, tr, row, w, pc)
  {
  }

  lemma PersistTables(c: Config, s: State, s': State, d: DeliveryId, script: Option<Script>, tr: Transforms,
                      w: Option<Stored>)
    requires TablesOne(c, s, d, script, tr, None) && Made(c, script, s.deliveries[d], w) && w.Some?
    requires s'.sources == s.sources && s'.actions == s.actions && s'.hist == s.hist
    requires s'.deliveries
          == if w.value.applied then
               s.deliveries[d := s.deliveries[d].(transformedPayload := Some(w.value.content.payload),
                                                  transformedHeaders := Some(w.value.content.headers))]
             else s.deliveries
    ensures TablesOne(c, s', d, script, tr, w) && SameContent(s.deliveries[d], s'.deliveries[d])
  {
  }

  lemma PersistNext(c: Config, s: State, t: ThreadId, d: DeliveryId, script: Option<Script>, tr: Transforms,
                    w: Option<Stored>)
    requires t in s.threads && s.threads[t].PdPersist? && d in s.deliveries && s.threads[t].d == d
    requires PcOne(c, script, tr, s.deliveries[d], None, s.threads[t])
    requires w.Some? && w.value.content == Content(s.threads[t].payload, s.threads[t].headers)
    ensures var PdPersist(_, p, h, acts, kept) := s.threads[t];
      PcOne(c, script, tr, s.deliveries[d], w, AfterPersist(c, d, p, h, acts, kept))
  {
    var PdPersist(_, p, h, acts, kept) := s.threads[t];
    Payload.KeptSteady(tr, acts, IdSet(kept));
    NextFanOne(c, script, tr, s.deliveries[d], w, d, Filter.Kept(acts, IdSet(kept)), p, h);
  }

  lemma SpawnOne(c: Config, s: State, l: Label, d: DeliveryId, script: Option<Script>, tr: Transforms,
                 w: Option<Stored>)
    requires OneInv(c, s, d, script, tr, w) && Enabled(c, s, l) && Spawns(l)
    ensures OneInv(c, Step(c, s, l), d, script, tr, w)
  {
    assert PcOne(c, script, tr, s.deliveries[d], w, NewPc(s, l));
    Endings.SpawnShape(c, s, l);
    ThreadsMove(c, s, Step(c, s, l), l.t, Some(NewPc(s, l)), d, script, tr, w);
  }

  lemma EditOne(c: Config, s: State, l: Label, d: DeliveryId, script: Option<Script>, tr: Transforms,
                w: Option<Stored>)
    requires TablesOk(s) && OneInv(c, s, d, script, tr, w) && Enabled(c, s, l) && !l.Advance? && !Spawns(l)
    requires ScriptsStay(s, l, d, script, tr)
    ensures OneInv(c, Step(c, s, l), d, script, tr, w)
  {
  }

  lemma StepOne(c: Config, s: State, l: Label, d: DeliveryId, script: Option<Script>, tr: Transforms,
                w: Option<Stored>, w': Option<Stored>)
    requires Inv(c, s) && OneInv(c, s, d, script, tr, w) && Enabled(c, s, l)
    requires ScriptsStay(s, l, d, script, tr) && StoresOnce(s, l, d, w, w')
    ensures OneInv(c, Step(c, s, l), d, script, tr, w')
  {
    if l.Advance? {
      var move := Perform(c, s, s.threads[l.t], l.ch);
      assert Step(c, s, l) == After(s, l.t, move);
      CallOne(c, s, l, move, d, script, tr, w, w');
    } else if Spawns(l) {
      SpawnOne(c, s, l, d, script, tr, w);
    } else {
      EditOne(c, s, l, d, script, tr, w);
    }
  }

  lemma CallOne(c: Config, s: State, l: Label, move: Move, d: DeliveryId, script: Option<Script>, tr: Transforms,
                w: Option<Stored>, w': Option<Stored>)
    requires Sound(c, s) && OneInv(c, s, d, script, tr, w) && StoresOnce(s, l, d, w, w')
    requires l.Advance? && l.t in s.threads && Moves(c, s, l.t, l.ch, move)
    ensures OneInv(c, After(s, l.t, move), d, script, tr, w')
  {
    if Quiescence.Subject(s.threads[l.t]) != Some(d) {
      OtherCallOne(c, s, l.t, l.ch, move, d, script, tr, w);
    } else if s.threads[l.t].PdPersist? {
      PersistOne(c, s, l.t, l.ch, move, d, script, tr, w');
    } else {
      OwnCallOne(c, s, l.t, l.ch, move, d, script, tr, w);
    }
  }

  lemma {:induction false} OnceStepsKeep(c: Config, s: State, labels: seq<Label>, s': State, d: DeliveryId,
                                         script: Option<Script>, tr: Transforms, w: Option<Stored>)
    requires Inv(c, s) && OneInv(c, s, d, script, tr, None) && OnceSteps(c, s, labels, s', d, script, tr, w)
    ensures Inv(c, s') && OneInv(c, s', d, script, tr, w)
    decreases |labels|
  {
    if labels != [] {
      var init, l := labels[..|labels| - 1], labels[|labels| - 1];
      var m, w0 :| OnceSteps(c, s, init, m, d, script, tr, w0) && d in m.deliveries && Enabled(c, m, l)
        && ScriptsStay(m, l, d, script, tr) && StoresOnce(m, l, d, w0, w) && s' == Step(c, m, l);
      OnceStepsKeep(c, s, init, m, d, script, tr, w0);
      StepKeeps(c, m, l);
      StepOne(c, m, l, d, script, tr, w0, w);
    }
  }

  // -------------------------------------------------- the theorems

  /** Where the run began: nothing was ever sent or stored for the new delivery. */
  ghost predicate Begins(c: Config, s: State, d: DeliveryId, script: Option<Script>, tr: Transforms) {
    && Reachable(c, s) && Quiescence.Fresh(s, d) && Payload.FixedScripts(s, d, script, tr)
    && Columns(s.deliveries[d], None)
  }

  lemma FreshOne(c: Config, s: State, d: DeliveryId, script: Option<Script>, tr: Transforms)
    requires Inv(c, s) && Quiescence.Fresh(s, d) && Payload.FixedScripts(s, d, script, tr)
    requires Columns(s.deliveries[d], None)
    ensures OneInv(c, s, d, script, tr, None)
  {
  }

  /** First attempts carry what the source script made, if there is one, and retries do if it was stored; otherwise
      they carry what was received.  Each carries it as the action's own script leaves it, which runs on the payload
      and the headers, in this order, unless there is none; and so does the source script on what was received. */
  ghost predicate SentAsMade(c: Config, log: seq<Event>, d: DeliveryId, payload: Json, headers: Json,
                             script: Option<Script>, tr: Transforms, w: Option<Stored>)
  {
    && (forall i :: 0 <= i < |log| && log[i].key.delivery == d ==>
          var e, own := log[i], tr(log[i].key.action);
          var content := if w.Some? && (e.key.number == 1 || w.value.applied) then w.value.content
                         else Content(payload, headers);
          if own == None || own.value == "" then e.payload == content.payload && e.headers == content.headers
          else c.runAction(own.value, content.payload, content.headers) == Send(e.payload, e.headers))
    && (w.Some? ==>
          && script.Some? && script.value != ""
          && exists listing, kept ::
               c.runSource(script.value, payload, headers, listing)
               == Transformed(w.value.content.payload, w.value.content.headers, kept))
  }

  lemma TablesSay(c: Config, s: State, d: DeliveryId, script: Option<Script>, tr: Transforms, w: Option<Stored>)
    requires TablesOne(c, s, d, script, tr, w)
    ensures SentAsMade(c, s.hist.log, d, s.deliveries[d].payload, s.deliveries[d].headers, script, tr, w)
  {
    var row := s.deliveries[d];
    forall i | 0 <= i < |s.hist.log| && s.hist.log[i].key.delivery == d
      ensures Sends(c, script, tr, row, w, s.hist.log[i].key, s.hist.log[i].payload, s.hist.log[i].headers)
    {
    }
    if w.Some? {
      var content := w.value.content;
      var listing :| Payload.Gives(c.runSource(script.value, row.payload, row.headers, listing),
                                   content.payload, content.headers);
      assert c.runSource(script.value, row.payload, row.headers, listing)
          == Transformed(content.payload, content.headers,
                         c.runSource(script.value, row.payload, row.headers, listing).kept);
    }
  }

  lemma WhatIsSent(c: Config, s0: State, labels: seq<Label>, s: State, d: DeliveryId, script: Option<Script>,
                   tr: Transforms, w: Option<Stored>)
    requires Begins(c, s0, d, script, tr) && OnceRun(c, s0, labels, s, d, script, tr, w)
    ensures d in s.deliveries && LogOne(c, s.hist.log, d, s.deliveries[d], script, tr, w)
    ensures SentAsMade(c, s.hist.log, d, s.deliveries[d].payload, s.deliveries[d].headers, script, tr, w)
  {
    assert Unfold(TheRun, 0);
    Guarantees.ReachableInv(c, s0);
    FreshOne(c, s0, d, script, tr);
    OnceStepsKeep(c, s0, labels, s, d, script, tr, w);
    TablesSay(c, s, d, script, tr, w);
  }

  /** The retries of an action carry what its first attempt carried exactly if the store call took effect, or was not
      needed, or the action's transform makes the same of both contents. */
  lemma RetriesAgreeExactly(c: Config, s0: State, labels: seq<Label>, s: State, d: DeliveryId, script: Option<Script>,
                            tr: Transforms, w: Option<Stored>, i: nat, j: nat)
    requires Begins(c, s0, d, script, tr) && OnceRun(c, s0, labels, s, d, script, tr, w)
    requires i < |s.hist.log| && j < |s.hist.log|
    requires var k, k' := s.hist.log[i].key, s.hist.log[j].key;
      k.delivery == k'.delivery == d && k.action == k'.action && k.number == 1 && k'.number > 1
    ensures d in s.deliveries
    ensures s.hist.log[i].payload == s.hist.log[j].payload && s.hist.log[i].headers == s.hist.log[j].headers
        <==> w == None || w.value.applied
             || var transform := tr(s.hist.log[i].key.action);
                TransformContent(c, transform, w.value.content)
                == TransformContent(c, transform, Received(s.deliveries[d]))
  {
    WhatIsSent(c, s0, labels, s, d, script, tr, w);
    NoScriptStoresNothing(c, s0, labels, s, d, script, tr, w);
    assert Sends(c, script, tr, s.deliveries[d], w, s.hist.log[i].key, s.hist.log[i].payload, s.hist.log[i].headers);
    assert Sends(c, script, tr, s.deliveries[d], w, s.hist.log[j].key, s.hist.log[j].payload, s.hist.log[j].headers);
  }

  lemma NoScriptStoresNothing(c: Config, s0: State, labels: seq<Label>, s: State, d: DeliveryId, script: Option<Script>,
                              tr: Transforms, w: Option<Stored>)
    requires Begins(c, s0, d, script, tr) && OnceRun(c, s0, labels, s, d, script, tr, w)
    ensures !HasScript(script) ==> w == None
    ensures w == None && HasScript(script) ==> forall i :: 0 <= i < |s.hist.log| ==> s.hist.log[i].key.delivery != d
  {
    assert Unfold(TheRun, 0);
    Guarantees.ReachableInv(c, s0);
    FreshOne(c, s0, d, script, tr);
    OnceStepsKeep(c, s0, labels, s, d, script, tr, w);
  }

  /** When the content is stored, or there is no script, all attempts of an action on a delivery carry the same, even
      if the source script looked at the listed actions. */
  lemma StoredOnceSentTheSame(c: Config, s0: State, labels: seq<Label>, s: State, d: DeliveryId, script: Option<Script>,
                              tr: Transforms, w: Option<Stored>, i: nat, j: nat)
    requires Begins(c, s0, d, script, tr) && OnceRun(c, s0, labels, s, d, script, tr, w)
    requires w == None || w.value.applied
    requires i < |s.hist.log| && j < |s.hist.log|
    requires s.hist.log[i].key.delivery == d && s.hist.log[j].key.delivery == d
    requires s.hist.log[i].key.action == s.hist.log[j].key.action
    ensures s.hist.log[i].payload == s.hist.log[j].payload && s.hist.log[i].headers == s.hist.log[j].headers
  {
    WhatIsSent(c, s0, labels, s, d, script, tr, w);
    NoScriptStoresNothing(c, s0, labels, s, d, script, tr, w);
    assert Sends(c, script, tr, s.deliveries[d], w, s.hist.log[i].key, s.hist.log[i].payload, s.hist.log[i].headers);
    assert Sends(c, script, tr, s.deliveries[d], w, s.hist.log[j].key, s.hist.log[j].payload, s.hist.log[j].headers);
  }
}

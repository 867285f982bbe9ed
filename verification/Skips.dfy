/** What becomes of a delivery that is not sent to some active action, because the source script leaves the action out
    or the transform of the action skips it: it is never completed, whatever the other actions do. */
module Skips {
  import opened Types
  import opened Machine
  import opened Safety
  import opened Decisions
  import opened Quiescence
  import Endings
  import Filter
  import Plans
  import Verdict
  import Guarantees

  ghost predicate TodosSkip(c: Config, g: Content, a: ActionId, rest: seq<Todo>) {
    forall todo :: todo in rest && todo.id == a ==> TransformContent(c, todo.transform, g) == Skip
  }

  ghost predicate ContSkips(c: Config, g: Content, a: ActionId, k: Cont) {
    k.Fan? ==> Content(k.payload, k.headers) == g && TodosSkip(c, g, a, k.rest)
  }

  /** The script keeps some action, and `a` only if its transform skips. */
  ghost predicate PersistSkips(c: Config, g: Content, a: ActionId, pc: Pc)
    requires pc.PdPersist?
  {
    && Content(pc.payload, pc.headers) == g && (a in pc.kept ==> TodosSkip(c, g, a, pc.acts))
    && exists todo :: todo in pc.acts && todo.id in pc.kept
  }

  /** The thread will not send anything to `a`, and will not write a final status. */
  ghost predicate PcSkips(c: Config, s: State, d: DeliveryId, g: Content, a: ActionId, pc: Pc)
    requires d in s.deliveries
  {
    var row := s.deliveries[d];
    match pc
    case PdStart(_, _) => true
    case PdSource(_, force, snap) => SameContent(row, snap) && Admits(s.sources, row, force)
    case PdAdmit(_, _, snap, script) => SameContent(row, snap) && ScriptRead(s.sources, row, script)
    case PdActions(_, snap, script) => SameContent(row, snap) && ScriptRead(s.sources, row, script)
    case PdPersist(_, _, _, _, _) => PersistSkips(c, g, a, pc)
    case Insert(key, _, _, k) => key.action != a && ContSkips(c, g, a, k)
    case Dispatch(key, _, _, k) => key.action != a && ContSkips(c, g, a, k)
    case Settle(key, _, k) => key.action != a && ContSkips(c, g, a, k)
    case RtDelivery(prev) => prev.action != a
    case RtAction(prev, _) => prev.action != a
    case Clear(_) => true
    case RollDelivery(_) => true
    case RollActions(_, source) => source == row.source
    case RollAttempts(_, listing) => a in listing
    case FwLoad(_, _) => true
    case FwPublish(_) => true
    case IgPublish(_) => true
    case _ => false
  }

  ghost predicate TablesSkip(c: Config, s: State, d: DeliveryId, a: ActionId, decision: Decision) {
    && Served(s, d) && decision.Goes? && Decided(c, s, d, decision)
    && a in Acts(s, d) && !Sends(c, s, a, decision)
    && s.deliveries[d].status in {Pending, Processing}
    && (forall k :: k in s.hist.issued && k.delivery == d ==> k.action != a)
  }

  ghost predicate ThreadsSkip(c: Config, s: State, d: DeliveryId, a: ActionId, g: Content)
    requires d in s.deliveries
  {
    forall t :: t in s.threads && Subject(s.threads[t]) == Some(d) ==> PcSkips(c, s, d, g, a, s.threads[t])
  }

  ghost predicate SkipInv(c: Config, s: State, d: DeliveryId, a: ActionId, decision: Decision) {
    TablesSkip(c, s, d, a, decision) && ThreadsSkip(c, s, d, a, decision.content)
  }

  // -------------------------------------------------- calls on behalf of the delivery

  lemma {:induction false} NextFanSkips(c: Config, s: State, d: DeliveryId, g: Content, a: ActionId, rest: seq<Todo>)
    requires d in s.deliveries && TodosSkip(c, g, a, rest)
    ensures PcSkips(c, s, d, g, a, NextFan(c, d, rest, g.payload, g.headers))
    decreases |rest|
  {
    if rest != [] {
      assert rest[0] in rest && forall todo :: todo in rest[1..] ==> todo in rest;
      if TransformContent(c, rest[0].transform, g).Skip? {
        NextFanSkips(c, s, d, g, a, rest[1..]);
      }
    }
  }

  /** What a call on behalf of `d` does to the tables. */
  ghost predicate EffectSkips(e: Effect, d: DeliveryId, a: ActionId) {
    match e
    case SetStatus(_, _) => false
    case NewDelivery(_, _) => false
    case InsertRow(key) => key.action != a
    case _ => true
  }

  ghost predicate MoveSkips(c: Config, s: State, move: Move, d: DeliveryId, a: ActionId, g: Content)
    requires d in s.deliveries
  {
    && EffectSkips(move.effect, d, a)
    && (move.next.Some? ==> PcSkips(c, s, d, g, a, move.next.value))
  }

  lemma ListSkips(c: Config, s: State, pc: Pc, ch: Choice, d: DeliveryId, a: ActionId, decision: Decision)
    requires TablesSkip(c, s, d, a, decision) && ChoiceOk(s, pc, ch) && ch.reply == Ok && pc.PdActions? && pc.d == d
    requires PcSkips(c, s, d, decision.content, a, pc)
    ensures MoveSkips(c, s, Perform(c, s, pc, ch), d, a, decision.content)
  {
    var g, acts := decision.content, Todos(s.actions, ch.listing);
    assert a in ch.listing && Received(pc.snap) == Received(s.deliveries[d]);
    ListsAsDecided(c, s, pc, ch);
    TodosListed(s.actions, ch.listing);
    assert a in decision.kept ==> TodosSkip(c, g, a, acts);
    if !HasScript(pc.script) {
      assert a in IdSet(ch.listing);
      NextFanSkips(c, s, d, g, a, acts);
    } else {
      KeepsSome(c, s, pc, ch, d, decision);
    }
  }

  /** A script that decides to go on keeps some listed action. */
  lemma KeepsSome(c: Config, s: State, pc: Pc, ch: Choice, d: DeliveryId, decision: Decision)
    requires pc.PdActions? && ch.reply == Ok && ChoiceOk(s, pc, ch) && HasScript(pc.script)
    requires decision.Goes? && DecisionFor(c, pc.script, Received(pc.snap), ch.listing) == decision
    ensures Perform(c, s, pc, ch).next.Some? && Perform(c, s, pc, ch).next.value.PdPersist?
    ensures var next := Perform(c, s, pc, ch).next.value;
      (exists todo :: todo in next.acts && todo.id in next.kept) && decision.kept == IdSet(next.kept) * IdSet(ch.listing)
  {
    ListsAsDecided(c, s, pc, ch);
    TodosListed(s.actions, ch.listing);
    assert decision.kept != {};
    var a :| a in decision.kept;
    assert Todo(a, s.actions[a].transform) in Todos(s.actions, ch.listing);
  }

  /** Storing the content and narrowing the list. */
  lemma PersistedSkips(c: Config, s: State, pc: Pc, ch: Choice, d: DeliveryId, a: ActionId, g: Content)
    requires d in s.deliveries && ChoiceOk(s, pc, ch) && pc.PdPersist? && pc.d == d
    requires PcSkips(c, s, d, g, a, pc)
    ensures MoveSkips(c, s, Perform(c, s, pc, ch), d, a, g)
  {
    var chosen := Filter.Kept(pc.acts, IdSet(pc.kept));
    Plans.KeptMembers(pc.acts, IdSet(pc.kept));
    var todo :| todo in pc.acts && todo.id in pc.kept;
    assert todo in chosen && todo.id in IdSet(pc.kept);
    NextFanSkips(c, s, d, g, a, chosen);
  }

  lemma AttemptSkips(c: Config, s: State, pc: Pc, ch: Choice, d: DeliveryId, a: ActionId, g: Content)
    requires d in s.deliveries && ChoiceOk(s, pc, ch)
    requires (pc.Insert? || pc.Dispatch? || pc.Settle?) && pc.key.delivery == d
    requires PcSkips(c, s, d, g, a, pc)
    ensures MoveSkips(c, s, Perform(c, s, pc, ch), d, a, g)
  {
    if pc.k.Fan? {
      NextFanSkips(c, s, d, g, a, pc.k.rest);
    }
  }

  /** A roll-up sees that `a` has no attempt. */
  lemma RollSkips(c: Config, s: State, pc: Pc, ch: Choice, d: DeliveryId, a: ActionId, decision: Decision)
    requires TablesSkip(c, s, d, a, decision) && ChoiceOk(s, pc, ch) && s.attempts.Keys <= s.hist.issued
    requires (pc.RollDelivery? || pc.RollActions? || pc.RollAttempts?) && pc.d == d
    requires PcSkips(c, s, d, decision.content, a, pc)
    ensures MoveSkips(c, s, Perform(c, s, pc, ch), d, a, decision.content)
  {
    if pc.RollAttempts? {
      NoVerdictWithout(c.maxRetries, IdSet(pc.listing), s.attempts, d, a);
    }
  }

  lemma NoVerdictWithout(maxRetries: int, acts: set<ActionId>, att: map<Key, Attempt>, d: DeliveryId, a: ActionId)
    requires a in acts && forall k :: k in att && k.delivery == d ==> k.action != a
    ensures Verdict.Of(maxRetries, acts, att, d) == None
  {
    assert !Verdict.Terminal(maxRetries, att, d, a);
  }

  lemma PlainSkips(c: Config, s: State, pc: Pc, ch: Choice, d: DeliveryId, a: ActionId, decision: Decision)
    requires TablesSkip(c, s, d, a, decision) && ChoiceOk(s, pc, ch) && ch.reply == Ok && Subject(pc) == Some(d)
    requires pc.PdStart? || pc.PdSource? || pc.PdAdmit? || pc.RtDelivery? || pc.RtAction? || pc.Clear?
             || pc.FwLoad? || Publishes(pc)
    requires PcSkips(c, s, d, decision.content, a, pc)
    ensures MoveSkips(c, s, Perform(c, s, pc, ch), d, a, decision.content)
  {
  }

  lemma OwnSkips(c: Config, s: State, pc: Pc, ch: Choice, d: DeliveryId, a: ActionId, decision: Decision)
    requires TablesSkip(c, s, d, a, decision) && ChoiceOk(s, pc, ch) && ch.reply == Ok && Subject(pc) == Some(d)
    requires s.attempts.Keys <= s.hist.issued
    requires PcSkips(c, s, d, decision.content, a, pc)
    ensures MoveSkips(c, s, Perform(c, s, pc, ch), d, a, decision.content)
  {
    if pc.PdActions? {
      ListSkips(c, s, pc, ch, d, a, decision);
    } else if pc.PdPersist? {
      PersistedSkips(c, s, pc, ch, d, a, decision.content);
    } else if pc.Insert? || pc.Dispatch? || pc.Settle? {
      AttemptSkips(c, s, pc, ch, d, a, decision.content);
    } else if pc.RollDelivery? || pc.RollActions? || pc.RollAttempts? {
      RollSkips(c, s, pc, ch, d, a, decision);
    } else {
      PlainSkips(c, s, pc, ch, d, a, decision);
    }
  }

  lemma EffectTables(c: Config, s: State, e: Effect, d: DeliveryId, a: ActionId, decision: Decision)
    requires TablesSkip(c, s, d, a, decision) && EffectSkips(e, d, a)
    ensures TablesSkip(c, Apply(s, e), d, a, decision) && Endings.RowKept(s, Apply(s, e), d)
  {
    DecidedStays(c, s, Apply(s, e), d, decision);
  }

  lemma ReplaceSkips(c: Config, s: State, s': State, t: ThreadId, next: Option<Pc>, d: DeliveryId, a: ActionId,
                     g: Content)
    requires d in s.deliveries && ThreadsSkip(c, s, d, a, g) && Endings.RowKept(s, s', d)
    requires s'.threads == Threads(s.threads, t, next)
    requires next.Some? && Subject(next.value) == Some(d) ==> PcSkips(c, s, d, g, a, next.value)
    ensures ThreadsSkip(c, s', d, a, g)
  {
  }

  lemma OwnCallSkips(c: Config, s: State, t: ThreadId, ch: Choice, d: DeliveryId, a: ActionId, decision: Decision)
    requires Inv(c, s) && SkipInv(c, s, d, a, decision) && t in s.threads && ChoiceOk(s, s.threads[t], ch)
    requires Subject(s.threads[t]) == Some(d) && ch.reply == Ok
    ensures SkipInv(c, AdvanceStep(c, s, t, ch), d, a, decision)
  {
    var move := Perform(c, s, s.threads[t], ch);
    OwnSkips(c, s, s.threads[t], ch, d, a, decision);
    EffectTables(c, s, move.effect, d, a, decision);
    AdvancedSkips(c, s, t, move, d, a, decision);
  }

  /** Tables that stay as they should, and one thread that moves on. */
  lemma AdvancedSkips(c: Config, s: State, t: ThreadId, move: Move, d: DeliveryId, a: ActionId, decision: Decision)
    requires SkipInv(c, s, d, a, decision) && TablesSkip(c, Apply(s, move.effect), d, a, decision)
    requires Endings.RowKept(s, Apply(s, move.effect), d)
    requires move.next.Some? && Subject(move.next.value) == Some(d) ==>
               PcSkips(c, s, d, decision.content, a, move.next.value)
    ensures SkipInv(c, After(s, t, move), d, a, decision)
  {
    ReplaceSkips(c, s, After(s, t, move), t, move.next, d, a, decision.content);
    DecidedStays(c, Apply(s, move.effect), After(s, t, move), d, decision);
  }

  // -------------------------------------------------- other calls and requests

  lemma OtherTables(c: Config, s: State, e: Effect, d: DeliveryId, a: ActionId, decision: Decision)
    requires TablesSkip(c, s, d, a, decision) && EffectOn(e) != Some(d)
    ensures TablesSkip(c, Apply(s, e), d, a, decision) && Endings.RowKept(s, Apply(s, e), d)
  {
    DecidedStays(c, s, Apply(s, e), d, decision);
  }

  lemma OtherCallSkips(c: Config, s: State, t: ThreadId, ch: Choice, d: DeliveryId, a: ActionId, decision: Decision)
    requires Inv(c, s) && SkipInv(c, s, d, a, decision) && t in s.threads && ChoiceOk(s, s.threads[t], ch)
    requires Subject(s.threads[t]) != Some(d)
    ensures SkipInv(c, AdvanceStep(c, s, t, ch), d, a, decision)
  {
    var move := Perform(c, s, s.threads[t], ch);
    SubjectStays(c, s, s.threads[t], ch);
    OtherTables(c, s, move.effect, d, a, decision);
    AdvancedSkips(c, s, t, move, d, a, decision);
  }

  lemma SpawnSkips(c: Config, s: State, l: Label, d: DeliveryId, a: ActionId, decision: Decision)
    requires Inv(c, s) && SkipInv(c, s, d, a, decision) && Enabled(c, s, l) && Spawns(l)
    ensures SkipInv(c, Step(c, s, l), d, a, decision)
  {
    var s' := Step(c, s, l);
    NewcomerSkips(c, s, l, d, a, decision);
    Endings.SpawnShape(c, s, l);
    ReplaceSkips(c, s, s', l.t, Some(NewPc(s, l)), d, a, decision.content);
    DecidedStays(c, s, s', d, decision);
  }

  lemma NewcomerSkips(c: Config, s: State, l: Label, d: DeliveryId, a: ActionId, decision: Decision)
    requires Inv(c, s) && SkipInv(c, s, d, a, decision) && Enabled(c, s, l) && Spawns(l)
    ensures Subject(NewPc(s, l)) == Some(d) ==> PcSkips(c, s, d, decision.content, a, NewPc(s, l))
  {
  }

  /** Edits of other sources and actions, and crashes. */
  lemma SameForSkips(c: Config, s: State, s': State, d: DeliveryId, a: ActionId, decision: Decision)
    requires SkipInv(c, s, d, a, decision) && SameFor(s, s', d) && SameThreadsFor(s, s', d)
    requires s'.hist.issued == s.hist.issued
    ensures SkipInv(c, s', d, a, decision)
  {
    DecidedStays(c, s, s', d, decision);
    assert a in Acts(s', d);
  }

  lemma WorldSkips(c: Config, s: State, l: Label, d: DeliveryId, a: ActionId, decision: Decision)
    requires Inv(c, s) && SkipInv(c, s, d, a, decision) && Enabled(c, s, l) && Benign(s, l, d) && !l.Advance?
    ensures SkipInv(c, Step(c, s, l), d, a, decision)
  {
    if Spawns(l) {
      SpawnSkips(c, s, l, d, a, decision);
    } else {
      if l.DeleteSource? {
        DeleteSame(c, s, l.source, d);
      } else {
        EditSame(c, s, l, d);
      }
      SameForSkips(c, s, Step(c, s, l), d, a, decision);
    }
  }

  lemma {:induction false} SkipStepsKeep(c: Config, s: State, labels: seq<Label>, s': State, d: DeliveryId, a: ActionId,
                                         decision: Decision)
    requires Inv(c, s) && SkipInv(c, s, d, a, decision) && BenignSteps(c, s, labels, s', d)
    ensures Inv(c, s') && SkipInv(c, s', d, a, decision)
    decreases |labels|
  {
    if labels != [] {
      var init, l := labels[..|labels| - 1], labels[|labels| - 1];
      var m :| BenignSteps(c, s, init, m, d) && d in m.deliveries && Enabled(c, m, l) && Benign(m, l, d)
        && s' == Step(c, m, l);
      SkipStepsKeep(c, s, init, m, d, a, decision);
      StepKeeps(c, m, l);
      SkipStep(c, m, l, d, a, decision);
    }
  }

  lemma SkipStep(c: Config, s: State, l: Label, d: DeliveryId, a: ActionId, decision: Decision)
    requires Inv(c, s) && SkipInv(c, s, d, a, decision) && Enabled(c, s, l) && Benign(s, l, d)
    ensures SkipInv(c, Step(c, s, l), d, a, decision)
  {
    if !l.Advance? {
      WorldSkips(c, s, l, d, a, decision);
    } else if Subject(s.threads[l.t]) == Some(d) {
      OwnCallSkips(c, s, l.t, l.ch, d, a, decision);
    } else {
      OtherCallSkips(c, s, l.t, l.ch, d, a, decision);
    }
  }

  // -------------------------------------------------- the theorems

  /** A delivery that is not sent to an active action is never completed or failed: the action has no attempt, so there
      is no verdict. */
  lemma SkippedForever(c: Config, s0: State, labels: seq<Label>, s: State, d: DeliveryId, a: ActionId,
                       decision: Decision)
    requires Reachable(c, s0) && Served(s0, d) && Untried(s0, d) && BenignRun(c, s0, labels, s, d)
    requires Decided(c, s0, d, decision) && decision.Goes? && a in Acts(s0, d) && !Sends(c, s0, a, decision)
    ensures d in s.deliveries && s.deliveries[d].status in {Pending, Processing}
    ensures VerdictOf(c, s, d) == None
    ensures forall k :: k in s.attempts && k.delivery == d ==> k.action != a
  {
    Guarantees.ReachableInv(c, s0);
    UntriedSkips(c, s0, d, a, decision);
    assert Unfold(TheRun, 0);
    SkipStepsKeep(c, s0, labels, s, d, a, decision);
    SkipMeans(c, s, d, a, decision);
  }

  lemma UntriedSkips(c: Config, s: State, d: DeliveryId, a: ActionId, decision: Decision)
    requires Served(s, d) && Untried(s, d) && Decided(c, s, d, decision) && decision.Goes?
    requires a in Acts(s, d) && !Sends(c, s, a, decision)
    ensures SkipInv(c, s, d, a, decision)
  {
  }

  lemma SkipMeans(c: Config, s: State, d: DeliveryId, a: ActionId, decision: Decision)
    requires SkipInv(c, s, d, a, decision) && s.attempts.Keys <= s.hist.issued
    ensures VerdictOf(c, s, d) == None && forall k :: k in s.attempts && k.delivery == d ==> k.action != a
  {
    NoVerdictWithout(c.maxRetries, Acts(s, d), s.attempts, d, a);
  }

  lemma NobodySkips(c: Config, s: State, d: DeliveryId, decision: Decision)
    requires Served(s, d) && Endings.Untransformed(s.deliveries[d]) && Decided(c, s, d, decision) && decision.Goes?
    requires forall a :: a in Acts(s, d) ==> Sends(c, s, a, decision)
    ensures Calm(c, s, d, decision.content)
  {
    forall listing | Lists(s.actions, s.deliveries[d].source, listing)
      ensures decision.kept == Acts(s, d)
    {
      var row := s.deliveries[d];
      assert DecisionFor(c, s.sources[row.source].script, Received(row), listing) == decision;
      assert decision.kept <= IdSet(listing) == Acts(s, d);
      assert Acts(s, d) <= decision.kept;
    }
  }

  lemma DrainedCalm(c: Config, s0: State, labels: seq<Label>, s: State, d: DeliveryId, g: Content)
    requires Reachable(c, s0) && Calm(c, s0, d, g) && Untried(s0, d) && BenignRun(c, s0, labels, s, d)
    requires d in s.deliveries && s.deliveries[d].status != Pending && !InFlight(s, d)
    requires forall k :: k in s.attempts && k.delivery == d ==> s.attempts[k].nextRetryAt == None
    ensures s.deliveries[d].status in {Completed, Failed}
  {
    assert CalmHistory(c, s, d);
    Drained(c, s, d);
  }

  /** Once nobody is at work on an admitted delivery and nothing is scheduled for it, the delivery has a final status
      exactly if the decision ended it or sent it to every active action. */
  lemma DrainedExactly(c: Config, s0: State, labels: seq<Label>, s: State, d: DeliveryId, decision: Decision)
    requires Reachable(c, s0) && Served(s0, d) && Endings.Untransformed(s0.deliveries[d]) && Untried(s0, d)
    requires Decided(c, s0, d, decision) && BenignRun(c, s0, labels, s, d)
    requires d in s.deliveries && s.deliveries[d].status != Pending && !InFlight(s, d)
    requires forall k :: k in s.attempts && k.delivery == d ==> s.attempts[k].nextRetryAt == None
    ensures s.deliveries[d].status in {Completed, Failed} <==>
            decision.Ends? || forall a :: a in Acts(s0, d) ==> Sends(c, s0, a, decision)
    ensures decision.Ends? ==> s.deliveries[d].status == decision.status
  {
    if decision.Ends? {
      Endings.EndsAsDecided(c, s0, labels, s, d, decision.status);
    } else if forall a :: a in Acts(s0, d) ==> Sends(c, s0, a, decision) {
      NobodySkips(c, s0, d, decision);
      DrainedCalm(c, s0, labels, s, d, decision.content);
    } else {
      var a :| a in Acts(s0, d) && !Sends(c, s0, a, decision);
      SkippedForever(c, s0, labels, s, d, a, decision);
    }
  }

  /** Without a source script, that is so exactly if no active action skips what was received. */
  lemma DrainedPlainly(c: Config, s0: State, labels: seq<Label>, s: State, d: DeliveryId)
    requires Reachable(c, s0) && Served(s0, d) && Endings.Untransformed(s0.deliveries[d]) && Untried(s0, d)
    requires s0.sources[s0.deliveries[d].source].script in {None, Some("")} && BenignRun(c, s0, labels, s, d)
    requires d in s.deliveries && s.deliveries[d].status != Pending && !InFlight(s, d)
    requires forall k :: k in s.attempts && k.delivery == d ==> s.attempts[k].nextRetryAt == None
    ensures s.deliveries[d].status in {Completed, Failed} <==>
            forall a :: a in Acts(s0, d) ==>
              !SkippedBy(c, s0.actions[a].transform, s0.deliveries[d].payload, s0.deliveries[d].headers)
  {
    if Acts(s0, d) == {} {
      NoActionsDecides(c, s0, d);
      DrainedExactly(c, s0, labels, s, d, Ends(Completed));
    } else {
      PlainDecides(c, s0, d);
      DrainedExactly(c, s0, labels, s, d, Goes(Received(s0.deliveries[d]), Acts(s0, d)));
    }
  }
}

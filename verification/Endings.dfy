/** What becomes of a delivery that the source script ends, because it fails, drops the delivery or keeps no active
    action: no attempt is ever made on it, and it is left with the status that the script decided. */
module Endings {
  import opened Types
  import opened Machine
  import opened Safety
  import opened Decisions
  import opened Quiescence
  import Filter
  import Guarantees

  ghost predicate Untransformed(row: Delivery) {
    row.transformedPayload == None && row.transformedHeaders == None
  }

  /** What the calls on behalf of `d`, other calls and requests leave alone. */
  ghost predicate RowKept(s: State, s': State, d: DeliveryId)
    requires d in s.deliveries
  {
    && d in s'.deliveries && SameContent(s.deliveries[d], s'.deliveries[d])
    && s'.sources == s.sources && s'.actions == s.actions
  }

  lemma SpawnShape(c: Config, s: State, l: Label)
    requires Enabled(c, s, l) && Spawns(l)
    ensures Step(c, s, l) == s.(threads := Threads(s.threads, l.t, Some(NewPc(s, l))), stream := Step(c, s, l).stream)
  {
  }

  /** The script keeps none of the actions. */
  ghost predicate KeepsNone(pc: Pc)
    requires pc.PdPersist?
  {
    forall todo :: todo in pc.acts ==> todo.id !in pc.kept
  }

  /** The thread will make no attempt, and will write no status but `final`. */
  ghost predicate PcEnds(s: State, d: DeliveryId, final: DeliveryStatus, pc: Pc)
    requires d in s.deliveries
  {
    var row := s.deliveries[d];
    match pc
    case PdStart(_, _) => true
    case PdSource(_, force, snap) => SameContent(row, snap) && Admits(s.sources, row, force)
    case PdAdmit(_, _, snap, script) => SameContent(row, snap) && ScriptRead(s.sources, row, script)
    case PdActions(_, snap, script) => SameContent(row, snap) && ScriptRead(s.sources, row, script)
    case PdPersist(_, _, _, _, _) => KeepsNone(pc) && final == Completed
    case PdFinish(_, status) => status == final
    case FwLoad(_, _) => true
    case FwPublish(_) => true
    case IgPublish(_) => true
    case _ => false
  }

  /** The thread is going to write a status. */
  ghost predicate Ending(pc: Pc, d: DeliveryId) {
    (pc.PdActions? || pc.PdPersist? || pc.PdFinish?) && pc.d == d
  }

  ghost predicate SomeEnds(threads: map<ThreadId, Pc>, d: DeliveryId) {
    exists t :: t in threads && Ending(threads[t], d)
  }

  ghost predicate TablesEnd(c: Config, s: State, d: DeliveryId, final: DeliveryStatus) {
    && Served(s, d) && Decided(c, s, d, Ends(final)) && final in {Completed, Failed}
    && s.deliveries[d].status in {Pending, Processing, final}
    && (forall k :: k in s.hist.issued ==> k.delivery != d)
  }

  ghost predicate ThreadsEnd(s: State, d: DeliveryId, final: DeliveryStatus)
    requires d in s.deliveries
  {
    forall t :: t in s.threads && Subject(s.threads[t]) == Some(d) ==> PcEnds(s, d, final, s.threads[t])
  }

  ghost predicate EndInv(c: Config, s: State, d: DeliveryId, final: DeliveryStatus) {
    && TablesEnd(c, s, d, final) && ThreadsEnd(s, d, final)
    && (s.deliveries[d].status == Processing ==> SomeEnds(s.threads, d))
  }

  // -------------------------------------------------- calls on behalf of the delivery

  /** What a call on behalf of `d` does: it writes `final`, admits the delivery, or leaves its status alone and goes on
      to write one. */
  ghost predicate MoveEnds(s: State, pc: Pc, move: Move, d: DeliveryId, final: DeliveryStatus)
    requires d in s.deliveries
  {
    && (move.next.Some? ==> PcEnds(s, d, final, move.next.value) && Subject(move.next.value) == Some(d))
    && match move.effect
       case NoEffect => Ending(pc, d) ==> move.next.Some? && Ending(move.next.value, d)
       case Publish(_) => !Ending(pc, d)
       case SetTransformed(x, _, _) => x == d && move.next.Some? && Ending(move.next.value, d)
       case Admit(x, _) => x == d && move.next.Some? && Ending(move.next.value, d)
       case SetStatus(x, status) => x == d && status == final
       case _ => false
  }

  lemma ListEnds(c: Config, s: State, pc: Pc, ch: Choice, d: DeliveryId, final: DeliveryStatus)
    requires TablesEnd(c, s, d, final) && ChoiceOk(s, pc, ch) && ch.reply == Ok && pc.PdActions? && pc.d == d
    requires PcEnds(s, d, final, pc)
    ensures MoveEnds(s, pc, Perform(c, s, pc, ch), d, final)
  {
    assert Received(pc.snap) == Received(s.deliveries[d]);
    ListsAsDecided(c, s, pc, ch);
    TodosListed(s.actions, ch.listing);
    var next := Perform(c, s, pc, ch).next.value;
    if next.PdPersist? {
      forall todo | todo in next.acts
        ensures todo.id !in next.kept
      {
        assert todo.id !in IdSet(next.kept) * IdSet(ch.listing);
      }
    }
  }

  lemma PersistEnds(c: Config, s: State, pc: Pc, ch: Choice, d: DeliveryId, final: DeliveryStatus)
    requires d in s.deliveries && ChoiceOk(s, pc, ch) && ch.reply == Ok && pc.PdPersist? && pc.d == d
    requires PcEnds(s, d, final, pc)
    ensures MoveEnds(s, pc, Perform(c, s, pc, ch), d, final)
  {
    Filter.KeptNone(pc.acts, IdSet(pc.kept));
  }

  lemma OwnEnds(c: Config, s: State, pc: Pc, ch: Choice, d: DeliveryId, final: DeliveryStatus)
    requires TablesEnd(c, s, d, final) && ChoiceOk(s, pc, ch) && ch.reply == Ok && Subject(pc) == Some(d)
    requires PcEnds(s, d, final, pc)
    ensures MoveEnds(s, pc, Perform(c, s, pc, ch), d, final)
  {
    if pc.PdActions? {
      ListEnds(c, s, pc, ch, d, final);
    } else if pc.PdPersist? {
      PersistEnds(c, s, pc, ch, d, final);
    }
  }

  lemma OwnRow(s: State, pc: Pc, move: Move, d: DeliveryId, final: DeliveryStatus)
    requires d in s.deliveries && MoveEnds(s, pc, move, d, final)
    ensures RowKept(s, Apply(s, move.effect), d) && Apply(s, move.effect).hist.issued == s.hist.issued
    ensures Apply(s, move.effect).deliveries[d].status in {s.deliveries[d].status, Processing, final}
  {
    match move.effect {
      case SetStatus(_, _) => {}
      case Admit(_, _) => {}
      case SetTransformed(_, _, _) => {}
      case _ =>
    }
  }

  lemma OwnTables(c: Config, s: State, pc: Pc, move: Move, d: DeliveryId, final: DeliveryStatus)
    requires TablesEnd(c, s, d, final) && MoveEnds(s, pc, move, d, final)
    ensures TablesEnd(c, Apply(s, move.effect), d, final) && RowKept(s, Apply(s, move.effect), d)
  {
    OwnRow(s, pc, move, d, final);
    DecidedStays(c, s, Apply(s, move.effect), d, Ends(final));
  }

  lemma ReplaceEnds(s: State, s': State, t: ThreadId, next: Option<Pc>, d: DeliveryId, final: DeliveryStatus)
    requires d in s.deliveries && ThreadsEnd(s, d, final) && RowKept(s, s', d)
    requires s'.threads == Threads(s.threads, t, next)
    requires next.Some? && Subject(next.value) == Some(d) ==> PcEnds(s, d, final, next.value)
    ensures ThreadsEnd(s', d, final)
  {
  }

  /** Somebody still ends the delivery, if somebody did and this thread was not the one or goes on. */
  lemma StillEnds(threads: map<ThreadId, Pc>, t: ThreadId, next: Option<Pc>, d: DeliveryId)
    requires SomeEnds(threads, d) || (next.Some? && Ending(next.value, d))
    requires t in threads && Ending(threads[t], d) ==> next.Some? && Ending(next.value, d)
    ensures SomeEnds(Threads(threads, t, next), d)
  {
    var threads' := Threads(threads, t, next);
    if next.Some? && Ending(next.value, d) {
      assert t in threads' && Ending(threads'[t], d);
    } else {
      var u :| u in threads && Ending(threads[u], d);
      assert u in threads' && Ending(threads'[u], d);
    }
  }

  lemma OwnCallEnds(c: Config, s: State, t: ThreadId, ch: Choice, d: DeliveryId, final: DeliveryStatus)
    requires EndInv(c, s, d, final) && t in s.threads && ChoiceOk(s, s.threads[t], ch)
    requires Subject(s.threads[t]) == Some(d) && ch.reply == Ok
    ensures EndInv(c, AdvanceStep(c, s, t, ch), d, final)
  {
    var pc := s.threads[t];
    var move := Perform(c, s, pc, ch);
    OwnEnds(c, s, pc, ch, d, final);
    OwnTables(c, s, pc, move, d, final);
    AdvancedEnds(c, s, t, move, d, final);
    if After(s, t, move).deliveries[d].status == Processing {
      StillEnds(s.threads, t, move.next, d);
    }
  }

  /** Tables that stay as they should, and one thread that moves on. */
  lemma AdvancedEnds(c: Config, s: State, t: ThreadId, move: Move, d: DeliveryId, final: DeliveryStatus)
    requires EndInv(c, s, d, final) && TablesEnd(c, Apply(s, move.effect), d, final)
    requires RowKept(s, Apply(s, move.effect), d)
    requires move.next.Some? && Subject(move.next.value) == Some(d) ==> PcEnds(s, d, final, move.next.value)
    ensures TablesEnd(c, After(s, t, move), d, final) && ThreadsEnd(After(s, t, move), d, final)
  {
    ReplaceEnds(s, After(s, t, move), t, move.next, d, final);
    DecidedStays(c, Apply(s, move.effect), After(s, t, move), d, Ends(final));
  }

  // -------------------------------------------------- other calls and requests

  lemma OtherTables(c: Config, s: State, e: Effect, d: DeliveryId, final: DeliveryStatus)
    requires TablesEnd(c, s, d, final) && EffectOn(e) != Some(d)
    ensures TablesEnd(c, Apply(s, e), d, final) && RowKept(s, Apply(s, e), d)
    ensures Apply(s, e).deliveries[d] == s.deliveries[d]
  {
    DecidedStays(c, s, Apply(s, e), d, Ends(final));
  }

  lemma OtherCallEnds(c: Config, s: State, t: ThreadId, ch: Choice, d: DeliveryId, final: DeliveryStatus)
    requires Inv(c, s) && EndInv(c, s, d, final) && t in s.threads && ChoiceOk(s, s.threads[t], ch)
    requires Subject(s.threads[t]) != Some(d)
    ensures EndInv(c, AdvanceStep(c, s, t, ch), d, final)
  {
    var move := Perform(c, s, s.threads[t], ch);
    SubjectStays(c, s, s.threads[t], ch);
    OtherTables(c, s, move.effect, d, final);
    AdvancedEnds(c, s, t, move, d, final);
    if s.deliveries[d].status == Processing {
      StillEnds(s.threads, t, move.next, d);
    }
  }

  lemma SpawnEnds(c: Config, s: State, l: Label, d: DeliveryId, final: DeliveryStatus)
    requires Inv(c, s) && EndInv(c, s, d, final) && Enabled(c, s, l) && Spawns(l)
    ensures EndInv(c, Step(c, s, l), d, final)
  {
    var s' := Step(c, s, l);
    NewcomerEnds(c, s, l, d, final);
    SpawnShape(c, s, l);
    ReplaceEnds(s, s', l.t, Some(NewPc(s, l)), d, final);
    DecidedStays(c, s, s', d, Ends(final));
    if s.deliveries[d].status == Processing {
      StillEnds(s.threads, l.t, Some(NewPc(s, l)), d);
    }
  }

  lemma NewcomerEnds(c: Config, s: State, l: Label, d: DeliveryId, final: DeliveryStatus)
    requires Inv(c, s) && EndInv(c, s, d, final) && Enabled(c, s, l) && Spawns(l)
    ensures Subject(NewPc(s, l)) == Some(d) ==> PcEnds(s, d, final, NewPc(s, l))
  {
  }

  /** Edits of other sources and actions, and crashes. */
  lemma SameForEnds(c: Config, s: State, s': State, d: DeliveryId, final: DeliveryStatus)
    requires EndInv(c, s, d, final) && SameFor(s, s', d) && SameThreadsFor(s, s', d)
    requires s'.hist.issued == s.hist.issued
    ensures EndInv(c, s', d, final)
  {
    DecidedStays(c, s, s', d, Ends(final));
    if s.deliveries[d].status == Processing {
      var t :| t in s.threads && Ending(s.threads[t], d);
      assert t in s'.threads && Ending(s'.threads[t], d);
    }
  }

  lemma EndStep(c: Config, s: State, l: Label, d: DeliveryId, final: DeliveryStatus)
    requires Inv(c, s) && EndInv(c, s, d, final) && Enabled(c, s, l) && Benign(s, l, d)
    ensures EndInv(c, Step(c, s, l), d, final)
  {
    if l.Advance? && Subject(s.threads[l.t]) == Some(d) {
      OwnCallEnds(c, s, l.t, l.ch, d, final);
    } else if l.Advance? {
      OtherCallEnds(c, s, l.t, l.ch, d, final);
    } else if Spawns(l) {
      SpawnEnds(c, s, l, d, final);
    } else {
      if l.DeleteSource? {
        DeleteSame(c, s, l.source, d);
      } else {
        EditSame(c, s, l, d);
      }
      SameForEnds(c, s, Step(c, s, l), d, final);
    }
  }

  lemma {:induction false} EndStepsKeep(c: Config, s: State, labels: seq<Label>, s': State, d: DeliveryId,
                                        final: DeliveryStatus)
    requires Inv(c, s) && EndInv(c, s, d, final) && BenignSteps(c, s, labels, s', d)
    ensures Inv(c, s') && EndInv(c, s', d, final)
    decreases |labels|
  {
    if labels != [] {
      var init, l := labels[..|labels| - 1], labels[|labels| - 1];
      var m :| BenignSteps(c, s, init, m, d) && d in m.deliveries && Enabled(c, m, l) && Benign(m, l, d)
        && s' == Step(c, m, l);
      EndStepsKeep(c, s, init, m, d, final);
      StepKeeps(c, m, l);
      EndStep(c, m, l, d, final);
    }
  }

  // -------------------------------------------------- the theorem

  /** A delivery that its source decided to end is never attempted, and once it was admitted it has the decided status
      whenever nobody is at work on it. */
  lemma EndsAsDecided(c: Config, s0: State, labels: seq<Label>, s: State, d: DeliveryId, final: DeliveryStatus)
    requires Reachable(c, s0) && Served(s0, d) && Untried(s0, d) && BenignRun(c, s0, labels, s, d)
    requires Decided(c, s0, d, Ends(final))
    ensures final in {Completed, Failed} && d in s.deliveries && forall k :: k in s.attempts ==> k.delivery != d
    ensures s.deliveries[d].status != Pending && !InFlight(s, d) ==> s.deliveries[d].status == final
  {
    Guarantees.ReachableInv(c, s0);
    UntriedEnds(c, s0, d, final);
    assert Unfold(TheRun, 0);
    EndStepsKeep(c, s0, labels, s, d, final);
    if SomeEnds(s.threads, d) {
      var t :| t in s.threads && Ending(s.threads[t], d);
      assert Subject(s.threads[t]) == Some(d);
    }
  }

  lemma UntriedEnds(c: Config, s: State, d: DeliveryId, final: DeliveryStatus)
    requires Served(s, d) && Untried(s, d) && Decided(c, s, d, Ends(final))
    ensures EndInv(c, s, d, final)
  {
    SomeListing(s.actions, s.deliveries[d].source);
  }

  /** The active actions can be listed. */
  lemma SomeListing(actions: map<ActionId, Action>, source: SourceId)
    ensures exists listing :: Lists(actions, source, listing)
  {
    var listing := ListOf(ActiveIds(actions, source));
    assert Lists(actions, source, listing);
  }

  lemma ListOf(ids: set<ActionId>) returns (listing: seq<ActionId>)
    ensures forall i, j :: 0 <= i < j < |listing| ==> listing[i] != listing[j]
    ensures forall a :: a in listing <==> a in ids
  {
    if ids == {} {
      listing := [];
    } else {
      var a :| a in ids;
      var rest := ListOf(ids - {a});
      listing := [a] + rest;
    }
  }
}

/** What becomes of a recorded delivery once a forced message admits it: at rest it shows its verdict, exactly if no
    other thread was about to write `recorded` or `pending` at the time. */
module Forwarded {
  import opened Types
  import opened Machine
  import opened Safety
  import opened Decisions
  import opened Quiescence
  import opened RecordMode
  import Endings
  import Engine
  import Filter
  import Guarantees

  // -------------------------------------------------- what workers read stays true

  /** The received columns of a row never change, and an ID is not given out again. */
  ghost predicate RowsLast(s: State, s': State) {
    forall d :: d in s.hist.home ==>
      d in s'.hist.home && (d in s'.deliveries ==> d in s.deliveries && SameContent(s.deliveries[d], s'.deliveries[d]))
  }

  lemma EffectLasts(s: State, e: Effect)
    requires TablesOk(s) && (e.NewDelivery? ==> e.id !in s.hist.home)
    ensures RowsLast(s, Apply(s, e))
  {
  }

  lemma StepLasts(c: Config, s: State, l: Label)
    requires TablesOk(s) && Enabled(c, s, l)
    ensures RowsLast(s, Step(c, s, l))
  {
    if l.Advance? {
      var e := Perform(c, s, s.threads[l.t], l.ch).effect;
      Guarantees.NewIsNew(c, s, s.threads[l.t], l.ch);
      EffectLasts(s, e);
      assert Step(c, s, l).deliveries == Apply(s, e).deliveries && Step(c, s, l).hist == Apply(s, e).hist;
    }
  }

  ghost predicate HasSnap(pc: Pc) {
    pc.PdSource? || pc.PdAdmit? || pc.PdActions?
  }

  ghost predicate SnapOk(s: State, pc: Pc) {
    HasSnap(pc) ==>
      pc.d in s.hist.home && (pc.d in s.deliveries ==> SameContent(s.deliveries[pc.d], pc.snap))
  }

  ghost predicate SnapsOk(s: State) {
    forall t :: t in s.threads ==> SnapOk(s, s.threads[t])
  }

  lemma SnapLasts(s: State, s': State, pc: Pc)
    requires RowsLast(s, s') && SnapOk(s, pc)
    ensures SnapOk(s', pc)
  {
  }

  lemma NextSnap(c: Config, s: State, pc: Pc, ch: Choice)
    requires TablesOk(s) && ChoiceOk(s, pc, ch) && SnapOk(s, pc)
    ensures Perform(c, s, pc, ch).next.Some? ==> SnapOk(s, Perform(c, s, pc, ch).next.value)
  {
    if !pc.PdStart? && !pc.PdSource? && !pc.PdAdmit? {
      NextHasNone(c, s, pc, ch);
    }
  }

  lemma NextHasNone(c: Config, s: State, pc: Pc, ch: Choice)
    requires ChoiceOk(s, pc, ch) && !pc.PdStart? && !pc.PdSource? && !pc.PdAdmit?
    ensures Perform(c, s, pc, ch).next.Some? ==> !HasSnap(Perform(c, s, pc, ch).next.value)
  {
    if pc.PdActions? {
      NextFanIs(c, pc.d, Todos(s.actions, ch.listing), pc.snap.payload, pc.snap.headers);
    } else if pc.PdPersist? {
      NextFanIs(c, pc.d, Filter.Kept(pc.acts, IdSet(pc.kept)), pc.payload, pc.headers);
    } else if (pc.Insert? || pc.Settle?) && pc.k.Fan? {
      NextFanIs(c, pc.key.delivery, pc.k.rest, pc.k.payload, pc.k.headers);
    }
  }

  lemma {:induction false} NextFanIs(c: Config, d: DeliveryId, rest: seq<Todo>, payload: Json, headers: Json)
    ensures var pc := NextFan(c, d, rest, payload, headers);
      && (pc.Insert? || pc == RollDelivery(d))
      && (pc.Insert? ==> pc.key.delivery == d && pc.k.Fan? && |pc.k.rest| < |rest|)
    decreases |rest|
  {
    if rest != [] && Transform(c, rest[0].transform, payload, headers).Skip? {
      NextFanIs(c, d, rest[1..], payload, headers);
    }
  }

  lemma AdvanceSnaps(c: Config, s: State, t: ThreadId, ch: Choice)
    requires TablesOk(s) && t in s.threads && ChoiceOk(s, s.threads[t], ch) && SnapsOk(s)
    requires RowsLast(s, AdvanceStep(c, s, t, ch))
    ensures SnapsOk(AdvanceStep(c, s, t, ch))
  {
    var s', next := AdvanceStep(c, s, t, ch), Perform(c, s, s.threads[t], ch).next;
    assert s'.threads == Threads(s.threads, t, next);
    NextSnap(c, s, s.threads[t], ch);
    forall u | u in s'.threads
      ensures SnapOk(s', s'.threads[u])
    {
      SnapLasts(s, s', s'.threads[u]);
    }
  }

  lemma WorldThreads(c: Config, s: State, l: Label)
    requires Enabled(c, s, l) && !l.Advance?
    ensures forall u :: u in Step(c, s, l).threads ==>
              (u in s.threads && Step(c, s, l).threads[u] == s.threads[u]) || !HasSnap(Step(c, s, l).threads[u])
  {
  }

  lemma StepSnaps(c: Config, s: State, l: Label)
    requires TablesOk(s) && Enabled(c, s, l) && SnapsOk(s)
    ensures SnapsOk(Step(c, s, l))
  {
    var s' := Step(c, s, l);
    StepLasts(c, s, l);
    if l.Advance? {
      AdvanceSnaps(c, s, l.t, l.ch);
    } else {
      WorldThreads(c, s, l);
      forall t | t in s'.threads && HasSnap(s'.threads[t])
        ensures SnapOk(s', s'.threads[t])
      {
        SnapLasts(s, s', s.threads[t]);
      }
    }
  }

  lemma {:induction false} RecordIsRun(c: Config, labels: seq<Label>, s: State, source: SourceId)
    requires RecordSteps(c, labels, s, source)
    ensures Run(c, INIT, labels, s) && Inv(c, s) && SnapsOk(s)
    decreases |labels|
  {
    if labels != [] {
      var init, l := labels[..|labels| - 1], labels[|labels| - 1];
      var m :| RecordSteps(c, init, m, source) && Enabled(c, m, l) && s == Step(c, m, l) && Recording(s, source);
      RecordIsRun(c, init, m, source);
      StepKeeps(c, m, l);
      StepSnaps(c, m, l);
    }
  }

  // -------------------------------------------------- the first admission

  /** A thread that will write `recorded` or `pending`, whatever the status is by then: an unforced worker that read
      the delivery while it was pending, the end of an ingest, a second forward, or one that takes its reset back. */
  ghost predicate Overwrites(pc: Pc) {
    (pc.PdSource? && !pc.force) || pc.PdRecord? || pc.IgRecord? || pc.FwReset? || pc.FwUndo?
  }

  ghost predicate Undisturbed(s: State, d: DeliveryId) {
    forall t :: t in s.threads && Subject(s.threads[t]) == Some(d) ==> !Overwrites(s.threads[t])
  }

  /** The workers that are about to admit `d` know the script as it is. */
  ghost predicate ScriptsKnown(s: State, d: DeliveryId)
    requires d in s.deliveries
  {
    forall t :: t in s.threads && s.threads[t].PdAdmit? && s.threads[t].d == d ==>
      ScriptRead(s.sources, s.deliveries[d], s.threads[t].script)
  }

  /** After a run in which the source of `d` recorded throughout, thread `t` is about to admit `d`, for the first
      time, and its call succeeds. */
  ghost predicate FirstAdmission(c: Config, labels: seq<Label>, s: State, d: DeliveryId, t: ThreadId, ch: Choice) {
    && d in s.deliveries && RecordRun(c, labels, s, s.deliveries[d].source) && d !in s.hist.admitted
    && t in s.threads && s.threads[t].PdAdmit? && s.threads[t].d == d
    && ChoiceOk(s, s.threads[t], ch) && ch.reply == Ok
  }

  lemma AdmissionShape(c: Config, s: State, t: ThreadId, ch: Choice)
    requires t in s.threads && s.threads[t].PdAdmit? && ChoiceOk(s, s.threads[t], ch) && ch.reply == Ok
    ensures var PdAdmit(d, force, snap, script) := s.threads[t];
      && AdvanceStep(c, s, t, ch).threads == s.threads[t := PdActions(d, snap, script)]
      && AdvanceStep(c, s, t, ch).deliveries == WithStatus(s.deliveries, d, Processing)
      && AdvanceStep(c, s, t, ch).sources == s.sources && AdvanceStep(c, s, t, ch).actions == s.actions
      && AdvanceStep(c, s, t, ch).hist.issued == s.hist.issued
  {
  }

  /** Of a delivery that was never admitted nobody has listed the actions. */
  lemma NobodyPast(c: Config, labels: seq<Label>, s: State, d: DeliveryId, t: ThreadId, ch: Choice)
    requires FirstAdmission(c, labels, s, d, t, ch)
    ensures Inv(c, s) && SnapsOk(s) && Traced(c, labels, s) && Recording(s, s.deliveries[d].source)
    ensures forall u :: u in s.threads && Subject(s.threads[u]) == Some(d) ==>
              !Past(s.threads[u]) && (s.threads[u].PdAdmit? ==> s.threads[u].force)
    ensures forall k :: k in s.hist.issued ==> k.delivery != d
  {
    assert Unfold(TheRun, 0);
    RecStepsKeep(c, labels, s, s.deliveries[d].source);
    RecordIsRun(c, labels, s, s.deliveries[d].source);
    forall u | u in s.threads && Subject(s.threads[u]) == Some(d)
      ensures !Past(s.threads[u]) && (s.threads[u].PdAdmit? ==> s.threads[u].force)
    {
      assert PcRec(s.hist, s.deliveries[d].source, s.threads[u]);
    }
  }

  lemma EarlyThreads(s: State, d: DeliveryId, pc: Pc)
    requires d in s.deliveries && s.deliveries[d].source in s.sources
    requires Subject(pc) == Some(d) && SnapOk(s, pc) && !Past(pc) && !Overwrites(pc)
    requires pc.PdAdmit? ==> ScriptRead(s.sources, s.deliveries[d], pc.script)
    ensures Early(s, d, pc) && !pc.PdActions?
  {
  }

  /** Nobody else at work on the delivery will stand in its way: the admitted delivery is one that the quiescence
      theorems are about. */
  lemma AdmittedIsUntried(c: Config, labels: seq<Label>, s: State, d: DeliveryId, t: ThreadId, ch: Choice)
    requires FirstAdmission(c, labels, s, d, t, ch) && Undisturbed(s, d) && ScriptsKnown(s, d)
    ensures var s0 := AdvanceStep(c, s, t, ch); Reachable(c, s0) && Served(s0, d) && Untried(s0, d)
  {
    var s0 := AdvanceStep(c, s, t, ch);
    NobodyPast(c, labels, s, d, t, ch);
    AdmissionShape(c, s, t, ch);
    assert Enabled(c, s, Advance(t, ch));
    TraceGrows(c, labels, s, Advance(t, ch));
    assert s0.threads[t].PdActions? && s0.threads[t].d == d;
    forall u | u in s0.threads && Subject(s0.threads[u]) == Some(d)
      ensures Early(s0, d, s0.threads[u])
    {
      assert SnapOk(s, s.threads[u]);
      EarlyThreads(s, d, s.threads[u]);
    }
  }

  // -------------------------------------------------- every thread can finish

  /** How often a thread still reads before it lists the actions, or how it gets there. */
  function Phase(pc: Pc): nat {
    match pc
    case PdStart(_, _) => 4
    case PdSource(_, _, _) => 3
    case PdAdmit(_, _, _, _) => 2
    case PdActions(_, _, _) => 1
    case FwLoad(_, _) => 3
    case FwReset(_) => 2
    case FwPublish(_) => 1
    case _ => 0
  }

  function ContRank(k: Cont): nat {
    match k
    case Fan(rest, _, _) => 4 + 3 * |rest|
    case Redo(_) => 5
  }

  /** How many calls a thread makes at most once it has listed the actions. */
  function Rank(pc: Pc): nat {
    match pc
    case PdPersist(_, _, _, acts, _) => 5 + 3 * |acts|
    case Insert(_, _, _, k) => 3 + ContRank(k)
    case Dispatch(_, _, _, k) => 2 + ContRank(k)
    case Settle(_, _, k) => 1 + ContRank(k)
    case RtDelivery(_) => 10
    case RtAction(_, _) => 9
    case Clear(_) => 5
    case RollDelivery(_) => 4
    case RollActions(_, _) => 3
    case RollAttempts(_, _) => 2
    case _ => 1
  }

  ghost predicate Nearer(pc: Pc, next: Pc) {
    Phase(next) < Phase(pc) || (Phase(next) == Phase(pc) && Rank(next) < Rank(pc))
  }

  lemma NextFanRank(c: Config, d: DeliveryId, rest: seq<Todo>, payload: Json, headers: Json)
    ensures var pc := NextFan(c, d, rest, payload, headers); Phase(pc) == 0 && Rank(pc) <= 4 + 3 * |rest|
  {
    NextFanIs(c, d, rest, payload, headers);
  }

  lemma {:induction false} KeptLength(all: seq<Todo>, ids: set<ActionId>)
    ensures |Filter.Kept(all, ids)| <= |all|
  {
    if all != [] {
      KeptLength(all[1..], ids);
    }
  }

  /** A call that succeeds is the last one of its thread, or brings the thread nearer to it. */
  lemma CallNears(c: Config, s: State, pc: Pc, ch: Choice)
    requires ChoiceOk(s, pc, ch) && ch.reply == Ok && !pc.IgInsert?
    ensures Perform(c, s, pc, ch).next.Some? ==> Nearer(pc, Perform(c, s, pc, ch).next.value)
  {
    if pc.PdActions? {
      NextFanRank(c, pc.d, Todos(s.actions, ch.listing), pc.snap.payload, pc.snap.headers);
    } else if pc.PdPersist? {
      KeptLength(pc.acts, IdSet(pc.kept));
      NextFanRank(c, pc.d, Filter.Kept(pc.acts, IdSet(pc.kept)), pc.payload, pc.headers);
    } else if (pc.Insert? || pc.Settle?) && pc.k.Fan? {
      NextFanRank(c, pc.key.delivery, pc.k.rest, pc.k.payload, pc.k.headers);
    }
  }

  lemma SomeChoice(s: State, pc: Pc) returns (ch: Choice)
    requires !pc.IgInsert?
    ensures ChoiceOk(s, pc, ch) && ch.reply == Ok
  {
    ch := Engine.Ch(Ok);
    if pc.PdActions? || pc.RollActions? {
      var source := if pc.PdActions? then pc.snap.source else pc.source;
      Endings.SomeListing(s.actions, source);
      var listing :| Lists(s.actions, source, listing);
      ch := ch.(listing := listing);
    }
  }

  /** A run of benign steps so far, with what its end still has of the tables; folded. */
  ghost predicate SoFar(c: Config, s0: State, labels: seq<Label>, s: State, d: DeliveryId) {
    forall n: nat :: Unfold(ThePath, n) ==> GoesTo(c, s0, labels, s, d)
  }

  ghost predicate GoesTo(c: Config, s0: State, labels: seq<Label>, s: State, d: DeliveryId) {
    && d in s0.deliveries && d in s.deliveries && BenignRun(c, s0, labels, s, d) && Inv(c, s)
    && s.sources == s0.sources && s.deliveries[d].source == s0.deliveries[d].source
  }

  lemma NothingYet(c: Config, s0: State, d: DeliveryId)
    requires d in s0.deliveries && Inv(c, s0)
    ensures SoFar(c, s0, [], s0, d)
  {
  }

  lemma BenignMore(c: Config, s0: State, labels: seq<Label>, s: State, l: Label, d: DeliveryId)
    requires BenignRun(c, s0, labels, s, d) && d in s.deliveries && Enabled(c, s, l) && Benign(s, l, d)
    ensures BenignRun(c, s0, labels + [l], Step(c, s, l), d)
  {
    assert Unfold(TheRun, 0);
    assert (labels + [l])[..|labels|] == labels;
  }

  lemma RowSourceStays(s: State, e: Effect, d: DeliveryId)
    requires d in s.deliveries && (e.NewDelivery? ==> e.id != d)
    ensures var s' := Apply(s, e);
      d in s'.deliveries && s'.deliveries[d].source == s.deliveries[d].source && s'.sources == s.sources
  {
  }

  /** Thread `t` makes its next call on behalf of `d`. */
  lemma OneCall(c: Config, s0: State, labels: seq<Label>, s: State, t: ThreadId, ch: Choice, d: DeliveryId)
    requires SoFar(c, s0, labels, s, d) && t in s.threads && Subject(s.threads[t]) == Some(d)
    requires ChoiceOk(s, s.threads[t], ch) && ch.reply == Ok
    ensures var move, s' := Perform(c, s, s.threads[t], ch), AdvanceStep(c, s, t, ch);
      && SoFar(c, s0, labels + [Advance(t, ch)], s', d) && s' == After(s, t, move)
      && s'.threads == Threads(s.threads, t, move.next)
      && (move.next.Some? ==> Subject(move.next.value) == Some(d))
  {
    assert Unfold(ThePath, 0);
    var l := Advance(t, ch);
    assert Enabled(c, s, l) && Step(c, s, l) == AdvanceStep(c, s, t, ch);
    BenignMore(c, s0, labels, s, l, d);
    StepKeeps(c, s, l);
    SubjectStays(c, s, s.threads[t], ch);
    Guarantees.NewIsNew(c, s, s.threads[t], ch);
    RowSourceStays(s, Perform(c, s, s.threads[t], ch).effect, d);
  }

  /** Thread `t` goes on to its end, and all its calls succeed. */
  lemma {:induction false} Finishes(c: Config, s0: State, labels: seq<Label>, s: State, t: ThreadId, d: DeliveryId)
    returns (more: seq<Label>, s': State)
    requires SoFar(c, s0, labels, s, d) && t in s.threads && Subject(s.threads[t]) == Some(d)
    ensures SoFar(c, s0, more, s', d) && s'.threads == s.threads - {t}
    decreases Phase(s.threads[t]), Rank(s.threads[t])
  {
    var ch := SomeChoice(s, s.threads[t]);
    OneCall(c, s0, labels, s, t, ch, d);
    CallNears(c, s, s.threads[t], ch);
    more, s' := labels + [Advance(t, ch)], AdvanceStep(c, s, t, ch);
    if t in s'.threads {
      more, s' := Finishes(c, s0, more, s', t, d);
    }
  }

  ghost function Others(threads: map<ThreadId, Pc>, u: ThreadId, d: DeliveryId): set<ThreadId> {
    set t | t in threads && t != u && Subject(threads[t]) == Some(d)
  }

  /** All threads of `d` but `u` go on to their end, one after the other. */
  lemma {:induction false} OthersFinish(c: Config, s0: State, labels: seq<Label>, s: State, u: ThreadId, d: DeliveryId)
    returns (more: seq<Label>, s': State)
    requires SoFar(c, s0, labels, s, d) && u in s.threads
    ensures SoFar(c, s0, more, s', d) && Others(s'.threads, u, d) == {}
    ensures u in s'.threads && s'.threads[u] == s.threads[u]
    decreases |Others(s.threads, u, d)|
  {
    if Others(s.threads, u, d) == {} {
      more, s' := labels, s;
    } else {
      var t :| t in Others(s.threads, u, d);
      more, s' := Finishes(c, s0, labels, s, t, d);
      assert Others(s'.threads, u, d) == Others(s.threads, u, d) - {t};
      more, s' := OthersFinish(c, s0, more, s', u, d);
    }
  }

  ghost predicate Hidden(s: State, d: DeliveryId) {
    d in s.deliveries && s.deliveries[d].status in {Pending, Recorded} && !InFlight(s, d)
  }

  /** The one thread left of `d` writes over the status. */
  lemma OverwriterLast(c: Config, s0: State, labels: seq<Label>, s: State, u: ThreadId, d: DeliveryId)
    returns (more: seq<Label>, s': State)
    requires SoFar(c, s0, labels, s, d) && u in s.threads && Subject(s.threads[u]) == Some(d)
    requires Others(s.threads, u, d) == {} && Overwrites(s.threads[u])
    requires s.threads[u].PdSource? ==>
               s.threads[u].snap.source in s.sources && s.sources[s.threads[u].snap.source].mode == Record
    ensures SoFar(c, s0, more, s', d) && Hidden(s', d)
  {
    more, s' := labels, s;
    if s.threads[u].PdSource? {
      var ch := Engine.Ch(Ok);
      OneCall(c, s0, more, s', u, ch, d);
      more, s' := more + [Advance(u, ch)], AdvanceStep(c, s', u, ch);
      assert Others(s'.threads, u, d) == Others(s.threads, u, d);
    }
    more, s' := OverwriterWrites(c, s0, more, s', u, d);
  }

  lemma OverwriterWrites(c: Config, s0: State, labels: seq<Label>, s: State, u: ThreadId, d: DeliveryId)
    returns (more: seq<Label>, s': State)
    requires SoFar(c, s0, labels, s, d) && u in s.threads && Subject(s.threads[u]) == Some(d)
    requires Others(s.threads, u, d) == {} && Overwrites(s.threads[u]) && !s.threads[u].PdSource?
    ensures SoFar(c, s0, more, s', d) && Hidden(s', d)
  {
    assert d in s.deliveries by {
      assert Unfold(ThePath, 0);
    }
    var ch := Engine.Ch(Ok);
    OneCall(c, s0, labels, s, u, ch, d);
    var s1 := AdvanceStep(c, s, u, ch);
    WritesOver(c, s, u, ch, d);
    more, s' := labels + [Advance(u, ch)], s1;
    if s.threads[u].FwReset? {
      assert Others(s1.threads, u, d) == Others(s.threads, u, d);
      more, s' := PublishesLast(c, s0, more, s1, u, d);
    } else {
      NobodyLeft(s, s1, u, d);
    }
  }

  lemma PublishesLast(c: Config, s0: State, labels: seq<Label>, s: State, u: ThreadId, d: DeliveryId)
    returns (more: seq<Label>, s': State)
    requires SoFar(c, s0, labels, s, d) && u in s.threads && s.threads[u] == FwPublish(d)
    requires Others(s.threads, u, d) == {} && d in s.deliveries && s.deliveries[d].status in {Pending, Recorded}
    ensures SoFar(c, s0, more, s', d) && Hidden(s', d)
  {
    var ch := Engine.Ch(Ok);
    OneCall(c, s0, labels, s, u, ch, d);
    more, s' := labels + [Advance(u, ch)], AdvanceStep(c, s, u, ch);
    PublishShape(c, s, u, ch, d);
    NobodyLeft(s, s', u, d);
  }

  lemma PublishShape(c: Config, s: State, u: ThreadId, ch: Choice, d: DeliveryId)
    requires u in s.threads && s.threads[u] == FwPublish(d) && ChoiceOk(s, s.threads[u], ch) && ch.reply == Ok
    ensures AdvanceStep(c, s, u, ch).deliveries == s.deliveries
    ensures AdvanceStep(c, s, u, ch).threads == s.threads - {u}
  {
  }

  lemma NobodyLeft(s: State, s': State, u: ThreadId, d: DeliveryId)
    requires Others(s.threads, u, d) == {} && s'.threads == s.threads - {u}
    ensures !InFlight(s', d)
  {
    forall t | t in s'.threads && Subject(s'.threads[t]) == Some(d)
      ensures t in Others(s.threads, u, d)
    {
    }
  }

  lemma WritesOver(c: Config, s: State, u: ThreadId, ch: Choice, d: DeliveryId)
    requires u in s.threads && Subject(s.threads[u]) == Some(d) && d in s.deliveries
    requires Overwrites(s.threads[u]) && !s.threads[u].PdSource? && ChoiceOk(s, s.threads[u], ch) && ch.reply == Ok
    ensures var s' := AdvanceStep(c, s, u, ch);
      && d in s'.deliveries && s'.deliveries[d].status in {Pending, Recorded}
      && s'.threads == Threads(s.threads, u, if s.threads[u].FwReset? then Some(FwPublish(d)) else None)
  {
  }

  // -------------------------------------------------- the theorems

  /** The status is the verdict on the attempts, or `processing` as long as there is none. */
  ghost predicate ShowsVerdict(c: Config, s: State, d: DeliveryId) {
    && d in s.deliveries
    && s.deliveries[d].status == if VerdictOf(c, s, d).Some? then VerdictOf(c, s, d).value else Processing
  }

  lemma UndisturbedShows(c: Config, before: seq<Label>, m: State, d: DeliveryId, t: ThreadId, ch: Choice, g: Content,
                         work: seq<Label>, s: State)
    requires FirstAdmission(c, before, m, d, t, ch) && ScriptsKnown(m, d) && Undisturbed(m, d)
    requires Calm(c, AdvanceStep(c, m, t, ch), d, g)
    requires BenignRun(c, AdvanceStep(c, m, t, ch), work, s, d) && !InFlight(s, d)
    ensures ShowsVerdict(c, s, d)
  {
    AdmittedIsUntried(c, before, m, d, t, ch);
    Calmed(c, AdvanceStep(c, m, t, ch), work, s, d, g);
    QuiescentConsistency(c, s, d);
  }

  lemma Calmed(c: Config, s0: State, work: seq<Label>, s: State, d: DeliveryId, g: Content)
    requires Reachable(c, s0) && Calm(c, s0, d, g) && Untried(s0, d) && BenignRun(c, s0, work, s, d)
    requires s0.deliveries[d].status != Pending
    ensures CalmHistory(c, s, d) && d in s.deliveries && s.deliveries[d].status != Pending
  {
    Guarantees.ReachableInv(c, s0);
    UntriedCalm(c, s0, d, g);
    assert Unfold(TheRun, 0);
    BenignStepsKeep(c, s0, work, s, d, g);
  }

  /** With somebody about to write over the status, there is a run of successful calls that ends with nobody at work
      and the status hidden. */
  lemma DisturbedHides(c: Config, before: seq<Label>, m: State, d: DeliveryId, t: ThreadId, ch: Choice)
    returns (work: seq<Label>, s: State)
    requires FirstAdmission(c, before, m, d, t, ch) && !Undisturbed(m, d)
    ensures BenignRun(c, AdvanceStep(c, m, t, ch), work, s, d) && Hidden(s, d)
  {
    var s0 := AdvanceStep(c, m, t, ch);
    var u :| u in m.threads && Subject(m.threads[u]) == Some(d) && Overwrites(m.threads[u]);
    NobodyPast(c, before, m, d, t, ch);
    AdmissionShape(c, m, t, ch);
    assert Enabled(c, m, Advance(t, ch)) && Step(c, m, Advance(t, ch)) == s0;
    StepKeeps(c, m, Advance(t, ch));
    NothingYet(c, s0, d);
    work, s := OthersFinish(c, s0, [], s0, u, d);
    assert SnapOk(m, m.threads[u]);
    assert s.sources == s0.sources by {
      assert Unfold(ThePath, 0);
    }
    work, s := OverwriterLast(c, s0, work, s, u, d);
    assert Unfold(ThePath, 0);
  }

  /** A delivery of a recording source, forwarded and admitted for the first time, shows its verdict whenever nobody is
      at work on it, however the workers race, exactly if nobody was about to write over its status when it was
      admitted. */
  lemma ForwardedShowsVerdict(c: Config, before: seq<Label>, m: State, d: DeliveryId, t: ThreadId, ch: Choice,
                              g: Content)
    requires FirstAdmission(c, before, m, d, t, ch) && ScriptsKnown(m, d)
    requires Calm(c, AdvanceStep(c, m, t, ch), d, g)
    ensures Undisturbed(m, d) <==>
            forall work, s :: BenignRun(c, AdvanceStep(c, m, t, ch), work, s, d) && !InFlight(s, d) ==>
              ShowsVerdict(c, s, d)
  {
    if Undisturbed(m, d) {
      forall work, s | BenignRun(c, AdvanceStep(c, m, t, ch), work, s, d) && !InFlight(s, d)
        ensures ShowsVerdict(c, s, d)
      {
        UndisturbedShows(c, before, m, d, t, ch, g, work, s);
      }
    } else {
      var work, s := DisturbedHides(c, before, m, d, t, ch);
      VerdictValue(c, s, d);
      assert !ShowsVerdict(c, s, d);
    }
  }
}

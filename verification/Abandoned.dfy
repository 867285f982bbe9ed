/** When a chain of attempts ends too early: a failed attempt with retries left loses its schedule without a successor
    only if a retry of it was given up, because the transform of its action skipped or the insert was refused. */
module Abandoned {
  import opened Types
  import opened Machine
  import opened Safety
  import Filter
  import Forwarded
  import Guarantees

  /** The attempt whose retry thread `t` gives up with this call, if it does. */
  ghost function GivenUp(c: Config, s: State, t: ThreadId, ch: Choice): set<Key>
    requires t in s.threads && ChoiceOk(s, s.threads[t], ch)
  {
    var pc := s.threads[t];
    if pc.RtAction? && Perform(c, s, pc, ch).next == Some(Clear(pc.prev)) then {pc.prev}
    else if pc.Insert? && pc.k.Redo? && ch.reply == Refused then {pc.k.prev}
    else {}
  }

  /** A retry is given up when the script of the action, as it is now, skips what the row held when it was read, or when
      the insert of the next attempt is refused. */
  lemma GivenUpExactly(c: Config, s: State, t: ThreadId, ch: Choice, k: Key)
    requires t in s.threads && ChoiceOk(s, s.threads[t], ch)
    ensures var pc := s.threads[t];
      k in GivenUp(c, s, t, ch) <==>
      || (pc.RtAction? && pc.prev == k && ch.reply == Ok && k.action in s.actions
          && SkippedBy(c, s.actions[k.action].transform, StoredPayload(pc.snap), StoredHeaders(pc.snap)))
      || (pc.Insert? && pc.k == Redo(k) && ch.reply == Refused)
  {
  }

  /** A run from the start in which the retries of the attempts in `gone` were given up, and of no others. */
  ghost predicate GivingSteps(c: Config, labels: seq<Label>, s: State, gone: set<Key>)
    decreases |labels|
  {
    if labels == [] then s == INIT && gone == {}
    else
      var init, l := labels[..|labels| - 1], labels[|labels| - 1];
      exists m, g0 :: GivingSteps(c, init, m, g0) && Enabled(c, m, l) && s == Step(c, m, l)
        && gone == g0 + if l.Advance? then GivenUp(c, m, l.t, l.ch) else {}
  }

  ghost predicate GivingRun(c: Config, labels: seq<Label>, s: State, gone: set<Key>) {
    forall n: nat :: Unfold(TheRun, n) ==> GivingSteps(c, labels, s, gone)
  }

  /** The attempt is followed by another, or its retry was given up. */
  ghost predicate Continued(att: Attempts, gone: set<Key>, k: Key) {
    Succ(k) in att || k in gone
  }

  ghost predicate RowsGo(maxRetries: int, att: Attempts, gone: set<Key>) {
    forall k :: k in att && att[k].status == AttemptFailed && k.number < maxRetries ==>
      att[k].nextRetryAt.Some? || Continued(att, gone, k)
  }

  /** A schedule is cleared only then. */
  ghost predicate ClearsOk(att: Attempts, gone: set<Key>, pc: Pc) {
    pc.Clear? && pc.prev in att ==> Continued(att, gone, pc.prev)
  }

  ghost predicate GoInv(c: Config, s: State, gone: set<Key>) {
    && RowsGo(c.maxRetries, s.attempts, gone)
    && forall t :: t in s.threads ==> ClearsOk(s.attempts, gone, s.threads[t])
  }

  // -------------------------------------------------- calls

  /** Where a thread goes on to clear a schedule. */
  lemma NextClears(c: Config, s: State, pc: Pc, ch: Choice)
    requires ChoiceOk(s, pc, ch)
    ensures var next := Perform(c, s, pc, ch).next;
      next.Some? && next.value.Clear? ==>
        || (pc.RtAction? && next.value.prev == pc.prev)
        || ((pc.Insert? || pc.Settle?) && pc.k.Redo? && next.value.prev == pc.k.prev)
  {
    if !pc.PdStart? && !pc.PdSource? && !pc.PdAdmit? {
      FanNeverClears(c, s, pc, ch);
    }
  }

  lemma FanNeverClears(c: Config, s: State, pc: Pc, ch: Choice)
    requires ChoiceOk(s, pc, ch)
    ensures pc.PdActions? || pc.PdPersist? || ((pc.Insert? || pc.Settle?) && pc.k.Fan?) ==>
              Perform(c, s, pc, ch).next.Some? ==> !Perform(c, s, pc, ch).next.value.Clear?
  {
    if pc.PdActions? {
      Forwarded.NextFanIs(c, pc.d, Todos(s.actions, ch.listing), pc.snap.payload, pc.snap.headers);
    } else if pc.PdPersist? {
      Forwarded.NextFanIs(c, pc.d, Filter.Kept(pc.acts, IdSet(pc.kept)), pc.payload, pc.headers);
    } else if (pc.Insert? || pc.Settle?) && pc.k.Fan? {
      Forwarded.NextFanIs(c, pc.key.delivery, pc.k.rest, pc.k.payload, pc.k.headers);
    }
  }

  /** A thread that goes on to clear a schedule has continued the chain, or gives it up now. */
  lemma ClearsNext(c: Config, s: State, t: ThreadId, ch: Choice)
    requires TablesOk(s) && t in s.threads && ChoiceOk(s, s.threads[t], ch)
    requires PcOk(c.maxRetries, s.attempts, s.hist.issued, s.hist.log, s.threads[t])
    ensures var move := Perform(c, s, s.threads[t], ch);
      move.next.Some? ==> ClearsOk(Apply(s, move.effect).attempts, GivenUp(c, s, t, ch), move.next.value)
  {
    var pc := s.threads[t];
    NextClears(c, s, pc, ch);
    if pc.Insert? && pc.k.Redo? {
      InsertClears(c, s, pc, ch);
    } else if pc.Settle? && pc.k.Redo? {
      assert pc.k.prev in s.attempts ==> pc.key in s.attempts;
      SettleKeys(c, s, pc, ch);
    }
  }

  lemma InsertClears(c: Config, s: State, pc: Pc, ch: Choice)
    requires TablesOk(s) && ChoiceOk(s, pc, ch) && pc.Insert? && pc.k.Redo? && pc.key == Succ(pc.k.prev)
    ensures var att' := Apply(s, Perform(c, s, pc, ch).effect).attempts;
      pc.k.prev in att' ==> pc.key in att' || ch.reply == Refused
  {
  }

  lemma SettleKeys(c: Config, s: State, pc: Pc, ch: Choice)
    requires ChoiceOk(s, pc, ch) && pc.Settle?
    ensures Apply(s, Perform(c, s, pc, ch).effect).attempts.Keys == s.attempts.Keys
  {
  }

  /** What a call may do to the attempts. */
  ghost predicate EffectGoes(maxRetries: int, att: Attempts, gone: set<Key>, e: Effect) {
    match e
    case InsertRow(key) => key !in att
    case UpdateRow(key, row, _) =>
      key in att && row.status == AttemptFailed && key.number < maxRetries ==>
        row.nextRetryAt.Some? || Continued(att, gone, key)
    case _ => true
  }

  lemma CallGoes(c: Config, s: State, pc: Pc, ch: Choice, gone: set<Key>)
    requires ChoiceOk(s, pc, ch) && ClearsOk(s.attempts, gone, pc)
    ensures EffectGoes(c.maxRetries, s.attempts, gone, Perform(c, s, pc, ch).effect)
  {
  }

  lemma RowsGoOn(c: Config, s: State, e: Effect, gone: set<Key>, more: set<Key>)
    requires RowsGo(c.maxRetries, s.attempts, gone) && EffectGoes(c.maxRetries, s.attempts, gone, e) && gone <= more
    ensures RowsGo(c.maxRetries, Apply(s, e).attempts, more)
  {
    var att' := Apply(s, e).attempts;
    AttemptsLast(s, e);
    forall k | k in att' && att'[k].status == AttemptFailed && k.number < c.maxRetries
      ensures att'[k].nextRetryAt.Some? || Continued(att', more, k)
    {
      if k in s.attempts && att'[k] == s.attempts[k] {
        assert s.attempts[k].nextRetryAt.Some? || Continued(s.attempts, gone, k);
      }
    }
  }

  lemma AttemptsLast(s: State, e: Effect)
    ensures s.attempts.Keys <= Apply(s, e).attempts.Keys
    ensures forall k :: k in Apply(s, e).attempts ==>
              || (k in s.attempts && Apply(s, e).attempts[k] == s.attempts[k])
              || (e == InsertRow(k) && Apply(s, e).attempts[k] == Attempt(AttemptPending, None))
              || (e.UpdateRow? && e.key == k && k in s.attempts && Apply(s, e).attempts[k] == e.attempt)
  {
  }

  /** Other threads are not concerned: what they are about to clear was inserted before. */
  lemma ClearsLast(c: Config, s: State, e: Effect, gone: set<Key>, more: set<Key>, pc: Pc)
    requires TablesOk(s) && PcOk(c.maxRetries, s.attempts, s.hist.issued, s.hist.log, pc)
    requires ClearsOk(s.attempts, gone, pc) && gone <= more && (e.InsertRow? ==> CanInsert(s, e.key))
    ensures ClearsOk(Apply(s, e).attempts, more, pc)
  {
    AttemptsLast(s, e);
  }

  lemma InsertsNew(c: Config, s: State, pc: Pc, ch: Choice)
    requires ChoiceOk(s, pc, ch)
    ensures var e := Perform(c, s, pc, ch).effect; e.InsertRow? ==> CanInsert(s, e.key)
  {
  }

  lemma AdvanceGoes(c: Config, s: State, t: ThreadId, ch: Choice, gone: set<Key>)
    requires Inv(c, s) && GoInv(c, s, gone) && t in s.threads && ChoiceOk(s, s.threads[t], ch)
    ensures GoInv(c, AdvanceStep(c, s, t, ch), gone + GivenUp(c, s, t, ch))
  {
    var move, more := Perform(c, s, s.threads[t], ch), gone + GivenUp(c, s, t, ch);
    CallGoes(c, s, s.threads[t], ch, gone);
    RowsGoOn(c, s, move.effect, gone, more);
    ClearsNext(c, s, t, ch);
    InsertsNew(c, s, s.threads[t], ch);
    forall u | u in s.threads
      ensures ClearsOk(Apply(s, move.effect).attempts, more, s.threads[u])
    {
      ClearsLast(c, s, move.effect, gone, more, s.threads[u]);
    }
    ThreadsGo(s, t, move, more);
  }

  lemma ThreadsGo(s: State, t: ThreadId, move: Move, gone: set<Key>)
    requires var att' := Apply(s, move.effect).attempts;
      && (forall u :: u in s.threads ==> ClearsOk(att', gone, s.threads[u]))
      && (move.next.Some? ==> ClearsOk(att', gone, move.next.value))
    ensures var s' := After(s, t, move);
      && s'.attempts == Apply(s, move.effect).attempts
      && forall u :: u in s'.threads ==> ClearsOk(s'.attempts, gone, s'.threads[u])
  {
  }

  // -------------------------------------------------- requests

  /** Requests start no clearing, and delete an attempt together with its successor. */
  lemma WorldAttempts(c: Config, s: State, l: Label)
    requires TablesOk(s) && Enabled(c, s, l) && !l.Advance?
    ensures var att' := Step(c, s, l).attempts;
      && (forall k :: k in att' ==> k in s.attempts && att'[k] == s.attempts[k])
      && (forall k :: k in att' && Succ(k) in s.attempts ==> Succ(k) in att')
  {
    if !l.DeleteAction? && !l.DeleteSource? {
      Guarantees.WorldLeavesAttempts(c, s, l);
    }
  }

  lemma WorldGoes(c: Config, s: State, l: Label, gone: set<Key>)
    requires Inv(c, s) && GoInv(c, s, gone) && Enabled(c, s, l) && !l.Advance?
    ensures GoInv(c, Step(c, s, l), gone)
  {
    WorldAttempts(c, s, l);
    NoNewClears(c, s, l);
  }

  lemma NoNewClears(c: Config, s: State, l: Label)
    requires Enabled(c, s, l) && !l.Advance?
    ensures forall u :: u in Step(c, s, l).threads ==>
              (u in s.threads && Step(c, s, l).threads[u] == s.threads[u]) || !Step(c, s, l).threads[u].Clear?
  {
  }

  // -------------------------------------------------- the theorem

  lemma {:induction false} GivingKeeps(c: Config, labels: seq<Label>, s: State, gone: set<Key>)
    requires GivingSteps(c, labels, s, gone)
    ensures Inv(c, s) && GoInv(c, s, gone)
    decreases |labels|
  {
    if labels != [] {
      var init, l := labels[..|labels| - 1], labels[|labels| - 1];
      var m, g0 :| GivingSteps(c, init, m, g0) && Enabled(c, m, l) && s == Step(c, m, l)
        && gone == g0 + if l.Advance? then GivenUp(c, m, l.t, l.ch) else {};
      GivingKeeps(c, init, m, g0);
      StepKeeps(c, m, l);
      if l.Advance? {
        AdvanceGoes(c, m, l.t, l.ch, g0);
      } else {
        WorldGoes(c, m, l, g0);
      }
    }
  }

  /** In every run, with crashes, failed calls, edits and deletions: a failed attempt with retries left that is not
      scheduled any more, and has no successor, was given up by a retry. */
  lemma NoSilentLoss(c: Config, labels: seq<Label>, s: State, gone: set<Key>, k: Key)
    requires GivingRun(c, labels, s, gone)
    requires k in s.attempts && s.attempts[k].status == AttemptFailed && k.number < c.maxRetries
    requires s.attempts[k].nextRetryAt == None && Succ(k) !in s.attempts
    ensures k in gone
  {
    assert Unfold(TheRun, 0);
    GivingKeeps(c, labels, s, gone);
  }
}

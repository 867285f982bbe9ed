/** What every interleaving keeps: crashes, refused and half-finished calls, edits and deletions included. */
module Safety {
  import opened Types
  import opened Machine

  type Attempts = map<Key, Attempt>

  ghost predicate Called(log: seq<Event>, k: Key) {
    exists i :: 0 <= i < |log| && log[i].key == k
  }

  ghost predicate CalledWith(log: seq<Event>, k: Key, success: bool) {
    exists i :: 0 <= i < |log| && log[i].key == k && log[i].success == success
  }

  /** Dispatcher calls have distinct keys, and a retry comes after the failure it retries. */
  ghost predicate LogOk(log: seq<Event>) {
    && (forall i, j :: 0 <= i < j < |log| ==> log[i].key != log[j].key)
    && (forall i :: 0 <= i < |log| && log[i].key.number > 1 ==> CalledWith(log[..i], Prev(log[i].key), false))
  }

  ghost predicate IssuedOk(maxRetries: int, issued: set<Key>, log: seq<Event>) {
    && (forall i :: 0 <= i < |log| ==> log[i].key in issued)
    && (forall k :: k in issued ==> 1 <= k.number <= Max(1, maxRetries))
    && (forall k :: k in issued && k.number > 1 ==> Prev(k) in issued && CalledWith(log, Prev(k), false))
  }

  ghost predicate RowOk(maxRetries: int, log: seq<Event>, k: Key, row: Attempt) {
    && (row.nextRetryAt.Some? ==> row.status == AttemptFailed && k.number < maxRetries)
    && (row.status == AttemptSuccess ==> CalledWith(log, k, true))
    && (row.status == AttemptFailed ==> CalledWith(log, k, false))
  }

  /** The attempts of one action on one delivery form a chain, all failed but the last. */
  ghost predicate ChainOk(att: Attempts) {
    forall k :: k in att && k.number > 1 ==> Prev(k) in att && att[Prev(k)].status == AttemptFailed
  }

  ghost predicate RowsOk(maxRetries: int, att: Attempts, issued: set<Key>, log: seq<Event>) {
    && att.Keys <= issued
    && (forall k :: k in att ==> RowOk(maxRetries, log, k, att[k]))
    && ChainOk(att)
  }

  /** Foreign keys hold, IDs are not reused, and rows disappear only with what they refer to. */
  ghost predicate TablesOk(s: State) {
    && (forall a :: a in s.actions ==> s.actions[a].source in s.sources && a !in s.hist.retired)
    && (forall d :: d in s.deliveries ==>
          s.deliveries[d].source in s.sources && d in s.hist.home && s.hist.home[d] == s.deliveries[d].source)
    && (forall k :: k in s.attempts ==> k.delivery in s.deliveries && k.action in s.actions)
    && (forall k :: k in s.hist.issued && k.delivery in s.deliveries && k.action in s.actions ==> k in s.attempts)
    && (forall k :: k in s.hist.issued ==>
          k.delivery in s.hist.home && (k.action in s.actions || k.action in s.hist.retired))
  }

  /** One delivery for each source and idempotency key. */
  ghost predicate UniqueOk(s: State) {
    forall d, e :: d in s.deliveries && e in s.deliveries && d != e ==>
      s.deliveries[d].source != s.deliveries[e].source || s.deliveries[d].idem != s.deliveries[e].idem
  }

  /** The attempt row that a thread has inserted and not yet settled. */
  ghost function Held(pc: Pc): Option<Key> {
    if pc.Dispatch? || pc.Settle? then Some(pc.key) else None
  }

  /** A retry works on a failed attempt that had retries left. */
  ghost predicate PrevOk(maxRetries: int, att: Attempts, issued: set<Key>, log: seq<Event>, prev: Key) {
    && prev in issued
    && prev.number < maxRetries
    && CalledWith(log, prev, false)
    && (prev in att ==> att[prev].status == AttemptFailed)
  }

  ghost predicate ContOk(maxRetries: int, att: Attempts, issued: set<Key>, log: seq<Event>, key: Key, k: Cont) {
    match k
    case Fan(_, _, _) => key.number == 1
    case Redo(prev) => key == Succ(prev) && PrevOk(maxRetries, att, issued, log, prev)
  }

  ghost predicate PcOk(maxRetries: int, att: Attempts, issued: set<Key>, log: seq<Event>, pc: Pc) {
    match pc
    case Insert(key, _, _, k) => ContOk(maxRetries, att, issued, log, key, k)
    case Dispatch(key, _, _, k) =>
      && ContOk(maxRetries, att, issued, log, key, k)
      && key in issued && !Called(log, key) && (key in att ==> att[key].status == AttemptPending)
    case Settle(key, success, k) =>
      && ContOk(maxRetries, att, issued, log, key, k)
      && key in issued && CalledWith(log, key, success) && (key in att ==> att[key].status == AttemptPending)
    case RtDelivery(prev) => PrevOk(maxRetries, att, issued, log, prev)
    case RtAction(prev, _) => PrevOk(maxRetries, att, issued, log, prev)
    case Clear(prev) => PrevOk(maxRetries, att, issued, log, prev)
    case _ => true
  }

  ghost predicate ThreadsOk(c: Config, s: State) {
    forall t :: t in s.threads ==> PcOk(c.maxRetries, s.attempts, s.hist.issued, s.hist.log, s.threads[t])
  }

  ghost predicate HoldersOk(threads: map<ThreadId, Pc>) {
    forall t, u :: t in threads && u in threads && t != u && Held(threads[t]).Some? ==>
      Held(threads[t]) != Held(threads[u])
  }

  ghost predicate Inv(c: Config, s: State) {
    && LogOk(s.hist.log)
    && IssuedOk(c.maxRetries, s.hist.issued, s.hist.log)
    && RowsOk(c.maxRetries, s.attempts, s.hist.issued, s.hist.log)
    && TablesOk(s)
    && ThreadsOk(c, s)
    && HoldersOk(s.threads)
  }

  /** The invariant, folded: a proof that only passes it on does not see its definition. */
  ghost predicate Sound(c: Config, s: State) {
    forall n: nat :: Unfold(TheInvariant, n) ==> Inv(c, s)
  }

  /** Its three parts, folded: the ledger of attempts and dispatches, the references, and the threads. */
  ghost predicate Ledger(c: Config, s: State) {
    LedgerOf(c.maxRetries, s.attempts, s.hist.issued, s.hist.log)
  }

  ghost predicate LedgerOf(maxRetries: int, att: Attempts, issued: set<Key>, log: seq<Event>) {
    forall n: nat :: Unfold(TheInvariant, n) ==>
      LogOk(log) && IssuedOk(maxRetries, issued, log) && RowsOk(maxRetries, att, issued, log)
  }

  ghost predicate Books(s: State) {
    forall n: nat :: Unfold(TheInvariant, n) ==> TablesOk(s)
  }

  ghost predicate Crew(c: Config, s: State) {
    forall n: nat :: Unfold(TheInvariant, n) ==> ThreadsOk(c, s) && HoldersOk(s.threads)
  }

  lemma Parts(c: Config, s: State)
    requires Sound(c, s)
    ensures Ledger(c, s) && Books(s) && Crew(c, s)
  {
    assert Unfold(TheInvariant, 0);
  }

  /** What a thread of a sound state may rely on. */
  lemma PcFacts(c: Config, s: State, t: ThreadId)
    requires Crew(c, s) && t in s.threads
    ensures PcOk(c.maxRetries, s.attempts, s.hist.issued, s.hist.log, s.threads[t])
  {
    assert Unfold(TheInvariant, 0);
  }

  lemma Whole(c: Config, s: State)
    requires Ledger(c, s) && Books(s) && Crew(c, s)
    ensures Sound(c, s)
  {
    assert Unfold(TheInvariant, 0);
  }

  // -------------------------------------------------- one thread's next call

  lemma NextFanOk(c: Config, maxRetries: int, att: Attempts, issued: set<Key>, log: seq<Event>,
                  d: DeliveryId, rest: seq<Todo>, payload: Json, headers: Json)
    ensures var pc := NextFan(c, d, rest, payload, headers);
      PcOk(maxRetries, att, issued, log, pc) && Held(pc) == None
    decreases |rest|
  {
    if rest != [] && Transform(c, rest[0].transform, payload, headers).Skip? {
      NextFanOk(c, maxRetries, att, issued, log, d, rest[1..], payload, headers);
    }
  }

  lemma ResumeOk(c: Config, att: Attempts, issued: set<Key>, log: seq<Event>, key: Key, k: Cont)
    requires ContOk(c.maxRetries, att, issued, log, key, k)
    ensures var pc := Resume(c, key.delivery, k);
      PcOk(c.maxRetries, att, issued, log, pc) && Held(pc) == None
  {
    if k.Fan? {
      NextFanOk(c, c.maxRetries, att, issued, log, key.delivery, k.rest, k.payload, k.headers);
    }
  }

  /** Two stages of the ledger: what may change while one thread makes one call that is not its own insertion
      or settlement. */
  ghost predicate Later(att: Attempts, log: seq<Event>, att': Attempts, log': seq<Event>, touched: set<Key>) {
    && log <= log'
    && (forall k :: k in att' && k !in touched ==> k in att && att'[k].status == att[k].status)
    && (forall k :: Called(log', k) ==> Called(log, k) || k in touched)
  }

  /** A thread that holds none of the touched rows, and retries none of them, is undisturbed. */
  lemma PcStays(maxRetries: int, att: Attempts, issued: set<Key>, log: seq<Event>,
                att': Attempts, issued': set<Key>, log': seq<Event>, touched: set<Key>, pc: Pc)
    requires PcOk(maxRetries, att, issued, log, pc)
    requires Later(att, log, att', log', touched) && issued <= issued'
    requires Held(pc).Some? ==> Held(pc).value !in touched
    requires forall k :: k in touched && k in att' && k in issued && CalledWith(log, k, false) ==>
      att'[k].status == AttemptFailed
    ensures PcOk(maxRetries, att', issued', log', pc)
  {
    LaterCalls(log, log');
  }

  lemma LaterCalls(log: seq<Event>, log': seq<Event>)
    requires log <= log'
    ensures forall k :: Called(log, k) ==> Called(log', k)
    ensures forall k, b :: CalledWith(log, k, b) ==> CalledWith(log', k, b)
  {
    forall k | Called(log, k)
      ensures Called(log', k)
    {
      var i :| 0 <= i < |log| && log[i].key == k;
      assert log'[i].key == k;
    }
    forall k, b | CalledWith(log, k, b)
      ensures CalledWith(log', k, b)
    {
      var i :| 0 <= i < |log| && log[i].key == k && log[i].success == b;
      assert log'[i].key == k && log'[i].success == b;
    }
  }

  // -------------------------------------------------- calls that leave the attempts alone

  ghost predicate Ledgerless(e: Effect) {
    e.NoEffect? || e.SetStatus? || e.Admit? || e.SetTransformed? || e.Publish?
  }

  /** The next call of a thread is justified, and the thread holds nothing then. */
  ghost predicate NextFree(c: Config, s: State, next: Option<Pc>) {
    next.Some? ==>
      PcOk(c.maxRetries, s.attempts, s.hist.issued, s.hist.log, next.value) && Held(next.value) == None
  }

  lemma FanNextOk(c: Config, s: State, pc: Pc, ch: Choice)
    requires ChoiceOk(s, pc, ch) && (pc.PdActions? || pc.PdPersist?)
    ensures NextFree(c, s, Perform(c, s, pc, ch).next)
  {
    var att, issued, log := s.attempts, s.hist.issued, s.hist.log;
    if pc.PdActions? {
      NextFanOk(c, c.maxRetries, att, issued, log, pc.d, Todos(s.actions, ch.listing), pc.snap.payload, pc.snap.headers);
    } else {
      NextFanOk(c, c.maxRetries, att, issued, log, pc.d, Filter.Kept(pc.acts, IdSet(pc.kept)), pc.payload, pc.headers);
    }
  }

  lemma PlainNextOk(c: Config, s: State, pc: Pc, ch: Choice)
    requires ChoiceOk(s, pc, ch) && !pc.PdActions? && !pc.PdPersist? && !pc.Insert?
    requires PcOk(c.maxRetries, s.attempts, s.hist.issued, s.hist.log, pc)
    requires Held(pc) == None && Ledgerless(Perform(c, s, pc, ch).effect)
    ensures NextFree(c, s, Perform(c, s, pc, ch).next)
  {
  }

  /** Outside of insert, dispatch and settle, a thread holds nothing and its next step is justified by this one. */
  lemma NextOk(c: Config, s: State, pc: Pc, ch: Choice)
    requires ChoiceOk(s, pc, ch)
    requires PcOk(c.maxRetries, s.attempts, s.hist.issued, s.hist.log, pc)
    requires Held(pc) == None && Ledgerless(Perform(c, s, pc, ch).effect)
    ensures NextFree(c, s, Perform(c, s, pc, ch).next)
  {
    if pc.PdActions? || pc.PdPersist? {
      FanNextOk(c, s, pc, ch);
    } else if pc.Insert? {
      ResumeOk(c, s.attempts, s.hist.issued, s.hist.log, pc.key, pc.k);
    } else {
      PlainNextOk(c, s, pc, ch);
    }
  }

  /** Two states with the same keys, references and given IDs. */
  ghost predicate SameKeys(s: State, s': State) {
    && s'.attempts.Keys == s.attempts.Keys && s'.actions == s.actions && s'.sources == s.sources
    && s'.hist.issued == s.hist.issued && s'.hist.home == s.hist.home && s'.hist.retired == s.hist.retired
    && SameReferences(s.deliveries, s'.deliveries)
  }

  ghost predicate SameReferences(before: map<DeliveryId, Delivery>, after: map<DeliveryId, Delivery>) {
    && after.Keys == before.Keys
    && forall d :: d in before ==> after[d].source == before[d].source && after[d].idem == before[d].idem
  }

  ghost predicate SameLedger(s: State, s': State) {
    SameKeys(s, s') && s'.attempts == s.attempts && s'.hist.log == s.hist.log
  }

  lemma LedgerlessApplies(s: State, e: Effect)
    requires Ledgerless(e)
    ensures SameLedger(s, Apply(s, e)) && Apply(s, e).hist.waits == s.hist.waits
  {
    LedgerlessRows(s, e);
  }

  lemma LedgerlessRows(s: State, e: Effect)
    requires Ledgerless(e)
    ensures SameReferences(s.deliveries, Apply(s, e).deliveries)
  {
  }

  lemma SameTables(s: State, s': State)
    requires TablesOk(s) && SameKeys(s, s')
    ensures TablesOk(s')
  {
  }

  lemma SameBooks(s: State, s': State)
    requires Books(s) && SameKeys(s, s')
    ensures Books(s')
  {
    assert Unfold(TheInvariant, 0);
    SameTables(s, s');
  }

  /** A thread that now holds nothing leaves the holders distinct. */
  lemma HoldersStay(threads: map<ThreadId, Pc>, t: ThreadId, next: Option<Pc>)
    requires HoldersOk(threads) && (next.Some? ==> Held(next.value) == None)
    ensures HoldersOk(Threads(threads, t, next))
  {
  }

  lemma QuietCallKeeps(c: Config, s: State, t: ThreadId, ch: Choice, move: Move)
    requires Sound(c, s) && t in s.threads && Moves(c, s, t, ch, move)
    requires Ledgerless(move.effect) && Held(s.threads[t]) == None
    ensures Sound(c, After(s, t, move))
  {
    Parts(c, s);
    QuietNext(c, s, t, ch, move);
    QuietApplies(c, s, t, move);
    QuietCrew(c, s, After(s, t, move), t, move.next);
    Whole(c, After(s, t, move));
  }

  lemma QuietNext(c: Config, s: State, t: ThreadId, ch: Choice, move: Move)
    requires Crew(c, s) && t in s.threads && Moves(c, s, t, ch, move)
    requires Ledgerless(move.effect) && Held(s.threads[t]) == None
    ensures NextFree(c, s, move.next)
  {
    PcFacts(c, s, t);
    assert Unfold(TheMove, 0) && Unfold(TheInvariant, 0);
    NextOk(c, s, s.threads[t], ch);
  }

  lemma QuietApplies(c: Config, s: State, t: ThreadId, move: Move)
    requires Ledger(c, s) && Books(s) && Ledgerless(move.effect)
    ensures SameLedger(s, After(s, t, move)) && After(s, t, move).threads == Threads(s.threads, t, move.next)
    ensures Ledger(c, After(s, t, move)) && Books(After(s, t, move))
  {
    assert Unfold(TheInvariant, 0);
    LedgerlessApplies(s, move.effect);
    SameTables(s, After(s, t, move));
  }

  lemma QuietCrew(c: Config, s: State, s': State, t: ThreadId, next: Option<Pc>)
    requires Crew(c, s) && SameLedger(s, s') && s'.threads == Threads(s.threads, t, next)
    requires NextFree(c, s, next)
    ensures Crew(c, s')
  {
    assert Unfold(TheInvariant, 0);
    SameThreads(c, s, s', t, next);
    HoldersStay(s.threads, t, next);
  }

  // -------------------------------------------------- calls on the attempts

  /** Every other thread is undisturbed by a call that touches only what this thread holds or creates. */
  lemma OthersStay(c: Config, s: State, s': State, t: ThreadId, touched: set<Key>)
    requires ThreadsOk(c, s)
    requires Later(s.attempts, s.hist.log, s'.attempts, s'.hist.log, touched) && s.hist.issued <= s'.hist.issued
    requires forall u :: u in s.threads && u != t && Held(s.threads[u]).Some? ==>
      Held(s.threads[u]).value !in touched
    requires forall k ::
               k in touched && k in s'.attempts && k in s.hist.issued && CalledWith(s.hist.log, k, false) ==>
                 s'.attempts[k].status == AttemptFailed
    ensures forall u :: u in s.threads && u != t ==>
      PcOk(c.maxRetries, s'.attempts, s'.hist.issued, s'.hist.log, s.threads[u])
  {
    forall u | u in s.threads && u != t
      ensures PcOk(c.maxRetries, s'.attempts, s'.hist.issued, s'.hist.log, s.threads[u])
    {
      PcStays(c.maxRetries, s.attempts, s.hist.issued, s.hist.log,
              s'.attempts, s'.hist.issued, s'.hist.log, touched, s.threads[u]);
    }
  }

  lemma ContStays(maxRetries: int, att: Attempts, issued: set<Key>, log: seq<Event>,
                  att': Attempts, issued': set<Key>, log': seq<Event>, key: Key, k: Cont)
    requires ContOk(maxRetries, att, issued, log, key, k)
    requires Later(att, log, att', log', {key}) && issued <= issued'
    ensures ContOk(maxRetries, att', issued', log', key, k)
  {
    LaterCalls(log, log');
  }

  lemma InsertShape(c: Config, s: State, t: ThreadId, ch: Choice, move: Move)
    requires t in s.threads && Moves(c, s, t, ch, move) && move.effect.InsertRow?
    ensures s.threads[t].Insert?
    ensures var Insert(key, p, h, k) := s.threads[t];
      && CanInsert(s, key) && move.effect == InsertRow(key)
      && (move.next == Some(Dispatch(key, p, h, k)) || move.next == Some(Resume(c, key.delivery, k)))
  {
    assert Unfold(TheMove, 0);
  }

  /** Inserting an attempt: its predecessor failed, and nobody ever inserted this one. */
  lemma InsertKeeps(c: Config, s: State, t: ThreadId, ch: Choice, move: Move)
    requires Sound(c, s) && t in s.threads && Moves(c, s, t, ch, move) && move.effect.InsertRow?
    ensures Sound(c, After(s, t, move))
  {
    InsertShape(c, s, t, ch, move);
    InsertTables(c, s, t, move);
    InsertCrew(c, s, t, move);
    Whole(c, After(s, t, move));
  }

  lemma InsertTables(c: Config, s: State, t: ThreadId, move: Move)
    requires Sound(c, s) && t in s.threads && s.threads[t].Insert? && CanInsert(s, s.threads[t].key)
    requires move.effect == InsertRow(s.threads[t].key)
    ensures Ledger(c, After(s, t, move)) && Books(After(s, t, move)) && s.threads[t].key !in s.hist.issued
  {
    assert Unfold(TheInvariant, 0);
    assert PcOk(c.maxRetries, s.attempts, s.hist.issued, s.hist.log, s.threads[t]);
    InsertRows(c, s, s.threads[t].key, s.threads[t].k);
    SameTables(Apply(s, move.effect), After(s, t, move));
  }

  lemma InsertCrew(c: Config, s: State, t: ThreadId, move: Move)
    requires Sound(c, s) && t in s.threads && s.threads[t].Insert? && s.threads[t].key !in s.hist.issued
    requires var Insert(key, p, h, k) := s.threads[t];
      && move.effect == InsertRow(key)
      && (move.next == Some(Dispatch(key, p, h, k)) || move.next == Some(Resume(c, key.delivery, k)))
    ensures Crew(c, After(s, t, move))
  {
    assert Unfold(TheInvariant, 0);
    InsertThreads(c, s, After(s, t, move), t, s.threads[t]);
  }

  lemma InsertThreads(c: Config, s: State, s': State, t: ThreadId, pc: Pc)
    requires ThreadsOk(c, s) && HoldersOk(s.threads) && IssuedOk(c.maxRetries, s.hist.issued, s.hist.log)
    requires t in s.threads && s.threads[t] == pc && pc.Insert? && pc.key !in s.hist.issued
    requires s'.attempts == s.attempts[pc.key := Attempt(AttemptPending, None)]
    requires s'.hist.issued == s.hist.issued + {pc.key} && s'.hist.log == s.hist.log
    requires s'.threads == s.threads[t := Dispatch(pc.key, pc.payload, pc.headers, pc.k)]
          || s'.threads == s.threads[t := Resume(c, pc.key.delivery, pc.k)]
    ensures ThreadsOk(c, s') && HoldersOk(s'.threads)
  {
    var Insert(key, p, h, k) := pc;
    var log := s.hist.log;
    assert PcOk(c.maxRetries, s.attempts, s.hist.issued, log, pc);
    assert !Called(log, key);
    OthersStay(c, s, s', t, {key});
    ContStays(c.maxRetries, s.attempts, s.hist.issued, log, s'.attempts, s'.hist.issued, log, key, k);
    ResumeOk(c, s'.attempts, s'.hist.issued, log, key, k);
    forall u | u in s.threads && Held(s.threads[u]).Some?
      ensures Held(s.threads[u]) != Some(key)
    {
      assert PcOk(c.maxRetries, s.attempts, s.hist.issued, log, s.threads[u]);
    }
  }

  lemma InsertRows(c: Config, s: State, key: Key, k: Cont)
    requires RowsOk(c.maxRetries, s.attempts, s.hist.issued, s.hist.log)
    requires IssuedOk(c.maxRetries, s.hist.issued, s.hist.log) && TablesOk(s) && CanInsert(s, key)
    requires ContOk(c.maxRetries, s.attempts, s.hist.issued, s.hist.log, key, k)
    ensures key !in s.hist.issued
    ensures var s' := Apply(s, InsertRow(key));
      && RowsOk(c.maxRetries, s'.attempts, s'.hist.issued, s'.hist.log)
      && IssuedOk(c.maxRetries, s'.hist.issued, s'.hist.log) && TablesOk(s')
  {
    assert k.Redo? ==> Prev(key) == k.prev;
    InsertedRows(c.maxRetries, s.attempts, s.hist.issued, s.hist.log, key, k);
    InsertedTables(s, key);
  }

  lemma InsertedRows(maxRetries: int, att: Attempts, issued: set<Key>, log: seq<Event>, key: Key, k: Cont)
    requires RowsOk(maxRetries, att, issued, log) && key !in att
    requires ContOk(maxRetries, att, issued, log, key, k) && (k.Redo? ==> k.prev in att && Prev(key) == k.prev)
    ensures RowsOk(maxRetries, att[key := Attempt(AttemptPending, None)], issued + {key}, log)
  {
    var att' := att[key := Attempt(AttemptPending, None)];
    assert forall x :: x in att ==> att'[x] == if x == key then Attempt(AttemptPending, None) else att[x];
    forall x | x in att' && x.number > 1
      ensures Prev(x) in att' && att'[Prev(x)].status == AttemptFailed
    {
      if x == key {
        assert k.Redo?;
      }
    }
  }

  lemma InsertedTables(s: State, key: Key)
    requires TablesOk(s) && CanInsert(s, key)
    ensures TablesOk(Apply(s, InsertRow(key)))
  {
  }

  lemma LogAppend(log: seq<Event>, e: Event)
    requires LogOk(log) && !Called(log, e.key)
    requires e.key.number > 1 ==> CalledWith(log, Prev(e.key), false)
    ensures LogOk(log + [e])
    ensures CalledWith(log + [e], e.key, e.success)
    ensures forall k :: Called(log + [e], k) ==> Called(log, k) || k == e.key
  {
    var log' := log + [e];
    assert log'[|log|] == e && log'[..|log|] == log;
    assert forall i :: 0 <= i < |log| ==> log'[..i] == log[..i];
  }

  lemma DispatchLedger(maxRetries: int, att: Attempts, issued: set<Key>, log: seq<Event>, e: Event, k: Cont)
    requires LedgerOf(maxRetries, att, issued, log) && ContOk(maxRetries, att, issued, log, e.key, k)
    requires e.key in issued && !Called(log, e.key)
    ensures LedgerOf(maxRetries, att, issued, log + [e])
  {
    assert Unfold(TheInvariant, 0);
    LogAppend(log, e);
    LaterIssued(maxRetries, issued, log, e);
    LaterRows(maxRetries, att, issued, log, e);
  }

  lemma LaterIssued(maxRetries: int, issued: set<Key>, log: seq<Event>, e: Event)
    requires IssuedOk(maxRetries, issued, log) && e.key in issued
    ensures IssuedOk(maxRetries, issued, log + [e])
  {
    LaterCalls(log, log + [e]);
  }

  lemma LaterRows(maxRetries: int, att: Attempts, issued: set<Key>, log: seq<Event>, e: Event)
    requires RowsOk(maxRetries, att, issued, log)
    ensures RowsOk(maxRetries, att, issued, log + [e])
  {
    LaterCalls(log, log + [e]);
    forall k | k in att
      ensures RowOk(maxRetries, log + [e], k, att[k])
    {
      assert RowOk(maxRetries, log, k, att[k]);
    }
  }

  lemma DispatchShape(c: Config, s: State, t: ThreadId, ch: Choice, move: Move)
    requires t in s.threads && Moves(c, s, t, ch, move) && s.threads[t].Dispatch?
    ensures var Dispatch(key, p, h, k) := s.threads[t];
      move == Move(Effect.Sent(Event(key, ch.success, p, h)), Some(Settle(key, ch.success, k)))
  {
    assert Unfold(TheMove, 0);
  }

  /** A dispatcher call: the first one for its key. */
  lemma DispatchKeeps(c: Config, s: State, t: ThreadId, ch: Choice, move: Move)
    requires Sound(c, s) && t in s.threads && Moves(c, s, t, ch, move) && s.threads[t].Dispatch?
    ensures Sound(c, After(s, t, move))
  {
    DispatchShape(c, s, t, ch, move);
    Parts(c, s);
    PcFacts(c, s, t);
    DispatchBooks(c, s, t, move);
    DispatchCrew(c, s, t, move);
    Whole(c, After(s, t, move));
  }

  ghost predicate Dispatches(s: State, t: ThreadId, move: Move) {
    && t in s.threads && s.threads[t].Dispatch? && move.effect.Sent?
    && var Dispatch(key, p, h, k) := s.threads[t];
    var e := move.effect.event;
    e.key == key && e.payload == p && e.headers == h && move.next == Some(Settle(key, e.success, k))
  }

  lemma DispatchBooks(c: Config, s: State, t: ThreadId, move: Move)
    requires Ledger(c, s) && Books(s) && Dispatches(s, t, move)
    requires PcOk(c.maxRetries, s.attempts, s.hist.issued, s.hist.log, s.threads[t])
    ensures Ledger(c, After(s, t, move)) && Books(After(s, t, move))
  {
    DispatchLedger(c.maxRetries, s.attempts, s.hist.issued, s.hist.log, move.effect.event, s.threads[t].k);
    SameBooks(s, After(s, t, move));
  }

  lemma DispatchCrew(c: Config, s: State, t: ThreadId, move: Move)
    requires Crew(c, s) && Dispatches(s, t, move)
    requires PcOk(c.maxRetries, s.attempts, s.hist.issued, s.hist.log, s.threads[t])
    ensures Crew(c, After(s, t, move))
  {
    var e, k := move.effect.event, s.threads[t].k;
    DispatchLog(c, s.attempts, s.hist.issued, s.hist.log, e, k);
    DispatchThreads(c, s, After(s, t, move), t, e, k);
  }

  lemma DispatchLog(c: Config, att: Attempts, issued: set<Key>, log: seq<Event>, e: Event, k: Cont)
    requires ContOk(c.maxRetries, att, issued, log, e.key, k)
    ensures var log' := log + [e];
      && ContOk(c.maxRetries, att, issued, log', e.key, k) && CalledWith(log', e.key, e.success)
      && (forall x :: Called(log', x) ==> Called(log, x) || x == e.key)
  {
    var log' := log + [e];
    assert log'[|log|] == e;
    assert forall i :: 0 <= i < |log| ==> log'[i] == log[i];
    LaterCalls(log, log');
  }

  lemma DispatchThreads(c: Config, s: State, s': State, t: ThreadId, e: Event, k: Cont)
    requires Crew(c, s) && t in s.threads && s.threads[t] == Dispatch(e.key, e.payload, e.headers, k)
    requires s'.hist.issued == s.hist.issued && s'.hist.log == s.hist.log + [e] && s'.attempts == s.attempts
    requires ContOk(c.maxRetries, s.attempts, s.hist.issued, s'.hist.log, e.key, k)
    requires CalledWith(s'.hist.log, e.key, e.success)
    requires forall x :: Called(s'.hist.log, x) ==> Called(s.hist.log, x) || x == e.key
    requires s'.threads == s.threads[t := Settle(e.key, e.success, k)]
    ensures Crew(c, s')
  {
    assert Unfold(TheInvariant, 0);
    assert PcOk(c.maxRetries, s.attempts, s.hist.issued, s.hist.log, s.threads[t]);
    OthersStay(c, s, s', t, {e.key});
  }

  lemma SettleLedger(c: Config, att: Attempts, issued: set<Key>, log: seq<Event>, key: Key, row: Attempt)
    requires LogOk(log) && RowsOk(c.maxRetries, att, issued, log)
    requires key in att && RowOk(c.maxRetries, log, key, row)
    requires att[key].status == AttemptPending || (att[key].status == AttemptFailed && row.status == AttemptFailed)
    ensures RowsOk(c.maxRetries, att[key := row], issued, log)
  {
    assert forall x :: x in att && x.number > 1 && Prev(x) == key ==> att[key].status == AttemptFailed;
  }

  /** What a settlement may write: the outcome that the dispatcher gave. */
  ghost predicate Settles(maxRetries: int, key: Key, success: bool, row: Attempt) {
    if success then row == Attempt(AttemptSuccess, None)
    else row.status == AttemptFailed && (row.nextRetryAt.Some? <==> key.number < maxRetries)
  }

  lemma SettleShape(c: Config, s: State, t: ThreadId, ch: Choice, move: Move)
    requires t in s.threads && Moves(c, s, t, ch, move) && s.threads[t].Settle?
    ensures var Settle(key, success, k) := s.threads[t];
      && move.next == Some(Resume(c, key.delivery, k))
      && (move.effect == NoEffect
          || (move.effect.UpdateRow? && move.effect.key == key
              && Settles(c.maxRetries, key, success, move.effect.attempt)))
  {
    assert Unfold(TheMove, 0);
  }

  /** The outcome of a dispatch is recorded, unless the call is refused or the row is gone. */
  lemma SettleKeeps(c: Config, s: State, t: ThreadId, ch: Choice, move: Move)
    requires Sound(c, s) && t in s.threads && Moves(c, s, t, ch, move) && s.threads[t].Settle?
    ensures Sound(c, After(s, t, move))
  {
    SettleShape(c, s, t, ch, move);
    SettleParts(c, s, t, move);
    Whole(c, After(s, t, move));
  }

  lemma SettleParts(c: Config, s: State, t: ThreadId, move: Move)
    requires Sound(c, s) && t in s.threads && s.threads[t].Settle?
    requires var Settle(key, success, k) := s.threads[t];
      && move.next == Some(Resume(c, key.delivery, k))
      && (move.effect == NoEffect
          || (move.effect.UpdateRow? && move.effect.key == key
              && Settles(c.maxRetries, key, success, move.effect.attempt)))
    ensures Ledger(c, After(s, t, move)) && Books(After(s, t, move)) && Crew(c, After(s, t, move))
  {
    var Settle(key, success, k) := s.threads[t];
    var changed := move.effect.UpdateRow? && key in s.attempts;
    var row := if changed then move.effect.attempt else Attempt(AttemptPending, None);
    WriteApplies(s, t, move, key, row, changed);
    SettleBooks(c, s, After(s, t, move), t, key, row, changed);
    SettleCrew(c, s, After(s, t, move), t, key, row, changed);
  }

  /** The state after a write to the row of one attempt, or to none. */
  ghost predicate Rewritten(s: State, s': State, key: Key, row: Attempt, changed: bool) {
    && SameKeys(s, s') && s'.hist.log == s.hist.log
    && (changed ==> key in s.attempts)
    && s'.attempts == if changed then s.attempts[key := row] else s.attempts
  }

  lemma WriteApplies(s: State, t: ThreadId, move: Move, key: Key, row: Attempt, changed: bool)
    requires move.effect == NoEffect || (move.effect.UpdateRow? && move.effect.key == key)
    requires changed <==> move.effect.UpdateRow? && key in s.attempts
    requires changed ==> row == move.effect.attempt
    ensures Rewritten(s, After(s, t, move), key, row, changed)
    ensures After(s, t, move).threads == Threads(s.threads, t, move.next)
  {
  }

  lemma SettleBooks(c: Config, s: State, s': State, t: ThreadId, key: Key, row: Attempt, changed: bool)
    requires Sound(c, s) && t in s.threads && s.threads[t].Settle? && s.threads[t].key == key
    requires Rewritten(s, s', key, row, changed)
    requires changed ==> Settles(c.maxRetries, key, s.threads[t].success, row)
    ensures Ledger(c, s') && Books(s')
  {
    assert Unfold(TheInvariant, 0);
    assert PcOk(c.maxRetries, s.attempts, s.hist.issued, s.hist.log, s.threads[t]);
    if changed {
      SettleLedger(c, s.attempts, s.hist.issued, s.hist.log, key, row);
    }
    SameTables(s, s');
  }

  lemma SettleCrew(c: Config, s: State, s': State, t: ThreadId, key: Key, row: Attempt, changed: bool)
    requires Sound(c, s) && t in s.threads && s.threads[t].Settle? && s.threads[t].key == key
    requires Rewritten(s, s', key, row, changed)
    requires changed ==> Settles(c.maxRetries, key, s.threads[t].success, row)
    requires s'.threads == s.threads[t := Resume(c, key.delivery, s.threads[t].k)]
    ensures Crew(c, s')
  {
    assert Unfold(TheInvariant, 0);
    assert PcOk(c.maxRetries, s.attempts, s.hist.issued, s.hist.log, s.threads[t]);
    OutcomeUnique(s.hist.log, key, s.threads[t].success);
    SettleThreads(c, s, s', t, key, s.threads[t].k);
  }

  lemma SettleThreads(c: Config, s: State, s': State, t: ThreadId, key: Key, k: Cont)
    requires ThreadsOk(c, s) && HoldersOk(s.threads) && t in s.threads && Held(s.threads[t]) == Some(key)
    requires ContOk(c.maxRetries, s.attempts, s.hist.issued, s.hist.log, key, k)
    requires s'.hist.issued == s.hist.issued && s'.hist.log == s.hist.log
    requires s'.attempts.Keys == s.attempts.Keys
    requires forall x :: x in s.attempts && x != key ==> s'.attempts[x] == s.attempts[x]
    requires key in s.attempts && CalledWith(s.hist.log, key, false) ==>
               s'.attempts[key] == s.attempts[key] || s'.attempts[key].status == AttemptFailed
    requires s'.threads == s.threads[t := Resume(c, key.delivery, k)]
    ensures ThreadsOk(c, s') && HoldersOk(s'.threads)
  {
    SettleOthers(c, s, s', t, key);
    ContStays(c.maxRetries, s.attempts, s.hist.issued, s.hist.log, s'.attempts, s.hist.issued, s.hist.log, key, k);
    ResumeOk(c, s'.attempts, s.hist.issued, s.hist.log, key, k);
    HoldersStay(s.threads, t, Some(Resume(c, key.delivery, k)));
  }

  lemma SettleOthers(c: Config, s: State, s': State, t: ThreadId, key: Key)
    requires ThreadsOk(c, s) && HoldersOk(s.threads) && t in s.threads && Held(s.threads[t]) == Some(key)
    requires s'.hist.issued == s.hist.issued && s'.hist.log == s.hist.log
    requires s'.attempts.Keys == s.attempts.Keys
    requires forall x :: x in s.attempts && x != key ==> s'.attempts[x] == s.attempts[x]
    requires key in s.attempts && CalledWith(s.hist.log, key, false) ==>
               s'.attempts[key] == s.attempts[key] || s'.attempts[key].status == AttemptFailed
    ensures forall u :: u in s.threads && u != t ==>
      PcOk(c.maxRetries, s'.attempts, s'.hist.issued, s'.hist.log, s.threads[u])
  {
    OthersStay(c, s, s', t, if s'.attempts == s.attempts then {} else {key});
  }

  lemma OutcomeUnique(log: seq<Event>, k: Key, success: bool)
    requires LogOk(log) && CalledWith(log, k, success)
    ensures !CalledWith(log, k, !success)
  {
  }

  lemma ClearShape(c: Config, s: State, t: ThreadId, ch: Choice, move: Move)
    requires t in s.threads && Moves(c, s, t, ch, move) && s.threads[t].Clear?
    ensures var prev := s.threads[t].prev;
      && move.next == Some(RollDelivery(prev.delivery))
      && (move.effect == NoEffect || move.effect == UpdateRow(prev, Attempt(AttemptFailed, None), None))
  {
    assert Unfold(TheMove, 0);
  }

  /** Clearing the schedule of an attempt that was retried. */
  lemma ClearKeeps(c: Config, s: State, t: ThreadId, ch: Choice, move: Move)
    requires Sound(c, s) && t in s.threads && Moves(c, s, t, ch, move) && s.threads[t].Clear?
    ensures Sound(c, After(s, t, move))
  {
    var prev := s.threads[t].prev;
    var changed := move.effect.UpdateRow? && prev in s.attempts;
    ClearShape(c, s, t, ch, move);
    WriteApplies(s, t, move, prev, Attempt(AttemptFailed, None), changed);
    ClearParts(c, s, After(s, t, move), t, changed);
    Whole(c, After(s, t, move));
  }

  /** A cleared attempt had failed, so no status changes. */
  lemma ClearParts(c: Config, s: State, s': State, t: ThreadId, changed: bool)
    requires Sound(c, s) && t in s.threads && s.threads[t].Clear?
    requires Rewritten(s, s', s.threads[t].prev, Attempt(AttemptFailed, None), changed)
    requires s'.threads == s.threads[t := RollDelivery(s.threads[t].prev.delivery)]
    ensures Ledger(c, s') && Books(s') && Crew(c, s')
  {
    assert Unfold(TheInvariant, 0);
    var prev := s.threads[t].prev;
    assert PrevOk(c.maxRetries, s.attempts, s.hist.issued, s.hist.log, prev);
    if changed {
      SettleLedger(c, s.attempts, s.hist.issued, s.hist.log, prev, Attempt(AttemptFailed, None));
    }
    ClearThreads(c, s, s', t, prev.delivery);
    SameTables(s, s');
  }

  lemma ClearThreads(c: Config, s: State, s': State, t: ThreadId, d: DeliveryId)
    requires ThreadsOk(c, s) && HoldersOk(s.threads) && t in s.threads
    requires s'.hist.issued == s.hist.issued && s'.hist.log == s.hist.log && s'.attempts.Keys == s.attempts.Keys
    requires forall x :: x in s.attempts ==> s'.attempts[x].status == s.attempts[x].status
    requires s'.threads == s.threads[t := RollDelivery(d)]
    ensures ThreadsOk(c, s') && HoldersOk(s'.threads)
  {
    OthersStay(c, s, s', t, {});
    HoldersStay(s.threads, t, Some(RollDelivery(d)));
  }

  lemma IngestShape(c: Config, s: State, t: ThreadId, ch: Choice, move: Move)
    requires t in s.threads && Moves(c, s, t, ch, move) && move.effect.NewDelivery?
    ensures move.effect.id !in s.hist.home && move.effect.row.source in s.sources
    ensures move.next.Some? ==> move.next.value.IgRecord? || move.next.value.IgPublish?
  {
    assert Unfold(TheMove, 0);
  }

  lemma IngestKeeps(c: Config, s: State, t: ThreadId, ch: Choice, move: Move)
    requires Sound(c, s) && t in s.threads && Moves(c, s, t, ch, move) && move.effect.NewDelivery?
    ensures Sound(c, After(s, t, move))
  {
    IngestShape(c, s, t, ch, move);
    NewDeliveryKeeps(c, s, t, move);
    Whole(c, After(s, t, move));
  }

  lemma NewDeliveryKeeps(c: Config, s: State, t: ThreadId, move: Move)
    requires Sound(c, s) && move.effect.NewDelivery?
    requires move.effect.id !in s.hist.home && move.effect.row.source in s.sources
    requires move.next.Some? ==> move.next.value.IgRecord? || move.next.value.IgPublish?
    ensures Ledger(c, After(s, t, move)) && Books(After(s, t, move)) && Crew(c, After(s, t, move))
  {
    NewDeliveryBooks(c, s, t, move);
    NewDeliveryCrew(c, s, t, move);
  }

  lemma NewDeliveryBooks(c: Config, s: State, t: ThreadId, move: Move)
    requires Sound(c, s) && move.effect.NewDelivery?
    requires move.effect.id !in s.hist.home && move.effect.row.source in s.sources
    ensures Ledger(c, After(s, t, move)) && Books(After(s, t, move))
  {
    assert Unfold(TheInvariant, 0);
    NewDeliveryTables(s, move.effect.id, move.effect.row);
    SameTables(Apply(s, move.effect), After(s, t, move));
  }

  lemma NewDeliveryCrew(c: Config, s: State, t: ThreadId, move: Move)
    requires Sound(c, s) && move.effect.NewDelivery?
    requires move.next.Some? ==> move.next.value.IgRecord? || move.next.value.IgPublish?
    ensures Crew(c, After(s, t, move))
  {
    assert Unfold(TheInvariant, 0);
    HoldersStay(s.threads, t, move.next);
    SameThreads(c, s, After(s, t, move), t, move.next);
  }

  lemma SameThreads(c: Config, s: State, s': State, t: ThreadId, next: Option<Pc>)
    requires ThreadsOk(c, s)
    requires s'.attempts == s.attempts && s'.hist.issued == s.hist.issued && s'.hist.log == s.hist.log
    requires s'.threads == Threads(s.threads, t, next)
    requires next.Some? ==> PcOk(c.maxRetries, s.attempts, s.hist.issued, s.hist.log, next.value)
    ensures ThreadsOk(c, s')
  {
  }

  lemma NewDeliveryTables(s: State, id: DeliveryId, row: Delivery)
    requires TablesOk(s) && id !in s.hist.home && row.source in s.sources
    ensures TablesOk(Apply(s, NewDelivery(id, row)))
  {
  }

  lemma AdvanceKeeps(c: Config, s: State, t: ThreadId, ch: Choice)
    requires Inv(c, s) && t in s.threads && ChoiceOk(s, s.threads[t], ch)
    ensures Inv(c, AdvanceStep(c, s, t, ch))
  {
    var move := Perform(c, s, s.threads[t], ch);
    MoveKeeps(c, s, t, ch, move);
    assert Unfold(TheInvariant, 0);
  }

  lemma MoveKeeps(c: Config, s: State, t: ThreadId, ch: Choice, move: Move)
    requires Sound(c, s) && t in s.threads && Moves(c, s, t, ch, move)
    ensures Sound(c, After(s, t, move))
  {
    if s.threads[t].Dispatch? {
      DispatchKeeps(c, s, t, ch, move);
    } else if s.threads[t].Settle? {
      SettleKeeps(c, s, t, ch, move);
    } else if s.threads[t].Clear? {
      ClearKeeps(c, s, t, ch, move);
    } else if move.effect.InsertRow? {
      InsertKeeps(c, s, t, ch, move);
    } else if move.effect.NewDelivery? {
      IngestKeeps(c, s, t, ch, move);
    } else {
      OtherEffects(c, s, t, ch, move);
      QuietCallKeeps(c, s, t, ch, move);
    }
  }

  lemma OtherEffects(c: Config, s: State, t: ThreadId, ch: Choice, move: Move)
    requires t in s.threads && Moves(c, s, t, ch, move)
    requires !s.threads[t].Dispatch? && !s.threads[t].Settle? && !s.threads[t].Clear?
    ensures Ledgerless(move.effect) || move.effect.InsertRow? || move.effect.NewDelivery?
  {
    assert Unfold(TheMove, 0);
  }

  // -------------------------------------------------- the outside world

  /** Rows go away only with their delivery or action; no thread minds. */
  lemma DeletionKeeps(c: Config, s: State, s': State)
    requires Inv(c, s)
    requires s'.threads == s.threads && s'.hist.issued == s.hist.issued && s'.hist.log == s.hist.log
    requires s'.attempts.Keys <= s.attempts.Keys
    requires forall k :: k in s'.attempts ==> s'.attempts[k] == s.attempts[k]
    requires ChainOk(s'.attempts) && TablesOk(s')
    ensures Inv(c, s')
  {
    OthersStay(c, s, s', 0, {});
    if 0 in s.threads {
      PcStays(c.maxRetries, s.attempts, s.hist.issued, s.hist.log,
              s'.attempts, s'.hist.issued, s'.hist.log, {}, s.threads[0]);
    }
  }

  lemma SpawnKeeps(c: Config, s: State, t: ThreadId, pc: Pc)
    requires Inv(c, s) && t !in s.threads && Held(pc) == None
    requires PcOk(c.maxRetries, s.attempts, s.hist.issued, s.hist.log, pc)
    ensures Inv(c, Spawn(s, t, pc))
  {
    HoldersStay(s.threads, t, Some(pc));
  }

  lemma SpawnsKeep(c: Config, s: State, l: Label)
    requires Inv(c, s) && Enabled(c, s, l) && Spawns(l)
    ensures Inv(c, Step(c, s, l))
  {
    var pc := NewPc(s, l);
    NewPcOk(c, s, l);
    SpawnKeeps(c, s, l.t, pc);
    StreamKeeps(c, Spawn(s, l.t, pc), Step(c, s, l));
  }

  lemma NewPcOk(c: Config, s: State, l: Label)
    requires RowsOk(c.maxRetries, s.attempts, s.hist.issued, s.hist.log) && Enabled(c, s, l) && Spawns(l)
    ensures PcOk(c.maxRetries, s.attempts, s.hist.issued, s.hist.log, NewPc(s, l)) && Held(NewPc(s, l)) == None
  {
  }

  lemma StreamKeeps(c: Config, s: State, s': State)
    requires Inv(c, s) && s' == s.(stream := s'.stream)
    ensures Inv(c, s')
  {
  }

  lemma DeleteActionKeeps(c: Config, s: State, a: ActionId)
    requires Inv(c, s) && a in s.actions
    ensures Inv(c, Step(c, s, DeleteAction(a)))
  {
    DeletionKeeps(c, s, Step(c, s, DeleteAction(a)));
  }

  lemma DeleteSourceKeeps(c: Config, s: State, source: SourceId)
    requires Inv(c, s) && source in s.sources
    ensures Inv(c, Step(c, s, DeleteSource(source)))
  {
    var s' := Step(c, s, DeleteSource(source));
    assert TablesOk(s');
    DeletionKeeps(c, s, s');
  }

  lemma EditKeeps(c: Config, s: State, l: Label)
    requires Inv(c, s) && Enabled(c, s, l) && (l.PutSource? || l.PutAction?)
    ensures Inv(c, Step(c, s, l))
  {
  }

  lemma StepKeeps(c: Config, s: State, l: Label)
    requires Inv(c, s) && Enabled(c, s, l)
    ensures Inv(c, Step(c, s, l))
  {
    match l {
      case Advance(t, ch) => AdvanceKeeps(c, s, t, ch);
      case Crash(t) => HoldersStay(s.threads, t, None);
      case LoseMessage(m) => StreamKeeps(c, s, Step(c, s, l));
      case PutSource(_, _) => EditKeeps(c, s, l);
      case PutAction(_, _) => EditKeeps(c, s, l);
      case DeleteAction(a) => DeleteActionKeeps(c, s, a);
      case DeleteSource(source) => DeleteSourceKeeps(c, s, source);
      case _ => SpawnsKeep(c, s, l);
    }
  }

  lemma {:induction false} RunKeeps(c: Config, s: State, labels: seq<Label>, s': State)
    requires Inv(c, s) && Run(c, s, labels, s')
    ensures Inv(c, s')
    decreases |labels|
  {
    if labels != [] {
      var init, l := labels[..|labels| - 1], labels[|labels| - 1];
      var m :| Run(c, s, init, m) && Enabled(c, m, l) && s' == Step(c, m, l);
      RunKeeps(c, s, init, m);
      StepKeeps(c, m, l);
    }
  }
}

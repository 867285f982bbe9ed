/** What one refused store call can do: the first attempt of an action carries what the script made, and its retry
    carries what was received, or is given up because the action's own transform skips that. */
module Divergence {
  import opened Types
  import opened Machine
  import opened Engine
  import opened Runs
  import Backoff
  import Filter
  import Guarantees
  import Verdict

  const SOURCE := Source(Active, Some("rewrite"))
  const PLAIN := Action(0, true, None)
  const PICKY := Action(0, true, Some("picky"))
  const FIRST := Key(0, 0, 1)
  const SECOND := Key(0, 0, 2)
  const MADE := Cont.Fan([], "new", "head")

  /** The action has no script of its own, or one that leaves what the source script made as it is. */
  ghost predicate SendsMade(c: Config, script: Option<Script>) {
    script == None || script == Some("") || c.runAction(script.value, "new", "head") == Send("new", "head")
  }

  /** The script rewrites the payload, the action sends that as it is, and there is a retry. */
  ghost predicate Rewrites(c: Config, action: Action) {
    && c.maxRetries >= 2 && c.runSource("rewrite", "p", "h", [0]) == Transformed("new", "head", [0])
    && action.source == 0 && action.active && SendsMade(c, action.transform)
  }

  ghost function At(action: Action, att: map<Key, Attempt>, threads: map<ThreadId, Pc>, log: seq<Event>,
                    waits: map<Key, Wait>): State {
    World(SOURCE, action, ADMITTED, att, multiset{}, threads, log, waits)
  }

  ghost function Listed(action: Action): Pc {
    PdPersist(0, "new", "head", [Todo(0, action.transform)], [0])
  }

  /** The script has run, and its content is about to be stored. */
  lemma Rewritten(c: Config, action: Action) returns (labels: seq<Label>)
    requires Rewrites(c, action)
    ensures Traced(c, labels, At(action, map[], map[2 := Listed(action)], [], map[]))
  {
    var before;
    before, labels := Admits(c, SOURCE, action);
    var admitted := At(action, map[], map[2 := PdActions(0, ROW, SOURCE.script)], [], map[]);
    ListsOne(admitted);
    labels := Goes(c, before, labels, admitted, LISTED, At(action, map[], map[2 := Listed(action)], [], map[]));
  }

  /** The store refuses; the fan-out goes on regardless. */
  lemma RefusedStore(c: Config, action: Action) returns (labels: seq<Label>)
    requires Rewrites(c, action)
    ensures Traced(c, labels, At(action, map[], map[2 := Insert(FIRST, "new", "head", MADE)], [], map[]))
  {
    labels := Rewritten(c, action);
    var s := At(action, map[], map[2 := Listed(action)], [], map[]);
    var s' := At(action, map[], map[2 := Insert(FIRST, "new", "head", MADE)], [], map[]);
    FanOfOne(c, action);
    assert s.threads[2 := Insert(FIRST, "new", "head", MADE)] == s'.threads;
    labels := Performs(c, labels, s, 2, Ch(Refused), s');
  }

  lemma FanOfOne(c: Config, action: Action)
    requires Rewrites(c, action)
    ensures AfterPersist(c, 0, "new", "head", [Todo(0, action.transform)], [0]) == Insert(FIRST, "new", "head", MADE)
  {
    var todos := [Todo(0, action.transform)];
    assert todos[1..] == [] && 0 in [0];
    Filter.KeptAll(todos, IdSet([0]));
  }

  const TRIED := map[FIRST := Attempt(AttemptPending, None)]
  const SENT := [Event(FIRST, false, "new", "head")]

  lemma FirstInserted(c: Config, action: Action) returns (labels: seq<Label>)
    requires Rewrites(c, action)
    ensures Traced(c, labels, At(action, TRIED, map[2 := Dispatch(FIRST, "new", "head", MADE)], [], map[]))
  {
    labels := RefusedStore(c, action);
    var s := At(action, map[], map[2 := Insert(FIRST, "new", "head", MADE)], [], map[]);
    var inserted := At(action, TRIED, map[2 := Dispatch(FIRST, "new", "head", MADE)], [], map[]);
    assert s.threads[2 := Dispatch(FIRST, "new", "head", MADE)] == inserted.threads;
    assert s.attempts[FIRST := Attempt(AttemptPending, None)] == TRIED;
    labels := Performs(c, labels, s, 2, Ch(Ok), inserted);
  }

  /** The first attempt is made with the new payload, and fails. */
  lemma FirstSent(c: Config, action: Action) returns (labels: seq<Label>)
    requires Rewrites(c, action)
    ensures Traced(c, labels, At(action, TRIED, map[2 := Settle(FIRST, false, MADE)], SENT, map[]))
  {
    labels := FirstInserted(c, action);
    var inserted := At(action, TRIED, map[2 := Dispatch(FIRST, "new", "head", MADE)], [], map[]);
    var sent := At(action, TRIED, map[2 := Settle(FIRST, false, MADE)], SENT, map[]);
    assert inserted.threads[2 := Settle(FIRST, false, MADE)] == sent.threads;
    labels := Performs(c, labels, inserted, 2, Ch(Ok).(success := false), sent);
  }

  ghost function DueAt(c: Config, action: Action): int
    requires Rewrites(c, action)
  {
    Backoff.NextRetry(c, 1, Ch(Ok).now, Ch(Ok).jitter).value
  }

  ghost function Failure(next: Option<int>): map<Key, Attempt> {
    map[FIRST := Attempt(AttemptFailed, next)]
  }

  ghost function Scheduled(c: Config, action: Action): map<Key, Attempt>
    requires Rewrites(c, action)
  {
    Failure(Some(DueAt(c, action)))
  }

  ghost function Waits(c: Config, action: Action): map<Key, Wait>
    requires Rewrites(c, action)
  {
    map[FIRST := Wait(Ch(Ok).now, DueAt(c, action) - Ch(Ok).now)]
  }

  /** The failure is recorded with a retry time. */
  lemma FirstSettled(c: Config, action: Action) returns (labels: seq<Label>)
    requires Rewrites(c, action)
    ensures Traced(c, labels, At(action, Scheduled(c, action), map[2 := RollDelivery(0)], SENT, Waits(c, action)))
  {
    labels := FirstSent(c, action);
    var s := At(action, TRIED, map[2 := Settle(FIRST, false, MADE)], SENT, map[]);
    var settled := At(action, Scheduled(c, action), map[2 := RollDelivery(0)], SENT, Waits(c, action));
    assert s.threads[2 := RollDelivery(0)] == settled.threads;
    assert TRIED[FIRST := Attempt(AttemptFailed, Some(DueAt(c, action)))] == Scheduled(c, action);
    assert (map[])[FIRST := Wait(Ch(Ok).now, DueAt(c, action) - Ch(Ok).now)] == Waits(c, action);
    labels := Performs(c, labels, s, 2, Ch(Ok), settled);
  }

  /** A roll-up that finds no verdict ends there. */
  lemma Rolls(c: Config, action: Action, labels: seq<Label>, next: Option<int>, t: ThreadId, waits: map<Key, Wait>)
    returns (more: seq<Label>)
    requires Rewrites(c, action) && Traced(c, labels, At(action, Failure(next), map[t := RollDelivery(0)], SENT, waits))
    ensures Traced(c, more, At(action, Failure(next), map[], SENT, waits))
  {
    var s := At(action, Failure(next), map[t := RollDelivery(0)], SENT, waits);
    more := Reads(c, labels, s, t, RollActions(0, 0));
    var owned := At(action, Failure(next), map[t := RollActions(0, 0)], SENT, waits);
    assert s.threads[t := RollActions(0, 0)] == owned.threads;
    more := RollsOn(c, action, more, next, t, waits);
  }

  lemma RollsOn(c: Config, action: Action, labels: seq<Label>, next: Option<int>, t: ThreadId, waits: map<Key, Wait>)
    returns (more: seq<Label>)
    requires Rewrites(c, action)
    requires Traced(c, labels, At(action, Failure(next), map[t := RollActions(0, 0)], SENT, waits))
    ensures Traced(c, more, At(action, Failure(next), map[], SENT, waits))
  {
    var owned := At(action, Failure(next), map[t := RollActions(0, 0)], SENT, waits);
    var rolling := At(action, Failure(next), map[t := RollAttempts(0, [0])], SENT, waits);
    ListsOne(owned);
    assert owned.threads[t := RollAttempts(0, [0])] == rolling.threads;
    more := Performs(c, labels, owned, t, LISTED, rolling);
    more := RollsOut(c, action, more, next, t, waits);
  }

  lemma RollsOut(c: Config, action: Action, labels: seq<Label>, next: Option<int>, t: ThreadId, waits: map<Key, Wait>)
    returns (more: seq<Label>)
    requires Rewrites(c, action)
    requires Traced(c, labels, At(action, Failure(next), map[t := RollAttempts(0, [0])], SENT, waits))
    ensures Traced(c, more, At(action, Failure(next), map[], SENT, waits))
  {
    var rolling := At(action, Failure(next), map[t := RollAttempts(0, [0])], SENT, waits);
    NoVerdict(c, next);
    assert rolling.threads - {t} == map[];
    more := Performs(c, labels, rolling, t, Ch(Ok), At(action, Failure(next), map[], SENT, waits));
  }

  lemma NoVerdict(c: Config, next: Option<int>)
    requires c.maxRetries >= 2
    ensures Verdict.Of(c.maxRetries, IdSet([0]), Failure(next), 0) == None
  {
    assert 0 in IdSet([0]) && Verdict.IsLatest(Failure(next), 0, 0, 1);
    if Verdict.Terminal(c.maxRetries, Failure(next), 0, 0) {
      Guarantees.TerminalChain(c.maxRetries, Failure(next), FIRST);
    }
  }

  /** A retry poll finds it due; the worker that retries it reads the row, which holds what was received. */
  lemma RetryLoaded(c: Config, action: Action) returns (labels: seq<Label>)
    requires Rewrites(c, action)
    ensures Traced(c, labels, At(action, Scheduled(c, action), map[3 := RtAction(FIRST, ADMITTED)], SENT,
                                 Waits(c, action)))
  {
    labels := FirstSettled(c, action);
    labels := Rolls(c, action, labels, Some(DueAt(c, action)), 2, Waits(c, action));
    var s := At(action, Scheduled(c, action), map[], SENT, Waits(c, action));
    var due := At(action, Scheduled(c, action), map[3 := RtDelivery(FIRST)], SENT, Waits(c, action));
    labels := Next(c, labels, s, Label.PollRetry(3, FIRST, DueAt(c, action)), due);
    labels := Reads(c, labels, due, 3, RtAction(FIRST, ADMITTED));
    assert due.threads[3 := RtAction(FIRST, ADMITTED)] == map[3 := RtAction(FIRST, ADMITTED)];
  }

  // -------------------------------------------------- a retry that sends something else

  lemma RetryRebuilt(c: Config) returns (labels: seq<Label>)
    requires Rewrites(c, PLAIN)
    ensures Traced(c, labels, At(PLAIN, Scheduled(c, PLAIN), map[3 := Insert(SECOND, "p", "h", Redo(FIRST))], SENT,
                                 Waits(c, PLAIN)))
  {
    labels := RetryLoaded(c, PLAIN);
    var s := At(PLAIN, Scheduled(c, PLAIN), map[3 := RtAction(FIRST, ADMITTED)], SENT, Waits(c, PLAIN));
    labels := Reads(c, labels, s, 3, Insert(SECOND, "p", "h", Redo(FIRST)));
    assert s.threads[3 := Insert(SECOND, "p", "h", Redo(FIRST))] == map[3 := Insert(SECOND, "p", "h", Redo(FIRST))];
  }

  lemma RetryInserted(c: Config) returns (labels: seq<Label>)
    requires Rewrites(c, PLAIN)
    ensures Traced(c, labels, At(PLAIN, Scheduled(c, PLAIN)[SECOND := Attempt(AttemptPending, None)],
                                 map[3 := Dispatch(SECOND, "p", "h", Redo(FIRST))], SENT, Waits(c, PLAIN)))
  {
    labels := RetryRebuilt(c);
    var s := At(PLAIN, Scheduled(c, PLAIN), map[3 := Insert(SECOND, "p", "h", Redo(FIRST))], SENT, Waits(c, PLAIN));
    var s' := At(PLAIN, Scheduled(c, PLAIN)[SECOND := Attempt(AttemptPending, None)],
                 map[3 := Dispatch(SECOND, "p", "h", Redo(FIRST))], SENT, Waits(c, PLAIN));
    assert s.threads[3 := Dispatch(SECOND, "p", "h", Redo(FIRST))] == s'.threads;
    labels := Performs(c, labels, s, 3, Ch(Ok), s');
  }

  /** A reachable state, after a run in which one store call was refused and nothing else failed but the first
      dispatch: the log holds a first attempt and a retry of one action that carry different payloads. */
  lemma RefusedStoreDiverges(c: Config) returns (s: State)
    requires Rewrites(c, PLAIN)
    ensures Reachable(c, s) && |s.hist.log| == 2
    ensures s.hist.log[0].key == FIRST && s.hist.log[1].key == SECOND
    ensures s.hist.log[0].payload == "new" && s.hist.log[0].headers == "head"
    ensures s.hist.log[1].payload == "p" && s.hist.log[1].headers == "h"
  {
    var labels := RetryInserted(c);
    var inserted := At(PLAIN, Scheduled(c, PLAIN)[SECOND := Attempt(AttemptPending, None)],
                       map[3 := Dispatch(SECOND, "p", "h", Redo(FIRST))], SENT, Waits(c, PLAIN));
    var ch := Ch(Ok).(success := true);
    s := After(inserted, 3, Perform(c, inserted, inserted.threads[3], ch));
    labels := Performs(c, labels, inserted, 3, ch, s);
  }

  // -------------------------------------------------- a retry that is given up

  lemma RetrySkipped(c: Config) returns (labels: seq<Label>)
    requires Rewrites(c, PICKY) && c.runAction("picky", "p", "h") == Skip
    ensures Traced(c, labels, At(PICKY, Scheduled(c, PICKY), map[3 := Clear(FIRST)], SENT, Waits(c, PICKY)))
  {
    labels := RetryLoaded(c, PICKY);
    var s := At(PICKY, Scheduled(c, PICKY), map[3 := RtAction(FIRST, ADMITTED)], SENT, Waits(c, PICKY));
    labels := Reads(c, labels, s, 3, Clear(FIRST));
    assert s.threads[3 := Clear(FIRST)] == map[3 := Clear(FIRST)];
  }

  lemma RetryCleared(c: Config) returns (labels: seq<Label>)
    requires Rewrites(c, PICKY) && c.runAction("picky", "p", "h") == Skip
    ensures Traced(c, labels, At(PICKY, Failure(None), map[3 := RollDelivery(0)], SENT, Waits(c, PICKY)))
  {
    labels := RetrySkipped(c);
    var s := At(PICKY, Scheduled(c, PICKY), map[3 := Clear(FIRST)], SENT, Waits(c, PICKY));
    var cleared := At(PICKY, Failure(None), map[3 := RollDelivery(0)], SENT, Waits(c, PICKY));
    assert s.threads[3 := RollDelivery(0)] == cleared.threads;
    assert Scheduled(c, PICKY)[FIRST := Attempt(AttemptFailed, None)] == Failure(None);
    labels := Performs(c, labels, s, 3, Ch(Ok), cleared);
  }

  /** A reachable state, after one refused store call and one failed dispatch: nobody is at work and nothing is
      scheduled, and the delivery is `processing` although its one attempt had retries left. */
  lemma RefusedStoreAbandons(c: Config) returns (s: State)
    requires Rewrites(c, PICKY) && c.runAction("picky", "p", "h") == Skip
    ensures Reachable(c, s) && s.threads == map[] && s.hist.log == [Event(FIRST, false, "new", "head")]
    ensures s.attempts == map[FIRST := Attempt(AttemptFailed, None)] && FIRST.number < c.maxRetries
    ensures 0 in s.deliveries && s.deliveries[0].status == Processing
  {
    var labels := RetryCleared(c);
    labels := Rolls(c, PICKY, labels, None, 3, Waits(c, PICKY));
    s := At(PICKY, Failure(None), map[], SENT, Waits(c, PICKY));
  }
}

/** The quiescence theorems are about something: a run in which a delivery of an active source with one action is
    posted, announced, dispatched and rolled up, with the calls of its threads one by one. */
module Witness {
  import opened Types
  import opened Machine
  import opened Draining
  import opened Engine
  import opened Runs
  import Decisions
  import Quiescence
  import Verdict

  const SOURCE := Source(Active, None)
  const ACTION := Action(0, true, None)
  const FIRST := Key(0, 0, 1)
  const NONE_LEFT := Cont.Fan([], "p", "h")

  ghost const FRESH := Posted(SOURCE, ACTION)

  lemma FreshIsCalm(c: Config)
    ensures Quiescence.Calm(c, FRESH, 0, Content("p", "h")) && Quiescence.Untried(FRESH, 0)
  {
    assert ActiveIds(FRESH.actions, 0) == {0};
    Decisions.PlainDecides(c, FRESH, 0);
  }

  ghost function At(att: map<Key, Attempt>, pc: Pc, log: seq<Event>): State {
    Working(SOURCE, ACTION, att, map[2 := pc], log)
  }

  lemma Listed(c: Config) returns (before: seq<Label>, labels: seq<Label>)
    ensures Traced(c, before, FRESH) && Worked(before, labels)
    ensures Traced(c, labels, At(map[], Insert(FIRST, "p", "h", NONE_LEFT), []))
  {
    before, labels := Admits(c, SOURCE, ACTION);
    var admitted := At(map[], PdActions(0, ROW, None), []);
    ListsOne(admitted);
    var todos := Todos(admitted.actions, [0]);
    assert todos[1..] == [];
    assert NextFan(c, 0, todos, "p", "h") == Insert(FIRST, "p", "h", NONE_LEFT);
    labels := Goes(c, before, labels, At(map[], PdActions(0, ROW, None), []), LISTED,
                   At(map[], Insert(FIRST, "p", "h", NONE_LEFT), []));
  }

  const PENDING := map[FIRST := Attempt(AttemptPending, None)]
  const DONE := map[FIRST := Attempt(AttemptSuccess, None)]
  const SENT := [Event(FIRST, true, "p", "h")]

  lemma Inserted(c: Config) returns (before: seq<Label>, labels: seq<Label>)
    ensures Traced(c, before, FRESH) && Worked(before, labels)
    ensures Traced(c, labels, At(PENDING, Dispatch(FIRST, "p", "h", NONE_LEFT), []))
  {
    before, labels := Listed(c);
    assert (map[])[FIRST := Attempt(AttemptPending, None)] == PENDING;
    labels := Goes(c, before, labels, At(map[], Insert(FIRST, "p", "h", NONE_LEFT), []), Ch(Ok),
                   At(PENDING, Dispatch(FIRST, "p", "h", NONE_LEFT), []));
  }

  lemma Sending(c: Config) returns (before: seq<Label>, labels: seq<Label>)
    ensures Traced(c, before, FRESH) && Worked(before, labels)
    ensures Traced(c, labels, At(PENDING, Settle(FIRST, true, NONE_LEFT), SENT))
  {
    before, labels := Inserted(c);
    labels := Goes(c, before, labels, At(PENDING, Dispatch(FIRST, "p", "h", NONE_LEFT), []), Ch(Ok).(success := true),
                   At(PENDING, Settle(FIRST, true, NONE_LEFT), SENT));
  }

  lemma Settled(c: Config) returns (before: seq<Label>, labels: seq<Label>)
    ensures Traced(c, before, FRESH) && Worked(before, labels)
    ensures Traced(c, labels, At(DONE, RollDelivery(0), SENT))
  {
    before, labels := Sending(c);
    assert PENDING[FIRST := Attempt(AttemptSuccess, None)] == DONE;
    labels := Goes(c, before, labels, At(PENDING, Settle(FIRST, true, NONE_LEFT), SENT), Ch(Ok),
                   At(DONE, RollDelivery(0), SENT));
  }

  lemma Owned(c: Config) returns (before: seq<Label>, labels: seq<Label>)
    ensures Traced(c, before, FRESH) && Worked(before, labels)
    ensures Traced(c, labels, At(DONE, RollActions(0, 0), SENT))
  {
    before, labels := Settled(c);
    labels := Goes(c, before, labels, At(DONE, RollDelivery(0), SENT), Ch(Ok), At(DONE, RollActions(0, 0), SENT));
  }

  lemma Rolling(c: Config) returns (before: seq<Label>, labels: seq<Label>)
    ensures Traced(c, before, FRESH) && Worked(before, labels)
    ensures Traced(c, labels, At(DONE, RollAttempts(0, [0]), SENT))
  {
    before, labels := Owned(c);
    ListsOne(At(DONE, RollActions(0, 0), SENT));
    labels := Goes(c, before, labels, At(DONE, RollActions(0, 0), SENT), LISTED, At(DONE, RollAttempts(0, [0]), SENT));
  }

  lemma Succeeds(c: Config)
    ensures Verdict.Of(c.maxRetries, {0}, DONE, 0) == Some(Completed)
  {
    assert Verdict.IsLatest(DONE, 0, 0, 1);
    Verdict.VerdictMeaning(c.maxRetries, {0}, DONE, 0);
  }

  lemma Judged(c: Config) returns (before: seq<Label>, labels: seq<Label>)
    ensures Traced(c, before, FRESH) && Worked(before, labels)
    ensures Traced(c, labels, At(DONE, RollWrite(0, Completed), SENT))
  {
    before, labels := Rolling(c);
    assert IdSet([0]) == {0};
    Succeeds(c);
    labels := Goes(c, before, labels, At(DONE, RollAttempts(0, [0]), SENT), Ch(Ok),
                   At(DONE, RollWrite(0, Completed), SENT));
  }

  lemma Completes(c: Config) returns (before: seq<Label>, labels: seq<Label>, s: State)
    ensures Traced(c, before, FRESH) && Worked(before, labels) && Traced(c, labels, s)
    ensures s == World(SOURCE, ACTION, ROW.(status := Completed), DONE, multiset{}, map[], SENT, map[])
  {
    before, labels := Judged(c);
    var judged := At(DONE, RollWrite(0, Completed), SENT);
    s := World(SOURCE, ACTION, ROW.(status := Completed), DONE, multiset{}, map[], SENT, map[]);
    assert WithStatus(judged.deliveries, 0, Completed) == s.deliveries;
    labels := Goes(c, before, labels, judged, Ch(Ok), s);
  }

  /** A calm history that ends with nobody at work, one successful dispatch, and the delivery completed. */
  lemma CalmHistoryExists(c: Config) returns (s: State)
    ensures Quiescence.CalmHistory(c, s, 0) && !Quiescence.InFlight(s, 0)
    ensures 0 in s.deliveries && s.deliveries[0].status == Completed && s.hist.log == SENT
  {
    var before, labels, end := Completes(c);
    s := end;
    FreshIsCalm(c);
    WorkedIsCalm(c, before, labels, FRESH, s, 0, Content("p", "h"));
  }
}

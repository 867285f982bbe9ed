/** Deliveries whose status says nothing about their attempts although nobody is at work on them and nothing failed:
    a skipping action leaves one `processing`, and a script that keeps no action leaves one `completed`. */
module Leftovers {
  import opened Types
  import opened Machine
  import opened Draining
  import opened Engine
  import opened Runs
  import Decisions
  import Quiescence
  import Skips

  const PLAIN := Source(Active, None)
  const SKIPPING := Action(0, true, Some("skip"))

  lemma NothingListed(c: Config) returns (before: seq<Label>, labels: seq<Label>)
    requires c.runAction("skip", "p", "h") == Skip
    ensures Traced(c, before, Posted(PLAIN, SKIPPING)) && Worked(before, labels)
    ensures Traced(c, labels, Working(PLAIN, SKIPPING, map[], map[2 := RollDelivery(0)], []))
  {
    before, labels := Admits(c, PLAIN, SKIPPING);
    var admitted := Working(PLAIN, SKIPPING, map[], map[2 := PdActions(0, ROW, None)], []);
    ListsOne(admitted);
    var todos := Todos(admitted.actions, [0]);
    assert todos[1..] == [];
    assert NextFan(c, 0, todos, "p", "h") == RollDelivery(0);
    labels := Goes(c, before, labels, admitted, LISTED, Working(PLAIN, SKIPPING, map[], map[2 := RollDelivery(0)], []));
  }

  lemma NothingOwned(c: Config) returns (before: seq<Label>, labels: seq<Label>)
    requires c.runAction("skip", "p", "h") == Skip
    ensures Traced(c, before, Posted(PLAIN, SKIPPING)) && Worked(before, labels)
    ensures Traced(c, labels, Working(PLAIN, SKIPPING, map[], map[2 := RollActions(0, 0)], []))
  {
    before, labels := NothingListed(c);
    var tried := Working(PLAIN, SKIPPING, map[], map[2 := RollDelivery(0)], []);
    var owned := Working(PLAIN, SKIPPING, map[], map[2 := RollActions(0, 0)], []);
    labels := Goes(c, before, labels, tried, Ch(Ok), owned);
  }

  lemma NothingTried(c: Config) returns (before: seq<Label>, labels: seq<Label>)
    requires c.runAction("skip", "p", "h") == Skip
    ensures Traced(c, before, Posted(PLAIN, SKIPPING)) && Worked(before, labels)
    ensures Traced(c, labels, Working(PLAIN, SKIPPING, map[], map[2 := RollAttempts(0, [0])], []))
  {
    before, labels := NothingOwned(c);
    var owned := Working(PLAIN, SKIPPING, map[], map[2 := RollActions(0, 0)], []);
    ListsOne(owned);
    labels := Goes(c, before, labels, owned, LISTED,
                   Working(PLAIN, SKIPPING, map[], map[2 := RollAttempts(0, [0])], []));
  }

  /** A run of successful calls that leaves a delivery `processing` with nobody at work and nothing scheduled: the only
      action of its source skips it. */
  lemma SkippedStaysProcessing(c: Config) returns (s0: State, work: seq<Label>, s: State)
    requires c.runAction("skip", "p", "h") == Skip
    ensures Reachable(c, s0) && Quiescence.Fresh(s0, 0) && Quiescence.BenignRun(c, s0, work, s, 0)
    ensures s.threads == map[] && s.attempts == map[] && s.stream == multiset{}
    ensures 0 in s.deliveries && s.deliveries[0].status == Processing
  {
    var before, labels := NothingTried(c);
    var tried := Working(PLAIN, SKIPPING, map[], map[2 := RollAttempts(0, [0])], []);
    Skips.NoVerdictWithout(c.maxRetries, IdSet([0]), map[], 0, 0);
    s0 := Posted(PLAIN, SKIPPING);
    s := Working(PLAIN, SKIPPING, map[], map[], []);
    labels := Goes(c, before, labels, tried, Ch(Ok), s);
    work := WorkFrom(c, before, labels, s0, s);
  }

  /** What was done since the delivery was posted. */
  lemma WorkFrom(c: Config, before: seq<Label>, labels: seq<Label>, s0: State, s: State) returns (work: seq<Label>)
    requires Traced(c, before, s0) && Traced(c, labels, s) && Worked(before, labels) && 0 in s0.deliveries
    ensures Reachable(c, s0) && Quiescence.BenignRun(c, s0, work, s, 0)
  {
    work := labels[|before|..];
    assert labels == before + work;
    WorkIsBenign(c, before, work, s0, s, 0);
  }

  const DROPPING := Source(Active, Some("keep none"))
  const LEFT_OUT := Action(0, true, None)

  lemma NothingKept(c: Config) returns (before: seq<Label>, labels: seq<Label>)
    requires c.runSource("keep none", "p", "h", [0]) == Transformed("new", "head", [])
    ensures Traced(c, before, Posted(DROPPING, LEFT_OUT)) && Worked(before, labels)
    ensures Traced(c, labels, Working(DROPPING, LEFT_OUT, map[],
                                      map[2 := PdPersist(0, "new", "head", [Todo(0, None)], [])], []))
  {
    before, labels := Admits(c, DROPPING, LEFT_OUT);
    var admitted := Working(DROPPING, LEFT_OUT, map[], map[2 := PdActions(0, ROW, Some("keep none"))], []);
    ListsOne(admitted);
    labels := Goes(c, before, labels, admitted, LISTED,
                   Working(DROPPING, LEFT_OUT, map[], map[2 := PdPersist(0, "new", "head", [Todo(0, None)], [])], []));
  }

  const STORED := ADMITTED.(transformedPayload := Some("new"), transformedHeaders := Some("head"))

  lemma NothingSent(c: Config) returns (before: seq<Label>, labels: seq<Label>)
    requires c.runSource("keep none", "p", "h", [0]) == Transformed("new", "head", [])
    ensures Traced(c, before, Posted(DROPPING, LEFT_OUT)) && Worked(before, labels)
    ensures Traced(c, labels, World(DROPPING, LEFT_OUT, STORED, map[], multiset{}, map[2 := PdFinish(0, Completed)], [],
                                    map[]))
  {
    before, labels := NothingKept(c);
    var kept := Working(DROPPING, LEFT_OUT, map[], map[2 := PdPersist(0, "new", "head", [Todo(0, None)], [])], []);
    var s := World(DROPPING, LEFT_OUT, STORED, map[], multiset{}, map[2 := PdFinish(0, Completed)], [], map[]);
    assert kept.deliveries[0 := STORED] == s.deliveries;
    labels := Goes(c, before, labels, kept, Ch(Ok), s);
  }

  /** A run of successful calls that leaves a delivery `completed` without any attempt: its source has an active action,
      so that the attempts have no verdict, but the script keeps none. */
  lemma NoneKeptCompletes(c: Config) returns (s0: State, work: seq<Label>, s: State)
    requires c.runSource("keep none", "p", "h", [0]) == Transformed("new", "head", [])
    ensures Reachable(c, s0) && Quiescence.Fresh(s0, 0) && Quiescence.BenignRun(c, s0, work, s, 0)
    ensures s.threads == map[] && s.attempts == map[] && s.stream == multiset{}
    ensures 0 in s.deliveries && s.deliveries[0].status == Completed && Quiescence.VerdictOf(c, s, 0) == None
  {
    var before, labels := NothingSent(c);
    var sent := World(DROPPING, LEFT_OUT, STORED, map[], multiset{}, map[2 := PdFinish(0, Completed)], [], map[]);
    s0 := Posted(DROPPING, LEFT_OUT);
    s := World(DROPPING, LEFT_OUT, STORED.(status := Completed), map[], multiset{}, map[], [], map[]);
    assert WithStatus(sent.deliveries, 0, Completed) == s.deliveries;
    labels := Goes(c, before, labels, sent, Ch(Ok), s);
    work := WorkFrom(c, before, labels, s0, s);
    ListsOne(s);
    assert Decisions.Acts(s, 0) == {0};
    Skips.NoVerdictWithout(c.maxRetries, {0}, map[], 0, 0);
  }
}

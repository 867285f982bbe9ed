/** Runs written out call by call: how to extend one, and the run that the examples with an active source start
    with. */
module Runs {
  import opened Types
  import opened Machine
  import opened Draining
  import opened Engine

  const ROW := Row(0, "key", "h", "p", 7)

  /** What the call that stores it finds on the clock. */
  ghost const POSTED := Ch(Ok).(now := 7)

  // -------------------------------------------------- one more step

  lemma Next(c: Config, labels: seq<Label>, s: State, l: Label, s': State) returns (more: seq<Label>)
    requires Traced(c, labels, s) && Enabled(c, s, l) && Step(c, s, l) == s'
    ensures Traced(c, more, s')
  {
    TraceGrows(c, labels, s, l);
    more := labels + [l];
  }

  /** Thread `t` makes its next call. */
  lemma Performs(c: Config, labels: seq<Label>, s: State, t: ThreadId, ch: Choice, s': State) returns (more: seq<Label>)
    requires Traced(c, labels, s) && t in s.threads && ChoiceOk(s, s.threads[t], ch)
    requires After(s, t, Perform(c, s, s.threads[t], ch)) == s'
    ensures Traced(c, more, s')
  {
    more := Next(c, labels, s, Advance(t, ch), s');
  }

  /** A step that is a request or a call that succeeds. */
  lemma Then(c: Config, before: seq<Label>, labels: seq<Label>, s: State, l: Label, s': State)
    returns (more: seq<Label>)
    requires Traced(c, labels, s) && Worked(before, labels) && Work(l) && Enabled(c, s, l) && Step(c, s, l) == s'
    ensures Traced(c, more, s') && Worked(before, more)
  {
    TraceGrows(c, labels, s, l);
    more := labels + [l];
  }

  /** Thread `t` makes a call that only reads. */
  lemma Reads(c: Config, labels: seq<Label>, s: State, t: ThreadId, pc: Pc) returns (more: seq<Label>)
    requires Traced(c, labels, s) && t in s.threads && ChoiceOk(s, s.threads[t], Ch(Ok))
    requires Perform(c, s, s.threads[t], Ch(Ok)) == Goto(pc)
    ensures Traced(c, more, s.(threads := s.threads[t := pc]))
  {
    more := Next(c, labels, s, Advance(t, Ch(Ok)), s.(threads := s.threads[t := pc]));
  }

  /** Thread `t` makes its last call, which writes a status. */
  lemma Writes(c: Config, labels: seq<Label>, s: State, t: ThreadId, status: DeliveryStatus) returns (more: seq<Label>)
    requires Traced(c, labels, s) && t in s.threads && ChoiceOk(s, s.threads[t], Ch(Ok))
    requires Perform(c, s, s.threads[t], Ch(Ok)) == Move(SetStatus(0, status), None)
    ensures Traced(c, more, s.(deliveries := WithStatus(s.deliveries, 0, status), threads := s.threads - {t}))
  {
    more := Next(c, labels, s, Advance(t, Ch(Ok)),
                 s.(deliveries := WithStatus(s.deliveries, 0, status), threads := s.threads - {t}));
  }

  // -------------------------------------------------- from an empty store to the admission of a delivery

  /** One source, one action and one delivery. */
  ghost function World(source: Source, action: Action, row: Delivery, att: map<Key, Attempt>, stream: multiset<Message>,
                       threads: map<ThreadId, Pc>, log: seq<Event>, waits: map<Key, Wait>): State {
    State(map[0 := source], map[0 := action], map[0 := row], att, stream, threads,
          History(att.Keys, log, waits, {}, {}, map[0 := 0], {}))
  }

  /** The delivery is pending and untried, and only these threads are about. */
  ghost function Waiting(source: Source, action: Action, stream: multiset<Message>, threads: map<ThreadId, Pc>): State {
    World(source, action, ROW, map[], stream, threads, [], map[])
  }

  ghost function Posted(source: Source, action: Action): State {
    Waiting(source, action, multiset{}, map[1 := IgPublish(0)])
  }

  lemma Posts(c: Config, source: Source, action: Action) returns (before: seq<Label>)
    requires source.mode == Active && action.source == 0
    ensures Traced(c, before, Posted(source, action))
  {
    var s0 := INIT.(sources := map[0 := source]);
    var s1 := s0.(actions := map[0 := action]);
    var s2 := s1.(threads := map[1 := IgInsert(0, Active, "key", "h", "p")]);
    assert Run(c, INIT, [], INIT);
    before := Next(c, [], INIT, PutSource(0, source), s0);
    before := Next(c, before, s0, PutAction(0, action), s1);
    before := Next(c, before, s1, Post(1, 0, "key", "h", "p"), s2);
    assert Perform(c, s2, s2.threads[1], POSTED) == Move(NewDelivery(0, ROW), Some(IgPublish(0)));
    before := Next(c, before, s2, Advance(1, POSTED), Posted(source, action));
  }

  /** The delivery is announced, and a worker reads the message. */
  lemma Announces(c: Config, source: Source, action: Action) returns (before: seq<Label>, labels: seq<Label>)
    requires source.mode == Active && action.source == 0
    ensures Traced(c, before, Posted(source, action)) && Worked(before, labels)
    ensures Traced(c, labels, Waiting(source, action, multiset{}, map[2 := PdStart(0, false)]))
  {
    before := Posts(c, source, action);
    var posted := Posted(source, action);
    var published := Waiting(source, action, multiset{Message(0, false)}, map[]);
    assert posted.threads - {1} == map[];
    labels := Then(c, before, before, posted, Advance(1, Ch(Ok)), published);
    var read := Waiting(source, action, multiset{}, map[2 := PdStart(0, false)]);
    labels := Then(c, before, labels, published, ReadStream(2, Message(0, false), false), read);
  }

  /** The worker reads the delivery and its source. */
  lemma Loads(c: Config, source: Source, action: Action) returns (before: seq<Label>, labels: seq<Label>)
    requires source.mode == Active && action.source == 0
    ensures Traced(c, before, Posted(source, action)) && Worked(before, labels)
    ensures Traced(c, labels, Waiting(source, action, multiset{}, map[2 := PdAdmit(0, false, ROW, source.script)]))
  {
    before, labels := Announces(c, source, action);
    var started := Waiting(source, action, multiset{}, map[2 := PdStart(0, false)]);
    var loaded := Waiting(source, action, multiset{}, map[2 := PdSource(0, false, ROW)]);
    assert started.threads[2 := PdSource(0, false, ROW)] == loaded.threads;
    labels := Then(c, before, labels, started, Advance(2, Ch(Ok)), loaded);
    var ready := Waiting(source, action, multiset{}, map[2 := PdAdmit(0, false, ROW, source.script)]);
    assert loaded.threads[2 := PdAdmit(0, false, ROW, source.script)] == ready.threads;
    labels := Then(c, before, labels, loaded, Advance(2, Ch(Ok)), ready);
  }

  const ADMITTED := ROW.(status := Processing)

  /** A worker is dispatching the delivery, of which these attempts and calls have been made. */
  ghost function Working(source: Source, action: Action, att: map<Key, Attempt>, threads: map<ThreadId, Pc>,
                         log: seq<Event>): State {
    World(source, action, ADMITTED, att, multiset{}, threads, log, map[])
  }

  lemma Admits(c: Config, source: Source, action: Action) returns (before: seq<Label>, labels: seq<Label>)
    requires source.mode == Active && action.source == 0
    ensures Traced(c, before, Posted(source, action)) && Worked(before, labels)
    ensures Traced(c, labels, Working(source, action, map[], map[2 := PdActions(0, ROW, source.script)], []))
  {
    before, labels := Loads(c, source, action);
    var ready := Waiting(source, action, multiset{}, map[2 := PdAdmit(0, false, ROW, source.script)]);
    var admitted := Working(source, action, map[], map[2 := PdActions(0, ROW, source.script)], []);
    assert WithStatus(ready.deliveries, 0, Processing) == admitted.deliveries;
    assert ready.threads[2 := PdActions(0, ROW, source.script)] == admitted.threads;
    labels := Then(c, before, labels, ready, Advance(2, Ch(Ok)), admitted);
  }

  /** What the worker then reads: its one action. */
  ghost const LISTED := Ch(Ok).(listing := [0])

  lemma ListsOne(s: State)
    requires 0 in s.actions && s.actions == map[0 := s.actions[0]] && s.actions[0].source == 0 && s.actions[0].active
    ensures Lists(s.actions, 0, [0]) && Todos(s.actions, [0]) == [Todo(0, s.actions[0].transform)]
    ensures ActiveIds(s.actions, 0) == {0} == IdSet([0])
  {
  }

  /** The one worker makes its next call, which succeeds. */
  lemma Goes(c: Config, before: seq<Label>, labels: seq<Label>, s: State, ch: Choice, s': State)
    returns (more: seq<Label>)
    requires Traced(c, labels, s) && Worked(before, labels)
    requires s.threads.Keys == {2} && ch.reply == Ok && ChoiceOk(s, s.threads[2], ch)
    requires var move := Perform(c, s, s.threads[2], ch);
      s' == Apply(s, move.effect).(threads := if move.next.Some? then map[2 := move.next.value] else map[])
    ensures Traced(c, more, s') && Worked(before, more)
  {
    var move := Perform(c, s, s.threads[2], ch);
    assert Threads(s.threads, 2, move.next) == if move.next.Some? then map[2 := move.next.value] else map[];
    more := Then(c, before, labels, s, Advance(2, ch), s');
  }
}

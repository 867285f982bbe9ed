/** Why quiescent consistency asks that nobody be about to write over the status: in record mode a late write hides
    a delivery that was sent, and completed. */
module Counterexample {
  import opened Types
  import opened Machine
  import opened Engine
  import opened Runs
  import Quiescence
  import Verdict

  const SOURCE := Source(Record, None)
  const ACTION := Action(0, true, None)
  const FIRST := Key(0, 0, 1)
  const LAST := Cont.Fan([], "p", "h")

  const TRIED := map[FIRST := Attempt(AttemptPending, None)]
  const DONE := map[FIRST := Attempt(AttemptSuccess, None)]
  const SENT := [Event(FIRST, true, "p", "h")]

  ghost function At(status: DeliveryStatus, stream: multiset<Message>, threads: map<ThreadId, Pc>,
                    forced: set<DeliveryId>, admitted: set<DeliveryId>): State {
    State(map[0 := SOURCE], map[0 := ACTION], map[0 := ROW.(status := status)], map[], stream, threads,
          History({}, [], map[], forced, admitted, map[0 := 0], {}))
  }

  ghost const POSTING := INIT.(sources := map[0 := SOURCE], actions := map[0 := ACTION],
                               threads := map[1 := IgInsert(0, Record, "key", "h", "p")])

  lemma Posting(c: Config) returns (labels: seq<Label>)
    ensures Traced(c, labels, POSTING)
  {
    var s0 := INIT.(sources := map[0 := SOURCE]);
    var s1 := s0.(actions := map[0 := ACTION]);
    assert Run(c, INIT, [], INIT);
    labels := Next(c, [], INIT, PutSource(0, SOURCE), s0);
    labels := Next(c, labels, s0, PutAction(0, ACTION), s1);
    labels := Next(c, labels, s1, Post(1, 0, "key", "h", "p"), POSTING);
  }

  /** A post is stored, and a poll sees it pending before it is recorded. */
  lemma Posted(c: Config) returns (labels: seq<Label>)
    ensures Traced(c, labels, At(Pending, multiset{}, map[1 := IgRecord(0)], {}, {}))
  {
    labels := Posting(c);
    var s := At(Pending, multiset{}, map[1 := IgRecord(0)], {}, {});
    assert Perform(c, POSTING, POSTING.threads[1], POSTED) == Move(NewDelivery(0, ROW), Some(IgRecord(0)));
    labels := Performs(c, labels, POSTING, 1, POSTED, s);
  }

  const LATE := map[2 := PdRecord(0)]

  /** A poll reads the pending delivery and its source, and is about to set it to recorded. */
  lemma Polled(c: Config) returns (labels: seq<Label>)
    ensures Traced(c, labels, At(Pending, multiset{}, LATE[1 := IgRecord(0)], {}, {}))
  {
    labels := Posted(c);
    var s := At(Pending, multiset{}, map[1 := IgRecord(0)], {}, {});
    var polled := s.(threads := map[1 := IgRecord(0), 2 := PdStart(0, false)]);
    labels := Next(c, labels, s, Label.PollPending(2, 0), polled);
    labels := Reads(c, labels, polled, 2, PdSource(0, false, ROW));
    var loaded := polled.(threads := polled.threads[2 := PdSource(0, false, ROW)]);
    labels := Reads(c, labels, loaded, 2, PdRecord(0));
    assert loaded.threads[2 := PdRecord(0)] == LATE[1 := IgRecord(0)];
  }

  /** Meanwhile the delivery is recorded, and forwarded. */
  lemma Forwarding(c: Config) returns (labels: seq<Label>)
    ensures Traced(c, labels, At(Recorded, multiset{}, LATE[3 := FwReset(0)], {}, {}))
  {
    labels := Polled(c);
    var s := At(Pending, multiset{}, LATE[1 := IgRecord(0)], {}, {});
    labels := Writes(c, labels, s, 1, Recorded);
    var recorded := At(Recorded, multiset{}, LATE, {}, {});
    assert s.threads - {1} == LATE;
    assert WithStatus(s.deliveries, 0, Recorded) == recorded.deliveries;
    labels := Next(c, labels, recorded, ForwardListed(3, 0), recorded.(threads := LATE[3 := FwReset(0)]));
  }

  lemma Resetting(c: Config) returns (labels: seq<Label>)
    ensures Traced(c, labels, At(Pending, multiset{}, LATE[3 := FwPublish(0)], {}, {}))
  {
    labels := Forwarding(c);
    var s := At(Recorded, multiset{}, LATE[3 := FwReset(0)], {}, {});
    var reset := At(Pending, multiset{}, LATE[3 := FwPublish(0)], {}, {});
    assert s.threads[3 := FwPublish(0)] == reset.threads;
    assert WithStatus(s.deliveries, 0, Pending) == reset.deliveries;
    labels := Performs(c, labels, s, 3, Ch(Ok), reset);
  }

  lemma Forwarded(c: Config) returns (labels: seq<Label>)
    ensures Traced(c, labels, At(Pending, multiset{Message(0, true)}, LATE, {0}, {}))
  {
    labels := Resetting(c);
    var reset := At(Pending, multiset{}, LATE[3 := FwPublish(0)], {}, {});
    var published := At(Pending, multiset{Message(0, true)}, LATE, {0}, {});
    assert reset.threads - {3} == LATE;
    labels := Performs(c, labels, reset, 3, Ch(Ok), published);
  }

  /** The forced message is read, and admits the delivery. */
  lemma Admitting(c: Config) returns (labels: seq<Label>)
    ensures Traced(c, labels, At(Pending, multiset{}, LATE[3 := PdAdmit(0, true, ROW, None)], {0}, {}))
  {
    labels := Forwarded(c);
    var s := At(Pending, multiset{Message(0, true)}, LATE, {0}, {});
    var read := At(Pending, multiset{}, LATE[3 := PdStart(0, true)], {0}, {});
    labels := Next(c, labels, s, ReadStream(3, Message(0, true), false), read);
    labels := Reads(c, labels, read, 3, PdSource(0, true, ROW));
    var loaded := At(Pending, multiset{}, LATE[3 := PdSource(0, true, ROW)], {0}, {});
    assert read.threads[3 := PdSource(0, true, ROW)] == loaded.threads;
    labels := Reads(c, labels, loaded, 3, PdAdmit(0, true, ROW, None));
    assert loaded.threads[3 := PdAdmit(0, true, ROW, None)] == LATE[3 := PdAdmit(0, true, ROW, None)];
  }

  /** The delivery is being dispatched: these attempts and calls were made, thread 3 makes the next call, and thread 2
      is late. */
  ghost function Busy(att: map<Key, Attempt>, pc: Pc, log: seq<Event>): State {
    State(map[0 := SOURCE], map[0 := ACTION], map[0 := ADMITTED], att, multiset{}, LATE[3 := pc],
          History(att.Keys, log, map[], {0}, {0}, map[0 := 0], {}))
  }

  lemma Admitted(c: Config) returns (labels: seq<Label>)
    ensures Traced(c, labels, Busy(map[], PdActions(0, ROW, None), []))
  {
    labels := Admitting(c);
    var s := At(Pending, multiset{}, LATE[3 := PdAdmit(0, true, ROW, None)], {0}, {});
    var admitted := Busy(map[], PdActions(0, ROW, None), []);
    assert s.threads[3 := PdActions(0, ROW, None)] == admitted.threads;
    assert WithStatus(s.deliveries, 0, Processing) == admitted.deliveries;
    labels := Performs(c, labels, s, 3, Ch(Ok), admitted);
  }

  /** Thread 3 makes its next call, which succeeds. */
  lemma Goes(c: Config, labels: seq<Label>, att: map<Key, Attempt>, pc: Pc, log: seq<Event>, ch: Choice, s': State)
    returns (more: seq<Label>)
    requires Traced(c, labels, Busy(att, pc, log)) && ChoiceOk(Busy(att, pc, log), pc, ch)
    requires var move := Perform(c, Busy(att, pc, log), pc, ch);
      move.next.Some? && s' == Apply(Busy(att, pc, log), move.effect).(threads := LATE[3 := move.next.value])
    ensures Traced(c, more, s')
  {
    var s := Busy(att, pc, log);
    var next := Perform(c, s, pc, ch).next.value;
    assert s.threads[3 := next] == LATE[3 := next];
    more := Performs(c, labels, s, 3, ch, s');
  }

  lemma Listed(c: Config) returns (labels: seq<Label>)
    ensures Traced(c, labels, Busy(map[], Insert(FIRST, "p", "h", LAST), []))
  {
    labels := Admitted(c);
    var admitted := Busy(map[], PdActions(0, ROW, None), []);
    ListsOne(admitted);
    var todos := Todos(admitted.actions, [0]);
    assert todos[1..] == [];
    assert NextFan(c, 0, todos, "p", "h") == Insert(FIRST, "p", "h", LAST);
    labels := Goes(c, labels, map[], PdActions(0, ROW, None), [], LISTED,
                   Busy(map[], Insert(FIRST, "p", "h", LAST), []));
  }

  lemma Inserted(c: Config) returns (labels: seq<Label>)
    ensures Traced(c, labels, Busy(TRIED, Dispatch(FIRST, "p", "h", LAST), []))
  {
    labels := Listed(c);
    assert (map[])[FIRST := Attempt(AttemptPending, None)] == TRIED;
    labels := Goes(c, labels, map[], Insert(FIRST, "p", "h", LAST), [], Ch(Ok),
                   Busy(TRIED, Dispatch(FIRST, "p", "h", LAST), []));
  }

  /** The delivery is dispatched, with success. */
  lemma Sent(c: Config) returns (labels: seq<Label>)
    ensures Traced(c, labels, Busy(TRIED, Settle(FIRST, true, LAST), SENT))
  {
    labels := Inserted(c);
    labels := Goes(c, labels, TRIED, Dispatch(FIRST, "p", "h", LAST), [], Ch(Ok).(success := true),
                   Busy(TRIED, Settle(FIRST, true, LAST), SENT));
  }

  lemma Settled(c: Config) returns (labels: seq<Label>)
    ensures Traced(c, labels, Busy(DONE, RollDelivery(0), SENT))
  {
    labels := Sent(c);
    assert TRIED[FIRST := Attempt(AttemptSuccess, None)] == DONE;
    labels := Goes(c, labels, TRIED, Settle(FIRST, true, LAST), SENT, Ch(Ok), Busy(DONE, RollDelivery(0), SENT));
  }

  lemma Owned(c: Config) returns (labels: seq<Label>)
    ensures Traced(c, labels, Busy(DONE, RollActions(0, 0), SENT))
  {
    labels := Settled(c);
    labels := Goes(c, labels, DONE, RollDelivery(0), SENT, Ch(Ok), Busy(DONE, RollActions(0, 0), SENT));
  }

  lemma Rolling(c: Config) returns (labels: seq<Label>)
    ensures Traced(c, labels, Busy(DONE, RollAttempts(0, [0]), SENT))
  {
    labels := Owned(c);
    ListsOne(Busy(DONE, RollActions(0, 0), SENT));
    labels := Goes(c, labels, DONE, RollActions(0, 0), SENT, LISTED, Busy(DONE, RollAttempts(0, [0]), SENT));
  }

  lemma Succeeds(c: Config)
    ensures Verdict.Of(c.maxRetries, {0}, DONE, 0) == Some(Completed)
  {
    assert Verdict.IsLatest(DONE, 0, 0, 1);
    Verdict.VerdictMeaning(c.maxRetries, {0}, DONE, 0);
  }

  lemma Judged(c: Config) returns (labels: seq<Label>)
    ensures Traced(c, labels, Busy(DONE, RollWrite(0, Completed), SENT))
  {
    labels := Rolling(c);
    assert IdSet([0]) == {0};
    Succeeds(c);
    labels := Goes(c, labels, DONE, RollAttempts(0, [0]), SENT, Ch(Ok), Busy(DONE, RollWrite(0, Completed), SENT));
  }

  /** Everything is done but the late write. */
  ghost function Finished(status: DeliveryStatus, threads: map<ThreadId, Pc>): State {
    Busy(DONE, RollDelivery(0), SENT).(deliveries := map[0 := ROW.(status := status)], threads := threads)
  }

  lemma Completes(c: Config) returns (labels: seq<Label>)
    ensures Traced(c, labels, Finished(Completed, LATE))
  {
    labels := Judged(c);
    var judged := Busy(DONE, RollWrite(0, Completed), SENT);
    labels := Writes(c, labels, judged, 3, Completed);
    assert judged.threads - {3} == LATE;
    assert WithStatus(judged.deliveries, 0, Completed) == Finished(Completed, LATE).deliveries;
  }

  /** A run of a source in record mode in which every call succeeds: its delivery is forwarded, sent with success and
      completed; then one late call sets it to recorded, and nobody is left at work. */
  lemma LateWriteHidesVerdict(c: Config) returns (labels: seq<Label>, s: State, s': State)
    ensures Traced(c, labels, s) && Traced(c, labels + [Advance(2, Ch(Ok))], s') && s'.threads == map[]
    ensures 0 in s'.sources && s'.sources[0].mode == Record && ActiveIds(s'.actions, 0) == {0}
    ensures s.hist.log == s'.hist.log == [Event(FIRST, true, "p", "h")]
    ensures s.attempts == s'.attempts == map[FIRST := Attempt(AttemptSuccess, None)]
    ensures 0 in s.deliveries && s.deliveries[0].status == Completed
    ensures 0 in s'.deliveries && s'.deliveries[0].status == Recorded
    ensures Quiescence.VerdictOf(c, s', 0) == Some(Completed)
  {
    labels := Completes(c);
    s, s' := Finished(Completed, LATE), Finished(Recorded, map[]);
    assert LATE - {2} == map[];
    assert WithStatus(s.deliveries, 0, Recorded) == s'.deliveries;
    assert Enabled(c, s, Advance(2, Ch(Ok))) && Step(c, s, Advance(2, Ch(Ok))) == s';
    TraceGrows(c, labels, s, Advance(2, Ch(Ok)));
    ListsOne(s');
    Succeeds(c);
  }
}

/** What the source script decides about a delivery: to end it, or to send some content to some of the actions. */
module Decisions {
  import opened Types
  import opened Machine
  import Filter

  /** The delivery ends with a status, or its first attempts carry this content to the kept actions. */
  datatype Decision =
    | Ends(status: DeliveryStatus)
    | Goes(content: Content, kept: set<ActionId>)

  ghost function DecisionFor(c: Config, script: Option<Script>, received: Content, listing: seq<ActionId>): Decision {
    if listing == [] then Ends(Completed)
    else if !HasScript(script) then Goes(received, IdSet(listing))
    else match c.runSource(script.value, received.payload, received.headers, listing)
      case ScriptError => Ends(Failed)
      case Dropped => Ends(Completed)
      case Transformed(p, h, kept) =>
        var chosen := IdSet(kept) * IdSet(listing);
        if chosen == {} then Ends(Completed) else Goes(Content(p, h), chosen)
  }

  ghost function Acts(s: State, d: DeliveryId): set<ActionId>
    requires d in s.deliveries
  {
    ActiveIds(s.actions, s.deliveries[d].source)
  }

  /** `d` is dispatched: its source is there, and in active mode as long as `d` is pending. */
  ghost predicate Served(s: State, d: DeliveryId) {
    && d in s.deliveries
    && var row := s.deliveries[d];
       row.source in s.sources && (row.status == Pending ==> s.sources[row.source].mode == Active)
  }

  /** `decision` is what the source of `d` decides now, in whatever order its active actions are listed. */
  ghost predicate Decided(c: Config, s: State, d: DeliveryId, decision: Decision)
    requires Served(s, d)
  {
    var row := s.deliveries[d];
    forall listing :: Lists(s.actions, row.source, listing) ==>
      DecisionFor(c, s.sources[row.source].script, Received(row), listing) == decision
  }

  /** The decision sends `d` to action `a`: the script keeps `a`, whose transform does not skip. */
  ghost predicate Sends(c: Config, s: State, a: ActionId, decision: Decision)
    requires a in s.actions && decision.Goes?
  {
    a in decision.kept && TransformContent(c, s.actions[a].transform, decision.content) != Skip
  }

  // -------------------------------------------------- the program follows its decision

  /** The thread goes on to store the content that the script made, and to filter the listed actions. */
  ghost predicate GoesToPersist(next: Option<Pc>, d: DeliveryId, acts: seq<Todo>) {
    next.Some? && next.value.PdPersist? && next.value.d == d && next.value.acts == acts
  }

  /** A thread that has listed the active actions goes on as decided. */
  lemma ListsAsDecided(c: Config, s: State, pc: Pc, ch: Choice)
    requires pc.PdActions? && ch.reply == Ok && ChoiceOk(s, pc, ch)
    ensures Perform(c, s, pc, ch).effect == NoEffect
    ensures var next, decision := Perform(c, s, pc, ch).next, DecisionFor(c, pc.script, Received(pc.snap), ch.listing);
      if decision.Ends? then
        || next == Some(PdFinish(pc.d, decision.status))
        || (GoesToPersist(next, pc.d, Todos(s.actions, ch.listing)) && decision.status == Completed
            && IdSet(next.value.kept) * IdSet(ch.listing) == {})
      else if !HasScript(pc.script) then
        && decision.kept == IdSet(ch.listing)
        && next == Some(NextFan(c, pc.d, Todos(s.actions, ch.listing),
                                decision.content.payload, decision.content.headers))
      else
        && GoesToPersist(next, pc.d, Todos(s.actions, ch.listing))
        && Content(next.value.payload, next.value.headers) == decision.content
        && decision.kept == IdSet(next.value.kept) * IdSet(ch.listing) != {}
  {
  }

  lemma TodosListed(actions: map<ActionId, Action>, listing: seq<ActionId>)
    requires forall a :: a in listing ==> a in actions
    ensures forall todo :: todo in Todos(actions, listing) <==>
                           todo.id in listing && todo.transform == actions[todo.id].transform
  {
    var todos := Todos(actions, listing);
    forall todo | todo in todos
      ensures todo.id in listing && todo.transform == actions[todo.id].transform
    {
      var i :| 0 <= i < |todos| && todos[i] == todo;
    }
    forall todo: Todo | todo.id in listing && todo.transform == actions[todo.id].transform
      ensures todo in todos
    {
      var i :| 0 <= i < |listing| && listing[i] == todo.id;
      assert todos[i] == todo;
    }
  }

  /** Without a script every active action gets what was received. */
  lemma PlainDecides(c: Config, s: State, d: DeliveryId)
    requires Served(s, d) && !HasScript(s.sources[s.deliveries[d].source].script) && Acts(s, d) != {}
    ensures Decided(c, s, d, Goes(Received(s.deliveries[d]), Acts(s, d)))
  {
    var row := s.deliveries[d];
    forall listing | Lists(s.actions, row.source, listing)
      ensures DecisionFor(c, s.sources[row.source].script, Received(row), listing) == Goes(Received(row), Acts(s, d))
    {
      assert IdSet(listing) == Acts(s, d);
    }
  }

  lemma EmptyListing(listing: seq<ActionId>)
    ensures listing == [] <==> IdSet(listing) == {}
  {
    if listing != [] {
      assert listing[0] in IdSet(listing);
    }
  }

  lemma NoActionsDecides(c: Config, s: State, d: DeliveryId)
    requires Served(s, d) && Acts(s, d) == {}
    ensures Decided(c, s, d, Ends(Completed))
  {
    forall listing | Lists(s.actions, s.deliveries[d].source, listing)
      ensures listing == []
    {
      assert IdSet(listing) == {};
      EmptyListing(listing);
    }
  }

  /** The decision depends on the content received, the script of the source and its active actions. */
  lemma DecidedStays(c: Config, s: State, s': State, d: DeliveryId, decision: Decision)
    requires Served(s, d) && Decided(c, s, d, decision) && Served(s', d)
    requires SameContent(s.deliveries[d], s'.deliveries[d])
    requires s'.sources[s.deliveries[d].source] == s.sources[s.deliveries[d].source] && Acts(s', d) == Acts(s, d)
    ensures Decided(c, s', d, decision)
  {
    forall listing | Lists(s'.actions, s.deliveries[d].source, listing)
      ensures Lists(s.actions, s.deliveries[d].source, listing)
    {
    }
  }
}

/** What one `processDelivery` should do to the tables when nothing fails: the plan that the active actions and the
    source script give, carried out. */
module Plans {
  import opened Types
  import opened Machine
  import FanOut
  import Filter
  import Verdict

  /** What `processDelivery` does once it knows the actions. */
  datatype Plan =
    | Stop
    | Finish(status: DeliveryStatus)
    | FanOut(acts: seq<Todo>, payload: Json, headers: Json)
    | Persist(payload: Json, headers: Json, acts: seq<Todo>, kept: seq<ActionId>)

  /** `processDelivery` goes on: the delivery is pending, or it is recorded and the message was forced. */
  ghost predicate Admissible(deliveries: map<DeliveryId, Delivery>, d: DeliveryId, force: bool) {
    && d in deliveries
    && (deliveries[d].status == Pending || (force && deliveries[d].status == Recorded))
  }

  /** The status of `d` shows the verdict on its active actions, if there is one; no other status changed. */
  ghost predicate RolledUp(maxRetries: int, actions: map<ActionId, Action>, att: map<Key, Attempt>,
                           before: map<DeliveryId, Delivery>, after: map<DeliveryId, Delivery>, d: DeliveryId)
  {
    if d !in before then after == before
    else
      var verdict := Verdict.Of(maxRetries, ActiveIds(actions, before[d].source), att, d);
      after == if verdict.Some? then WithStatus(before, d, verdict.value) else before
  }

  /** Attempts are only added: first ones, on `d`. */
  ghost predicate OnlyFirst(before: map<Key, Attempt>, after: map<Key, Attempt>, d: DeliveryId) {
    && (forall k :: k in before ==> k in after && after[k] == before[k])
    && (forall k :: k in after && k !in before ==> k.delivery == d && k.number == 1)
  }

  /** New attempts are first attempts of `d` on these actions; the others are the same. */
  ghost predicate FirstOf(before: map<Key, Attempt>, after: map<Key, Attempt>, d: DeliveryId, acts: seq<ActionId>) {
    && (forall k :: k in before ==> k in after && after[k] == before[k])
    && (forall k :: k in after && k !in before ==> k.delivery == d && k.number == 1 && k.action in acts)
  }

  lemma FirstOfMore(before: map<Key, Attempt>, mid: map<Key, Attempt>, after: map<Key, Attempt>, d: DeliveryId,
                    done: seq<ActionId>, more: seq<ActionId>)
    requires FirstOf(before, mid, d, done) && FirstOf(mid, after, d, more)
    ensures FirstOf(before, after, d, done + more)
    ensures AllIn(mid, d, done) && AllIn(after, d, more) ==> AllIn(after, d, done + more)
  {
  }

  ghost predicate AllIn(att: map<Key, Attempt>, d: DeliveryId, acts: seq<ActionId>) {
    forall a :: a in acts ==> Key(d, a, 1) in att
  }

  /** The fan-out has tried the targets among the first `i` actions.  As with a trace, the quantifier keeps the
      definitions folded. */
  ghost predicate Fanned(c: Config, before: map<Key, Attempt>, after: map<Key, Attempt>, d: DeliveryId,
                         acts: seq<Todo>, i: nat, payload: Json, headers: Json, sure: bool)
    requires i <= |acts|
  {
    forall n: nat :: Unfold(ThePlan, n) ==>
      exists done :: FannedSoFar(c, before, after, d, acts, i, payload, headers, sure, done)
  }

  ghost predicate FannedSoFar(c: Config, before: map<Key, Attempt>, after: map<Key, Attempt>, d: DeliveryId,
                              acts: seq<Todo>, i: nat, payload: Json, headers: Json, sure: bool, done: seq<ActionId>)
    requires i <= |acts|
  {
    && FanOut.Targets(c, acts, payload, headers) == done + FanOut.Targets(c, acts[i..], payload, headers)
    && FirstOf(before, after, d, done) && (sure ==> AllIn(after, d, done))
  }

  lemma FanStarts(c: Config, att: map<Key, Attempt>, d: DeliveryId, acts: seq<Todo>, payload: Json, headers: Json,
                  sure: bool)
    ensures Fanned(c, att, att, d, acts, 0, payload, headers, sure)
  {
    assert acts[0..] == acts;
    assert FannedSoFar(c, att, att, d, acts, 0, payload, headers, sure, []);
  }

  lemma FanGoesOn(c: Config, before: map<Key, Attempt>, mid: map<Key, Attempt>, after: map<Key, Attempt>, d: DeliveryId,
                  acts: seq<Todo>, i: nat, payload: Json, headers: Json, sure: bool, target: seq<ActionId>)
    requires i < |acts| && Fanned(c, before, mid, d, acts, i, payload, headers, sure)
    requires FanOut.Targets(c, [acts[i]] + acts[i + 1..], payload, headers)
          == target + FanOut.Targets(c, acts[i + 1..], payload, headers)
    requires FirstOf(mid, after, d, target) && (sure ==> AllIn(after, d, target))
    ensures Fanned(c, before, after, d, acts, i + 1, payload, headers, sure)
  {
    assert Unfold(ThePlan, 0);
    var done :| FannedSoFar(c, before, mid, d, acts, i, payload, headers, sure, done);
    assert acts[i..] == [acts[i]] + acts[i + 1..];
    FirstOfMore(before, mid, after, d, done, target);
    assert FannedSoFar(c, before, after, d, acts, i + 1, payload, headers, sure, done + target);
  }

  lemma FanEnds(c: Config, before: map<Key, Attempt>, after: map<Key, Attempt>, d: DeliveryId, acts: seq<Todo>,
                payload: Json, headers: Json, sure: bool)
    requires Fanned(c, before, after, d, acts, |acts|, payload, headers, sure)
    ensures FirstOf(before, after, d, FanOut.Targets(c, acts, payload, headers))
    ensures sure ==> AllIn(after, d, FanOut.Targets(c, acts, payload, headers))
  {
    assert Unfold(ThePlan, 0);
    var done :| FannedSoFar(c, before, after, d, acts, |acts|, payload, headers, sure, done);
    assert done == FanOut.Targets(c, acts, payload, headers);
  }

  // -------------------------------------------------- the plan

  /** The plan for a delivery with this content, when `listing` is what the store returned. */
  ghost function PlanFor(c: Config, script: Option<Script>, actions: map<ActionId, Action>,
                         payload: Json, headers: Json, listing: seq<ActionId>): Plan
    requires forall a :: a in listing ==> a in actions
  {
    if listing == [] then Finish(Completed)
    else if !HasScript(script) then FanOut(Todos(actions, listing), payload, headers)
    else match c.runSource(script.value, payload, headers, listing)
      case ScriptError => Finish(Failed)
      case Dropped => Finish(Completed)
      case Transformed(p, h, kept) => Persist(p, h, Todos(actions, listing), kept)
  }

  /** The store may list the active actions in any order. */
  ghost predicate IsPlan(c: Config, script: Option<Script>, actions: map<ActionId, Action>, row: Delivery, plan: Plan) {
    exists listing :: Lists(actions, row.source, listing)
      && plan == PlanFor(c, script, actions, row.payload, row.headers, listing)
  }

  /** A plan writes final statuses only, and tries actions that exist. */
  ghost predicate PlanOk(actions: map<ActionId, Action>, plan: Plan) {
    match plan
    case Stop => true
    case Finish(status) => status == Completed || status == Failed
    case FanOut(acts, _, _) => forall todo :: todo in acts ==> todo.id in actions
    case Persist(_, _, acts, _) => forall todo :: todo in acts ==> todo.id in actions
  }

  lemma PlansAreOk(c: Config, script: Option<Script>, actions: map<ActionId, Action>, row: Delivery, plan: Plan)
    requires IsPlan(c, script, actions, row, plan)
    ensures PlanOk(actions, plan) && !plan.Stop?
  {
    var listing :| Lists(actions, row.source, listing)
      && plan == PlanFor(c, script, actions, row.payload, row.headers, listing);
    var todos := Todos(actions, listing);
    forall todo | todo in todos
      ensures todo.id in actions
    {
      var i :| 0 <= i < |todos| && todos[i] == todo;
      assert listing[i] in listing;
    }
  }

  /** What is left of a plan once the transformed content is stored. */
  ghost function Narrowed(plan: Plan): Plan
    requires plan.Persist?
  {
    var chosen := Filter.Kept(plan.acts, IdSet(plan.kept));
    if chosen == [] then Finish(Completed) else FanOut(chosen, plan.payload, plan.headers)
  }

  lemma {:induction false} KeptAmong(all: seq<Todo>, ids: set<ActionId>)
    ensures forall todo :: todo in Filter.Kept(all, ids) ==> todo in all
  {
    if all != [] {
      KeptAmong(all[1..], ids);
    }
  }

  lemma NarrowedOk(actions: map<ActionId, Action>, plan: Plan)
    requires PlanOk(actions, plan) && plan.Persist?
    ensures PlanOk(actions, Narrowed(plan))
  {
    KeptAmong(plan.acts, IdSet(plan.kept));
  }

  // -------------------------------------------------- carrying it out

  ghost function WithContent(deliveries: map<DeliveryId, Delivery>, d: DeliveryId, payload: Json, headers: Json)
    : map<DeliveryId, Delivery>
  {
    if d in deliveries then
      deliveries[d := deliveries[d].(transformedPayload := Some(payload), transformedHeaders := Some(headers))]
    else deliveries
  }

  /** A final status is written; or the targets have first attempts, and nothing else does, and the status of `d` is
      rolled up. */
  ghost predicate CarriedOut(c: Config, actions: map<ActionId, Action>,
                             attBefore: map<Key, Attempt>, att: map<Key, Attempt>,
                             before: map<DeliveryId, Delivery>, after: map<DeliveryId, Delivery>,
                             d: DeliveryId, plan: Plan)
  {
    match plan
    case Finish(status) => att == attBefore && after == WithStatus(before, d, status)
    case FanOut(acts, p, h) =>
      && FirstOf(attBefore, att, d, FanOut.Targets(c, acts, p, h))
      && (d in before ==> AllIn(att, d, FanOut.Targets(c, acts, p, h)))
      && RolledUp(c.maxRetries, actions, att, before, after, d)
    case _ => false
  }

  ghost predicate Outcome(c: Config, actions: map<ActionId, Action>,
                          attBefore: map<Key, Attempt>, att: map<Key, Attempt>,
                          before: map<DeliveryId, Delivery>, after: map<DeliveryId, Delivery>,
                          d: DeliveryId, plan: Plan)
  {
    if plan.Persist? then
      var stored := WithContent(before, d, plan.payload, plan.headers);
      CarriedOut(c, actions, attBefore, att, stored, after, d, Narrowed(plan))
    else CarriedOut(c, actions, attBefore, att, before, after, d, plan)
  }

  /** The outcome of some plan for this row.  As with a trace, the quantifier keeps the definition folded. */
  ghost predicate Dispatched(c: Config, script: Option<Script>, actions: map<ActionId, Action>, row: Delivery,
                             attBefore: map<Key, Attempt>, att: map<Key, Attempt>,
                             before: map<DeliveryId, Delivery>, after: map<DeliveryId, Delivery>, d: DeliveryId)
  {
    forall n: nat :: Unfold(ThePlan, n) ==>
      exists plan :: IsPlan(c, script, actions, row, plan)
        && Outcome(c, actions, attBefore, att, before, after, d, plan)
  }

  lemma DispatchedBy(c: Config, script: Option<Script>, actions: map<ActionId, Action>, row: Delivery,
                     attBefore: map<Key, Attempt>, att: map<Key, Attempt>,
                     before: map<DeliveryId, Delivery>, after: map<DeliveryId, Delivery>, d: DeliveryId, plan: Plan)
    requires IsPlan(c, script, actions, row, plan) && Outcome(c, actions, attBefore, att, before, after, d, plan)
    ensures Dispatched(c, script, actions, row, attBefore, att, before, after, d)
  {
  }

  /** An admissible delivery is set to recorded and left at that if its source records and nobody forced it;
      otherwise it is admitted and dispatched. */
  ghost predicate Processed(c: Config, source: Source, actions: map<ActionId, Action>, row: Delivery,
                            attBefore: map<Key, Attempt>, att: map<Key, Attempt>,
                            before: map<DeliveryId, Delivery>, after: map<DeliveryId, Delivery>,
                            d: DeliveryId, force: bool)
  {
    if !force && source.mode == Record then att == attBefore && after == WithStatus(before, d, Recorded)
    else
      Dispatched(c, source.script, actions, row, attBefore, att, WithStatus(before, d, Processing), after, d)
  }

  // -------------------------------------------------- what that means

  lemma {:induction false} InTargets(c: Config, todos: seq<Todo>, todo: Todo, payload: Json, headers: Json)
    requires todo in todos && Transform(c, todo.transform, payload, headers).Send?
    ensures todo.id in FanOut.Targets(c, todos, payload, headers)
  {
    if todo != todos[0] {
      InTargets(c, todos[1..], todo, payload, headers);
    }
  }

  lemma {:induction false} TargetsSend(c: Config, todos: seq<Todo>, payload: Json, headers: Json, a: ActionId)
    requires a in FanOut.Targets(c, todos, payload, headers)
    ensures exists todo :: todo in todos && todo.id == a && Transform(c, todo.transform, payload, headers).Send?
  {
    if Transform(c, todos[0].transform, payload, headers).Send? && todos[0].id == a {
      assert todos[0] in todos;
    } else {
      TargetsSend(c, todos[1..], payload, headers, a);
      var todo :| todo in todos[1..] && todo.id == a && Transform(c, todo.transform, payload, headers).Send?;
      assert todo in todos;
    }
  }

  lemma TargetsExactly(c: Config, actions: map<ActionId, Action>, listing: seq<ActionId>, payload: Json, headers: Json,
                       a: ActionId)
    requires forall x :: x in listing ==> x in actions
    ensures a in FanOut.Targets(c, Todos(actions, listing), payload, headers)
            <==> a in listing && !SkippedBy(c, actions[a].transform, payload, headers)
  {
    var todos := Todos(actions, listing);
    if a in FanOut.Targets(c, todos, payload, headers) {
      TargetsSend(c, todos, payload, headers, a);
      var todo :| todo in todos && todo.id == a && Transform(c, todo.transform, payload, headers).Send?;
      var i :| 0 <= i < |todos| && todos[i] == todo;
      assert listing[i] == a;
    }
    if a in listing && !SkippedBy(c, actions[a].transform, payload, headers) {
      var i :| 0 <= i < |listing| && listing[i] == a;
      assert todos[i] == Todo(a, actions[a].transform);
      InTargets(c, todos, todos[i], payload, headers);
    }
  }

  lemma PlanPlainly(c: Config, actions: map<ActionId, Action>, row: Delivery,
                    attBefore: map<Key, Attempt>, att: map<Key, Attempt>,
                    before: map<DeliveryId, Delivery>, after: map<DeliveryId, Delivery>,
                    d: DeliveryId, script: Option<Script>)
    returns (listing: seq<ActionId>)
    requires Dispatched(c, script, actions, row, attBefore, att, before, after, d)
    requires !HasScript(script) && d in before && before[d].source == row.source
    ensures Lists(actions, row.source, listing)
    ensures if listing == [] then att == attBefore && after == WithStatus(before, d, Completed)
            else
              var targets := FanOut.Targets(c, Todos(actions, listing), row.payload, row.headers);
              && FirstOf(attBefore, att, d, targets) && AllIn(att, d, targets)
              && RolledUp(c.maxRetries, actions, att, before, after, d)
  {
    assert Unfold(ThePlan, 0);
    var plan :| IsPlan(c, script, actions, row, plan) && Outcome(c, actions, attBefore, att, before, after, d, plan);
    listing :| Lists(actions, row.source, listing)
      && plan == PlanFor(c, script, actions, row.payload, row.headers, listing);
  }

  /** Without a source script, a dispatch leaves an attempt on exactly the active actions that do not skip the
      delivery, besides those that had one, and the rolled-up status. */
  lemma DispatchedPlainly(c: Config, actions: map<ActionId, Action>, row: Delivery,
                          attBefore: map<Key, Attempt>, att: map<Key, Attempt>,
                          before: map<DeliveryId, Delivery>, after: map<DeliveryId, Delivery>,
                          d: DeliveryId, script: Option<Script>)
    requires Dispatched(c, script, actions, row, attBefore, att, before, after, d)
    requires (script == None || script == Some("")) && d in before && before[d].source == row.source
    ensures forall a ::
              Key(d, a, 1) in att <==>
              Key(d, a, 1) in attBefore
              || (a in ActiveIds(actions, row.source)
                  && !SkippedBy(c, actions[a].transform, row.payload, row.headers))
    ensures RolledUp(c.maxRetries, actions, att, before, after, d)
  {
    var listing := PlanPlainly(c, actions, row, attBefore, att, before, after, d, script);
    if listing == [] {
      assert ActiveIds(actions, row.source) == {} by {
        assert |listing| == 0;
      }
    } else {
      FannedPlainly(c, actions, row, attBefore, att, d, listing);
    }
  }

  lemma FannedPlainly(c: Config, actions: map<ActionId, Action>, row: Delivery,
                      attBefore: map<Key, Attempt>, att: map<Key, Attempt>, d: DeliveryId, listing: seq<ActionId>)
    requires Lists(actions, row.source, listing)
    requires var targets := FanOut.Targets(c, Todos(actions, listing), row.payload, row.headers);
      FirstOf(attBefore, att, d, targets) && AllIn(att, d, targets)
    ensures forall a ::
              Key(d, a, 1) in att <==>
              Key(d, a, 1) in attBefore
              || (a in ActiveIds(actions, row.source)
                  && !SkippedBy(c, actions[a].transform, row.payload, row.headers))
  {
    forall a
      ensures a in FanOut.Targets(c, Todos(actions, listing), row.payload, row.headers)
              <==> a in ActiveIds(actions, row.source)
                   && !SkippedBy(c, actions[a].transform, row.payload, row.headers)
    {
      TargetsExactly(c, actions, listing, row.payload, row.headers, a);
    }
  }

  lemma {:induction false} KeptMembers(all: seq<Todo>, ids: set<ActionId>)
    ensures forall todo :: todo in Filter.Kept(all, ids) <==> todo in all && todo.id in ids
  {
    if all != [] {
      KeptMembers(all[1..], ids);
    }
  }

  /** The targets that a script leaves: listed, named by the script, and not skipping what the script made. */
  lemma KeptTargets(c: Config, actions: map<ActionId, Action>, listing: seq<ActionId>, kept: seq<ActionId>,
                    payload: Json, headers: Json, a: ActionId)
    requires forall x :: x in listing ==> x in actions
    ensures a in FanOut.Targets(c, Filter.Kept(Todos(actions, listing), IdSet(kept)), payload, headers)
            <==> a in listing && a in kept && !SkippedBy(c, actions[a].transform, payload, headers)
  {
    var todos := Todos(actions, listing);
    var chosen := Filter.Kept(todos, IdSet(kept));
    KeptMembers(todos, IdSet(kept));
    if a in FanOut.Targets(c, chosen, payload, headers) {
      TargetsSend(c, chosen, payload, headers, a);
      var todo :| todo in chosen && todo.id == a && Transform(c, todo.transform, payload, headers).Send?;
      var i :| 0 <= i < |todos| && todos[i] == todo;
      assert listing[i] == a;
    }
    if a in listing && a in kept && !SkippedBy(c, actions[a].transform, payload, headers) {
      var i :| 0 <= i < |listing| && listing[i] == a;
      assert todos[i] == Todo(a, actions[a].transform) && todos[i] in todos;
      InTargets(c, chosen, todos[i], payload, headers);
    }
  }

  lemma ChosenNone(actions: map<ActionId, Action>, listing: seq<ActionId>, kept: seq<ActionId>)
    requires forall x :: x in listing ==> x in actions
    ensures Filter.Kept(Todos(actions, listing), IdSet(kept)) == [] <==> forall a :: a in listing ==> a !in kept
  {
    var todos := Todos(actions, listing);
    var chosen := Filter.Kept(todos, IdSet(kept));
    KeptMembers(todos, IdSet(kept));
    if chosen != [] {
      var i :| 0 <= i < |todos| && todos[i] == chosen[0];
      assert chosen[0] in chosen && listing[i] in kept;
    }
    forall a | a in listing && a in kept
      ensures chosen != []
    {
      var i :| 0 <= i < |listing| && listing[i] == a;
      assert todos[i] in todos && todos[i].id in IdSet(kept);
      assert todos[i] in chosen;
    }
  }

  /** What a script that transforms the delivery leaves: its content in the columns; attempts on exactly the active
      actions that it named and that do not skip, besides those that had one; and the delivery completed if it named
      no active action, or else the rolled-up status. */
  ghost predicate Narrows(c: Config, actions: map<ActionId, Action>, source: SourceId,
                          attBefore: map<Key, Attempt>, att: map<Key, Attempt>,
                          before: map<DeliveryId, Delivery>, after: map<DeliveryId, Delivery>, d: DeliveryId,
                          p: Json, h: Json, kept: seq<ActionId>)
  {
    && d in after && after[d].transformedPayload == Some(p) && after[d].transformedHeaders == Some(h)
    && (forall a ::
          Key(d, a, 1) in att <==>
          Key(d, a, 1) in attBefore
          || (a in ActiveIds(actions, source) && a in kept && !SkippedBy(c, actions[a].transform, p, h)))
    && if forall a :: a in ActiveIds(actions, source) ==> a !in kept then after[d].status == Completed
       else RolledUp(c.maxRetries, actions, att, WithContent(before, d, p, h), after, d)
  }

  lemma NarrowedNarrows(c: Config, actions: map<ActionId, Action>, source: SourceId, listing: seq<ActionId>,
                        attBefore: map<Key, Attempt>, att: map<Key, Attempt>,
                        before: map<DeliveryId, Delivery>, after: map<DeliveryId, Delivery>, d: DeliveryId,
                        p: Json, h: Json, kept: seq<ActionId>)
    requires Lists(actions, source, listing) && d in before
    requires CarriedOut(c, actions, attBefore, att, WithContent(before, d, p, h), after, d,
                        Narrowed(Persist(p, h, Todos(actions, listing), kept)))
    ensures Narrows(c, actions, source, attBefore, att, before, after, d, p, h, kept)
  {
    ChosenNone(actions, listing, kept);
    forall a
      ensures a in FanOut.Targets(c, Filter.Kept(Todos(actions, listing), IdSet(kept)), p, h)
              <==> a in ActiveIds(actions, source) && a in kept && !SkippedBy(c, actions[a].transform, p, h)
    {
      KeptTargets(c, actions, listing, kept, p, h, a);
    }
    if exists a :: a in ActiveIds(actions, source) && a in kept {
      var a :| a in ActiveIds(actions, source) && a in kept;
      assert a in listing;
    }
  }

  /** With a source script, a dispatch ends as the script says, for the listing that it was given. */
  lemma DispatchedScripted(c: Config, script: Option<Script>, actions: map<ActionId, Action>, row: Delivery,
                           attBefore: map<Key, Attempt>, att: map<Key, Attempt>,
                           before: map<DeliveryId, Delivery>, after: map<DeliveryId, Delivery>, d: DeliveryId)
    returns (listing: seq<ActionId>)
    requires Dispatched(c, script, actions, row, attBefore, att, before, after, d)
    requires script.Some? && script.value != "" && d in before
    ensures Lists(actions, row.source, listing)
    ensures listing == [] ==> att == attBefore && after == WithStatus(before, d, Completed)
    ensures listing != [] ==>
              match c.runSource(script.value, row.payload, row.headers, listing)
              case ScriptError => att == attBefore && after == WithStatus(before, d, Failed)
              case Dropped => att == attBefore && after == WithStatus(before, d, Completed)
              case Transformed(p, h, kept) =>
                Narrows(c, actions, row.source, attBefore, att, before, after, d, p, h, kept)
  {
    assert Unfold(ThePlan, 0);
    var plan :| IsPlan(c, script, actions, row, plan) && Outcome(c, actions, attBefore, att, before, after, d, plan);
    listing :| Lists(actions, row.source, listing)
      && plan == PlanFor(c, script, actions, row.payload, row.headers, listing);
    if plan.Persist? {
      NarrowedNarrows(c, actions, row.source, listing, attBefore, att, before, after, d,
                      plan.payload, plan.headers, plan.kept);
    }
  }
}

/** Which actions one `processDelivery` makes a first attempt on. */
module FanOut {
  import opened Types
  import opened Machine
  import opened Filter

  /** The todos whose transform does not skip. */
  ghost function Targets(c: Config, todos: seq<Todo>, payload: Json, headers: Json): seq<ActionId> {
    if todos == [] then []
    else
      var first := if Transform(c, todos[0].transform, payload, headers).Skip? then [] else [todos[0].id];
      first + Targets(c, todos[1..], payload, headers)
  }

  /** The todos at these positions, in increasing order, are the ones whose own transform does not skip. */
  ghost predicate Unskipped(c: Config, todos: seq<Todo>, payload: Json, headers: Json, at: seq<nat>) {
    && (forall i, j :: 0 <= i < j < |at| ==> at[i] < at[j])
    && (forall i :: 0 <= i < |at| ==> at[i] < |todos|)
    && (forall p: nat :: p < |todos| ==> (p in at <==> !SkippedBy(c, todos[p].transform, payload, headers)))
  }

  /** The targets stand in the order of the todos. */
  lemma {:induction false} TargetsInOrder(c: Config, todos: seq<Todo>, payload: Json, headers: Json)
    returns (at: seq<nat>)
    ensures Unskipped(c, todos, payload, headers, at)
    ensures |at| == |Targets(c, todos, payload, headers)|
    ensures forall i :: 0 <= i < |at| ==> Targets(c, todos, payload, headers)[i] == todos[at[i]].id
  {
    if todos == [] {
      at := [];
    } else {
      var rest := TargetsInOrder(c, todos[1..], payload, headers);
      var shifted := seq(|rest|, i requires 0 <= i < |rest| => rest[i] + 1);
      at := if SkippedBy(c, todos[0].transform, payload, headers) then shifted else [0] + shifted;
      Shifts(c, todos, payload, headers, rest, shifted, at);
      Shows(todos, rest, shifted, Targets(c, todos[1..], payload, headers));
    }
  }

  lemma Shows(todos: seq<Todo>, rest: seq<nat>, shifted: seq<nat>, targets: seq<ActionId>)
    requires todos != [] && |shifted| == |rest| == |targets|
    requires forall i :: 0 <= i < |rest| ==> shifted[i] == rest[i] + 1
    requires forall i :: 0 <= i < |rest| ==> rest[i] < |todos[1..]| && targets[i] == todos[1..][rest[i]].id
    ensures forall i :: 0 <= i < |rest| ==> targets[i] == todos[shifted[i]].id
    ensures forall i :: 0 <= i < |rest| + 1 ==>
              ([todos[0].id] + targets)[i] == todos[([0] + shifted)[i]].id
  {
  }

  lemma Shifts(c: Config, todos: seq<Todo>, payload: Json, headers: Json, rest: seq<nat>, shifted: seq<nat>,
               at: seq<nat>)
    requires todos != [] && Unskipped(c, todos[1..], payload, headers, rest) && |shifted| == |rest|
    requires forall i :: 0 <= i < |rest| ==> shifted[i] == rest[i] + 1
    requires at == if SkippedBy(c, todos[0].transform, payload, headers) then shifted else [0] + shifted
    ensures Unskipped(c, todos, payload, headers, at)
  {
    forall p: nat | p < |todos|
      ensures p in at <==> !SkippedBy(c, todos[p].transform, payload, headers)
    {
      if p > 0 {
        assert todos[1..][p - 1] == todos[p];
        if p - 1 in rest {
          var i :| 0 <= i < |rest| && rest[i] == p - 1;
          assert shifted[i] == p;
        }
      }
    }
  }

  ghost function RestLength(pc: Pc): nat {
    if pc.Insert? && pc.k.Fan? then 1 + |pc.k.rest| else 0
  }

  lemma {:induction false} NextFanShrinks(c: Config, d: DeliveryId, rest: seq<Todo>, payload: Json, headers: Json)
    ensures RestLength(NextFan(c, d, rest, payload, headers)) <= |rest|
    decreases |rest|
  {
    if rest != [] && Transform(c, rest[0].transform, payload, headers).Skip? {
      NextFanShrinks(c, d, rest[1..], payload, headers);
    }
  }

  /** The actions whose first attempt a thread at `pc` is still going to insert, in order. */
  ghost function FirstAttempts(c: Config, pc: Pc): seq<ActionId>
    decreases RestLength(pc)
  {
    if pc.Insert? && pc.k.Fan? then
      NextFanShrinks(c, pc.key.delivery, pc.k.rest, pc.k.payload, pc.k.headers);
      [pc.key.action] + FirstAttempts(c, Resume(c, pc.key.delivery, pc.k))
    else []
  }

  /** The fan-out goes through the actions that do not skip, in order, one first attempt each. */
  lemma {:induction false} FanVisitsTargets(c: Config, d: DeliveryId, todos: seq<Todo>, payload: Json, headers: Json)
    ensures FirstAttempts(c, NextFan(c, d, todos, payload, headers)) == Targets(c, todos, payload, headers)
    decreases |todos|
  {
    if todos != [] {
      FanVisitsTargets(c, d, todos[1..], payload, headers);
    }
  }

  /** After a source script, first attempts go to the active actions that the script kept and whose own
      transform does not skip, whatever IDs the script named, and to no others. */
  lemma ScriptNarrows(c: Config, d: DeliveryId, payload: Json, headers: Json, acts: seq<Todo>, kept: seq<ActionId>)
    ensures FirstAttempts(c, AfterPersist(c, d, payload, headers, acts, kept))
         == Targets(c, Kept(acts, IdSet(kept)), payload, headers)
  {
    FanVisitsTargets(c, d, Kept(acts, IdSet(kept)), payload, headers);
    if kept == [] {
      KeptNone(acts, IdSet(kept));
    }
  }
}

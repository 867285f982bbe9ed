/** Source scripts choose actions by ID; the choice only narrows the active list. */
module Filter {
  import opened Types

  /** The todos of `all` whose IDs are in `ids`, in order. */
  function Kept(all: seq<Todo>, ids: set<ActionId>): seq<Todo> {
    if all == [] then []
    else (if all[0].id in ids then [all[0]] else []) + Kept(all[1..], ids)
  }

  /** The kept todos, in order and as often as they occur: the method the fan-out calls. */
  method FilterActions(all: seq<Todo>, kept: seq<ActionId>) returns (filtered: seq<Todo>)
    ensures filtered == Kept(all, IdSet(kept))
  {
    var keptIds: set<ActionId> := {};
    for i := 0 to |kept|
      invariant keptIds == IdSet(kept[..i])
    {
      keptIds := keptIds + {kept[i]};
    }
    assert kept[..|kept|] == kept;
    filtered := [];
    for i := 0 to |all|
      invariant filtered == Kept(all[..i], keptIds)
    {
      KeptAppend(all[..i], all[i], keptIds);
      assert all[..i + 1] == all[..i] + [all[i]];
      if all[i].id in keptIds {
        filtered := filtered + [all[i]];
      }
    }
    assert all[..|all|] == all;
  }

  lemma {:induction false} KeptAppend(all: seq<Todo>, todo: Todo, ids: set<ActionId>)
    ensures Kept(all + [todo], ids) == Kept(all, ids) + (if todo.id in ids then [todo] else [])
  {
    if all != [] {
      KeptAppend(all[1..], todo, ids);
      assert (all + [todo])[1..] == all[1..] + [todo];
    }
  }

  lemma {:induction false} KeptNone(all: seq<Todo>, ids: set<ActionId>)
    requires forall todo :: todo in all ==> todo.id !in ids
    ensures Kept(all, ids) == []
  {
    if all != [] {
      KeptNone(all[1..], ids);
    }
  }

  lemma {:induction false} KeptAll(all: seq<Todo>, ids: set<ActionId>)
    requires forall todo :: todo in all ==> todo.id in ids
    ensures Kept(all, ids) == all
  {
    if all != [] {
      KeptAll(all[1..], ids);
    }
  }

  /** `at` lists the positions of `all` whose IDs are in `ids`, in increasing order. */
  ghost predicate Picks(all: seq<Todo>, ids: set<ActionId>, at: seq<nat>) {
    && (forall i, j :: 0 <= i < j < |at| ==> at[i] < at[j])
    && (forall i :: 0 <= i < |at| ==> at[i] < |all| && all[at[i]].id in ids)
    && (forall p: nat :: p < |all| && all[p].id in ids ==> p in at)
  }

  lemma PicksAppend(all: seq<Todo>, todo: Todo, ids: set<ActionId>, at: seq<nat>)
    requires Picks(all, ids, at)
    ensures Picks(all + [todo], ids, if todo.id in ids then at + [|all|] else at)
  {
    var at' := if todo.id in ids then at + [|all|] else at;
    forall p: nat | p < |all + [todo]| && (all + [todo])[p].id in ids
      ensures p in at'
    {
      if p < |all| {
        assert p in at;
      } else {
        assert at'[|at|] == p;
      }
    }
  }

  ghost predicate Shows(all: seq<Todo>, at: seq<nat>, kept: seq<Todo>) {
    |at| == |kept| && forall i :: 0 <= i < |at| ==> at[i] < |all| && kept[i] == all[at[i]]
  }

  lemma ShowsAppend(all: seq<Todo>, todo: Todo, at: seq<nat>, kept: seq<Todo>)
    requires Shows(all, at, kept)
    ensures Shows(all + [todo], at, kept) && Shows(all + [todo], at + [|all|], kept + [todo])
  {
  }

  /** Whatever the script returned, filtering picks exactly the positions whose IDs it named, in their order. */
  lemma {:induction false} KeptExactly(all: seq<Todo>, ids: set<ActionId>) returns (at: seq<nat>)
    ensures Picks(all, ids, at) && Shows(all, at, Kept(all, ids))
  {
    if all == [] {
      at := [];
    } else {
      var init, todo := all[..|all| - 1], all[|all| - 1];
      var picked := KeptExactly(init, ids);
      assert init + [todo] == all;
      KeptAppend(init, todo, ids);
      PicksAppend(init, todo, ids, picked);
      ShowsAppend(init, todo, picked, Kept(init, ids));
      at := if todo.id in ids then picked + [|init|] else picked;
    }
  }
}

/** Why retrying ends: each retry uses up some of the retries that are still scheduled. */
module Measure {
  import opened Types

  type Attempts = map<Key, Attempt>

  /** How many retries a row still stands for. */
  ghost function Left(maxRetries: int, att: Attempts, k: Key): nat {
    if k in att && att[k].nextRetryAt.Some? && k.number < maxRetries then maxRetries - k.number else 0
  }

  ghost function Weight(maxRetries: int, att: Attempts, keys: set<Key>): nat {
    if keys == {} then 0
    else
      var k :| k in keys;
      Left(maxRetries, att, k) + Weight(maxRetries, att, keys - {k})
  }

  /** The retries that all scheduled attempts stand for. */
  ghost function RetriesLeft(maxRetries: int, att: Attempts): nat {
    Weight(maxRetries, att, att.Keys)
  }

  lemma {:induction false} WeightSplit(maxRetries: int, att: Attempts, keys: set<Key>, k: Key)
    requires k in keys
    ensures Weight(maxRetries, att, keys) == Left(maxRetries, att, k) + Weight(maxRetries, att, keys - {k})
    decreases keys
  {
    var x :| x in keys && Weight(maxRetries, att, keys)
      == Left(maxRetries, att, x) + Weight(maxRetries, att, keys - {x});
    if x != k {
      WeightSplit(maxRetries, att, keys - {x}, k);
      WeightSplit(maxRetries, att, keys - {k}, x);
      assert keys - {x} - {k} == keys - {k} - {x};
    }
  }

  lemma {:induction false} WeightSame(maxRetries: int, att: Attempts, att': Attempts, keys: set<Key>)
    requires forall k :: k in keys ==> Left(maxRetries, att, k) == Left(maxRetries, att', k)
    ensures Weight(maxRetries, att, keys) == Weight(maxRetries, att', keys)
    decreases keys
  {
    if keys != {} {
      var k :| k in keys;
      WeightSame(maxRetries, att, att', keys - {k});
      WeightSplit(maxRetries, att, keys, k);
      WeightSplit(maxRetries, att', keys, k);
    }
  }

  lemma WeightOver(maxRetries: int, att: Attempts, keys: set<Key>, k: Key)
    requires k !in att
    ensures Weight(maxRetries, att, keys + {k}) == Weight(maxRetries, att, keys)
  {
    if k in keys {
      assert keys + {k} == keys;
    } else {
      WeightSplit(maxRetries, att, keys + {k}, k);
      assert keys + {k} - {k} == keys;
    }
  }

  /** What one retry does to the attempts: `prev` is cleared, and its successor may be new. */
  ghost predicate Retried(maxRetries: int, before: Attempts, after: Attempts, prev: Key) {
    && prev in before && prev in after && after[prev] == Attempt(AttemptFailed, None)
    && (forall k :: k != prev && k != Succ(prev) ==>
          (k in before <==> k in after) && (k in before ==> after[k] == before[k]))
    && (Succ(prev) in before ==> Succ(prev) in after && after[Succ(prev)] == before[Succ(prev)])
  }

  /** A retry leaves strictly fewer retries to come, whether it skips, fails or succeeds. */
  lemma RetryUsesUp(maxRetries: int, before: Attempts, after: Attempts, prev: Key)
    requires Retried(maxRetries, before, after, prev)
    requires before[prev].nextRetryAt.Some? && prev.number < maxRetries
    ensures RetriesLeft(maxRetries, after) < RetriesLeft(maxRetries, before)
  {
    var next := Succ(prev);
    var all := before.Keys + {next};
    assert after.Keys == before.Keys || after.Keys == all;
    if next !in before {
      WeightOver(maxRetries, before, before.Keys, next);
    } else {
      assert all == before.Keys;
    }
    if next !in after {
      WeightOver(maxRetries, after, after.Keys, next);
      assert after.Keys + {next} == all;
    } else {
      assert after.Keys == all;
    }
    var rest := all - {prev} - {next};
    WeightSplit(maxRetries, before, all, prev);
    WeightSplit(maxRetries, before, all - {prev}, next);
    WeightSplit(maxRetries, after, all, prev);
    WeightSplit(maxRetries, after, all - {prev}, next);
    WeightSame(maxRetries, before, after, rest);
  }

  /** Nothing scheduled, nothing left. */
  lemma NothingLeft(maxRetries: int, att: Attempts)
    requires forall k :: k in att && att[k].nextRetryAt.Some? ==> k.number < maxRetries
    ensures RetriesLeft(maxRetries, att) == 0 <==> forall k :: k in att ==> att[k].nextRetryAt == None
  {
    if exists k :: k in att && att[k].nextRetryAt != None {
      var k :| k in att && att[k].nextRetryAt != None;
      WeightSplit(maxRetries, att, att.Keys, k);
    } else {
      AllZero(maxRetries, att, att.Keys);
    }
  }

  lemma {:induction false} AllZero(maxRetries: int, att: Attempts, keys: set<Key>)
    requires forall k :: k in keys ==> Left(maxRetries, att, k) == 0
    ensures Weight(maxRetries, att, keys) == 0
    decreases keys
  {
    if keys != {} {
      var k :| k in keys;
      AllZero(maxRetries, att, keys - {k});
      WeightSplit(maxRetries, att, keys, k);
    }
  }
}

/** The roll-up: what the attempts of a delivery say about the delivery as a whole. */
module Verdict {
  import opened Types

  type Attempts = map<Key, Attempt>

  ghost predicate IsLatest(att: Attempts, d: DeliveryId, a: ActionId, n: int) {
    Key(d, a, n) in att && forall m :: Key(d, a, m) in att ==> m <= n
  }

  ghost predicate Succeeded(att: Attempts, d: DeliveryId, a: ActionId) {
    exists n :: IsLatest(att, d, a, n) && att[Key(d, a, n)].status == AttemptSuccess
  }

  ghost predicate Exhausted(maxRetries: int, att: Attempts, d: DeliveryId, a: ActionId) {
    exists n :: IsLatest(att, d, a, n) && att[Key(d, a, n)].status == AttemptFailed && n >= maxRetries
  }

  ghost predicate Terminal(maxRetries: int, att: Attempts, d: DeliveryId, a: ActionId) {
    Succeeded(att, d, a) || Exhausted(maxRetries, att, d, a)
  }

  /** The status a delivery deserves: none while some action is still in progress. */
  ghost function Of(maxRetries: int, acts: set<ActionId>, att: Attempts, d: DeliveryId): Option<DeliveryStatus> {
    if exists a :: a in acts && !Terminal(maxRetries, att, d, a) then None
    else if exists a :: a in acts && Exhausted(maxRetries, att, d, a) then Some(Failed)
    else Some(Completed)
  }

  // -------------------------------------------------- the loop that computes it

  /** `rows` are the attempts of `d`, in any order. */
  ghost predicate RowsOf(att: Attempts, d: DeliveryId, rows: seq<AttemptRow>) {
    && (forall i :: 0 <= i < |rows| ==>
          rows[i].key in att && rows[i].key.delivery == d && att[rows[i].key] == rows[i].attempt)
    && (forall k :: k in att && k.delivery == d ==> exists i :: 0 <= i < |rows| && rows[i].key == k)
  }

  /** The highest-numbered attempt of each action, whatever order the rows come in. */
  method LatestAttempts(rows: seq<AttemptRow>) returns (latest: map<ActionId, AttemptRow>)
    ensures forall a :: a in latest ==> latest[a] in rows && latest[a].key.action == a
    ensures forall row :: row in rows ==>
              row.key.action in latest && row.key.number <= latest[row.key.action].key.number
  {
    latest := map[];
    for i := 0 to |rows|
      invariant forall a :: a in latest ==> latest[a] in rows[..i] && latest[a].key.action == a
      invariant forall j :: 0 <= j < i ==>
                  rows[j].key.action in latest && rows[j].key.number <= latest[rows[j].key.action].key.number
    {
      var row := rows[i];
      if row.key.action !in latest || row.key.number > latest[row.key.action].key.number {
        latest := latest[row.key.action := row];
      }
    }
  }

  lemma LatestMeans(att: Attempts, d: DeliveryId, rows: seq<AttemptRow>, latest: map<ActionId, AttemptRow>, a: ActionId)
    requires RowsOf(att, d, rows)
    requires forall x :: x in latest ==> latest[x] in rows && latest[x].key.action == x
    requires forall row :: row in rows ==>
               row.key.action in latest && row.key.number <= latest[row.key.action].key.number
    ensures a in latest ==>
              IsLatest(att, d, a, latest[a].key.number) && att[Key(d, a, latest[a].key.number)] == latest[a].attempt
    ensures a !in latest ==> forall n :: !IsLatest(att, d, a, n)
  {
    forall m | Key(d, a, m) in att
      ensures a in latest && m <= latest[a].key.number
    {
      var i :| 0 <= i < |rows| && rows[i].key == Key(d, a, m);
      assert rows[i] in rows;
    }
    if a in latest {
      var i :| 0 <= i < |rows| && rows[i] == latest[a];
      assert rows[i].key == Key(d, a, latest[a].key.number);
    }
  }

  /** The roll-up: none as soon as an action has no attempt, or its latest one is pending or may be retried. */
  method RollUp(maxRetries: int, acts: seq<ActionId>, rows: seq<AttemptRow>, ghost att: Attempts, ghost d: DeliveryId)
    returns (verdict: Option<DeliveryStatus>)
    requires RowsOf(att, d, rows)
    ensures verdict == Of(maxRetries, IdSet(acts), att, d)
  {
    var latest := LatestAttempts(rows);
    var anyFailed := false;
    for i := 0 to |acts|
      invariant forall j :: 0 <= j < i ==> Terminal(maxRetries, att, d, acts[j])
      invariant anyFailed <==> exists j :: 0 <= j < i && Exhausted(maxRetries, att, d, acts[j])
    {
      var a := acts[i];
      LatestMeans(att, d, rows, latest, a);
      assert a in IdSet(acts);
      if a !in latest {
        return None;
      }
      var row := latest[a];
      match row.attempt.status {
        case AttemptSuccess =>
        case AttemptFailed =>
          if row.key.number >= maxRetries {
            anyFailed := true;
          } else {
            return None;
          }
        case AttemptPending => return None;
      }
    }
    verdict := Some(if anyFailed then Failed else Completed);
  }

  /** What the roll-up decides, from the attempts alone. */
  lemma VerdictMeaning(maxRetries: int, acts: set<ActionId>, att: Attempts, d: DeliveryId)
    ensures var v := Of(maxRetries, acts, att, d);
      && (v == None <==> exists a :: a in acts && !Terminal(maxRetries, att, d, a))
      && (v == Some(Completed) <==> forall a :: a in acts ==> Succeeded(att, d, a))
      && (v == Some(Failed) <==>
            (forall a :: a in acts ==> Terminal(maxRetries, att, d, a))
            && (exists a :: a in acts && Exhausted(maxRetries, att, d, a)))
      && ((exists a :: a in acts && forall n :: Key(d, a, n) !in att) ==> v == None)
  {
    forall a | a in acts && Succeeded(att, d, a)
      ensures !Exhausted(maxRetries, att, d, a)
    {
    }
  }

  /** When an action is done: its last attempt succeeded, or failed with no retries left. */
  lemma TerminalMeaning(maxRetries: int, att: Attempts, d: DeliveryId, a: ActionId, last: int)
    requires Key(d, a, last) in att && forall n :: Key(d, a, n) in att ==> n <= last
    ensures Succeeded(att, d, a) <==> att[Key(d, a, last)].status == AttemptSuccess
    ensures Exhausted(maxRetries, att, d, a) <==> att[Key(d, a, last)].status == AttemptFailed && last >= maxRetries
    ensures Terminal(maxRetries, att, d, a) <==>
            att[Key(d, a, last)].status == AttemptSuccess
            || (att[Key(d, a, last)].status == AttemptFailed && last >= maxRetries)
  {
    assert IsLatest(att, d, a, last);
    forall n | IsLatest(att, d, a, n)
      ensures n == last
    {
    }
  }
}

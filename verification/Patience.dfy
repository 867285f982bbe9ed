/** Ordered, limited queries, and how long the oldest rows can wait for them. */
module Patience {
  import opened Types

  /** The earliest rows, at most `limit` of them, in order; ties come in any order. */
  ghost predicate IsPage<K(!new)>(times: map<K, int>, page: seq<K>, limit: nat) {
    && |page| <= limit
    && (forall i :: 0 <= i < |page| ==> page[i] in times)
    && (forall i, j :: 0 <= i < j < |page| ==> page[i] != page[j] && times[page[i]] <= times[page[j]])
    && (forall k, i :: k in times && k !in page && 0 <= i < |page| ==> times[page[i]] <= times[k])
    && (|page| < limit ==> forall k :: k in times ==> k in page)
  }

  ghost function Members<K(!new)>(page: seq<K>): set<K> {
    set k | k in page
  }

  method Earliest<K(==, !new)>(times: map<K, int>, among: set<K>) returns (first: K)
    requires among <= times.Keys && among != {}
    ensures first in among && forall k :: k in among ==> times[first] <= times[k]
  {
    first :| first in among;
    var left := among - {first};
    while left != {}
      invariant left <= among && first in among
      invariant forall k :: k in among && k !in left ==> times[first] <= times[k]
      decreases |left|
    {
      var k :| k in left;
      if times[k] < times[first] {
        first := k;
      }
      left := left - {k};
    }
  }

  /** `ORDER BY time LIMIT limit`. */
  method Page<K(==, !new)>(times: map<K, int>, limit: nat) returns (page: seq<K>)
    ensures IsPage(times, page, limit)
  {
    page := [];
    var left := times.Keys;
    while left != {} && |page| < limit
      invariant |page| <= limit && left <= times.Keys
      invariant forall k :: k in times ==> (k in left <==> k !in page)
      invariant forall i :: 0 <= i < |page| ==> page[i] in times
      invariant forall i, j :: 0 <= i < j < |page| ==> page[i] != page[j] && times[page[i]] <= times[page[j]]
      invariant forall k, i :: k in left && 0 <= i < |page| ==> times[page[i]] <= times[k]
      decreases |left|
    {
      var k := Earliest(times, left);
      left, page := left - {k}, page + [k];
    }
  }

  // -------------------------------------------------- bounded waiting

  /** The pending deliveries and when they were received. */
  type Queue = map<DeliveryId, int>

  function PendingOf(deliveries: map<DeliveryId, Delivery>): Queue {
    map d | d in deliveries && deliveries[d].status == Pending :: deliveries[d].receivedAt
  }

  const LIMIT := 100

  /** A poll tick takes a page off the queue. */
  ghost predicate Tick(before: Queue, after: Queue) {
    exists page: seq<DeliveryId> :: IsPage(before, page, LIMIT) && after == before - Members(page)
  }

  /** From one table of deliveries to a later one: rows stay, and what becomes pending was received after `d`. */
  ghost predicate Onward(before: map<DeliveryId, Delivery>, after: map<DeliveryId, Delivery>, d: DeliveryId)
    requires d in before
  {
    && before.Keys <= after.Keys
    && (forall e :: e in before ==> after[e].receivedAt == before[e].receivedAt)
    && (forall e :: e in after && after[e].status == Pending ==>
          (e in before && before[e].status == Pending) || after[e].receivedAt > before[d].receivedAt)
  }

  lemma OnwardTwice(before: map<DeliveryId, Delivery>, mid: map<DeliveryId, Delivery>,
                    after: map<DeliveryId, Delivery>, d: DeliveryId)
    requires d in before && Onward(before, mid, d) && Onward(mid, after, d)
    ensures Onward(before, after, d)
  {
  }

  /** Received no later than `d`, and pending: what may be served before `d`. */
  ghost function Ahead(q: Queue, d: DeliveryId): set<DeliveryId>
    requires d in q
  {
    set e | e in q && e != d && q[e] <= q[d]
  }

  /** A delivery that still waits was waiting before, and no more are ahead of it. */
  lemma OnwardShrinks(before: map<DeliveryId, Delivery>, after: map<DeliveryId, Delivery>, d: DeliveryId)
    requires d in before && Onward(before, after, d) && d in PendingOf(after)
    ensures d in PendingOf(before) && |Ahead(PendingOf(after), d)| <= |Ahead(PendingOf(before), d)|
  {
    SubsetSize(Ahead(PendingOf(after), d), Ahead(PendingOf(before), d));
  }

  lemma {:induction false} PageSize<K(!new)>(page: seq<K>)
    requires forall i, j :: 0 <= i < j < |page| ==> page[i] != page[j]
    ensures |Members(page)| == |page|
  {
    if page == [] {
    } else {
      var init, last := page[..|page| - 1], page[|page| - 1];
      PageSize(init);
      assert page == init + [last];
      assert Members(page) == Members(init) + {last};
    }
  }

  /** A tick that does not serve `d` serves a full page from ahead of it. */
  lemma TickServes(before: Queue, after: Queue, d: DeliveryId)
    requires Tick(before, after) && d in after
    ensures d in before && |Ahead(after, d)| + LIMIT <= |Ahead(before, d)|
  {
    var page: seq<DeliveryId> :| IsPage(before, page, LIMIT) && after == before - Members(page);
    var served := Members(page);
    assert d !in served && d in before;
    PageSize(page);
    forall e | e in served + Ahead(after, d)
      ensures e in Ahead(before, d)
    {
      if e in served {
        var i :| 0 <= i < |page| && page[i] == e;
        assert before[page[i]] <= before[d];
      }
    }
    assert served !! Ahead(after, d);
    assert |served + Ahead(after, d)| == |served| + |Ahead(after, d)|;
    SubsetSize(served + Ahead(after, d), Ahead(before, d));
  }

  type History = seq<map<DeliveryId, Delivery>>

  /** How many steps of the history are poll ticks, of whichever replica. */
  ghost function Ticks(history: History): nat {
    if |history| <= 1 then 0
    else
      var n := |history|;
      Ticks(history[..n - 1]) + (if Tick(PendingOf(history[n - 2]), PendingOf(history[n - 1])) then 1 else 0)
  }

  ghost predicate TickAt(history: History, i: int) {
    0 <= i < |history| - 1 && Tick(PendingOf(history[i]), PendingOf(history[i + 1]))
  }

  /** The steps that are poll ticks. */
  ghost function TickSteps(history: History): set<int> {
    set i | 0 <= i < |history| && TickAt(history, i)
  }

  lemma SameTick(history: History, i: int)
    requires |history| > 1
    ensures TickAt(history[..|history| - 1], i) <==> i != |history| - 2 && TickAt(history, i)
  {
    if 0 <= i < |history| - 2 {
      assert history[..|history| - 1][i] == history[i] && history[..|history| - 1][i + 1] == history[i + 1];
    }
  }

  lemma MoreTicks(history: History)
    requires |history| > 1
    ensures |TickSteps(history)|
         == |TickSteps(history[..|history| - 1])| + if TickAt(history, |history| - 2) then 1 else 0
  {
    var before, last := TickSteps(history[..|history| - 1]), |history| - 2;
    var more := if TickAt(history, last) then {last} else {};
    forall i
      ensures i in TickSteps(history) <==> i in before + more
    {
      SameTick(history, i);
    }
    assert TickSteps(history) == before + more;
    SameTick(history, last);
  }

  lemma {:induction false} TicksCounted(history: History)
    ensures Ticks(history) == |TickSteps(history)|
  {
    if |history| <= 1 {
      assert TickSteps(history) == {};
    } else {
      TicksCounted(history[..|history| - 1]);
      MoreTicks(history);
    }
  }

  ghost predicate OnwardAll(history: History, d: DeliveryId) {
    && (forall i :: 0 <= i < |history| ==> d in history[i])
    && (forall i :: 0 <= i < |history| - 1 ==> Onward(history[i], history[i + 1], d))
  }

  lemma {:induction false} StillWaiting(history: History, d: DeliveryId)
    requires history != [] && OnwardAll(history, d) && d in PendingOf(history[|history| - 1])
    ensures d in PendingOf(history[0])
    ensures |Ahead(PendingOf(history[|history| - 1]), d)| + LIMIT * Ticks(history)
         <= |Ahead(PendingOf(history[0]), d)|
    decreases |history|
  {
    if |history| > 1 {
      var n := |history|;
      OnwardShrinks(history[n - 2], history[n - 1], d);
      StillWaiting(history[..n - 1], d);
      if Tick(PendingOf(history[n - 2]), PendingOf(history[n - 1])) {
        TickServes(PendingOf(history[n - 2]), PendingOf(history[n - 1]), d);
      }
    }
  }

  /** With `k` deliveries ahead of it, a pending delivery has left `pending` after `k / 100 + 1` ticks, though younger
      deliveries keep arriving between them and other replicas tick as well. */
  lemma BoundedWait(history: History, d: DeliveryId)
    requires history != [] && OnwardAll(history, d) && d in PendingOf(history[0])
    requires Ticks(history) >= |Ahead(PendingOf(history[0]), d)| / 100 + 1
    ensures d !in PendingOf(history[|history| - 1])
  {
    if d in PendingOf(history[|history| - 1]) {
      StillWaiting(history, d);
    }
  }
}

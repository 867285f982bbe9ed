/** What a whole call of the engine does to the tables when nothing fails, and sequences of such calls. */
module Calls {
  import opened Types
  import opened Machine
  import opened Plans
  import Backoff
  import Measure
  import Patience
  import Safety
  import Schedule

  datatype Tables = Tables(
    sources: map<SourceId, Source>, actions: map<ActionId, Action>, deliveries: map<DeliveryId, Delivery>,
    attempts: map<Key, Attempt>, stream: multiset<Message>)

  /** A call: a message is consumed, a polled delivery processed, a due attempt retried, an event posted, a recorded
      delivery or a page of them forwarded, a source or an action edited. */
  datatype Call =
    | OfMessage(m: Message)
    | OfPending(d: DeliveryId)
    | OfRetry(key: Key, now: int)
    | OfPost(source: SourceId, row: Delivery, id: DeliveryId)
    | OfForward(source: SourceId, d: DeliveryId)
    | OfForwardAll(source: SourceId, page: seq<DeliveryId>)
    | OfSource(source: SourceId, def: Source)
    | OfAction(action: ActionId, act: Action)

  /** What `after` would be if it differed from `before` in the row of `d` only. */
  ghost function RowAt(before: map<DeliveryId, Delivery>, after: map<DeliveryId, Delivery>, d: DeliveryId)
    : map<DeliveryId, Delivery>
  {
    if d in before && d in after then before[d := after[d]] else before
  }

  /** Only the row of `d` may differ; its received columns do not, and it does not become pending. */
  ghost predicate OnlyRow(before: map<DeliveryId, Delivery>, after: map<DeliveryId, Delivery>, d: DeliveryId) {
    && after == RowAt(before, after, d)
    && (d in before ==>
          && after[d].source == before[d].source && after[d].receivedAt == before[d].receivedAt
          && (after[d].status == Pending ==> before[d].status == Pending))
  }

  lemma OnlyRowTwice(before: map<DeliveryId, Delivery>, mid: map<DeliveryId, Delivery>,
                     after: map<DeliveryId, Delivery>, d: DeliveryId)
    requires OnlyRow(before, mid, d) && OnlyRow(mid, after, d)
    ensures OnlyRow(before, after, d)
  {
  }

  /** What a retry sends: the stored content, as the action's own transform leaves it now. */
  function RetryOf(c: Config, action: Action, row: Delivery): ActionOutcome {
    Transform(c, action.transform, StoredPayload(row), StoredHeaders(row))
  }

  /** What `after` would be if it differed from `before` at `key` only. */
  ghost function OnlyAt(before: map<Key, Attempt>, after: map<Key, Attempt>, key: Key): map<Key, Attempt> {
    if key in after then before[key := after[key]] else before
  }

  /** How an attempt may be settled while the clock shows `now`: a failure with retries left is scheduled, in time. */
  ghost predicate Settled(c: Config, key: Key, success: bool, now: int, row: Attempt) {
    && Safety.Settles(c.maxRetries, key, success, row)
    && (row.nextRetryAt.Some? ==> Backoff.Timely(c.baseDelay, key.number, now, row.nextRetryAt.value))
  }

  /** An attempt that was inserted, and then changed. */
  lemma OnlyAtTwice(before: map<Key, Attempt>, mid: map<Key, Attempt>, after: map<Key, Attempt>, key: Key)
    requires key !in before && mid == before[key := Attempt(AttemptPending, None)]
    requires after == OnlyAt(mid, after, key) && (key in after <==> key in mid)
    ensures after == OnlyAt(before, after, key) && key in after
  {
  }

  /** A row that was changed, and changed again. */
  lemma ToggledTwice(before: map<DeliveryId, Delivery>, mid: map<DeliveryId, Delivery>,
                     after: map<DeliveryId, Delivery>, d: DeliveryId)
    requires Toggled(before, mid, d) && (after == mid || after == WithStatus(mid, d, Recorded))
    ensures Toggled(before, after, d)
  {
  }

  /** What is left once a stored row has been announced. */
  lemma StoredAndAnnounced(before: map<DeliveryId, Delivery>, mid: map<DeliveryId, Delivery>,
                           after: map<DeliveryId, Delivery>, id: DeliveryId, row: Delivery)
    requires id !in before && row.status == Pending && mid == before[id := row] && Toggled(mid, after, id)
    ensures StoredAs(before, after, id, row)
  {
    assert after == before[id := after[id]];
  }

  /** Attempts other than `prev` and its successor are the same, and the successor is if it was there. */
  ghost predicate Kept(before: map<Key, Attempt>, after: map<Key, Attempt>, prev: Key) {
    && (forall k :: k != prev && k != Succ(prev) ==> (k in before <==> k in after))
    && (forall k :: k in before && k != prev ==> k in after && after[k] == before[k])
  }

  /** Only the successor of `prev` may be new. */
  ghost predicate Redispatched(before: map<Key, Attempt>, after: map<Key, Attempt>, prev: Key) {
    after == OnlyAt(before, after, Succ(prev)) && (Succ(prev) in before ==> after == before)
  }

  lemma RedispatchKeeps(before: map<Key, Attempt>, after: map<Key, Attempt>, prev: Key)
    requires Redispatched(before, after, prev) && prev in before
    ensures prev in after && Kept(before, after, prev)
    ensures Kept(before, after[prev := Attempt(AttemptFailed, None)], prev)
  {
    assert Succ(prev) != prev;
  }

  /** A new row, published if the source is active and set to recorded if it records. */
  ghost predicate Accepted(before: map<DeliveryId, Delivery>, after: map<DeliveryId, Delivery>,
                           streamBefore: multiset<Message>, streamAfter: multiset<Message>,
                           mode: Mode, id: DeliveryId, row: Delivery)
  {
    if mode == Record then after == before[id := row.(status := Recorded)] && streamAfter == streamBefore
    else after == before[id := row] && streamAfter == streamBefore + multiset{Message(id, false)}
  }

  ghost predicate Forwardable(deliveries: map<DeliveryId, Delivery>, source: SourceId, d: DeliveryId) {
    d in deliveries && deliveries[d].source == source && deliveries[d].status == Recorded
  }

  /** Only the status of `d` may differ; it is what it was, or pending or recorded. */
  ghost predicate Toggled(before: map<DeliveryId, Delivery>, after: map<DeliveryId, Delivery>, d: DeliveryId) {
    && after == RowAt(before, after, d)
    && (d in before ==>
          && after[d] == before[d].(status := after[d].status)
          && after[d].status in {before[d].status, Pending, Recorded})
  }

  /** A recorded delivery may have been forwarded, and was if nothing failed; nothing else changed. */
  ghost predicate ForwardedOne(before: map<DeliveryId, Delivery>, after: map<DeliveryId, Delivery>,
                               streamBefore: multiset<Message>, streamAfter: multiset<Message>, d: DeliveryId,
                               reliable: bool)
    requires d in before
  {
    && Toggled(before, after, d)
    && (before[d].status != Recorded ==> after == before && streamAfter == streamBefore)
    && (reliable && before[d].status == Recorded ==>
          after[d] == before[d].(status := Pending) && streamAfter == streamBefore + multiset{Message(d, true)})
  }

  lemma NotYetForwarded(before: map<DeliveryId, Delivery>, now: map<DeliveryId, Delivery>, page: seq<DeliveryId>, i: nat)
    requires i < |page| && page[i] in before && OthersKept(before, now, page[..i])
    requires forall x, y :: 0 <= x < y < |page| ==> page[x] != page[y]
    ensures page[i] !in page[..i] && page[i] in now && now[page[i]] == before[page[i]]
  {
  }

  lemma ForwardStep(before: map<DeliveryId, Delivery>, mid: map<DeliveryId, Delivery>, after: map<DeliveryId, Delivery>,
                    stream: multiset<Message>, streamMid: multiset<Message>, streamAfter: multiset<Message>,
                    page: seq<DeliveryId>, i: nat, reliable: bool)
    requires i < |page| && page[i] !in page[..i] && page[i] in mid && OthersKept(before, mid, page[..i])
    requires page[i] in before && mid[page[i]] == before[page[i]]
    requires ForwardedOne(mid, after, streamMid, streamAfter, page[i], reliable)
    requires reliable ==> Forwarded(before, mid, page[..i]) && streamMid == stream + ForcedFor(before, page[..i])
    ensures OthersKept(before, after, page[..i + 1])
    ensures reliable ==>
              Forwarded(before, after, page[..i + 1]) && streamAfter == stream + ForcedFor(before, page[..i + 1])
  {
    ForwardStepRows(before, mid, after, page, i, reliable);
    ForcedForMore(before, page, i);
  }

  lemma ForwardStepRows(before: map<DeliveryId, Delivery>, mid: map<DeliveryId, Delivery>,
                        after: map<DeliveryId, Delivery>, page: seq<DeliveryId>, i: nat, reliable: bool)
    requires i < |page| && page[i] !in page[..i] && page[i] in mid && OthersKept(before, mid, page[..i])
    requires Toggled(mid, after, page[i]) && (mid[page[i]].status != Recorded ==> after == mid)
    requires reliable && mid[page[i]].status == Recorded ==> after[page[i]] == mid[page[i]].(status := Pending)
    ensures OthersKept(before, after, page[..i + 1])
    ensures reliable && Forwarded(before, mid, page[..i]) ==> Forwarded(before, after, page[..i + 1])
  {
    assert page[..i + 1] == page[..i] + [page[i]];
  }

  lemma ForcedForMore(listed: map<DeliveryId, Delivery>, page: seq<DeliveryId>, i: nat)
    requires i < |page|
    ensures ForcedFor(listed, page[..i + 1])
         == ForcedFor(listed, page[..i])
            + (if page[i] in listed && listed[page[i]].status == Recorded then multiset{Message(page[i], true)}
               else multiset{})
  {
    assert page[..i + 1][..i] == page[..i];
  }

  ghost predicate OthersKept(before: map<DeliveryId, Delivery>, after: map<DeliveryId, Delivery>,
                             page: seq<DeliveryId>)
  {
    && after.Keys == before.Keys
    && forall e :: e in after && (e !in page || before[e].status != Recorded) ==> after[e] == before[e]
  }

  /** The recorded ones are pending now. */
  ghost predicate Forwarded(before: map<DeliveryId, Delivery>, after: map<DeliveryId, Delivery>, page: seq<DeliveryId>) {
    forall e :: e in page && e in before && e in after && before[e].status == Recorded ==>
      after[e] == before[e].(status := Pending)
  }

  /** One forced message for each recorded delivery of the page. */
  ghost function ForcedFor(listed: map<DeliveryId, Delivery>, page: seq<DeliveryId>): multiset<Message> {
    if page == [] then multiset{}
    else
      var d := page[|page| - 1];
      ForcedFor(listed, page[..|page| - 1])
      + (if d in listed && listed[d].status == Recorded then multiset{Message(d, true)} else multiset{})
  }

  /** The messages are as many as the recorded deliveries that occur in the page. */
  lemma {:induction false} ForcedForCounts(listed: map<DeliveryId, Delivery>, page: seq<DeliveryId>, m: Message)
    requires forall i, j :: 0 <= i < j < |page| ==> page[i] != page[j]
    ensures ForcedFor(listed, page)[m]
         == if m.force && m.delivery in page && m.delivery in listed && listed[m.delivery].status == Recorded then 1
            else 0
  {
    if page != [] {
      var init, d := page[..|page| - 1], page[|page| - 1];
      assert page == init + [d];
      ForcedForCounts(listed, init, m);
    }
  }

  /** Newest first. */
  function Ages(deliveries: map<DeliveryId, Delivery>, source: SourceId): map<DeliveryId, int> {
    map d | d in deliveries && deliveries[d].source == source :: -deliveries[d].receivedAt
  }

  /** The 200 deliveries of the source that were received last, the newest first. */
  ghost predicate NewestPage(deliveries: map<DeliveryId, Delivery>, source: SourceId, page: seq<DeliveryId>) {
    && |page| <= 200
    && (forall i :: 0 <= i < |page| ==> page[i] in deliveries && deliveries[page[i]].source == source)
    && (forall i, j :: 0 <= i < j < |page| ==>
          page[i] != page[j] && deliveries[page[i]].receivedAt >= deliveries[page[j]].receivedAt)
    && (forall e, i :: e in deliveries && deliveries[e].source == source && e !in page && 0 <= i < |page| ==>
          deliveries[page[i]].receivedAt >= deliveries[e].receivedAt)
    && (|page| < 200 ==> forall e :: e in deliveries && deliveries[e].source == source ==> e in page)
  }

  lemma PageIsNewest(deliveries: map<DeliveryId, Delivery>, source: SourceId, page: seq<DeliveryId>)
    requires Patience.IsPage(Ages(deliveries, source), page, 200)
    ensures NewestPage(deliveries, source, page)
  {
    var ages := Ages(deliveries, source);
    assert forall e :: e in ages <==> e in deliveries && deliveries[e].source == source;
    assert forall e :: e in ages ==> ages[e] == -deliveries[e].receivedAt;
  }

  /** The 100 pending deliveries that were received first, in order. */
  ghost predicate OldestPage(deliveries: map<DeliveryId, Delivery>, page: seq<DeliveryId>) {
    && |page| <= 100
    && (forall i :: 0 <= i < |page| ==> page[i] in deliveries && deliveries[page[i]].status == Pending)
    && (forall i, j :: 0 <= i < j < |page| ==>
          page[i] != page[j] && deliveries[page[i]].receivedAt <= deliveries[page[j]].receivedAt)
    && (forall e, i :: e in deliveries && deliveries[e].status == Pending && e !in page && 0 <= i < |page| ==>
          deliveries[page[i]].receivedAt <= deliveries[e].receivedAt)
    && (|page| < 100 ==> forall e :: e in deliveries && deliveries[e].status == Pending ==> e in page)
  }

  lemma PageIsOldest(deliveries: map<DeliveryId, Delivery>, page: seq<DeliveryId>)
    requires Patience.IsPage(Patience.PendingOf(deliveries), page, Patience.LIMIT)
    ensures OldestPage(deliveries, page)
  {
    var queue := Patience.PendingOf(deliveries);
    assert forall e :: e in queue <==> e in deliveries && deliveries[e].status == Pending;
    assert forall e :: e in queue ==> queue[e] == deliveries[e].receivedAt;
  }

  /** The attempts that a retry poll may pick, and when they were due. */
  function DueTimes(att: map<Key, Attempt>, now: int): map<Key, int> {
    map k | k in att && att[k].status == AttemptFailed && att[k].nextRetryAt.Some? && att[k].nextRetryAt.value <= now
      :: att[k].nextRetryAt.value
  }

  /** Rows outside of `page` are the same, and received columns are, everywhere. */
  ghost predicate Untouched(before: map<DeliveryId, Delivery>, after: map<DeliveryId, Delivery>, page: seq<DeliveryId>) {
    && after.Keys == before.Keys
    && (forall e :: e in before && e !in page ==> after[e] == before[e])
    && (forall e :: e in before && after[e].status == Pending ==>
          before[e].status == Pending && after[e].receivedAt == before[e].receivedAt)
  }

  ghost predicate PageServed(deliveries: map<DeliveryId, Delivery>, page: seq<DeliveryId>, n: nat)
    requires n <= |page|
  {
    forall j :: 0 <= j < n ==> page[j] in deliveries && deliveries[page[j]].status != Pending
  }

  /** The first `i` rows of the page are served, if nothing failed, and nothing else was touched; folded. */
  ghost predicate Paged(before: map<DeliveryId, Delivery>, now: map<DeliveryId, Delivery>, page: seq<DeliveryId>, i: nat,
                        reliable: bool)
    requires i <= |page|
  {
    forall n: nat :: Unfold(ThePage, n) ==> Untouched(before, now, page[..i]) && (reliable ==> PageServed(now, page, i))
  }

  /** What the catch-up poll lists; folded. */
  ghost predicate PendingPage(deliveries: map<DeliveryId, Delivery>, page: seq<DeliveryId>) {
    forall n: nat :: Unfold(ThePage, n) ==> Patience.IsPage(Patience.PendingOf(deliveries), page, Patience.LIMIT)
  }

  /** The attempts on the page from position `i` on are due. */
  ghost predicate StillDue(att: map<Key, Attempt>, page: seq<Key>, i: nat, now: int) {
    forall n: nat :: Unfold(ThePage, n) ==>
      && (forall j :: i <= j < |page| ==> Due(att, page[j], now))
      && (forall j, k :: 0 <= j < k < |page| ==> page[j] != page[k])
  }

  lemma DueStarts(att: map<Key, Attempt>, page: seq<Key>, now: int)
    requires Patience.IsPage(DueTimes(att, now), page, Patience.LIMIT)
    ensures StillDue(att, page, 0, now)
  {
  }

  /** The earliest of the due attempts. */
  lemma PageIsDue(att: map<Key, Attempt>, page: seq<Key>, now: int)
    requires Patience.IsPage(DueTimes(att, now), page, Patience.LIMIT)
    ensures Schedule.DuePage(att, page, now)
  {
    var times := DueTimes(att, now);
    assert forall k :: k in times ==> times[k] == att[k].nextRetryAt.value <= now;
    assert forall k :: Schedule.Scheduled(att, k) && att[k].status == AttemptFailed && k !in times ==>
        att[k].nextRetryAt.value > now;
  }

  lemma DueNow(att: map<Key, Attempt>, page: seq<Key>, i: nat, now: int)
    requires StillDue(att, page, i, now) && i < |page|
    ensures Due(att, page[i], now)
  {
    assert Unfold(ThePage, 0);
  }

  lemma DueGoesOn(before: map<Key, Attempt>, after: map<Key, Attempt>, page: seq<Key>, i: nat, now: int)
    requires StillDue(before, page, i, now) && i < |page| && Kept(before, after, page[i])
    ensures StillDue(after, page, i + 1, now)
  {
    assert Unfold(ThePage, 0);
    forall j | i < j < |page|
      ensures Due(after, page[j], now)
    {
      assert Due(before, page[j], now) && page[j] != page[i];
    }
  }

  lemma PageStarts(before: map<DeliveryId, Delivery>, page: seq<DeliveryId>, reliable: bool)
    ensures Paged(before, before, page, 0, reliable)
  {
  }

  lemma StillPending(before: map<DeliveryId, Delivery>, now: map<DeliveryId, Delivery>, page: seq<DeliveryId>, i: nat,
                     reliable: bool)
    requires PendingPage(before, page) && i < |page| && Paged(before, now, page, i, reliable)
    ensures page[i] in now && now[page[i]].status == Pending
  {
    assert Unfold(ThePage, 0);
    assert page[i] !in page[..i];
  }

  lemma PageGoesOn(before: map<DeliveryId, Delivery>, mid: map<DeliveryId, Delivery>,
                   after: map<DeliveryId, Delivery>, page: seq<DeliveryId>, i: nat, reliable: bool)
    requires i < |page| && Paged(before, mid, page, i, reliable) && OnlyRow(mid, after, page[i])
    requires reliable ==> page[i] in after && after[page[i]].status != Pending
    ensures Paged(before, after, page, i + 1, reliable)
  {
    assert Unfold(ThePage, 0);
    assert page[..i + 1] == page[..i] + [page[i]];
  }

  lemma PageEnds(before: map<DeliveryId, Delivery>, after: map<DeliveryId, Delivery>, page: seq<DeliveryId>,
                 reliable: bool)
    requires Paged(before, after, page, |page|, reliable)
    ensures Untouched(before, after, page) && (reliable ==> PageServed(after, page, |page|))
  {
    assert Unfold(ThePage, 0);
    assert page[..|page|] == page;
  }

  lemma PageIsServed(before: map<DeliveryId, Delivery>, after: map<DeliveryId, Delivery>, page: seq<DeliveryId>)
    requires Patience.IsPage(Patience.PendingOf(before), page, Patience.LIMIT)
    requires Untouched(before, after, page)
    requires PageServed(after, page, |page|)
    ensures Patience.Tick(Patience.PendingOf(before), Patience.PendingOf(after))
  {
    assert Patience.PendingOf(after) == Patience.PendingOf(before) - Patience.Members(page);
  }

  // -------------------------------------------------- the calls

  /** `processDelivery` on `d`. */
  ghost predicate Handled(c: Config, sources: map<SourceId, Source>, actions: map<ActionId, Action>,
                          attBefore: map<Key, Attempt>, att: map<Key, Attempt>,
                          before: map<DeliveryId, Delivery>, after: map<DeliveryId, Delivery>,
                          d: DeliveryId, force: bool)
  {
    forall n: nat :: Unfold(TheHandling, n) ==> Handles(c, sources, actions, attBefore, att, before, after, d, force)
  }

  ghost predicate Handles(c: Config, sources: map<SourceId, Source>, actions: map<ActionId, Action>,
                          attBefore: map<Key, Attempt>, att: map<Key, Attempt>,
                          before: map<DeliveryId, Delivery>, after: map<DeliveryId, Delivery>,
                          d: DeliveryId, force: bool)
  {
    && OnlyRow(before, after, d) && OnlyFirst(attBefore, att, d)
    && (d in after ==> after[d].status != Pending)
    && if Admissible(before, d, force) then
         var row := before[d];
         && row.source in sources
         && Processed(c, sources[row.source], actions, row, attBefore, att, before, after, d, force)
       else att == attBefore && after == before
  }

  lemma HandledBy(c: Config, sources: map<SourceId, Source>, actions: map<ActionId, Action>,
                  attBefore: map<Key, Attempt>, att: map<Key, Attempt>,
                  before: map<DeliveryId, Delivery>, after: map<DeliveryId, Delivery>, d: DeliveryId, force: bool)
    requires OnlyRow(before, after, d) && OnlyFirst(attBefore, att, d) && d in after && after[d].status != Pending
    requires Admissible(before, d, force) && before[d].source in sources
    requires Processed(c, sources[before[d].source], actions, before[d], attBefore, att, before, after, d, force)
    ensures Handled(c, sources, actions, attBefore, att, before, after, d, force)
  {
  }

  lemma LeftAlone(c: Config, sources: map<SourceId, Source>, actions: map<ActionId, Action>, att: map<Key, Attempt>,
                  deliveries: map<DeliveryId, Delivery>, d: DeliveryId, force: bool)
    requires !Admissible(deliveries, d, force)
    ensures Handled(c, sources, actions, att, att, deliveries, deliveries, d, force)
  {
  }

  /** `retryAttempt` on `key`. */
  ghost predicate RetriedOne(c: Config, actions: map<ActionId, Action>,
                             attBefore: map<Key, Attempt>, att: map<Key, Attempt>,
                             before: map<DeliveryId, Delivery>, after: map<DeliveryId, Delivery>, key: Key)
  {
    && key.delivery in before && key.action in actions
    && OnlyRow(before, after, key.delivery) && Kept(attBefore, att, key)
    && Measure.Retried(c.maxRetries, attBefore, att, key)
    && RolledUp(c.maxRetries, actions, att, before, after, key.delivery)
    && (Succ(key) in att <==> Succ(key) in attBefore || RetryOf(c, actions[key.action], before[key.delivery]).Send?)
  }

  ghost predicate Posted(before: Tables, after: Tables, source: SourceId, row: Delivery, id: DeliveryId) {
    && id !in before.deliveries
    && if source in before.sources && !Taken(before.deliveries, source, row.idem) then
         Accepted(before.deliveries, after.deliveries, before.stream, after.stream,
                  before.sources[source].mode, id, row)
       else after.deliveries == before.deliveries && after.stream == before.stream
  }

  /** What one call promises. */
  ghost predicate Does(c: Config, call: Call, before: Tables, after: Tables) {
    match call
    case OfMessage(m) =>
      && m in before.stream
      && after == before.(deliveries := after.deliveries, attempts := after.attempts,
                          stream := before.stream - multiset{m})
      && Handled(c, before.sources, before.actions, before.attempts, after.attempts,
                 before.deliveries, after.deliveries, m.delivery, m.force)
    case OfPending(d) =>
      && d in before.deliveries && before.deliveries[d].status == Pending
      && after == before.(deliveries := after.deliveries, attempts := after.attempts)
      && Handled(c, before.sources, before.actions, before.attempts, after.attempts,
                 before.deliveries, after.deliveries, d, false)
    case OfRetry(key, now) =>
      && Due(before.attempts, key, now)
      && after == before.(deliveries := after.deliveries, attempts := after.attempts)
      && RetriedOne(c, before.actions, before.attempts, after.attempts, before.deliveries, after.deliveries, key)
    case OfPost(source, row, id) =>
      && after == before.(deliveries := after.deliveries, stream := after.stream)
      && row == Row(source, row.idem, row.headers, row.payload, row.receivedAt)
      && Posted(before, after, source, row, id)
    case OfForward(source, d) =>
      && after == before.(deliveries := after.deliveries, stream := after.stream)
      && if Forwardable(before.deliveries, source, d) then
           ForwardedOne(before.deliveries, after.deliveries, before.stream, after.stream, d, true)
         else after == before
    case OfForwardAll(source, page) =>
      && after == before.(deliveries := after.deliveries, stream := before.stream + ForcedFor(before.deliveries, page))
      && Patience.IsPage(Ages(before.deliveries, source), page, 200)
      && OthersKept(before.deliveries, after.deliveries, page)
      && Forwarded(before.deliveries, after.deliveries, page)
    case OfSource(source, def) => after == before.(sources := before.sources[source := def])
    case OfAction(a, act) =>
      && after == before.(actions := before.actions[a := act])
      && (a in before.actions ==> before.actions[a].source == act.source)
  }

  /** The same, folded: a procedure of the engine passes it on. */
  ghost predicate Done(c: Config, call: Call, before: Tables, after: Tables) {
    forall n: nat :: Unfold(TheCall, n) ==> Does(c, call, before, after)
  }

  lemma MessageDone(c: Config, m: Message, before: Tables, after: Tables)
    requires m in before.stream
    requires after == before.(deliveries := after.deliveries, attempts := after.attempts,
                              stream := before.stream - multiset{m})
    requires Handled(c, before.sources, before.actions, before.attempts, after.attempts,
                     before.deliveries, after.deliveries, m.delivery, m.force)
    ensures Done(c, OfMessage(m), before, after)
  {
  }

  lemma RetryDone(c: Config, key: Key, now: int, before: Tables, after: Tables)
    requires Due(before.attempts, key, now)
    requires after == before.(deliveries := after.deliveries, attempts := after.attempts)
    requires RetriedOne(c, before.actions, before.attempts, after.attempts, before.deliveries, after.deliveries, key)
    ensures Done(c, OfRetry(key, now), before, after)
  {
  }

  lemma ForwardDone(c: Config, source: SourceId, d: DeliveryId, before: Tables, after: Tables)
    requires after == before.(deliveries := after.deliveries, stream := after.stream)
    requires if Forwardable(before.deliveries, source, d) then
               ForwardedOne(before.deliveries, after.deliveries, before.stream, after.stream, d, true)
             else after.deliveries == before.deliveries && after.stream == before.stream
    ensures Done(c, OfForward(source, d), before, after)
  {
  }

  lemma ForwardAllDone(c: Config, source: SourceId, page: seq<DeliveryId>, before: Tables, after: Tables)
    requires after == before.(deliveries := after.deliveries,
                              stream := before.stream + ForcedFor(before.deliveries, page))
    requires Patience.IsPage(Ages(before.deliveries, source), page, 200)
    requires OthersKept(before.deliveries, after.deliveries, page)
    requires Forwarded(before.deliveries, after.deliveries, page)
    ensures Done(c, OfForwardAll(source, page), before, after)
  {
  }

  lemma PostDone(c: Config, source: SourceId, row: Delivery, id: DeliveryId, before: Tables, after: Tables)
    requires after == before.(deliveries := after.deliveries, stream := after.stream)
    requires row == Row(source, row.idem, row.headers, row.payload, row.receivedAt)
    requires Posted(before, after, source, row, id)
    ensures Done(c, OfPost(source, row, id), before, after)
  {
  }

  /** What every engine keeps about its attempts. */
  ghost predicate Proper(c: Config, tables: Tables) {
    && Safety.ChainOk(tables.attempts)
    && (forall k :: k in tables.attempts ==>
          && k.number >= 1 && k.delivery in tables.deliveries
          && (tables.attempts[k].nextRetryAt.Some? ==>
                tables.attempts[k].status == AttemptFailed && k.number < c.maxRetries))
  }

  /** A sequence of calls from one state of the tables to another. */
  ghost predicate Steps(c: Config, before: Tables, calls: seq<Call>, after: Tables)
    decreases |calls|
  {
    if calls == [] then after == before && Proper(c, before)
    else
      var init, call := calls[..|calls| - 1], calls[|calls| - 1];
      exists mid :: Steps(c, before, init, mid) && Done(c, call, mid, after) && Proper(c, after)
  }

  /** The same, folded. */
  ghost predicate Serves(c: Config, before: Tables, calls: seq<Call>, after: Tables) {
    forall n: nat :: Unfold(TheChain, n) ==> Steps(c, before, calls, after)
  }

  lemma ServesNothing(c: Config, tables: Tables)
    requires Proper(c, tables)
    ensures Serves(c, tables, [], tables)
  {
  }

  lemma ServesMore(c: Config, before: Tables, calls: seq<Call>, mid: Tables, after: Tables)
    requires calls != [] && Serves(c, before, calls[..|calls| - 1], mid)
    requires Done(c, calls[|calls| - 1], mid, after) && Proper(c, after)
    ensures Serves(c, before, calls, after)
  {
    assert Unfold(TheChain, 0);
  }

  /** The calls of a poll. */
  ghost function PendingCalls(page: seq<DeliveryId>): seq<Call> {
    seq(|page|, i requires 0 <= i < |page| => OfPending(page[i]))
  }

  ghost function RetryCalls(page: seq<Key>, now: int): seq<Call> {
    seq(|page|, i requires 0 <= i < |page| => OfRetry(page[i], now))
  }

  lemma PendingServed(c: Config, before: Tables, mid: Tables, after: Tables, page: seq<DeliveryId>, i: nat)
    requires i < |page| && Serves(c, before, PendingCalls(page[..i]), mid)
    requires Done(c, OfPending(page[i]), mid, after) && Proper(c, after)
    ensures Serves(c, before, PendingCalls(page[..i + 1]), after)
  {
    assert PendingCalls(page[..i + 1])[..i] == PendingCalls(page[..i]);
    ServesMore(c, before, PendingCalls(page[..i + 1]), mid, after);
  }

  lemma RetryServed(c: Config, before: Tables, mid: Tables, after: Tables, page: seq<Key>, i: nat, now: int)
    requires i < |page| && Serves(c, before, RetryCalls(page[..i], now), mid)
    requires Done(c, OfRetry(page[i], now), mid, after) && Proper(c, after)
    ensures Serves(c, before, RetryCalls(page[..i + 1], now), after)
  {
    assert RetryCalls(page[..i + 1], now)[..i] == RetryCalls(page[..i], now);
    ServesMore(c, before, RetryCalls(page[..i + 1], now), mid, after);
  }

  lemma RetryCallUsesUp(c: Config, before: Tables, after: Tables, key: Key, now: int)
    requires Done(c, OfRetry(key, now), before, after) && Proper(c, before)
    ensures Measure.RetriesLeft(c.maxRetries, after.attempts) < Measure.RetriesLeft(c.maxRetries, before.attempts)
  {
    assert Unfold(TheCall, 0);
    Measure.RetryUsesUp(c.maxRetries, before.attempts, after.attempts, key);
  }

  lemma {:induction false} RetryPageUsesUp(c: Config, before: Tables, calls: seq<Call>, after: Tables)
    requires Serves(c, before, calls, after) && forall call :: call in calls ==> call.OfRetry?
    ensures Proper(c, after)
    ensures Measure.RetriesLeft(c.maxRetries, after.attempts) + |calls|
         <= Measure.RetriesLeft(c.maxRetries, before.attempts)
    decreases |calls|
  {
    assert Unfold(TheChain, 0);
    assert Steps(c, before, calls, after);
    if calls != [] {
      var init, call := calls[..|calls| - 1], calls[|calls| - 1];
      var mid :| Steps(c, before, init, mid) && Done(c, call, mid, after) && Proper(c, after);
      RetryPageUsesUp(c, before, init, mid);
      RetryCallUsesUp(c, mid, after, call.key, call.now);
    }
  }

  /** The attempts are failed and off the schedule. */
  ghost predicate Cleared(att: map<Key, Attempt>, page: seq<Key>) {
    forall k :: k in page ==> k in att && att[k] == Attempt(AttemptFailed, None)
  }

  lemma RetryCallClears(c: Config, before: Tables, after: Tables, key: Key, now: int, page: seq<Key>)
    requires Done(c, OfRetry(key, now), before, after) && Cleared(before.attempts, page)
    ensures Cleared(after.attempts, page + [key])
  {
    assert Unfold(TheCall, 0);
  }

  lemma {:induction false} RetryPageClears(c: Config, before: Tables, page: seq<Key>, now: int, after: Tables)
    requires Serves(c, before, RetryCalls(page, now), after)
    ensures Cleared(after.attempts, page)
    decreases |page|
  {
    if page != [] {
      assert Unfold(TheChain, 0);
      var n, calls := |page| - 1, RetryCalls(page, now);
      assert Steps(c, before, calls, after) && calls[..n] == RetryCalls(page[..n], now);
      var mid :| Steps(c, before, calls[..n], mid) && Done(c, calls[n], mid, after) && Proper(c, after);
      RetryPageClears(c, before, page[..n], now, mid);
      RetryCallClears(c, mid, after, page[n], now, page[..n]);
      assert page == page[..n] + [page[n]];
    }
  }

  /** The row of a stored delivery is new; it may be recorded by now. */
  ghost predicate StoredAs(before: map<DeliveryId, Delivery>, after: map<DeliveryId, Delivery>, id: DeliveryId,
                           row: Delivery)
  {
    && id !in before
    && (after == before[id := row] || after == before[id := row.(status := Recorded)])
  }
}

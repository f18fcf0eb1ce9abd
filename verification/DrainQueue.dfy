/** What the waiting results assume of a drain, shown of the drain's own turns: over any number of turns on the
    store, with nothing enqueued, the records examined leave the list or move behind the clock and nothing else
    changes place. */
module DrainQueue {
  import opened Wrappers
  import opened LifecycleModels
  import opened Settlement
  import opened LifecycleStore
  import opened StoreRuns
  import opened Workflow
  import opened DrainSchedule

  function WaitingOf(r: Record): Waiting {
    Waiting(r.nextAttemptAt, r.intent.requestedAt)
  }

  /** The place of an identity among all digests. */
  type Rank = IngressId -> int

  ghost predicate Injective(rank: Rank) {
    forall a, b :: rank(a) == rank(b) ==> a == b
  }

  ghost predicate Listed(intents: map<IngressId, Record>, id: IngressId, x: Id, rank: Rank) {
    Listable(intents, id) && x == Id(rank(id))
  }

  /** The queue holds exactly the listable records. */
  ghost predicate Shows(q: Queue, intents: map<IngressId, Record>, rank: Rank) {
    && (forall id :: Listable(intents, id) ==> Id(rank(id)) in q && q[Id(rank(id))] == WaitingOf(intents[id]))
    && (forall x :: x in q ==> exists id :: Listed(intents, id, x, rank))
  }

  /** One committed request of a turn that began no earlier than its drain. */
  datatype Taken = Taken(r: Record, resolved: Option<ResolvedPr>, local: Option<LocalIdentity>, pr: ResolvedPr,
                         observed: Option<Observed>, combined: bool, now: Time, q: Request)

  /** The turn asked for `t.q`, and it was admitted and committed. */
  ghost predicate Takes(disk: Disk, t: Taken, after: Disk, retry: nat, interval: nat) {
    && Current(disk, t.r) && !t.q.Enqueue? && PlanFor(disk, t.q).Ok?
    && Asked(disk, t.r, t.resolved, t.local, t.pr, t.observed, t.combined, t.now, retry, interval, t.q)
    && after == Commit(disk, PlanFor(disk, t.q).value)
  }

  lemma {:induction false} TurnMovesOne(disk: Disk, t: Taken, after: Disk, retry: nat, interval: nat)
    requires Takes(disk, t, after, retry, interval) && 0 < retry
    ensures var id := IngressOf(t.r.intent);
            && after.intents.Keys == disk.intents.Keys && id in disk.intents && disk.intents[id] == t.r
            && (forall other :: other in disk.intents && other != id ==> after.intents[other] == disk.intents[other])
            && after.intents[id].intent.requestedAt == t.r.intent.requestedAt
            && (Listable(after.intents, id) ==>
                  after.intents[id].nextAttemptAt.Some? && t.now < after.intents[id].nextAttemptAt.value)
  {
    TurnReschedules(disk, t.r, t.resolved, t.local, t.pr, t.observed, t.combined, t.now, retry, interval, t.q);
    RequestsAreFenced(disk, t.r, t.resolved, t.local, t.pr, t.observed, t.combined, t.now, retry, interval, t.q);
    PlanIsLinked(disk, t.q);
  }

  /** Only `id` was written, its request time kept, and if it is still listed it waits past `began`. */
  ghost predicate OneMoved(one: map<IngressId, Record>, two: map<IngressId, Record>, id: IngressId, began: Time) {
    && two.Keys == one.Keys && Listable(one, id)
    && (forall other :: other in one && other != id ==> two[other] == one[other])
    && two[id].intent.requestedAt == one[id].intent.requestedAt
    && (Listable(two, id) ==> two[id].nextAttemptAt.Some? && began < two[id].nextAttemptAt.value)
  }

  lemma {:induction false} MovedShows(one: map<IngressId, Record>, two: map<IngressId, Record>, id: IngressId,
                                      began: Time, before: Queue, q: Queue, rank: Rank)
    requires Injective(rank) && OneMoved(one, two, id, began)
    requires Shows(before, one, rank) && Shows(q, two, rank)
    ensures Rescheduled(before, began, [Id(rank(id))], q)
  {
    forall x | x in q
      ensures x in before
    {
      var other :| Listed(two, other, x, rank);
      assert Listable(one, other);
    }
    forall x | x in before
      ensures if x in [Id(rank(id))] then
                x in q ==> q[x].requestedAt == before[x].requestedAt && q[x].nextAttemptAt.Some?
                           && began < q[x].nextAttemptAt.value
              else x in q && q[x] == before[x]
    {
      var other :| Listed(one, other, x, rank);
      assert other != id ==> Listable(two, other);
      if x in q {
        var same :| Listed(two, same, x, rank);
        assert same == other;
      }
    }
  }

  /** One turn is one step of the queue. */
  lemma {:induction false} TurnIsReschedule(disk: Disk, t: Taken, after: Disk, before: Queue, q: Queue, began: Time,
                                            rank: Rank, retry: nat, interval: nat)
    requires Injective(rank) && 0 < retry && Takes(disk, t, after, retry, interval) && began <= t.now
    requires Shows(before, disk.intents, rank) && Shows(q, after.intents, rank)
    ensures Rescheduled(before, began, [Id(rank(IngressOf(t.r.intent)))], q)
  {
    TurnMovesOne(disk, t, after, retry, interval);
    MovedShows(disk.intents, after.intents, IngressOf(t.r.intent), began, before, q, rank);
  }

  function Examined(ts: seq<Taken>, rank: Rank): (xs: seq<Id>)
    ensures |xs| == |ts|
  {
    if |ts| == 0 then [] else Examined(ts[..|ts| - 1], rank) + [Id(rank(IngressOf(ts[|ts| - 1].r.intent)))]
  }

  /** A whole drain, turn after turn, is what bounded waiting takes a drain to be. */
  lemma {:induction false} DrainIsReschedule(disks: seq<Disk>, ts: seq<Taken>, queues: seq<Queue>, began: Time,
                                             rank: Rank, retry: nat, interval: nat)
    requires Injective(rank) && 0 < retry && |disks| == |ts| + 1 == |queues|
    requires forall i :: 0 <= i < |ts| ==> began <= ts[i].now && Takes(disks[i], ts[i], disks[i + 1], retry, interval)
    requires forall i :: 0 <= i < |disks| ==> Shows(queues[i], disks[i].intents, rank)
    ensures Rescheduled(queues[0], began, Examined(ts, rank), queues[|ts|])
    decreases |ts|
  {
    if |ts| > 0 {
      var n := |ts| - 1;
      DrainIsReschedule(disks[..n + 1], ts[..n], queues[..n + 1], began, rank, retry, interval);
      assert Takes(disks[n], ts[n], disks[n + 1], retry, interval);
      TurnIsReschedule(disks[n], ts[n], disks[n + 1], queues[n], queues[n + 1], began, rank, retry, interval);
      RescheduledTwice(queues[0], began, Examined(ts[..n], rank), queues[n],
                       [Id(rank(IngressOf(ts[n].r.intent)))], queues[n + 1]);
    }
  }

  // ---------------------------------------------------------------- whole drains of the store

  /** The queue a drain sees. */
  ghost function QueueOf(intents: map<IngressId, Record>, rank: Rank): (q: Queue)
    requires Injective(rank)
    ensures Shows(q, intents, rank)
  {
    var q := map id | id in intents && Listable(intents, id) :: Id(rank(id)) := WaitingOf(intents[id]);
    QueueShows(q, intents, rank);
    q
  }

  lemma {:induction false} QueueShows(q: Queue, intents: map<IngressId, Record>, rank: Rank)
    requires Injective(rank)
    requires forall id :: Listable(intents, id) ==> Id(rank(id)) in q && q[Id(rank(id))] == WaitingOf(intents[id])
    requires forall x :: x in q ==> exists id :: id in intents && Listable(intents, id) && x == Id(rank(id))
    ensures Shows(q, intents, rank)
  {
    forall x | x in q
      ensures exists id :: Listed(intents, id, x, rank)
    {
      var id :| id in intents && Listable(intents, id) && x == Id(rank(id));
      assert Listed(intents, id, x, rank);
    }
  }

  /** One drain of the store: the disks between its turns, when it began, and the order it listed the records in. */
  datatype Drain = Drain(disks: seq<Disk>, turns: seq<Taken>, began: Time, order: seq<Id>)

  ghost predicate TakesAt(d: Drain, i: nat, retry: nat, interval: nat)
    requires i < |d.turns| && |d.disks| == |d.turns| + 1
  {
    d.began <= d.turns[i].now && Takes(d.disks[i], d.turns[i], d.disks[i + 1], retry, interval)
  }

  ghost function PassOf(d: Drain, rank: Rank): Pass
    requires Injective(rank) && |d.disks| > 0
  {
    Pass(QueueOf(d.disks[0].intents, rank), d.began, d.order)
  }

  /** It lists the records in their order, and its turns are those of its batch. */
  ghost predicate Drains(d: Drain, rank: Rank, size: nat, retry: nat, interval: nat)
    requires Injective(rank)
  {
    && |d.disks| == |d.turns| + 1 && (forall i: nat :: i < |d.turns| ==> TakesAt(d, i, retry, interval))
    && Sorted(PassOf(d, rank).queue, d.began, d.order)
    && (forall x :: x in Examined(d.turns, rank) <==> x in Batch(d.order, size))
  }

  /** Drain after drain, the clock not running backwards and nothing enqueued in between. */
  ghost predicate DrainAfterDrain(ds: seq<Drain>, rank: Rank, size: nat, retry: nat, interval: nat)
    requires Injective(rank)
  {
    && (forall i: nat :: i < |ds| ==> Drains(ds[i], rank, size, retry, interval))
    && (forall i: nat :: i + 1 < |ds| ==> HandsOn(ds[i], ds[i + 1]))
  }

  ghost predicate HandsOn(one: Drain, two: Drain) {
    && one.began <= two.began && |one.disks| > 0 && |two.disks| > 0
    && one.disks[|one.disks| - 1].intents == two.disks[0].intents
  }

  lemma {:induction false} DrainFollows(one: Drain, two: Drain, rank: Rank, size: nat, retry: nat, interval: nat)
    requires Injective(rank) && 0 < retry && Drains(one, rank, size, retry, interval) && HandsOn(one, two)
    ensures Follows(PassOf(one, rank), PassOf(two, rank), size)
  {
    var queues := seq(|one.disks|, i requires 0 <= i < |one.disks| => QueueOf(one.disks[i].intents, rank));
    forall i | 0 <= i < |one.turns|
      ensures one.began <= one.turns[i].now && Takes(one.disks[i], one.turns[i], one.disks[i + 1], retry, interval)
    {
      assert TakesAt(one, i, retry, interval);
    }
    DrainIsReschedule(one.disks, one.turns, queues, one.began, rank, retry, interval);
  }

  lemma {:induction false} ExaminedAt(ts: seq<Taken>, rank: Rank, k: nat)
    requires k < |ts|
    ensures Examined(ts, rank)[k] == Id(rank(IngressOf(ts[k].r.intent)))
    decreases |ts|
  {
    if k < |ts| - 1 {
      ExaminedAt(ts[..|ts| - 1], rank, k);
    }
  }

  /** Bounded waiting of the store itself: while nothing is enqueued, a timely intent listed at `p` is the subject of a
      turn of one of the next `n` drains, when `p` is below `n` batches. */
  lemma {:induction false} IntentExaminedWithin(ds: seq<Drain>, rank: Rank, size: nat, retry: nat, interval: nat,
                                                id: IngressId, p: nat, n: nat) returns (i: nat, k: nat)
    requires Injective(rank) && 0 < retry && 0 < size && DrainAfterDrain(ds, rank, size, retry, interval)
    requires 0 < n <= |ds| && p < size * n && p < |ds[0].order| && ds[0].order[p] == Id(rank(id))
    requires Listable(ds[0].disks[0].intents, id)
    requires Timely(WaitingOf(ds[0].disks[0].intents[id]), ds[0].began)
    ensures i < n && k < |ds[i].turns| && IngressOf(ds[i].turns[k].r.intent) == id
  {
    var ps := seq(|ds|, j requires 0 <= j < |ds| => PassOf(ds[j], rank));
    forall j | 0 <= j < |ps|
      ensures SortedAt(ps, j)
    {
      assert Drains(ds[j], rank, size, retry, interval);
    }
    forall j | 0 <= j < |ps| - 1
      ensures FollowsAt(ps, j, size)
    {
      assert HandsOn(ds[j], ds[j + 1]);
      DrainFollows(ds[j], ds[j + 1], rank, size, retry, interval);
    }
    i := ExaminedWithin(ps, size, p, n);
    assert Drains(ds[i], rank, size, retry, interval);
    var xs := Examined(ds[i].turns, rank);
    assert Id(rank(id)) in xs;
    k :| 0 <= k < |xs| && xs[k] == Id(rank(id));
    ExaminedAt(ds[i].turns, rank, k);
  }
}

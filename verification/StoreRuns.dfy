/** Every interleaving of store transactions, at the grain of single file replacements.

    A transaction holds the lock from `Begin`, which replaces the snapshot file if it carries one, to
    `Finish`, which replaces the record file; a `Crash` in between loses the rest. Readers and bare
    snapshot writes take no lock. */
module StoreRuns {
  import opened Wrappers
  import opened LifecycleModels
  import opened LifecycleStore

  datatype Txn = Txn(req: Request, plan: Plan)
  datatype Sys = Sys(disk: Disk, holder: Option<Txn>)

  /** `readAt` is the point of the run at which the worker read the record its version came from. */
  datatype Event = Begin(req: Request, readAt: nat) | Refused(req: Request) | Finish | Crash
                 | BareSnapshot(written: Snapshot)

  datatype Run = Run(states: seq<Sys>, events: seq<Event>)

  ghost predicate Step(s: Sys, e: Event, t: Sys) {
    match e
    case Begin(req, _) =>
      var planned := PlanFor(s.disk, req);
      && s.holder.None? && planned.Ok?
      && t == Sys(AfterSnapshot(s.disk, planned.value), Some(Txn(req, planned.value)))
    case Refused(req) => s.holder.None? && PlanFor(s.disk, req).Err? && t == s
    case Finish => s.holder.Some? && t == Sys(AfterRecord(s.disk, s.holder.value.plan), None)
    case Crash => s.holder.Some? && t == Sys(s.disk, None)
    case BareSnapshot(written) =>
      t == s.(disk := s.disk.(snapshots := s.disk.snapshots[JobOf(written.key) := written]))
  }

  ghost predicate IsRun(run: Run) {
    && |run.states| == |run.events| + 1
    && run.states[0] == Sys(Disk(map[], map[]), None)
    && forall k :: 0 <= k < |run.events| ==> Step(run.states[k], run.events[k], run.states[k + 1])
  }

  function IntentsAt(run: Run, k: nat): map<IngressId, Record>
    requires k < |run.states|
  {
    run.states[k].disk.intents
  }

  // ---------------------------------------------------------------- what a reachable store looks like

  /** The promotion link of one record. */
  predicate Linked(id: IngressId, r: Record) {
    && r.ingressId == id && IngressOf(r.intent) == id
    && (r.canonicalKey.Some? <==> r.state == Promoted || r.state == Settled)
    && (r.canonicalKey.Some? ==>
          SameIngressKey(r.intent, r.canonicalKey.value) && r.intent.prNumber == Some(r.canonicalKey.value.prNumber))
    && (r.state == LifecycleState.NoPr <==> r.intent.prNumber.None?)
    && r.generation <= r.revision
  }

  ghost predicate AllLinked(intents: map<IngressId, Record>) {
    forall id :: id in intents ==> Linked(id, intents[id])
  }

  lemma {:induction false} PlanIsLinked(disk: Disk, req: Request)
    requires AllLinked(disk.intents) && PlanFor(disk, req).Ok?
    ensures var plan := PlanFor(disk, req).value;
            && plan.id == IngressOf(req.intent) && Linked(plan.id, plan.record)
            && (plan.id in disk.intents ==> plan.record.revision == disk.intents[plan.id].revision + 1)
            && (plan.id !in disk.intents ==> plan.record.revision == 1)
  {
  }

  /** The state of a reachable system: links hold, files carry their own identity, and the lock holder
      still has the plan it would make now. */
  ghost predicate Sound(s: Sys) {
    && AllLinked(s.disk.intents)
    && (forall j :: j in s.disk.snapshots ==> JobOf(s.disk.snapshots[j].key) == j)
    && (s.holder.Some? ==> PlanFor(s.disk, s.holder.value.req) == Ok(s.holder.value.plan))
  }

  lemma {:induction false} StepIsSound(s: Sys, e: Event, t: Sys)
    requires Sound(s) && Step(s, e, t)
    ensures Sound(t)
  {
    match e
    case Begin(req, _) => assert PlanFor(t.disk, req) == PlanFor(s.disk, req);
    case Finish => PlanIsLinked(s.disk, s.holder.value.req);
    case BareSnapshot(_) =>
      if s.holder.Some? {
        assert PlanFor(t.disk, s.holder.value.req) == PlanFor(s.disk, s.holder.value.req);
      }
    case _ =>
  }

  /** In every reachable store promotion links never dangle, whatever requests were made, versioned or not. */
  lemma {:induction false} ReachableIsSound(run: Run, k: nat)
    requires IsRun(run) && k < |run.states|
    ensures Sound(run.states[k])
  {
    if k > 0 {
      ReachableIsSound(run, k - 1);
      StepIsSound(run.states[k - 1], run.events[k - 1], run.states[k]);
    }
  }

  // ---------------------------------------------------------------- revisions

  predicate CommitsTo(run: Run, id: IngressId, k: nat)
    requires k < |run.events| && |run.states| == |run.events| + 1
  {
    run.events[k] == Finish && run.states[k].holder.Some? && run.states[k].holder.value.plan.id == id
  }

  /** How many writes of `id` had committed by point `k`. */
  function Commits(run: Run, id: IngressId, k: nat): nat
    requires |run.states| == |run.events| + 1 && k < |run.states|
    decreases k
  {
    if k == 0 then 0 else Commits(run, id, k - 1) + if CommitsTo(run, id, k - 1) then 1 else 0
  }

  lemma {:induction false} CommitStep(run: Run, id: IngressId, k: nat)
    requires IsRun(run) && k < |run.events|
    ensures if CommitsTo(run, id, k) then
              && id in IntentsAt(run, k + 1)
              && IntentsAt(run, k + 1)[id].revision
                 == if id in IntentsAt(run, k) then IntentsAt(run, k)[id].revision + 1 else 1
            else Lookup(IntentsAt(run, k + 1), id) == Lookup(IntentsAt(run, k), id)
  {
    ReachableIsSound(run, k);
    assert Step(run.states[k], run.events[k], run.states[k + 1]);
    if run.events[k] == Finish {
      PlanIsLinked(run.states[k].disk, run.states[k].holder.value.req);
    }
  }

  ghost predicate Counted(run: Run, id: IngressId, k: nat)
    requires |run.states| == |run.events| + 1 && k < |run.states|
  {
    if id in IntentsAt(run, k) then IntentsAt(run, k)[id].revision == Commits(run, id, k) else Commits(run, id, k) == 0
  }

  lemma {:induction false} CountedNext(run: Run, id: IngressId, k: nat)
    requires IsRun(run) && 0 < k < |run.states| && Counted(run, id, k - 1)
    ensures Counted(run, id, k)
  {
    CommitStep(run, id, k - 1);
  }

  /** A record's revision is the number of writes committed to it: each raises it by exactly one. */
  lemma {:induction false} RevisionCountsCommits(run: Run, id: IngressId, k: nat)
    requires IsRun(run) && k < |run.states|
    ensures id in IntentsAt(run, k) ==> IntentsAt(run, k)[id].revision == Commits(run, id, k)
    ensures id !in IntentsAt(run, k) ==> Commits(run, id, k) == 0
    decreases k
  {
    if k > 0 {
      RevisionCountsCommits(run, id, k - 1);
      CountedNext(run, id, k);
    }
  }

  /** No revision recurs: a record is never removed, its revision never falls, and equal revisions at
      two points mean it was the same record all along. */
  lemma {:induction false} RevisionsNeverRecur(run: Run, id: IngressId, i: nat, j: nat)
    requires IsRun(run) && i <= j < |run.states| && id in IntentsAt(run, i)
    ensures id in IntentsAt(run, j) && IntentsAt(run, i)[id].revision <= IntentsAt(run, j)[id].revision
    ensures IntentsAt(run, i)[id].revision == IntentsAt(run, j)[id].revision ==>
              forall m :: i <= m <= j ==> id in IntentsAt(run, m) && IntentsAt(run, m)[id] == IntentsAt(run, i)[id]
    decreases j
  {
    if i < j {
      RevisionsNeverRecur(run, id, i, j - 1);
      CommitStep(run, id, j - 1);
    }
  }

  // ---------------------------------------------------------------- fencing

  /** A worker acts on the version of a record it read, unsettled, at an earlier point. */
  ghost predicate ReadBefore(run: Run, k: nat, req: Request, readAt: nat)
    requires IsRun(run) && k < |run.states| && !req.Enqueue?
  {
    && readAt <= k && IngressOf(req.intent) in IntentsAt(run, readAt)
    && var r := IntentsAt(run, readAt)[IngressOf(req.intent)];
       r.state != Settled && req.expected == Version(Some(r.generation), Some(r.revision))
  }

  ghost predicate Fenced(run: Run) {
    && IsRun(run)
    && forall k :: 0 <= k < |run.events| && run.events[k].Begin? && !run.events[k].req.Enqueue? ==>
         ReadBefore(run, k, run.events[k].req, run.events[k].readAt)
  }

  /** A versioned write is admitted only while the very record its worker read is still there: nothing,
      in particular no enqueue, has been committed to that record in between. */
  lemma {:induction false} FenceHolds(run: Run, k: nat)
    requires Fenced(run) && k < |run.events| && run.events[k].Begin? && !run.events[k].req.Enqueue?
    ensures var id, readAt := IngressOf(run.events[k].req.intent), run.events[k].readAt;
            && id in IntentsAt(run, readAt)
            && (forall m :: readAt <= m <= k ==>
                  id in IntentsAt(run, m) && IntentsAt(run, m)[id] == IntentsAt(run, readAt)[id])
            && Commits(run, id, k) == Commits(run, id, readAt)
  {
    var id, readAt := IngressOf(run.events[k].req.intent), run.events[k].readAt;
    assert ReadBefore(run, k, run.events[k].req, readAt);
    assert Step(run.states[k], run.events[k], run.states[k + 1]);
    assert VersionHolds(Lookup(IntentsAt(run, k), id), run.events[k].req.expected);
    RevisionsNeverRecur(run, id, readAt, k);
    RevisionCountsCommits(run, id, readAt);
    RevisionCountsCommits(run, id, k);
  }

  /** Where the transaction now holding the lock began; the records have not moved since. */
  lemma {:induction false} HolderBegan(run: Run, k: nat) returns (b: nat)
    requires IsRun(run) && k < |run.states| && run.states[k].holder.Some?
    ensures b < k && run.events[b].Begin? && run.events[b].req == run.states[k].holder.value.req
    ensures IntentsAt(run, b) == IntentsAt(run, k)
    ensures forall m :: b < m < k ==> run.events[m] != Finish
  {
    b := k - 1;
    if !run.events[b].Begin? {
      b := HolderBegan(run, k - 1);
    }
  }

  /** Whatever commits at `k` replaces the record its worker read. */
  lemma {:induction false} CommitSeesWhatWasRead(run: Run, k: nat) returns (b: nat)
    requires Fenced(run) && k < |run.events| && run.events[k] == Finish && run.states[k].holder.Some?
    requires !run.states[k].holder.value.req.Enqueue?
    ensures b < k && run.events[b].Begin? && run.events[b].req == run.states[k].holder.value.req
    ensures var id := run.states[k].holder.value.plan.id;
            && run.events[b].readAt <= b && id in IntentsAt(run, run.events[b].readAt) && id in IntentsAt(run, k)
            && IntentsAt(run, k)[id] == IntentsAt(run, run.events[b].readAt)[id]
            && IntentsAt(run, k)[id].state != Settled
            && IntentsAt(run, k + 1)[id].revision == IntentsAt(run, k)[id].revision + 1
  {
    b := HolderBegan(run, k);
    FenceHolds(run, b);
    ReachableIsSound(run, k);
    PlanIsLinked(run.states[k].disk, run.states[k].holder.value.req);
  }

  /** SETTLED is left only by an enqueue. */
  lemma {:induction false} SettledLeftByEnqueue(run: Run, k: nat, id: IngressId)
    requires Fenced(run) && k < |run.events|
    requires id in IntentsAt(run, k) && IntentsAt(run, k)[id].state == Settled
    ensures id in IntentsAt(run, k + 1)
    ensures IntentsAt(run, k + 1)[id] != IntentsAt(run, k)[id] ==>
              run.events[k] == Finish && run.states[k].holder.value.req.Enqueue?
              && IngressOf(run.states[k].holder.value.req.intent) == id
  {
    RevisionsNeverRecur(run, id, k, k + 1);
    assert Step(run.states[k], run.events[k], run.states[k + 1]);
    if run.events[k] == Finish {
      ReachableIsSound(run, k);
      PlanIsLinked(run.states[k].disk, run.states[k].holder.value.req);
      if !run.states[k].holder.value.req.Enqueue? {
        var b := CommitSeesWhatWasRead(run, k);
      }
    }
  }

  // ---------------------------------------------------------------- lock-free readers

  ghost predicate PromotionsCarrySnapshots(run: Run) {
    && IsRun(run)
    && forall k :: 0 <= k < |run.events| && run.events[k].Begin? && run.events[k].req.Promote? ==>
         run.events[k].req.snapshot.Some?
  }

  ghost predicate SnapshotWritten(snapshots: map<JobId, Snapshot>, r: Record) {
    r.state == Promoted ==> r.canonicalKey.Some? && JobOf(r.canonicalKey.value) in snapshots
  }

  ghost predicate EveryPromotionIsBacked(s: Sys) {
    && (forall id :: id in s.disk.intents ==> SnapshotWritten(s.disk.snapshots, s.disk.intents[id]))
    && (s.holder.Some? ==> SnapshotWritten(s.disk.snapshots, s.holder.value.plan.record))
  }

  lemma {:induction false} StepKeepsBacking(s: Sys, e: Event, t: Sys)
    requires Sound(s) && EveryPromotionIsBacked(s) && Step(s, e, t)
    requires e.Begin? && e.req.Promote? ==> e.req.snapshot.Some?
    ensures EveryPromotionIsBacked(t)
  {
    assert s.disk.snapshots.Keys <= t.disk.snapshots.Keys;
    if e.Begin? {
      PlanIsLinked(s.disk, e.req);
      assert t.disk.intents == s.disk.intents;
    }
  }

  lemma {:induction false} PromotionsAreBacked(run: Run, k: nat)
    requires PromotionsCarrySnapshots(run) && k < |run.states|
    ensures EveryPromotionIsBacked(run.states[k])
  {
    if k > 0 {
      PromotionsAreBacked(run, k - 1);
      ReachableIsSound(run, k - 1);
      StepKeepsBacking(run.states[k - 1], run.events[k - 1], run.states[k]);
    }
  }

  lemma {:induction false} SnapshotsStay(run: Run, i: nat, j: nat)
    requires IsRun(run) && i <= j < |run.states|
    ensures run.states[i].disk.snapshots.Keys <= run.states[j].disk.snapshots.Keys
    decreases j
  {
    if i < j {
      SnapshotsStay(run, i, j - 1);
      assert Step(run.states[j - 1], run.events[j - 1], run.states[j]);
    }
  }

  /** A reader that takes no lock reads the record file at `i` and the snapshot file at any later point
      `j`, whatever commits or crashes in between. If the record it saw was promoted, its target is
      linked to that record's job and the snapshot it then finds is one of exactly that job. */
  lemma {:induction false} ReaderFindsSnapshot(run: Run, i: nat, j: nat, target: Target, maxAge: nat, now: Time)
    requires PromotionsCarrySnapshots(run) && i <= j < |run.states|
    requires target.Unresolved?
    requires var id := IngressOf(LookupIntent(target));
             id in IntentsAt(run, i) && IntentsAt(run, i)[id].state == Promoted
    ensures var key := PromotedKey(IntentsAt(run, i), target);
            && key == IntentsAt(run, i)[IngressOf(LookupIntent(target))].canonicalKey && key.Some?
            && var r := ReadJob(run.states[j].disk.snapshots, key.value, maxAge, now);
               && r.status != Missing
               && (r.status != Invalid ==> r.snapshot.Some? && SameJob(r.snapshot.value.key, key.value))
  {
    ReachableIsSound(run, i);
    ReachableIsSound(run, j);
    PromotionsAreBacked(run, i);
    SnapshotsStay(run, i, j);
    var id := IngressOf(LookupIntent(target));
    assert Linked(id, IntentsAt(run, i)[id]);
  }

  ghost predicate WritesAccepted(run: Run) {
    forall k :: 0 <= k < |run.events| ==>
      match run.events[k]
      case BareSnapshot(written) => Accepted(written)
      case Begin(req, _) =>
        (match req
         case Promote(_, _, _, _, snapshot) => snapshot.Some? ==> Accepted(snapshot.value)
         case Settle(_, _, _, snapshot) => snapshot.Some? ==> Accepted(snapshot.value)
         case ScheduleRetry(_, _, _, snapshot) => snapshot.Some? ==> Accepted(snapshot.value)
         case WriteSnapshot(_, written, _) => Accepted(written)
         case _ => true)
      case _ => true
  }

  /** When every written snapshot passes the validator, so does every stored one, and the reader above
      never sees an invalid result. */
  lemma {:induction false} StoredAreAccepted(run: Run, k: nat)
    requires IsRun(run) && WritesAccepted(run) && k < |run.states|
    ensures forall j :: j in run.states[k].disk.snapshots ==> Accepted(run.states[k].disk.snapshots[j])
  {
    if k > 0 {
      StoredAreAccepted(run, k - 1);
      assert Step(run.states[k - 1], run.events[k - 1], run.states[k]);
    }
  }
}

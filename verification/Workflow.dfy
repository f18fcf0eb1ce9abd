/** What a drain does with one resolved intent: _resolution_outcome, _consume_observed and
    _persist_unavailable of src/agentic_pr_dash/lifecycle_workflow.py. */
module Workflow {
  import opened Wrappers
  import opened LifecycleModels
  import opened Settlement
  import opened LifecycleStore
  import opened StoreRuns

  datatype PrState = Open | Merged | Closed | OtherState

  /** The remote answer for an intent; `readyForReview` is isDraft being exactly false. */
  datatype ResolvedPr = ResolvedPr(state: PrState, readyForReview: bool, repository: string, number: Pos,
                                   headSha: string)

  /** The local checkout of a placeholder's branch. */
  datatype LocalIdentity = LocalIdentity(pushedRef: string, headSha: string, worktreePath: string)

  datatype Outcome = Progressed | NoPrFound | Deferred | Failed

  const PLACEHOLDER: string := "unresolved-pr:"
  const ADOPTED: string := "remote head change adopted"
  const FOREVER: nat := 1_000_000_000_000 * 1_000_000

  predicate IsPlaceholder(r: Record) {
    PLACEHOLDER <= r.intent.headSha
  }

  function VersionOf(r: Record): Version {
    Version(Some(r.generation), Some(r.revision))
  }

  // ---------------------------------------------------------------- the decision

  datatype Action =
    | NothingFound
    | Unobservable(number: Option<Pos>)
    | ReplacePlaceholder(replacement: Intent, key: Key)
    | Retire(key: Key)
    | AdoptHead(replacement: Intent, key: Key)
    | Observe

  function OldKey(r: Record, repository: string, number: Pos): Key {
    Key(repository, number, r.intent.headSha, r.intent.workflowType)
  }

  function Decide(r: Record, resolved: Option<ResolvedPr>, local: Option<LocalIdentity>, now: Time): Action {
    if resolved.None? then
      if r.intent.prNumber.None? then NothingFound else Unobservable(r.intent.prNumber)
    else
      var pr := resolved.value;
      if IsPlaceholder(r) then
        if local.None? || local.value.headSha != pr.headSha then Unobservable(Some(pr.number))
        else
          ReplacePlaceholder(
            r.intent.(repository := pr.repository, pushedRef := local.value.pushedRef, headSha := pr.headSha,
                      worktreePath := local.value.worktreePath),
            OldKey(r, r.intent.repository, pr.number))
      else if pr.state == Merged || pr.state == Closed then Retire(OldKey(r, pr.repository, pr.number))
      else if pr.state != Open || !pr.readyForReview then Unobservable(Some(pr.number))
      else if Casefold(pr.repository) != Casefold(r.intent.repository) then Unobservable(Some(pr.number))
      else if pr.headSha != r.intent.headSha then
        AdoptHead(
          r.intent.(repository := pr.repository, headSha := pr.headSha, prNumber := Some(pr.number),
                    reason := ADOPTED, requestedAt := now),
          OldKey(r, pr.repository, pr.number))
      else Observe
  }

  function UnavailableRequest(disk: Disk, r: Record, number: Option<Pos>, now: Time, retry: nat): Request {
    var snapshot :=
      if number.None? then None
      else
        var key := OldKey(r, r.intent.repository, number.value);
        UnavailableSnapshot(ReadJob(disk.snapshots, key, FOREVER, now).snapshot, key, now);
    ScheduleRetry(r.intent, now + retry, VersionOf(r), snapshot)
  }

  /** The store requests of one decision, in the order they are made. */
  function Requests(disk: Disk, r: Record, action: Action, now: Time, retry: nat): seq<Request> {
    match action
    case NothingFound => [Request.MarkNoPr(r.intent, Some(now + retry), VersionOf(r))]
    case Unobservable(number) => [UnavailableRequest(disk, r, number, now, retry)]
    case ReplacePlaceholder(replacement, key) =>
      [Request.Enqueue(replacement), Settle(r.intent, key, VersionOf(r), None)]
    case Retire(key) => [Settle(r.intent, key, VersionOf(r), None)]
    case AdoptHead(replacement, key) => [Request.Enqueue(replacement), Settle(r.intent, key, VersionOf(r), None)]
    case Observe => []
  }

  /** Requests run until the first that is refused. */
  function Execute(disk: Disk, reqs: seq<Request>): (Disk, Option<Error>)
    decreases |reqs|
  {
    if reqs == [] then (disk, None)
    else
      match PlanFor(disk, reqs[0])
      case Ok(plan) => Execute(Commit(disk, plan), reqs[1..])
      case Err(error) => (disk, Some(error))
  }

  lemma {:induction false} ExecuteOne(disk: Disk, req: Request)
    ensures PlanFor(disk, req).Ok? ==> Execute(disk, [req]) == (Commit(disk, PlanFor(disk, req).value), None)
    ensures PlanFor(disk, req).Err? ==> Execute(disk, [req]) == (disk, Some(PlanFor(disk, req).error))
  {
    assert [req][1..] == [];
  }

  lemma {:induction false} ExecuteTwo(disk: Disk, first: Request, second: Request)
    ensures PlanFor(disk, first).Ok? ==>
              Execute(disk, [first, second]) == Execute(Commit(disk, PlanFor(disk, first).value), [second])
    ensures PlanFor(disk, first).Err? ==> Execute(disk, [first, second]) == (disk, Some(PlanFor(disk, first).error))
  {
    assert [first, second][1..] == [second];
  }

  lemma {:induction false} SnapshotKeepsKey(promoted: bool, stored: Option<Snapshot>, key: Key, now: Time, o: Observed,
                         interval: nat, combined: bool)
    ensures TakeSnapshot(promoted, stored, key, now, o, interval, combined).key == key
  {
  }

  function NextCheck(s: Snapshot): Option<Time> {
    if s.watch.Some? then Some(s.watch.value.nextCheckAt) else None
  }

  /** The time is the next check of the snapshot's watch, which is armed and has it ahead. */
  predicate AtNextCheck(s: Snapshot, now: Time, at: Option<Time>) {
    && s.watch.Some? && s.watch.value.status == Armed && now < s.watch.value.nextCheckAt
    && at == Some(s.watch.value.nextCheckAt)
  }

  lemma {:induction false} TakenIsNow(promoted: bool, stored: Option<Snapshot>, key: Key, now: Time, o: Observed,
                                      interval: nat, combined: bool)
    ensures var s := TakeSnapshot(promoted, stored, key, now, o, interval, combined);
            s.key == key && s.observedAt == now && (s.settled ==> s.watch.Some? && AtNextCheck(s, now, NextCheck(s)))
  {
    SettledIsWatched(promoted, stored, key, now, o, interval, combined);
  }

  /** The record's next attempt is at the given time. */
  predicate RetriedAt(intents: map<IngressId, Record>, r: Record, at: Time) {
    IngressOf(r.intent) in intents && intents[IngressOf(r.intent)].nextAttemptAt == Some(at)
  }

  function ObservedRequest(disk: Disk, r: Record, pr: ResolvedPr, observed: Option<Observed>, combined: bool,
                           now: Time, retry: nat, interval: nat): Request
  {
    if observed.None? then UnavailableRequest(disk, r, Some(pr.number), now, retry)
    else
      var key := OldKey(r, pr.repository, pr.number);
      var snapshot := TakeSnapshot(r.state == Promoted, ReadJob(disk.snapshots, key, FOREVER, now).snapshot, key, now,
                                   observed.value, interval, combined);
      Promote(r.intent, key,
              Some(if snapshot.settled && snapshot.watch.Some? then snapshot.watch.value.nextCheckAt else now + retry),
              VersionOf(r), Some(snapshot))
  }

  /** The job's snapshot was observed now, and the record is retried at the next check of its watch if it is settled,
      after the retry interval if not. */
  predicate Consumed(disk: Disk, r: Record, j: JobId, now: Time, retry: nat) {
    && j in disk.snapshots && disk.snapshots[j].observedAt == now
    && (disk.snapshots[j].settled ==> disk.snapshots[j].watch.Some?)
    && RetriedAt(disk.intents, r,
                 if disk.snapshots[j].settled then disk.snapshots[j].watch.value.nextCheckAt else now + retry)
  }

  lemma {:induction false} ConsumedStores(disk: Disk, r: Record, pr: ResolvedPr, o: Observed, combined: bool,
                                          now: Time, retry: nat, interval: nat)
    ensures var done := Execute(disk, [ObservedRequest(disk, r, pr, Some(o), combined, now, retry, interval)]);
            done.1.None? ==> Consumed(done.0, r, JobOf(OldKey(r, pr.repository, pr.number)), now, retry)
  {
    var key := OldKey(r, pr.repository, pr.number);
    var req := ObservedRequest(disk, r, pr, Some(o), combined, now, retry, interval);
    ExecuteOne(disk, req);
    if PlanFor(disk, req).Ok? {
      TakenIsNow(r.state == Promoted, ReadJob(disk.snapshots, key, FOREVER, now).snapshot, key, now, o, interval,
                 combined);
      PromotionStores(disk, req);
    }
  }

  lemma {:induction false} PromotionStores(disk: Disk, q: Request)
    requires q.Promote? && q.snapshot.Some? && PlanFor(disk, q).Ok?
    ensures var after := Commit(disk, PlanFor(disk, q).value);
            && after.snapshots == disk.snapshots[JobOf(q.snapshot.value.key) := q.snapshot.value]
            && IngressOf(q.intent) in after.intents && after.intents[IngressOf(q.intent)].nextAttemptAt == q.next
  {
  }

  /** What a turn that could not observe leaves in the file of its job: a snapshot that could be read stays, but for a
      watch whose next check has passed, which is due; otherwise it says that nothing could be observed now. */
  predicate Unobserved(before: map<JobId, Snapshot>, after: map<JobId, Snapshot>, key: Key, now: Time) {
    var j := JobOf(key);
    && j in after
    && if j in before && Accepted(before[j]) && SameJob(before[j].key, key) then
         var w := before[j].watch;
         after[j] == if w.Some? && w.value.status == Armed && w.value.nextCheckAt <= now
                     then before[j].(watch := Some(w.value.(status := Due))) else before[j]
       else
         && after[j].key == key && after[j].observedAt == now && after[j].health == Health.Unavailable
         && after[j].blockers == [ObservationUnavailable] && !after[j].settled && after[j].watch.None?
  }

  lemma {:induction false} UnobservedStores(disk: Disk, r: Record, number: Pos, now: Time, retry: nat)
    ensures var done := Execute(disk, [UnavailableRequest(disk, r, Some(number), now, retry)]);
            done.1.None? ==>
              Unobserved(disk.snapshots, done.0.snapshots, OldKey(r, r.intent.repository, number), now)
  {
    ExecuteOne(disk, UnavailableRequest(disk, r, Some(number), now, retry));
  }

  class LifecycleWorkflow {
    const store: LifecycleStore
    const retryInterval: nat
    const stabilizationInterval: nat

    constructor (store: LifecycleStore, retryInterval: nat, stabilizationInterval: nat)
      requires 0 < retryInterval
      ensures this.store == store && this.retryInterval == retryInterval
      ensures this.stabilizationInterval == stabilizationInterval
    {
      this.store, this.retryInterval, this.stabilizationInterval := store, retryInterval, stabilizationInterval;
    }

    /** Only a stale version is swallowed; any other refusal escapes to the caller. */
    method PersistUnavailable(record: Record, number: Option<Pos>, now: Time) returns (escaped: Option<Error>)
      modifies store
      ensures var done := Execute(old(store.Contents()),
                                  [UnavailableRequest(old(store.Contents()), record, number, now, retryInterval)]);
              store.Contents() == done.0 && escaped == (if done.1 == Some(StaleVersion) then None else done.1)
      ensures store.intents == old(store.intents) || RetriedAt(store.intents, record, now + retryInterval)
      ensures number.Some? && store.intents != old(store.intents) ==>
                Unobserved(old(store.snapshots), store.snapshots,
                           OldKey(record, record.intent.repository, number.value), now)
    {
      var snapshot: Option<Snapshot> := None;
      if number.Some? {
        UnobservedStores(store.Contents(), record, number.value, now, retryInterval);
        var key := OldKey(record, record.intent.repository, number.value);
        var previous := store.ReadSnapshot(Exact(key), FOREVER, now);
        if previous.snapshot.None? {
          snapshot := Some(HeadDrift(key, now));
        } else {
          snapshot := UnavailableSnapshot(previous.snapshot, key, now);
        }
      }
      var written := store.ScheduleRetry(record.intent, now + retryInterval, VersionOf(record), snapshot);
      if written.Err? && written.error != StaleVersion {
        return Some(written.error);
      }
      escaped := None;
    }

    /** The outcome that ends the intent's turn, None when it goes on to be observed, or the error that
        escapes. A stale version ends the turn as deferred. */
    method ResolutionOutcome(record: Record, resolved: Option<ResolvedPr>, local: Option<LocalIdentity>, now: Time)
      returns (r: Result<Option<Outcome>, Error>)
      modifies store
      ensures var action := Decide(record, resolved, local, now);
              var done := Execute(old(store.Contents()),
                                  Requests(old(store.Contents()), record, action, now, retryInterval));
              && store.Contents() == done.0
              && r == if done.1.Some? && done.1.value != StaleVersion then Err(done.1.value)
                      else if done.1.Some? then Ok(Some(Deferred))
                      else match action
                           case NothingFound => Ok(Some(NoPrFound))
                           case Unobservable(_) => Ok(Some(Deferred))
                           case Observe => Ok(None)
                           case _ => Ok(Some(Progressed))
      ensures r == Ok(Some(NoPrFound)) ==> RetriedAt(store.intents, record, now + retryInterval)
    {
      if resolved.None? {
        if record.intent.prNumber.None? {
          var marked := store.MarkNoPr(record.intent, Some(now + retryInterval), VersionOf(record));
          return if marked.Ok? then Ok(Some(NoPrFound)) else Escape(marked.error);
        }
        var escaped := PersistUnavailable(record, record.intent.prNumber, now);
        return if escaped.Some? then Err(escaped.value) else Ok(Some(Deferred));
      }
      var pr := resolved.value;
      if IsPlaceholder(record) {
        if local.None? || local.value.headSha != pr.headSha {
          var escaped := PersistUnavailable(record, Some(pr.number), now);
          return if escaped.Some? then Err(escaped.value) else Ok(Some(Deferred));
        }
        var replacement := record.intent.(repository := pr.repository, pushedRef := local.value.pushedRef,
                                          headSha := pr.headSha, worktreePath := local.value.worktreePath);
        r := EnqueueThenSettle(record, replacement, OldKey(record, record.intent.repository, pr.number));
        return;
      }
      if pr.state == Merged || pr.state == Closed {
        var key := OldKey(record, pr.repository, pr.number);
        var settled := store.SettleIntent(record.intent, key, VersionOf(record), None);
        return if settled.Ok? then Ok(Some(Progressed)) else Escape(settled.error);
      }
      if || pr.state != Open || !pr.readyForReview
         || Casefold(pr.repository) != Casefold(record.intent.repository)
      {
        var escaped := PersistUnavailable(record, Some(pr.number), now);
        return if escaped.Some? then Err(escaped.value) else Ok(Some(Deferred));
      }
      if pr.headSha != record.intent.headSha {
        var replacement := record.intent.(repository := pr.repository, headSha := pr.headSha,
                                          prNumber := Some(pr.number), reason := ADOPTED, requestedAt := now);
        r := EnqueueThenSettle(record, replacement, OldKey(record, pr.repository, pr.number));
        return;
      }
      r := Ok(None);
    }

    static function Escape(error: Error): Result<Option<Outcome>, Error> {
      if error == StaleVersion then Ok(Some(Deferred)) else Err(error)
    }

    method EnqueueThenSettle(record: Record, replacement: Intent, key: Key) returns (r: Result<Option<Outcome>, Error>)
      modifies store
      ensures var done := Execute(old(store.Contents()),
                                  [Request.Enqueue(replacement), Settle(record.intent, key, VersionOf(record), None)]);
              store.Contents() == done.0 && r == if done.1.Some? then Escape(done.1.value) else Ok(Some(Progressed))
    {
      ExecuteTwo(store.Contents(), Request.Enqueue(replacement), Settle(record.intent, key, VersionOf(record), None));
      var enqueued := store.Enqueue(replacement);
      if enqueued.Err? {
        return Escape(enqueued.error);
      }
      ExecuteOne(store.Contents(), Settle(record.intent, key, VersionOf(record), None));
      var settled := store.SettleIntent(record.intent, key, VersionOf(record), None);
      r := if settled.Ok? then Ok(Some(Progressed)) else Escape(settled.error);
    }

    /** Its retry time is its watch's next check when it is settled. */
    method StoreObserved(record: Record, key: Key, snapshot: Snapshot, now: Time)
      returns (r: Result<Option<Outcome>, Error>)
      modifies store
      ensures var next := if snapshot.settled && snapshot.watch.Some? then snapshot.watch.value.nextCheckAt
                          else now + retryInterval;
              var done := Execute(old(store.Contents()),
                                  [Promote(record.intent, key, Some(next), VersionOf(record), Some(snapshot))]);
              && store.Contents() == done.0
              && r == if done.1.Some? then Escape(done.1.value) else Ok(Some(Progressed))
    {
      var next := now + retryInterval;
      if snapshot.settled && snapshot.watch.Some? {
        next := snapshot.watch.value.nextCheckAt;
      }
      var promoted := store.PromoteIntent(record.intent, key, Some(next), VersionOf(record), Some(snapshot));
      r := if promoted.Ok? then Ok(Some(Progressed)) else Escape(promoted.error);
    }

    /** An observation in hand is stored by promotion; the retry time of a settled one is its watch's
        next check. An escaped error is what the drain counts as failed. */
    method ConsumeObserved(record: Record, pr: ResolvedPr, observed: Option<Observed>, combined: bool, now: Time)
      returns (r: Result<Option<Outcome>, Error>)
      modifies store
      ensures var req := ObservedRequest(old(store.Contents()), record, pr, observed, combined, now, retryInterval,
                                         stabilizationInterval);
              var done := Execute(old(store.Contents()), [req]);
              && store.Contents() == done.0
              && r == if done.1.Some? then Escape(done.1.value)
                      else Ok(Some(if observed.None? then Deferred else Progressed))
      ensures r == Ok(Some(Deferred)) ==>
                store.intents == old(store.intents) || RetriedAt(store.intents, record, now + retryInterval)
      ensures r == Ok(Some(Progressed)) ==>
                Consumed(store.Contents(), record, JobOf(OldKey(record, pr.repository, pr.number)), now, retryInterval)
    {
      if observed.None? {
        var escaped := PersistUnavailable(record, Some(pr.number), now);
        return if escaped.Some? then Err(escaped.value) else Ok(Some(Deferred));
      }
      var key := OldKey(record, pr.repository, pr.number);
      var previous := store.ReadSnapshot(Exact(key), FOREVER, now);
      var snapshot := TakeSnapshot(record.state == Promoted, previous.snapshot, key, now, observed.value,
                                   stabilizationInterval, combined);
      ConsumedStores(store.Contents(), record, pr, observed.value, combined, now, retryInterval, stabilizationInterval);
      r := StoreObserved(record, key, snapshot, now);
    }
  }

  // ---------------------------------------------------------------- what the decision means

  predicate Listable(intents: map<IngressId, Record>, id: IngressId) {
    id in intents && intents[id].state != Settled
  }

  /** What a turn can ask of the store: the requests of its decision, the one after its observation, or, when
      the lookup or the observation raised, the unavailable one. */
  ghost predicate Asked(disk: Disk, r: Record, resolved: Option<ResolvedPr>, local: Option<LocalIdentity>,
                        pr: ResolvedPr, observed: Option<Observed>, combined: bool, now: Time,
                        retry: nat, interval: nat, q: Request)
  {
    || q in Requests(disk, r, Decide(r, resolved, local, now), now, retry)
    || q == ObservedRequest(disk, r, pr, observed, combined, now, retry, interval)
    || q == UnavailableRequest(disk, r, r.intent.prNumber, now, retry)
    || q == UnavailableRequest(disk, r, Some(pr.number), now, retry)
  }

  lemma {:induction false} ResolutionNeverPromotes(disk: Disk, r: Record, action: Action, now: Time, retry: nat,
                                                   q: Request)
    requires q in Requests(disk, r, action, now, retry)
    ensures !q.Promote? && !q.WriteSnapshot?
  {
  }

  lemma {:induction false} PromotesObserved(disk: Disk, r: Record, resolved: Option<ResolvedPr>,
                                            local: Option<LocalIdentity>,
                                            pr: ResolvedPr, observed: Option<Observed>, combined: bool, now: Time,
                                            retry: nat, interval: nat, q: Request)
    requires Asked(disk, r, resolved, local, pr, observed, combined, now, retry, interval, q) && q.Promote?
    ensures observed.Some? && q == ObservedRequest(disk, r, pr, observed, combined, now, retry, interval)
  {
    var action := Decide(r, resolved, local, now);
    if q in Requests(disk, r, action, now, retry) {
      ResolutionNeverPromotes(disk, r, action, now, retry, q);
    }
  }

  /** Whatever a turn asks of the store, other than an enqueue, is about the record it holds at the version it
      read, and every promotion carries a snapshot of the job it links to. */
  lemma {:induction false} RequestsAreFenced(disk: Disk, r: Record, resolved: Option<ResolvedPr>,
                                             local: Option<LocalIdentity>,
                                             pr: ResolvedPr, observed: Option<Observed>, combined: bool, now: Time,
                                             retry: nat, interval: nat, q: Request)
    requires Asked(disk, r, resolved, local, pr, observed, combined, now, retry, interval, q)
    ensures !q.Enqueue? ==> q.intent == r.intent && q.expected == VersionOf(r)
    ensures q.Promote? ==> q.snapshot.Some? && SameJob(q.snapshot.value.key, q.key)
  {
    if q.Promote? {
      PromotesObserved(disk, r, resolved, local, pr, observed, combined, now, retry, interval, q);
      SnapshotKeepsKey(r.state == Promoted, ReadJob(disk.snapshots, q.key, FOREVER, now).snapshot, q.key, now,
                       observed.value, interval, combined);
    }
  }

  /** An enqueue always leaves its identity listable. */
  lemma {:induction false} EnqueueLists(disk: Disk, intent: Intent)
    requires AllLinked(disk.intents)
    ensures var planned := PlanFor(disk, Request.Enqueue(intent));
            planned.Ok? && Listable(Commit(disk, planned.value).intents, IngressOf(intent))
  {
  }

  /** The record a worker holds is still the stored one. */
  ghost predicate Current(disk: Disk, r: Record) {
    && AllLinked(disk.intents)
    && IngressOf(r.intent) in disk.intents && disk.intents[IngressOf(r.intent)] == r && r.state != Settled
  }

  /** An enqueue followed by a settlement of the record held: at no point is neither identity listable. */
  lemma {:induction false} HandOver(disk: Disk, r: Record, replacement: Intent, key: Key, done: nat)
    requires Current(disk, r) && done <= 2
    ensures var reqs := [Request.Enqueue(replacement), Settle(r.intent, key, VersionOf(r), None)];
            var intents := Execute(disk, reqs[..done]).0.intents;
            Listable(intents, IngressOf(r.intent)) || Listable(intents, IngressOf(replacement))
  {
    var first, second := Request.Enqueue(replacement), Settle(r.intent, key, VersionOf(r), None);
    EnqueueLists(disk, replacement);
    PlanIsLinked(disk, first);
    var mid := Commit(disk, PlanFor(disk, first).value);
    if done == 0 {
      assert [first, second][..0] == [];
    } else if done == 1 {
      assert [first, second][..1] == [first];
      ExecuteOne(disk, first);
    } else {
      assert [first, second][..2] == [first, second];
      ExecuteTwo(disk, first, second);
      ExecuteOne(mid, second);
    }
  }

  /** At every crash point of a turn, that is after any number of its requests, the intent is still
      listable, or its successor identity is, or the turn was for a merged or closed PR. */
  lemma {:induction false} NoCrashPointDrops(disk: Disk, r: Record, resolved: Option<ResolvedPr>,
                                             local: Option<LocalIdentity>, now: Time, retry: nat, done: nat)
    requires Current(disk, r)
    requires done <= |Requests(disk, r, Decide(r, resolved, local, now), now, retry)|
    ensures var action := Decide(r, resolved, local, now);
            var intents := Execute(disk, Requests(disk, r, action, now, retry)[..done]).0.intents;
            || Listable(intents, IngressOf(r.intent))
            || ((action.AdoptHead? || action.ReplacePlaceholder?) && Listable(intents, IngressOf(action.replacement)))
            || (action.Retire? && resolved.Some? && (resolved.value.state == Merged || resolved.value.state == Closed))
  {
    var action := Decide(r, resolved, local, now);
    var reqs := Requests(disk, r, action, now, retry);
    if action.AdoptHead? || action.ReplacePlaceholder? {
      HandOver(disk, r, action.replacement, action.key, done);
    } else if done == 0 {
      assert reqs[..0] == [];
    } else {
      assert reqs[..1] == [reqs[0]];
      ExecuteOne(disk, reqs[0]);
    }
  }

  /** A PR that is open, ready for review, in the intent's repository and at its head is never settled
      by resolution: it goes on to be observed, and its promotion keeps it listable. An unsettled snapshot
      has it retried after the retry interval, a settled one at the next check of the armed watch it carries. */
  lemma {:induction false} OpenPrStaysWatched(disk: Disk, r: Record, pr: ResolvedPr, local: Option<LocalIdentity>,
                                              observed: Observed,
                           combined: bool, now: Time, retry: nat, interval: nat)
    requires Current(disk, r) && !IsPlaceholder(r) && 0 < retry
    requires pr.state == Open && pr.readyForReview && pr.headSha == r.intent.headSha
    requires Casefold(pr.repository) == Casefold(r.intent.repository)
    requires r.intent.prNumber.None? || r.intent.prNumber.value == pr.number
    ensures Decide(r, Some(pr), local, now) == Observe
    ensures var planned := PlanFor(disk, ObservedRequest(disk, r, pr, Some(observed), combined, now, retry, interval));
            && planned.Ok?
            && var s, stored := planned.value.snapshot.value, planned.value.record;
               && stored.state == Promoted && s.observedAt == now
               && (if s.settled then AtNextCheck(s, now, stored.nextAttemptAt)
                   else stored.nextAttemptAt == Some(now + retry))
  {
    var key := OldKey(r, pr.repository, pr.number);
    TakenIsNow(r.state == Promoted, ReadJob(disk.snapshots, key, FOREVER, now).snapshot, key, now, observed, interval,
               combined);
  }

  function NextOf(q: Request): Option<Time> {
    match q
    case Promote(_, _, next, _, _) => next
    case MarkNoPr(_, next, _) => next
    case ScheduleRetry(_, nextAt, _, _) => Some(nextAt)
    case _ => None
  }

  lemma {:induction false} ResolutionNext(disk: Disk, r: Record, action: Action, now: Time, retry: nat, q: Request)
    requires q in Requests(disk, r, action, now, retry) && !q.Enqueue? && !q.Settle?
    ensures NextOf(q) == Some(now + retry)
  {
  }

  lemma {:induction false} ObservedNext(disk: Disk, r: Record, pr: ResolvedPr, o: Observed, combined: bool, now: Time,
                                        retry: nat, interval: nat)
    ensures var q := ObservedRequest(disk, r, pr, Some(o), combined, now, retry, interval);
            && q.Promote? && q.snapshot.Some?
            && if q.snapshot.value.settled then AtNextCheck(q.snapshot.value, now, NextOf(q))
               else NextOf(q) == Some(now + retry)
  {
    var key := OldKey(r, pr.repository, pr.number);
    TakenIsNow(r.state == Promoted, ReadJob(disk.snapshots, key, FOREVER, now).snapshot, key, now, o, interval,
               combined);
  }

  lemma {:induction false} AskedNext(disk: Disk, r: Record, resolved: Option<ResolvedPr>, local: Option<LocalIdentity>,
                                     pr: ResolvedPr, observed: Option<Observed>, combined: bool, now: Time,
                                     retry: nat, interval: nat, q: Request)
    requires !q.Enqueue?
    requires Asked(disk, r, resolved, local, pr, observed, combined, now, retry, interval, q)
    ensures !q.WriteSnapshot?
    ensures q.Promote? ==>
              q.snapshot.Some? && (q.snapshot.value.settled ==> AtNextCheck(q.snapshot.value, now, NextOf(q)))
    ensures !q.Settle? && !(q.Promote? && q.snapshot.value.settled) ==> NextOf(q) == Some(now + retry)
  {
    if q.Promote? {
      PromotesObserved(disk, r, resolved, local, pr, observed, combined, now, retry, interval, q);
      ObservedNext(disk, r, pr, observed.value, combined, now, retry, interval);
    } else {
      OtherNext(disk, r, Decide(r, resolved, local, now), pr, observed, combined, now, retry, interval, q);
    }
  }

  lemma {:induction false} OtherNext(disk: Disk, r: Record, action: Action, pr: ResolvedPr, observed: Option<Observed>,
                                     combined: bool, now: Time, retry: nat, interval: nat, q: Request)
    requires !q.Enqueue? && !q.Promote?
    requires || q in Requests(disk, r, action, now, retry)
             || q == ObservedRequest(disk, r, pr, observed, combined, now, retry, interval)
             || q == UnavailableRequest(disk, r, r.intent.prNumber, now, retry)
             || q == UnavailableRequest(disk, r, Some(pr.number), now, retry)
    ensures !q.WriteSnapshot? && (!q.Settle? ==> NextOf(q) == Some(now + retry))
  {
    if q in Requests(disk, r, action, now, retry) {
      ResolutionNeverPromotes(disk, r, action, now, retry, q);
      if !q.Settle? {
        ResolutionNext(disk, r, action, now, retry, q);
      }
    }
  }

  lemma {:induction false} PlanNext(disk: Disk, r: Record, q: Request)
    requires Current(disk, r) && q.intent == r.intent && PlanFor(disk, q).Ok? && !q.Enqueue? && !q.WriteSnapshot?
    ensures var record := PlanFor(disk, q).value.record;
            && record.intent.requestedAt == r.intent.requestedAt
            && (q.Settle? <==> record.state == Settled) && (!q.Settle? ==> record.nextAttemptAt == NextOf(q))
    ensures q.Promote? ==> PlanFor(disk, q).value.snapshot == q.snapshot
  {
  }

  /** When a turn has its record looked at again: a settlement takes it off the list; an observation stored as settled
      is looked at again at the next check of its armed watch; and whatever else a turn writes, for an unsettled
      observation, a missing one, a lookup that raised or a pull request not found, after the retry interval. The time
      of the original request stays. */
  lemma {:induction false} TurnReschedules(disk: Disk, r: Record, resolved: Option<ResolvedPr>,
                                           local: Option<LocalIdentity>,
                                           pr: ResolvedPr, observed: Option<Observed>, combined: bool, now: Time,
                                           retry: nat, interval: nat, q: Request)
    requires Current(disk, r) && PlanFor(disk, q).Ok? && !q.Enqueue?
    requires Asked(disk, r, resolved, local, pr, observed, combined, now, retry, interval, q)
    ensures var plan := PlanFor(disk, q).value;
            && plan.record.intent.requestedAt == r.intent.requestedAt
            && (q.Settle? <==> plan.record.state == Settled)
            && (q.Promote? ==> plan.snapshot.Some?)
            && (q.Promote? && plan.snapshot.value.settled ==>
                  AtNextCheck(plan.snapshot.value, now, plan.record.nextAttemptAt))
            && (!q.Settle? && !(q.Promote? && plan.snapshot.value.settled) ==>
                  plan.record.nextAttemptAt == Some(now + retry))
  {
    RequestsAreFenced(disk, r, resolved, local, pr, observed, combined, now, retry, interval, q);
    AskedNext(disk, r, resolved, local, pr, observed, combined, now, retry, interval, q);
    PlanNext(disk, r, q);
  }

  /** No gap between two looks at a settled PR: once its snapshot is stored, a reader finds it fresh at any
      age until the very time the record is retried. */
  lemma {:induction false} SettledIsFreshUntilRetry(disk: Disk, r: Record, pr: ResolvedPr, local: Option<LocalIdentity>,
                                                    observed: Observed, combined: bool, now: Time, retry: nat,
                                                    interval: nat, maxAge: nat, readAt: Time)
    requires Current(disk, r) && !IsPlaceholder(r) && 0 < retry
    requires pr.state == Open && pr.readyForReview && pr.headSha == r.intent.headSha
    requires Casefold(pr.repository) == Casefold(r.intent.repository)
    requires r.intent.prNumber.None? || r.intent.prNumber.value == pr.number
    ensures var planned := PlanFor(disk, ObservedRequest(disk, r, pr, Some(observed), combined, now, retry, interval));
            && planned.Ok? && planned.value.snapshot.Some?
            && var s := planned.value.snapshot.value;
               s.settled && Accepted(s) && planned.value.record.nextAttemptAt.Some?
               && readAt < planned.value.record.nextAttemptAt.value ==>
                 ReadJob(Commit(disk, planned.value).snapshots, s.key, maxAge, readAt) == ReadResult(Fresh, Some(s))
  {
    OpenPrStaysWatched(disk, r, pr, local, observed, combined, now, retry, interval);
  }

  /** Exactly when resolution settles an intent: a replaced placeholder, a merged or closed PR, or a
      superseded head of an open one. */
  lemma {:induction false} SettlesExactlyWhen(disk: Disk, r: Record, resolved: Option<ResolvedPr>,
                                              local: Option<LocalIdentity>,
                           now: Time, retry: nat)
    ensures (exists q :: q in Requests(disk, r, Decide(r, resolved, local, now), now, retry) && q.Settle?) <==>
            resolved.Some? &&
            (var pr := resolved.value;
             if IsPlaceholder(r) then local.Some? && local.value.headSha == pr.headSha
             else || pr.state == Merged || pr.state == Closed
                  || (&& pr.state == Open && pr.readyForReview && pr.headSha != r.intent.headSha
                      && Casefold(pr.repository) == Casefold(r.intent.repository)))
  {
    var reqs := Requests(disk, r, Decide(r, resolved, local, now), now, retry);
    if reqs != [] {
      assert reqs[|reqs| - 1] in reqs;
    }
  }

  /** When a turn's error leaves the drain, in terms of the record and the remote answer. */
  predicate Escapes(r: Record, resolved: Option<ResolvedPr>, local: Option<LocalIdentity>) {
    resolved.Some? &&
    var pr := resolved.value;
    var otherPr := r.intent.prNumber.Some? && r.intent.prNumber.value != pr.number;
    var renamed := Casefold(pr.repository) != Casefold(r.intent.repository);
    if IsPlaceholder(r) then
      && otherPr && local.Some? && local.value.headSha == pr.headSha
      && (renamed || local.value.pushedRef != r.intent.pushedRef || pr.headSha != r.intent.headSha)
    else if pr.state == Merged || pr.state == Closed then renamed || otherPr
    else otherPr && pr.state == Open && pr.readyForReview && !renamed && pr.headSha != r.intent.headSha
  }

  /** Resolution of a current record escapes with an error, aborting the drain, exactly when a merged or closed PR
      is now under another repository name, or when a PR must be settled under another number than the intent's:
      merged or closed, at a head to be adopted, or found behind a placeholder of another identity. */
  lemma {:induction false} EscapesExactlyWhen(disk: Disk, r: Record, resolved: Option<ResolvedPr>,
                                              local: Option<LocalIdentity>, now: Time, retry: nat)
    requires Current(disk, r)
    ensures var error := Execute(disk, Requests(disk, r, Decide(r, resolved, local, now), now, retry)).1;
            (error.Some? && error.value != StaleVersion) <==> Escapes(r, resolved, local)
  {
    var action := Decide(r, resolved, local, now);
    var reqs := Requests(disk, r, action, now, retry);
    if action.AdoptHead? || action.ReplacePlaceholder? {
      HandOverEscapes(disk, r, action.replacement, action.key);
    } else if action.Unobservable? {
      UnobservableNeverEscapes(disk, r, action.number, now, retry);
    } else if reqs != [] {
      assert reqs == [reqs[0]];
      ExecuteOne(disk, reqs[0]);
    }
  }

  /** It happens: an intent for o/r whose PR was merged after the repository became o/r2. */
  lemma {:induction false} RenamedMergedPrEscapes(now: Time, retry: nat) returns (disk: Disk, r: Record, pr: ResolvedPr)
    ensures Current(disk, r) && pr.state == Merged && r.intent.prNumber == Some(pr.number)
            && pr.headSha == r.intent.headSha
    ensures Execute(disk, Requests(disk, r, Decide(r, Some(pr), None, now), now, retry)) == (disk, Some(KeyMismatch))
  {
    var intent := Intent("o/r", "refs/heads/b", "aaaa", "w", "push", "/w", "s", 0, Some(1));
    r := Record(IngressOf(intent), intent, LifecycleState.Pending, 1, 1, None, None);
    disk := Disk(map[IngressOf(intent) := r], map[]);
    pr := ResolvedPr(Merged, true, "o/r2", 1, "aaaa");
    assert r.intent.headSha[0] != PLACEHOLDER[0];
    assert |Casefold("o/r2")| != |Casefold("o/r")|;
    var reqs := Requests(disk, r, Decide(r, Some(pr), None, now), now, retry);
    assert reqs == [reqs[0]];
    ExecuteOne(disk, reqs[0]);
  }

  lemma {:induction false} HandOverEscapes(disk: Disk, r: Record, replacement: Intent, key: Key)
    requires Current(disk, r) && SameIngressKey(r.intent, key)
    ensures var reqs := [Request.Enqueue(replacement), Settle(r.intent, key, VersionOf(r), None)];
            var error := Execute(disk, reqs).1;
            (error.Some? && error.value != StaleVersion) <==>
              && r.intent.prNumber.Some? && r.intent.prNumber.value != key.prNumber
              && IngressOf(replacement) != IngressOf(r.intent)
  {
    var first, second := Request.Enqueue(replacement), Settle(r.intent, key, VersionOf(r), None);
    EnqueueLists(disk, replacement);
    PlanIsLinked(disk, first);
    ExecuteTwo(disk, first, second);
    ExecuteOne(Commit(disk, PlanFor(disk, first).value), second);
  }

  lemma {:induction false} UnobservableNeverEscapes(disk: Disk, r: Record, number: Option<Pos>, now: Time, retry: nat)
    requires Current(disk, r)
    ensures Execute(disk, [UnavailableRequest(disk, r, number, now, retry)]).1 == None
  {
    var req := UnavailableRequest(disk, r, number, now, retry);
    ExecuteOne(disk, req);
    if req.snapshot.Some? {
      var key := OldKey(r, r.intent.repository, number.value);
      UnavailableKeepsJob(ReadJob(disk.snapshots, key, FOREVER, now).snapshot, disk.snapshots, key, now);
    }
  }

  lemma {:induction false} UnavailableKeepsJob(stored: Option<Snapshot>, snapshots: map<JobId, Snapshot>, key: Key,
                                               now: Time)
    requires stored == ReadJob(snapshots, key, FOREVER, now).snapshot
    requires UnavailableSnapshot(stored, key, now).Some?
    ensures SameJob(UnavailableSnapshot(stored, key, now).value.key, key)
  {
  }

  lemma {:induction false} HandOverLeaves(disk: Disk, r: Record, replacement: Intent, key: Key)
    requires Current(disk, r)
    requires Execute(disk, [Request.Enqueue(replacement), Settle(r.intent, key, VersionOf(r), None)]).1 == None
    ensures var id := IngressOf(replacement);
            var after := Execute(disk, [Request.Enqueue(replacement), Settle(r.intent, key, VersionOf(r), None)]).0;
            id in after.intents && after.intents[id] == EnqueuedRecord(Lookup(disk.intents, id), replacement)
    ensures r.intent.prNumber.Some? ==> r.intent.prNumber == Some(key.prNumber)
  {
    var first, second := Request.Enqueue(replacement), Settle(r.intent, key, VersionOf(r), None);
    EnqueueLists(disk, replacement);
    ExecuteTwo(disk, first, second);
    ExecuteOne(Commit(disk, PlanFor(disk, first).value), second);
  }

  lemma {:induction false} EnqueuedPr(existing: Option<Record>, intent: Intent)
    requires existing.Some? ==> Linked(IngressOf(existing.value.intent), existing.value)
    ensures var e := EnqueuedRecord(existing, intent);
            && e.state != Settled
            && e.intent.prNumber
               == if existing.Some? && existing.value.state != Settled && existing.value.intent.prNumber.Some? then
                    existing.value.intent.prNumber
                  else intent.prNumber
  {
  }

  /** One identity holds one PR number. After a hand-over that went through, the record of the replacement carries the
      PR exactly when a live intent that already held its identity under a PR number did so under this one, or there
      was none and the replacement names the PR, as an adopted head always does. */
  lemma {:induction false} HandOverKeepsPrExactlyWhen(disk: Disk, r: Record, pr: ResolvedPr,
                                                      local: Option<LocalIdentity>, now: Time, retry: nat)
    requires Current(disk, r)
    requires Decide(r, Some(pr), local, now).AdoptHead? || Decide(r, Some(pr), local, now).ReplacePlaceholder?
    requires Execute(disk, Requests(disk, r, Decide(r, Some(pr), local, now), now, retry)).1 == None
    ensures var action := Decide(r, Some(pr), local, now);
            var id := IngressOf(action.replacement);
            var after := Execute(disk, Requests(disk, r, action, now, retry)).0;
            && id in after.intents && after.intents[id].state != Settled
            && (after.intents[id].intent.prNumber == Some(pr.number) <==>
                  if Listable(disk.intents, id) && disk.intents[id].intent.prNumber.Some? then
                    disk.intents[id].intent.prNumber == Some(pr.number)
                  else action.AdoptHead? || r.intent.prNumber == Some(pr.number))
  {
    var action := Decide(r, Some(pr), local, now);
    HandOverLeaves(disk, r, action.replacement, action.key);
    var id := IngressOf(action.replacement);
    assert id in disk.intents ==> Linked(id, disk.intents[id]);
    EnqueuedPr(Lookup(disk.intents, id), action.replacement);
  }

  /** The other case happens: two PRs push the same branch, the remote head of the first moves to the head
      already recorded for the second, and after a turn that reports progress no intent carries the first. */
  lemma {:induction false} AdoptionCanLosePr() returns (disk: Disk, r: Record, pr: ResolvedPr)
    ensures Current(disk, r) && pr.state == Open && Decide(r, Some(pr), None, 0).AdoptHead?
    ensures var (after, error) := Execute(disk, Requests(disk, r, Decide(r, Some(pr), None, 0), 0, 1));
            && error == None && after.intents.Keys == disk.intents.Keys
            && forall id :: id in after.intents && after.intents[id].state != Settled ==>
                 after.intents[id].intent.prNumber != Some(pr.number)
  {
    var one := Intent("o/r", "refs/heads/b", "aaaa", "w", "push", "/w", "s", 0, Some(1));
    var two := one.(headSha := "bbbb", prNumber := Some(2));
    r := Record(IngressOf(one), one, LifecycleState.Pending, 1, 1, None, None);
    var other := Record(IngressOf(two), two, LifecycleState.Pending, 1, 1, None, None);
    assert IngressOf(one).headSha[0] == 'a' && IngressOf(two).headSha[0] == 'b';
    disk := Disk(map[IngressOf(one) := r, IngressOf(two) := other], map[]);
    pr := ResolvedPr(Open, true, "o/r", 1, "bbbb");
    assert r.intent.headSha[0] != PLACEHOLDER[0];
    var action := Decide(r, Some(pr), None, 0);
    assert action.AdoptHead? && IngressOf(action.replacement) == IngressOf(two);
    var reqs := Requests(disk, r, action, 0, 1);
    var mid := Commit(disk, PlanFor(disk, reqs[0]).value);
    assert reqs == [reqs[0], reqs[1]];
    ExecuteTwo(disk, reqs[0], reqs[1]);
    ExecuteOne(mid, reqs[1]);
  }

  /** Nor does it take a moved head: the placeholder of the first PR is replaced by the head of its branch, which is
      already recorded for the second. */
  lemma {:induction false} ReplacementCanLosePr() returns (disk: Disk, r: Record, pr: ResolvedPr, local: LocalIdentity)
    ensures Current(disk, r) && r.intent.headSha == "unresolved-pr:1" && r.intent.prNumber == Some(pr.number)
    ensures pr.state == Open && Decide(r, Some(pr), Some(local), 0).ReplacePlaceholder?
    ensures var (after, error) := Execute(disk, Requests(disk, r, Decide(r, Some(pr), Some(local), 0), 0, 1));
            && error == None && after.intents.Keys == disk.intents.Keys
            && forall id :: id in after.intents && after.intents[id].state != Settled ==>
                 after.intents[id].intent.prNumber != Some(pr.number)
  {
    var one := Intent("o/r", "refs/pull/1/head", "unresolved-pr:1", "w", "hook", "/w", "s", 0, Some(1));
    var two := one.(pushedRef := "refs/heads/b", headSha := "bbbb", prNumber := Some(2));
    r := Record(IngressOf(one), one, LifecycleState.Pending, 1, 1, None, None);
    var other := Record(IngressOf(two), two, LifecycleState.Pending, 1, 1, None, None);
    assert IngressOf(one).headSha[0] == 'u' && IngressOf(two).headSha[0] == 'b';
    disk := Disk(map[IngressOf(one) := r, IngressOf(two) := other], map[]);
    pr := ResolvedPr(Open, true, "o/r", 1, "bbbb");
    local := LocalIdentity("refs/heads/b", "bbbb", "/w");
    assert "unresolved-pr:1" == PLACEHOLDER + "1";
    var action := Decide(r, Some(pr), Some(local), 0);
    assert action.ReplacePlaceholder? && IngressOf(action.replacement) == IngressOf(two);
    var reqs := Requests(disk, r, action, 0, 1);
    var mid := Commit(disk, PlanFor(disk, reqs[0]).value);
    assert reqs == [reqs[0], reqs[1]];
    ExecuteTwo(disk, reqs[0], reqs[1]);
    ExecuteOne(mid, reqs[1]);
  }

  // ---------------------------------------------------------------- what a hand-over leaves

  /** After an adoption that went through, the remote head is on the list under the intent's own ref and workflow. If no
      live intent had that identity, it carries this pull request, asks for now, and is eligible at once. */
  lemma {:induction false} AdoptionListsHead(disk: Disk, r: Record, pr: ResolvedPr, local: Option<LocalIdentity>,
                                             now: Time, retry: nat)
    requires Current(disk, r) && Decide(r, Some(pr), local, now).AdoptHead?
    requires Execute(disk, Requests(disk, r, Decide(r, Some(pr), local, now), now, retry)).1 == None
    ensures var id := IngressId(Casefold(pr.repository), r.intent.pushedRef, pr.headSha, r.intent.workflowType);
            var after := Execute(disk, Requests(disk, r, Decide(r, Some(pr), local, now), now, retry)).0.intents;
            && Listable(after, id)
            && after[id].intent.worktreePath == r.intent.worktreePath
            && after[id].intent.sessionId == r.intent.sessionId
            && after[id].intent.requestedAt == now
            && (!Listable(disk.intents, id) ==>
                  && after[id].nextAttemptAt == None && after[id].canonicalKey == None
                  && after[id].intent.prNumber == Some(pr.number)
                  && after[id].intent.reason == "remote head change adopted")
  {
    var action := Decide(r, Some(pr), local, now);
    HandOverLeaves(disk, r, action.replacement, action.key);
  }

  /** After a replaced placeholder, the remote head is on the list under the ref and the worktree found for its branch,
      with the time, the reason and the number of the placeholder's request if no live intent had that identity. */
  lemma {:induction false} ReplacementListsHead(disk: Disk, r: Record, pr: ResolvedPr, local: LocalIdentity, now: Time,
                                                retry: nat)
    requires Current(disk, r) && Decide(r, Some(pr), Some(local), now).ReplacePlaceholder?
    requires Execute(disk, Requests(disk, r, Decide(r, Some(pr), Some(local), now), now, retry)).1 == None
    ensures var id := IngressId(Casefold(pr.repository), local.pushedRef, pr.headSha, r.intent.workflowType);
            var after := Execute(disk, Requests(disk, r, Decide(r, Some(pr), Some(local), now), now, retry)).0.intents;
            && Listable(after, id)
            && after[id].intent.worktreePath == local.worktreePath
            && after[id].intent.requestedAt == r.intent.requestedAt
            && (!Listable(disk.intents, id) ==>
                  && after[id].nextAttemptAt == None && after[id].canonicalKey == None
                  && after[id].intent.prNumber == r.intent.prNumber && after[id].intent.reason == r.intent.reason)
  {
    var action := Decide(r, Some(pr), Some(local), now);
    HandOverLeaves(disk, r, action.replacement, action.key);
  }

  /** A settled record is linked to its pull request at its own head, and has no next attempt: an enqueue alone brings
      it back. */
  lemma {:induction false} SettlementLeaves(disk: Disk, r: Record, key: Key)
    requires Current(disk, r) && PlanFor(disk, Settle(r.intent, key, VersionOf(r), None)).Ok?
    ensures var after := Commit(disk, PlanFor(disk, Settle(r.intent, key, VersionOf(r), None)).value);
            && after.snapshots == disk.snapshots
            && after.intents[IngressOf(r.intent)]
               == r.(state := Settled, canonicalKey := Some(key), nextAttemptAt := None, revision := r.revision + 1,
                     intent := r.intent.(prNumber := Some(key.prNumber)))
  {
  }
}

/** What the operations of the intent store mean to each other: which requests it admits, what a second one does after a
    first, and what a reader finds after a writer. */
module StoreLaws {
  import opened Wrappers
  import opened LifecycleModels
  import opened LifecycleStore
  import opened StoreRuns

  // ---------------------------------------------------------------- identities

  /** Two repository names are one when they differ in the case of ASCII letters only. */
  predicate SameName(a: string, b: string) {
    && |a| == |b|
    && forall i :: 0 <= i < |a| ==>
         a[i] == b[i] || ('A' <= a[i] <= 'Z' && a[i] as int + 32 == b[i] as int)
         || ('A' <= b[i] <= 'Z' && b[i] as int + 32 == a[i] as int)
  }

  lemma {:induction false} FoldsAlike(a: string, b: string)
    ensures Casefold(a) == Casefold(b) <==> SameName(a, b)
  {
    var fa, fb := Casefold(a), Casefold(b);
    if fa == fb {
      assert |a| == |fa| == |fb| == |b|;
      forall i | 0 <= i < |a|
        ensures a[i] == b[i] || ('A' <= a[i] <= 'Z' && a[i] as int + 32 == b[i] as int)
                || ('A' <= b[i] <= 'Z' && b[i] as int + 32 == a[i] as int)
      {
        assert fa[i] == fb[i];
      }
    }
    if SameName(a, b) {
      forall i | 0 <= i < |a|
        ensures fa[i] == fb[i]
      {
      }
    }
  }

  /** Two job keys name one snapshot file exactly when they are the same job: repository but for case, PR, head and
      workflow. Two intents name one record file exactly when they agree on repository but for case, ref, head and
      workflow, whatever else differs. */
  lemma {:induction false} OneFileExactlyWhen(k: Key, l: Key, x: Intent, y: Intent)
    ensures JobOf(k) == JobOf(l) <==>
            SameName(k.repository, l.repository) && k.prNumber == l.prNumber && k.headSha == l.headSha
            && k.workflowType == l.workflowType
    ensures JobOf(k) == JobOf(l) <==> SameJob(k, l)
    ensures IngressOf(x) == IngressOf(y) <==>
            SameName(x.repository, y.repository) && x.pushedRef == y.pushedRef && x.headSha == y.headSha
            && x.workflowType == y.workflowType
    ensures SameIngressKey(x, k) <==>
            SameName(x.repository, k.repository) && x.headSha == k.headSha && x.workflowType == k.workflowType
  {
    FoldsAlike(k.repository, l.repository);
    FoldsAlike(x.repository, y.repository);
    FoldsAlike(x.repository, k.repository);
  }

  // ---------------------------------------------------------------- what is admitted

  /** The stored record is at the version the caller expects; expecting nothing always holds. */
  predicate AtVersion(disk: Disk, q: Request)
    requires !q.Enqueue?
  {
    var id := IngressOf(q.intent);
    && (q.expected.generation.Some? ==>
          id in disk.intents && disk.intents[id].generation == q.expected.generation.value)
    && (q.expected.revision.Some? ==> id in disk.intents && disk.intents[id].revision == q.expected.revision.value)
  }

  /** The key is a job of the intent: its repository, head and workflow; and no other PR is on record for it. */
  predicate MayLink(disk: Disk, intent: Intent, key: Key) {
    && Casefold(intent.repository) == Casefold(key.repository) && intent.headSha == key.headSha
    && intent.workflowType == key.workflowType && IngressOf(intent) in disk.intents
    && var known := disk.intents[IngressOf(intent)].intent.prNumber;
       known.None? || known.value == key.prNumber
  }

  /** A sound store takes every enqueue, and any other request exactly when it is at the expected version and fits:
      a promotion and a settlement the PR on record and their own snapshot, a lost PR an unpromoted record, a retry and
      a snapshot write an existing record of that repository, head and workflow. */
  lemma {:induction false} AdmittedExactlyWhen(disk: Disk, q: Request)
    requires AllLinked(disk.intents)
    ensures q.Enqueue? ==> PlanFor(disk, q).Ok?
    ensures q.Promote? || q.Settle? ==>
              (PlanFor(disk, q).Ok? <==> AtVersion(disk, q) && MayLink(disk, q.intent, q.key)
                                         && (q.snapshot.Some? ==> JobOf(q.snapshot.value.key) == JobOf(q.key)))
    ensures q.MarkNoPr? ==>
              (PlanFor(disk, q).Ok? <==>
                 AtVersion(disk, q) && (IngressOf(q.intent) in disk.intents ==>
                                          disk.intents[IngressOf(q.intent)].state != Promoted))
    ensures q.ScheduleRetry? ==>
              (PlanFor(disk, q).Ok? <==>
                 AtVersion(disk, q) && IngressOf(q.intent) in disk.intents
                 && (q.snapshot.Some? ==> SameIngressKey(q.intent, q.snapshot.value.key)))
    ensures q.WriteSnapshot? ==>
              (PlanFor(disk, q).Ok? <==>
                 AtVersion(disk, q) && IngressOf(q.intent) in disk.intents && SameIngressKey(q.intent, q.written.key))
  {
    if IngressOf(q.intent) in disk.intents {
      assert Linked(IngressOf(q.intent), disk.intents[IngressOf(q.intent)]);
    }
  }

  /** The key and the snapshot of a promotion or settlement are of the intent's job. */
  predicate Fits(q: Request) {
    q.Promote? || q.Settle? ==>
      SameIngressKey(q.intent, q.key) && (q.snapshot.Some? ==> JobOf(q.snapshot.value.key) == JobOf(q.key))
  }

  /** Why a fitting request is refused: it is at another version; else there is no record where one is needed; else
      the record is of another PR, or promoted where the PR was lost. */
  lemma {:induction false} RefusedBecause(disk: Disk, q: Request)
    requires AllLinked(disk.intents) && !q.Enqueue? && Fits(q)
    ensures var planned, found := PlanFor(disk, q), Lookup(disk.intents, IngressOf(q.intent));
            && (planned == Err(StaleVersion) <==> !AtVersion(disk, q))
            && (planned == Err(NotEnqueued) <==> AtVersion(disk, q) && found.None? && !q.MarkNoPr?)
            && (planned == Err(PrMismatch) <==>
                  AtVersion(disk, q) && found.Some? && (q.Promote? || q.Settle?)
                  && found.value.intent.prNumber.Some? && found.value.intent.prNumber.value != q.key.prNumber)
            && (planned == Err(PromotedToNoPr) <==>
                  AtVersion(disk, q) && q.MarkNoPr? && found.Some? && found.value.state == Promoted)
            && planned != Err(KeyMismatch) && planned != Err(InvalidRecord)
  {
    if IngressOf(q.intent) in disk.intents {
      assert Linked(IngressOf(q.intent), disk.intents[IngressOf(q.intent)]);
    }
  }

  /** A request touches the record of its own intent and the file of the snapshot it carries, and nothing else; and a
      version is spent by it: the same request is refused the second time. */
  lemma {:induction false} TouchesItsOwn(disk: Disk, q: Request, id: IngressId, j: JobId)
    requires AllLinked(disk.intents) && PlanFor(disk, q).Ok?
    ensures var after := Commit(disk, PlanFor(disk, q).value);
            && (id != IngressOf(q.intent) ==> Lookup(after.intents, id) == Lookup(disk.intents, id))
            && ((j in after.snapshots <==> j in disk.snapshots || Carries(q, j))
                && (j in after.snapshots && !Carries(q, j) ==> after.snapshots[j] == disk.snapshots[j]))
            && (!q.Enqueue? && q.expected.revision.Some? ==> PlanFor(after, q) == Err(StaleVersion))
  {
    PlanIsLinked(disk, q);
  }

  /** The request replaces the snapshot file of this job. */
  predicate Carries(q: Request, j: JobId) {
    || ((q.Promote? || q.ScheduleRetry? || q.Settle?) && q.snapshot.Some? && JobOf(q.snapshot.value.key) == j)
    || (q.WriteSnapshot? && JobOf(q.written.key) == j)
  }

  // ---------------------------------------------------------------- enqueue

  /** An enqueue starts a record over when there is none, when it is settled, and when it has no PR and the request
      brings one. */
  predicate StartsOver(disk: Disk, intent: Intent) {
    var id := IngressOf(intent);
    id in disk.intents ==>
      || disk.intents[id].state == Settled
      || (disk.intents[id].state == LifecycleState.NoPr && intent.prNumber.Some?)
  }

  function RecordAfter(disk: Disk, q: Request): Record
    requires PlanFor(disk, q).Ok?
  {
    PlanFor(disk, q).value.record
  }

  /** A record started over is the request as it came, due at once, unlinked, of the next generation. Otherwise a live
      record only learns of the newest session, worktree and request time: its PR, state, link and schedule stay. */
  lemma {:induction false} EnqueueMeans(disk: Disk, intent: Intent)
    requires AllLinked(disk.intents) && PlanFor(disk, Request.Enqueue(intent)).Ok?
    ensures var r, found := RecordAfter(disk, Request.Enqueue(intent)), Lookup(disk.intents, IngressOf(intent));
            && r.intent.requestedAt == intent.requestedAt && r.intent.sessionId == intent.sessionId
            && r.intent.worktreePath == intent.worktreePath
            && (StartsOver(disk, intent) ==>
                  && r.intent == intent && r.nextAttemptAt.None? && r.canonicalKey.None?
                  && (r.state == LifecycleState.NoPr <==> intent.prNumber.None?)
                  && (r.state == LifecycleState.Pending <==> intent.prNumber.Some?)
                  && r.generation == (if found.None? then 1 else found.value.generation + 1))
            && (!StartsOver(disk, intent) ==>
                  && r.state == found.value.state && r.canonicalKey == found.value.canonicalKey
                  && r.nextAttemptAt == found.value.nextAttemptAt && r.generation == found.value.generation
                  && r.intent.prNumber == found.value.intent.prNumber && r.intent.reason == found.value.intent.reason
                  && r.intent.repository == found.value.intent.repository)
  {
  }

  /** A repeated enqueue changes nothing but the revision. */
  lemma {:induction false} EnqueueIsIdempotent(disk: Disk, intent: Intent)
    requires AllLinked(disk.intents) && PlanFor(disk, Request.Enqueue(intent)).Ok?
    ensures var once := Commit(disk, PlanFor(disk, Request.Enqueue(intent)).value);
            && PlanFor(once, Request.Enqueue(intent)).Ok?
            && var r := RecordAfter(disk, Request.Enqueue(intent));
               RecordAfter(once, Request.Enqueue(intent)) == r.(revision := r.revision + 1)
  {
    PlanIsLinked(disk, Request.Enqueue(intent));
  }

  /** Generations count the enqueues that started a record over: every other request keeps them. */
  lemma {:induction false} GenerationsCount(disk: Disk, q: Request)
    requires AllLinked(disk.intents) && PlanFor(disk, q).Ok? && IngressOf(q.intent) in disk.intents
    ensures var was := disk.intents[IngressOf(q.intent)].generation;
            RecordAfter(disk, q).generation == if q.Enqueue? && StartsOver(disk, q.intent) then was + 1 else was
  {
  }

  // ---------------------------------------------------------------- the other requests

  /** What a request leaves of a record it finds, beside its revision. */
  lemma {:induction false} LeavesOfRecord(disk: Disk, q: Request)
    requires AllLinked(disk.intents) && PlanFor(disk, q).Ok? && IngressOf(q.intent) in disk.intents && !q.Enqueue?
    ensures var r, was := RecordAfter(disk, q), disk.intents[IngressOf(q.intent)];
            && r.ingressId == was.ingressId && r.intent.(prNumber := was.intent.prNumber) == was.intent
            && r.revision == was.revision + 1
            && (q.Promote? || q.Settle? ==>
                  r.canonicalKey == Some(q.key) && r.intent.prNumber == Some(q.key.prNumber))
            && (q.Promote? ==> r.state == Promoted && r.nextAttemptAt == q.next)
            && (q.Settle? ==> r.state == Settled && r.nextAttemptAt == None)
            && (q.MarkNoPr? ==>
                  r.state == LifecycleState.NoPr && r.canonicalKey == None && r.intent.prNumber == None
                  && r.nextAttemptAt == q.next)
            && (q.ScheduleRetry? || q.WriteSnapshot? ==>
                  r.state == was.state && r.canonicalKey == was.canonicalKey && r.intent == was.intent)
            && (q.ScheduleRetry? ==> r.nextAttemptAt == Some(q.nextAt))
            && (q.WriteSnapshot? ==> r.nextAttemptAt == was.nextAttemptAt)
  {
  }

  /** A PR that is lost before anything was enqueued is recorded all the same, as a new record without one. */
  lemma {:induction false} LostWithoutRecord(disk: Disk, q: Request)
    requires PlanFor(disk, q).Ok? && IngressOf(q.intent) !in disk.intents && q.MarkNoPr?
    ensures RecordAfter(disk, q)
         == Record(IngressOf(q.intent), q.intent.(prNumber := None), LifecycleState.NoPr, 1, 1, None, q.next)
  {
  }

  /** A settled snapshot that is not what settlement means, or one whose first clean time lies after its last. */
  predicate Broken(s: Snapshot) {
    || (s.stableFirstAt.Some? && s.stableLastAt.Some? && s.stableLastAt.value < s.stableFirstAt.value)
    || (s.settled
        && !(s.health == Health.Healthy && s.ci == CiState.Passing && s.mergeability == Mergeability.Mergeable
             && s.review == ReviewState.Clean && |s.blockers| == 0 && |s.nextActions| == 0
             && s.policyUnsettled == 0 && s.unaddressed == 0
             && 1 < s.stableCount && s.stableFirstAt.Some? && s.stableLastAt.Some?))
  }

  /** A reader is told that a file is invalid exactly when it holds such a snapshot, and that it is missing exactly when
      there is none or it is sound but of another job. */
  lemma {:induction false} UnusableExactlyWhen(disk: Disk, key: Key, maxAge: nat, now: Time)
    ensures var status, found := ReadJob(disk.snapshots, key, maxAge, now).status, JobOf(key) in disk.snapshots;
            && (status == ReadStatus.Invalid <==> found && Broken(disk.snapshots[JobOf(key)]))
            && (status == ReadStatus.Missing <==>
                  || !found
                  || (!Broken(disk.snapshots[JobOf(key)]) && JobOf(disk.snapshots[JobOf(key)].key) != JobOf(key)))
  {
  }

  /** A record file that is not of the identity it is found under: its digest, or the identity of its intent, is
      another one. */
  predicate Foreign(r: Record, intent: Intent) {
    || r.ingressId != IngressOf(intent)
    || Casefold(r.intent.repository) != Casefold(intent.repository) || r.intent.pushedRef != intent.pushedRef
    || r.intent.headSha != intent.headSha || r.intent.workflowType != intent.workflowType
  }

  /** Such a file stops every fitting request, and no reader follows its link. */
  lemma {:induction false} ForeignIsRefused(disk: Disk, q: Request)
    requires IngressOf(q.intent) in disk.intents && Foreign(disk.intents[IngressOf(q.intent)], q.intent) && Fits(q)
    ensures PlanFor(disk, q) == Err(InvalidRecord) && PromotedKey(disk.intents, TargetOf(q.intent)) == None
  {
  }

  /** A link that is followed is one of the record's own: it is promoted or settled, and the job is of the target's
      repository, head and workflow and of the record's PR. */
  lemma {:induction false} LinkIsTrusted(intents: map<IngressId, Record>, intent: Intent)
    requires PromotedKey(intents, TargetOf(intent)).Some?
    ensures var id, key := IngressOf(intent), PromotedKey(intents, TargetOf(intent)).value;
            && id in intents && (intents[id].state == Promoted || intents[id].state == Settled)
            && intents[id].canonicalKey == Some(key) && intents[id].intent.prNumber == Some(key.prNumber)
            && Casefold(key.repository) == Casefold(intent.repository) && key.headSha == intent.headSha
            && key.workflowType == intent.workflowType
  {
  }

  /** What an unresolved reader asks for, by the identity of an intent. */
  function TargetOf(intent: Intent): Target {
    Unresolved(intent.repository, intent.pushedRef, intent.headSha, intent.workflowType)
  }

  /** A reader that knows only the pushed ref is led to the job of a promotion or settlement until the record is started
      over or loses its PR: the link is read back exactly while the record is promoted or settled. */
  lemma {:induction false} LinkIsReadExactlyWhen(disk: Disk, intent: Intent)
    requires AllLinked(disk.intents)
    ensures var found := Lookup(disk.intents, IngressOf(intent));
            PromotedKey(disk.intents, TargetOf(intent)) ==
              if found.Some? && (found.value.state == Promoted || found.value.state == Settled)
              then found.value.canonicalKey else None
  {
    if IngressOf(intent) in disk.intents {
      assert Linked(IngressOf(intent), disk.intents[IngressOf(intent)]);
      assert IngressOf(LookupIntent(TargetOf(intent))) == IngressOf(intent);
    }
  }

  /** So a reader finds what a promotion or a settlement carried, fresh or stale by its age, and nothing after a
      lost PR. */
  lemma {:induction false} ReaderFindsWritten(disk: Disk, q: Request, maxAge: nat, now: Time)
    requires AllLinked(disk.intents) && PlanFor(disk, q).Ok?
    ensures var after := Commit(disk, PlanFor(disk, q).value);
            var linked := PromotedKey(after.intents, TargetOf(q.intent));
            && (q.Promote? || q.Settle? ==> linked == Some(q.key))
            && ((q.Promote? || q.Settle?) && q.snapshot.Some? && Accepted(q.snapshot.value) ==>
                  ReadJob(after.snapshots, q.key, maxAge, now)
                  == ReadResult(if Within(q.snapshot.value, maxAge, now) then Fresh else Stale, q.snapshot))
            && (q.MarkNoPr? ==> linked == None)
  {
    PlanIsLinked(disk, q);
    var after := Commit(disk, PlanFor(disk, q).value);
    assert AllLinked(after.intents);
    LinkIsReadExactlyWhen(after, q.intent);
  }
}

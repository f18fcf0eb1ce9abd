/** Runs in which every snapshot is one the drain built from what it read: exactly when a stored snapshot cannot be
    read back, and exactly when one job's snapshot file carries on the history of Settlement. A worker reads its
    record, its clock and the snapshot file at different points, and the version fence guards the record alone. */
module JobRuns {
  import opened Wrappers
  import opened LifecycleModels
  import opened Settlement
  import opened LifecycleStore
  import opened StoreRuns
  import opened Workflow
  import opened NeverDropped
  import opened SnapshotCarry

  /** The points at which a worker read its clock and, twice, the job's snapshot file; what its clock said; and what it
      observed, if it could. */
  datatype Look = Look(clock: nat, at: nat, again: nat, key: Key, now: Time, observed: Option<Observed>, combined: bool)

  function Carried(req: Request): Option<Snapshot> {
    match req
    case Enqueue(_) => None
    case MarkNoPr(_, _, _) => None
    case WriteSnapshot(_, written, _) => Some(written)
    case _ => req.snapshot
  }

  /** What the drain writes for a job, from what its reads of the job's snapshot file gave. */
  function BuiltFrom(promoted: bool, first: Option<Snapshot>, again: Option<Snapshot>, look: Look, interval: nat)
    : Option<Snapshot>
  {
    if look.observed.None? then UnavailableSnapshot(first, look.key, look.now)
    else Some(TakeFrom(promoted, first, again, look.key, look.now, look.observed.value, interval, look.combined))
  }

  lemma {:induction false} RequestsCarry(disk: Disk, r: Record, action: Action, now: Time, retry: nat, q: Request)
    requires q in Requests(disk, r, action, now, retry) && Carried(q).Some?
    ensures action.Unobservable? && action.number.Some? && q == UnavailableRequest(disk, r, action.number, now, retry)
  {
  }

  lemma {:induction false} AskedWithSnapshot(disk: Disk, r: Record, resolved: Option<ResolvedPr>,
                                             local: Option<LocalIdentity>, pr: ResolvedPr, observed: Option<Observed>,
                                             combined: bool, now: Time, retry: nat, interval: nat, q: Request)
    returns (number: Option<Pos>)
    requires Asked(disk, r, resolved, local, pr, observed, combined, now, retry, interval, q) && Carried(q).Some?
    ensures if number.Some? then q == UnavailableRequest(disk, r, number, now, retry)
            else observed.Some? && q == ObservedRequest(disk, r, pr, observed, combined, now, retry, interval)
  {
    var action := Decide(r, resolved, local, now);
    if q in Requests(disk, r, action, now, retry) {
      RequestsCarry(disk, r, action, now, retry, q);
      number := action.number;
    } else if q == UnavailableRequest(disk, r, r.intent.prNumber, now, retry) {
      number := r.intent.prNumber;
    } else if q == UnavailableRequest(disk, r, Some(pr.number), now, retry) {
      number := Some(pr.number);
    } else {
      number := None;
    }
  }

  /** Whatever snapshot a turn asks the store to write is built so. */
  lemma {:induction false} TurnBuilds(disk: Disk, r: Record, resolved: Option<ResolvedPr>, local: Option<LocalIdentity>,
                                      pr: ResolvedPr, observed: Option<Observed>, combined: bool, now: Time,
                                      retry: nat, interval: nat, q: Request, at: nat) returns (look: Look)
    requires Asked(disk, r, resolved, local, pr, observed, combined, now, retry, interval, q) && Carried(q).Some?
    ensures look.clock == look.at == look.again == at && look.now == now
    ensures look.observed.Some? ==> look.observed == observed
    ensures var read := ReadJob(disk.snapshots, look.key, FOREVER, now).snapshot;
            Carried(q) == BuiltFrom(r.state == Promoted, read, read, look, interval)
  {
    var number := AskedWithSnapshot(disk, r, resolved, local, pr, observed, combined, now, retry, interval, q);
    if number.None? {
      look := Look(at, at, at, OldKey(r, pr.repository, pr.number), now, observed, combined);
      OneRead(r.state == Promoted, ReadJob(disk.snapshots, look.key, FOREVER, now).snapshot, look.key, now,
              observed.value, interval, combined);
    } else {
      look := Look(at, at, at, OldKey(r, r.intent.repository, number.value), now, None, combined);
    }
  }

  ghost predicate Carries(run: Run, k: nat) {
    k < |run.events| && run.events[k].Begin? && Carried(run.events[k].req).Some?
  }

  /** An observation reads the clock before the file, a missed one after it; both after the record. */
  predicate InOrder(look: Look, readAt: nat, k: nat) {
    && readAt <= look.at <= look.again <= k
    && if look.observed.Some? then readAt <= look.clock <= look.at else look.at <= look.clock <= k
  }

  /** What reading the snapshot file of the job gives at point `m`, at whatever age. */
  function FileAt(run: Run, m: nat, key: Key): Option<Snapshot>
    requires m < |run.states|
  {
    ReadJob(run.states[m].disk.snapshots, key, FOREVER, 0).snapshot
  }

  /** The request begun at `k` carries what its worker built, from the record and then the files it read. */
  ghost predicate Looked(run: Run, looks: map<nat, Look>, k: nat, interval: nat)
    requires Carries(run, k) && |run.states| == |run.events| + 1
  {
    && k in looks && InOrder(looks[k], run.events[k].readAt, k)
    && IngressOf(run.events[k].req.intent) in IntentsAt(run, run.events[k].readAt)
    && Carried(run.events[k].req)
       == BuiltFrom(ReadRecord(run, k).state == Promoted, FileAt(run, looks[k].at, looks[k].key),
                    FileAt(run, looks[k].again, looks[k].key), looks[k], interval)
  }

  /** A run in which every snapshot written is a drain's. */
  ghost predicate DrainWrites(run: Run, looks: map<nat, Look>, interval: nat) {
    && Fenced(run)
    && (forall k :: 0 <= k < |run.events| ==> !run.events[k].BareSnapshot?)
    && (forall k: nat {:trigger Looked(run, looks, k, interval)} :: Carries(run, k) ==> Looked(run, looks, k, interval))
  }

  // ---------------------------------------------------------------- the writes to one job

  ghost predicate Writes(run: Run, k: nat, j: JobId) {
    Carries(run, k) && JobOf(Carried(run.events[k].req).value.key) == j
  }

  function Stored(run: Run, m: nat, j: JobId): Option<Snapshot>
    requires m < |run.states|
  {
    if j in run.states[m].disk.snapshots then Some(run.states[m].disk.snapshots[j]) else None
  }

  /** Nothing writes the job's snapshot from `i` up to `k`. */
  ghost predicate Quiet(run: Run, i: nat, k: nat, j: JobId) {
    forall b: nat :: i <= b < k ==> !Writes(run, b, j)
  }

  /** Reading the file of a reachable store gives what is stored, unless its validator refuses it. */
  lemma {:induction false} FileIsReadBack(run: Run, m: nat, key: Key)
    requires IsRun(run) && m < |run.states|
    ensures FileAt(run, m, key) == ReadBack(Stored(run, m, JobOf(key)))
  {
    ReachableIsSound(run, m);
  }

  /** What one event leaves in the file. */
  lemma {:induction false} FileStep(run: Run, looks: map<nat, Look>, interval: nat, k: nat, j: JobId)
    requires DrainWrites(run, looks, interval) && k < |run.events|
    ensures Stored(run, k + 1, j) == if Writes(run, k, j) then Carried(run.events[k].req) else Stored(run, k, j)
  {
    assert Step(run.states[k], run.events[k], run.states[k + 1]);
  }

  lemma {:induction false} Untouched(run: Run, looks: map<nat, Look>, interval: nat, i: nat, k: nat, j: JobId)
    requires DrainWrites(run, looks, interval) && i <= k < |run.states|
    requires Quiet(run, i, k, j)
    ensures Stored(run, i, j) == Stored(run, k, j)
    decreases k
  {
    if i < k {
      Untouched(run, looks, interval, i, k - 1, j);
      FileStep(run, looks, interval, k - 1, j);
      assert !Writes(run, k - 1, j);
    }
  }

  /** A stored snapshot is what the last write to the job carried. */
  lemma {:induction false} LastWriter(run: Run, looks: map<nat, Look>, interval: nat, m: nat, j: JobId)
    returns (b: nat)
    requires DrainWrites(run, looks, interval) && m < |run.states| && Stored(run, m, j).Some?
    ensures b < m && Writes(run, b, j) && Quiet(run, b + 1, m, j) && Carried(run.events[b].req) == Stored(run, m, j)
    decreases m
  {
    FileStep(run, looks, interval, m - 1, j);
    if Writes(run, m - 1, j) {
      b := m - 1;
    } else {
      b := LastWriter(run, looks, interval, m - 1, j);
    }
  }

  /** A worker reads its record, the snapshot file, and then asks. */
  lemma {:induction false} ReadsInOrder(run: Run, looks: map<nat, Look>, interval: nat, k: nat)
    requires DrainWrites(run, looks, interval) && Carries(run, k)
    ensures run.states[k].holder.None? && !run.events[k].req.Enqueue?
    ensures k in looks && InOrder(looks[k], run.events[k].readAt, k) && looks[k].again < |run.states|
    ensures IngressOf(run.events[k].req.intent) in IntentsAt(run, run.events[k].readAt)
    ensures Carried(run.events[k].req)
            == BuiltFrom(ReadRecord(run, k).state == Promoted, FileAt(run, looks[k].at, looks[k].key),
                         FileAt(run, looks[k].again, looks[k].key), looks[k], interval)
  {
    assert Step(run.states[k], run.events[k], run.states[k + 1]);
    assert Looked(run, looks, k, interval);
  }

  lemma {:induction false} BuiltKeepsJob(run: Run, m: nat, promoted: bool, again: Option<Snapshot>, look: Look,
                                         interval: nat)
    requires m < |run.states|
    ensures var built := BuiltFrom(promoted, FileAt(run, m, look.key), again, look, interval);
            built.Some? ==> JobOf(built.value.key) == JobOf(look.key)
  {
  }

  lemma {:induction false} LooksAtItsJob(run: Run, looks: map<nat, Look>, interval: nat, k: nat, j: JobId)
    requires DrainWrites(run, looks, interval) && Writes(run, k, j)
    ensures k in looks && JobOf(looks[k].key) == j
  {
    ReadsInOrder(run, looks, interval, k);
    BuiltKeepsJob(run, looks[k].at, ReadRecord(run, k).state == Promoted, FileAt(run, looks[k].again, looks[k].key),
                  looks[k], interval);
  }

  // ---------------------------------------------------------------- what the version fence keeps out

  /** The write begun at `b` replaced the snapshot file and crashed before its record. */
  ghost predicate Crashed(run: Run, b: nat) {
    exists c :: b < c < |run.events| && run.events[c] == Crash && EndsAt(run, b, c)
  }

  ghost predicate EndsAt(run: Run, b: nat, c: nat)
    requires c < |run.events|
  {
    forall m :: b < m < c ==> run.events[m] != Finish && run.events[m] != Crash
  }

  /** The write begun at `b` is outside the fence of the one at `k`: it crashed, or was for another record. */
  ghost predicate Unfenced(run: Run, k: nat, b: nat)
    requires k < |run.events| && run.events[k].Begin? && b < |run.events| && run.events[b].Begin?
  {
    Crashed(run, b) || IngressOf(run.events[b].req.intent) != IngressOf(run.events[k].req.intent)
  }

  lemma {:induction false} LockEnds(run: Run, b: nat, k: nat) returns (c: nat)
    requires IsRun(run) && b < k < |run.events| && run.events[b].Begin? && run.states[k].holder.None?
    ensures b < c < k && EndsAt(run, b, c) && (run.events[c] == Finish || run.events[c] == Crash)
    ensures PlanFor(run.states[b].disk, run.events[b].req).Ok?
    ensures run.states[c].holder == Some(Txn(run.events[b].req, PlanFor(run.states[b].disk, run.events[b].req).value))
  {
    assert Step(run.states[b], run.events[b], run.states[b + 1]);
    c := b + 1;
    while run.events[c] != Finish && run.events[c] != Crash
      invariant b < c < k && EndsAt(run, b, c)
      invariant run.states[c].holder == run.states[b + 1].holder
      decreases k - c
    {
      assert Step(run.states[c], run.events[c], run.states[c + 1]);
      c := c + 1;
    }
  }

  /** Which writes can come between a worker's reading of its record and its own write: only one that crashed, or one
      for another record. Everything else is fenced off. */
  lemma {:induction false} FencedOff(run: Run, looks: map<nat, Look>, interval: nat, k: nat, b: nat)
    requires DrainWrites(run, looks, interval) && Carries(run, k) && Carries(run, b) && run.events[k].readAt <= b < k
    ensures Unfenced(run, k, b)
  {
    ReadsInOrder(run, looks, interval, k);
    var c := LockEnds(run, b, k);
    if run.events[c] == Finish && IngressOf(run.events[b].req.intent) == IngressOf(run.events[k].req.intent) {
      CommitFencesOff(run, k, c);
      assert false;
    }
  }

  /** One record per job, and no crash between a write to the job and its record. */
  ghost predicate Orderly(run: Run, j: JobId) {
    forall k: nat, b: nat :: Writes(run, k, j) && Writes(run, b, j) ==> !Unfenced(run, k, b)
  }

  // ---------------------------------------------------------------- exactly when a write cannot be read back

  /** What every snapshot a drain writes has, readable or not. */
  ghost predicate Formed(s: Snapshot) {
    && (s.health == Health.Healthy ==> s.stableFirstAt.Some?)
    && (s.stableFirstAt.Some? ==> s.stableLastAt.Some?)
  }

  lemma {:induction false} TakenFrom(promoted: bool, first: Option<Snapshot>, again: Option<Snapshot>, r: Reading,
                                     interval: nat)
    requires promoted == r.promoted && (again.Some? ==> Formed(again.value))
    ensures Taken(TakeFrom(promoted, first, again, r.key, r.now, r.observed, interval, r.combined), MarkOf(r), again,
                  interval)
  {
    TakenCases(again, r, interval);
  }

  lemma {:induction false} NotCleanHasNoChain(promoted: bool, first: Option<Snapshot>, again: Option<Snapshot>,
                                              key: Key, now: Time, o: Observed, interval: nat, combined: bool)
    requires !CleanObservation(o)
    ensures TakeFrom(promoted, first, again, key, now, o, interval, combined).stableFirstAt == None
    ensures TakeFrom(promoted, first, again, key, now, o, interval, combined).stableLastAt == None
  {
  }

  lemma {:induction false} WriteIsFormed(run: Run, looks: map<nat, Look>, interval: nat, k: nat)
    requires DrainWrites(run, looks, interval) && Carries(run, k)
    ensures Formed(Carried(run.events[k].req).value)
    decreases k, 1
  {
    ReadsInOrder(run, looks, interval, k);
    var look := looks[k];
    if look.observed.None? {
      FileIsFormed(run, looks, interval, look.at, look.key);
    } else {
      FileIsFormed(run, looks, interval, look.again, look.key);
      var r := Reading(look.key, look.now, ReadRecord(run, k).state == Promoted, look.observed.value, look.combined);
      TakenFrom(r.promoted, FileAt(run, look.at, look.key), FileAt(run, look.again, look.key), r, interval);
      HealthyIsClean(r.key, r.now, r.observed);
    }
  }

  lemma {:induction false} FileIsFormed(run: Run, looks: map<nat, Look>, interval: nat, m: nat, key: Key)
    requires DrainWrites(run, looks, interval) && m < |run.states|
    ensures FileAt(run, m, key).Some? ==> Formed(FileAt(run, m, key).value)
    decreases m, 0
  {
    FileIsReadBack(run, m, key);
    if Stored(run, m, JobOf(key)).Some? {
      var b := LastWriter(run, looks, interval, m, JobOf(key));
      WriteIsFormed(run, looks, interval, b);
    }
  }

  /** A clean observation that takes up a chain begun after its own clock reading, or settles a pull request that is not
      mergeable. */
  ghost predicate Refusable(run: Run, looks: map<nat, Look>, interval: nat, k: nat)
    requires DrainWrites(run, looks, interval) && Carries(run, k)
  {
    assert Looked(run, looks, k, interval);
    var look := looks[k];
    && look.observed.Some? && CleanObservation(look.observed.value) && ReadRecord(run, k).state == Promoted
    && TakesUp(FileAt(run, look.again, look.key), look)
    && var since := look.now - FirstAt(FileAt(run, look.again, look.key).value);
       since < 0 || (look.combined && interval <= since
                     && MergeabilityOf(look.observed.value) != Mergeability.Mergeable)
  }

  predicate TakesUp(again: Option<Snapshot>, look: Look)
    requires look.observed.Some?
  {
    again.Some? && FactsOf(again.value) == FactsOf(Built(look.key, look.now, look.observed.value))
  }

  lemma {:induction false} BuiltIsAccepted(promoted: bool, first: Option<Snapshot>, again: Option<Snapshot>, look: Look,
                                           interval: nat)
    requires (first.Some? ==> Accepted(first.value)) && (again.Some? ==> Formed(again.value))
    requires BuiltFrom(promoted, first, again, look, interval).Some?
    ensures !Accepted(BuiltFrom(promoted, first, again, look, interval).value) <==>
              && look.observed.Some? && CleanObservation(look.observed.value) && promoted && TakesUp(again, look)
              && var since := look.now - FirstAt(again.value);
                 since < 0 || (look.combined && interval <= since
                               && MergeabilityOf(look.observed.value) != Mergeability.Mergeable)
  {
    if look.observed.Some? {
      var r := Reading(look.key, look.now, promoted, look.observed.value, look.combined);
      TakenFrom(promoted, first, again, r, interval);
      HealthyIsClean(look.key, look.now, look.observed.value);
      if !CleanObservation(look.observed.value) {
        NotCleanHasNoChain(promoted, first, again, look.key, look.now, look.observed.value, interval, look.combined);
      }
    }
  }

  /** A snapshot a drain writes is one its validator refuses on the next read if and only if it is `Refusable`,
      whatever clocks and interleavings. */
  lemma {:induction false} RefusedExactlyWhen(run: Run, looks: map<nat, Look>, interval: nat, k: nat)
    requires DrainWrites(run, looks, interval) && Carries(run, k)
    ensures !Accepted(Carried(run.events[k].req).value) <==> Refusable(run, looks, interval, k)
  {
    ReadsInOrder(run, looks, interval, k);
    var look := looks[k];
    FileIsFormed(run, looks, interval, look.again, look.key);
    BuiltIsAccepted(ReadRecord(run, k).state == Promoted, FileAt(run, look.at, look.key),
                    FileAt(run, look.again, look.key), look, interval);
  }

  /** So a reader finds the file of a job invalid exactly when the last write to it is refusable. */
  lemma {:induction false} InvalidExactlyWhen(run: Run, looks: map<nat, Look>, interval: nat, m: nat, key: Key,
                                              maxAge: nat, now: Time) returns (b: nat)
    requires DrainWrites(run, looks, interval) && m < |run.states| && Stored(run, m, JobOf(key)).Some?
    ensures b < m && Writes(run, b, JobOf(key)) && Quiet(run, b + 1, m, JobOf(key))
    ensures ReadJob(run.states[m].disk.snapshots, key, maxAge, now).status == Invalid <==>
            Refusable(run, looks, interval, b)
  {
    b := LastWriter(run, looks, interval, m, JobOf(key));
    RefusedExactlyWhen(run, looks, interval, b);
    ReachableIsSound(run, m);
  }

  // ---------------------------------------------------------------- with a clock that does not run backwards

  ghost predicate ClockRuns(run: Run, looks: map<nat, Look>) {
    forall i, k :: Carries(run, i) && Carries(run, k) && i in looks && k in looks && looks[i].clock < looks[k].clock ==>
      looks[i].now <= looks[k].now
  }

  ghost predicate CleanLooksAreMergeable(looks: map<nat, Look>) {
    forall k :: k in looks && looks[k].observed.Some? ==> CleanIsMergeable(looks[k].observed.value)
  }

  /** The write begun at `b` falls between the clock reading and the last file read of the observation written at
      `k`. */
  ghost predicate Intervenes(run: Run, looks: map<nat, Look>, k: nat, b: nat, j: JobId) {
    && Writes(run, k, j) && Writes(run, b, j)
    && k in looks && looks[k].observed.Some? && looks[k].clock <= b < looks[k].again
  }

  lemma {:induction false} LastIsPast(run: Run, looks: map<nat, Look>, interval: nat, k: nat)
    requires DrainWrites(run, looks, interval) && ClockRuns(run, looks) && Carries(run, k)
    ensures k in looks
    ensures var s := Carried(run.events[k].req).value; s.stableLastAt.Some? ==> s.stableLastAt.value <= looks[k].now
    decreases k
  {
    ReadsInOrder(run, looks, interval, k);
    var look := looks[k];
    if look.observed.None? {
      FileIsReadBack(run, look.at, look.key);
      if FileAt(run, look.at, look.key).Some? {
        var b := LastWriter(run, looks, interval, look.at, JobOf(look.key));
        LastIsPast(run, looks, interval, b);
        ReadsInOrder(run, looks, interval, b);
      }
    } else if CleanObservation(look.observed.value) {
      FileIsFormed(run, looks, interval, look.again, look.key);
      TakenFrom(ReadRecord(run, k).state == Promoted, FileAt(run, look.at, look.key), FileAt(run, look.again, look.key),
                Reading(look.key, look.now, ReadRecord(run, k).state == Promoted, look.observed.value, look.combined),
                interval);
    } else {
      NotCleanHasNoChain(ReadRecord(run, k).state == Promoted, FileAt(run, look.at, look.key),
                         FileAt(run, look.again, look.key), look.key, look.now, look.observed.value, interval,
                         look.combined);
    }
  }

  /** Then a write is refused only because another fell between its worker's clock reading and its last file read, and
      that one crashed before its record or was for another record of the job. */
  lemma {:induction false} RefusedOnly(run: Run, looks: map<nat, Look>, interval: nat, k: nat, j: JobId)
    returns (b: nat)
    requires DrainWrites(run, looks, interval) && ClockRuns(run, looks) && CleanLooksAreMergeable(looks)
    requires Writes(run, k, j) && !Accepted(Carried(run.events[k].req).value)
    ensures Intervenes(run, looks, k, b, j) && Unfenced(run, k, b)
  {
    ReadsInOrder(run, looks, interval, k);
    LooksAtItsJob(run, looks, interval, k, j);
    RefusedExactlyWhen(run, looks, interval, k);
    var look := looks[k];
    CleanAndMergeable(look.observed.value);
    FileIsReadBack(run, look.again, look.key);
    b := LastWriter(run, looks, interval, look.again, j);
    WriteIsFormed(run, looks, interval, b);
    LastIsPast(run, looks, interval, b);
    ReadsInOrder(run, looks, interval, b);
    HealthyIsClean(look.key, look.now, look.observed.value);
    assert FileAt(run, look.again, look.key).value.health == Health.Healthy;
    FencedOff(run, looks, interval, k, b);
  }

  lemma {:induction false} CleanAndMergeable(o: Observed)
    requires CleanObservation(o) && CleanIsMergeable(o)
    ensures MergeabilityOf(o) == Mergeability.Mergeable
  {
  }

  /** So a reader of a promoted record, at any two points and whatever crashes, gets a snapshot of its job, never a
      missing or an invalid one, unless such a write intervened on that very job. */
  lemma {:induction false} ReaderNeverFails(run: Run, looks: map<nat, Look>, interval: nat, i: nat, m: nat,
                                            target: Target, maxAge: nat, now: Time)
    requires DrainWrites(run, looks, interval) && ClockRuns(run, looks) && CleanLooksAreMergeable(looks)
    requires PromotionsCarrySnapshots(run) && i <= m < |run.states| && target.Unresolved?
    requires var id := IngressOf(LookupIntent(target));
             id in IntentsAt(run, i) && IntentsAt(run, i)[id].state == Promoted
    requires var key := PromotedKey(IntentsAt(run, i), target);
             key.Some? ==> forall k, b :: !Intervenes(run, looks, k, b, JobOf(key.value))
    ensures var key := PromotedKey(IntentsAt(run, i), target);
            && key.Some?
            && var r := ReadJob(run.states[m].disk.snapshots, key.value, maxAge, now);
               && (r.status == Fresh || r.status == Stale)
               && r.snapshot.Some? && SameJob(r.snapshot.value.key, key.value)
  {
    ReaderFindsSnapshot(run, i, m, target, maxAge, now);
    var key := PromotedKey(IntentsAt(run, i), target).value;
    var j := JobOf(key);
    var w := LastWriter(run, looks, interval, m, j);
    if !Accepted(Carried(run.events[w].req).value) {
      var b := RefusedOnly(run, looks, interval, w, j);
      assert false;
    }
  }

  /** With one record per job, and no crash between its snapshot and its record, nothing intervenes. */
  lemma {:induction false} NothingIntervenes(run: Run, looks: map<nat, Look>, interval: nat, k: nat, b: nat, j: JobId)
    requires DrainWrites(run, looks, interval) && Orderly(run, j)
    ensures !Intervenes(run, looks, k, b, j)
  {
    if Intervenes(run, looks, k, b, j) {
      ReadsInOrder(run, looks, interval, k);
      FencedOff(run, looks, interval, k, b);
      assert false;
    }
  }

  // ---------------------------------------------------------------- one job's file as a history

  function EventOf(promoted: bool, look: Look): JobEvent {
    if look.observed.None? then Missed(look.key, look.now)
    else Recorded(Reading(look.key, look.now, promoted, look.observed.value, look.combined))
  }

  /** The event of the job's history that the write begun at `k` is. */
  ghost function EventAt(run: Run, looks: map<nat, Look>, k: nat, interval: nat): JobEvent
    requires DrainWrites(run, looks, interval) && Carries(run, k)
  {
    assert Looked(run, looks, k, interval);
    EventOf(ReadRecord(run, k).state == Promoted, looks[k])
  }

  /** The observations written for the job before point `m`, in the order they were written. */
  ghost function HistoryOf(run: Run, looks: map<nat, Look>, m: nat, j: JobId, interval: nat): seq<JobEvent>
    requires DrainWrites(run, looks, interval) && m < |run.states|
  {
    if m == 0 then []
    else
      var before := HistoryOf(run, looks, m - 1, j, interval);
      if Writes(run, m - 1, j) then before + [EventAt(run, looks, m - 1, interval)] else before
  }

  /** What was read carries over the same as `file` would. */
  predicate CarriesAlike(promoted: bool, first: Option<Snapshot>, again: Option<Snapshot>, look: Look,
                         file: Option<Snapshot>)
  {
    if look.observed.None? then MissCarry(first) == MissCarry(file)
    else promoted ==> WatchCarry(first, look.key) == WatchCarry(file, look.key)
                      && ChainCarry(again, look.key) == ChainCarry(file, look.key)
  }

  /** The files the worker of the write at `k` read carry over the same as the one it replaces. */
  ghost predicate Continues(run: Run, looks: map<nat, Look>, interval: nat, k: nat)
    requires DrainWrites(run, looks, interval) && Carries(run, k)
  {
    assert Looked(run, looks, k, interval);
    CarriesAlike(ReadRecord(run, k).state == Promoted, FileAt(run, looks[k].at, looks[k].key),
                 FileAt(run, looks[k].again, looks[k].key), looks[k], FileAt(run, k, looks[k].key))
  }

  /** A look of the same kind at the same job: it may observe anything, at any time, with any verdict. */
  predicate SameKind(look: Look, other: Look) {
    other.key == look.key && (other.observed.Some? <==> look.observed.Some?)
  }

  /** Built from the reads, `other` leaves what it would leave when made over the stored snapshot. */
  predicate Extends(promoted: bool, first: Option<Snapshot>, again: Option<Snapshot>, other: Look,
                    stored: Option<Snapshot>, interval: nat)
  {
    var built := BuiltFrom(promoted, first, again, other, interval);
    built.Some? ==> built == StepJob(stored, EventOf(promoted, other), interval)
  }

  lemma {:induction false} AlikeExtend(promoted: bool, first: Option<Snapshot>, again: Option<Snapshot>, look: Look,
                                       other: Look, stored: Option<Snapshot>, interval: nat)
    requires look.observed.Some? && SameKind(look, other)
    requires CarriesAlike(promoted, first, again, look, ReadBack(stored))
    ensures Extends(promoted, first, again, other, stored, interval)
  {
    if promoted {
      StoresAlikeExactlyWhen(first, again, ReadBack(stored), look.key, interval);
    } else {
      UnpromotedStoresAlike(first, again, ReadBack(stored), look.key, other.now, other.observed.value, interval,
                            other.combined);
    }
  }

  /** Whatever is observed, and whenever. */
  ghost predicate AllExtend(promoted: bool, first: Option<Snapshot>, again: Option<Snapshot>, look: Look,
                            stored: Option<Snapshot>, interval: nat)
  {
    forall other :: SameKind(look, other) ==> Extends(promoted, first, again, other, stored, interval)
  }

  lemma {:induction false} OneExtends(first: Option<Snapshot>, again: Option<Snapshot>, look: Look,
                                      stored: Option<Snapshot>, interval: nat, now: Time, o: Observed, combined: bool)
    requires look.observed.Some? && AllExtend(true, first, again, look, stored, interval)
    ensures TakeFrom(true, first, again, look.key, now, o, interval, combined)
         == TakeSnapshot(true, ReadBack(stored), look.key, now, o, interval, combined)
  {
    var other := Look(0, 0, 0, look.key, now, Some(o), combined);
    assert SameKind(look, other) && Extends(true, first, again, other, stored, interval);
  }

  lemma {:induction false} ExtendAlike(first: Option<Snapshot>, again: Option<Snapshot>, look: Look,
                                       stored: Option<Snapshot>, interval: nat)
    requires look.observed.Some? && AllExtend(true, first, again, look, stored, interval)
    ensures CarriesAlike(true, first, again, look, ReadBack(stored))
  {
    forall now, o, combined
      ensures TakeFrom(true, first, again, look.key, now, o, interval, combined)
           == TakeSnapshot(true, ReadBack(stored), look.key, now, o, interval, combined)
    {
      OneExtends(first, again, look, stored, interval, now, o, combined);
    }
    StoresAlikeExactlyWhen(first, again, ReadBack(stored), look.key, interval);
  }

  lemma {:induction false} ObservationsExtend(promoted: bool, first: Option<Snapshot>, again: Option<Snapshot>,
                                              look: Look, stored: Option<Snapshot>, interval: nat)
    requires look.observed.Some?
    ensures AllExtend(promoted, first, again, look, stored, interval) <==>
            CarriesAlike(promoted, first, again, look, ReadBack(stored))
  {
    if CarriesAlike(promoted, first, again, look, ReadBack(stored)) {
      forall other | SameKind(look, other)
        ensures Extends(promoted, first, again, other, stored, interval)
      {
        AlikeExtend(promoted, first, again, look, other, stored, interval);
      }
    } else if AllExtend(promoted, first, again, look, stored, interval) {
      ExtendAlike(first, again, look, stored, interval);
      assert false;
    }
  }

  lemma {:induction false} MissesExtend(promoted: bool, first: Option<Snapshot>, again: Option<Snapshot>, look: Look,
                                        stored: Option<Snapshot>, interval: nat)
    requires look.observed.None? && Writable(first)
    ensures AllExtend(promoted, first, again, look, stored, interval) <==>
            CarriesAlike(promoted, first, again, look, ReadBack(stored))
  {
    var file := ReadBack(stored);
    MissesAlikeExactlyWhen(first, file, look.key);
    if AllExtend(promoted, first, again, look, stored, interval) {
      forall now
        ensures UnavailableSnapshot(first, look.key, now).Some? ==>
                  UnavailableSnapshot(first, look.key, now) == AfterMiss(file, look.key, now)
      {
        var other := Look(0, 0, 0, look.key, now, None, false);
        assert SameKind(look, other) && Extends(promoted, first, again, other, stored, interval);
      }
    }
  }

  /** Exactly when a write carries on the history of the file it replaces, whatever its worker may have observed and
      whenever: what the worker read carries over the same watch and chain as that file. A read that an overlooked
      write left unchanged in this sense is as good as one that overlooks nothing. */
  lemma {:induction false} ContinuesExactlyWhen(run: Run, looks: map<nat, Look>, interval: nat, k: nat, j: JobId)
    requires DrainWrites(run, looks, interval) && Writes(run, k, j)
    ensures k in looks && looks[k].at <= looks[k].again < |run.states| && run.events[k].readAt < |run.states|
    ensures IngressOf(run.events[k].req.intent) in IntentsAt(run, run.events[k].readAt)
    ensures var look, promoted := looks[k], ReadRecord(run, k).state == Promoted;
            Continues(run, looks, interval, k) <==>
            AllExtend(promoted, FileAt(run, look.at, look.key), FileAt(run, look.again, look.key), look,
                      Stored(run, k, j), interval)
  {
    ReadsInOrder(run, looks, interval, k);
    LooksAtItsJob(run, looks, interval, k, j);
    var look, promoted := looks[k], ReadRecord(run, k).state == Promoted;
    FileIsReadBack(run, k, look.key);
    var first, again := FileAt(run, look.at, look.key), FileAt(run, look.again, look.key);
    if look.observed.Some? {
      ObservationsExtend(promoted, first, again, look, Stored(run, k, j), interval);
    } else {
      MissesExtend(promoted, first, again, look, Stored(run, k, j), interval);
    }
  }

  /** Such a write adds its event to the history of the file. */
  lemma {:induction false} WriteIsStep(run: Run, looks: map<nat, Look>, interval: nat, k: nat, j: JobId)
    requires DrainWrites(run, looks, interval) && Writes(run, k, j) && Continues(run, looks, interval, k)
    ensures Stored(run, k + 1, j) == StepJob(Stored(run, k, j), EventAt(run, looks, k, interval), interval)
  {
    ContinuesExactlyWhen(run, looks, interval, k, j);
    ReadsInOrder(run, looks, interval, k);
    FileStep(run, looks, interval, k, j);
    assert SameKind(looks[k], looks[k]);
  }

  /** A write that does not continue the history overlooks another to its job, which crashed before its record or was
      for another record. */
  lemma {:induction false} BreaksOnly(run: Run, looks: map<nat, Look>, interval: nat, k: nat, j: JobId)
    returns (b: nat)
    requires DrainWrites(run, looks, interval) && Writes(run, k, j) && !Continues(run, looks, interval, k)
    ensures k in looks && looks[k].at <= b < k && Writes(run, b, j) && Unfenced(run, k, b)
  {
    ReadsInOrder(run, looks, interval, k);
    LooksAtItsJob(run, looks, interval, k, j);
    var look := looks[k];
    FileIsReadBack(run, look.at, look.key);
    FileIsReadBack(run, look.again, look.key);
    FileIsReadBack(run, k, look.key);
    if Quiet(run, look.at, k, j) {
      Untouched(run, looks, interval, look.at, k, j);
      Untouched(run, looks, interval, look.again, k, j);
      assert false;
    }
    b :| look.at <= b < k && Writes(run, b, j);
    FencedOff(run, looks, interval, k, b);
  }

  /** Every write to the job carries on what it replaces. */
  ghost predicate Unbroken(run: Run, looks: map<nat, Look>, interval: nat, j: JobId)
    requires DrainWrites(run, looks, interval)
  {
    forall k: nat {:trigger Continues(run, looks, interval, k)} ::
      Writes(run, k, j) ==> Continues(run, looks, interval, k)
  }

  lemma {:induction false} OrderlyIsUnbroken(run: Run, looks: map<nat, Look>, interval: nat, j: JobId)
    requires DrainWrites(run, looks, interval) && Orderly(run, j)
    ensures Unbroken(run, looks, interval, j)
  {
    forall k: nat | Writes(run, k, j)
      ensures Continues(run, looks, interval, k)
    {
      if !Continues(run, looks, interval, k) {
        var b := BreaksOnly(run, looks, interval, k, j);
        assert false;
      }
    }
  }

  ghost predicate FollowsHistory(run: Run, looks: map<nat, Look>, interval: nat, m: nat, j: JobId)
    requires DrainWrites(run, looks, interval) && m < |run.states|
  {
    Stored(run, m, j) == RunJob(HistoryOf(run, looks, m, j, interval), interval)
  }

  lemma {:induction false} RunJobAppends(before: seq<JobEvent>, e: JobEvent, interval: nat)
    ensures RunJob(before + [e], interval) == StepJob(RunJob(before, interval), e, interval)
  {
    assert (before + [e])[..|before|] == before;
  }

  lemma {:induction false} HistoryAdds(run: Run, looks: map<nat, Look>, interval: nat, k: nat, j: JobId)
    requires DrainWrites(run, looks, interval) && Writes(run, k, j)
    ensures HistoryOf(run, looks, k + 1, j, interval)
            == HistoryOf(run, looks, k, j, interval) + [EventAt(run, looks, k, interval)]
  {
  }

  lemma {:induction false} WriteFollows(run: Run, looks: map<nat, Look>, interval: nat, k: nat, j: JobId)
    requires DrainWrites(run, looks, interval) && Writes(run, k, j) && Continues(run, looks, interval, k)
    requires FollowsHistory(run, looks, interval, k, j)
    ensures FollowsHistory(run, looks, interval, k + 1, j)
  {
    WriteIsStep(run, looks, interval, k, j);
    HistoryAdds(run, looks, interval, k, j);
    RunJobAppends(HistoryOf(run, looks, k, j, interval), EventAt(run, looks, k, interval), interval);
  }

  lemma {:induction false} OtherFollows(run: Run, looks: map<nat, Look>, interval: nat, k: nat, j: JobId)
    requires DrainWrites(run, looks, interval) && k < |run.events| && !Writes(run, k, j)
    requires FollowsHistory(run, looks, interval, k, j)
    ensures FollowsHistory(run, looks, interval, k + 1, j)
  {
    FileStep(run, looks, interval, k, j);
  }

  lemma {:induction false} AnyFollows(run: Run, looks: map<nat, Look>, interval: nat, m: nat, j: JobId)
    requires DrainWrites(run, looks, interval) && 0 < m < |run.states| && Unbroken(run, looks, interval, j)
    requires FollowsHistory(run, looks, interval, m - 1, j)
    ensures FollowsHistory(run, looks, interval, m, j)
  {
    if Writes(run, m - 1, j) {
      assert Continues(run, looks, interval, m - 1);
      WriteFollows(run, looks, interval, m - 1, j);
    } else {
      OtherFollows(run, looks, interval, m - 1, j);
    }
  }

  lemma {:induction false} FileStarts(run: Run, looks: map<nat, Look>, interval: nat, m: nat, j: JobId)
    requires DrainWrites(run, looks, interval) && m == 0
    ensures FollowsHistory(run, looks, interval, m, j)
  {
  }

  /** At every point of a run in which every write to the job carries on what it replaces, the job's snapshot file is
      what its history stores, so everything proved of histories holds of it. */
  lemma {:induction false} FileIsHistory(run: Run, looks: map<nat, Look>, interval: nat, m: nat, j: JobId)
    requires DrainWrites(run, looks, interval) && m < |run.states| && Unbroken(run, looks, interval, j)
    ensures FollowsHistory(run, looks, interval, m, j)
  {
    var n: nat := 0;
    FileStarts(run, looks, interval, n, j);
    while n < m
      invariant n <= m && FollowsHistory(run, looks, interval, n, j)
    {
      n := n + 1;
      AnyFollows(run, looks, interval, n, j);
    }
  }

  /** So the file says settled exactly when the window of its history closes. */
  lemma {:induction false} FileSettlesExactlyAtWindow(run: Run, looks: map<nat, Look>, interval: nat, m: nat, j: JobId)
    requires DrainWrites(run, looks, interval) && m < |run.states| && Unbroken(run, looks, interval, j)
    ensures var stored, events := Stored(run, m, j), HistoryOf(run, looks, m, j, interval);
            var ms := Marks(events);
            ms != [] ==>
              && stored.Some?
              && (stored.value.settled <==>
                    Window(ms, interval) && (events[|events| - 1].Recorded? || Readable(ms, interval)))
  {
    FileIsHistory(run, looks, interval, m, j);
    SettledExactlyAtWindow(HistoryOf(run, looks, m, j, interval), interval);
  }
}

/** Concrete runs in which the snapshot file and the history of its job part, or a stored snapshot cannot be read
    back: what is outside the version fence does happen. */
module SnapshotRaces {
  import opened Wrappers
  import opened LifecycleModels
  import opened Settlement
  import opened LifecycleStore
  import opened StoreRuns
  import opened Workflow
  import opened SnapshotCarry
  import opened JobRuns

  /** The key is one the intent can be promoted to. */
  ghost predicate Apt(intent: Intent, key: Key) {
    SameIngressKey(intent, key) && intent.prNumber == Some(key.prNumber)
  }

  function Promoting(r: Record, key: Key, s: Snapshot): Request {
    Promote(r.intent, key, Some(1), VersionOf(r), Some(s))
  }

  function Promotion(r: Record, key: Key): Record {
    LinkedRecord(r, key, Promoted, Some(1))
  }

  // ---------------------------------------------------------------- a dirty observation that is overlooked

  /** An observation right after a dirty one never settles. */
  lemma {:induction false} DirtyBefore(before: seq<JobEvent>, b: Reading, c: Reading, interval: nat)
    requires !CleanObservation(b.observed) && CleanObservation(c.observed)
    ensures var s := RunJob(before + [Recorded(b)] + [Recorded(c)], interval); s.Some? && !s.value.settled
  {
    OneMark(before, b);
    HealthyIsClean(b.key, b.now, b.observed);
    HealthyIsClean(c.key, c.now, c.observed);
    ChainRestarts(before + [Recorded(b)], c, interval);
    RunJobAppends(before + [Recorded(b)], Recorded(c), interval);
  }

  lemma {:induction false} HistoryStays(run: Run, looks: map<nat, Look>, interval: nat, i: nat, k: nat, j: JobId)
    requires DrainWrites(run, looks, interval) && i <= k < |run.states| && Quiet(run, i, k, j)
    ensures HistoryOf(run, looks, k, j, interval) == HistoryOf(run, looks, i, j, interval)
    decreases k
  {
    if i < k {
      HistoryStays(run, looks, interval, i, k - 1, j);
    }
  }

  lemma {:induction false} LastWrite(run: Run, looks: map<nat, Look>, interval: nat, c: nat, m: nat, j: JobId)
    requires DrainWrites(run, looks, interval) && c < m < |run.states| && Writes(run, c, j) && Quiet(run, c + 1, m, j)
    ensures HistoryOf(run, looks, m, j, interval)
            == HistoryOf(run, looks, c, j, interval) + [EventAt(run, looks, c, interval)]
  {
    HistoryAdds(run, looks, interval, c, j);
    HistoryStays(run, looks, interval, c + 1, m, j);
  }

  /** When the last write to the job is clean and the one before it dirty, the history is not settled. */
  lemma {:induction false} DirtyHistory(run: Run, looks: map<nat, Look>, interval: nat, b: nat, c: nat, m: nat,
                                        j: JobId, dirty: Reading, clean: Reading)
    requires DrainWrites(run, looks, interval) && b < c < m < |run.states| && Writes(run, b, j) && Writes(run, c, j)
    requires Quiet(run, b + 1, c, j) && Quiet(run, c + 1, m, j)
    requires EventAt(run, looks, b, interval) == Recorded(dirty) && EventAt(run, looks, c, interval) == Recorded(clean)
    requires !CleanObservation(dirty.observed) && CleanObservation(clean.observed)
    ensures var kept := RunJob(HistoryOf(run, looks, m, j, interval), interval); kept.Some? && !kept.value.settled
  {
    LastWrite(run, looks, interval, b, c, j);
    LastWrite(run, looks, interval, c, m, j);
    DirtyBefore(HistoryOf(run, looks, b, j, interval), dirty, clean, interval);
  }

  /** A look whose clock and file reads are at one point. */
  function LookAt(at: nat, key: Key, now: Time, o: Observed): Look {
    Look(at, at, at, key, now, Some(o), true)
  }

  function Take(promoted: bool, file: Option<Snapshot>, look: Look): Snapshot
    requires look.observed.Some?
  {
    BuiltFrom(promoted, file, file, look, 30).value
  }

  lemma {:induction false} TakeCases(promoted: bool, file: Option<Snapshot>, look: Look)
    requires look.observed.Some? && look.combined && (file.Some? ==> Formed(file.value))
    ensures var s, r := Take(promoted, file, look), Reading(look.key, look.now, promoted, look.observed.value, true);
            BuiltFrom(promoted, file, file, look, 30) == Some(s) && s.key == look.key && Taken(s, MarkOf(r), file, 30)
  {
    TakenFrom(promoted, file, file, Reading(look.key, look.now, promoted, look.observed.value, true), 30);
    SnapshotKeepsKey(promoted, file, look.key, look.now, look.observed.value, 30, true);
  }

  /** A first clean observation, a dirty one that read it, and a later clean one that read it too, and settles. */
  lemma {:induction false} CleanDirtyClean(promoted: bool, l1: Look, l2: Look, l3: Look, clean: Observed,
                                           dirty: Observed) returns (one: Snapshot, two: Snapshot, three: Snapshot)
    requires CleanObservation(clean) && !CleanObservation(dirty) && l1.key == l2.key == l3.key
    requires l1.observed == Some(clean) == l3.observed && l2.observed == Some(dirty)
    requires l1.combined && l2.combined && l3.combined && l1.now + 30 <= l3.now
    ensures BuiltFrom(false, None, None, l1, 30) == Some(one)
    ensures BuiltFrom(promoted, Some(one), Some(one), l2, 30) == Some(two)
    ensures BuiltFrom(true, Some(one), Some(one), l3, 30) == Some(three)
    ensures one.key == l1.key && two.key == l1.key && three.key == l1.key && Accepted(one) && three.settled
    ensures ChainCarry(Some(one), l1.key).Some? && ChainCarry(Some(two), l1.key) == None
  {
    one := Take(false, None, l1);
    TakeCases(false, None, l1);
    HealthyIsClean(l1.key, l1.now, clean);
    two := Take(promoted, Some(one), l2);
    TakeCases(promoted, Some(one), l2);
    HealthyIsClean(l1.key, l2.now, dirty);
    three := Take(true, Some(one), l3);
    TakeCases(true, Some(one), l3);
    CleanHasCleanFacts(l1.key, l1.now, clean);
    FactsHaveNoTime(l1.key, l1.now, l3.now, clean);
  }

  lemma {:induction false} FactsHaveNoTime(key: Key, a: Time, b: Time, o: Observed)
    ensures FactsOf(Built(key, a, o)) == FactsOf(Built(key, b, o))
  {
  }

  // ---------------------------------------------------------------- by a crash

  /** One record is enqueued and promoted with `one`; a worker replaces its snapshot file with `two` and crashes;
      another, which had read the record before that, promotes it with `three`. */
  function CrashRun(intent: Intent, key: Key, one: Snapshot, two: Snapshot, three: Snapshot): Run {
    var id, j := IngressOf(intent), JobOf(key);
    var r1 := EnqueuedRecord(None, intent);
    var r2, r3 := Promotion(r1, key), Promotion(Promotion(r1, key), key);
    var enqueue := Request.Enqueue(intent);
    var first, dies, last := Promoting(r1, key, one), Promoting(r2, key, two), Promoting(r2, key, three);
    Run(
      [Sys(Disk(map[], map[]), None),
       Sys(Disk(map[], map[]), Some(Txn(enqueue, Plan(None, id, r1)))),
       Sys(Disk(map[id := r1], map[]), None),
       Sys(Disk(map[id := r1], map[j := one]), Some(Txn(first, Plan(Some(one), id, r2)))),
       Sys(Disk(map[id := r2], map[j := one]), None),
       Sys(Disk(map[id := r2], map[j := two]), Some(Txn(dies, Plan(Some(two), id, r3)))),
       Sys(Disk(map[id := r2], map[j := two]), None),
       Sys(Disk(map[id := r2], map[j := three]), Some(Txn(last, Plan(Some(three), id, r3)))),
       Sys(Disk(map[id := r3], map[j := three]), None)],
      [Begin(enqueue, 0), Finish, Begin(first, 2), Finish, Begin(dies, 4), Crash, Begin(last, 4), Finish])
  }

  lemma {:induction false} CrashRunIsFenced(intent: Intent, key: Key, one: Snapshot, two: Snapshot, three: Snapshot)
    requires Apt(intent, key) && one.key == key && two.key == key && three.key == key
    ensures Fenced(CrashRun(intent, key, one, two, three))
  {
    var run := CrashRun(intent, key, one, two, three);
    assert Step(run.states[0], run.events[0], run.states[1]);
    assert Step(run.states[1], run.events[1], run.states[2]);
    assert Step(run.states[2], run.events[2], run.states[3]);
    assert Step(run.states[3], run.events[3], run.states[4]);
    assert Step(run.states[4], run.events[4], run.states[5]);
    assert Step(run.states[5], run.events[5], run.states[6]);
    assert Step(run.states[6], run.events[6], run.states[7]);
    assert Step(run.states[7], run.events[7], run.states[8]);
    assert IsRun(run);
    assert ReadBefore(run, 2, run.events[2].req, 2);
    assert ReadBefore(run, 4, run.events[4].req, 4);
    assert ReadBefore(run, 6, run.events[6].req, 4);
  }

  lemma {:induction false} CrashRunWrites(intent: Intent, key: Key, one: Snapshot, two: Snapshot, three: Snapshot,
                                          k: nat)
    requires one.key == key && two.key == key && three.key == key && k < 8
    ensures Carries(CrashRun(intent, key, one, two, three), k) <==> k == 2 || k == 4 || k == 6
    ensures Writes(CrashRun(intent, key, one, two, three), k, JobOf(key)) <==> k == 2 || k == 4 || k == 6
    ensures !CrashRun(intent, key, one, two, three).events[k].BareSnapshot?
  {
  }

  lemma {:induction false} CrashRunFiles(intent: Intent, key: Key, one: Snapshot, two: Snapshot, three: Snapshot)
    requires one.key == key && two.key == key && three.key == key
    ensures var run := CrashRun(intent, key, one, two, three);
            && FileAt(run, 2, key) == None && FileAt(run, 4, key) == ReadBack(Some(one))
            && FileAt(run, 6, key) == ReadBack(Some(two)) && Stored(run, 8, JobOf(key)) == Some(three)
  {
    var run := CrashRun(intent, key, one, two, three);
    assert run.states[2].disk.snapshots == map[];
    assert run.states[4].disk.snapshots == map[JobOf(key) := one];
    assert run.states[6].disk.snapshots == map[JobOf(key) := two];
    assert run.states[8].disk.snapshots == map[JobOf(key) := three];
  }

  lemma {:induction false} CrashRunRecords(intent: Intent, key: Key, one: Snapshot, two: Snapshot, three: Snapshot)
    requires intent.prNumber.Some?
    ensures var run, id := CrashRun(intent, key, one, two, three), IngressOf(intent);
            && id in IntentsAt(run, 2) && IntentsAt(run, 2)[id].state == LifecycleState.Pending
            && id in IntentsAt(run, 4) && IntentsAt(run, 4)[id].state == Promoted
            && id in IntentsAt(run, 8) && IntentsAt(run, 8)[id].state == Promoted
  {
  }

  function ThreeLooks(l2: Look, l4: Look, l6: Look): map<nat, Look> {
    map[2 := l2, 4 := l4, 6 := l6]
  }

  /** The three looks build the three snapshots, in order, from the files the run shows them. */
  ghost predicate Fits(key: Key, one: Snapshot, two: Snapshot, three: Snapshot, l2: Look, l4: Look, l6: Look) {
    && one.key == key && two.key == key && three.key == key && l2.key == key && l4.key == key && l6.key == key
    && InOrder(l2, 2, 2) && InOrder(l4, 4, 4) && InOrder(l6, 4, 6) && l6.at == l6.again && (l6.at == 4 || l6.at == 6)
    && Accepted(one) && (l6.at == 6 ==> Accepted(two))
    && BuiltFrom(false, None, None, l2, 30) == Some(one)
    && BuiltFrom(true, Some(one), Some(one), l4, 30) == Some(two)
    && var file := Some(if l6.at == 4 then one else two); BuiltFrom(true, file, file, l6, 30) == Some(three)
  }

  lemma {:induction false} LookedFrom(run: Run, looks: map<nat, Look>, k: nat, promoted: bool, file: Option<Snapshot>)
    requires Carries(run, k) && |run.states| == |run.events| + 1 && k in looks
    requires InOrder(looks[k], run.events[k].readAt, k) && looks[k].at == looks[k].again
    requires var id, readAt := IngressOf(run.events[k].req.intent), run.events[k].readAt;
             id in IntentsAt(run, readAt) && (promoted <==> IntentsAt(run, readAt)[id].state == Promoted)
    requires FileAt(run, looks[k].at, looks[k].key) == file
    requires Carried(run.events[k].req) == BuiltFrom(promoted, file, file, looks[k], 30)
    ensures Looked(run, looks, k, 30)
  {
  }

  lemma {:induction false} FirstLooked(intent: Intent, key: Key, one: Snapshot, two: Snapshot, three: Snapshot,
                                       looks: map<nat, Look>)
    requires Apt(intent, key) && one.key == key && two.key == key && three.key == key
    requires 2 in looks && looks[2].key == key && InOrder(looks[2], 2, 2) && looks[2].at == looks[2].again
    requires BuiltFrom(false, None, None, looks[2], 30) == Some(one)
    ensures Looked(CrashRun(intent, key, one, two, three), looks, 2, 30)
  {
    var run := CrashRun(intent, key, one, two, three);
    CrashRunWrites(intent, key, one, two, three, 2);
    CrashRunFiles(intent, key, one, two, three);
    LookedFrom(run, looks, 2, false, None);
  }

  lemma {:induction false} DyingLooked(intent: Intent, key: Key, one: Snapshot, two: Snapshot, three: Snapshot,
                                       looks: map<nat, Look>)
    requires Apt(intent, key) && one.key == key && two.key == key && three.key == key
    requires 4 in looks && looks[4].key == key && InOrder(looks[4], 4, 4) && looks[4].at == looks[4].again
    requires Accepted(one)
    requires BuiltFrom(true, Some(one), Some(one), looks[4], 30) == Some(two)
    ensures Looked(CrashRun(intent, key, one, two, three), looks, 4, 30)
  {
    var run := CrashRun(intent, key, one, two, three);
    CrashRunWrites(intent, key, one, two, three, 4);
    CrashRunFiles(intent, key, one, two, three);
    LookedFrom(run, looks, 4, true, Some(one));
  }

  lemma {:induction false} LastLooked(intent: Intent, key: Key, one: Snapshot, two: Snapshot, three: Snapshot,
                                      looks: map<nat, Look>)
    requires Apt(intent, key) && one.key == key && two.key == key && three.key == key
    requires 6 in looks && looks[6].key == key && InOrder(looks[6], 4, 6) && looks[6].at == looks[6].again
    requires (looks[6].at == 4 && Accepted(one)) || (looks[6].at == 6 && Accepted(two))
    requires var file := Some(if looks[6].at == 4 then one else two);
             BuiltFrom(true, file, file, looks[6], 30) == Some(three)
    ensures Looked(CrashRun(intent, key, one, two, three), looks, 6, 30)
  {
    var run := CrashRun(intent, key, one, two, three);
    CrashRunWrites(intent, key, one, two, three, 6);
    CrashRunFiles(intent, key, one, two, three);
    LookedFrom(run, looks, 6, true, Some(if looks[6].at == 4 then one else two));
  }

  lemma {:induction false} CrashRunIsDrains(intent: Intent, key: Key, one: Snapshot, two: Snapshot, three: Snapshot,
                                            l2: Look, l4: Look, l6: Look)
    requires Apt(intent, key) && Fits(key, one, two, three, l2, l4, l6)
    ensures DrainWrites(CrashRun(intent, key, one, two, three), ThreeLooks(l2, l4, l6), 30)
  {
    var run, looks := CrashRun(intent, key, one, two, three), ThreeLooks(l2, l4, l6);
    CrashRunIsFenced(intent, key, one, two, three);
    FirstLooked(intent, key, one, two, three, looks);
    DyingLooked(intent, key, one, two, three, looks);
    LastLooked(intent, key, one, two, three, looks);
    forall k: nat | Carries(run, k)
      ensures Looked(run, looks, k, 30)
    {
      CrashRunWrites(intent, key, one, two, three, k);
    }
    forall k | 0 <= k < |run.events|
      ensures !run.events[k].BareSnapshot?
    {
      CrashRunWrites(intent, key, one, two, three, k);
    }
  }

  lemma {:induction false} CrashRunEvents(intent: Intent, key: Key, one: Snapshot, two: Snapshot, three: Snapshot,
                                          l2: Look, l4: Look, l6: Look)
    requires one.key == key && two.key == key && three.key == key && intent.prNumber.Some?
    requires DrainWrites(CrashRun(intent, key, one, two, three), ThreeLooks(l2, l4, l6), 30)
    ensures var run, looks := CrashRun(intent, key, one, two, three), ThreeLooks(l2, l4, l6);
            && Carries(run, 4) && EventAt(run, looks, 4, 30) == EventOf(true, l4)
            && Carries(run, 6) && EventAt(run, looks, 6, 30) == EventOf(true, l6)
  {
    CrashRunWrites(intent, key, one, two, three, 4);
    CrashRunWrites(intent, key, one, two, three, 6);
    CrashRunRecords(intent, key, one, two, three);
  }

  lemma {:induction false} CrashRunCrashes(intent: Intent, key: Key, one: Snapshot, two: Snapshot, three: Snapshot)
    requires one.key == key && two.key == key && three.key == key
    ensures var run, j := CrashRun(intent, key, one, two, three), JobOf(key);
            && Crashed(run, 4) && Writes(run, 4, j) && Writes(run, 6, j) && Quiet(run, 5, 6, j) && Quiet(run, 7, 8, j)
  {
    var run := CrashRun(intent, key, one, two, three);
    CrashRunWrites(intent, key, one, two, three, 4);
    CrashRunWrites(intent, key, one, two, three, 5);
    CrashRunWrites(intent, key, one, two, three, 6);
    CrashRunWrites(intent, key, one, two, three, 7);
    assert EndsAt(run, 4, 5);
  }

  lemma {:induction false} OtherChain(run: Run, looks: map<nat, Look>, interval: nat, k: nat)
    requires DrainWrites(run, looks, interval) && Carries(run, k) && k in looks && looks[k].again < |run.states|
    requires looks[k].observed.Some? && EventAt(run, looks, k, interval) == EventOf(true, looks[k])
    requires ChainCarry(FileAt(run, looks[k].again, looks[k].key), looks[k].key)
          != ChainCarry(FileAt(run, k, looks[k].key), looks[k].key)
    ensures !Continues(run, looks, interval, k)
  {
  }

  /** The write at 4 crashes, the one at 6 overlooks it, and the file says settled although the observation before the
      last was dirty. */
  lemma {:induction false} CrashIsOverlooked(intent: Intent, key: Key, clean: Observed, dirty: Observed)
    returns (run: Run, looks: map<nat, Look>)
    requires Apt(intent, key) && CleanObservation(clean) && !CleanObservation(dirty)
    ensures DrainWrites(run, looks, 30) && |run.states| == 9
    ensures Crashed(run, 4) && Writes(run, 4, JobOf(key))
    ensures Writes(run, 6, JobOf(key)) && !Continues(run, looks, 30, 6)
    ensures Stored(run, 8, JobOf(key)).Some? && Stored(run, 8, JobOf(key)).value.settled
    ensures var kept := RunJob(HistoryOf(run, looks, 8, JobOf(key), 30), 30); kept.Some? && !kept.value.settled
  {
    var l2, l4, l6 := LookAt(2, key, 0, clean), LookAt(4, key, 10, dirty), LookAt(4, key, 100, clean);
    var one, two, three := CleanDirtyClean(true, l2, l4, l6, clean, dirty);
    run, looks := CrashRun(intent, key, one, two, three), ThreeLooks(l2, l4, l6);
    CrashRunIsDrains(intent, key, one, two, three, l2, l4, l6);
    CrashRunFiles(intent, key, one, two, three);
    CrashRunEvents(intent, key, one, two, three, l2, l4, l6);
    CrashRunCrashes(intent, key, one, two, three);
    DirtyHistory(run, looks, 30, 4, 6, 8, JobOf(key), Reading(key, 10, true, dirty, true),
                 Reading(key, 100, true, clean, true));
    CrashRunRecords(intent, key, one, two, three);
    OtherChain(run, looks, 30, 6);
  }

  // ---------------------------------------------------------------- by a second record

  /** Two records of one job, of different refs: the second is promoted with `two` after the worker of the first has
      read the file, and before it writes. */
  function PairRun(intent: Intent, other: Intent, key: Key, one: Snapshot, two: Snapshot, three: Snapshot): Run {
    var id, ot, j := IngressOf(intent), IngressOf(other), JobOf(key);
    var r1, s1 := EnqueuedRecord(None, intent), EnqueuedRecord(None, other);
    var r2, s2 := Promotion(r1, key), Promotion(s1, key);
    var r3 := Promotion(r2, key);
    var enqueue, second := Request.Enqueue(intent), Request.Enqueue(other);
    var first, between, last := Promoting(r1, key, one), Promoting(s1, key, two), Promoting(r2, key, three);
    Run(
      [Sys(Disk(map[], map[]), None),
       Sys(Disk(map[], map[]), Some(Txn(enqueue, Plan(None, id, r1)))),
       Sys(Disk(map[id := r1], map[]), None),
       Sys(Disk(map[id := r1], map[]), Some(Txn(second, Plan(None, ot, s1)))),
       Sys(Disk(map[id := r1, ot := s1], map[]), None),
       Sys(Disk(map[id := r1, ot := s1], map[j := one]), Some(Txn(first, Plan(Some(one), id, r2)))),
       Sys(Disk(map[id := r2, ot := s1], map[j := one]), None),
       Sys(Disk(map[id := r2, ot := s1], map[j := two]), Some(Txn(between, Plan(Some(two), ot, s2)))),
       Sys(Disk(map[id := r2, ot := s2], map[j := two]), None),
       Sys(Disk(map[id := r2, ot := s2], map[j := three]), Some(Txn(last, Plan(Some(three), id, r3)))),
       Sys(Disk(map[id := r3, ot := s2], map[j := three]), None)],
      [Begin(enqueue, 0), Finish, Begin(second, 2), Finish, Begin(first, 4), Finish, Begin(between, 6), Finish,
       Begin(last, 6), Finish])
  }

  ghost predicate Pair(intent: Intent, other: Intent, key: Key) {
    Apt(intent, key) && Apt(other, key) && IngressOf(intent) != IngressOf(other)
  }

  lemma {:induction false} PairEnqueues(intent: Intent, other: Intent, key: Key, one: Snapshot, two: Snapshot,
                                        three: Snapshot, k: nat)
    requires Pair(intent, other, key) && one.key == key && two.key == key && three.key == key && k < 4
    ensures var run := PairRun(intent, other, key, one, two, three);
            Step(run.states[k], run.events[k], run.states[k + 1])
  {
    var run := PairRun(intent, other, key, one, two, three);
    assert Step(run.states[0], run.events[0], run.states[1]);
    assert Step(run.states[1], run.events[1], run.states[2]);
    assert Step(run.states[2], run.events[2], run.states[3]);
    assert Step(run.states[3], run.events[3], run.states[4]);
  }

  lemma {:induction false} PairPromotesFirst(intent: Intent, other: Intent, key: Key, one: Snapshot, two: Snapshot,
                                             three: Snapshot, k: nat)
    requires Pair(intent, other, key) && one.key == key && two.key == key && three.key == key && 4 <= k < 6
    ensures var run := PairRun(intent, other, key, one, two, three);
            Step(run.states[k], run.events[k], run.states[k + 1])
  {
    var run := PairRun(intent, other, key, one, two, three);
    assert Step(run.states[4], run.events[4], run.states[5]);
    assert Step(run.states[5], run.events[5], run.states[6]);
  }

  lemma {:induction false} PairPromotesSecond(intent: Intent, other: Intent, key: Key, one: Snapshot, two: Snapshot,
                                              three: Snapshot, k: nat)
    requires Pair(intent, other, key) && one.key == key && two.key == key && three.key == key && 6 <= k < 8
    ensures var run := PairRun(intent, other, key, one, two, three);
            Step(run.states[k], run.events[k], run.states[k + 1])
  {
    var run := PairRun(intent, other, key, one, two, three);
    assert Step(run.states[6], run.events[6], run.states[7]);
    assert Step(run.states[7], run.events[7], run.states[8]);
  }

  lemma {:induction false} PairPromotesAgain(intent: Intent, other: Intent, key: Key, one: Snapshot, two: Snapshot,
                                             three: Snapshot, k: nat)
    requires Pair(intent, other, key) && one.key == key && two.key == key && three.key == key && 8 <= k < 10
    ensures var run := PairRun(intent, other, key, one, two, three);
            Step(run.states[k], run.events[k], run.states[k + 1])
  {
    var run := PairRun(intent, other, key, one, two, three);
    assert Step(run.states[8], run.events[8], run.states[9]);
    assert Step(run.states[9], run.events[9], run.states[10]);
  }

  lemma {:induction false} PairRunIsRun(intent: Intent, other: Intent, key: Key, one: Snapshot, two: Snapshot,
                                        three: Snapshot)
    requires Pair(intent, other, key) && one.key == key && two.key == key && three.key == key
    ensures IsRun(PairRun(intent, other, key, one, two, three))
  {
    var run := PairRun(intent, other, key, one, two, three);
    forall k | 0 <= k < |run.events|
      ensures Step(run.states[k], run.events[k], run.states[k + 1])
    {
      if k < 4 {
        PairEnqueues(intent, other, key, one, two, three, k);
      } else if k < 6 {
        PairPromotesFirst(intent, other, key, one, two, three, k);
      } else if k < 8 {
        PairPromotesSecond(intent, other, key, one, two, three, k);
      } else {
        PairPromotesAgain(intent, other, key, one, two, three, k);
      }
    }
  }

  lemma {:induction false} PairRunIsFenced(intent: Intent, other: Intent, key: Key, one: Snapshot, two: Snapshot,
                                           three: Snapshot)
    requires Pair(intent, other, key) && one.key == key && two.key == key && three.key == key
    ensures Fenced(PairRun(intent, other, key, one, two, three))
  {
    var run := PairRun(intent, other, key, one, two, three);
    PairRunIsRun(intent, other, key, one, two, three);
    assert ReadBefore(run, 4, run.events[4].req, 4);
    assert ReadBefore(run, 6, run.events[6].req, 6);
    assert ReadBefore(run, 8, run.events[8].req, 6);
  }

  lemma {:induction false} PairRunWrites(intent: Intent, other: Intent, key: Key, one: Snapshot, two: Snapshot,
                                         three: Snapshot, k: nat)
    requires one.key == key && two.key == key && three.key == key && k < 10
    ensures Carries(PairRun(intent, other, key, one, two, three), k) <==> k == 4 || k == 6 || k == 8
    ensures Writes(PairRun(intent, other, key, one, two, three), k, JobOf(key)) <==> k == 4 || k == 6 || k == 8
    ensures !PairRun(intent, other, key, one, two, three).events[k].BareSnapshot?
  {
  }

  lemma {:induction false} PairRunFiles(intent: Intent, other: Intent, key: Key, one: Snapshot, two: Snapshot,
                                        three: Snapshot)
    requires one.key == key && two.key == key && three.key == key
    ensures var run := PairRun(intent, other, key, one, two, three);
            && FileAt(run, 4, key) == None && FileAt(run, 6, key) == ReadBack(Some(one))
            && FileAt(run, 8, key) == ReadBack(Some(two)) && Stored(run, 10, JobOf(key)) == Some(three)
  {
    var run := PairRun(intent, other, key, one, two, three);
    assert run.states[4].disk.snapshots == map[];
    assert run.states[6].disk.snapshots == map[JobOf(key) := one];
    assert run.states[8].disk.snapshots == map[JobOf(key) := two];
    assert run.states[10].disk.snapshots == map[JobOf(key) := three];
  }

  lemma {:induction false} PairRunRecords(intent: Intent, other: Intent, key: Key, one: Snapshot, two: Snapshot,
                                          three: Snapshot)
    requires Pair(intent, other, key)
    ensures var run, id, ot := PairRun(intent, other, key, one, two, three), IngressOf(intent), IngressOf(other);
            && id in IntentsAt(run, 4) && IntentsAt(run, 4)[id].state == LifecycleState.Pending
            && ot in IntentsAt(run, 6) && IntentsAt(run, 6)[ot].state == LifecycleState.Pending
            && id in IntentsAt(run, 6) && IntentsAt(run, 6)[id].state == Promoted
  {
  }

  function PairLooks(l4: Look, l6: Look, l8: Look): map<nat, Look> {
    map[4 := l4, 6 := l6, 8 := l8]
  }

  ghost predicate PairFits(key: Key, one: Snapshot, two: Snapshot, three: Snapshot, l4: Look, l6: Look, l8: Look) {
    && one.key == key && two.key == key && three.key == key && l4.key == key && l6.key == key && l8.key == key
    && InOrder(l4, 4, 4) && InOrder(l6, 6, 6) && InOrder(l8, 6, 8) && l8.at == l8.again == 6 && Accepted(one)
    && BuiltFrom(false, None, None, l4, 30) == Some(one)
    && BuiltFrom(false, Some(one), Some(one), l6, 30) == Some(two)
    && BuiltFrom(true, Some(one), Some(one), l8, 30) == Some(three)
  }

  lemma {:induction false} PairFirstLooked(intent: Intent, other: Intent, key: Key, one: Snapshot, two: Snapshot,
                                           three: Snapshot, looks: map<nat, Look>)
    requires Pair(intent, other, key) && one.key == key && two.key == key && three.key == key
    requires 4 in looks && looks[4].key == key && InOrder(looks[4], 4, 4) && looks[4].at == looks[4].again
    requires BuiltFrom(false, None, None, looks[4], 30) == Some(one)
    ensures Looked(PairRun(intent, other, key, one, two, three), looks, 4, 30)
  {
    var run := PairRun(intent, other, key, one, two, three);
    PairRunWrites(intent, other, key, one, two, three, 4);
    PairRunFiles(intent, other, key, one, two, three);
    LookedFrom(run, looks, 4, false, None);
  }

  lemma {:induction false} PairSecondLooked(intent: Intent, other: Intent, key: Key, one: Snapshot, two: Snapshot,
                                            three: Snapshot, looks: map<nat, Look>)
    requires Pair(intent, other, key) && one.key == key && two.key == key && three.key == key
    requires 6 in looks && looks[6].key == key && InOrder(looks[6], 6, 6)
    requires looks[6].at == looks[6].again == 6 && Accepted(one)
    requires BuiltFrom(false, Some(one), Some(one), looks[6], 30) == Some(two)
    ensures Looked(PairRun(intent, other, key, one, two, three), looks, 6, 30)
  {
    var run := PairRun(intent, other, key, one, two, three);
    PairRunWrites(intent, other, key, one, two, three, 6);
    PairRunFiles(intent, other, key, one, two, three);
    LookedFrom(run, looks, 6, false, Some(one));
  }

  lemma {:induction false} PairLastLooked(intent: Intent, other: Intent, key: Key, one: Snapshot, two: Snapshot,
                                          three: Snapshot, looks: map<nat, Look>)
    requires Pair(intent, other, key) && one.key == key && two.key == key && three.key == key
    requires 8 in looks && looks[8].key == key && InOrder(looks[8], 6, 8)
    requires looks[8].at == looks[8].again == 6 && Accepted(one)
    requires BuiltFrom(true, Some(one), Some(one), looks[8], 30) == Some(three)
    ensures Looked(PairRun(intent, other, key, one, two, three), looks, 8, 30)
  {
    var run := PairRun(intent, other, key, one, two, three);
    PairRunWrites(intent, other, key, one, two, three, 8);
    PairRunFiles(intent, other, key, one, two, three);
    LookedFrom(run, looks, 8, true, Some(one));
  }

  lemma {:induction false} PairRunIsDrains(intent: Intent, other: Intent, key: Key, l4: Look, l6: Look, l8: Look,
                                           one: Snapshot, two: Snapshot, three: Snapshot)
    requires Pair(intent, other, key) && one.key == key && two.key == key && three.key == key
    requires PairFits(key, one, two, three, l4, l6, l8)
    ensures DrainWrites(PairRun(intent, other, key, one, two, three), PairLooks(l4, l6, l8), 30)
  {
    var run, looks := PairRun(intent, other, key, one, two, three), PairLooks(l4, l6, l8);
    PairRunIsFenced(intent, other, key, one, two, three);
    PairFirstLooked(intent, other, key, one, two, three, looks);
    PairSecondLooked(intent, other, key, one, two, three, looks);
    PairLastLooked(intent, other, key, one, two, three, looks);
    forall k: nat | Carries(run, k)
      ensures Looked(run, looks, k, 30)
    {
      PairRunWrites(intent, other, key, one, two, three, k);
    }
    forall k | 0 <= k < |run.events|
      ensures !run.events[k].BareSnapshot?
    {
      PairRunWrites(intent, other, key, one, two, three, k);
    }
  }

  lemma {:induction false} PairRunEvents(intent: Intent, other: Intent, key: Key, l4: Look, l6: Look, l8: Look,
                                         one: Snapshot, two: Snapshot, three: Snapshot)
    requires Pair(intent, other, key) && one.key == key && two.key == key && three.key == key
    requires DrainWrites(PairRun(intent, other, key, one, two, three), PairLooks(l4, l6, l8), 30)
    ensures var run, looks := PairRun(intent, other, key, one, two, three), PairLooks(l4, l6, l8);
            && Carries(run, 6) && EventAt(run, looks, 6, 30) == EventOf(false, l6)
            && Carries(run, 8) && EventAt(run, looks, 8, 30) == EventOf(true, l8)
  {
    PairRunWrites(intent, other, key, one, two, three, 6);
    PairRunWrites(intent, other, key, one, two, three, 8);
    PairRunRecords(intent, other, key, one, two, three);
  }

  lemma {:induction false} PairRunOrder(intent: Intent, other: Intent, key: Key, one: Snapshot, two: Snapshot,
                                        three: Snapshot)
    requires Pair(intent, other, key) && one.key == key && two.key == key && three.key == key
    ensures var run, j := PairRun(intent, other, key, one, two, three), JobOf(key);
            && Writes(run, 6, j) && Writes(run, 8, j) && Quiet(run, 7, 8, j) && Quiet(run, 9, 10, j)
            && Crash !in run.events && |run.states| == 11 && Stored(run, 10, j) == Some(three)
            && IngressOf(run.events[6].req.intent) != IngressOf(run.events[8].req.intent)
  {
    PairRunWrites(intent, other, key, one, two, three, 6);
    PairRunWrites(intent, other, key, one, two, three, 7);
    PairRunWrites(intent, other, key, one, two, three, 8);
    PairRunWrites(intent, other, key, one, two, three, 9);
  }

  lemma {:induction false} PairIsDirty(intent: Intent, other: Intent, key: Key, one: Snapshot, two: Snapshot,
                                       three: Snapshot, l4: Look, l6: Look, l8: Look)
    requires Pair(intent, other, key) && PairFits(key, one, two, three, l4, l6, l8)
    requires DrainWrites(PairRun(intent, other, key, one, two, three), PairLooks(l4, l6, l8), 30)
    requires l6.observed.Some? && !CleanObservation(l6.observed.value)
    requires l8.observed.Some? && CleanObservation(l8.observed.value)
    requires ChainCarry(Some(one), key).Some? && ChainCarry(Some(two), key) == None
    ensures var run, looks := PairRun(intent, other, key, one, two, three), PairLooks(l4, l6, l8);
            var kept := RunJob(HistoryOf(run, looks, 10, JobOf(key), 30), 30);
            kept.Some? && !kept.value.settled && Carries(run, 8) && !Continues(run, looks, 30, 8)
  {
    var run, looks := PairRun(intent, other, key, one, two, three), PairLooks(l4, l6, l8);
    PairRunEvents(intent, other, key, l4, l6, l8, one, two, three);
    PairRunOrder(intent, other, key, one, two, three);
    DirtyHistory(run, looks, 30, 6, 8, 10, JobOf(key), EventOf(false, l6).reading, EventOf(true, l8).reading);
    PairRunFiles(intent, other, key, one, two, three);
    OtherChain(run, looks, 30, 8);
  }

  lemma {:induction false} PairTakes(key: Key, clean: Observed, dirty: Observed)
    returns (one: Snapshot, two: Snapshot, three: Snapshot, l4: Look, l6: Look, l8: Look)
    requires CleanObservation(clean) && !CleanObservation(dirty)
    ensures PairFits(key, one, two, three, l4, l6, l8) && three.settled
    ensures l6.observed == Some(dirty) && l8.observed == Some(clean)
    ensures ChainCarry(Some(one), key).Some? && ChainCarry(Some(two), key) == None
  {
    l4, l6, l8 := LookAt(4, key, 0, clean), LookAt(6, key, 10, dirty), LookAt(6, key, 100, clean);
    one, two, three := CleanDirtyClean(false, l4, l6, l8, clean, dirty);
  }

  /** Nothing crashes; the write at 8 overlooks the one of the other record at 6, and the file says settled although the
      observation before the last was dirty. */
  lemma {:induction false} SecondRecordIsOverlooked(intent: Intent, other: Intent, key: Key, clean: Observed,
                                                    dirty: Observed) returns (run: Run, looks: map<nat, Look>)
    requires Pair(intent, other, key) && CleanObservation(clean) && !CleanObservation(dirty)
    ensures DrainWrites(run, looks, 30) && |run.states| == 11 && Crash !in run.events
    ensures Writes(run, 6, JobOf(key)) && Writes(run, 8, JobOf(key)) && !Continues(run, looks, 30, 8)
    ensures IngressOf(run.events[6].req.intent) != IngressOf(run.events[8].req.intent)
    ensures Stored(run, 10, JobOf(key)).Some? && Stored(run, 10, JobOf(key)).value.settled
    ensures var kept := RunJob(HistoryOf(run, looks, 10, JobOf(key), 30), 30); kept.Some? && !kept.value.settled
  {
    var one, two, three, l4, l6, l8 := PairTakes(key, clean, dirty);
    run, looks := PairRun(intent, other, key, one, two, three), PairLooks(l4, l6, l8);
    PairRunIsDrains(intent, other, key, l4, l6, l8, one, two, three);
    PairIsDirty(intent, other, key, one, two, three, l4, l6, l8);
    PairRunOrder(intent, other, key, one, two, three);
  }

  // ---------------------------------------------------------------- a snapshot that cannot be read back

  /** A clean observation, one with other clean facts, and one with those facts whose clock was read before. */
  lemma {:induction false} LateTakes(l1: Look, l2: Look, l3: Look, clean: Observed, other: Observed)
    returns (one: Snapshot, two: Snapshot, three: Snapshot)
    requires CleanObservation(clean) && CleanObservation(other) && l1.key == l2.key == l3.key
    requires l1.observed == Some(clean) && l2.observed == Some(other) == l3.observed
    requires l1.combined && l2.combined && l3.combined && l3.now < l2.now
    requires FactsOf(Built(l1.key, l1.now, clean)) != FactsOf(Built(l1.key, l1.now, other))
    ensures BuiltFrom(false, None, None, l1, 30) == Some(one)
    ensures BuiltFrom(true, Some(one), Some(one), l2, 30) == Some(two)
    ensures BuiltFrom(true, Some(two), Some(two), l3, 30) == Some(three)
    ensures one.key == l1.key && two.key == l1.key && three.key == l1.key
    ensures Accepted(one) && Accepted(two) && !Accepted(three)
  {
    one := Take(false, None, l1);
    TakeCases(false, None, l1);
    HealthyIsClean(l1.key, l1.now, clean);
    FactsHaveNoTime(l1.key, l1.now, l2.now, other);
    two := Take(true, Some(one), l2);
    TakeCases(true, Some(one), l2);
    HealthyIsClean(l1.key, l2.now, other);
    FactsHaveNoTime(l1.key, l2.now, l3.now, other);
    three := Take(true, Some(two), l3);
    TakeCases(true, Some(two), l3);
  }

  /** No clock runs backwards and every verdict is clean and mergeable, and still the snapshot under a PROMOTED record
      cannot be read back: the worker of the write at 6 read its clock at point 4, and the file after the write at 4,
      which crashed. */
  lemma {:induction false} LateReadIsRefused(intent: Intent, key: Key, clean: Observed, other: Observed, maxAge: nat,
                                             now: Time) returns (run: Run, looks: map<nat, Look>)
    requires Apt(intent, key) && CleanObservation(clean) && CleanObservation(other)
    requires CleanIsMergeable(clean) && CleanIsMergeable(other)
    requires FactsOf(Built(key, 0, clean)) != FactsOf(Built(key, 0, other))
    ensures DrainWrites(run, looks, 30) && ClockRuns(run, looks) && CleanLooksAreMergeable(looks)
    ensures PromotionsCarrySnapshots(run) && |run.states| == 9 && Intervenes(run, looks, 6, 4, JobOf(key))
    ensures IngressOf(intent) in IntentsAt(run, 8) && IntentsAt(run, 8)[IngressOf(intent)].state == Promoted
    ensures ReadJob(run.states[8].disk.snapshots, key, maxAge, now).status == Invalid
  {
    var l2, l4, l6 := LookAt(2, key, 0, clean), LookAt(4, key, 101, other), Look(4, 6, 6, key, 100, Some(other), true);
    var one, two, three := LateTakes(l2, l4, l6, clean, other);
    run, looks := CrashRun(intent, key, one, two, three), ThreeLooks(l2, l4, l6);
    CrashRunIsDrains(intent, key, one, two, three, l2, l4, l6);
    CrashRunClocks(intent, key, one, two, three, clean, other);
    CrashRunRecords(intent, key, one, two, three);
    CrashRunCarries(intent, key, one, two, three);
    CrashRunFiles(intent, key, one, two, three);
  }

  lemma {:induction false} CrashRunClocks(intent: Intent, key: Key, one: Snapshot, two: Snapshot, three: Snapshot,
                                          clean: Observed, other: Observed)
    requires one.key == key && two.key == key && three.key == key
    requires CleanIsMergeable(clean) && CleanIsMergeable(other)
    ensures var run := CrashRun(intent, key, one, two, three);
            var looks := ThreeLooks(LookAt(2, key, 0, clean), LookAt(4, key, 101, other),
                                    Look(4, 6, 6, key, 100, Some(other), true));
            && ClockRuns(run, looks) && CleanLooksAreMergeable(looks) && Intervenes(run, looks, 6, 4, JobOf(key))
  {
    CrashRunCrashes(intent, key, one, two, three);
  }

  lemma {:induction false} CrashRunCarries(intent: Intent, key: Key, one: Snapshot, two: Snapshot, three: Snapshot)
    requires Apt(intent, key) && one.key == key && two.key == key && three.key == key
    ensures PromotionsCarrySnapshots(CrashRun(intent, key, one, two, three))
  {
    CrashRunIsFenced(intent, key, one, two, three);
  }
}

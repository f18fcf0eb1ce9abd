/** What a stored snapshot says of the observation it was built from, and how soon its job is looked at again. */
module SnapshotFacts {
  import opened Wrappers
  import opened LifecycleModels
  import opened ReviewWatch
  import opened Settlement
  import opened SnapshotCarry

  // ---------------------------------------------------------------- what is in the way

  /** What each blocker stands for. */
  predicate Blocks(o: Observed, b: Blocker) {
    var fs, conflict := o.evaluation.findings, o.mergeStateDirty || o.mergeText == SaysConflicting;
    match b
    case RequiredCiFailed => CiNotSuccessful in fs
    case RequiredCiPending => CiPending in fs
    case MergeConflict => MergeConflictFound in fs || (NotMergeable in fs && conflict)
    case ReviewFindings =>
      || OtherFinding in fs || o.evaluation.requiredActions || o.evaluation.missingSlots
      || 0 < o.evaluation.unresolvedFindings || 0 < o.unaddressed
    case ObservationUnavailable =>
      !o.evaluation.reviewObserved || CiUnavailable in fs || (NotMergeable in fs && !conflict)
    case NoPrBlocker => false
    case UnknownBlocker => false
  }

  lemma {:induction false} MappedFinding(fs: seq<Finding>, conflict: bool, f: Finding)
    requires f in fs
    ensures BlockerFor(f, conflict) in Mapped(fs, conflict)
  {
    var i :| 0 <= i < |fs| && fs[i] == f;
    assert Mapped(fs, conflict)[i] == BlockerFor(f, conflict);
  }

  lemma {:induction false} MappedFrom(fs: seq<Finding>, conflict: bool, b: Blocker) returns (f: Finding)
    requires b in Mapped(fs, conflict)
    ensures f in fs && b == BlockerFor(f, conflict)
  {
    var i :| 0 <= i < |fs| && Mapped(fs, conflict)[i] == b;
    f := fs[i];
  }

  lemma {:induction false} BlocksWhen(o: Observed, b: Blocker)
    ensures b in AllBlockers(o) <==> b in Reasons(o) || b in OpenThreads(o)
  {
    UniqueKeepsEachOnce(Reasons(o));
    UniqueKeepsEachOnce(Unique(Reasons(o)) + OpenThreads(o));
  }

  lemma {:induction false} ReasonBlocks(o: Observed, b: Blocker)
    requires b in Reasons(o) || b in OpenThreads(o)
    ensures Blocks(o, b)
  {
    if b in Mapped(o.evaluation.findings, ConflictKnown(o)) {
      var f := MappedFrom(o.evaluation.findings, ConflictKnown(o), b);
    }
  }

  lemma {:induction false} BlockIsReason(o: Observed, b: Blocker)
    requires Blocks(o, b)
    ensures b in Reasons(o) || b in OpenThreads(o)
  {
    var fs, conflict := o.evaluation.findings, ConflictKnown(o);
    forall f | f in fs
      ensures BlockerFor(f, conflict) in Mapped(fs, conflict)
    {
      MappedFinding(fs, conflict, f);
    }
  }

  /** Which blockers a snapshot lists, once each, in terms of what was observed. */
  lemma {:induction false} BlockersExactlyWhen(o: Observed)
    ensures forall b :: b in AllBlockers(o) <==> Blocks(o, b)
    ensures forall i, j :: 0 <= i < j < |AllBlockers(o)| ==> AllBlockers(o)[i] != AllBlockers(o)[j]
  {
    forall b
      ensures b in AllBlockers(o) <==> Blocks(o, b)
    {
      BlocksWhen(o, b);
      if Blocks(o, b) {
        BlockIsReason(o, b);
      } else if b in AllBlockers(o) {
        ReasonBlocks(o, b);
        assert false;
      }
    }
    UniqueKeepsEachOnce(Unique(Reasons(o)) + OpenThreads(o));
  }

  lemma {:induction false} ActionOf(bs: seq<Blocker>, b: Blocker)
    requires b in bs
    ensures ActionFor(b) in Actions(bs)
  {
    var i :| 0 <= i < |bs| && bs[i] == b;
    assert Actions(bs)[i] == ActionFor(b);
  }

  lemma {:induction false} ActionFrom(bs: seq<Blocker>, a: NextAction) returns (b: Blocker)
    requires a in Actions(bs)
    ensures b in bs && a == ActionFor(b)
  {
    var i :| 0 <= i < |bs| && Actions(bs)[i] == a;
    b := bs[i];
  }

  lemma {:induction false} TellsWhen(o: Observed, a: NextAction)
    ensures a in AllActions(o) <==> a in Actions(Reasons(o)) || a in Actions(OpenThreads(o))
  {
    UniqueKeepsEachOnce(Actions(Reasons(o)));
    UniqueKeepsEachOnce(Unique(Actions(Reasons(o))) + Actions(OpenThreads(o)));
  }

  /** The remedy of each blocker. */
  predicate Remedies(a: NextAction, b: Blocker) {
    match b
    case RequiredCiFailed => a == FixCi
    case RequiredCiPending => a == WaitForCi
    case MergeConflict => a == ResolveConflict
    case ReviewFindings => a == AddressReview
    case ObservationUnavailable => a == RetryObservation
    case _ => false
  }

  lemma {:induction false} RemedyIsListed(o: Observed, a: NextAction, b: Blocker)
    requires b in AllBlockers(o) && Remedies(a, b)
    ensures a in AllActions(o)
  {
    BlocksWhen(o, b);
    TellsWhen(o, a);
    if b in Reasons(o) {
      ActionOf(Reasons(o), b);
    } else {
      ActionOf(OpenThreads(o), b);
    }
  }

  lemma {:induction false} ListedIsRemedy(o: Observed, a: NextAction) returns (b: Blocker)
    requires a in AllActions(o)
    ensures b in AllBlockers(o) && Remedies(a, b)
  {
    TellsWhen(o, a);
    if a in Actions(Reasons(o)) {
      b := ActionFrom(Reasons(o), a);
    } else {
      b := ActionFrom(OpenThreads(o), a);
    }
    BlocksWhen(o, b);
    BlockersExactlyWhen(o);
  }

  /** What a snapshot tells to do next: the remedy of each blocker it lists, and nothing else. */
  lemma {:induction false} ActionsExactlyWhen(o: Observed, a: NextAction)
    ensures a in AllActions(o) <==> exists b :: b in AllBlockers(o) && Remedies(a, b)
  {
    if a in AllActions(o) {
      var b := ListedIsRemedy(o, a);
    }
    if b :| b in AllBlockers(o) && Remedies(a, b) {
      RemedyIsListed(o, a, b);
    }
  }

  lemma {:induction false} FirstIsIn<T>(xs: seq<T>)
    ensures xs != [] ==> xs[0] in xs
  {
  }

  /** An observation is clean exactly when the evaluator says so, review was observed, and nothing blocks. */
  lemma {:induction false} CleanExactlyWhen(o: Observed)
    ensures CleanObservation(o) <==>
            o.evaluation.clean && o.evaluation.reviewObserved && forall b :: !Blocks(o, b)
  {
    BlockersExactlyWhen(o);
    if forall b :: !Blocks(o, b) {
      assert !Blocks(o, ReviewFindings);
      FirstIsIn(AllBlockers(o));
      forall a
        ensures a !in AllActions(o)
      {
        ActionsExactlyWhen(o, a);
      }
      FirstIsIn(AllActions(o));
    }
    if CleanObservation(o) {
      forall b
        ensures !Blocks(o, b)
      {
        assert b !in AllBlockers(o);
      }
    }
  }

  // ---------------------------------------------------------------- what a snapshot says

  /** The three states a snapshot reports, in terms of what was observed. */
  predicate Reports(s: Snapshot, o: Observed) {
    var fs, conflict := o.evaluation.findings, o.mergeStateDirty || o.mergeText == SaysConflicting;
    && (s.ci == CiState.Pending <==> CiPending in fs)
    && (s.ci == CiState.Failing <==> CiNotSuccessful in fs && CiPending !in fs)
    && (s.ci == CiState.Unavailable <==> CiUnavailable in fs && CiPending !in fs && CiNotSuccessful !in fs)
    && (s.ci == CiState.Passing <==> CiPending !in fs && CiNotSuccessful !in fs && CiUnavailable !in fs)
    && (s.mergeability == Mergeability.Conflicting <==> conflict)
    && (s.mergeability == Mergeability.Mergeable <==> !conflict && o.mergeText == SaysMergeable)
    && (s.mergeability == Mergeability.Unknown <==> !conflict && o.mergeText == SaysOther)
    && (s.review == ReviewState.ChangesRequested <==> o.evaluation.requiredActions)
    && (s.review == ReviewState.Pending <==> o.evaluation.missingSlots && !o.evaluation.requiredActions)
    && (s.review == ReviewState.Clean <==> !o.evaluation.missingSlots && !o.evaluation.requiredActions)
    && (s.health == Health.Partial <==> !o.evaluation.reviewObserved)
    && (s.health == Health.Healthy <==> CleanObservation(o))
    && (s.health == Health.Unhealthy <==> o.evaluation.reviewObserved && !CleanObservation(o))
  }

  /** Stabilization and the watch leave everything else as it was observed. */
  predicate Keeps(s: Snapshot, b: Snapshot) {
    && s.key == b.key && s.observedAt == b.observedAt && s.health == b.health && s.blockers == b.blockers
    && s.ci == b.ci && s.mergeability == b.mergeability && s.review == b.review
    && s.policyUnsettled == b.policyUnsettled && s.rawUnresolved == b.rawUnresolved
    && s.unaddressed == b.unaddressed && s.settlementKey == b.settlementKey
  }

  lemma {:induction false} TakenKeeps(promoted: bool, stored: Option<Snapshot>, key: Key, now: Time, o: Observed,
                                      interval: nat, combined: bool)
    ensures var s, b := TakeSnapshot(promoted, stored, key, now, o, interval, combined), Built(key, now, o);
            Keeps(s, b) && (!CleanObservation(o) ==> s == b.(watch := s.watch))
  {
  }

  lemma {:induction false} CleanNeedsReview(o: Observed)
    ensures CleanObservation(o) ==> o.evaluation.reviewObserved
  {
  }

  lemma {:induction false} BuiltReports(key: Key, now: Time, o: Observed)
    ensures Reports(Built(key, now, o), o)
  {
    HealthyIsClean(key, now, o);
    CleanNeedsReview(o);
  }

  lemma {:induction false} CleanActions(promoted: bool, stored: Option<Snapshot>, key: Key, now: Time, o: Observed,
                                        interval: nat, combined: bool)
    requires CleanObservation(o)
    ensures var s := TakeSnapshot(promoted, stored, key, now, o, interval, combined);
            s.nextActions == if s.settled then [] else [RetryObservation]
  {
    CleanBuilt(key, now, o);
  }

  lemma {:induction false} ActionsTell(promoted: bool, stored: Option<Snapshot>, key: Key, now: Time, o: Observed,
                                       interval: nat, combined: bool, a: NextAction)
    ensures var s := TakeSnapshot(promoted, stored, key, now, o, interval, combined);
            a in s.nextActions <==>
              if CleanObservation(o) then a == RetryObservation && !s.settled
              else exists b :: b in s.blockers && Remedies(a, b)
  {
    if CleanObservation(o) {
      CleanActions(promoted, stored, key, now, o, interval, combined);
    } else {
      TakenKeeps(promoted, stored, key, now, o, interval, combined);
      ActionsExactlyWhen(o, a);
    }
  }

  /** Whatever was stored before, a snapshot says of its observation what was seen and when, lists what blocks it, and
      asks for the remedies; or, of a clean one, for another look unless it is settled. */
  lemma {:induction false} SnapshotTells(promoted: bool, stored: Option<Snapshot>, key: Key, now: Time, o: Observed,
                                         interval: nat, combined: bool)
    ensures var s := TakeSnapshot(promoted, stored, key, now, o, interval, combined);
            && s.key == key && s.observedAt == now && Reports(s, o)
            && (forall b :: b in s.blockers <==> Blocks(o, b))
            && (forall a :: a in s.nextActions <==>
                  if CleanObservation(o) then a == RetryObservation && !s.settled
                  else exists b :: b in s.blockers && Remedies(a, b))
            && s.policyUnsettled == o.evaluation.unresolvedFindings && s.rawUnresolved == o.rawUnresolved
            && s.unaddressed == o.unaddressed && s.settlementKey == o.settlementKey
            && (!CleanObservation(o) ==> !s.settled && s.stableCount == 0 && s.stableFirstAt.None?)
  {
    var s := TakeSnapshot(promoted, stored, key, now, o, interval, combined);
    TakenKeeps(promoted, stored, key, now, o, interval, combined);
    BuiltReports(key, now, o);
    BlockersExactlyWhen(o);
    forall a
      ensures a in s.nextActions <==>
                if CleanObservation(o) then a == RetryObservation && !s.settled
                else exists b :: b in s.blockers && Remedies(a, b)
    {
      ActionsTell(promoted, stored, key, now, o, interval, combined, a);
    }
  }

  /** Which clean observations are of one chain: those of the same key, mergeability, raw thread count and settlement
      key. Anything else that is clean is the same anyway. */
  lemma {:induction false} CleanFactsAgreeExactlyWhen(k1: Key, t1: Time, o1: Observed, k2: Key, t2: Time, o2: Observed)
    requires CleanObservation(o1) && CleanObservation(o2)
    ensures SameFacts(Built(k1, t1, o1), Built(k2, t2, o2)) <==>
              && k1 == k2 && o1.rawUnresolved == o2.rawUnresolved && o1.settlementKey == o2.settlementKey
              && Built(k1, t1, o1).mergeability == Built(k2, t2, o2).mergeability
  {
    CleanBuilt(k1, t1, o1);
    CleanBuilt(k2, t2, o2);
  }

  /** A clean observation is never of one chain with one that is not. */
  lemma {:induction false} CleanDiffers(k1: Key, t1: Time, o1: Observed, k2: Key, t2: Time, o2: Observed)
    requires CleanObservation(o1) && !CleanObservation(o2)
    ensures !SameFacts(Built(k1, t1, o1), Built(k2, t2, o2))
  {
    HealthyIsClean(k1, t1, o1);
    HealthyIsClean(k2, t2, o2);
  }

  /** The first missed observation of a job stores that nothing is known of it, and asks for another look. */
  lemma {:induction false} FirstMissKnowsNothing(key: Key, now: Time, interval: nat)
    ensures var s := StepJob(None, Missed(key, now), interval).value;
            && s.key == key && s.observedAt == now && s.health == Health.Unavailable && s.ci == CiState.Unavailable
            && s.mergeability == Mergeability.Unavailable && s.review == ReviewState.Unavailable
            && s.blockers == [ObservationUnavailable] && s.nextActions == [RetryObservation]
            && !s.settled && s.watch.None? && Accepted(s)
  {
  }

  /** A later one changes nothing but the status of a watch, and that only to show a check that is overdue. */
  lemma {:induction false} LaterMissMarksDue(s: Snapshot, key: Key, now: Time, interval: nat)
    requires Accepted(s)
    ensures var overdue := s.watch.Some? && s.watch.value.status == Armed && s.watch.value.nextCheckAt <= now;
            StepJob(Some(s), Missed(key, now), interval)
            == Some(if overdue then s.(watch := Some(s.watch.value.(status := Due))) else s)
  {
  }

  // ---------------------------------------------------------------- how soon it is looked at again

  /** The watch's next check is at most eight hours after the given time. */
  predicate Near(w: Option<Watch>, at: Time) {
    w.Some? ==> w.value.nextCheckAt <= at + 28_800 * SECOND
  }

  ghost predicate Scheduled(w: Option<Watch>, at: Time) {
    w.Some? ==> exists good :: w.value.resetAt <= good <= at && Anchored(w.value, w.value.resetAt, good)
  }

  lemma {:induction false} ScheduledIsNear(w: Option<Watch>, at: Time)
    requires Scheduled(w, at)
    ensures Near(w, at)
  {
    if w.Some? {
      var good :| w.value.resetAt <= good <= at && Anchored(w.value, w.value.resetAt, good);
      NextCheckIsNear(w.value, w.value.resetAt, good);
    }
  }

  lemma {:induction false} StepIsScheduled(w: Option<Watch>, headSha: string, step: WatchStep, at: Time)
    requires Scheduled(w, at) && at <= step.now
    ensures Scheduled(StepFrom(w, headSha, step), step.now)
  {
    var r := StepFrom(w, headSha, step);
    if step.Outage? {
      if w.Some? {
        var good :| w.value.resetAt <= good <= at && Anchored(w.value, w.value.resetAt, good);
        assert Anchored(r.value, r.value.resetAt, good);
      }
    } else if Foreign(w, headSha) {
      if Green(step) {
        FirstGreenArms(w, headSha, step);
        assert Anchored(r.value, step.now, step.now);
      }
    } else {
      var good :| w.value.resetAt <= good <= at && Anchored(w.value, w.value.resetAt, good);
      if Quiet(step) {
        QuietStepAnchors(w.value, step, w.value.resetAt, good);
        assert Anchored(r.value, r.value.resetAt, if Good(step) then step.now else good);
      } else {
        FeedbackResets(w, step.now, headSha, step.actionable);
        assert Anchored(r.value, step.now, step.now);
      }
    }
  }

  /** In every history with an ordered clock, a job's watch calls for its next check within eight hours of the last
      event, so a settled job is looked at again by then. */
  lemma {:induction false} NextCheckIsSoon(events: seq<JobEvent>, interval: nat)
    requires ClockOrdered(events) && events != []
    ensures var stored := RunJob(events, interval);
            stored.Some? ==> Near(stored.value.watch, EventTime(events[|events| - 1]))
  {
    HistoryIsScheduled(events, interval);
    if RunJob(events, interval).Some? {
      ScheduledIsNear(RunJob(events, interval).value.watch, EventTime(events[|events| - 1]));
    }
  }

  lemma {:induction false} HistoryIsScheduled(events: seq<JobEvent>, interval: nat)
    requires ClockOrdered(events)
    ensures var stored := RunJob(events, interval);
            stored.Some? ==> events != [] && Scheduled(stored.value.watch, EventTime(events[|events| - 1]))
    decreases |events|
  {
    if |events| > 0 {
      var before, last := events[..|events| - 1], events[|events| - 1];
      var stored := RunJob(before, interval);
      HistoryIsScheduled(before, interval);
      if before != [] {
        assert before[|before| - 1] == events[|events| - 2];
      }
      EventIsScheduled(stored, last, interval,
                       if before == [] then EventTime(last) else EventTime(events[|events| - 2]));
    }
  }

  lemma {:induction false} RecordIsScheduled(read: Option<Snapshot>, r: Reading, interval: nat, at: Time)
    requires at <= r.now && (read.Some? ==> Scheduled(read.value.watch, at))
    ensures Scheduled(TakeSnapshot(r.promoted, read, r.key, r.now, r.observed, interval, r.combined).watch, r.now)
  {
    var previous := if r.promoted then read else None;
    var w := if previous.Some? then previous.value.watch else None;
    var step := Poll(r.now, CiOf(r.observed), true, r.observed.evaluation.unresolvedFindings + r.observed.unaddressed);
    StepIsScheduled(w, r.key.headSha, step, at);
    PromotedTakes(r.promoted, read, r.key, r.now, r.observed, interval, r.combined);
    WatchTaken(previous, r.key, r.now, r.observed, interval, r.combined);
  }

  lemma {:induction false} MissIsScheduled(read: Option<Snapshot>, key: Key, now: Time, at: Time)
    requires at <= now && (read.Some? ==> Scheduled(read.value.watch, at))
    ensures var s := UnavailableSnapshot(read, key, now); s.Some? ==> Scheduled(s.value.watch, now)
  {
    if read.Some? && read.value.watch.Some? {
      StepIsScheduled(read.value.watch, read.value.watch.value.headSha, Outage(now), at);
    }
  }

  lemma {:induction false} ScheduledStays(w: Option<Watch>, at: Time, now: Time)
    requires Scheduled(w, at) && at <= now
    ensures Scheduled(w, now)
  {
  }

  lemma {:induction false} EventIsScheduled(stored: Option<Snapshot>, e: JobEvent, interval: nat, at: Time)
    requires at <= EventTime(e) && (stored.Some? ==> Scheduled(stored.value.watch, at))
    ensures var s := StepJob(stored, e, interval); s.Some? ==> Scheduled(s.value.watch, EventTime(e))
  {
    match e
    case Recorded(r) => RecordIsScheduled(ReadBack(stored), r, interval, at);
    case Missed(key, now) =>
      MissIsScheduled(ReadBack(stored), key, now, at);
      if stored.Some? {
        ScheduledStays(stored.value.watch, at, now);
      }
  }

  lemma {:induction false} PromotedTakes(promoted: bool, read: Option<Snapshot>, key: Key, now: Time, o: Observed,
                                         interval: nat, combined: bool)
    ensures TakeSnapshot(promoted, read, key, now, o, interval, combined)
         == TakeSnapshot(true, if promoted then read else None, key, now, o, interval, combined)
  {
  }
}

/** How the workflow turns observations of one job into stored snapshots: blocker projection,
    the two-observation settlement window, and acceptance of what was stored on read-back. */
module Settlement {
  import opened Wrappers
  import opened LifecycleModels
  import opened ReviewWatch

  // ---------------------------------------------------------------- observations

  /** The blocker names of a finalization observation; every other name is OtherFinding. */
  datatype Finding = CiNotSuccessful | CiUnavailable | CiPending | MergeConflictFound | NotMergeable | OtherFinding

  datatype Evaluation = Evaluation(
    clean: bool, reviewObserved: bool, findings: seq<Finding>, requiredActions: bool, missingSlots: bool,
    unresolvedFindings: nat)

  datatype MergeText = SaysMergeable | SaysConflicting | SaysOther

  datatype Observed = Observed(
    evaluation: Evaluation, mergeStateDirty: bool, mergeText: MergeText, rawUnresolved: nat, unaddressed: nat,
    settlementKey: string)

  predicate ConflictKnown(o: Observed) {
    o.mergeStateDirty || o.mergeText == SaysConflicting
  }

  // ---------------------------------------------------------------- blockers and next actions

  /** list(dict.fromkeys(values)) */
  function Unique<T(==)>(values: seq<T>): seq<T>
    decreases |values|
  {
    if values == [] then []
    else
      var front, last := values[..|values| - 1], values[|values| - 1];
      if last in front then Unique(front) else Unique(front) + [last]
  }

  lemma {:induction false} UniqueKeepsEachOnce<T(!new)>(values: seq<T>)
    ensures forall x :: x in Unique(values) <==> x in values
    ensures forall i, j :: 0 <= i < j < |Unique(values)| ==> Unique(values)[i] != Unique(values)[j]
    decreases |values|
  {
    if values != [] {
      var front, last := values[..|values| - 1], values[|values| - 1];
      UniqueKeepsEachOnce(front);
      assert values == front + [last];
    }
  }

  function BlockerFor(f: Finding, conflictKnown: bool): Blocker {
    match f
    case CiNotSuccessful => RequiredCiFailed
    case CiUnavailable => ObservationUnavailable
    case CiPending => RequiredCiPending
    case MergeConflictFound => MergeConflict
    case NotMergeable => if conflictKnown then MergeConflict else ObservationUnavailable
    case OtherFinding => ReviewFindings
  }

  function ActionFor(b: Blocker): NextAction {
    match b
    case RequiredCiFailed => FixCi
    case ObservationUnavailable => RetryObservation
    case RequiredCiPending => WaitForCi
    case MergeConflict => ResolveConflict
    case ReviewFindings => AddressReview
    case _ => NoAction
  }

  /** Every reason to block, in the order the projection meets them. */
  function Reasons(o: Observed): seq<Blocker> {
    var e := o.evaluation;
    (if e.reviewObserved then [] else [ObservationUnavailable])
    + Mapped(e.findings, ConflictKnown(o))
    + (if e.requiredActions || e.missingSlots then [ReviewFindings] else [])
  }

  function Actions(blockers: seq<Blocker>): seq<NextAction> {
    seq(|blockers|, i requires 0 <= i < |blockers| => ActionFor(blockers[i]))
  }

  function AllBlockers(o: Observed): seq<Blocker> {
    Unique(Unique(Reasons(o)) + OpenThreads(o))
  }

  function AllActions(o: Observed): seq<NextAction> {
    Unique(Unique(Actions(Reasons(o))) + Actions(OpenThreads(o)))
  }

  function OpenThreads(o: Observed): seq<Blocker> {
    if o.evaluation.unresolvedFindings > 0 || o.unaddressed > 0 then [ReviewFindings] else []
  }

  lemma {:induction false} ActionsAppend(bs: seq<Blocker>, b: Blocker)
    ensures Actions(bs + [b]) == Actions(bs) + [ActionFor(b)]
  {
  }

  function Mapped(findings: seq<Finding>, conflictKnown: bool): seq<Blocker> {
    seq(|findings|, i requires 0 <= i < |findings| => BlockerFor(findings[i], conflictKnown))
  }

  /** _project_blockers, before duplicates are dropped. */
  method ProjectBlockers(o: Observed) returns (blockers: seq<Blocker>, actions: seq<NextAction>)
    ensures blockers == Reasons(o) && actions == Actions(Reasons(o))
  {
    var e := o.evaluation;
    blockers, actions := [], [];
    if !e.reviewObserved {
      blockers, actions := [ObservationUnavailable], [RetryObservation];
    }
    ghost var head := blockers;
    for i := 0 to |e.findings|
      invariant blockers == head + Mapped(e.findings, ConflictKnown(o))[..i]
      invariant actions == Actions(blockers)
    {
      var b, a;
      match e.findings[i] {
        case CiNotSuccessful => b, a := RequiredCiFailed, FixCi;
        case CiUnavailable => b, a := ObservationUnavailable, RetryObservation;
        case CiPending => b, a := RequiredCiPending, WaitForCi;
        case MergeConflictFound => b, a := MergeConflict, ResolveConflict;
        case NotMergeable =>
          if ConflictKnown(o) {
            b, a := MergeConflict, ResolveConflict;
          } else {
            b, a := ObservationUnavailable, RetryObservation;
          }
        case OtherFinding => b, a := ReviewFindings, AddressReview;
      }
      ActionsAppend(blockers, b);
      assert Mapped(e.findings, ConflictKnown(o))[i] == b;
      blockers, actions := blockers + [b], actions + [a];
    }
    if e.requiredActions || e.missingSlots {
      ActionsAppend(blockers, ReviewFindings);
      blockers, actions := blockers + [ReviewFindings], actions + [AddressReview];
    }
    assert blockers == Reasons(o);
  }

  method SnapshotBlockers(o: Observed) returns (blockers: seq<Blocker>, actions: seq<NextAction>)
    ensures blockers == AllBlockers(o) && actions == AllActions(o)
  {
    blockers, actions := ProjectBlockers(o);
    blockers, actions := Unique(blockers), Unique(actions);
    assert Actions([ReviewFindings]) == [AddressReview];
    assert blockers + [] == blockers && actions + [] == actions;
    if o.evaluation.unresolvedFindings > 0 || o.unaddressed > 0 {
      blockers, actions := blockers + [ReviewFindings], actions + [AddressReview];
    }
    blockers, actions := Unique(blockers), Unique(actions);
  }

  function CiOf(o: Observed): CiState {
    if CiPending in o.evaluation.findings then CiState.Pending
    else if CiNotSuccessful in o.evaluation.findings then CiState.Failing
    else if CiUnavailable in o.evaluation.findings then CiState.Unavailable
    else CiState.Passing
  }

  function MergeabilityOf(o: Observed): Mergeability {
    if ConflictKnown(o) then Mergeability.Conflicting
    else if o.mergeText == SaysMergeable then Mergeability.Mergeable
    else Mergeability.Unknown
  }

  function ReviewOf(o: Observed): ReviewState {
    if o.evaluation.requiredActions then ReviewState.ChangesRequested
    else if o.evaluation.missingSlots then ReviewState.Pending
    else ReviewState.Clean
  }

  predicate CleanObservation(o: Observed) {
    && o.evaluation.clean && o.evaluation.reviewObserved
    && AllBlockers(o) == [] && AllActions(o) == []
    && o.evaluation.unresolvedFindings == 0 && o.unaddressed == 0
  }

  lemma {:induction false} NothingFromNothing<T>(values: seq<T>)
    requires |Unique(values)| == 0
    ensures |values| == 0
    decreases |values|
  {
    if |values| > 0 && values[|values| - 1] in values[..|values| - 1] {
      NothingFromNothing(values[..|values| - 1]);
    }
  }

  /** A clean observation leaves nothing to wait for: required CI passes and review is clean. */
  lemma {:induction false} CleanMeansGreen(o: Observed)
    requires CleanObservation(o)
    ensures CiOf(o) == CiState.Passing && ReviewOf(o) == ReviewState.Clean && o.evaluation.findings == []
  {
    NothingFromNothing(Unique(Reasons(o)) + OpenThreads(o));
    NothingFromNothing(Reasons(o));
    assert |o.evaluation.findings| <= |Reasons(o)|;
  }

  // ---------------------------------------------------------------- building one snapshot

  function Built(key: Key, now: Time, o: Observed): Snapshot {
    Snapshot(
      key, now,
      if !o.evaluation.reviewObserved then Health.Partial
      else if CleanObservation(o) then Health.Healthy else Health.Unhealthy,
      AllBlockers(o), AllActions(o), CiOf(o), MergeabilityOf(o), ReviewOf(o),
      o.evaluation.unresolvedFindings, o.rawUnresolved, o.unaddressed, None, o.settlementKey,
      0, None, None, false)
  }

  function WithoutRetry(actions: seq<NextAction>): seq<NextAction>
    decreases |actions|
  {
    if actions == [] then []
    else (if actions[0] == RetryObservation then [] else [actions[0]]) + WithoutRetry(actions[1..])
  }

  /** What _same_snapshot_facts compares. */
  datatype Facts = Facts(
    key: Key, health: Health, blockers: seq<Blocker>, actions: seq<NextAction>, ci: CiState,
    mergeability: Mergeability, review: ReviewState, policyUnsettled: nat, rawUnresolved: nat, unaddressed: nat,
    settlementKey: string)

  function FactsOf(s: Snapshot): Facts {
    Facts(s.key, s.health, s.blockers, WithoutRetry(s.nextActions), s.ci, s.mergeability, s.review,
          s.policyUnsettled, s.rawUnresolved, s.unaddressed, s.settlementKey)
  }

  predicate SameFacts(a: Snapshot, b: Snapshot) {
    FactsOf(a) == FactsOf(b)
  }

  function StabilizationPending(s: Snapshot, now: Time, firstAt: Time): Snapshot {
    s.(nextActions := [RetryObservation], stableCount := 1, stableFirstAt := Some(firstAt),
       stableLastAt := Some(now), settled := false)
  }

  /** _stabilize_clean; `combined` is the verdict of combine_clean_observations. */
  function StabilizeClean(previous: Option<Snapshot>, current: Snapshot, now: Time, interval: nat,
                          combined: bool): Snapshot
  {
    if previous.None? || !SameFacts(previous.value, current) then StabilizationPending(current, now, now)
    else
      var firstAt := if previous.value.stableFirstAt.Some? then previous.value.stableFirstAt.value
                     else previous.value.observedAt;
      if now - firstAt < interval then StabilizationPending(current, now, firstAt)
      else if previous.value.settlementKey != current.settlementKey then StabilizationPending(current, now, now)
      else if !combined then StabilizationPending(current, now, firstAt)
      else
        current.(stableCount := if previous.value.stableCount + 1 >= 2 then previous.value.stableCount + 1 else 2,
                 stableFirstAt := Some(firstAt), stableLastAt := Some(now), settled := true)
  }

  /** _snapshot: what one observation stores, given what was stored for the job before. A record that
      is not promoted (any reactivation) sees no previous snapshot. */
  function TakeSnapshot(promoted: bool, stored: Option<Snapshot>, key: Key, now: Time, o: Observed,
                        interval: nat, combined: bool): Snapshot
  {
    var previous := if promoted then stored else None;
    var built := Built(key, now, o);
    var watch := Advance(
      if previous.Some? then previous.value.watch else None, now, key.headSha, built.ci,
      built.health != Health.Unknown && built.health != Health.Unavailable,
      built.policyUnsettled + built.unaddressed);
    var current := built.(watch := watch);
    if CleanObservation(o) then StabilizeClean(previous, current, now, interval, combined) else current
  }

  /** _head_drift_snapshot */
  function HeadDrift(key: Key, now: Time): Snapshot {
    Snapshot(key, now, Health.Unavailable, [ObservationUnavailable], [RetryObservation], CiState.Unavailable,
             Mergeability.Unavailable, ReviewState.Unavailable, 0, 0, 0, None, "", 0, None, None, false)
  }

  /** What _persist_unavailable writes for a job: None when it leaves the stored snapshot alone. */
  function UnavailableSnapshot(stored: Option<Snapshot>, key: Key, now: Time): Option<Snapshot> {
    if stored.None? then Some(HeadDrift(key, now))
    else
      var due := MarkDue(stored.value.watch, now);
      if due.None? then None else Some(stored.value.(watch := due))
  }

  /** A settled snapshot always carries an armed watch whose next check lies ahead. */
  lemma {:induction false} SettledIsWatched(promoted: bool, stored: Option<Snapshot>, key: Key, now: Time, o: Observed,
                         interval: nat, combined: bool)
    ensures var s := TakeSnapshot(promoted, stored, key, now, o, interval, combined);
            s.settled ==> s.watch.Some? && s.watch.value.status == Armed && now < s.watch.value.nextCheckAt
  {
    if CleanObservation(o) {
      CleanMeansGreen(o);
    }
  }

  // ---------------------------------------------------------------- the history of one job

  datatype Reading = Reading(key: Key, now: Time, promoted: bool, observed: Observed, combined: bool)

  /** A job's snapshot changes when an observation is recorded or when one could not be made. */
  datatype JobEvent = Recorded(reading: Reading) | Missed(key: Key, now: Time)

  function EventTime(e: JobEvent): Time {
    match e case Recorded(r) => r.now case Missed(_, now) => now
  }

  /** What reading the job's snapshot file gives: a snapshot its validator refuses is no snapshot. */
  function ReadBack(stored: Option<Snapshot>): Option<Snapshot> {
    if stored.Some? && Accepted(stored.value) then stored else None
  }

  function StepJob(stored: Option<Snapshot>, e: JobEvent, interval: nat): Option<Snapshot> {
    match e
    case Recorded(r) =>
      Some(TakeSnapshot(r.promoted, ReadBack(stored), r.key, r.now, r.observed, interval, r.combined))
    case Missed(key, now) =>
      var written := UnavailableSnapshot(ReadBack(stored), key, now);
      if written.Some? then written else stored
  }

  function RunJob(events: seq<JobEvent>, interval: nat): Option<Snapshot>
    decreases |events|
  {
    if |events| == 0 then None
    else StepJob(RunJob(events[..|events| - 1], interval), events[|events| - 1], interval)
  }

  /** What matters of a recorded observation for settlement. */
  datatype Mark = Mark(now: Time, promoted: bool, facts: Facts, clean: bool, combined: bool)

  function MarkOf(r: Reading): Mark {
    Mark(r.now, r.promoted, FactsOf(Built(r.key, r.now, r.observed)), CleanObservation(r.observed), r.combined)
  }

  /** The recorded observations, oldest first. */
  function Marks(events: seq<JobEvent>): seq<Mark>
    decreases |events|
  {
    if |events| == 0 then []
    else
      var before, last := Marks(events[..|events| - 1]), events[|events| - 1];
      if last.Recorded? then before + [MarkOf(last.reading)] else before
  }

  /** Where the current chain began: the run of promoted observations with equal facts, each of which could
      read back what the one before it stored. */
  function ChainStart(ms: seq<Mark>, interval: nat): (i: nat)
    requires ms != []
    ensures i < |ms|
    decreases |ms|, 0
  {
    var n := |ms| - 1;
    if n == 0 || !ms[n].promoted || ms[n - 1].facts != ms[n].facts || !Readable(ms[..n], interval) then n
    else ChainStart(ms[..n], interval)
  }

  /** The last observation is clean and combinable, and ends a chain that began earlier, at least the
      interval ago. */
  predicate Window(ms: seq<Mark>, interval: nat)
    requires ms != []
    decreases |ms|, 1
  {
    var last := ms[|ms| - 1];
    && last.clean && last.combined
    && ChainStart(ms, interval) < |ms| - 1 && last.now - ms[ChainStart(ms, interval)].now >= interval
  }

  /** What the last observation stored passes the validator: its clock did not run backwards over the chain,
      and it did not settle a pull request that is not mergeable. */
  predicate Readable(ms: seq<Mark>, interval: nat)
    requires ms != []
    decreases |ms|, 2
  {
    var last := ms[|ms| - 1];
    last.clean ==>
      && ms[ChainStart(ms, interval)].now <= last.now
      && (Window(ms, interval) ==> last.facts.mergeability == Mergeability.Mergeable)
  }

  lemma {:induction false} ChainIsUnbroken(ms: seq<Mark>, m: nat, interval: nat)
    requires ms != [] && ChainStart(ms, interval) <= m < |ms|
    ensures ms[m].facts == ms[|ms| - 1].facts
    ensures ChainStart(ms, interval) < m ==> ms[m].promoted
    decreases |ms|
  {
    var n := |ms| - 1;
    if m < n {
      ChainIsUnbroken(ms[..n], m, interval);
    }
  }

  /** A store that was lost: unreadable, and replaced by the first missed observation after it. */
  predicate Lost(stored: Snapshot) {
    stored.health == Health.Unavailable && !stored.settled && stored.stableFirstAt == None && Accepted(stored)
  }

  /** What the stored snapshot says of the observations recorded so far; `justRecorded` when the last event
      recorded one. */
  ghost predicate Tells(stored: Option<Snapshot>, ms: seq<Mark>, interval: nat, justRecorded: bool) {
    if ms == [] then stored.Some? ==> Lost(stored.value)
    else if !justRecorded && !Readable(ms, interval) then stored.Some? && Lost(stored.value)
    else stored.Some? && TellsLast(stored.value, ms, interval)
  }

  ghost predicate TellsLast(s: Snapshot, ms: seq<Mark>, interval: nat)
    requires ms != []
  {
    var last := ms[|ms| - 1];
    && FactsOf(s) == last.facts && (last.clean <==> last.facts.health == Health.Healthy)
    && (s.settled <==> Window(ms, interval))
    && (if last.clean then
          && s.stableFirstAt == Some(ms[ChainStart(ms, interval)].now) && s.stableLastAt == Some(last.now)
        else s.stableFirstAt == None)
    && (Accepted(s) <==> Readable(ms, interval))
  }

  lemma {:induction false} StabilizeCases(previous: Option<Snapshot>, current: Snapshot, now: Time, interval: nat,
                                          combined: bool)
    requires current.nextActions == []
    requires previous.Some? && SameFacts(previous.value, current) ==> previous.value.stableFirstAt.Some?
    ensures var s := StabilizeClean(previous, current, now, interval, combined);
            && SameFacts(s, current) && s.stableLastAt == Some(now) && s.watch == current.watch
            && (if previous.Some? && SameFacts(previous.value, current) then
                  && s.stableFirstAt == previous.value.stableFirstAt
                  && (s.settled <==> combined && now - previous.value.stableFirstAt.value >= interval)
                else s.stableFirstAt == Some(now) && !s.settled)
            && (s.settled ==> s.stableCount >= 2 && s.nextActions == [])
            && (!s.settled ==> s.stableCount == 1)
  {
    assert WithoutRetry([RetryObservation]) == WithoutRetry([]);
  }

  lemma {:induction false} CleanBuilt(key: Key, now: Time, o: Observed)
    requires CleanObservation(o)
    ensures var b := Built(key, now, o);
            && b.nextActions == [] && b.blockers == [] && b.health == Health.Healthy
            && b.ci == CiState.Passing && b.review == ReviewState.Clean
            && b.policyUnsettled == 0 && b.unaddressed == 0
  {
    CleanMeansGreen(o);
  }

  /** Only a clean observation is healthy, so facts equal to a clean one's are a clean one's. */
  lemma {:induction false} HealthyIsClean(key: Key, now: Time, o: Observed)
    ensures Built(key, now, o).health == Health.Healthy <==> CleanObservation(o)
  {
  }

  /** What a clean observation stores besides its facts. */
  predicate Qualifies(f: Facts) {
    && f.health == Health.Healthy && f.ci == CiState.Passing && f.review == ReviewState.Clean && f.blockers == []
    && f.policyUnsettled == 0 && f.unaddressed == 0
  }

  /** What one recorded observation stores, in terms of what it read back. */
  ghost predicate Taken(s: Snapshot, m: Mark, read: Option<Snapshot>, interval: nat) {
    && FactsOf(s) == m.facts && (m.clean <==> m.facts.health == Health.Healthy)
    && (!m.clean ==> !s.settled && s.stableFirstAt == None)
    && (m.clean ==>
          && Qualifies(m.facts) && s.stableLastAt == Some(m.now)
          && (if m.promoted && read.Some? && FactsOf(read.value) == m.facts then
                && s.stableFirstAt == read.value.stableFirstAt
                && read.value.stableFirstAt.Some?
                && (s.settled <==> m.combined && m.now - read.value.stableFirstAt.value >= interval)
              else s.stableFirstAt == Some(m.now) && !s.settled)
          && (s.settled ==> s.stableCount >= 2 && s.nextActions == [])
          && (!s.settled ==> s.stableCount == 1))
  }

  lemma {:induction false} TakenCases(read: Option<Snapshot>, r: Reading, interval: nat)
    requires read.Some? && FactsOf(read.value) == MarkOf(r).facts && MarkOf(r).facts.health == Health.Healthy ==>
               read.value.stableFirstAt.Some?
    ensures Taken(TakeSnapshot(r.promoted, read, r.key, r.now, r.observed, interval, r.combined), MarkOf(r),
                  read, interval)
  {
    HealthyIsClean(r.key, r.now, r.observed);
    if CleanObservation(r.observed) {
      CleanBuilt(r.key, r.now, r.observed);
      var s := TakeSnapshot(r.promoted, read, r.key, r.now, r.observed, interval, r.combined);
      var current := Built(r.key, r.now, r.observed).(watch := s.watch);
      StabilizeCases(if r.promoted then read else None, current, r.now, interval, r.combined);
    }
  }

  lemma {:induction false} RecordTells(stored: Option<Snapshot>, s: Snapshot, ms: seq<Mark>, m: Mark, interval: nat,
                                       justRecorded: bool)
    requires Tells(stored, ms, interval, justRecorded) && Taken(s, m, ReadBack(stored), interval)
    ensures TellsLast(s, ms + [m], interval)
  {
    var ms' := ms + [m];
    assert ms'[..|ms|] == ms;
    if ms != [] {
      assert ms'[|ms| - 1] == ms[|ms| - 1];
      assert ms'[ChainStart(ms, interval)] == ms[ChainStart(ms, interval)];
    }
  }

  lemma {:induction false} MissTells(stored: Option<Snapshot>, ms: seq<Mark>, interval: nat, justRecorded: bool,
                                     key: Key, now: Time)
    requires Tells(stored, ms, interval, justRecorded)
    ensures Tells(StepJob(stored, Missed(key, now), interval), ms, interval, false)
  {
  }

  lemma {:induction false} HistoryTells(events: seq<JobEvent>, interval: nat)
    ensures Tells(RunJob(events, interval), Marks(events), interval, events != [] && events[|events| - 1].Recorded?)
    decreases |events|
  {
    if |events| > 0 {
      var before, last := events[..|events| - 1], events[|events| - 1];
      var stored, justRecorded := RunJob(before, interval), before != [] && before[|before| - 1].Recorded?;
      HistoryTells(before, interval);
      if last.Recorded? {
        var r := last.reading;
        TakenCases(ReadBack(stored), r, interval);
        RecordTells(stored, TakeSnapshot(r.promoted, ReadBack(stored), r.key, r.now, r.observed, interval, r.combined),
                    Marks(before), MarkOf(r), interval, justRecorded);
      } else {
        MissTells(stored, Marks(before), interval, justRecorded, last.key, last.now);
      }
    }
  }

  /** Settlement is exactly the closing of a window, over every history: right after a recorded observation the
      stored snapshot is settled if and only if the window closes with it, and it stays so through missed
      observations exactly while it can be read back. */
  lemma {:induction false} SettledExactlyAtWindow(events: seq<JobEvent>, interval: nat)
    ensures var stored, ms := RunJob(events, interval), Marks(events);
            ms != [] ==>
              && stored.Some?
              && (stored.value.settled <==>
                    Window(ms, interval) && (events[|events| - 1].Recorded? || Readable(ms, interval)))
  {
    HistoryTells(events, interval);
    assert Marks(events) != [] ==> events != [];
  }

  /** The chain behind a settled snapshot, spelled out: at least two recorded observations, every one
      clean, with equal facts (the settlement key among them), unbroken by a reactivation, spanning the
      interval. */
  lemma {:induction false} SettledHasChain(events: seq<JobEvent>, interval: nat) returns (start: nat)
    ensures var stored, ms := RunJob(events, interval), Marks(events);
            stored.Some? && stored.value.settled ==>
              && start + 2 <= |ms|
              && ms[|ms| - 1].now - ms[start].now >= interval
              && (forall m :: start <= m < |ms| ==> ms[m].clean && ms[m].facts == ms[|ms| - 1].facts)
              && (forall m :: start < m < |ms| ==> ms[m].promoted)
              && stored.value.stableFirstAt == Some(ms[start].now)
  {
    HistoryTells(events, interval);
    var stored, ms := RunJob(events, interval), Marks(events);
    start := 0;
    if stored.Some? && stored.value.settled {
      start := ChainStart(ms, interval);
      forall m | start <= m < |ms|
        ensures ms[m].facts == ms[|ms| - 1].facts && ms[m].clean && (start < m ==> ms[m].promoted)
      {
        ChainIsUnbroken(ms, m, interval);
        CleanByFacts(events, m);
      }
    }
  }

  lemma {:induction false} CleanByFacts(events: seq<JobEvent>, m: nat)
    requires m < |Marks(events)|
    ensures Marks(events)[m].clean <==> Marks(events)[m].facts.health == Health.Healthy
    decreases |events|
  {
    var before, last := events[..|events| - 1], events[|events| - 1];
    if m < |Marks(before)| {
      CleanByFacts(before, m);
    } else {
      HealthyIsClean(last.reading.key, last.reading.now, last.reading.observed);
    }
  }

  /** A differing recorded fact, a reactivated intent or an unreadable store restarts the chain. */
  lemma {:induction false} ChainRestarts(events: seq<JobEvent>, r: Reading, interval: nat)
    requires var ms := Marks(events);
             ms != [] && (!r.promoted || ms[|ms| - 1].facts != MarkOf(r).facts || !Readable(ms, interval))
    ensures var s := StepJob(RunJob(events, interval), Recorded(r), interval).value;
            && !s.settled
            && (MarkOf(r).clean ==> s.stableFirstAt == Some(r.now) && s.stableCount == 1)
  {
    HistoryTells(events, interval);
    TakenCases(ReadBack(RunJob(events, interval)), r, interval);
  }

  // ---------------------------------------------------------------- ordered clocks

  ghost predicate ClockOrdered(events: seq<JobEvent>) {
    forall i, j :: 0 <= i < j < |events| ==> EventTime(events[i]) <= EventTime(events[j])
  }

  /** What the finalization evaluator promises of a clean verdict. */
  predicate CleanIsMergeable(o: Observed) {
    o.evaluation.clean ==> o.mergeText == SaysMergeable && !o.mergeStateDirty
  }

  /** The two assumptions under which nothing stored is ever refused. */
  ghost predicate Orderly(events: seq<JobEvent>) {
    && ClockOrdered(events)
    && forall i :: 0 <= i < |events| && events[i].Recorded? ==> CleanIsMergeable(events[i].reading.observed)
  }

  ghost predicate OrderlyMarks(ms: seq<Mark>) {
    && (forall i, j :: 0 <= i < j < |ms| ==> ms[i].now <= ms[j].now)
    && forall i :: 0 <= i < |ms| && ms[i].clean ==> ms[i].facts.mergeability == Mergeability.Mergeable
  }

  lemma {:induction false} MarksAreOrderly(events: seq<JobEvent>)
    requires Orderly(events)
    ensures OrderlyMarks(Marks(events))
    ensures forall i :: 0 <= i < |Marks(events)| ==> Marks(events)[i].now <= EventTime(events[|events| - 1])
    decreases |events|
  {
    if |events| > 0 {
      var before := events[..|events| - 1];
      MarksAreOrderly(before);
      if before != [] {
        assert before[|before| - 1] == events[|events| - 2];
      }
    }
  }

  /** Where the run of promoted observations with equal facts began. */
  function UnbrokenFrom(ms: seq<Mark>): (i: nat)
    requires ms != []
    ensures i < |ms|
    decreases |ms|
  {
    var n := |ms| - 1;
    if n == 0 || !ms[n].promoted || ms[n - 1].facts != ms[n].facts then n else UnbrokenFrom(ms[..n])
  }

  predicate ClosesInterval(ms: seq<Mark>, interval: nat)
    requires ms != []
  {
    var last := ms[|ms| - 1];
    && last.clean && last.combined
    && UnbrokenFrom(ms) < |ms| - 1 && last.now - ms[UnbrokenFrom(ms)].now >= interval
  }

  lemma {:induction false} OrderlyIsReadable(ms: seq<Mark>, interval: nat)
    requires ms != [] && OrderlyMarks(ms)
    ensures Readable(ms, interval) && ChainStart(ms, interval) == UnbrokenFrom(ms)
    decreases |ms|
  {
    var n := |ms| - 1;
    if n > 0 {
      OrderlyIsReadable(ms[..n], interval);
    }
  }

  /** With a nondecreasing clock and clean verdicts that imply mergeability, every snapshot the workflow stores,
      although built by unvalidated copies, passes the validator when it is read back; and it is settled exactly
      when the last recorded observation is clean and combinable and ends an unbroken run of equal promoted
      observations that began earlier, at least the interval ago. */
  lemma {:induction false} StoredSnapshotsAreAccepted(events: seq<JobEvent>, interval: nat)
    requires Orderly(events)
    ensures var stored, ms := RunJob(events, interval), Marks(events);
            && (stored.Some? ==> Accepted(stored.value))
            && (ms != [] ==> stored.Some? && (stored.value.settled <==> ClosesInterval(ms, interval)))
  {
    HistoryTells(events, interval);
    MarksAreOrderly(events);
    if Marks(events) != [] {
      OrderlyIsReadable(Marks(events), interval);
    }
  }

  lemma {:induction false} ThreeMarks(events: seq<JobEvent>, a: Reading, b: Reading, c: Reading)
    requires events == [Recorded(a), Recorded(b), Recorded(c)]
    ensures Marks(events) == [MarkOf(a), MarkOf(b), MarkOf(c)]
  {
    OneMark([], a);
    OneMark([Recorded(a)], b);
    OneMark([Recorded(a), Recorded(b)], c);
    assert [] + [Recorded(a)] == [Recorded(a)];
    assert [Recorded(a)] + [Recorded(b)] == [Recorded(a), Recorded(b)];
    assert [Recorded(a), Recorded(b)] + [Recorded(c)] == events;
  }

  lemma {:induction false} BackwardMarks(a: Mark, b: Mark, c: Mark)
    requires a.clean && b.clean && c.clean && c.combined && b.promoted && c.promoted
    requires a.facts == b.facts == c.facts && b.now < a.now && c.now >= a.now + 30
    ensures ClosesInterval([a, b, c], 30) && !Window([a, b, c], 30)
  {
    var ms := [a, b, c];
    assert ms[..2] == [a, b] && [a, b][..1] == [a];
    assert UnbrokenFrom([a]) == 0 && UnbrokenFrom([a, b]) == 0;
    assert ChainStart([a, b], 30) <= 1;
    assert Readable([a], 30) ==> ChainStart([a, b], 30) == 0;
    assert Readable([a], 30);
    assert !Readable([a, b], 30);
  }

  /** A backward clock is enough to restart a chain: the second observation stores a snapshot the third cannot
      read, so the third does not settle although the unbroken run spans the interval. */
  lemma {:induction false} BackwardClockRestarts(key: Key) returns (events: seq<JobEvent>)
    ensures Marks(events) != [] && ClosesInterval(Marks(events), 30)
    ensures RunJob(events, 30).Some? && !RunJob(events, 30).value.settled
  {
    var o := Observed(Evaluation(true, true, [], false, false, 0), false, SaysMergeable, 0, 0, "evidence");
    var a, b, c := Reading(key, 100, false, o, true), Reading(key, 50, true, o, true), Reading(key, 200, true, o, true);
    events := [Recorded(a), Recorded(b), Recorded(c)];
    NothingBlocks(o);
    ThreeMarks(events, a, b, c);
    BackwardMarks(MarkOf(a), MarkOf(b), MarkOf(c));
    SettledExactlyAtWindow(events, 30);
  }

  lemma {:induction false} UnmergeableMarks(a: Mark, b: Mark, c: Mark)
    requires a.clean && b.clean && c.clean && b.combined && c.combined && b.promoted && c.promoted
    requires a.facts == b.facts == c.facts && a.now + 30 <= b.now <= c.now
    requires a.facts.mergeability != Mergeability.Mergeable
    ensures ClosesInterval([a, b, c], 30) && !Window([a, b, c], 30)
  {
    var ms := [a, b, c];
    assert ms[..2] == [a, b] && [a, b][..1] == [a];
    assert UnbrokenFrom([a]) == 0 && UnbrokenFrom([a, b]) == 0;
    assert Readable([a], 30);
    assert ChainStart([a, b], 30) == 0;
    assert Window([a, b], 30);
    assert !Readable([a, b], 30);
  }

  /** So is a clean verdict on a pull request that is not mergeable: the second observation settles with a snapshot the
      third cannot read. */
  lemma {:induction false} UnmergeableRestarts(key: Key) returns (events: seq<JobEvent>)
    ensures Marks(events) != [] && ClockOrdered(events) && ClosesInterval(Marks(events), 30)
    ensures RunJob(events, 30).Some? && !RunJob(events, 30).value.settled
  {
    var o := Observed(Evaluation(true, true, [], false, false, 0), false, SaysOther, 0, 0, "evidence");
    var a, b, c := Reading(key, 0, false, o, true), Reading(key, 50, true, o, true), Reading(key, 100, true, o, true);
    events := [Recorded(a), Recorded(b), Recorded(c)];
    NothingBlocks(o);
    ThreeMarks(events, a, b, c);
    UnmergeableMarks(MarkOf(a), MarkOf(b), MarkOf(c));
    SettledExactlyAtWindow(events, 30);
  }

  lemma {:induction false} OneMark(events: seq<JobEvent>, r: Reading)
    ensures Marks(events + [Recorded(r)]) == Marks(events) + [MarkOf(r)]
  {
    assert (events + [Recorded(r)])[..|events|] == events;
  }

  lemma {:induction false} NothingBlocks(o: Observed)
    requires o.evaluation == Evaluation(true, true, [], false, false, 0) && o.unaddressed == 0
    ensures CleanObservation(o)
  {
    assert Reasons(o) == [] && OpenThreads(o) == [];
  }

  /** A settled snapshot in the store keeps its watch, through any number of missed observations. */
  lemma {:induction false} SettledStaysWatched(events: seq<JobEvent>, interval: nat)
    ensures var stored := RunJob(events, interval);
            stored.Some? && stored.value.settled ==> stored.value.watch.Some?
    decreases |events|
  {
    if |events| > 0 {
      var before, last := events[..|events| - 1], events[|events| - 1];
      SettledStaysWatched(before, interval);
      if last.Recorded? {
        var r := last.reading;
        SettledIsWatched(r.promoted, ReadBack(RunJob(before, interval)), r.key, r.now, r.observed, interval,
                         r.combined);
      }
    }
  }
}

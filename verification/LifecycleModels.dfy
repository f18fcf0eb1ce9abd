/** The value types of src/agentic_pr_dash/lifecycle_models.py.

    Times are whole microseconds since the epoch. An identity digest is an injective function
    of its tuple, so the tuple itself stands for the digest. */
module LifecycleModels {
  import opened Wrappers

  type Time = int
  type Pos = n: int | 0 < n witness 1

  const SECOND: int := 1_000_000

  /** Case folding of an owner/name identity, which is ASCII. */
  function Casefold(s: string): string {
    seq(|s|, i requires 0 <= i < |s| => if 'A' <= s[i] <= 'Z' then (s[i] as int + 32) as char else s[i])
  }

  // ---------------------------------------------------------------- identities

  datatype Intent = Intent(
    repository: string, pushedRef: string, headSha: string, workflowType: string, reason: string,
    worktreePath: string, sessionId: string, requestedAt: Time, prNumber: Option<Pos>)

  datatype Key = Key(repository: string, prNumber: Pos, headSha: string, workflowType: string)

  /** What ingress_identity_hash digests: it names the intent file. */
  datatype IngressId = IngressId(repository: string, pushedRef: string, headSha: string, workflowType: string)

  /** What canonical_job_hash digests: it names the snapshot file. */
  datatype JobId = JobId(repository: string, prNumber: Pos, headSha: string, workflowType: string)

  function IngressOf(i: Intent): IngressId {
    IngressId(Casefold(i.repository), i.pushedRef, i.headSha, i.workflowType)
  }

  function JobOf(k: Key): JobId {
    JobId(Casefold(k.repository), k.prNumber, k.headSha, k.workflowType)
  }

  predicate SameJob(left: Key, right: Key) {
    && Casefold(left.repository) == Casefold(right.repository)
    && left.prNumber == right.prNumber
    && left.headSha == right.headSha
    && left.workflowType == right.workflowType
  }

  predicate SameIngressKey(i: Intent, k: Key) {
    && Casefold(i.repository) == Casefold(k.repository)
    && i.headSha == k.headSha
    && i.workflowType == k.workflowType
  }

  predicate SameIngressIdentity(left: Intent, right: Intent) {
    && Casefold(left.repository) == Casefold(right.repository)
    && left.pushedRef == right.pushedRef
    && left.headSha == right.headSha
    && left.workflowType == right.workflowType
  }

  // ---------------------------------------------------------------- records

  datatype LifecycleState = Pending | NoPr | Promoted | Settled

  datatype Record = Record(
    ingressId: IngressId, intent: Intent, state: LifecycleState, generation: Pos, revision: Pos,
    canonicalKey: Option<Key>, nextAttemptAt: Option<Time>)

  // ---------------------------------------------------------------- snapshots

  datatype Health = Healthy | Unhealthy | Partial | Unknown | Unavailable
  datatype Blocker = RequiredCiFailed | RequiredCiPending | MergeConflict | ReviewFindings
                   | ObservationUnavailable | NoPrBlocker | UnknownBlocker
  datatype NextAction = WaitForCi | FixCi | AddressReview | ResolveConflict | RetryObservation | CreatePr | NoAction
  datatype CiState = Passing | Pending | Failing | Unknown | Unavailable | NotRequired
  datatype Mergeability = Mergeable | Conflicting | Unknown | Unavailable
  datatype ReviewState = Clean | ChangesRequested | Pending | Unknown | Unavailable
  datatype WatchStatus = Armed | Due | Paused

  datatype Watch = Watch(
    status: WatchStatus, headSha: string, resetAt: Time, lastObservedAt: Option<Time>, nextCheckAt: Time,
    intervalIndex: nat, unresolvedThreads: nat, resetReason: string)

  datatype Snapshot = Snapshot(
    key: Key, observedAt: Time, health: Health, blockers: seq<Blocker>, nextActions: seq<NextAction>,
    ci: CiState, mergeability: Mergeability, review: ReviewState, policyUnsettled: nat, rawUnresolved: nat,
    unaddressed: nat, watch: Option<Watch>, settlementKey: string, stableCount: nat,
    stableFirstAt: Option<Time>, stableLastAt: Option<Time>, settled: bool)

  /** The model validator a stored snapshot meets again whenever it is read back. */
  predicate Accepted(s: Snapshot) {
    && (s.stableFirstAt.Some? && s.stableLastAt.Some? ==> s.stableFirstAt.value <= s.stableLastAt.value)
    && (s.settled ==>
          && s.health == Health.Healthy
          && s.ci == CiState.Passing
          && s.mergeability == Mergeability.Mergeable
          && s.review == ReviewState.Clean
          && s.blockers == [] && s.nextActions == []
          && s.policyUnsettled == 0 && s.unaddressed == 0
          && s.stableCount >= 2
          && s.stableFirstAt.Some? && s.stableLastAt.Some?)
  }
}

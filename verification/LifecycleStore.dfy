/** The durable intent and snapshot store of src/agentic_pr_dash/lifecycle_store.py.

    A map of files per directory stands for the disk. Each locked operation validates the record it
    finds, checks the version it was given, replaces the snapshot file if it carries one, and then
    replaces the record file. */
module LifecycleStore {
  import opened Wrappers
  import opened LifecycleModels

  datatype Error = StaleVersion | NotEnqueued | KeyMismatch | SnapshotMismatch | PrMismatch
                 | PromotedToNoPr | InvalidRecord | VersionWithoutIntent

  /** The generation and the revision a caller expects, each optional. */
  datatype Version = Version(generation: Option<Pos>, revision: Option<Pos>)

  datatype Disk = Disk(intents: map<IngressId, Record>, snapshots: map<JobId, Snapshot>)

  function Lookup(intents: map<IngressId, Record>, id: IngressId): Option<Record> {
    if id in intents then Some(intents[id]) else None
  }

  /** _require_version, as the condition under which it does not raise. */
  predicate VersionHolds(record: Option<Record>, expected: Version) {
    && (expected.generation.Some? ==> record.Some? && record.value.generation == expected.generation.value)
    && (expected.revision.Some? ==> record.Some? && record.value.revision == expected.revision.value)
  }

  /** The identity checks of _load_validated_intent. */
  predicate Untampered(intent: Intent, record: Record) {
    && record.ingressId == IngressOf(intent)
    && record.ingressId == IngressOf(record.intent)
    && SameIngressIdentity(intent, record.intent)
  }

  // ---------------------------------------------------------------- the record each operation leaves

  function InitialState(intent: Intent): LifecycleState {
    if intent.prNumber.None? then LifecycleState.NoPr else LifecycleState.Pending
  }

  function EnqueuedRecord(existing: Option<Record>, intent: Intent): Record {
    if existing.None? then
      Record(IngressOf(intent), intent, InitialState(intent), 1, 1, None, None)
    else
      var r := existing.value;
      if r.state == Settled || (r.state == LifecycleState.NoPr && intent.prNumber.Some?) then
        Record(r.ingressId, intent, InitialState(intent), r.generation + 1, r.revision + 1, None, None)
      else
        r.(intent := r.intent.(worktreePath := intent.worktreePath, sessionId := intent.sessionId,
                               requestedAt := intent.requestedAt),
           revision := r.revision + 1)
  }

  function LinkedRecord(r: Record, key: Key, state: LifecycleState, next: Option<Time>): Record {
    Record(r.ingressId, r.intent.(prNumber := Some(key.prNumber)), state, r.generation, r.revision + 1, Some(key), next)
  }

  function UnlinkedRecord(existing: Option<Record>, intent: Intent, next: Option<Time>): Record {
    var data := if existing.Some? then existing.value.intent else intent;
    Record(
      if existing.Some? then existing.value.ingressId else IngressOf(intent),
      data.(prNumber := None), LifecycleState.NoPr,
      if existing.Some? then existing.value.generation else 1,
      if existing.Some? then existing.value.revision + 1 else 1, None, next)
  }

  // ---------------------------------------------------------------- requests and their plans

  datatype Request =
    | Enqueue(intent: Intent)
    | Promote(intent: Intent, key: Key, next: Option<Time>, expected: Version, snapshot: Option<Snapshot>)
    | MarkNoPr(intent: Intent, next: Option<Time>, expected: Version)
    | ScheduleRetry(intent: Intent, nextAt: Time, expected: Version, snapshot: Option<Snapshot>)
    | Settle(intent: Intent, key: Key, expected: Version, snapshot: Option<Snapshot>)
    | WriteSnapshot(intent: Intent, written: Snapshot, expected: Version)

  /** The file replacements of one admitted request: a snapshot first, when there is one. */
  datatype Plan = Plan(snapshot: Option<Snapshot>, id: IngressId, record: Record)

  function PlanFor(disk: Disk, req: Request): Result<Plan, Error> {
    var id := IngressOf(req.intent);
    var found := Lookup(disk.intents, id);
    if (req.Promote? || req.Settle?) && !SameIngressKey(req.intent, req.key) then Err(KeyMismatch)
    else if (req.Promote? || req.Settle?) && req.snapshot.Some? && !SameJob(req.snapshot.value.key, req.key) then
      Err(SnapshotMismatch)
    else if found.Some? && !Untampered(req.intent, found.value) then Err(InvalidRecord)
    else if !req.Enqueue? && !VersionHolds(found, req.expected) then Err(StaleVersion)
    else
      match req
      case Enqueue(intent) => Ok(Plan(None, id, EnqueuedRecord(found, intent)))
      case Promote(_, key, next, _, snapshot) =>
        if found.None? then Err(NotEnqueued)
        else if found.value.intent.prNumber.Some? && found.value.intent.prNumber.value != key.prNumber then
          Err(PrMismatch)
        else Ok(Plan(snapshot, id, LinkedRecord(found.value, key, Promoted, next)))
      case MarkNoPr(intent, next, _) =>
        if found.Some? && found.value.state == Promoted then Err(PromotedToNoPr)
        else Ok(Plan(None, id, UnlinkedRecord(found, intent, next)))
      case ScheduleRetry(_, nextAt, _, snapshot) =>
        if found.None? then Err(NotEnqueued)
        else if snapshot.Some? && !SameIngressKey(found.value.intent, snapshot.value.key) then Err(SnapshotMismatch)
        else
          Ok(Plan(snapshot, id, found.value.(nextAttemptAt := Some(nextAt), revision := found.value.revision + 1)))
      case Settle(_, key, _, snapshot) =>
        if found.None? then Err(NotEnqueued)
        else if found.value.intent.prNumber.Some? && found.value.intent.prNumber.value != key.prNumber then
          Err(PrMismatch)
        else Ok(Plan(snapshot, id, LinkedRecord(found.value, key, Settled, None)))
      case WriteSnapshot(_, written, _) =>
        if found.None? then Err(NotEnqueued)
        else if !SameIngressKey(found.value.intent, written.key) then Err(SnapshotMismatch)
        else Ok(Plan(Some(written), id, found.value.(revision := found.value.revision + 1)))
  }

  function AfterSnapshot(disk: Disk, plan: Plan): Disk {
    if plan.snapshot.None? then disk
    else disk.(snapshots := disk.snapshots[JobOf(plan.snapshot.value.key) := plan.snapshot.value])
  }

  function AfterRecord(disk: Disk, plan: Plan): Disk {
    disk.(intents := disk.intents[plan.id := plan.record])
  }

  function Commit(disk: Disk, plan: Plan): Disk {
    AfterRecord(AfterSnapshot(disk, plan), plan)
  }

  /** Both files of one transaction; nothing changes unless the request was admitted. */
  predicate Performed(before: Disk, req: Request, after: Disk, r: Result<Record, Error>) {
    match PlanFor(before, req)
    case Ok(plan) => after == Commit(before, plan) && r == Ok(plan.record)
    case Err(error) => after == before && r == Err(error)
  }

  // ---------------------------------------------------------------- reading

  datatype Target =
    | Exact(key: Key)
    | Unresolved(repository: string, pushedRef: string, headSha: string, workflowType: string)

  datatype ReadStatus = Fresh | Stale | Missing | Invalid
  datatype ReadResult = ReadResult(status: ReadStatus, snapshot: Option<Snapshot>)

  function LookupIntent(t: Target): Intent
    requires t.Unresolved?
  {
    Intent(t.repository, t.pushedRef, t.headSha, t.workflowType, "lookup", "lookup", "lookup", 0, None)
  }

  /** _valid_promoted_record and _promoted_key: the job an unresolved target is linked to. */
  function PromotedKey(intents: map<IngressId, Record>, t: Target): Option<Key>
    requires t.Unresolved?
  {
    var requested := LookupIntent(t);
    var found := Lookup(intents, IngressOf(requested));
    if found.None? then None
    else
      var r := found.value;
      if && (r.state == Promoted || r.state == Settled) && r.canonicalKey.Some?
         && r.ingressId == IngressOf(r.intent) && r.ingressId == IngressOf(requested)
         && SameIngressIdentity(requested, r.intent)
         && r.intent.prNumber == Some(r.canonicalKey.value.prNumber)
         && SameIngressKey(requested, r.canonicalKey.value)
      then r.canonicalKey else None
  }

  function TargetKey(intents: map<IngressId, Record>, t: Target): Option<Key> {
    if t.Exact? then Some(t.key) else PromotedKey(intents, t)
  }

  /** _freshness */
  function Freshness(s: Snapshot, maxAge: nat, now: Time): ReadResult {
    var age := if now < s.observedAt then 0 else now - s.observedAt;
    var owned := s.watch.Some? && s.watch.value.status == Armed && now < s.watch.value.nextCheckAt;
    ReadResult(if age <= maxAge || owned then Fresh else Stale, Some(s))
  }

  function ReadJob(snapshots: map<JobId, Snapshot>, key: Key, maxAge: nat, now: Time): ReadResult {
    if JobOf(key) !in snapshots then ReadResult(Missing, None)
    else
      var s := snapshots[JobOf(key)];
      if !Accepted(s) then ReadResult(Invalid, None)
      else if !SameJob(s.key, key) then ReadResult(Missing, None)
      else Freshness(s, maxAge, now)
  }

  /** At most the given age, or owned by an armed watch whose next check is ahead. */
  predicate Within(s: Snapshot, maxAge: nat, now: Time) {
    now - s.observedAt <= maxAge || (s.watch.Some? && s.watch.value.status == Armed && now < s.watch.value.nextCheckAt)
  }

  /** For each stored snapshot and age limit there is one last moment at which a reader finds it fresh: its age limit,
      or the moment before the next check of its armed watch if that is later. From then on it is stale for good. */
  lemma {:induction false} FreshUntil(snapshots: map<JobId, Snapshot>, key: Key, maxAge: nat, now: Time)
    requires JobOf(key) in snapshots && Accepted(snapshots[JobOf(key)]) && SameJob(snapshots[JobOf(key)].key, key)
    ensures var s := snapshots[JobOf(key)];
            var aged := s.observedAt + maxAge;
            var last := if s.watch.Some? && s.watch.value.status == Armed && aged < s.watch.value.nextCheckAt then
                          s.watch.value.nextCheckAt - 1
                        else aged;
            ReadJob(snapshots, key, maxAge, now) == ReadResult(if now <= last then Fresh else Stale, Some(s))
  {
  }

  // ---------------------------------------------------------------- the store itself

  class LifecycleStore {
    var intents: map<IngressId, Record>
    var snapshots: map<JobId, Snapshot>

    function Contents(): Disk
      reads this
    {
      Disk(intents, snapshots)
    }

    constructor ()
      ensures Contents() == Disk(map[], map[])
    {
      intents, snapshots := map[], map[];
    }

    method LoadValidated(intent: Intent) returns (r: Result<Option<Record>, Error>)
      ensures var found := Lookup(intents, IngressOf(intent));
              r == if found.Some? && !Untampered(intent, found.value) then Err(InvalidRecord) else Ok(found)
    {
      if IngressOf(intent) !in intents {
        return Ok(None);
      }
      var record := intents[IngressOf(intent)];
      if || record.ingressId != IngressOf(intent)
         || record.ingressId != IngressOf(record.intent)
         || !SameIngressIdentity(intent, record.intent)
      {
        return Err(InvalidRecord);
      }
      r := Ok(Some(record));
    }

    method Enqueue(intent: Intent) returns (r: Result<Record, Error>)
      modifies this
      ensures Performed(old(Contents()), Request.Enqueue(intent), Contents(), r)
    {
      var loaded := LoadValidated(intent);
      if loaded.Err? {
        return Err(loaded.error);
      }
      var record: Record;
      if loaded.value.None? {
        var state := if intent.prNumber.None? then LifecycleState.NoPr else LifecycleState.Pending;
        record := Record(IngressOf(intent), intent, state, 1, 1, None, None);
      } else {
        var existing := loaded.value.value;
        if existing.state == Settled || (existing.state == LifecycleState.NoPr && intent.prNumber.Some?) {
          var state := if intent.prNumber.None? then LifecycleState.NoPr else LifecycleState.Pending;
          record := Record(existing.ingressId, intent, state, existing.generation + 1, existing.revision + 1,
                           None, None);
        } else {
          var refreshed := existing.intent.(worktreePath := intent.worktreePath, sessionId := intent.sessionId,
                                            requestedAt := intent.requestedAt);
          record := existing.(intent := refreshed, revision := existing.revision + 1);
        }
      }
      intents := intents[IngressOf(intent) := record];
      r := Ok(record);
    }

    method PromoteIntent(intent: Intent, key: Key, next: Option<Time>, expected: Version, snapshot: Option<Snapshot>)
      returns (r: Result<Record, Error>)
      modifies this
      ensures Performed(old(Contents()), Promote(intent, key, next, expected, snapshot), Contents(), r)
    {
      if !SameIngressKey(intent, key) {
        return Err(KeyMismatch);
      }
      if snapshot.Some? && !SameJob(snapshot.value.key, key) {
        return Err(SnapshotMismatch);
      }
      var loaded := LoadValidated(intent);
      if loaded.Err? {
        return Err(loaded.error);
      }
      if !VersionHolds(loaded.value, expected) {
        return Err(StaleVersion);
      }
      if loaded.value.None? {
        return Err(NotEnqueued);
      }
      var record := loaded.value.value;
      if record.intent.prNumber.Some? && record.intent.prNumber.value != key.prNumber {
        return Err(PrMismatch);
      }
      record := Record(record.ingressId, record.intent.(prNumber := Some(key.prNumber)), Promoted,
                       record.generation, record.revision + 1, Some(key), next);
      if snapshot.Some? {
        snapshots := snapshots[JobOf(snapshot.value.key) := snapshot.value];
      }
      intents := intents[IngressOf(intent) := record];
      r := Ok(record);
    }

    method MarkNoPr(intent: Intent, next: Option<Time>, expected: Version) returns (r: Result<Record, Error>)
      modifies this
      ensures Performed(old(Contents()), Request.MarkNoPr(intent, next, expected), Contents(), r)
    {
      var loaded := LoadValidated(intent);
      if loaded.Err? {
        return Err(loaded.error);
      }
      if !VersionHolds(loaded.value, expected) {
        return Err(StaleVersion);
      }
      if loaded.value.Some? && loaded.value.value.state == Promoted {
        return Err(PromotedToNoPr);
      }
      var record: Record;
      if loaded.value.Some? {
        var existing := loaded.value.value;
        record := Record(existing.ingressId, existing.intent.(prNumber := None), LifecycleState.NoPr,
                         existing.generation, existing.revision + 1, None, next);
      } else {
        record := Record(IngressOf(intent), intent.(prNumber := None), LifecycleState.NoPr, 1, 1, None, next);
      }
      intents := intents[IngressOf(intent) := record];
      r := Ok(record);
    }

    method ScheduleRetry(intent: Intent, nextAt: Time, expected: Version, snapshot: Option<Snapshot>)
      returns (r: Result<Record, Error>)
      modifies this
      ensures Performed(old(Contents()), Request.ScheduleRetry(intent, nextAt, expected, snapshot), Contents(), r)
    {
      var loaded := LoadValidated(intent);
      if loaded.Err? {
        return Err(loaded.error);
      }
      if !VersionHolds(loaded.value, expected) {
        return Err(StaleVersion);
      }
      if loaded.value.None? {
        return Err(NotEnqueued);
      }
      var existing := loaded.value.value;
      if snapshot.Some? && !SameIngressKey(existing.intent, snapshot.value.key) {
        return Err(SnapshotMismatch);
      }
      var record := existing.(nextAttemptAt := Some(nextAt), revision := existing.revision + 1);
      if snapshot.Some? {
        snapshots := snapshots[JobOf(snapshot.value.key) := snapshot.value];
      }
      intents := intents[IngressOf(intent) := record];
      r := Ok(record);
    }

    method SettleIntent(intent: Intent, key: Key, expected: Version, snapshot: Option<Snapshot>)
      returns (r: Result<Record, Error>)
      modifies this
      ensures Performed(old(Contents()), Settle(intent, key, expected, snapshot), Contents(), r)
    {
      if !SameIngressKey(intent, key) {
        return Err(KeyMismatch);
      }
      if snapshot.Some? && !SameJob(snapshot.value.key, key) {
        return Err(SnapshotMismatch);
      }
      var loaded := LoadValidated(intent);
      if loaded.Err? {
        return Err(loaded.error);
      }
      if !VersionHolds(loaded.value, expected) {
        return Err(StaleVersion);
      }
      if loaded.value.None? {
        return Err(NotEnqueued);
      }
      var existing := loaded.value.value;
      if existing.intent.prNumber.Some? && existing.intent.prNumber.value != key.prNumber {
        return Err(PrMismatch);
      }
      var record := Record(existing.ingressId, existing.intent.(prNumber := Some(key.prNumber)), Settled,
                           existing.generation, existing.revision + 1, Some(key), None);
      if snapshot.Some? {
        snapshots := snapshots[JobOf(snapshot.value.key) := snapshot.value];
      }
      intents := intents[IngressOf(intent) := record];
      r := Ok(record);
    }

    /** write_snapshot: without an expected version it replaces the snapshot file and takes no lock. */
    method WriteSnapshot(snapshot: Snapshot, intent: Option<Intent>, expected: Version)
      returns (r: Result<Option<Record>, Error>)
      modifies this
      ensures expected == Version(None, None) ==>
                r == Ok(None)
                && Contents() == old(Contents()).(snapshots := old(snapshots)[JobOf(snapshot.key) := snapshot])
      ensures expected != Version(None, None) && intent.None? ==>
                r == Err(VersionWithoutIntent) && Contents() == old(Contents())
      ensures expected != Version(None, None) && intent.Some? ==>
                Performed(old(Contents()), Request.WriteSnapshot(intent.value, snapshot, expected), Contents(),
                          if r.Err? then Err(r.error) else if r.value.Some? then Ok(r.value.value)
                          else Err(InvalidRecord))
                && (r.Ok? ==> r.value.Some?)
    {
      if expected.generation.None? && expected.revision.None? {
        snapshots := snapshots[JobOf(snapshot.key) := snapshot];
        return Ok(None);
      }
      if intent.None? {
        return Err(VersionWithoutIntent);
      }
      var loaded := LoadValidated(intent.value);
      if loaded.Err? {
        return Err(loaded.error);
      }
      if !VersionHolds(loaded.value, expected) {
        return Err(StaleVersion);
      }
      if loaded.value.None? {
        return Err(NotEnqueued);
      }
      var record := loaded.value.value;
      if !SameIngressKey(record.intent, snapshot.key) {
        return Err(SnapshotMismatch);
      }
      var updated := record.(revision := record.revision + 1);
      snapshots := snapshots[JobOf(snapshot.key) := snapshot];
      intents := intents[IngressOf(record.intent) := updated];
      r := Ok(Some(updated));
    }

    method ReadSnapshot(target: Target, maxAge: nat, now: Time) returns (r: ReadResult)
      ensures var key := TargetKey(intents, target);
              r == if key.None? then ReadResult(Missing, None) else ReadJob(snapshots, key.value, maxAge, now)
      ensures r.snapshot.Some? <==> r.status == Fresh || r.status == Stale
      ensures r.snapshot.Some? ==> r.status == if Within(r.snapshot.value, maxAge, now) then Fresh else Stale
    {
      var expected: Option<Key> := if target.Exact? then Some(target.key) else PromotedKey(intents, target);
      if expected.None? {
        return ReadResult(Missing, None);
      }
      var job := JobOf(expected.value);
      if job !in snapshots {
        return ReadResult(Missing, None);
      }
      var snapshot := snapshots[job];
      if !Accepted(snapshot) {
        return ReadResult(Invalid, None);
      }
      if !SameJob(snapshot.key, expected.value) {
        return ReadResult(Missing, None);
      }
      r := Freshness(snapshot, maxAge, now);
    }
  }
}

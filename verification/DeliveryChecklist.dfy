/** The ten-item completion projection of src/agentic_pr_dash/delivery_checklist.py, and the validators its
    results meet. The wording of authorities and summaries is not modelled. */
module DeliveryChecklist {
  import opened Wrappers
  import opened LifecycleModels
  import Settlement
  import SnapshotFacts

  datatype ItemId =
    | TaskCriteria | Implementation | CodeQuality | TaskValidation | ExactHeadPushed
    | PullRequestOpen | RequiredCi | Mergeability | ReviewSettlement | DiscussionSettlement

  datatype ItemState = Required | Satisfied | Blocked | Unknown

  /** What an incomplete item asks for; local evidence brings its own words. */
  datatype Step =
    | RestoreLocalEvidence | RefreshForSameHead | WaitForObservation | RetryRemote
    | AwaitCi | RepairCi | ResolveMergeConflict
    | ArmMonitoring | WaitForStabilization | AddressFindings | RetryReview | ObtainReview | AnswerThreads
    | Given(text: string)

  datatype Item = Item(id: ItemId, state: ItemState, next: seq<Step>)
  datatype Evidence = Evidence(repository: string, headSha: string, observedAt: Time, items: seq<Item>)
  datatype Checklist = Checklist(key: Option<Key>, observedAt: Time, items: seq<Item>, complete: bool)

  const LOCAL: seq<ItemId> := [TaskCriteria, Implementation, CodeQuality, TaskValidation, ExactHeadPushed]
  const REMOTE: seq<ItemId> := [PullRequestOpen, RequiredCi, Mergeability, ReviewSettlement, DiscussionSettlement]

  function Ids(items: seq<Item>): seq<ItemId> {
    seq(|items|, i requires 0 <= i < |items| => items[i].id)
  }

  predicate AllSatisfied(items: seq<Item>) {
    forall i :: 0 <= i < |items| ==> items[i].state == Satisfied
  }

  // ---------------------------------------------------------------- validators

  /** DeliveryChecklistItemV1: an incomplete item names a next action. */
  predicate ValidItem(item: Item) {
    item.state != Satisfied ==> item.next != []
  }

  predicate ValidItems(items: seq<Item>) {
    forall i :: 0 <= i < |items| ==> ValidItem(items[i])
  }

  /** LocalDeliveryEvidenceV1 */
  predicate ValidEvidence(e: Evidence) {
    Ids(e.items) == LOCAL && ValidItems(e.items)
  }

  /** DeliveryChecklistV1 */
  predicate ValidChecklist(c: Checklist) {
    && Ids(c.items) == LOCAL + REMOTE
    && (c.complete ==> AllSatisfied(c.items) && c.key.Some?)
    && (AllSatisfied(c.items) ==> c.complete)
  }

  // ---------------------------------------------------------------- items

  function UnknownItems(ids: seq<ItemId>, next: Step): seq<Item> {
    seq(|ids|, i requires 0 <= i < |ids| => Item(ids[i], ItemState.Unknown, [next]))
  }

  function CiItem(s: Snapshot): Item {
    var state :=
      if RequiredCiFailed in s.blockers then Blocked
      else match s.ci
        case Passing => Satisfied
        case NotRequired => Satisfied
        case Pending => Required
        case Failing => Blocked
        case Unknown => ItemState.Unknown
        case Unavailable => ItemState.Unknown;
    Item(RequiredCi, state,
         match state
         case Required => [AwaitCi]
         case Blocked => [RepairCi]
         case Unknown => [RetryRemote]
         case Satisfied => [])
  }

  function MergeabilityItem(s: Snapshot): Item {
    match s.mergeability
    case Mergeable => Item(ItemId.Mergeability, Satisfied, [])
    case Conflicting => Item(ItemId.Mergeability, Blocked, [ResolveMergeConflict])
    case Unknown => Item(ItemId.Mergeability, ItemState.Unknown, [RetryRemote])
    case Unavailable => Item(ItemId.Mergeability, ItemState.Unknown, [RetryRemote])
  }

  /** The review item before stabilization and the watch are considered. */
  function ReviewEvidence(s: Snapshot): ItemState {
    if s.policyUnsettled != 0 then Blocked
    else if ReviewFindings in s.blockers then Blocked
    else if s.review == ReviewState.Pending then Required
    else if s.health == Health.Partial then ItemState.Unknown
    else
      match s.review
      case Clean => Satisfied
      case ChangesRequested => Blocked
      case Pending => Required
      case Unknown => ItemState.Unknown
      case Unavailable => ItemState.Unknown
  }

  function ReviewItem(s: Snapshot): Item {
    var evidence := ReviewEvidence(s);
    var stabilizing :=
      && evidence == Satisfied && (s.ci == CiState.Passing || s.ci == CiState.NotRequired)
      && s.mergeability == Mergeability.Mergeable && s.unaddressed == 0 && !s.settled;
    var settled := if stabilizing then Required else evidence;
    var unwatched := settled == Satisfied && s.watch.None?;
    var state := if unwatched then Required else settled;
    Item(ReviewSettlement, state,
         if unwatched then [ArmMonitoring]
         else if stabilizing then [WaitForStabilization]
         else if state == Blocked then [AddressFindings]
         else if s.health == Health.Partial then [RetryReview]
         else if s.review == ReviewState.Pending then [ObtainReview]
         else if state == ItemState.Unknown then [RetryReview]
         else [])
  }

  function DiscussionItem(s: Snapshot): Item {
    if s.unaddressed == 0 then Item(DiscussionSettlement, Satisfied, [])
    else Item(DiscussionSettlement, Blocked, [AnswerThreads])
  }

  // ---------------------------------------------------------------- the projection

  predicate Matches(snapshot: Option<Snapshot>, target: Option<Key>) {
    snapshot.None? || target.None? || SameJob(snapshot.value.key, target.value)
  }

  function Expected(snapshot: Option<Snapshot>, target: Option<Key>): Option<Key> {
    if target.Some? then target else if snapshot.Some? then Some(snapshot.value.key) else None
  }

  predicate OtherHead(local: Evidence, expected: Option<Key>) {
    expected.Some? && (Casefold(local.repository) != Casefold(expected.value.repository)
                       || local.headSha != expected.value.headSha)
  }

  function Refused(items: seq<Item>): seq<Item> {
    seq(|items|, i requires 0 <= i < |items| => Item(items[i].id, Blocked, [RefreshForSameHead]))
  }

  function LocalItems(local: Option<Evidence>, expected: Option<Key>): seq<Item> {
    if local.None? then UnknownItems(LOCAL, RestoreLocalEvidence)
    else if OtherHead(local.value, expected) then Refused(local.value.items)
    else local.value.items
  }

  function RemoteItems(s: Snapshot): seq<Item> {
    if s.health == Health.Unknown || s.health == Health.Unavailable then UnknownItems(REMOTE, WaitForObservation)
    else [Item(PullRequestOpen, Satisfied, []), CiItem(s), MergeabilityItem(s), ReviewItem(s), DiscussionItem(s)]
  }

  /** project_checklist */
  function ProjectChecklist(local: Option<Evidence>, snapshot: Option<Snapshot>, target: Option<Key>,
                            observedAt: Option<Time>)
    : Checklist
  {
    var at := if observedAt.Some? then observedAt.value
              else if snapshot.Some? then snapshot.value.observedAt
              else if local.Some? then local.value.observedAt
              else 0;
    var found := snapshot.Some? && Matches(snapshot, target);
    var items := LocalItems(local, Expected(snapshot, target))
               + if found then RemoteItems(snapshot.value) else UnknownItems(REMOTE, WaitForObservation);
    var key := if found then Some(snapshot.value.key) else None;
    Checklist(key, at, items, key.Some? && AllSatisfied(items))
  }

  /** What render_checklist puts on its last line; None renders as "none". */
  function NextStep(items: seq<Item>): Option<Step> {
    if items == [] then None
    else if items[0].state != Satisfied && items[0].next != [] then Some(items[0].next[0])
    else NextStep(items[1..])
  }

  // ---------------------------------------------------------------- properties

  lemma {:induction false} RemoteItemsAreValid(s: Snapshot)
    ensures Ids(RemoteItems(s)) == REMOTE && ValidItems(RemoteItems(s))
  {
    assert ValidItem(CiItem(s)) && ValidItem(ReviewItem(s));
  }

  /** For all valid inputs the projection meets every validator. */
  lemma {:induction false} NeverTripsValidators(local: Option<Evidence>, snapshot: Option<Snapshot>,
                                                target: Option<Key>,
                                               observedAt: Option<Time>)
    requires local.Some? ==> ValidEvidence(local.value)
    ensures var c := ProjectChecklist(local, snapshot, target, observedAt);
            ValidItems(c.items) && ValidChecklist(c)
  {
    var c := ProjectChecklist(local, snapshot, target, observedAt);
    var head := LocalItems(local, Expected(snapshot, target));
    var tail := c.items[|head|..];
    assert Ids(head) == LOCAL && ValidItems(head) by {
      if local.Some? {
        assert Ids(Refused(local.value.items)) == Ids(local.value.items);
      }
    }
    if c.key.Some? {
      RemoteItemsAreValid(snapshot.value);
    } else {
      assert tail[0].state == ItemState.Unknown;
      assert c.items[|head|] == tail[0];
    }
    assert c.items == head + tail;
    assert Ids(c.items) == Ids(head) + Ids(tail);
    assert Ids(tail) == REMOTE;
  }

  /** What the remote half of a checklist says of the observation behind its snapshot, item by item. */
  ghost predicate Tells(items: seq<Item>, o: Settlement.Observed, s: Snapshot) {
    && |items| == 5 && items[0] == Item(PullRequestOpen, Satisfied, []) && TellsCi(items[1], o)
    && TellsMergeability(items[2], o) && TellsReview(items[3], o, s)
    && items[4] == (if o.unaddressed == 0 then Item(DiscussionSettlement, Satisfied, [])
                    else Item(DiscussionSettlement, Blocked, [AnswerThreads]))
  }

  /** A failed check blocks even while others run. */
  predicate TellsCi(item: Item, o: Settlement.Observed) {
    var fs := o.evaluation.findings;
    item == if Settlement.CiNotSuccessful in fs then Item(RequiredCi, Blocked, [RepairCi])
            else if Settlement.CiPending in fs then Item(RequiredCi, Required, [AwaitCi])
            else if Settlement.CiUnavailable in fs then Item(RequiredCi, ItemState.Unknown, [RetryRemote])
            else Item(RequiredCi, Satisfied, [])
  }

  predicate TellsMergeability(item: Item, o: Settlement.Observed) {
    item == if o.mergeStateDirty || o.mergeText == Settlement.SaysConflicting
            then Item(ItemId.Mergeability, Blocked, [ResolveMergeConflict])
            else if o.mergeText == Settlement.SaysMergeable then Item(ItemId.Mergeability, Satisfied, [])
            else Item(ItemId.Mergeability, ItemState.Unknown, [RetryRemote])
  }

  /** Findings, missing reviews and open threads block; a review that could not be observed is unknown; clean review
      evidence waits while the PR is otherwise ready and not settled, and without a watch. */
  ghost predicate TellsReview(item: Item, o: Settlement.Observed, s: Snapshot) {
    && (item.id == ReviewSettlement)
    && (item.state == Blocked <==> SnapshotFacts.Blocks(o, ReviewFindings))
    && (item.state == ItemState.Unknown <==> !SnapshotFacts.Blocks(o, ReviewFindings) && !o.evaluation.reviewObserved)
    && (item.state == Satisfied <==>
          && !SnapshotFacts.Blocks(o, ReviewFindings) && o.evaluation.reviewObserved && s.watch.Some?
          && (s.settled || s.ci != CiState.Passing || s.mergeability != Mergeability.Mergeable))
    && (item.state == Blocked ==> item.next == [AddressFindings])
    && (item.state == ItemState.Unknown ==> item.next == [RetryReview])
    && (item.state == Satisfied ==> item.next == [])
    && (item.state == Required ==>
          item.next == [if s.ci == CiState.Passing && s.mergeability == Mergeability.Mergeable && !s.settled
                        then WaitForStabilization else ArmMonitoring])
  }

  /** A snapshot that says of an observation what was seen and what blocks it. */
  ghost predicate SnapshotOf(s: Snapshot, o: Settlement.Observed) {
    && SnapshotFacts.Reports(s, o) && (forall b :: b in s.blockers <==> SnapshotFacts.Blocks(o, b))
    && s.policyUnsettled == o.evaluation.unresolvedFindings && s.unaddressed == o.unaddressed
  }

  lemma {:induction false} CiTells(s: Snapshot, o: Settlement.Observed)
    requires SnapshotOf(s, o)
    ensures TellsCi(CiItem(s), o) && TellsMergeability(MergeabilityItem(s), o)
  {
  }

  lemma {:induction false} ReviewTells(s: Snapshot, o: Settlement.Observed)
    requires SnapshotOf(s, o)
    ensures TellsReview(ReviewItem(s), o, s)
  {
  }

  lemma {:induction false} ItemsTell(s: Snapshot, o: Settlement.Observed)
    requires SnapshotOf(s, o)
    ensures Tells(RemoteItems(s), o, s)
  {
    CiTells(s, o);
    ReviewTells(s, o);
  }

  /** So says the checklist of every recorded observation, whatever was stored before. */
  lemma {:induction false} RemoteTells(promoted: bool, stored: Option<Snapshot>, key: Key, now: Time,
                                       o: Settlement.Observed, interval: nat, combined: bool)
    ensures var s := Settlement.TakeSnapshot(promoted, stored, key, now, o, interval, combined);
            Tells(RemoteItems(s), o, s)
  {
    var s := Settlement.TakeSnapshot(promoted, stored, key, now, o, interval, combined);
    SnapshotFacts.SnapshotTells(promoted, stored, key, now, o, interval, combined);
    assert SnapshotOf(s, o);
    ItemsTell(s, o);
  }

  /** The head a checklist is about: the one asked for, else the one observed; local evidence of another head counts
      for nothing. */
  ghost predicate OfAnotherHead(local: Evidence, snapshot: Option<Snapshot>, target: Option<Key>) {
    || (target.Some? && (local.headSha != target.value.headSha
                         || Casefold(local.repository) != Casefold(target.value.repository)))
    || (target.None? && snapshot.Some? && (local.headSha != snapshot.value.key.headSha
                                           || Casefold(local.repository) != Casefold(snapshot.value.key.repository)))
  }

  /** What the two halves of a checklist show. Local items are as the evidence gives them, all blocked when it is of
      another head and all unknown without any; remote items are all unknown when nothing was observed of the target.
      Its time is the one given, else that of the snapshot, else that of the evidence. */
  lemma {:induction false} HalvesShow(local: Option<Evidence>, snapshot: Option<Snapshot>, target: Option<Key>,
                                      observedAt: Option<Time>, k: nat)
    requires (local.Some? ==> ValidEvidence(local.value)) && k < 5
    ensures var c := ProjectChecklist(local, snapshot, target, observedAt);
            && |c.items| == 10
            && (observedAt.Some? ==> c.observedAt == observedAt.value)
            && (observedAt.None? && snapshot.Some? ==> c.observedAt == snapshot.value.observedAt)
            && (observedAt.None? && snapshot.None? && local.Some? ==> c.observedAt == local.value.observedAt)
            && (local.None? ==> c.items[k] == Item(LOCAL[k], ItemState.Unknown, [RestoreLocalEvidence]))
            && (local.Some? && OfAnotherHead(local.value, snapshot, target) ==>
                  c.items[k] == Item(LOCAL[k], Blocked, [RefreshForSameHead]))
            && (local.Some? && !OfAnotherHead(local.value, snapshot, target) ==> c.items[k] == local.value.items[k])
            && (snapshot.None? || (target.Some? && !SameJob(snapshot.value.key, target.value)) ==>
                  c.items[5 + k] == Item(REMOTE[k], ItemState.Unknown, [WaitForObservation]) && c.key == None)
            && (snapshot.Some? && (target.Some? ==> SameJob(snapshot.value.key, target.value)) ==>
                  c.items[5..] == RemoteItems(snapshot.value) && c.key == Some(snapshot.value.key))
  {
    var head := LocalItems(local, Expected(snapshot, target));
    assert local.Some? ==> |local.value.items| == |Ids(local.value.items)| && Ids(local.value.items)[k] == LOCAL[k];
    assert |head| == 5 && |LOCAL| == 5 && |REMOTE| == 5;
    if snapshot.Some? {
      RemoteItemsAreValid(snapshot.value);
      assert |RemoteItems(snapshot.value)| == |Ids(RemoteItems(snapshot.value))|;
    }
  }

  /** Every remote item of an observed snapshot is satisfied exactly when the snapshot is settled and carries
      a review watch. */
  lemma {:induction false} RemoteSatisfiedExactlyWhen(s: Snapshot)
    requires Accepted(s)
    ensures AllSatisfied(RemoteItems(s)) <==> s.settled && s.watch.Some?
  {
    var items := RemoteItems(s);
    if AllSatisfied(items) {
      assert items[0].state == Satisfied;
      assert items[1] == CiItem(s) && items[2] == MergeabilityItem(s);
      assert items[3] == ReviewItem(s) && items[4] == DiscussionItem(s);
    }
  }

  /** End to end, over the whole history of one job: the remote half of the checklist is satisfied exactly
      while the last recorded observation ends an unbroken run that spans the interval. */
  lemma {:induction false} RemoteSatisfiedExactlyAtWindow(events: seq<Settlement.JobEvent>, interval: nat)
    requires Settlement.Orderly(events) && Settlement.Marks(events) != []
    ensures var stored := Settlement.RunJob(events, interval);
            && stored.Some?
            && (AllSatisfied(RemoteItems(stored.value)) <==>
                  Settlement.ClosesInterval(Settlement.Marks(events), interval))
  {
    Settlement.StoredSnapshotsAreAccepted(events, interval);
    Settlement.SettledStaysWatched(events, interval);
    RemoteSatisfiedExactlyWhen(Settlement.RunJob(events, interval).value);
  }

  /** A checklist is complete exactly when local evidence is present for the exact head with all its items
      satisfied, and the snapshot matches any requested target, is settled and carries a review watch. */
  lemma {:induction false} CompleteExactlyWhen(local: Option<Evidence>, snapshot: Option<Snapshot>, target: Option<Key>,
                                              observedAt: Option<Time>)
    requires local.Some? ==> ValidEvidence(local.value)
    requires snapshot.Some? ==> Accepted(snapshot.value)
    ensures ProjectChecklist(local, snapshot, target, observedAt).complete <==>
              && local.Some? && AllSatisfied(local.value.items)
              && snapshot.Some? && snapshot.value.settled && snapshot.value.watch.Some?
              && (target.Some? ==> SameJob(snapshot.value.key, target.value))
              && Casefold(local.value.repository) == Casefold(snapshot.value.key.repository)
              && local.value.headSha == snapshot.value.key.headSha
  {
    var c := ProjectChecklist(local, snapshot, target, observedAt);
    var head := LocalItems(local, Expected(snapshot, target));
    assert c.items == head + c.items[|head|..];
    SatisfiedSum(head, c.items[|head|..]);
    assert local.Some? ==> |local.value.items| == |Ids(local.value.items)| == 5;
    assert (local.None? || OtherHead(local.value, Expected(snapshot, target))) ==> head[0].state != Satisfied;
    if c.key.Some? {
      RemoteSatisfiedExactlyWhen(snapshot.value);
      assert c.items[|head|..] == RemoteItems(snapshot.value);
    }
  }

  lemma {:induction false} SatisfiedSum(a: seq<Item>, b: seq<Item>)
    ensures AllSatisfied(a + b) <==> AllSatisfied(a) && AllSatisfied(b)
  {
    assert forall i :: 0 <= i < |a| ==> (a + b)[i] == a[i];
    assert forall i :: 0 <= i < |b| ==> (a + b)[|a| + i] == b[i];
  }

  /** The rendered tail line says "none" exactly for a complete checklist. */
  lemma {:induction false} NothingNextExactlyWhenComplete(c: Checklist)
    requires ValidChecklist(c) && ValidItems(c.items)
    ensures NextStep(c.items).None? <==> c.complete
  {
    NoStepMeansSatisfied(c.items);
  }

  /** What it names otherwise is the first action of the first item that is not satisfied. */
  lemma {:induction false} NextIsFirst(items: seq<Item>, k: nat)
    requires ValidItems(items) && k < |items| && items[k].state != Satisfied
    requires forall j :: 0 <= j < k ==> items[j].state == Satisfied
    ensures items[k].next != [] && NextStep(items) == Some(items[k].next[0])
  {
    assert ValidItem(items[k]);
    if k > 0 {
      NextIsFirst(items[1..], k - 1);
    }
  }

  lemma {:induction false} NoStepMeansSatisfied(items: seq<Item>)
    requires ValidItems(items)
    ensures NextStep(items).None? <==> AllSatisfied(items)
  {
    if items != [] {
      assert items == [items[0]] + items[1..];
      SatisfiedSum([items[0]], items[1..]);
      assert ValidItem(items[0]);
      NoStepMeansSatisfied(items[1..]);
    }
  }
}

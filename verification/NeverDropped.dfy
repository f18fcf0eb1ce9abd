/** An open PR is never dropped, over every interleaving of enqueues, drain workers and crashes.

    A worker that retires an intent in favour of another identity enqueues that identity first. The
    successor may itself be retired by another worker before the first retirement commits, so what is
    proved is about whole runs: following successors from any record ends at one that is still
    listable, or at one retired because its PR was merged or closed. */
module NeverDropped {
  import opened Wrappers
  import opened LifecycleModels
  import opened LifecycleStore
  import opened StoreRuns
  import opened Workflow

  /** Why a worker settled an intent: its PR was merged or closed, or the identity `heir` replaced it,
      whose enqueue was committed by the event `enqueuedAt`. */
  datatype Cause = Gone | Replaced(heir: IngressId, enqueuedAt: nat)

  ghost predicate CommitsEnqueue(run: Run, e: nat, heir: IngressId)
    requires IsRun(run)
  {
    && e < |run.events| && run.events[e] == Finish && run.states[e].holder.Some?
    && run.states[e].holder.value.req.Enqueue? && run.states[e].holder.value.plan.id == heir
  }

  /** Every settlement of the run has its cause; a replacement was enqueued after the worker read the
      record it retires and before it asked to retire it. */
  ghost predicate DrainRun(run: Run, causes: map<nat, Cause>) {
    && Fenced(run)
    && forall k :: 0 <= k < |run.events| && run.events[k].Begin? && run.events[k].req.Settle? ==>
         && k in causes
         && (causes[k].Replaced? ==>
               run.events[k].readAt <= causes[k].enqueuedAt < k
               && CommitsEnqueue(run, causes[k].enqueuedAt, causes[k].heir))
  }

  /** The record stored for `id` at `t` is the one the settlement begun at `b` committed. */
  ghost predicate SettledFrom(run: Run, t: nat, id: IngressId, b: nat)
    requires IsRun(run) && t < |run.states|
  {
    && id in IntentsAt(run, t) && IntentsAt(run, t)[id].state == Settled
    && b < t && run.events[b].Begin? && run.events[b].req.Settle? && IngressOf(run.events[b].req.intent) == id
    && PlanFor(run.states[b].disk, run.events[b].req).Ok?
    && PlanFor(run.states[b].disk, run.events[b].req).value.record == IntentsAt(run, t)[id]
  }

  lemma {:induction false} FinishChangesRecord(run: Run, c: nat)
    requires IsRun(run) && c < |run.events| && run.events[c] == Finish && run.states[c].holder.Some?
    ensures var plan := run.states[c].holder.value.plan;
            && plan.id in IntentsAt(run, c + 1) && IntentsAt(run, c + 1)[plan.id] == plan.record
            && PlanFor(run.states[c].disk, run.states[c].holder.value.req) == Ok(plan)
            && plan.id == IngressOf(run.states[c].holder.value.req.intent)
            && Commits(run, plan.id, c + 1) == Commits(run, plan.id, c) + 1
  {
    ReachableIsSound(run, c);
    PlanIsLinked(run.states[c].disk, run.states[c].holder.value.req);
    assert Step(run.states[c], run.events[c], run.states[c + 1]);
  }

  lemma {:induction false} PlanDependsOnIntents(one: Disk, two: Disk, req: Request)
    requires one.intents == two.intents
    ensures PlanFor(one, req) == PlanFor(two, req)
  {
  }

  /** Among fenced requests only a settlement leaves a settled record. */
  lemma {:induction false} OnlySettleSettles(run: Run, c: nat)
    requires Fenced(run) && c < |run.events| && run.events[c] == Finish && run.states[c].holder.Some?
    requires run.states[c].holder.value.plan.record.state == Settled
    ensures run.states[c].holder.value.req.Settle?
  {
    FinishChangesRecord(run, c);
    ReachableIsSound(run, c);
    if !run.states[c].holder.value.req.Enqueue? {
      var b := CommitSeesWhatWasRead(run, c);
    }
  }

  /** Which settlement a settled record comes from; `c` is where it committed. */
  lemma {:induction false} SettlementOf(run: Run, t: nat, id: IngressId) returns (b: nat, c: nat)
    requires Fenced(run) && t < |run.states|
    requires id in IntentsAt(run, t) && IntentsAt(run, t)[id].state == Settled
    ensures SettledFrom(run, t, id, b) && b < c < t
    ensures run.events[c] == Finish
    ensures forall m :: c < m <= t ==> id in IntentsAt(run, m) && IntentsAt(run, m)[id] == IntentsAt(run, t)[id]
    ensures forall m :: b < m < c ==> run.events[m] != Finish
  {
    if id in IntentsAt(run, t - 1) && IntentsAt(run, t - 1)[id] == IntentsAt(run, t)[id] {
      b, c := SettlementOf(run, t - 1, id);
    } else {
      c := t - 1;
      assert Step(run.states[c], run.events[c], run.states[t]);
      assert run.events[c] == Finish && run.states[c].holder.value.plan.id == id;
      FinishChangesRecord(run, c);
      OnlySettleSettles(run, c);
      b := HolderBegan(run, c);
      PlanDependsOnIntents(run.states[b].disk, run.states[c].disk, run.events[b].req);
    }
  }

  /** Commits only accumulate. */
  lemma {:induction false} CommitsAccumulate(run: Run, id: IngressId, i: nat, j: nat)
    requires |run.states| == |run.events| + 1 && i <= j < |run.states|
    ensures Commits(run, id, i) <= Commits(run, id, j)
    decreases j
  {
    if i < j {
      CommitsAccumulate(run, id, i, j - 1);
    }
  }

  lemma {:induction false} NoCommitSinceRead(run: Run, k: nat)
    requires Fenced(run) && k < |run.events| && run.events[k].Begin? && !run.events[k].req.Enqueue?
    ensures var id := IngressOf(run.events[k].req.intent);
            run.events[k].readAt <= k && Commits(run, id, k) == Commits(run, id, run.events[k].readAt)
  {
    assert ReadBefore(run, k, run.events[k].req, run.events[k].readAt);
    FenceHolds(run, k);
  }

  lemma {:induction false} CommitCounts(run: Run, c: nat)
    requires IsRun(run) && c < |run.events| && run.events[c] == Finish && run.states[c].holder.Some?
    ensures var id := IngressOf(run.states[c].holder.value.req.intent);
            Commits(run, id, c + 1) == Commits(run, id, c) + 1
  {
    FinishChangesRecord(run, c);
  }

  lemma {:induction false} CountRises(run: Run, id: IngressId, i: nat, c: nat, k: nat)
    requires |run.states| == |run.events| + 1 && i <= c < k < |run.states|
    requires Commits(run, id, c + 1) == Commits(run, id, c) + 1
    ensures Commits(run, id, i) < Commits(run, id, k)
  {
    CommitsAccumulate(run, id, i, c);
    CommitsAccumulate(run, id, c + 1, k);
  }

  /** A commit to a record after a worker read it fences that worker off. */
  lemma {:induction false} CommitFencesOff(run: Run, k: nat, c: nat)
    requires Fenced(run) && c < k < |run.events| && run.events[k].Begin? && !run.events[k].req.Enqueue?
    requires run.events[c] == Finish && run.states[c].holder.Some?
    requires IngressOf(run.states[c].holder.value.req.intent) == IngressOf(run.events[k].req.intent)
    ensures c < run.events[k].readAt
  {
    var id, readAt := IngressOf(run.events[k].req.intent), run.events[k].readAt;
    CommitCounts(run, c);
    NoCommitSinceRead(run, k);
    if readAt <= c {
      CountRises(run, id, readAt, c, k);
    }
  }

  /** The heart of the argument: if `heir` was enqueued by event `e` and is settled at `t`, the worker that
      settled it read it after `e`, so whatever replaced `heir` was enqueued later than `heir` was. */
  lemma {:induction false} SuccessorIsYounger(run: Run, causes: map<nat, Cause>, t: nat, heir: IngressId, e: nat)
    returns (b: nat)
    requires DrainRun(run, causes) && t < |run.states| && e < t && CommitsEnqueue(run, e, heir)
    requires heir in IntentsAt(run, t) && IntentsAt(run, t)[heir].state == Settled
    ensures SettledFrom(run, t, heir, b) && b in causes
    ensures causes[b].Replaced? ==>
              e < causes[b].enqueuedAt < t && CommitsEnqueue(run, causes[b].enqueuedAt, causes[b].heir)
  {
    FinishChangesRecord(run, e);
    var c;
    b, c := SettlementOf(run, t, heir);
    ReachableIsSound(run, e);
    EnqueueLists(run.states[e].disk, run.states[e].holder.value.req.intent);
    assert IntentsAt(run, e + 1)[heir].state != Settled;
    assert e < c;
    assert e < b;
    FenceHolds(run, b);
    if run.events[b].readAt <= e {
      CommitsAccumulate(run, heir, run.events[b].readAt, e);
      CommitsAccumulate(run, heir, e + 1, b);
    }
  }

  /** `id` is settled at `t` by a settlement that replaced it with `heir`. */
  ghost predicate ReplacedBy(run: Run, causes: map<nat, Cause>, t: nat, id: IngressId, heir: IngressId)
    requires IsRun(run) && t < |run.states|
  {
    exists b :: SettledFrom(run, t, id, b) && b in causes && causes[b].Replaced? && causes[b].heir == heir
  }

  /** `id` is settled at `t` because its PR was merged or closed. */
  ghost predicate PrIsGone(run: Run, causes: map<nat, Cause>, t: nat, id: IngressId)
    requires IsRun(run) && t < |run.states|
  {
    exists b :: SettledFrom(run, t, id, b) && b in causes && causes[b] == Gone
  }

  /** A line of successors from `id`, ending at a listable record or at a PR that is gone. */
  ghost predicate Succession(run: Run, causes: map<nat, Cause>, t: nat, id: IngressId, line: seq<IngressId>)
    requires IsRun(run) && t < |run.states|
  {
    && line != [] && line[0] == id
    && (forall m :: 0 <= m < |line| - 1 ==> ReplacedBy(run, causes, t, line[m], line[m + 1]))
    && (Listable(IntentsAt(run, t), line[|line| - 1]) || PrIsGone(run, causes, t, line[|line| - 1]))
  }

  lemma {:induction false} FollowSuccessors(run: Run, causes: map<nat, Cause>, t: nat, heir: IngressId, e: nat)
    returns (line: seq<IngressId>)
    requires DrainRun(run, causes) && t < |run.states| && e < t && CommitsEnqueue(run, e, heir)
    ensures Succession(run, causes, t, heir, line)
    decreases t - e
  {
    FinishChangesRecord(run, e);
    RevisionsNeverRecur(run, heir, e + 1, t);
    line := [heir];
    if !Listable(IntentsAt(run, t), heir) {
      var b := SuccessorIsYounger(run, causes, t, heir, e);
      if causes[b].Replaced? {
        var rest := FollowSuccessors(run, causes, t, causes[b].heir, causes[b].enqueuedAt);
        line := [heir] + rest;
        assert ReplacedBy(run, causes, t, heir, rest[0]);
        forall m | 0 <= m < |line| - 1
          ensures ReplacedBy(run, causes, t, line[m], line[m + 1])
        {
          if m > 0 {
            assert line[m] == rest[m - 1] && line[m + 1] == rest[m];
          }
        }
        assert line[|line| - 1] == rest[|rest| - 1];
      }
    }
  }

  /** At every point of every run, every identity ever enqueued is accounted for. */
  lemma {:induction false} NothingIsDropped(run: Run, causes: map<nat, Cause>, t: nat, id: IngressId)
    returns (line: seq<IngressId>)
    requires DrainRun(run, causes) && t < |run.states| && id in IntentsAt(run, t)
    ensures Succession(run, causes, t, id, line)
  {
    line := [id];
    if !Listable(IntentsAt(run, t), id) {
      var b, c := SettlementOf(run, t, id);
      if causes[b].Replaced? {
        var rest := FollowSuccessors(run, causes, t, causes[b].heir, causes[b].enqueuedAt);
        line := [id] + rest;
        assert ReplacedBy(run, causes, t, id, rest[0]);
        forall m | 0 <= m < |line| - 1
          ensures ReplacedBy(run, causes, t, line[m], line[m + 1])
        {
          if m > 0 {
            assert line[m] == rest[m - 1] && line[m + 1] == rest[m];
          }
        }
        assert line[|line| - 1] == rest[|rest| - 1];
      }
    }
  }

  /** So while no PR is merged or closed, the line of successors of every identity ends at one a drain lists. */
  lemma {:induction false} OpenPrsStayListable(run: Run, causes: map<nat, Cause>, t: nat, id: IngressId)
    returns (line: seq<IngressId>)
    requires DrainRun(run, causes) && t < |run.states| && id in IntentsAt(run, t)
    requires forall k :: k in causes ==> causes[k] != Gone
    ensures Succession(run, causes, t, id, line) && Listable(IntentsAt(run, t), line[|line| - 1])
  {
    line := NothingIsDropped(run, causes, t, id);
  }

  // ---------------------------------------------------------------- runs of drain decisions

  /** What a worker knew when it settled a record, and the event that committed its replacement's enqueue. */
  datatype Turn = Turn(resolved: Option<ResolvedPr>, local: Option<LocalIdentity>, now: Time, enqueuedAt: nat)

  /** The record the request begun at `k` acts on, as its worker read it. */
  function ReadRecord(run: Run, k: nat): Record
    requires k < |run.events| && run.events[k].Begin? && run.events[k].readAt < |run.states|
    requires IngressOf(run.events[k].req.intent) in IntentsAt(run, run.events[k].readAt)
  {
    IntentsAt(run, run.events[k].readAt)[IngressOf(run.events[k].req.intent)]
  }

  function Decision(run: Run, turns: map<nat, Turn>, k: nat): Action
    requires k in turns && k < |run.events| && run.events[k].Begin? && run.events[k].readAt < |run.states|
    requires IngressOf(run.events[k].req.intent) in IntentsAt(run, run.events[k].readAt)
  {
    Decide(ReadRecord(run, k), turns[k].resolved, turns[k].local, turns[k].now)
  }

  /** The settlement begun at `k` is the last request of a drain decision on the record its worker read, and
      any replacement it decided on was enqueued, to the end, in between. */
  ghost predicate Decided(run: Run, turns: map<nat, Turn>, k: nat)
    requires Fenced(run) && k < |run.events| && run.events[k].Begin? && run.events[k].req.Settle?
  {
    assert ReadBefore(run, k, run.events[k].req, run.events[k].readAt);
    && k in turns
    && var action := Decision(run, turns, k);
       && (action.Retire? || action.AdoptHead? || action.ReplacePlaceholder?)
       && run.events[k].req == Settle(ReadRecord(run, k).intent, action.key, VersionOf(ReadRecord(run, k)), None)
       && (!action.Retire? ==>
             var e := turns[k].enqueuedAt;
             && run.events[k].readAt <= e < k && run.events[e] == Finish && run.states[e].holder.Some?
             && run.states[e].holder.value.req == Request.Enqueue(action.replacement))
  }

  /** A run in which every settlement is a drain's. */
  ghost predicate DrainDecides(run: Run, turns: map<nat, Turn>) {
    && Fenced(run)
    && forall k :: 0 <= k < |run.events| && run.events[k].Begin? && run.events[k].req.Settle? ==> Decided(run, turns, k)
  }

  ghost function CausesOf(run: Run, turns: map<nat, Turn>): map<nat, Cause>
    requires DrainDecides(run, turns)
  {
    map k | k in turns && k < |run.events| && run.events[k].Begin? && run.events[k].req.Settle?
            && Decided(run, turns, k)
      :: CauseOf(Decision(run, turns, k), turns[k].enqueuedAt)
  }

  function CauseOf(action: Action, enqueuedAt: nat): Cause {
    if action.AdoptHead? || action.ReplacePlaceholder? then Replaced(IngressOf(action.replacement), enqueuedAt)
    else Gone
  }

  lemma {:induction false} DecisionsAreCauses(run: Run, turns: map<nat, Turn>)
    requires DrainDecides(run, turns)
    ensures DrainRun(run, CausesOf(run, turns))
  {
    var causes := CausesOf(run, turns);
    forall k | 0 <= k < |run.events| && run.events[k].Begin? && run.events[k].req.Settle?
      ensures k in causes
      ensures causes[k].Replaced? ==>
                run.events[k].readAt <= causes[k].enqueuedAt < k
                && CommitsEnqueue(run, causes[k].enqueuedAt, causes[k].heir)
    {
      assert Decided(run, turns, k);
      if causes[k].Replaced? {
        ReachableIsSound(run, causes[k].enqueuedAt);
        PlanIsLinked(run.states[causes[k].enqueuedAt].disk, run.states[causes[k].enqueuedAt].holder.value.req);
      }
    }
  }

  lemma {:induction false} GoneWasSeen(run: Run, turns: map<nat, Turn>, b: nat)
    requires DrainDecides(run, turns) && b in CausesOf(run, turns) && CausesOf(run, turns)[b] == Gone
    ensures b in turns && turns[b].resolved.Some?
    ensures turns[b].resolved.value.state == Merged || turns[b].resolved.value.state == Closed
  {
    assert Decided(run, turns, b);
    assert Decision(run, turns, b).Retire?;
  }

  /** In every run of drain decisions, whatever interleaves with them and wherever they crash, following the
      successors of any identity ever enqueued ends at one a drain still lists, or at one settled after its PR
      was seen merged or closed. */
  lemma {:induction false} DrainsNeverDrop(run: Run, turns: map<nat, Turn>, t: nat, id: IngressId)
    returns (line: seq<IngressId>)
    requires DrainDecides(run, turns) && t < |run.states| && id in IntentsAt(run, t)
    ensures line != [] && line[0] == id
    ensures forall m :: 0 <= m < |line| - 1 ==> ReplacedBy(run, CausesOf(run, turns), t, line[m], line[m + 1])
    ensures || Listable(IntentsAt(run, t), line[|line| - 1])
            || exists b :: && SettledFrom(run, t, line[|line| - 1], b) && b in turns && turns[b].resolved.Some?
                           && (turns[b].resolved.value.state == Merged || turns[b].resolved.value.state == Closed)
  {
    DecisionsAreCauses(run, turns);
    line := NothingIsDropped(run, CausesOf(run, turns), t, id);
    var last := line[|line| - 1];
    if !Listable(IntentsAt(run, t), last) {
      var b :| SettledFrom(run, t, last, b) && b in CausesOf(run, turns) && CausesOf(run, turns)[b] == Gone;
      GoneWasSeen(run, turns, b);
    }
  }
}

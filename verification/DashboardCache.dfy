/** The dashboard's context cache and ownership cache (three functions of src/agentic_pr_dash/app.py),
    under every interleaving of event-loop steps and worker threads.

    Every cached value carries `readsBegan`, the generation in force when the reads behind it began: the
    reads began before invalidation number n exactly when `readsBegan < n`. */
module DashboardCache {
  import opened Wrappers
  import opened LifecycleModels

  const CONTEXT_TTL: int := 30 * SECOND
  const OWNERSHIP_TTL: int := 60 * SECOND

  datatype ContextKey = ContextKey(showAgentWorktrees: bool, tab: string)
  datatype OwnershipKey = OwnershipKey(worktree: Option<string>, prNumber: Option<int>, repoCwd: string)
  type BuildId = int
  type CallId = int

  /** A cached value; no stamp is the stale mark, older than any time. */
  datatype Entry = Entry(stamp: Option<Time>, readsBegan: nat, content: int)

  const SKELETON := Entry(None, 0, 0)

  datatype Phase = Created | Reading(readsBegan: nat) | Loaded(readsBegan: nat, content: int) | Done
  datatype Build = Build(key: ContextKey, generation: nat, phase: Phase)

  /** An ownership computation between its two locked sections. */
  datatype Call = Call(key: OwnershipKey, generation: nat, readsBegan: Option<nat>)

  /** How far the invalidation running on the event loop has got. */
  datatype Progress = Idle | Bumped | Marked

  /** `returned` is the number of the last invalidation that has returned. */
  datatype World = World(
    generation: nat, progress: Progress, returned: nat,
    cache: map<ContextKey, Entry>, tasks: map<ContextKey, BuildId>, builds: map<BuildId, Build>,
    ownership: map<OwnershipKey, Entry>, calls: map<CallId, Call>)

  const START := World(0, Idle, 0, map[], map[], map[], map[], map[])

  predicate FreshAt(e: Entry, now: Time, ttl: int) {
    e.stamp.Some? && now - e.stamp.value <= ttl
  }

  // ---------------------------------------------------------------- steps

  function Bump(w: World): World {
    w.(generation := w.generation + 1, progress := Bumped)
  }

  function MarkStale(w: World): World {
    w.(cache := map k | k in w.cache :: w.cache[k].(stamp := None), progress := Marked)
  }

  function ClearOwnership(w: World): World {
    w.(ownership := map[], progress := Idle, returned := w.generation)
  }

  predicate Unfinished(w: World, id: BuildId) {
    id in w.builds && !w.builds[id].phase.Done?
  }

  /** One poll of the event loop: what it serves, and the world after it; `id` names a build it may start. */
  function Poll(w: World, key: ContextKey, now: Time, id: BuildId): (World, Entry) {
    var cached := if key in w.cache then w.cache[key] else SKELETON;
    var seeded := w.(cache := w.cache[key := cached]);
    if FreshAt(cached, now, CONTEXT_TTL) then (seeded, cached)
    else if key in w.tasks && Unfinished(w, w.tasks[key]) then (seeded, cached)
    else
      (seeded.(tasks := w.tasks[key := id], builds := w.builds[id := Build(key, w.generation, Created)]), cached)
  }

  function Rebuilt(w: World, id: BuildId, now: Time): World
    requires id in w.builds && w.builds[id].phase.Loaded?
  {
    var b := w.builds[id];
    var done := w.(builds := w.builds[id := b.(phase := Done)]);
    if b.key in w.tasks && w.tasks[b.key] == id then
      var stamp := if b.generation == w.generation then Some(now) else None;
      done.(tasks := w.tasks - {b.key},
            cache := w.cache[b.key := Entry(stamp, b.phase.readsBegan, b.phase.content)])
    else done
  }

  function RebuildFailed(w: World, id: BuildId): World
    requires id in w.builds
  {
    var b := w.builds[id];
    var done := w.(builds := w.builds[id := b.(phase := Done)]);
    if b.key in w.tasks && w.tasks[b.key] == id then done.(tasks := w.tasks - {b.key}) else done
  }

  function Expired(own: map<OwnershipKey, Entry>, now: Time): map<OwnershipKey, Entry> {
    map k | k in own && FreshAt(own[k], now, OWNERSHIP_TTL) :: own[k]
  }

  /** The second locked section of _cached_ownership_for_card. */
  function StoreOwnership(w: World, key: OwnershipKey, generation: nat, readsBegan: nat, content: int,
                          now: Time): World {
    if generation == w.generation then w.(ownership := w.ownership[key := Entry(Some(now), readsBegan, content)]) else w
  }

  datatype Step =
    // on the event loop
    | BumpStep | MarkStep | ClearStep
    | PollStep(key: ContextKey, now: Time, id: BuildId)
    | FinishStep(id: BuildId, now: Time)
    | FailStep(id: BuildId)
    | CancelStep(id: BuildId)
    // in worker threads
    | BeginReads(id: BuildId)
    | UseOwnership(id: BuildId, ownershipKey: OwnershipKey, now: Time)
    | EndReads(id: BuildId, content: int)
    | CaptureCall(call: CallId, ownershipKey: OwnershipKey)
    | ReadCall(call: CallId)
    | StoreCall(call: CallId, content: int, now: Time)
    | ExpireOwnership(now: Time)

  /** An invalidation occupies the event loop from its first step to its last; workers go on meanwhile. */
  ghost predicate Next(w: World, s: Step, v: World) {
    match s
    case BumpStep => w.progress == Idle && v == Bump(w)
    case MarkStep => w.progress == Bumped && v == MarkStale(w)
    case ClearStep => w.progress == Marked && v == ClearOwnership(w)
    case PollStep(key, now, id) => w.progress == Idle && id !in w.builds && v == Poll(w, key, now, id).0
    case FinishStep(id, now) =>
      w.progress == Idle && id in w.builds && w.builds[id].phase.Loaded? && v == Rebuilt(w, id, now)
    case FailStep(id) => w.progress == Idle && Unfinished(w, id) && v == RebuildFailed(w, id)
    case CancelStep(id) =>
      w.progress == Idle && Unfinished(w, id) && v == w.(builds := w.builds[id := w.builds[id].(phase := Done)])
    case BeginReads(id) =>
      id in w.builds && w.builds[id].phase == Created
      && v == w.(builds := w.builds[id := w.builds[id].(phase := Reading(w.generation))])
    case UseOwnership(id, ok, now) =>
      && id in w.builds && w.builds[id].phase.Reading? && ok in w.ownership
      && FreshAt(w.ownership[ok], now, OWNERSHIP_TTL)
      && var began := w.builds[id].phase.readsBegan;
         v == w.(builds := w.builds[id := w.builds[id].(phase :=
                   Reading(if w.ownership[ok].readsBegan < began then w.ownership[ok].readsBegan else began))])
    case EndReads(id, content) =>
      id in w.builds && w.builds[id].phase.Reading?
      && v == w.(builds := w.builds[id := w.builds[id].(phase := Loaded(w.builds[id].phase.readsBegan, content))])
    case CaptureCall(call, ok) => call !in w.calls && v == w.(calls := w.calls[call := Call(ok, w.generation, None)])
    case ReadCall(call) =>
      call in w.calls && w.calls[call].readsBegan.None?
      && v == w.(calls := w.calls[call := w.calls[call].(readsBegan := Some(w.generation))])
    case StoreCall(call, content, now) =>
      call in w.calls && w.calls[call].readsBegan.Some?
      && var c := w.calls[call];
         v == StoreOwnership(w, c.key, c.generation, c.readsBegan.value, content, now)
    case ExpireOwnership(now) => v == w.(ownership := Expired(w.ownership, now))
  }

  ghost predicate IsRun(ws: seq<World>, steps: seq<Step>) {
    && |ws| == |steps| + 1 && ws[0] == START
    && forall k :: 0 <= k < |steps| ==> Next(ws[k], steps[k], ws[k + 1])
  }

  // ---------------------------------------------------------------- invariants

  /** Nothing that could be served as fresh was read before the last returned invalidation. */
  ghost predicate Safe(w: World) {
    && (w.progress == Idle ==> w.returned == w.generation)
    && (w.progress != Idle ==> w.returned + 1 == w.generation)
    && (forall k :: k in w.cache && w.cache[k].stamp.Some? ==>
          w.progress != Marked && w.returned <= w.cache[k].readsBegan)
    && (forall k :: k in w.ownership ==> w.returned <= w.ownership[k].readsBegan)
    && (forall id :: id in w.builds ==> BuildSafe(w, w.builds[id]))
    && (forall c :: c in w.calls ==> CallSafe(w, w.calls[c]))
  }

  ghost predicate BuildSafe(w: World, b: Build) {
    && b.generation <= w.generation
    && (w.progress != Idle ==> b.generation < w.generation)
    && (b.generation == w.generation && (b.phase.Reading? || b.phase.Loaded?) ==> w.generation <= b.phase.readsBegan)
  }

  ghost predicate CallSafe(w: World, c: Call) {
    && c.generation <= w.generation
    && (c.readsBegan.Some? ==> c.generation <= c.readsBegan.value)
  }

  /** Every unfinished build is the one its key's task entry names. */
  ghost predicate OneBuildPerKey(w: World) {
    forall id :: Unfinished(w, id) ==> w.builds[id].key in w.tasks && w.tasks[w.builds[id].key] == id
  }

  lemma {:induction false} InvalidationIsSafe(w: World, s: Step, v: World)
    requires Safe(w) && Next(w, s, v) && (s.BumpStep? || s.MarkStep? || s.ClearStep?)
    ensures Safe(v) && w.returned <= v.returned
  {
    forall id | id in v.builds
      ensures BuildSafe(v, v.builds[id])
    {
      assert BuildSafe(w, w.builds[id]);
    }
    forall c | c in v.calls
      ensures CallSafe(v, v.calls[c])
    {
      assert CallSafe(w, w.calls[c]);
    }
  }

  /** A step that leaves the generation alone and adds only safe entries, builds and calls. */
  lemma {:induction false} QuietStepIsSafe(w: World, v: World)
    requires Safe(w) && v.generation == w.generation && v.progress == w.progress && v.returned == w.returned
    requires forall k :: k in v.cache ==>
               (k in w.cache && v.cache[k] == w.cache[k]) || v.cache[k].stamp.None?
               || (w.progress == Idle && w.generation <= v.cache[k].readsBegan)
    requires forall k :: k in v.ownership ==>
               (k in w.ownership && v.ownership[k] == w.ownership[k]) || w.generation <= v.ownership[k].readsBegan
    requires forall id :: id in v.builds ==>
               (id in w.builds && v.builds[id] == w.builds[id]) || BuildSafe(v, v.builds[id])
    requires forall c :: c in v.calls ==> (c in w.calls && v.calls[c] == w.calls[c]) || CallSafe(v, v.calls[c])
    ensures Safe(v)
  {
    forall id | id in v.builds
      ensures BuildSafe(v, v.builds[id])
    {
      assert id in w.builds ==> BuildSafe(w, w.builds[id]);
    }
    forall c | c in v.calls
      ensures CallSafe(v, v.calls[c])
    {
      assert c in w.calls ==> CallSafe(w, w.calls[c]);
    }
  }

  predicate OnLoop(s: Step) {
    s.PollStep? || s.FinishStep? || s.FailStep? || s.CancelStep?
  }

  lemma {:induction false} LoopStepIsSafe(w: World, s: Step, v: World)
    requires Safe(w) && Next(w, s, v) && OnLoop(s)
    ensures Safe(v) && w.returned <= v.returned
  {
    if s.PollStep? {
      PollIsSafe(w, s.key, s.now, s.id);
    } else if s.FinishStep? {
      RebuiltIsSafe(w, s.id, s.now);
    } else {
      assert BuildSafe(w, w.builds[s.id]);
      QuietStepIsSafe(w, v);
    }
  }

  lemma {:induction false} RebuiltIsSafe(w: World, id: BuildId, now: Time)
    requires Safe(w) && w.progress == Idle && id in w.builds && w.builds[id].phase.Loaded?
    ensures Safe(Rebuilt(w, id, now)) && w.returned <= Rebuilt(w, id, now).returned
  {
    assert BuildSafe(w, w.builds[id]);
    QuietStepIsSafe(w, Rebuilt(w, id, now));
  }

  lemma {:induction false} PollIsSafe(w: World, key: ContextKey, now: Time, id: BuildId)
    requires Safe(w) && w.progress == Idle && id !in w.builds
    ensures Safe(Poll(w, key, now, id).0)
  {
    var v := Poll(w, key, now, id).0;
    assert v.cache == w.cache[key := if key in w.cache then w.cache[key] else SKELETON];
    assert v.builds == w.builds || v.builds == w.builds[id := Build(key, w.generation, Created)];
    QuietStepIsSafe(w, v);
  }

  lemma {:induction false} WorkerStepIsSafe(w: World, s: Step, v: World)
    requires Safe(w) && Next(w, s, v) && !OnLoop(s) && !s.BumpStep? && !s.MarkStep? && !s.ClearStep?
    ensures Safe(v) && w.returned <= v.returned
  {
    if s.BeginReads? || s.UseOwnership? || s.EndReads? {
      assert BuildSafe(w, w.builds[s.id]);
    } else if s.ReadCall? || s.StoreCall? {
      assert CallSafe(w, w.calls[s.call]);
    }
    QuietStepIsSafe(w, v);
  }

  lemma {:induction false} StepIsSafe(w: World, s: Step, v: World)
    requires Safe(w) && Next(w, s, v)
    ensures Safe(v) && w.returned <= v.returned
  {
    if s.BumpStep? || s.MarkStep? || s.ClearStep? {
      InvalidationIsSafe(w, s, v);
    } else if OnLoop(s) {
      LoopStepIsSafe(w, s, v);
    } else {
      WorkerStepIsSafe(w, s, v);
    }
  }

  lemma {:induction false} StepKeepsOneBuild(w: World, s: Step, v: World)
    requires OneBuildPerKey(w) && Next(w, s, v)
    ensures OneBuildPerKey(v)
  {
    forall id | Unfinished(v, id)
      ensures v.builds[id].key in v.tasks && v.tasks[v.builds[id].key] == id
    {
      if id in w.builds {
        assert Unfinished(w, id);
      }
    }
  }

  lemma {:induction false} RunIsSafe(ws: seq<World>, steps: seq<Step>, i: nat, j: nat)
    requires IsRun(ws, steps) && i <= j < |ws|
    ensures Safe(ws[j]) && OneBuildPerKey(ws[j]) && ws[i].returned <= ws[j].returned
    decreases j
  {
    if j > 0 {
      if i < j {
        RunIsSafe(ws, steps, i, j - 1);
      } else {
        RunIsSafe(ws, steps, j - 1, j - 1);
      }
      StepIsSafe(ws[j - 1], steps[j - 1], ws[j]);
      StepKeepsOneBuild(ws[j - 1], steps[j - 1], ws[j]);
    }
  }

  /** Once invalidation `n` has returned, no later poll serves as fresh a context whose reads, its cached
      ownership included, began before it, and no later lookup finds a fresh ownership entry that did. */
  lemma {:induction false} NothingOldIsFresh(ws: seq<World>, steps: seq<Step>, i: nat, j: nat, n: nat)
    requires IsRun(ws, steps) && i <= j < |ws| && n <= ws[i].returned
    ensures forall key, now, id ::
              FreshAt(Poll(ws[j], key, now, id).1, now, CONTEXT_TTL) ==> n <= Poll(ws[j], key, now, id).1.readsBegan
    ensures forall k, now ::
              k in ws[j].ownership && FreshAt(ws[j].ownership[k], now, OWNERSHIP_TTL) ==>
                n <= ws[j].ownership[k].readsBegan
  {
    RunIsSafe(ws, steps, i, j);
  }

  /** At most one unfinished rebuild exists per cache key. */
  lemma {:induction false} AtMostOneRebuild(ws: seq<World>, steps: seq<Step>, k: nat, one: BuildId, two: BuildId)
    requires IsRun(ws, steps) && k < |ws|
    requires Unfinished(ws[k], one) && Unfinished(ws[k], two) && ws[k].builds[one].key == ws[k].builds[two].key
    ensures one == two
  {
    RunIsSafe(ws, steps, k, k);
  }

  // ---------------------------------------------------------------- the module's own state

  class Dashboard {
    var generation: nat
    var cache: map<ContextKey, Entry>
    var tasks: map<ContextKey, BuildId>
    var builds: map<BuildId, Build>
    var ownership: map<OwnershipKey, Entry>

    /** The world as the event loop sees it between its steps. */
    ghost function Now(calls: map<CallId, Call>): World
      reads this
    {
      World(generation, Idle, generation, cache, tasks, builds, ownership, calls)
    }

    constructor ()
      ensures Now(map[]) == START
    {
      generation, cache, tasks, builds, ownership := 0, map[], map[], map[], map[];
    }

    method InvalidateDashboardContext()
      modifies this
      ensures Now(map[]) == ClearOwnership(MarkStale(Bump(old(Now(map[])))))
    {
      generation := generation + 1;
      var todo := cache.Keys;
      while |todo| != 0
        invariant todo <= old(cache).Keys
        invariant cache == map k | k in old(cache) :: if k in todo then old(cache)[k] else old(cache)[k].(stamp := None)
        invariant tasks == old(tasks) && builds == old(builds) && generation == old(generation) + 1
        decreases |todo|
      {
        var k :| k in todo;
        cache := cache[k := cache[k].(stamp := None)];
        todo := todo - {k};
      }
      ownership := map[];
    }

    /** The first locked section: drop what expired, then look; None is a miss to be computed. */
    method LookUpOwnership(key: OwnershipKey, now: Time) returns (hit: Option<Entry>)
      modifies this`ownership
      ensures ownership == Expired(old(ownership), now)
      ensures hit == if key in old(ownership) && FreshAt(old(ownership)[key], now, OWNERSHIP_TTL)
                     then Some(old(ownership)[key]) else None
    {
      var todo := ownership.Keys;
      while |todo| != 0
        invariant todo <= old(ownership).Keys
        invariant ownership ==
                  map k | k in old(ownership) && (k in todo || FreshAt(old(ownership)[k], now, OWNERSHIP_TTL))
                                 :: old(ownership)[k]
        decreases |todo|
      {
        var k :| k in todo;
        if !FreshAt(ownership[k], now, OWNERSHIP_TTL) {
          ownership := ownership - {k};
        }
        todo := todo - {k};
      }
      if key in ownership && FreshAt(ownership[key], now, OWNERSHIP_TTL) {
        return Some(ownership[key]);
      }
      hit := None;
    }

    method KeepOwnership(key: OwnershipKey, captured: nat, readsBegan: nat, content: int, now: Time)
      modifies this`ownership
      ensures Now(map[]) == StoreOwnership(old(Now(map[])), key, captured, readsBegan, content, now)
    {
      if captured == generation {
        ownership := ownership[key := Entry(Some(now), readsBegan, content)];
      }
    }

    method DashboardContext(key: ContextKey, now: Time, id: BuildId) returns (served: Entry)
      modifies this
      ensures (Now(map[]), served) == Poll(old(Now(map[])), key, now, id)
    {
      if key !in cache {
        cache := cache[key := SKELETON];
      }
      served := cache[key];
      assert cache == old(cache)[key := served];
      if served.stamp.Some? && now - served.stamp.value <= CONTEXT_TTL {
        return;
      }
      if key !in tasks || tasks[key] !in builds || builds[tasks[key]].phase.Done? {
        builds := builds[id := Build(key, generation, Created)];
        tasks := tasks[key := id];
      }
    }

    method FinishRebuild(id: BuildId, now: Time)
      requires id in builds && builds[id].phase.Loaded?
      modifies this
      ensures Now(map[]) == Rebuilt(old(Now(map[])), id, now)
    {
      var b := builds[id];
      if b.key in tasks && tasks[b.key] == id {
        tasks := tasks - {b.key};
        var stamp := if b.generation == generation then Some(now) else None;
        cache := cache[b.key := Entry(stamp, b.phase.readsBegan, b.phase.content)];
      }
      builds := builds[id := b.(phase := Done)];
    }
  }
}

/** What the dashboard's polls get over whole runs: a board that is not fresh is always being rebuilt, a finished
    rebuild is served, and an invalidation takes no board off the screen. */
module DashboardRuns {
  import opened Wrappers
  import opened LifecycleModels
  import opened DashboardCache

  predicate Outdated(e: Entry, now: Time) {
    e.stamp.None? || now - e.stamp.value > 30 * SECOND
  }

  /** Some rebuild of a key has not finished. */
  ghost predicate Underway(w: World, key: ContextKey) {
    exists id :: Unfinished(w, id) && w.builds[id].key == key
  }

  lemma {:induction false} UnderwayIsNamed(w: World, key: ContextKey)
    requires OneBuildPerKey(w)
    ensures Underway(w, key) ==> key in w.tasks && Unfinished(w, w.tasks[key])
  {
  }

  /** Every rebuild a task entry names is of its key. */
  ghost predicate TasksNameTheirKey(w: World) {
    forall key :: key in w.tasks ==> w.tasks[key] in w.builds && w.builds[w.tasks[key]].key == key
  }

  lemma {:induction false} TasksStayNamed(ws: seq<World>, steps: seq<Step>, k: nat)
    requires IsRun(ws, steps) && k < |ws|
    ensures TasksNameTheirKey(ws[k])
    decreases k
  {
    if k > 0 {
      TasksStayNamed(ws, steps, k - 1);
      assert Next(ws[k - 1], steps[k - 1], ws[k]);
    }
  }

  /** What a poll of the run serves and starts: the cached board, or the skeleton; and a rebuild in the generation in
      force exactly when that board is missing, stale or older than half a minute and no rebuild of it is under way. A
      board that is not fresh is therefore being rebuilt after every poll. */
  lemma {:induction false} PollServesOrRebuilds(ws: seq<World>, steps: seq<Step>, k: nat, key: ContextKey, now: Time,
                                                id: BuildId)
    requires IsRun(ws, steps) && k < |steps| && steps[k] == PollStep(key, now, id)
    ensures var w, v, served := ws[k], ws[k + 1], Poll(ws[k], key, now, id).1;
            && served == (if key in w.cache then w.cache[key] else Entry(None, 0, 0))
            && v.cache == w.cache[key := served]
            && v.builds == (if Outdated(served, now) && !Underway(w, key)
                            then w.builds[id := Build(key, w.generation, Created)] else w.builds)
            && (Outdated(served, now) ==> Underway(v, key))
  {
    var w, v, served := ws[k], ws[k + 1], Poll(ws[k], key, now, id).1;
    assert Next(w, steps[k], v);
    RunIsSafe(ws, steps, k, k);
    TasksStayNamed(ws, steps, k);
    UnderwayIsNamed(w, key);
    if Outdated(served, now) {
      assert Unfinished(v, v.tasks[key]);
    }
  }

  /** A step that puts another board in the place of the one cached for a key, or marks it stale. */
  predicate Replaces(w: World, s: Step, key: ContextKey) {
    s.MarkStep? || (s.FinishStep? && s.id in w.builds && w.builds[s.id].key == key)
  }

  predicate BoardKept(w: World, v: World, key: ContextKey) {
    key in w.cache ==> key in v.cache && v.cache[key] == w.cache[key]
  }

  lemma {:induction false} StepKeepsBoard(w: World, s: Step, v: World, key: ContextKey)
    requires Next(w, s, v) && !Replaces(w, s, key)
    ensures BoardKept(w, v, key)
  {
  }

  lemma {:induction false} KeptThroughout(ws: seq<World>, i: nat, j: nat, key: ContextKey)
    requires i <= j < |ws| && forall k :: i <= k < j ==> BoardKept(ws[k], ws[k + 1], key)
    ensures BoardKept(ws[i], ws[j], key)
    decreases j
  {
    if i < j {
      KeptThroughout(ws, i, j - 1, key);
      assert BoardKept(ws[j - 1], ws[j - 1 + 1], key);
    }
  }

  lemma {:induction false} BoardStays(ws: seq<World>, steps: seq<Step>, i: nat, j: nat, key: ContextKey)
    requires IsRun(ws, steps) && i <= j < |ws|
    requires forall k :: i <= k < j ==> !Replaces(ws[k], steps[k], key)
    ensures BoardKept(ws[i], ws[j], key)
  {
    forall k | i <= k < j
      ensures BoardKept(ws[k], ws[k + 1], key)
    {
      StepKeepsBoard(ws[k], steps[k], ws[k + 1], key);
    }
    KeptThroughout(ws, i, j, key);
  }

  /** A finished rebuild is stored unless it was cancelled; it counts as fresh exactly when no invalidation has begun
      since it was started, and then the next poll that finds it so rebuilds nothing. */
  lemma {:induction false} RebuildIsStored(ws: seq<World>, steps: seq<Step>, i: nat, id: BuildId, t: Time)
    requires IsRun(ws, steps) && i < |steps| && steps[i] == FinishStep(id, t)
    ensures id in ws[i].builds && ws[i].builds[id].phase.Loaded?
    ensures var b, v := ws[i].builds[id], ws[i + 1];
            && b.key in v.cache && v.cache[b.key].content == b.phase.content
            && v.cache[b.key].readsBegan == b.phase.readsBegan
            && v.cache[b.key].stamp == (if b.generation < ws[i].generation then None else Some(t))
            && !Underway(v, b.key)
  {
    var w, v := ws[i], ws[i + 1];
    assert Next(w, steps[i], v);
    RunIsSafe(ws, steps, i, i);
    RunIsSafe(ws, steps, i + 1, i + 1);
    assert Unfinished(w, id) && BuildSafe(w, w.builds[id]);
    UnderwayIsNamed(v, w.builds[id].key);
  }

  /** A rebuild of the generation in force is what every poll gets for half a minute, until an invalidation or the
      next rebuild, whatever else happens meanwhile. */
  lemma {:induction false} RebuildIsServed(ws: seq<World>, steps: seq<Step>, i: nat, j: nat, id: BuildId, t: Time,
                                           now: Time, other: BuildId)
    requires IsRun(ws, steps) && i < j < |ws| && steps[i] == FinishStep(id, t) && now - t <= 30 * SECOND
    requires id in ws[i].builds && ws[i].builds[id].generation == ws[i].generation
    requires forall k :: i < k < j ==> !Replaces(ws[k], steps[k], ws[i].builds[id].key)
    ensures ws[i].builds[id].phase.Loaded?
    ensures var b := ws[i].builds[id];
            Poll(ws[j], b.key, now, other) == (ws[j], Entry(Some(t), b.phase.readsBegan, b.phase.content))
  {
    var b := ws[i].builds[id];
    RebuildIsStored(ws, steps, i, id, t);
    BoardStays(ws, steps, i + 1, j, b.key);
    assert ws[j].cache[b.key := ws[j].cache[b.key]] == ws[j].cache;
  }

  /** A step that ends a rebuild of a key. */
  predicate Rebuilds(w: World, s: Step, key: ContextKey) {
    s.FinishStep? && s.id in w.builds && w.builds[s.id].key == key
  }

  predicate ContentKept(w: World, v: World, key: ContextKey) {
    key in w.cache ==> key in v.cache && v.cache[key].content == w.cache[key].content
  }

  lemma {:induction false} StepKeepsContent(w: World, s: Step, v: World, key: ContextKey)
    requires Next(w, s, v) && !Rebuilds(w, s, key)
    ensures ContentKept(w, v, key)
  {
  }

  lemma {:induction false} ContentThroughout(ws: seq<World>, i: nat, j: nat, key: ContextKey)
    requires i <= j < |ws| && forall k :: i <= k < j ==> ContentKept(ws[k], ws[k + 1], key)
    ensures ContentKept(ws[i], ws[j], key)
    decreases j
  {
    if i < j {
      ContentThroughout(ws, i, j - 1, key);
      assert ContentKept(ws[j - 1], ws[j - 1 + 1], key);
    }
  }

  /** No invalidation takes a board off the screen: whatever happens, a cached board is displayed until a rebuild of it
      finishes. */
  lemma {:induction false} BoardStaysDisplayed(ws: seq<World>, steps: seq<Step>, i: nat, j: nat, key: ContextKey,
                                               now: Time, id: BuildId)
    requires IsRun(ws, steps) && i <= j < |ws| && key in ws[i].cache
    requires forall k :: i <= k < j ==> !Rebuilds(ws[k], steps[k], key)
    ensures Poll(ws[j], key, now, id).1.content == ws[i].cache[key].content
  {
    forall k | i <= k < j
      ensures ContentKept(ws[k], ws[k + 1], key)
    {
      StepKeepsContent(ws[k], steps[k], ws[k + 1], key);
    }
    ContentThroughout(ws, i, j, key);
  }

  // ---------------------------------------------------------------- ownership

  /** A computed ownership is kept exactly when no invalidation began since its generation was captured. */
  lemma {:induction false} OwnershipIsKeptExactlyWhen(ws: seq<World>, steps: seq<Step>, i: nat, call: CallId,
                                                      content: int, t: Time)
    requires IsRun(ws, steps) && i < |steps| && steps[i] == StoreCall(call, content, t)
    ensures call in ws[i].calls && ws[i].calls[call].readsBegan.Some?
    ensures var c, w, v := ws[i].calls[call], ws[i], ws[i + 1];
            v == if c.generation < w.generation then w
                 else w.(ownership := w.ownership[c.key := Entry(Some(t), c.readsBegan.value, content)])
  {
    assert Next(ws[i], steps[i], ws[i + 1]);
    RunIsSafe(ws, steps, i, i);
    assert CallSafe(ws[i], ws[i].calls[call]);
  }

  /** A step that may drop or replace the ownership kept for a key since time `t`. */
  predicate Drops(w: World, s: Step, key: OwnershipKey, t: Time) {
    || s.ClearStep? || (s.StoreCall? && s.call in w.calls && w.calls[s.call].key == key)
    || (s.ExpireOwnership? && s.now - t > 60 * SECOND)
  }

  predicate EntryKept(w: World, v: World, key: OwnershipKey, t: Time) {
    key in w.ownership && w.ownership[key].stamp == Some(t) ==>
      key in v.ownership && v.ownership[key] == w.ownership[key]
  }

  lemma {:induction false} StepKeepsEntry(w: World, s: Step, v: World, key: OwnershipKey, t: Time)
    requires Next(w, s, v) && !Drops(w, s, key, t)
    ensures EntryKept(w, v, key, t)
  {
  }

  lemma {:induction false} EntryThroughout(ws: seq<World>, i: nat, j: nat, key: OwnershipKey, t: Time)
    requires i <= j < |ws| && forall k :: i <= k < j ==> EntryKept(ws[k], ws[k + 1], key, t)
    ensures EntryKept(ws[i], ws[j], key, t)
    decreases j
  {
    if i < j {
      EntryThroughout(ws, i, j - 1, key, t);
      assert EntryKept(ws[j - 1], ws[j - 1 + 1], key, t);
    }
  }

  /** And it is found for a minute, until an invalidation or a newer one of its key. */
  lemma {:induction false} OwnershipStays(ws: seq<World>, steps: seq<Step>, i: nat, j: nat, key: OwnershipKey, t: Time)
    requires IsRun(ws, steps) && i <= j < |ws| && key in ws[i].ownership && ws[i].ownership[key].stamp == Some(t)
    requires forall k :: i <= k < j ==> !Drops(ws[k], steps[k], key, t)
    ensures key in ws[j].ownership && ws[j].ownership[key] == ws[i].ownership[key]
  {
    forall k | i <= k < j
      ensures EntryKept(ws[k], ws[k + 1], key, t)
    {
      StepKeepsEntry(ws[k], steps[k], ws[k + 1], key, t);
    }
    EntryThroughout(ws, i, j, key, t);
  }

  /** An entry older than a minute is dropped by the next look at the cache, and never used by a build. */
  lemma {:induction false} OldOwnershipGoes(w: World, s: Step, v: World, key: OwnershipKey, now: Time)
    requires Next(w, s, v) && key in w.ownership && Outlived(w.ownership[key], now)
    ensures s == ExpireOwnership(now) ==> key !in v.ownership
    ensures !(s.UseOwnership? && s.ownershipKey == key && s.now == now)
  {
  }

  predicate Outlived(e: Entry, now: Time) {
    e.stamp.None? || now - e.stamp.value > 60 * SECOND
  }
}

/** No invalidation is lost: every interleaving of events, plans and acknowledgements. */
module ObservationRuns {
  import opened Wrappers
  import opened LifecycleModels
  import opened Observation

  /** An acknowledgement names the step at which its plan was asked for. */
  datatype Act =
    | Event(key: HeadKey, slices: set<Slice>, reason: Reason, now: Time)
    | Asked(key: HeadKey, now: Time, ciPending: Option<bool>, force: bool)
    | Acked(asked: nat, now: Time, ciSeen: bool)
    | Pruned(active: set<HeadKey>)

  function StatesAt(acts: seq<Act>, k: nat, c: Config): States
    requires k <= |acts|
    decreases k, 1
  {
    if k == 0 then map[]
    else
      var before := StatesAt(acts, k - 1, c);
      match acts[k - 1]
      case Event(key, slices, reason, now) =>
        if slices == {} then before else before[key := Invalidated(Find(before, key), slices, reason, now)]
      case Asked(_, _, _, _) => before
      case Acked(asked, now, ciSeen) =>
        if asked < k - 1 && PlanAt(acts, asked, c).Some? then
          var plan := PlanAt(acts, asked, c).value;
          before[plan.key := Acknowledged(Find(before, plan.key), plan, now, ciSeen)]
        else before
      case Pruned(active) => map key | key in before && key in active :: before[key]
  }

  /** The plan issued by step `p`, if that step asked for one and got it. */
  function PlanAt(acts: seq<Act>, p: nat, c: Config): Option<Plan>
    requires p < |acts|
    decreases p, 2
  {
    if acts[p].Asked? then
      var r := PlanOf(acts[p].key, Find(StatesAt(acts, p, c), acts[p].key), acts[p].now, acts[p].ciPending,
                      acts[p].force, c);
      if r.Ok? then r.value else None
    else None
  }

  /** In every reachable controller the two RuntimeErrors of plan_for cannot be raised. */
  lemma {:induction false} NeverFaults(acts: seq<Act>, k: nat, c: Config)
    requires k <= |acts|
    ensures forall key :: key in StatesAt(acts, k, c) ==> WellFormed(StatesAt(acts, k, c)[key])
    ensures forall key, now, ciPending, force ::
              PlanOf(key, Find(StatesAt(acts, k, c), key), now, ciPending, force, c).Ok?
  {
    if k > 0 {
      NeverFaults(acts, k - 1, c);
    }
  }

  predicate Hits(a: Act, key: HeadKey, s: Slice) {
    a.Event? && a.key == key && s in a.slices
  }

  predicate Drops(a: Act, key: HeadKey) {
    a.Pruned? && key !in a.active
  }

  // ---------------------------------------------------------------- since the last drop

  /** Where the head's current tracking began: just after the prune that last dropped it, or at the start. */
  function Dropped(acts: seq<Act>, k: nat, key: HeadKey): (d: nat)
    requires k <= |acts|
    ensures d <= k && forall j :: d <= j < k ==> !Drops(acts[j], key)
  {
    if k == 0 then 0 else if Drops(acts[k - 1], key) then k else Dropped(acts, k - 1, key)
  }

  /** The number of events on a slice before step `k` and since the last drop, and the step of the last of
      them, or -1. */
  function Count(acts: seq<Act>, k: nat, key: HeadKey, s: Slice): nat
    requires k <= |acts|
  {
    if k == 0 || Drops(acts[k - 1], key) then 0
    else Count(acts, k - 1, key, s) + if Hits(acts[k - 1], key, s) then 1 else 0
  }

  function LastHit(acts: seq<Act>, k: nat, key: HeadKey, s: Slice): (e: int)
    requires k <= |acts|
    ensures -1 <= e < k && (0 <= e ==> Dropped(acts, k, key) <= e && Hits(acts[e], key, s))
    ensures forall j :: e < j < k && Dropped(acts, k, key) <= j ==> !Hits(acts[j], key, s)
  {
    if k == 0 || Drops(acts[k - 1], key) then -1
    else if Hits(acts[k - 1], key, s) then k - 1 else LastHit(acts, k - 1, key, s)
  }

  /** Within one tracking, counts are equal exactly when no event came in between. */
  lemma {:induction false} CountGrows(acts: seq<Act>, i: nat, j: nat, key: HeadKey, s: Slice)
    requires i <= j <= |acts| && Dropped(acts, j, key) <= i
    ensures Count(acts, i, key, s) <= Count(acts, j, key, s)
    ensures Count(acts, i, key, s) == Count(acts, j, key, s) <==> LastHit(acts, j, key, s) < i
    ensures Count(acts, j, key, s) == 0 <==> LastHit(acts, j, key, s) == -1
    decreases j
  {
    if i < j {
      CountGrows(acts, i, j - 1, key, s);
    } else if j > 0 && !Drops(acts[j - 1], key) {
      CountGrows(acts, j - 1, j - 1, key, s);
    }
  }

  /** A slice's generation is the number of events that hit it since the head was last dropped; for a head not
      tracked there were none. */
  lemma {:induction false} GenerationCounts(acts: seq<Act>, k: nat, key: HeadKey, s: Slice, c: Config)
    requires k <= |acts|
    ensures key in StatesAt(acts, k, c) ==> StatesAt(acts, k, c)[key].generations.Get(s) == Count(acts, k, key, s)
    ensures key !in StatesAt(acts, k, c) ==> Count(acts, k, key, s) == 0
  {
    if k > 0 {
      GenerationCounts(acts, k - 1, key, s, c);
    }
  }

  // ---------------------------------------------------------------- which acknowledgements clear a slice

  /** Step `a` acknowledges a plan made for the slice. */
  predicate Acks(acts: seq<Act>, a: nat, key: HeadKey, s: Slice, c: Config)
    requires a < |acts|
  {
    && acts[a].Acked? && acts[a].asked < a
    && PlanAt(acts, acts[a].asked, c).Some?
    && PlanAt(acts, acts[a].asked, c).value.key == key && s in PlanAt(acts, acts[a].asked, c).value.slices
  }

  /** Step `a`, after the event at `e`, acknowledges a plan that was issued after that event; or one issued
      before the head was last dropped, when as many events had been counted as have been again since. */
  predicate Clears(acts: seq<Act>, a: nat, e: int, key: HeadKey, s: Slice, c: Config)
    requires a < |acts|
  {
    && e < a && Acks(acts, a, key, s, c)
    && var p := acts[a].asked;
       if Dropped(acts, a, key) <= p then e < p else Count(acts, p, key, s) == Count(acts, a, key, s)
  }

  ghost predicate Cleared(acts: seq<Act>, k: nat, e: int, key: HeadKey, s: Slice, c: Config)
    requires k <= |acts|
  {
    exists a: nat :: a < k && Clears(acts, a, e, key, s, c)
  }

  predicate Marked(acts: seq<Act>, k: nat, key: HeadKey, s: Slice, c: Config)
    requires k <= |acts|
  {
    key in StatesAt(acts, k, c) && s in StatesAt(acts, k, c)[key].invalidated
  }

  lemma {:induction false} PlanRecords(acts: seq<Act>, p: nat, key: HeadKey, s: Slice, c: Config)
    requires p < |acts|
    requires PlanAt(acts, p, c).Some? && PlanAt(acts, p, c).value.key == key && s in PlanAt(acts, p, c).value.slices
    ensures var g := PlanAt(acts, p, c).value.generations;
            if s in g then g[s] == Count(acts, p, key, s) else Count(acts, p, key, s) == 0
  {
    GenerationCounts(acts, p, key, s, c);
  }

  /** What one acknowledgement does to one slice. */
  lemma {:induction false} AckStep(acts: seq<Act>, k: nat, key: HeadKey, s: Slice, c: Config)
    requires k < |acts| && acts[k].Acked?
    requires Marked(acts, k, key, s, c) ==> 0 <= LastHit(acts, k, key, s)
    ensures var e := LastHit(acts, k, key, s);
            Marked(acts, k + 1, key, s, c) <==> Marked(acts, k, key, s, c) && !Clears(acts, k, e, key, s, c)
  {
    GenerationCounts(acts, k, key, s, c);
    if Marked(acts, k, key, s, c) && Acks(acts, k, key, s, c) {
      var p := acts[k].asked;
      PlanRecords(acts, p, key, s, c);
      CountGrows(acts, k, k, key, s);
      assert acts[p].Asked? && !Hits(acts[p], key, s);
      if Dropped(acts, k, key) <= p {
        CountGrows(acts, p, k, key, s);
      }
    }
  }

  lemma {:induction false} ClearedStep(acts: seq<Act>, k: nat, e: int, key: HeadKey, s: Slice, c: Config)
    requires k < |acts|
    ensures Cleared(acts, k + 1, e, key, s, c) <==> Cleared(acts, k, e, key, s, c) || Clears(acts, k, e, key, s, c)
    ensures k <= e ==> !Cleared(acts, k + 1, e, key, s, c)
  {
    if Cleared(acts, k + 1, e, key, s, c) {
      var a: nat :| a < k + 1 && Clears(acts, a, e, key, s, c);
      assert a < k ==> Cleared(acts, k, e, key, s, c);
    }
    if Clears(acts, k, e, key, s, c) {
      assert Cleared(acts, k + 1, e, key, s, c);
    }
  }

  /** What every other step does to one slice: an event marks it, a drop forgets it, nothing else touches it. */
  lemma {:induction false} OtherStep(acts: seq<Act>, k: nat, key: HeadKey, s: Slice, c: Config)
    requires k < |acts| && !acts[k].Acked?
    ensures Marked(acts, k + 1, key, s, c) <==>
            Hits(acts[k], key, s) || (Marked(acts, k, key, s, c) && !Drops(acts[k], key))
  {
  }

  /** The slice was hit since the head was last dropped, and no acknowledgement after the last hit clears it. */
  ghost predicate Kept(acts: seq<Act>, k: nat, key: HeadKey, s: Slice, c: Config)
    requires k <= |acts|
  {
    0 <= LastHit(acts, k, key, s) && !Cleared(acts, k, LastHit(acts, k, key, s), key, s, c)
  }

  lemma {:induction false} KeptAfterAck(acts: seq<Act>, k: nat, key: HeadKey, s: Slice, c: Config)
    requires k < |acts| && acts[k].Acked?
    ensures Kept(acts, k + 1, key, s, c) <==>
            Kept(acts, k, key, s, c) && !Clears(acts, k, LastHit(acts, k, key, s), key, s, c)
  {
    ClearedStep(acts, k, LastHit(acts, k, key, s), key, s, c);
  }

  lemma {:induction false} KeptAfterOther(acts: seq<Act>, k: nat, key: HeadKey, s: Slice, c: Config)
    requires k < |acts| && !acts[k].Acked?
    ensures Kept(acts, k + 1, key, s, c) <==>
            Hits(acts[k], key, s) || (Kept(acts, k, key, s, c) && !Drops(acts[k], key))
  {
    ClearedStep(acts, k, LastHit(acts, k + 1, key, s), key, s, c);
  }

  /** Exactly when a slice is marked invalidated, over all interleavings with prunes anywhere: it was hit since
      the head was last dropped, and no later acknowledgement clears it. */
  lemma {:induction false} MarkedExactlyWhen(acts: seq<Act>, k: nat, key: HeadKey, s: Slice, c: Config)
    requires k <= |acts|
    ensures Marked(acts, k, key, s, c) <==> Kept(acts, k, key, s, c)
  {
    if k > 0 {
      var n := k - 1;
      MarkedExactlyWhen(acts, n, key, s, c);
      if acts[n].Acked? {
        AckStep(acts, n, key, s, c);
        KeptAfterAck(acts, n, key, s, c);
      } else {
        OtherStep(acts, n, key, s, c);
        KeptAfterOther(acts, n, key, s, c);
      }
    }
  }

  // ---------------------------------------------------------------- when nothing is lost

  /** Step `a` acknowledges a plan for the slice that was asked for after step `e`. */
  predicate Answers(acts: seq<Act>, a: nat, e: int, key: HeadKey, s: Slice, c: Config)
    requires a < |acts|
  {
    Acks(acts, a, key, s, c) && e < acts[a].asked
  }

  /** The event at `e` was lost: nothing that looked after it has answered, and yet the mark is gone. */
  ghost predicate Lost(acts: seq<Act>, k: nat, e: int, key: HeadKey, s: Slice, c: Config)
    requires k <= |acts|
  {
    && 0 <= e && !Marked(acts, k, key, s, c)
    && forall a: nat :: a < k ==> !Answers(acts, a, e, key, s, c)
  }

  /** Step `a` acknowledges a plan older than the last drop at which the count was the same as now. */
  predicate Stale(acts: seq<Act>, a: nat, key: HeadKey, s: Slice, c: Config)
    requires a < |acts|
  {
    && Acks(acts, a, key, s, c) && acts[a].asked < Dropped(acts, a, key)
    && Count(acts, acts[a].asked, key, s) == Count(acts, a, key, s)
  }

  /** Which acknowledgements lose an event: the last one since the head was dropped is lost exactly when no plan
      issued after it was acknowledged and, after it, a plan was that was issued before that drop, with the same
      number of events then as since. */
  lemma {:induction false} LostExactlyWhen(acts: seq<Act>, k: nat, key: HeadKey, s: Slice, c: Config)
    requires k <= |acts|
    ensures var e := LastHit(acts, k, key, s);
            Lost(acts, k, e, key, s, c) <==>
              && 0 <= e && (forall a: nat :: a < k ==> !Answers(acts, a, e, key, s, c))
              && exists a: nat :: e < a < k && Stale(acts, a, key, s, c)
  {
    var e := LastHit(acts, k, key, s);
    MarkedExactlyWhen(acts, k, key, s, c);
    if Lost(acts, k, e, key, s, c) {
      var a: nat :| a < k && Clears(acts, a, e, key, s, c);
      assert !Answers(acts, a, e, key, s, c);
      assert Stale(acts, a, key, s, c);
    }
    if a: nat :| e < a < k && Stale(acts, a, key, s, c) {
      assert Clears(acts, a, e, key, s, c);
    }
  }

  /** No prune drops the head between a plan for it and the acknowledgement of that plan. */
  ghost predicate PlansOutlivePrunes(acts: seq<Act>, key: HeadKey, s: Slice, c: Config) {
    forall a: nat :: a < |acts| && Acks(acts, a, key, s, c) ==> Dropped(acts, a, key) <= acts[a].asked
  }

  lemma {:induction false} DroppedStays(acts: seq<Act>, d: nat, k: nat, key: HeadKey)
    requires d <= k <= |acts| && Dropped(acts, k, key) <= d
    ensures Dropped(acts, d, key) == Dropped(acts, k, key)
    decreases k
  {
    if d < k {
      DroppedStays(acts, d, k - 1, key);
    }
  }

  /** A slice is marked invalidated exactly when its latest event is not followed by a plan containing that slice
      which was issued after the event and later acknowledged. Prunes may come at any other time. */
  lemma {:induction false} NoInvalidationIsLost(acts: seq<Act>, k: nat, key: HeadKey, s: Slice, c: Config)
    requires k <= |acts| && PlansOutlivePrunes(acts, key, s, c)
    ensures var e := LastHit(acts, k, key, s);
            Marked(acts, k, key, s, c) <==> 0 <= e && forall a: nat :: a < k ==> !Answers(acts, a, e, key, s, c)
  {
    var e := LastHit(acts, k, key, s);
    MarkedExactlyWhen(acts, k, key, s, c);
    LostExactlyWhen(acts, k, key, s, c);
    if a: nat :| 0 <= e && a < k && Answers(acts, a, e, key, s, c) {
      DroppedStays(acts, a, k, key);
      assert Clears(acts, a, e, key, s, c);
    }
  }

  /** The proviso is needed: a head is dropped between a plan and its acknowledgement, and the newer event, which
      nothing looked at, is lost. */
  lemma {:induction false} PruneLosesAnEvent(key: HeadKey, c: Config) returns (acts: seq<Act>)
    requires c == Config(2, 30, 900, 3600)
    ensures |acts| == 5 && LastHit(acts, 5, key, Ci) == 3 && Lost(acts, 5, 3, key, Ci, c)
  {
    var hit := Event(key, {Ci}, EventReason, 0);
    acts := [hit, Asked(key, 10, None, false), Pruned({}), hit, Acked(1, 20, false)];
    var st := Invalidated(None, {Ci}, EventReason, 0);
    assert StatesAt(acts, 1, c) == map[key := st];
    assert PlanAt(acts, 1, c).Some? && PlanAt(acts, 1, c).value.generations[Ci] == 1;
    assert StatesAt(acts, 2, c) == map[key := st];
    assert StatesAt(acts, 3, c) == map[];
    assert StatesAt(acts, 4, c) == map[key := st];
    assert StatesAt(acts, 5, c)[key] == Acknowledged(Some(st), PlanAt(acts, 1, c).value, 20, false);
  }
}

/** The drain's promise by pull request: unless a hand-over meets another pull request under one identity, a number
    once recorded stays listed until its pull request is seen merged or closed. */
module OpenPrs {
  import opened Wrappers
  import opened LifecycleModels
  import opened LifecycleStore
  import opened StoreRuns
  import opened Workflow
  import opened NeverDropped

  ghost predicate CarriesPr(intents: map<IngressId, Record>, id: IngressId, n: Pos) {
    Listable(intents, id) && intents[id].intent.prNumber == Some(n)
  }

  /** A drain that may list a record with the number. */
  ghost predicate PrListed(run: Run, t: nat, n: Pos)
    requires t < |run.states|
  {
    exists id :: CarriesPr(IntentsAt(run, t), id, n)
  }

  /** A settlement asked for before `t` because the pull request was seen merged or closed. */
  ghost predicate SettledGone(run: Run, turns: map<nat, Turn>, b: nat, n: Pos) {
    && b < |run.events| && run.events[b].Begin? && run.events[b].req.Settle? && b in turns && turns[b].resolved.Some?
    && (turns[b].resolved.value.state == Merged || turns[b].resolved.value.state == Closed)
    && turns[b].resolved.value.number == n
  }

  ghost predicate PrSeenGone(run: Run, turns: map<nat, Turn>, t: nat, n: Pos) {
    exists b: nat :: b < t && SettledGone(run, turns, b, n)
  }

  /** The request begun at `k` marks a record that was read without a number. */
  ghost predicate Unnumbered(run: Run, k: nat)
    requires Fenced(run) && k < |run.events| && run.events[k].Begin? && run.events[k].req.MarkNoPr?
  {
    assert ReadBefore(run, k, run.events[k].req, run.events[k].readAt);
    ReadRecord(run, k).intent.prNumber.None?
  }

  /** A drain marks a record as having no pull request only when it knows of none. */
  ghost predicate MarksUnnumbered(run: Run)
    requires Fenced(run)
  {
    forall k: nat :: k < |run.events| && run.events[k].Begin? && run.events[k].req.MarkNoPr? ==> Unnumbered(run, k)
  }

  /** The replacement the settlement begun at `k` makes way for met no live intent of another number. */
  ghost predicate MeetsNoOther(run: Run, turns: map<nat, Turn>, k: nat)
    requires Fenced(run) && k < |run.events| && run.events[k].Begin? && run.events[k].req.Settle?
    requires Decided(run, turns, k)
  {
    assert ReadBefore(run, k, run.events[k].req, run.events[k].readAt);
    var action := Decision(run, turns, k);
    !action.Retire? ==>
      var id, before := IngressOf(action.replacement), IntentsAt(run, turns[k].enqueuedAt);
      Listable(before, id) && before[id].intent.prNumber.Some? ==>
        before[id].intent.prNumber == Some(action.key.prNumber)
  }

  ghost predicate NoneMeet(run: Run, turns: map<nat, Turn>)
    requires DrainDecides(run, turns)
  {
    forall k: nat :: k < |run.events| && run.events[k].Begin? && run.events[k].req.Settle? ==>
      MeetsNoOther(run, turns, k)
  }

  lemma {:induction false} MarkedIsUnnumbered(run: Run, k: nat)
    requires Fenced(run) && MarksUnnumbered(run)
    requires k < |run.events| && run.events[k].Begin? && run.events[k].req.MarkNoPr?
    ensures run.events[k].readAt < |run.states|
    ensures IngressOf(run.events[k].req.intent) in IntentsAt(run, run.events[k].readAt)
    ensures ReadRecord(run, k).intent.prNumber.None?
  {
    assert ReadBefore(run, k, run.events[k].req, run.events[k].readAt);
    assert Unnumbered(run, k);
  }

  lemma {:induction false} PlanKeepsPr(disk: Disk, q: Request, n: Pos)
    requires AllLinked(disk.intents) && PlanFor(disk, q).Ok? && CarriesPr(disk.intents, IngressOf(q.intent), n)
    requires !q.Settle? && !q.MarkNoPr?
    ensures var plan := PlanFor(disk, q).value;
            plan.id == IngressOf(q.intent) && plan.record.state != Settled && plan.record.intent.prNumber == Some(n)
  {
    assert Linked(IngressOf(q.intent), disk.intents[IngressOf(q.intent)]);
  }

  /** A record that carries the number loses it only to a settlement. */
  lemma {:induction false} OneEvent(run: Run, k: nat, id: IngressId, n: Pos)
    requires Fenced(run) && MarksUnnumbered(run) && k < |run.events| && CarriesPr(IntentsAt(run, k), id, n)
    ensures CarriesPr(IntentsAt(run, k + 1), id, n) || (CommitsTo(run, id, k) && run.states[k].holder.value.req.Settle?)
  {
    CommitStep(run, id, k);
    if CommitsTo(run, id, k) && !run.states[k].holder.value.req.Settle? {
      FinishChangesRecord(run, k);
      ReachableIsSound(run, k);
      if run.states[k].holder.value.req.MarkNoPr? {
        var b := CommitSeesWhatWasRead(run, k);
        MarkedIsUnnumbered(run, b);
        assert false;
      }
      PlanKeepsPr(run.states[k].disk, run.states[k].holder.value.req, n);
    }
  }

  lemma {:induction false} LiveUntil(run: Run, s: nat, t: nat, id: IngressId, n: Pos) returns (c: nat)
    requires Fenced(run) && MarksUnnumbered(run) && s <= t < |run.states| && CarriesPr(IntentsAt(run, s), id, n)
    ensures s <= c <= t && CarriesPr(IntentsAt(run, c), id, n)
    ensures c < t ==> CommitsTo(run, id, c) && run.states[c].holder.value.req.Settle?
    decreases t - s
  {
    c := s;
    if s < t {
      OneEvent(run, s, id, n);
      if CarriesPr(IntentsAt(run, s + 1), id, n) {
        c := LiveUntil(run, s + 1, t, id, n);
      }
    }
  }

  /** Where the settlement that commits at `c` began, and what it was decided on. */
  lemma {:induction false} SettledBy(run: Run, turns: map<nat, Turn>, c: nat, id: IngressId, n: Pos) returns (b: nat)
    requires DrainDecides(run, turns) && c < |run.events| && CarriesPr(IntentsAt(run, c), id, n)
    requires CommitsTo(run, id, c) && run.states[c].holder.value.req.Settle?
    ensures b < c && run.events[b].Begin? && run.events[b].req.Settle? && Decided(run, turns, b)
    ensures IngressOf(run.events[b].req.intent) == id && forall m :: b < m < c ==> run.events[m] != Finish
    ensures run.events[b].readAt <= b && id in IntentsAt(run, run.events[b].readAt)
    ensures ReadRecord(run, b).intent.prNumber == Some(n) && Decision(run, turns, b).key.prNumber == n
  {
    FinishChangesRecord(run, c);
    b := HolderBegan(run, c);
    FenceHolds(run, b);
    assert Decided(run, turns, b);
  }

  /** The replacement carries the number on, from the event that committed its enqueue. */
  lemma {:induction false} HandedOn(run: Run, turns: map<nat, Turn>, b: nat, n: Pos) returns (heir: IngressId, e: nat)
    requires DrainDecides(run, turns) && NoneMeet(run, turns)
    requires b < |run.events| && run.events[b].Begin? && run.events[b].req.Settle? && Decided(run, turns, b)
    requires run.events[b].readAt <= b && IngressOf(run.events[b].req.intent) in IntentsAt(run, run.events[b].readAt)
    requires ReadRecord(run, b).intent.prNumber == Some(n) && Decision(run, turns, b).key.prNumber == n
    requires !Decision(run, turns, b).Retire?
    ensures run.events[b].readAt <= e < b && CommitsEnqueue(run, e, heir) && CarriesPr(IntentsAt(run, e + 1), heir, n)
  {
    var action := Decision(run, turns, b);
    heir, e := IngressOf(action.replacement), turns[b].enqueuedAt;
    assert MeetsNoOther(run, turns, b);
    FinishChangesRecord(run, e);
    ReachableIsSound(run, e);
    var existing := Lookup(IntentsAt(run, e), heir);
    assert existing.Some? ==> Linked(heir, existing.value);
    EnqueuedPr(existing, action.replacement);
  }

  lemma {:induction false} GoneBy(run: Run, turns: map<nat, Turn>, b: nat, n: Pos)
    requires DrainDecides(run, turns)
    requires b < |run.events| && run.events[b].Begin? && run.events[b].req.Settle? && Decided(run, turns, b)
    requires run.events[b].readAt <= b && IngressOf(run.events[b].req.intent) in IntentsAt(run, run.events[b].readAt)
    requires Decision(run, turns, b).Retire? && Decision(run, turns, b).key.prNumber == n
    ensures SettledGone(run, turns, b, n)
  {
  }

  lemma {:induction false} FollowPr(run: Run, turns: map<nat, Turn>, t: nat, heir: IngressId, e: nat, n: Pos)
    requires DrainDecides(run, turns) && MarksUnnumbered(run) && NoneMeet(run, turns) && e < t < |run.states|
    requires CommitsEnqueue(run, e, heir) && CarriesPr(IntentsAt(run, e + 1), heir, n)
    ensures PrListed(run, t, n) || PrSeenGone(run, turns, t, n)
    decreases t - e
  {
    var c := LiveUntil(run, e + 1, t, heir, n);
    if c < t {
      var b := SettledBy(run, turns, c, heir, n);
      if Decision(run, turns, b).Retire? {
        GoneBy(run, turns, b, n);
      } else {
        FinishChangesRecord(run, e);
        CommitFencesOff(run, b, e);
        var next, e' := HandedOn(run, turns, b, n);
        FollowPr(run, turns, t, next, e', n);
      }
    }
  }

  /** In every run of drain decisions, under any interleaving and crash, in which no hand-over meets a live intent of
      another pull request: a number carried by a listed record at some point is carried by one at every later point,
      or its pull request was seen merged or closed. */
  lemma {:induction false} PrNeverDropped(run: Run, turns: map<nat, Turn>, s: nat, t: nat, id: IngressId, n: Pos)
    requires DrainDecides(run, turns) && MarksUnnumbered(run) && NoneMeet(run, turns) && s <= t < |run.states|
    requires CarriesPr(IntentsAt(run, s), id, n)
    ensures PrListed(run, t, n) || PrSeenGone(run, turns, t, n)
  {
    var c := LiveUntil(run, s, t, id, n);
    if c < t {
      var b := SettledBy(run, turns, c, id, n);
      if Decision(run, turns, b).Retire? {
        GoneBy(run, turns, b, n);
      } else {
        var heir, e := HandedOn(run, turns, b, n);
        FollowPr(run, turns, t, heir, e, n);
      }
    }
  }
}

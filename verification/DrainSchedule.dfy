/** The bounded drain: how it counts outcomes, and how long an intent can wait for its turn. */
module DrainSchedule {
  import opened Wrappers
  import opened LifecycleModels
  import opened Workflow

  // ---------------------------------------------------------------- counting

  datatype DrainResult = DrainResult(examined: int, progressed: int, noPr: int, deferred: int, failed: int)

  /** _count_outcome */
  function CountOutcome(r: DrainResult, o: Outcome): DrainResult {
    match o
    case Progressed => r.(examined := r.examined + 1, progressed := r.progressed + 1)
    case NoPrFound => r.(examined := r.examined + 1, noPr := r.noPr + 1)
    case Deferred => r.(examined := r.examined + 1, deferred := r.deferred + 1)
    case Failed => r.(examined := r.examined + 1, failed := r.failed + 1)
  }

  /** What happens to one batch record: its lookup raised, resolution ended its turn, or it goes on to
      be observed with the group of its case-folded repository, where it may be missing from the answer. */
  datatype Turn = LookupRaised | Ended(outcome: Outcome) | GoesOn(repository: string, consumed: Option<Outcome>)

  type Going = t: Turn | t.GoesOn? witness GoesOn("", None)

  /** `broken` holds the repositories whose group observation raised. */
  function OutcomeOf(t: Turn, broken: set<string>): Outcome {
    match t
    case LookupRaised => Deferred
    case Ended(outcome) => outcome
    case GoesOn(repository, consumed) =>
      if repository in broken || consumed.None? then Deferred else consumed.value
  }

  function One(o: Outcome, column: Outcome): int {
    if o == column then 1 else 0
  }

  /** How many of the first `n` turns end in an outcome. */
  function Times(ts: seq<Turn>, n: nat, o: Outcome, broken: set<string>): int
    requires n <= |ts|
  {
    if n == 0 then 0 else Times(ts, n - 1, o, broken) + One(OutcomeOf(ts[n - 1], broken), o)
  }

  lemma {:induction false} TimesAgree(a: seq<Turn>, b: seq<Turn>, n: nat, o: Outcome, broken: set<string>)
    requires n <= |a| && n <= |b| && forall k :: 0 <= k < n ==> a[k] == b[k]
    ensures Times(a, n, o, broken) == Times(b, n, o, broken)
  {
    if n > 0 {
      TimesAgree(a, b, n - 1, o, broken);
    }
  }

  /** A turn counts as deferred when its lookup raised, its group could not be observed, or it is missing from the
      answer; otherwise as what resolution or the observation made of it. */
  predicate CountsAs(t: Turn, o: Outcome, broken: set<string>) {
    var lost := t.LookupRaised? || (t.GoesOn? && (t.repository in broken || t.consumed.None?));
    if lost then o == Deferred else t == Ended(o) || (t.GoesOn? && t.consumed == Some(o))
  }

  function Counting(ts: seq<Turn>, n: nat, o: Outcome, broken: set<string>): set<nat>
    requires n <= |ts|
  {
    set k: nat | k < n && CountsAs(ts[k], o, broken)
  }

  lemma {:induction false} CountsAsMeans(t: Turn, o: Outcome, broken: set<string>)
    ensures CountsAs(t, o, broken) <==> OutcomeOf(t, broken) == o
  {
  }

  lemma {:induction false} OneMore(one: set<nat>, two: set<nat>, m: nat, more: bool)
    requires m !in one && forall k: nat :: k in two <==> k in one || (more && k == m)
    ensures |two| == |one| + if more then 1 else 0
  {
    assert two == if more then one + {m} else one;
  }

  lemma {:induction false} CountingStep(ts: seq<Turn>, n: nat, o: Outcome, broken: set<string>)
    requires 0 < n <= |ts|
    ensures |Counting(ts, n, o, broken)|
         == |Counting(ts, n - 1, o, broken)| + if CountsAs(ts[n - 1], o, broken) then 1 else 0
  {
    var more := CountsAs(ts[n - 1], o, broken);
    OneMore(Counting(ts, n - 1, o, broken), Counting(ts, n, o, broken), n - 1, more);
  }

  /** A column holds as many as there are turns that count so. */
  lemma {:induction false} TimesCounts(ts: seq<Turn>, n: nat, o: Outcome, broken: set<string>)
    requires n <= |ts|
    ensures Times(ts, n, o, broken) == |Counting(ts, n, o, broken)|
  {
    if n > 0 {
      TimesCounts(ts, n - 1, o, broken);
      CountingStep(ts, n, o, broken);
      CountsAsMeans(ts[n - 1], o, broken);
    }
  }

  /** The summary of a drain that met exactly the first `n` turns. */
  function Tally(ts: seq<Turn>, n: nat, broken: set<string>): DrainResult
    requires n <= |ts|
  {
    DrainResult(n, Times(ts, n, Progressed, broken), Times(ts, n, NoPrFound, broken), Times(ts, n, Deferred, broken),
                Times(ts, n, Failed, broken))
  }

  /** Every turn is in exactly one column. */
  lemma {:induction false} ColumnsAddUp(ts: seq<Turn>, n: nat, broken: set<string>)
    requires n <= |ts|
    ensures var r := Tally(ts, n, broken);
            r.examined == r.progressed + r.noPr + r.deferred + r.failed
  {
    if n > 0 {
      ColumnsAddUp(ts, n - 1, broken);
    }
  }

  lemma {:induction false} TallyAppend(ts: seq<Turn>, t: Turn, broken: set<string>)
    ensures Tally(ts + [t], |ts| + 1, broken) == CountOutcome(Tally(ts, |ts|, broken), OutcomeOf(t, broken))
  {
    TimesAgree(ts, ts + [t], |ts|, Progressed, broken);
    TimesAgree(ts, ts + [t], |ts|, NoPrFound, broken);
    TimesAgree(ts, ts + [t], |ts|, Deferred, broken);
    TimesAgree(ts, ts + [t], |ts|, Failed, broken);
  }

  /** `c` counts what `a` and `b` count. */
  predicate Sum(a: DrainResult, b: DrainResult, c: DrainResult) {
    && a.examined + b.examined == c.examined && a.progressed + b.progressed == c.progressed
    && a.noPr + b.noPr == c.noPr && a.deferred + b.deferred == c.deferred && a.failed + b.failed == c.failed
  }

  datatype Group = Group(repository: string, turns: seq<Going>)

  function GroupTimes(gs: seq<Group>, n: nat, o: Outcome, broken: set<string>): int
    requires n <= |gs|
  {
    if n == 0 then 0 else GroupTimes(gs, n - 1, o, broken) + Times(gs[n - 1].turns, |gs[n - 1].turns|, o, broken)
  }

  function GroupSizes(gs: seq<Group>, n: nat): int
    requires n <= |gs|
  {
    if n == 0 then 0 else GroupSizes(gs, n - 1) + |gs[n - 1].turns|
  }

  function GroupTally(gs: seq<Group>, n: nat, broken: set<string>): DrainResult
    requires n <= |gs|
  {
    DrainResult(GroupSizes(gs, n), GroupTimes(gs, n, Progressed, broken), GroupTimes(gs, n, NoPrFound, broken),
                GroupTimes(gs, n, Deferred, broken), GroupTimes(gs, n, Failed, broken))
  }

  lemma {:induction false} GroupsAgree(a: seq<Group>, b: seq<Group>, n: nat, o: Outcome, broken: set<string>)
    requires n <= |a| && n <= |b| && forall k :: 0 <= k < n ==> a[k] == b[k]
    ensures GroupTimes(a, n, o, broken) == GroupTimes(b, n, o, broken) && GroupSizes(a, n) == GroupSizes(b, n)
  {
    if n > 0 {
      GroupsAgree(a, b, n - 1, o, broken);
    }
  }

  /** Adding a turn to group `i` adds its outcome to every sum that covers that group. */
  lemma {:induction false} GrowGroup(gs: seq<Group>, i: nat, n: nat, t: Going, o: Outcome, broken: set<string>)
    requires i < n <= |gs|
    ensures var grown := gs[i := Group(gs[i].repository, gs[i].turns + [t])];
            GroupTimes(grown, n, o, broken) == GroupTimes(gs, n, o, broken) + One(OutcomeOf(t, broken), o)
            && GroupSizes(grown, n) == GroupSizes(gs, n) + 1
    decreases n
  {
    var grown := gs[i := Group(gs[i].repository, gs[i].turns + [t])];
    if i == n - 1 {
      TimesAgree(gs[i].turns, gs[i].turns + [t], |gs[i].turns|, o, broken);
      GroupsAgree(gs, grown, i, o, broken);
    } else {
      GrowGroup(gs, i, n - 1, t, o, broken);
    }
  }

  /** The turns of one repository, in their order. */
  function Of(ts: seq<Going>, repository: string): seq<Going>
    decreases |ts|
  {
    if ts == [] then []
    else
      var front, last := Of(ts[..|ts| - 1], repository), ts[|ts| - 1];
      if last.repository == repository then front + [last] else front
  }

  lemma {:induction false} OfAppend(ts: seq<Going>, t: Going, repository: string)
    ensures Of(ts + [t], repository)
         == Of(ts, repository) + if t.repository == repository then [t] else []
  {
    assert (ts + [t])[..|ts|] == ts;
    assert Of(ts, repository) + [] == Of(ts, repository);
  }

  /** Where a repository's group is, or where it would be added. */
  function FindGroup(gs: seq<Group>, repository: string): (i: nat)
    ensures i <= |gs| && (i < |gs| ==> gs[i].repository == repository)
    ensures forall j :: 0 <= j < i ==> gs[j].repository != repository
    decreases |gs|
  {
    if gs == [] then 0
    else
      var i := FindGroup(gs[..|gs| - 1], repository);
      if i < |gs| - 1 || gs[|gs| - 1].repository == repository then i else |gs|
  }

  function AddTurn(gs: seq<Group>, t: Going): seq<Group>
  {
    var key := t.repository;
    var i := FindGroup(gs, key);
    if i < |gs| then gs[i := Group(gs[i].repository, gs[i].turns + [t])] else gs + [Group(key, [t])]
  }

  function GroupsOf(ts: seq<Going>): seq<Group>
    decreases |ts|
  {
    if |ts| == 0 then [] else AddTurn(GroupsOf(ts[..|ts| - 1]), ts[|ts| - 1])
  }

  ghost predicate Grouped(gs: seq<Group>, ts: seq<Going>) {
    && (forall i, j :: 0 <= i < j < |gs| ==> gs[i].repository != gs[j].repository)
    && (forall i :: 0 <= i < |gs| ==> gs[i].turns == Of(ts, gs[i].repository) && gs[i].turns != [])
    && (forall r :: FindGroup(gs, r) == |gs| ==> Of(ts, r) == [])
  }

  lemma {:induction false} AddTurnRepositories(gs: seq<Group>, t: Going)
    ensures var gs' := AddTurn(gs, t);
            && |gs| <= |gs'| && (forall j :: 0 <= j < |gs| ==> gs'[j].repository == gs[j].repository)
            && (forall j :: |gs| <= j < |gs'| ==> gs'[j].repository == t.repository)
            && (exists j :: 0 <= j < |gs'| && gs'[j].repository == t.repository)
  {
    var i := FindGroup(gs, t.repository);
    assert AddTurn(gs, t)[i].repository == t.repository;
  }

  lemma {:induction false} AddTurnKeepsGrouped(gs: seq<Group>, ts: seq<Going>, t: Going)
    requires Grouped(gs, ts)
    ensures Grouped(AddTurn(gs, t), ts + [t])
  {
    var key := t.repository;
    var i := FindGroup(gs, key);
    var gs' := AddTurn(gs, t);
    AddTurnRepositories(gs, t);
    forall j | 0 <= j < |gs'|
      ensures gs'[j].turns == Of(ts + [t], gs'[j].repository) && gs'[j].turns != []
    {
      OfAppend(ts, t, gs'[j].repository);
      if i == |gs| && j == |gs| {
        assert FindGroup(gs, key) == |gs|;
      }
    }
    forall r | FindGroup(gs', r) == |gs'|
      ensures Of(ts + [t], r) == []
    {
      OfAppend(ts, t, r);
    }
  }

  /** One group per repository, each exactly that repository's turns in their order. */
  lemma {:induction false} GroupsPartition(ts: seq<Going>)
    ensures Grouped(GroupsOf(ts), ts)
    decreases |ts|
  {
    if ts != [] {
      var front, last := ts[..|ts| - 1], ts[|ts| - 1];
      GroupsPartition(front);
      assert ts == front + [last];
      AddTurnKeepsGrouped(GroupsOf(front), front, last);
    }
  }

  lemma {:induction false} AddTurnTimes(gs: seq<Group>, t: Going, o: Outcome, broken: set<string>)
    ensures var gs' := AddTurn(gs, t);
            GroupTimes(gs', |gs'|, o, broken) == GroupTimes(gs, |gs|, o, broken) + One(OutcomeOf(t, broken), o)
            && GroupSizes(gs', |gs'|) == GroupSizes(gs, |gs|) + 1
  {
    var i, gs' := FindGroup(gs, t.repository), AddTurn(gs, t);
    if i < |gs| {
      GrowGroup(gs, i, |gs|, t, o, broken);
    } else {
      GroupsAgree(gs, gs', |gs|, o, broken);
      assert gs'[|gs|].turns == [t];
      assert Times([t], 1, o, broken) == One(OutcomeOf(t, broken), o);
    }
  }

  lemma {:induction false} GroupsLoseNothing(ts: seq<Going>, o: Outcome, broken: set<string>)
    ensures var gs := GroupsOf(ts);
            GroupTimes(gs, |gs|, o, broken) == Times(ts, |ts|, o, broken) && GroupSizes(gs, |gs|) == |ts|
    decreases |ts|
  {
    if |ts| > 0 {
      var front := ts[..|ts| - 1];
      GroupsLoseNothing(front, o, broken);
      AddTurnTimes(GroupsOf(front), ts[|ts| - 1], o, broken);
      TimesAgree(front, ts, |front|, o, broken);
    }
  }

  /** No turn is lost or counted twice by grouping. */
  lemma {:induction false} GroupsCountAlike(ts: seq<Going>, broken: set<string>)
    ensures GroupTally(GroupsOf(ts), |GroupsOf(ts)|, broken) == Tally(ts, |ts|, broken)
  {
    GroupsLoseNothing(ts, Progressed, broken);
    GroupsLoseNothing(ts, NoPrFound, broken);
    GroupsLoseNothing(ts, Deferred, broken);
    GroupsLoseNothing(ts, Failed, broken);
  }

  /** _group_resolved_records */
  method GroupResolved(ts: seq<Going>) returns (gs: seq<Group>)
    ensures gs == GroupsOf(ts)
  {
    gs := [];
    for n := 0 to |ts|
      invariant gs == GroupsOf(ts[..n])
    {
      assert ts[..n + 1][..n] == ts[..n];
      var t := ts[n];
      var key := t.repository;
      var i := 0;
      while i < |gs| && gs[i].repository != key
        invariant 0 <= i <= FindGroup(gs, key)
      {
        i := i + 1;
      }
      if i < |gs| {
        gs := gs[i := gs[i].(turns := gs[i].turns + [t])];
      } else {
        gs := gs + [Group(key, [t])];
      }
    }
    assert ts[..|ts|] == ts;
  }

  /** The inner loop: the records of one group. */
  method ObserveGroup(ghost goesOn: seq<Going>, group: Group, broken: set<string>, start: DrainResult)
    returns (result: DrainResult)
    requires group.turns == Of(goesOn, group.repository)
    ensures Sum(start, Tally(group.turns, |group.turns|, broken), result)
  {
    result := start;
    for m := 0 to |group.turns|
      invariant Sum(start, Tally(group.turns, m, broken), result)
    {
      OfIsOne(goesOn, group.repository, m);
      var turn := group.turns[m];
      if group.repository in broken || turn.consumed.None? {
        result := CountOutcome(result, Deferred);
      } else {
        result := CountOutcome(result, turn.consumed.value);
      }
    }
  }

  /** The group loop of a drain over the turns that go on to be observed. */
  method ObserveGroups(goesOn: seq<Going>, broken: set<string>, start: DrainResult) returns (result: DrainResult)
    ensures Sum(start, Tally(goesOn, |goesOn|, broken), result)
  {
    result := start;
    var gs := GroupResolved(goesOn);
    GroupsPartition(goesOn);
    GroupsCountAlike(goesOn, broken);
    for g := 0 to |gs|
      invariant Sum(start, GroupTally(gs, g, broken), result)
    {
      result := ObserveGroup(goesOn, gs[g], broken, result);
    }
  }

  /** The resolution loop: what it counted, and the turns it leaves for the group loop. */
  method ResolveBatch(batch: seq<Turn>, ghost broken: set<string>) returns (result: DrainResult, goesOn: seq<Going>)
    ensures Sum(result, Tally(goesOn, |goesOn|, broken), Tally(batch, |batch|, broken))
  {
    result, goesOn := DrainResult(0, 0, 0, 0, 0), [];
    for n := 0 to |batch|
      invariant Sum(result, Tally(goesOn, |goesOn|, broken), Tally(batch, n, broken))
    {
      var t := batch[n];
      if t.GoesOn? {
        TallyAppend(goesOn, t, broken);
        goesOn := goesOn + [t];
      } else if t.LookupRaised? {
        result := CountOutcome(result, Deferred);
      } else {
        result := CountOutcome(result, t.outcome);
      }
    }
  }

  /** _drain_locked over one batch: resolution first, then group by group. Every record of the batch is
      counted exactly once, in the column of its outcome. */
  method Drain(batch: seq<Turn>, broken: set<string>) returns (result: DrainResult)
    ensures result == Tally(batch, |batch|, broken)
    ensures result.examined == |batch| == result.progressed + result.noPr + result.deferred + result.failed
    ensures result.progressed == |Counting(batch, |batch|, Progressed, broken)|
    ensures result.noPr == |Counting(batch, |batch|, NoPrFound, broken)|
    ensures result.deferred == |Counting(batch, |batch|, Deferred, broken)|
    ensures result.failed == |Counting(batch, |batch|, Failed, broken)|
  {
    var goesOn;
    result, goesOn := ResolveBatch(batch, broken);
    result := ObserveGroups(goesOn, broken, result);
    ColumnsAddUp(batch, |batch|, broken);
    TimesCounts(batch, |batch|, Progressed, broken);
    TimesCounts(batch, |batch|, NoPrFound, broken);
    TimesCounts(batch, |batch|, Deferred, broken);
    TimesCounts(batch, |batch|, Failed, broken);
  }

  lemma {:induction false} OfIsOne(ts: seq<Going>, repository: string, m: nat)
    requires m < |Of(ts, repository)|
    ensures Of(ts, repository)[m].repository == repository
    decreases |ts|
  {
    var front := Of(ts[..|ts| - 1], repository);
    if m < |front| {
      OfIsOne(ts[..|ts| - 1], repository, m);
    }
  }

  // ---------------------------------------------------------------- waiting

  /** An intent, by the rank of its ingress digest among all digests. */
  datatype Id = Id(rank: int)

  /** What the drain order of an intent depends on. */
  datatype Waiting = Waiting(nextAttemptAt: Option<Time>, requestedAt: Time)
  type Queue = map<Id, Waiting>

  function SortTime(w: Waiting): Time {
    if w.nextAttemptAt.Some? then w.nextAttemptAt.value else w.requestedAt
  }

  predicate Eligible(w: Waiting, now: Time) {
    w.nextAttemptAt.Some? ==> w.nextAttemptAt.value <= now
  }

  predicate Before(q: Queue, a: Id, b: Id)
    requires a in q && b in q
  {
    || SortTime(q[a]) < SortTime(q[b])
    || (SortTime(q[a]) == SortTime(q[b])
        && (q[a].requestedAt < q[b].requestedAt || (q[a].requestedAt == q[b].requestedAt && a.rank < b.rank)))
  }

  ghost predicate Ascending(q: Queue, order: seq<Id>) {
    && (forall i :: 0 <= i < |order| ==> order[i] in q)
    && (forall i, j :: 0 <= i < j < |order| ==> Before(q, order[i], order[j]))
  }

  /** `order` is the eligible intents sorted for the drain. */
  ghost predicate Sorted(q: Queue, now: Time, order: seq<Id>) {
    && Ascending(q, order)
    && (forall i :: 0 <= i < |order| ==> Eligible(q[order[i]], now))
    && (forall id {:trigger id in order} :: id in q && Eligible(q[id], now) ==> id in order)
  }

  function Batch(order: seq<Id>, size: nat): seq<Id> {
    if size <= |order| then order[..size] else order
  }

  /** Each examined record leaves the list or is rescheduled to some time after now; nothing else moves. */
  ghost predicate Rescheduled(q: Queue, now: Time, examined: seq<Id>, r: Queue) {
    && r.Keys <= q.Keys
    && forall id :: id in q ==>
         if id in examined then
           id in r ==> r[id].requestedAt == q[id].requestedAt && r[id].nextAttemptAt.Some?
                       && now < r[id].nextAttemptAt.value
         else id in r && r[id] == q[id]
  }

  lemma {:induction false} RescheduledTwice(q: Queue, now: Time, a: seq<Id>, r: Queue, b: seq<Id>, t: Queue)
    requires Rescheduled(q, now, a, r) && Rescheduled(r, now, b, t)
    ensures Rescheduled(q, now, a + b, t)
  {
  }

  datatype Pass = Pass(queue: Queue, now: Time, order: seq<Id>)

  /** A legal run of drains: nothing is enqueued, the clock does not run backwards, and each examined record's
      reschedule or settlement commits. */
  ghost predicate Passes(ps: seq<Pass>, size: nat) {
    && (forall i :: 0 <= i < |ps| ==> SortedAt(ps, i))
    && (forall i :: 0 <= i < |ps| - 1 ==> FollowsAt(ps, i, size))
  }

  ghost predicate SortedAt(ps: seq<Pass>, i: nat)
    requires i < |ps|
  {
    Sorted(ps[i].queue, ps[i].now, ps[i].order)
  }

  ghost predicate FollowsAt(ps: seq<Pass>, i: nat, size: nat)
    requires i < |ps| - 1
  {
    Follows(ps[i], ps[i + 1], size)
  }

  ghost predicate Follows(one: Pass, two: Pass, size: nat) {
    one.now <= two.now && Rescheduled(one.queue, one.now, Batch(one.order, size), two.queue)
  }

  /** An intent never scheduled before was not requested in the future. */
  predicate Timely(w: Waiting, now: Time) {
    w.nextAttemptAt.None? ==> w.requestedAt <= now
  }

  // ---------------------------------------------------------------- counting who is ahead

  ghost predicate Different(a: seq<Id>) {
    forall i, j :: 0 <= i < j < |a| ==> a[i] != a[j]
  }

  lemma {:induction false} NoLongerThan(a: seq<Id>, b: seq<Id>)
    requires Different(a) && forall i :: 0 <= i < |a| ==> a[i] in b
    ensures |a| <= |b|
    decreases |a|
  {
    if a != [] {
      var last := a[|a| - 1];
      var k :| 0 <= k < |b| && b[k] == last;
      var rest := b[..k] + b[k + 1..];
      forall i | 0 <= i < |a| - 1
        ensures a[i] in rest
      {
        var j :| 0 <= j < |b| && b[j] == a[i];
        assert rest[if j < k then j else j - 1] == a[i];
      }
      NoLongerThan(a[..|a| - 1], rest);
    }
  }

  lemma {:induction false} AscendingIsDifferent(q: Queue, order: seq<Id>)
    requires Ascending(q, order)
    ensures Different(order)
  {
    forall i, j | 0 <= i < j < |order|
      ensures order[i] != order[j]
    {
      assert Before(q, order[i], order[j]);
    }
  }

  lemma {:induction false} InsertSorted(q: Queue, s: seq<Id>, x: Id) returns (r: seq<Id>)
    requires Ascending(q, s) && x in q && x !in s
    ensures Ascending(q, r) && forall y :: y in r <==> y in s || y == x
    decreases |s|
  {
    if s == [] || Before(q, s[|s| - 1], x) {
      r := s + [x];
    } else {
      var front, last := s[..|s| - 1], s[|s| - 1];
      assert s == front + [last];
      var t := InsertSorted(q, front, x);
      r := t + [last];
      forall i | 0 <= i < |t|
        ensures Before(q, t[i], last)
      {
        assert t[i] in t;
        if t[i] != x {
          var k :| 0 <= k < |front| && front[k] == t[i];
          assert Before(q, s[k], s[|s| - 1]);
        }
      }
    }
  }

  /** Any finite set of queued intents has a drain order, as long as the set. */
  lemma {:induction false} SortedSet(q: Queue, ids: set<Id>) returns (s: seq<Id>)
    requires ids <= q.Keys
    ensures Ascending(q, s) && |s| == |ids| && forall x :: x in s <==> x in ids
    decreases |ids|
  {
    s := [];
    if x :| x in ids {
      var rest := SortedSet(q, ids - {x});
      s := InsertSorted(q, rest, x);
      AscendingIsDifferent(q, s);
      AscendingIsDifferent(q, rest);
      assert Different(rest + [x]);
      NoLongerThan(s, rest + [x]);
      NoLongerThan(rest + [x], s);
    } else {
      assert ids == {};
    }
  }

  lemma {:induction false} OrderExists(q: Queue, now: Time) returns (order: seq<Id>)
    ensures Sorted(q, now, order)
  {
    var ids := set id | id in q && Eligible(q[id], now);
    order := SortedSet(q, ids);
    forall i | 0 <= i < |order|
      ensures Eligible(q[order[i]], now)
    {
      assert order[i] in order && order[i] in ids;
    }
  }

  /** Everyone listed before `w` in the drain order, and nobody else eligible, is ahead of it. */
  lemma {:induction false} AheadIsBefore(q: Queue, now: Time, order: seq<Id>, p: nat, x: Id)
    requires Sorted(q, now, order) && p < |order|
    ensures x in order[..p] <==> x in q && Eligible(q[x], now) && Before(q, x, order[p])
  {
    if x in q && Eligible(q[x], now) {
      assert x in order;
      var k :| 0 <= k < |order| && order[k] == x;
      if k < p {
        assert order[..p][k] == x;
      } else if p < k {
        assert Before(q, order[p], order[k]);
      }
    }
    if x in order[..p] {
      var k :| 0 <= k < p && order[k] == x;
    }
  }

  // ---------------------------------------------------------------- timely intents wait a bounded time

  lemma {:induction false} BehindBatch(order: seq<Id>, size: nat, p: nat, x: Id)
    requires size <= p <= |order| && x in order[..p] && x !in Batch(order, size)
    ensures x in order[size..p]
  {
    var k :| 0 <= k < p && order[k] == x;
    forall i | 0 <= i < size
      ensures order[i] != x
    {
      assert order[..size][i] in Batch(order, size);
    }
    assert order[size..p][k - size] == x;
  }

  /** Whoever is ahead of a timely intent after a drain was ahead of it before, and was not examined. */
  lemma {:induction false} AheadBefore(one: Pass, two: Pass, size: nat, p: nat, x: Id)
    requires Sorted(one.queue, one.now, one.order) && Follows(one, two, size)
    requires size <= p < |one.order| && Timely(one.queue[one.order[p]], one.now)
    requires one.order[p] !in Batch(one.order, size)
    requires x in two.queue && Before(two.queue, x, one.order[p])
    ensures x in one.order[size..p]
  {
    var w := one.order[p];
    assert SortTime(one.queue[w]) <= one.now;
    assert x !in Batch(one.order, size);
    AheadIsBefore(one.queue, one.now, one.order, p, x);
    BehindBatch(one.order, size, p, x);
  }

  lemma {:induction false} NotExamined(q: Queue, order: seq<Id>, size: nat, p: nat)
    requires Ascending(q, order) && size <= p < |order|
    ensures order[p] !in Batch(order, size)
  {
    AscendingIsDifferent(q, order);
  }

  /** One full drain moves every timely waiting intent up by a whole batch: nothing examined and
      nothing that only becomes eligible can get ahead of it. */
  lemma {:induction false} MovesUp(one: Pass, two: Pass, size: nat, p: nat) returns (p': nat)
    requires Sorted(one.queue, one.now, one.order) && Sorted(two.queue, two.now, two.order) && Follows(one, two, size)
    requires size <= p < |one.order| && Timely(one.queue[one.order[p]], one.now)
    ensures p' + size <= p && p' < |two.order| && two.order[p'] == one.order[p]
    ensures two.queue[one.order[p]] == one.queue[one.order[p]]
  {
    var w := one.order[p];
    NotExamined(one.queue, one.order, size, p);
    assert w in two.order;
    p' :| 0 <= p' < |two.order| && two.order[p'] == w;
    var ahead := two.order[..p'];
    forall i | 0 <= i < |ahead|
      ensures ahead[i] in one.order[size..p]
    {
      assert ahead[i] in ahead;
      AheadIsBefore(two.queue, two.now, two.order, p', ahead[i]);
      AheadBefore(one, two, size, p, ahead[i]);
    }
    AscendingIsDifferent(two.queue, two.order);
    NoLongerThan(ahead, one.order[size..p]);
  }

  lemma {:induction false} LaterPasses(ps: seq<Pass>, size: nat, k: nat)
    requires Passes(ps, size) && k <= |ps|
    ensures Passes(ps[k..], size)
  {
    var rest := ps[k..];
    forall i | 0 <= i < |rest|
      ensures SortedAt(rest, i)
    {
      assert SortedAt(ps, k + i);
    }
    forall i | 0 <= i < |rest| - 1
      ensures FollowsAt(rest, i, size)
    {
      assert FollowsAt(ps, k + i, size);
    }
  }

  /** Bounded waiting: a timely intent with fewer than `n` batches up to and including it is examined
      by one of the next `n` drains. */
  lemma {:induction false} ExaminedWithin(ps: seq<Pass>, size: nat, p: nat, n: nat) returns (i: nat)
    requires 0 < size && Passes(ps, size) && 0 < n <= |ps| && SortedAt(ps, 0)
    requires p < |ps[0].order| && p < size * n && Timely(ps[0].queue[ps[0].order[p]], ps[0].now)
    ensures i < n && ps[0].order[p] in Batch(ps[i].order, size)
    decreases n
  {
    assert SortedAt(ps, 0);
    if p < size {
      i := 0;
      assert Batch(ps[0].order, size)[p] == ps[0].order[p];
    } else {
      assert SortedAt(ps, 1);
      assert size * n == size * (n - 1) + size;
      assert n == 1 ==> size * n == size;
      assert FollowsAt(ps, 0, size);
      var p' := MovesUp(ps[0], ps[1], size, p);
      LaterPasses(ps, size, 1);
      assert ps[1..][0] == ps[1];
      i := ExaminedWithin(ps[1..], size, p', n - 1);
      assert ps[1..][i] == ps[i + 1];
      i := i + 1;
    }
  }
}

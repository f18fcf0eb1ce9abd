/** Intents that were never scheduled and ask for a time in the future: they sort by that time although they are
    eligible at once, so everything a drain reschedules before it comes back ahead of them. How long such an intent
    can wait, and exactly when it still waits no longer than its place in line says. */
module FutureRequests {
  import opened Wrappers
  import opened LifecycleModels
  import opened DrainSchedule

  /** Every examined record is rescheduled to one time. */
  function Postponed(q: Queue, examined: seq<Id>, at: Time): Queue {
    map y | y in q :: if y in examined then Waiting(Some(at), q[y].requestedAt) else q[y]
  }

  lemma {:induction false} PostponedIsLegal(q: Queue, now: Time, examined: seq<Id>, at: Time)
    requires now < at
    ensures Rescheduled(q, now, examined, Postponed(q, examined, at))
  {
  }

  /** One drain need not move it up at all: there is a legal next drain in which it stands where it stood, or
      further back. */
  lemma {:induction false} NotMovedUp(one: Pass, size: nat, p: nat) returns (two: Pass, p': nat)
    requires Sorted(one.queue, one.now, one.order) && 0 < size <= p < |one.order|
    requires one.queue[one.order[p]].nextAttemptAt == None
    requires one.now + 1 < one.queue[one.order[p]].requestedAt
    ensures Sorted(two.queue, two.now, two.order) && Follows(one, two, size) && two.now == one.now + 1
    ensures p <= p' < |two.order| && two.order[p'] == one.order[p]
    ensures two.queue[one.order[p]] == one.queue[one.order[p]]
  {
    var w, q, now := one.order[p], one.queue, one.now + 1;
    var r := Postponed(q, Batch(one.order, size), now);
    PostponedIsLegal(q, one.now, Batch(one.order, size), now);
    var order := OrderExists(r, now);
    two := Pass(r, now, order);
    NotExamined(q, one.order, size, p);
    assert w in two.order;
    p' :| 0 <= p' < |two.order| && two.order[p'] == w;
    forall i | 0 <= i < p
      ensures one.order[..p][i] in two.order[..p']
    {
      assert Before(q, one.order[i], w);
      AheadIsBefore(r, now, two.order, p', one.order[i]);
    }
    AscendingIsDifferent(q, one.order);
    NoLongerThan(one.order[..p], two.order[..p']);
  }

  /** So it can be passed over by any number of drains, from any place behind the first batch, while the time it
      asked for is further away than that number. */
  lemma {:induction false} PassedOver(one: Pass, size: nat, p: nat, n: nat) returns (ps: seq<Pass>)
    requires Sorted(one.queue, one.now, one.order) && 0 < size <= p < |one.order|
    requires one.queue[one.order[p]].nextAttemptAt == None && one.now + n < one.queue[one.order[p]].requestedAt
    ensures |ps| == n + 1 && ps[0] == one && Passes(ps, size)
    ensures forall i :: 0 <= i <= n ==> one.order[p] !in Batch(ps[i].order, size)
    decreases n
  {
    NotExamined(one.queue, one.order, size, p);
    ps := [one];
    if n > 0 {
      var two, p' := NotMovedUp(one, size, p);
      var rest := PassedOver(two, size, p', n - 1);
      ps := [one] + rest;
      forall i | 0 <= i < |ps| - 1
        ensures FollowsAt(ps, i, size)
      {
        if i > 0 {
          assert FollowsAt(rest, i - 1, size);
        }
      }
      assert forall i :: 1 <= i <= n ==> ps[i] == rest[i - 1];
      forall i | 0 <= i < |ps|
        ensures SortedAt(ps, i)
      {
        assert i > 0 ==> SortedAt(rest, i - 1);
      }
    }
  }

  // ---------------------------------------------------------------- drains at one moment

  lemma {:induction false} LastIsLatest(q: Queue, order: seq<Id>, x: Id)
    requires Ascending(q, order) && x in order
    ensures x == order[|order| - 1] || Before(q, x, order[|order| - 1])
  {
    var i :| 0 <= i < |order| && order[i] == x;
  }

  lemma {:induction false} AscendingUnique(q: Queue, a: seq<Id>, b: seq<Id>)
    requires Ascending(q, a) && Ascending(q, b) && forall x :: x in a <==> x in b
    ensures a == b
    decreases |a|
  {
    AscendingIsDifferent(q, a);
    AscendingIsDifferent(q, b);
    NoLongerThan(a, b);
    NoLongerThan(b, a);
    if a != [] {
      var n := |a| - 1;
      assert a[n] in b && b[n] in a;
      LastIsLatest(q, a, b[n]);
      LastIsLatest(q, b, a[n]);
      forall x
        ensures x in a[..n] <==> x in b[..n]
      {
        assert x in a[..n] <==> x in a && x != a[n] by {
          assert a == a[..n] + [a[n]];
        }
        assert x in b[..n] <==> x in b && x != b[n] by {
          assert b == b[..n] + [b[n]];
        }
      }
      AscendingUnique(q, a[..n], b[..n]);
      assert a == a[..n] + [a[n]] && b == b[..n] + [b[n]];
    }
  }

  /** While the clock stands still nothing comes back: what is left of the order is the order. */
  lemma {:induction false} RestIsSorted(one: Pass, q: Queue, done: nat)
    requires Sorted(one.queue, one.now, one.order) && done <= |one.order|
    requires Rescheduled(one.queue, one.now, one.order[..done], q)
    ensures Sorted(q, one.now, one.order[done..])
  {
    var rest := one.order[done..];
    AscendingIsDifferent(one.queue, one.order);
    forall i | 0 <= i < |rest|
      ensures rest[i] in q && q[rest[i]] == one.queue[rest[i]]
    {
      assert rest[i] == one.order[done + i];
    }
    forall i, j | 0 <= i < j < |rest|
      ensures Before(q, rest[i], rest[j])
    {
      assert Before(one.queue, one.order[done + i], one.order[done + j]);
    }
    forall x | x in q && Eligible(q[x], one.now)
      ensures x in rest
    {
      assert x !in one.order[..done] && x in one.order;
      assert one.order == one.order[..done] + rest;
    }
  }

  lemma {:induction false} TakeMore(order: seq<Id>, done: nat, size: nat)
    requires done + size <= |order|
    ensures order[..done + size] == order[..done] + Batch(order[done..], size)
  {
  }

  lemma {:induction false} StillStep(one: Pass, cur: Pass, next: Pass, size: nat, done: nat)
    requires Sorted(one.queue, one.now, one.order) && Sorted(cur.queue, cur.now, cur.order) && Follows(cur, next, size)
    requires cur.now == one.now && done + size <= |one.order|
    requires Rescheduled(one.queue, one.now, one.order[..done], cur.queue)
    ensures cur.order == one.order[done..]
    ensures Rescheduled(one.queue, one.now, one.order[..done + size], next.queue)
  {
    assert cur.order == one.order[done..] by {
      RestIsSorted(one, cur.queue, done);
      AscendingUnique(cur.queue, cur.order, one.order[done..]);
    }
    TakeMore(one.order, done, size);
    RescheduledTwice(one.queue, one.now, one.order[..done], cur.queue, Batch(one.order[done..], size), next.queue);
  }

  lemma {:induction false} OneMore(m: nat, size: nat)
    ensures (m + 1) * size == m * size + size
  {
  }

  /** `done` is `k` batches. */
  predicate Batches(k: nat, size: nat, done: nat) {
    if k == 0 then done == 0 else size <= done && Batches(k - 1, size, done - size)
  }

  lemma {:induction false} BatchesOf(k: nat, size: nat)
    ensures Batches(k, size, k * size)
  {
    if k > 0 {
      OneMore(k - 1, size);
      BatchesOf(k - 1, size);
    }
  }

  lemma {:induction false} StillFor(ps: seq<Pass>, size: nat, k: nat, done: nat)
    requires 0 < size && k < |ps| && Passes(ps, size) && Batches(k, size, done) && done <= |ps[0].order|
    requires forall j :: 0 <= j < k ==> ps[j].now == ps[0].now
    ensures Rescheduled(ps[0].queue, ps[0].now, ps[0].order[..done], ps[k].queue)
  {
    if k > 0 {
      StillFor(ps, size, k - 1, done - size);
      assert SortedAt(ps, 0) && SortedAt(ps, k - 1) && FollowsAt(ps, k - 1, size);
      StillStep(ps[0], ps[k - 1], ps[k], size, done - size);
    }
  }

  // ---------------------------------------------------------------- who can overtake

  /** `y`, rescheduled to the very next moment, sorts before the unscheduled `w`: its time comes first, or it is
      the same time and `y` was requested earlier, or at the same time with the smaller digest. */
  predicate Overtakes(q: Queue, y: Id, w: Id, now: Time)
    requires y in q && w in q
  {
    var asked := q[w].requestedAt;
    || now + 1 < asked
    || (now + 1 == asked && (q[y].requestedAt < asked || (q[y].requestedAt == asked && y.rank < w.rank)))
  }

  /** Everyone who can be put in front of the intent at `p` while it waits for its batch: whoever is among the
      first `done`, the batches before its own, and whoever becomes eligible at the next moment. */
  ghost function Rivals(one: Pass, done: nat, p: nat): (rivals: set<Id>)
    requires Sorted(one.queue, one.now, one.order) && done <= p < |one.order|
    ensures rivals <= one.queue.Keys
  {
    set y | y in one.queue && (y in one.order[..done] || one.queue[y].nextAttemptAt == Some(one.now + 1))
            && Overtakes(one.queue, y, one.order[p], one.now)
  }

  /** The number of places before the batch of the intent at `p`. */
  function Earlier(p: nat, size: nat): (done: nat)
    requires 0 < size
    ensures done == p / size * size && done + p % size == p
  {
    p / size * size
  }

  /** The intent at `p` is examined by the drain its place in line entitles it to, whatever the drains do. */
  ghost predicate Punctual(one: Pass, size: nat, p: nat)
    requires 0 < size && p < |one.order|
  {
    forall ps: seq<Pass> :: Passes(ps, size) && |ps| == p / size + 1 && ps[0] == one ==>
      exists i :: 0 <= i < |ps| && one.order[p] in Batch(ps[i].order, size)
  }

  // ---------------------------------------------------------------- late at most by its rivals

  /** Who is ahead once the clock moves on: those who were, and rivals. */
  lemma {:induction false} AheadIsRival(one: Pass, q: Queue, gone: nat, done: nat, p: nat, x: Id)
    requires Sorted(one.queue, one.now, one.order) && gone <= done <= p < |one.order|
    requires Rescheduled(one.queue, one.now, one.order[..gone], q)
    requires var w := one.queue[one.order[p]]; w.nextAttemptAt == None && w.requestedAt == one.now + 1
    requires one.order[p] in q && q[one.order[p]] == one.queue[one.order[p]]
    requires x in q && Before(q, x, one.order[p])
    ensures x in one.order[gone..p] || x in Rivals(one, done, p)
  {
    var w := one.order[p];
    if x in one.order[..gone] {
      assert x in one.order[..done] by {
        var i :| 0 <= i < gone && one.order[i] == x;
        assert one.order[..done][i] == x;
      }
    } else if Eligible(one.queue[x], one.now) {
      AheadIsBefore(one.queue, one.now, one.order, p, x);
      assert one.order[..p] == one.order[..gone] + one.order[gone..p];
    }
  }

  lemma {:induction false} RivalsBound(one: Pass, cur: Pass, gone: nat, done: nat, p: nat) returns (p': nat)
    requires Sorted(one.queue, one.now, one.order) && Sorted(cur.queue, cur.now, cur.order) && one.now < cur.now
    requires gone <= done <= p < |one.order|
    requires Rescheduled(one.queue, one.now, one.order[..gone], cur.queue)
    requires var w := one.queue[one.order[p]]; w.nextAttemptAt == None && w.requestedAt == one.now + 1
    ensures p' < |cur.order| && cur.order[p'] == one.order[p] && p' <= p - gone + |Rivals(one, done, p)|
    ensures cur.queue[one.order[p]] == one.queue[one.order[p]]
  {
    var w := one.order[p];
    AscendingIsDifferent(one.queue, one.order);
    assert w !in one.order[..gone];
    assert w in cur.order;
    p' :| 0 <= p' < |cur.order| && cur.order[p'] == w;
    var rivals := SortedSet(one.queue, Rivals(one, done, p));
    var behind := one.order[gone..p] + rivals;
    forall i | 0 <= i < p'
      ensures cur.order[..p'][i] in behind
    {
      AheadIsRival(one, cur.queue, gone, done, p, cur.order[i]);
    }
    AscendingIsDifferent(cur.queue, cur.order);
    NoLongerThan(cur.order[..p'], behind);
  }

  lemma {:induction false} Multiples(k: nat, n: nat, size: nat)
    requires k <= n
    ensures k * size <= n * size && size * (n - k) == n * size - k * size
    ensures k < n ==> k * size + size <= n * size
    decreases n
  {
    if k < n {
      Multiples(k, n - 1, size);
      assert n * size == (n - 1) * size + size;
      assert size * (n - k) == size * (n - 1 - k) + size;
    }
  }

  /** How long the clock stands still. */
  function Stands(ps: seq<Pass>, k: nat): (n: nat)
    requires 0 < k <= |ps|
    ensures k <= n <= |ps| && (n < |ps| ==> ps[n].now != ps[0].now)
    ensures forall j :: k <= j < n ==> ps[j].now == ps[0].now
    decreases |ps| - k
  {
    if k == |ps| || ps[k].now != ps[0].now then k else Stands(ps, k + 1)
  }

  lemma {:induction false} StoodStill(ps: seq<Pass>, one: Pass, size: nat, p: nat, n: nat)
    requires Sorted(one.queue, one.now, one.order) && 0 < size && n * size <= p < n * size + size && p < |one.order|
    requires n < |ps| && ps[0] == one && Passes(ps, size) && forall j :: 0 <= j <= n ==> ps[j].now == one.now
    ensures one.order[p] in Batch(ps[n].order, size)
  {
    var done := n * size;
    BatchesOf(n, size);
    StillFor(ps, size, n, done);
    assert SortedAt(ps, n);
    RestIsSorted(one, ps[n].queue, done);
    AscendingUnique(ps[n].queue, ps[n].order, one.order[done..]);
    assert Batch(ps[n].order, size)[p - done] == one.order[p];
  }

  lemma {:induction false} MoreTimes(size: nat, m: nat)
    ensures size * (m + 1) == size * m + size
  {
  }

  /** From the drain before which the clock moved and `gone` records were taken: `left` drains remain. */
  lemma {:induction false} MovedOnFrom(ps: seq<Pass>, one: Pass, size: nat, p: nat, done: nat, k: nat, gone: nat,
                                       left: nat) returns (i: nat)
    requires Sorted(one.queue, one.now, one.order) && 0 < size && gone <= done <= p < |one.order|
    requires Passes(ps, size) && 0 < k < |ps| && one.now < ps[k].now && 0 < left && k + left == |ps|
    requires Rescheduled(one.queue, one.now, one.order[..gone], ps[k].queue) && size * left == done - gone + size
    requires var w := one.queue[one.order[p]]; w.nextAttemptAt == None && w.requestedAt == one.now + 1
    requires p - done + |Rivals(one, done, p)| < size
    ensures i < |ps| && one.order[p] in Batch(ps[i].order, size)
  {
    assert SortedAt(ps, k);
    var p' := RivalsBound(one, ps[k], gone, done, p);
    LaterPasses(ps, size, k);
    assert SortedAt(ps[k..], 0) && ps[k..][0] == ps[k];
    i := ExaminedWithin(ps[k..], size, p', left);
    assert ps[k..][i] == ps[k + i];
    i := k + i;
  }

  lemma {:induction false} MovedOn(ps: seq<Pass>, one: Pass, size: nat, p: nat, n: nat, k: nat) returns (i: nat)
    requires Sorted(one.queue, one.now, one.order) && 0 < size && 0 < k <= n && n * size <= p < |one.order|
    requires |ps| == n + 1 && ps[0] == one && Passes(ps, size)
    requires var w := one.queue[one.order[p]]; w.nextAttemptAt == None && w.requestedAt == one.now + 1
    requires p - n * size + |Rivals(one, n * size, p)| < size
    requires ps[k].now != one.now && forall j :: 0 <= j < k ==> ps[j].now == one.now
    ensures i < |ps| && one.order[p] in Batch(ps[i].order, size)
  {
    var done, gone := n * size, k * size;
    Multiples(k, n, size);
    MoreTimes(size, n - k);
    BatchesOf(k, size);
    StillFor(ps, size, k, gone);
    assert FollowsAt(ps, k - 1, size);
    i := MovedOnFrom(ps, one, size, p, done, k, gone, n - k + 1);
  }

  /** Asking for the very next moment, with fewer rivals than its batch has room for, it is examined in time. */
  lemma {:induction false} TieIsPunctual(ps: seq<Pass>, one: Pass, size: nat, p: nat, n: nat) returns (i: nat)
    requires Sorted(one.queue, one.now, one.order) && 0 < size && 0 < n && n * size <= p < |one.order|
    requires |ps| == n + 1 && ps[0] == one && Passes(ps, size)
    requires var w := one.queue[one.order[p]]; w.nextAttemptAt == None && w.requestedAt == one.now + 1
    requires p - n * size + |Rivals(one, n * size, p)| < size
    ensures i < |ps| && one.order[p] in Batch(ps[i].order, size)
  {
    var k := Stands(ps, 1);
    if k == |ps| {
      i := n;
      StoodStill(ps, one, size, p, n);
    } else {
      i := MovedOn(ps, one, size, p, n, k);
    }
  }

  // ---------------------------------------------------------------- late because of its rivals

  /** The drains that stand still until the batch of `p` is next: everything examined is put off to the next moment. */
  ghost function Stage(one: Pass, done: nat): Pass
    requires done <= |one.order|
  {
    Pass(Postponed(one.queue, one.order[..done], one.now + 1), one.now, one.order[done..])
  }

  lemma {:induction false} PostponedMore(q: Queue, now: Time, a: seq<Id>, b: seq<Id>)
    ensures Rescheduled(Postponed(q, a, now + 1), now, b, Postponed(q, a + b, now + 1))
  {
  }

  lemma {:induction false} StageReschedules(q: Queue, now: Time, order: seq<Id>, size: nat, done: nat)
    requires done + size <= |order|
    ensures Rescheduled(Postponed(q, order[..done], now + 1), now, Batch(order[done..], size),
                        Postponed(q, order[..done + size], now + 1))
  {
    TakeMore(order, done, size);
    PostponedMore(q, now, order[..done], Batch(order[done..], size));
  }

  lemma {:induction false} StageIsSorted(one: Pass, size: nat, done: nat, p: nat)
    requires Sorted(one.queue, one.now, one.order) && done + size <= p < |one.order|
    ensures var cur := Stage(one, done);
            Sorted(cur.queue, cur.now, cur.order) && one.order[p] !in Batch(cur.order, size)
  {
    var cur := Stage(one, done);
    PostponedIsLegal(one.queue, one.now, one.order[..done], one.now + 1);
    RestIsSorted(one, cur.queue, done);
    assert cur.order[p - done] == one.order[p];
    NotExamined(cur.queue, cur.order, size, p - done);
  }

  lemma {:induction false} WaitingComesFirst(one: Pass, done: nat, p: nat, order: seq<Id>, p': nat, x: Id)
    requires Sorted(one.queue, one.now, one.order) && done <= p < |one.order| && x in one.order[done..p]
    requires var w := one.queue[one.order[p]]; w.nextAttemptAt == None && one.now < w.requestedAt
    requires Sorted(Postponed(one.queue, one.order[..done], one.now + 1), one.now + 1, order)
    requires p' < |order| && order[p'] == one.order[p]
    ensures x in order[..p'] && x !in Rivals(one, done, p)
  {
    var i :| done <= i < p && one.order[i] == x;
    AscendingIsDifferent(one.queue, one.order);
    assert x !in one.order[..done] && one.order[p] !in one.order[..done];
    assert Before(one.queue, x, one.order[p]);
    AheadIsBefore(Postponed(one.queue, one.order[..done], one.now + 1), one.now + 1, order, p', x);
  }

  lemma {:induction false} RivalComesFirst(one: Pass, done: nat, p: nat, order: seq<Id>, p': nat, x: Id)
    requires Sorted(one.queue, one.now, one.order) && done <= p < |one.order| && x in Rivals(one, done, p)
    requires var w := one.queue[one.order[p]]; w.nextAttemptAt == None && one.now < w.requestedAt
    requires Sorted(Postponed(one.queue, one.order[..done], one.now + 1), one.now + 1, order)
    requires p' < |order| && order[p'] == one.order[p]
    ensures x in order[..p']
  {
    AscendingIsDifferent(one.queue, one.order);
    assert one.order[p] !in one.order[..done];
    AheadIsBefore(Postponed(one.queue, one.order[..done], one.now + 1), one.now + 1, order, p', x);
  }

  lemma {:induction false} DifferentSum(a: seq<Id>, b: seq<Id>)
    requires Different(a) && Different(b) && forall x :: x in a ==> x !in b
    ensures Different(a + b)
  {
    var s := a + b;
    forall i, j | 0 <= i < j < |s|
      ensures s[i] != s[j]
    {
      if i < |a| <= j {
        assert a[i] in a && b[j - |a|] in b;
      }
    }
  }

  /** When the clock then moves on by one, all rivals come in front. */
  lemma {:induction false} RivalsComeBack(one: Pass, done: nat, p: nat, order: seq<Id>) returns (p': nat)
    requires Sorted(one.queue, one.now, one.order) && done <= p < |one.order|
    requires var w := one.queue[one.order[p]]; w.nextAttemptAt == None && one.now < w.requestedAt
    requires Sorted(Postponed(one.queue, one.order[..done], one.now + 1), one.now + 1, order)
    ensures p' < |order| && order[p'] == one.order[p] && p - done + |Rivals(one, done, p)| <= p'
  {
    var w := one.order[p];
    AscendingIsDifferent(one.queue, one.order);
    assert w !in one.order[..done];
    assert w in order;
    p' :| 0 <= p' < |order| && order[p'] == w;
    var waiting := one.order[done..p];
    var rivals := SortedSet(one.queue, Rivals(one, done, p));
    AscendingIsDifferent(one.queue, rivals);
    forall x | x in waiting
      ensures x in order[..p'] && x !in rivals
    {
      WaitingComesFirst(one, done, p, order, p', x);
    }
    forall x | x in rivals
      ensures x in order[..p']
    {
      RivalComesFirst(one, done, p, order, p', x);
    }
    DifferentSum(waiting, rivals);
    NoLongerThan(waiting + rivals, order[..p']);
  }

  lemma {:induction false} StageZero(one: Pass)
    ensures Stage(one, 0) == one
  {
    assert one.order[..0] == [] && one.order[0..] == one.order;
    assert Postponed(one.queue, [], one.now + 1) == one.queue;
  }

  lemma {:induction false} AppendPass(ps: seq<Pass>, next: Pass, size: nat)
    requires ps != [] && Passes(ps, size) && Sorted(next.queue, next.now, next.order)
    requires Follows(ps[|ps| - 1], next, size)
    ensures Passes(ps + [next], size)
  {
    var more := ps + [next];
    forall i | 0 <= i < |more|
      ensures SortedAt(more, i)
    {
      assert i < |ps| ==> SortedAt(ps, i);
    }
    forall i | 0 <= i < |more| - 1
      ensures FollowsAt(more, i, size)
    {
      assert i < |ps| - 1 ==> FollowsAt(ps, i, size);
    }
  }

  /** `ps` is such a run up to the drain that begins after the first `done`. */
  ghost predicate Standing(ps: seq<Pass>, one: Pass, size: nat, p: nat, m: nat, done: nat) {
    && |ps| == m + 1 && ps[0] == one && Passes(ps, size) && done <= |one.order| && ps[m] == Stage(one, done)
    && p < |one.order| && forall i :: 0 <= i <= m ==> one.order[p] !in Batch(ps[i].order, size)
  }

  lemma {:induction false} FirstStage(one: Pass, size: nat, p: nat)
    requires Sorted(one.queue, one.now, one.order) && size <= p < |one.order|
    ensures Standing([one], one, size, p, 0, 0)
  {
    StageZero(one);
    NotExamined(one.queue, one.order, size, p);
  }

  lemma {:induction false} StageFollows(one: Pass, size: nat, done: nat)
    requires done + size <= |one.order|
    ensures Follows(Stage(one, done), Stage(one, done + size), size)
  {
    StageReschedules(one.queue, one.now, one.order, size, done);
  }

  lemma {:induction false} Extend(ps: seq<Pass>, next: Pass, size: nat, w: Id)
    requires ps != [] && Passes(ps, size) && Sorted(next.queue, next.now, next.order)
    requires Follows(ps[|ps| - 1], next, size) && w !in Batch(next.order, size)
    requires forall i :: 0 <= i < |ps| ==> w !in Batch(ps[i].order, size)
    ensures Passes(ps + [next], size)
    ensures forall i :: 0 <= i <= |ps| ==> w !in Batch((ps + [next])[i].order, size)
  {
    AppendPass(ps, next, size);
  }

  lemma {:induction false} NextStage(one: Pass, size: nat, p: nat, m: nat, done: nat, ps: seq<Pass>)
    requires Sorted(one.queue, one.now, one.order) && done + size + size <= p < |one.order|
    requires Standing(ps, one, size, p, m, done)
    ensures Standing(ps + [Stage(one, done + size)], one, size, p, m + 1, done + size)
  {
    StageIsSorted(one, size, done + size, p);
    StageFollows(one, size, done);
    Extend(ps, Stage(one, done + size), size, one.order[p]);
  }

  lemma {:induction false} Stages(one: Pass, size: nat, p: nat, m: nat, done: nat) returns (ps: seq<Pass>)
    requires Sorted(one.queue, one.now, one.order) && 0 < size && done + size <= p < |one.order|
    requires Batches(m, size, done)
    ensures Standing(ps, one, size, p, m, done)
    decreases m
  {
    if m == 0 {
      ps := [one];
      FirstStage(one, size, p);
    } else {
      ps := Stages(one, size, p, m - 1, done - size);
      NextStage(one, size, p, m - 1, done - size, ps);
      ps := ps + [Stage(one, done)];
    }
  }

  /** The pass in which its rivals come back follows the last of the others, the drains before it having taken `before`
      records. */
  lemma {:induction false} RivalsFollow(one: Pass, size: nat, p: nat, m: nat, before: nat, stages: seq<Pass>,
                                        order: seq<Id>, p': nat)
    requires Standing(stages, one, size, p, m, before) && before + size <= |one.order| && size <= p' < |order|
    requires Sorted(Postponed(one.queue, one.order[..before + size], one.now + 1), one.now + 1, order)
    requires order[p'] == one.order[p]
    ensures var next := Pass(Postponed(one.queue, one.order[..before + size], one.now + 1), one.now + 1, order);
            && Passes(stages + [next], size)
            && forall i :: 0 <= i <= m + 1 ==> one.order[p] !in Batch((stages + [next])[i].order, size)
  {
    var q := Postponed(one.queue, one.order[..before + size], one.now + 1);
    NotExamined(q, order, size, p');
    StageReschedules(one.queue, one.now, one.order, size, before);
    Extend(stages, Pass(q, one.now + 1, order), size, one.order[p]);
  }

  /** With enough rivals it is too late: a legal run of all the drains it was entitled to, none of which examines it. */
  lemma {:induction false} Overtaken(one: Pass, size: nat, p: nat, n: nat) returns (ps: seq<Pass>)
    requires Sorted(one.queue, one.now, one.order) && 0 < size && 0 < n && n * size <= p < |one.order|
    requires var w := one.queue[one.order[p]]; w.nextAttemptAt == None && one.now < w.requestedAt
    requires size <= p - n * size + |Rivals(one, n * size, p)|
    ensures |ps| == n + 1 && ps[0] == one && Passes(ps, size)
    ensures forall i :: 0 <= i < |ps| ==> one.order[p] !in Batch(ps[i].order, size)
  {
    OneMore(n - 1, size);
    BatchesOf(n - 1, size);
    ps := OvertakenAfter(one, size, p, n - 1, (n - 1) * size);
  }

  lemma {:induction false} OvertakenAfter(one: Pass, size: nat, p: nat, m: nat, before: nat) returns (ps: seq<Pass>)
    requires Sorted(one.queue, one.now, one.order) && 0 < size && before + size <= p < |one.order|
    requires Batches(m, size, before)
    requires var w := one.queue[one.order[p]]; w.nextAttemptAt == None && one.now < w.requestedAt
    requires size <= p - (before + size) + |Rivals(one, before + size, p)|
    ensures |ps| == m + 2 && ps[0] == one && Passes(ps, size)
    ensures forall i :: 0 <= i < |ps| ==> one.order[p] !in Batch(ps[i].order, size)
  {
    var q := Postponed(one.queue, one.order[..before + size], one.now + 1);
    var order := OrderExists(q, one.now + 1);
    var p' := RivalsComeBack(one, before + size, p, order);
    var stages := Stages(one, size, p, m, before);
    RivalsFollow(one, size, p, m, before, stages, order, p');
    ps := stages + [Pass(q, one.now + 1, order)];
  }

  // ---------------------------------------------------------------- exactly when

  /** Bounded waiting, exactly: the intent at `p` is examined by the drain its place in line entitles it to in every
      legal run if and only if it is in the first batch, or is timely, or has too few rivals to fill the room left in
      its batch. An intent asking for a time beyond the next moment has every earlier batch for rivals; one asking
      for the very next moment only those that were requested before it. */
  lemma {:induction false} PunctualExactlyWhen(one: Pass, size: nat, p: nat)
    requires Sorted(one.queue, one.now, one.order) && 0 < size && p < |one.order|
    ensures Punctual(one, size, p) <==>
              || p < size || Timely(one.queue[one.order[p]], one.now)
              || p % size + |Rivals(one, Earlier(p, size), p)| < size
  {
    if || p < size || Timely(one.queue[one.order[p]], one.now)
       || p % size + |Rivals(one, Earlier(p, size), p)| < size
    {
      forall ps: seq<Pass> | Passes(ps, size) && |ps| == p / size + 1 && ps[0] == one
        ensures exists i :: 0 <= i < |ps| && one.order[p] in Batch(ps[i].order, size)
      {
        var i := InTime(ps, one, size, p);
      }
    } else {
      assert Earlier(p, size) == p / size * size;
      var ps := Overtaken(one, size, p, p / size);
      assert Passes(ps, size);
    }
  }

  lemma {:induction false} InTime(ps: seq<Pass>, one: Pass, size: nat, p: nat) returns (i: nat)
    requires Sorted(one.queue, one.now, one.order) && 0 < size && p < |one.order|
    requires |ps| == p / size + 1 && ps[0] == one && Passes(ps, size)
    requires || p < size || Timely(one.queue[one.order[p]], one.now)
             || p % size + |Rivals(one, Earlier(p, size), p)| < size
    ensures i < |ps| && one.order[p] in Batch(ps[i].order, size)
  {
    var n := p / size;
    assert Earlier(p, size) == n * size;
    if p < size {
      i := 0;
      assert Batch(one.order, size)[p] == one.order[p];
    } else if Timely(one.queue[one.order[p]], one.now) {
      assert size * (n + 1) == n * size + size;
      assert SortedAt(ps, 0);
      i := ExaminedWithin(ps, size, p, n + 1);
    } else {
      if one.now + 1 < one.queue[one.order[p]].requestedAt {
        Multiples(1, n, size);
        ManyRivals(one, size, n * size, p);
      }
      i := TieIsPunctual(ps, one, size, p, n);
    }
  }

  lemma {:induction false} ManyRivals(one: Pass, size: nat, done: nat, p: nat)
    requires Sorted(one.queue, one.now, one.order) && size <= done <= p < |one.order|
    requires one.now + 1 < one.queue[one.order[p]].requestedAt
    ensures size <= |Rivals(one, done, p)|
  {
    var rivals := SortedSet(one.queue, Rivals(one, done, p));
    AscendingIsDifferent(one.queue, one.order);
    forall i | 0 <= i < size
      ensures one.order[..size][i] in rivals
    {
      assert one.order[..done][i] == one.order[i];
      assert one.order[i] in Rivals(one, done, p);
    }
    NoLongerThan(one.order[..size], rivals);
  }
}

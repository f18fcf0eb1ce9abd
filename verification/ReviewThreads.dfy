/** The review-thread automaton of src/agentic_pr_dash/github_api.py and the scan that decides, thread by
    thread, what is left to address. */
module ReviewThreads {
  import opened Wrappers
  import opened LifecycleModels

  const CLAIM_MARKER := "<!-- agentic-pr-dash:claimed -->"
  const COMPLETE_MARKER := "<!-- agentic-pr-dash:completed -->"
  const FAILED_MARKER := "<!-- agentic-pr-dash:push-failed -->"
  const STALE_CLAIM: int := 3600 * SECOND

  /** `rank` orders the creation stamps as strings; `at` is the time a stamp parses to, if it does. */
  datatype Reply = Reply(body: string, author: string, rank: int, at: Option<Time>)

  datatype Marker = Completed | PushFailed | Claim
  datatype ThreadState = Open | Claimed | Done | Failed | HumanResolved | Reopened

  predicate Contains(text: string, part: string) {
    part <= text || (text != [] && Contains(text[1..], part))
  }

  /** The marker a reply counts as; a body with several counts as the first of these. */
  function MarkerOf(r: Reply): Option<Marker> {
    if Contains(r.body, COMPLETE_MARKER) then Some(Completed)
    else if Contains(r.body, FAILED_MARKER) then Some(PushFailed)
    else if Contains(r.body, CLAIM_MARKER) then Some(Claim)
    else None
  }

  predicate PartAt(text: string, part: string, i: nat) {
    i + |part| <= |text| && text[i..i + |part|] == part
  }

  /** A text contains another exactly when that stands somewhere in it. */
  lemma {:induction false} ContainsExactlyWhen(text: string, part: string)
    ensures Contains(text, part) <==> exists i: nat :: PartAt(text, part, i)
    decreases |text|
  {
    if part <= text {
      assert PartAt(text, part, 0);
    } else if text != [] {
      ContainsExactlyWhen(text[1..], part);
      if i: nat :| PartAt(text, part, i) {
        assert i > 0 && PartAt(text[1..], part, i - 1);
      }
      if i: nat :| PartAt(text[1..], part, i) {
        assert PartAt(text, part, i + 1);
      }
    }
  }

  /** A reply counts as a completion when that marker stands anywhere in it, as a failed push when only that one or a
      claim does, and as a claim when no other marker does. */
  lemma {:induction false} MarkerMeans(r: Reply)
    ensures var done, failed, claim := "<!-- agentic-pr-dash:completed -->", "<!-- agentic-pr-dash:push-failed -->",
                                       "<!-- agentic-pr-dash:claimed -->";
            var m := MarkerOf(r);
            && (m == Some(Completed) <==> exists i: nat :: PartAt(r.body, done, i))
            && (m == Some(PushFailed) <==> m != Some(Completed) && exists i: nat :: PartAt(r.body, failed, i))
            && (m == Some(Claim) <==>
                  m != Some(Completed) && m != Some(PushFailed) && exists i: nat :: PartAt(r.body, claim, i))
  {
    ContainsExactlyWhen(r.body, COMPLETE_MARKER);
    ContainsExactlyWhen(r.body, FAILED_MARKER);
    ContainsExactlyWhen(r.body, CLAIM_MARKER);
  }

  function After(m: Marker): ThreadState {
    match m
    case Completed => Done
    case PushFailed => Failed
    case Claim => Claimed
  }

  /** A reply by the thread's own author; a nameless reply is by nobody, and without an author on the top
      comment no reply is. */
  predicate ByAuthor(r: Reply, top: Option<string>) {
    top.Some? && r.author != "" && r.author == top.value
  }

  // ---------------------------------------------------------------- order of replies

  /** Reply `j` comes after reply `i`: a later stamp, or the same stamp and a later place in the list. */
  predicate Later(rs: seq<Reply>, i: nat, j: nat)
    requires i < |rs| && j < |rs|
  {
    rs[i].rank < rs[j].rank || (rs[i].rank == rs[j].rank && i < j)
  }

  ghost predicate Enumerates(rs: seq<Reply>, order: seq<nat>, n: nat)
    requires n <= |rs|
  {
    && (forall k :: 0 <= k < |order| ==> order[k] < n)
    && (forall i :: 0 <= i < n ==> i in order)
    && (forall k, l :: 0 <= k < l < |order| ==> Later(rs, order[k], order[l]))
  }

  function Insert(rs: seq<Reply>, order: seq<nat>, i: nat): seq<nat>
    requires i < |rs| && forall k :: 0 <= k < |order| ==> order[k] < |rs|
    decreases |order|
  {
    if order == [] || Later(rs, order[|order| - 1], i) then order + [i]
    else Insert(rs, order[..|order| - 1], i) + [order[|order| - 1]]
  }

  /** sorted(replies, key=created_at): the places of the first `n` replies in that order. */
  function Order(rs: seq<Reply>, n: nat): (order: seq<nat>)
    requires n <= |rs|
    ensures Enumerates(rs, order, n)
    decreases n
  {
    if n == 0 then []
    else
      InsertEnumerates(rs, Order(rs, n - 1), n - 1);
      Insert(rs, Order(rs, n - 1), n - 1)
  }

  lemma {:induction false} InsertHas(rs: seq<Reply>, order: seq<nat>, i: nat)
    requires i < |rs| && forall k :: 0 <= k < |order| ==> order[k] < i
    ensures var r := Insert(rs, order, i);
            && (forall k :: 0 <= k < |r| ==> r[k] == i || r[k] in order)
            && i in r && (forall k :: 0 <= k < |order| ==> order[k] in r)
    decreases |order|
  {
    var r := Insert(rs, order, i);
    if order == [] || Later(rs, order[|order| - 1], i) {
      assert r[|order|] == i;
      assert forall k :: 0 <= k < |order| ==> r[k] == order[k];
    } else {
      var front, last := order[..|order| - 1], order[|order| - 1];
      InsertHas(rs, front, i);
      var s := Insert(rs, front, i);
      assert r == s + [last];
      assert r[|s|] == last && i in s;
      assert forall k :: 0 <= k < |front| ==> front[k] == order[k] && order[k] in s;
    }
  }

  lemma {:induction false} InsertKeeps(rs: seq<Reply>, order: seq<nat>, i: nat)
    requires i < |rs| && forall k :: 0 <= k < |order| ==> order[k] < i
    requires forall k, l :: 0 <= k < l < |order| ==> Later(rs, order[k], order[l])
    ensures var r := Insert(rs, order, i);
            forall k, l :: 0 <= k < l < |r| ==> r[k] <= i && r[l] <= i && Later(rs, r[k], r[l])
    decreases |order|
  {
    InsertHas(rs, order, i);
    if order != [] && !Later(rs, order[|order| - 1], i) {
      var front, last := order[..|order| - 1], order[|order| - 1];
      InsertKeeps(rs, front, i);
      InsertHas(rs, front, i);
      var s := Insert(rs, front, i);
      forall k | 0 <= k < |s|
        ensures s[k] <= i && Later(rs, s[k], last)
      {
      }
      assert Insert(rs, order, i) == s + [last];
    }
  }

  lemma {:induction false} InsertEnumerates(rs: seq<Reply>, order: seq<nat>, i: nat)
    requires i < |rs| && Enumerates(rs, order, i)
    ensures Enumerates(rs, Insert(rs, order, i), i + 1)
  {
    InsertKeeps(rs, order, i);
    InsertHas(rs, order, i);
    var r := Insert(rs, order, i);
    forall x | 0 <= x < i + 1
      ensures x in r
    {
      if x < i {
        assert x in order;
        var k :| 0 <= k < |order| && order[k] == x;
      }
    }
  }

  // ---------------------------------------------------------------- the fold

  datatype Walk = Walk(state: ThreadState, claimedAt: Option<Time>)

  function Next(w: Walk, r: Reply, top: Option<string>): Walk {
    match MarkerOf(r)
    case Some(Completed) => Walk(Done, None)
    case Some(PushFailed) => Walk(Failed, None)
    case Some(Claim) => Walk(Claimed, r.at)
    case None =>
      if w.state == Claimed || w.state == Done || w.state == Failed then Walk(Reopened, None)
      else if w.state == Open && !ByAuthor(r, top) then Walk(HumanResolved, w.claimedAt)
      else w
  }

  /** Where the walk stands after the first `k` replies in order. */
  function Walked(rs: seq<Reply>, order: seq<nat>, k: nat, top: Option<string>): Walk
    requires k <= |order| && forall l :: 0 <= l < |order| ==> order[l] < |rs|
  {
    if k == 0 then Walk(Open, None) else Next(Walked(rs, order, k - 1, top), rs[order[k - 1]], top)
  }

  /** The terminal walk of a thread's replies. */
  function Final(rs: seq<Reply>, top: Option<string>): Walk {
    var order := Order(rs, |rs|);
    Walked(rs, order, |order|, top)
  }

  /** _thread_state, read at `now`. */
  method ReadThreadState(rs: seq<Reply>, top: Option<string>, now: Time)
    returns (state: ThreadState, claimAge: Option<int>)
    ensures state == Final(rs, top).state
    ensures claimAge == ClaimAge(Final(rs, top), now)
  {
    state := Open;
    var claimCreated: Option<Time> := None;
    var order := Order(rs, |rs|);
    for k := 0 to |order|
      invariant Walk(state, claimCreated) == Walked(rs, order, k, top)
    {
      var r := rs[order[k]];
      if Contains(r.body, COMPLETE_MARKER) {
        state, claimCreated := Done, None;
      } else if Contains(r.body, FAILED_MARKER) {
        state, claimCreated := Failed, None;
      } else if Contains(r.body, CLAIM_MARKER) {
        state, claimCreated := Claimed, r.at;
      } else if state == Claimed || state == Done || state == Failed {
        state, claimCreated := Reopened, None;
      } else if state == Open && !ByAuthor(r, top) {
        state := HumanResolved;
      }
    }
    claimAge := None;
    if state == Claimed && claimCreated.Some? {
      claimAge := Some(now - claimCreated.value);
    }
  }

  function ClaimAge(w: Walk, now: Time): Option<int> {
    if w.state == Claimed && w.claimedAt.Some? then Some(now - w.claimedAt.value) else None
  }

  // ---------------------------------------------------------------- what the fold means

  predicate Untouched(rs: seq<Reply>) {
    forall i :: 0 <= i < |rs| ==> MarkerOf(rs[i]).None?
  }

  predicate LastMarker(rs: seq<Reply>, i: nat)
    requires i < |rs|
  {
    MarkerOf(rs[i]).Some? && forall j :: 0 <= j < |rs| && Later(rs, i, j) ==> MarkerOf(rs[j]).None?
  }

  /** The place in the order of the last marker among the first `k` replies, or -1. */
  function LastMark(rs: seq<Reply>, order: seq<nat>, k: nat): (m: int)
    requires k <= |order| && forall l :: 0 <= l < |order| ==> order[l] < |rs|
    ensures -1 <= m < k && (0 <= m ==> MarkerOf(rs[order[m]]).Some?)
    ensures forall l :: m < l < k ==> MarkerOf(rs[order[l]]).None?
  {
    if k == 0 then -1 else if MarkerOf(rs[order[k - 1]]).Some? then k - 1 else LastMark(rs, order, k - 1)
  }

  lemma {:induction false} UntouchedWalk(rs: seq<Reply>, order: seq<nat>, k: nat, top: Option<string>)
    requires k <= |order| && forall l :: 0 <= l < |order| ==> order[l] < |rs|
    requires forall l :: 0 <= l < k ==> MarkerOf(rs[order[l]]).None?
    ensures Walked(rs, order, k, top).state
         == if exists l :: 0 <= l < k && !ByAuthor(rs[order[l]], top) then HumanResolved else Open
  {
    if k > 0 {
      UntouchedWalk(rs, order, k - 1, top);
      var r := rs[order[k - 1]];
      assert MarkerOf(r).None?;
    }
  }

  lemma {:induction false} MarkedWalk(rs: seq<Reply>, order: seq<nat>, k: nat, top: Option<string>)
    requires k <= |order| && forall l :: 0 <= l < |order| ==> order[l] < |rs|
    ensures var w, m := Walked(rs, order, k, top), LastMark(rs, order, k);
            && (m < 0 ==> w.state == Open || w.state == HumanResolved)
            && (0 <= m == k - 1 ==> w.state == After(MarkerOf(rs[order[m]]).value))
            && (0 <= m < k - 1 ==> w.state == Reopened)
            && (w.state == Claimed ==> 0 <= m && w.claimedAt == rs[order[m]].at)
  {
    if k > 0 {
      MarkedWalk(rs, order, k - 1, top);
    }
  }

  lemma {:induction false} OrderIsStrict(rs: seq<Reply>, order: seq<nat>, k: nat, l: nat)
    requires Enumerates(rs, order, |rs|) && k < |order| && l < |order|
    ensures Later(rs, order[k], order[l]) <==> k < l
  {
    assert k < l ==> Later(rs, order[k], order[l]);
    assert l < k ==> Later(rs, order[l], order[k]);
  }

  /** The fold equals its declarative form, on the replies as given: with a marker present the state is the
      last marker's, or reopened if any reply follows it, and a claim's age counts from its own stamp; with
      none it is human_resolved exactly when some reply is not by the thread's author. */
  lemma {:induction false} FoldMeans(rs: seq<Reply>, top: Option<string>, i: nat)
    ensures Untouched(rs) ==>
              Final(rs, top).state == if exists j :: 0 <= j < |rs| && !ByAuthor(rs[j], top) then HumanResolved else Open
    ensures i < |rs| && LastMarker(rs, i) ==>
              && Final(rs, top).state
                 == (if exists j :: 0 <= j < |rs| && Later(rs, i, j) then Reopened else After(MarkerOf(rs[i]).value))
              && (Final(rs, top).state == Claimed ==> Final(rs, top).claimedAt == rs[i].at)
  {
    var order := Order(rs, |rs|);
    MarkedWalk(rs, order, |order|, top);
    var m := LastMark(rs, order, |order|);
    if Untouched(rs) {
      UntouchedWalk(rs, order, |order|, top);
      if j :| 0 <= j < |rs| && !ByAuthor(rs[j], top) {
        assert j in order;
        var l :| 0 <= l < |order| && order[l] == j;
        assert !ByAuthor(rs[order[l]], top);
      }
    }
    if i < |rs| && LastMarker(rs, i) {
      assert i in order;
      var p :| 0 <= p < |order| && order[p] == i;
      OrderIsStrict(rs, order, p, m);
      if p + 1 < |order| {
        assert Later(rs, i, order[p + 1]);
      } else {
        forall j | 0 <= j < |rs|
          ensures !Later(rs, i, j)
        {
          assert j in order;
          var l :| 0 <= l < |order| && order[l] == j;
          OrderIsStrict(rs, order, l, p);
        }
      }
    }
  }

  /** Every touched thread has such a last marker, so the two cases are all there is. */
  lemma {:induction false} TouchedHasLast(rs: seq<Reply>) returns (i: nat)
    requires !Untouched(rs)
    ensures i < |rs| && LastMarker(rs, i)
  {
    var order := Order(rs, |rs|);
    var m := LastMark(rs, order, |order|);
    var x :| 0 <= x < |rs| && MarkerOf(rs[x]).Some?;
    assert x in order;
    i := order[m];
    forall j | 0 <= j < |rs| && Later(rs, i, j)
      ensures MarkerOf(rs[j]).None?
    {
      assert j in order;
      var l :| 0 <= l < |order| && order[l] == j;
      OrderIsStrict(rs, order, l, m);
    }
  }

  // ---------------------------------------------------------------- the scan

  datatype Comment = Comment(id: int, body: string, author: string, path: Option<string>, line: Option<int>,
                             at: Option<Time>)
  datatype Thread = Thread(nodeId: string, resolved: bool, outdated: bool, top: Comment, replies: seq<Reply>)

  datatype Verdict =
    Picked | SkipResolved | SkipDeferred | SkipOutdated | SkipAddressed | SkipHumanResolved | SkipClaimedActive

  datatype Decision = Decision(
    threadId: string, author: string, age: Option<int>, verdict: Verdict, marker: Option<ThreadState>,
    claimAge: Option<int>)

  /** An inline comment to address: the thread it belongs to and its top comment. */
  datatype Pick = Pick(threadId: string, comment: Comment)

  predicate ActiveClaim(w: Walk, now: Time) {
    ClaimAge(w, now).Some? && ClaimAge(w, now).value < STALE_CLAIM
  }

  function VerdictOf(t: Thread, deferred: set<string>, now: Time): Verdict {
    var w := Final(t.replies, Some(t.top.author));
    if t.resolved then SkipResolved
    else if t.nodeId in deferred then SkipDeferred
    else if t.outdated then SkipOutdated
    else if w.state == Done then SkipAddressed
    else if w.state == HumanResolved then SkipHumanResolved
    else if ActiveClaim(w, now) then SkipClaimedActive
    else Picked
  }

  /** The audit record of one thread: `began` is the scan's own clock reading, `now` the one taken while
      the thread's replies are walked. */
  function DecisionOf(t: Thread, deferred: set<string>, began: Time, now: Time): Decision {
    var w, v := Final(t.replies, Some(t.top.author)), VerdictOf(t, deferred, now);
    Decision(t.nodeId, t.top.author, if t.top.at.Some? then Some(began - t.top.at.value) else None, v,
             if v == SkipResolved || v == SkipDeferred || v == SkipOutdated then None else Some(w.state),
             if v == SkipClaimedActive then ClaimAge(w, now) else None)
  }

  /** The decisions on the first `n` threads; `clock` holds the reading taken for each thread. */
  function Decisions(threads: seq<Thread>, deferred: set<string>, began: Time, clock: seq<Time>, n: nat): seq<Decision>
    requires n <= |threads| == |clock|
  {
    if n == 0 then []
    else Decisions(threads, deferred, began, clock, n - 1) + [DecisionOf(threads[n - 1], deferred, began, clock[n - 1])]
  }

  /** The places of the picked threads, in order. */
  function PickedPlaces(ds: seq<Decision>): (places: seq<nat>)
    ensures forall k :: 0 <= k < |places| ==> places[k] < |ds| && ds[places[k]].verdict == Picked
    ensures forall k, l :: 0 <= k < l < |places| ==> places[k] < places[l]
    ensures forall i :: 0 <= i < |ds| && ds[i].verdict == Picked ==> i in places
    decreases |ds|
  {
    if ds == [] then []
    else
      var front := PickedPlaces(ds[..|ds| - 1]);
      if ds[|ds| - 1].verdict == Picked then front + [|ds| - 1] else front
  }

  /** The body of the thread loop: the decision on one thread. */
  method Decide(t: Thread, deferred: set<string>, began: Time, now: Time) returns (d: Decision)
    ensures d == DecisionOf(t, deferred, began, now)
  {
    var age := if t.top.at.Some? then Some(began - t.top.at.value) else None;
    if t.resolved {
      return Decision(t.nodeId, t.top.author, age, SkipResolved, None, None);
    }
    if t.nodeId in deferred {
      return Decision(t.nodeId, t.top.author, age, SkipDeferred, None, None);
    }
    if t.outdated {
      return Decision(t.nodeId, t.top.author, age, SkipOutdated, None, None);
    }
    var state, claimAge := ReadThreadState(t.replies, Some(t.top.author), now);
    if state == Done {
      return Decision(t.nodeId, t.top.author, age, SkipAddressed, Some(state), None);
    }
    if state == HumanResolved {
      return Decision(t.nodeId, t.top.author, age, SkipHumanResolved, Some(state), None);
    }
    if state == Claimed && claimAge.Some? && claimAge.value < STALE_CLAIM {
      return Decision(t.nodeId, t.top.author, age, SkipClaimedActive, Some(state), claimAge);
    }
    d := Decision(t.nodeId, t.top.author, age, Picked, Some(state), None);
  }

  /** The comments are the top comments of the picked threads, one for each picked decision, in order. */
  ghost predicate OnePerPick(threads: seq<Thread>, decisions: seq<Decision>, comments: seq<Pick>)
    requires |decisions| <= |threads|
  {
    var places := PickedPlaces(decisions);
    && |comments| == |places|
    && forall k :: 0 <= k < |comments| ==> comments[k] == Pick(threads[places[k]].nodeId, threads[places[k]].top)
  }

  lemma {:induction false} PickNext(threads: seq<Thread>, decisions: seq<Decision>, comments: seq<Pick>, d: Decision)
    requires |decisions| < |threads| && OnePerPick(threads, decisions, comments)
    ensures var t := threads[|decisions|];
            OnePerPick(threads, decisions + [d],
                       if d.verdict == Picked then comments + [Pick(t.nodeId, t.top)] else comments)
  {
    assert (decisions + [d])[..|decisions|] == decisions;
  }

  /** The thread loop of scan_review_threads: one decision per thread, in order, and one inline comment for
      each picked one. */
  method ScanThreads(threads: seq<Thread>, deferred: set<string>, began: Time, clock: seq<Time>)
    returns (comments: seq<Pick>, decisions: seq<Decision>)
    requires |clock| == |threads|
    ensures |decisions| == |threads|
    ensures decisions == Decisions(threads, deferred, began, clock, |threads|)
    ensures OnePerPick(threads, decisions, comments)
  {
    comments, decisions := [], [];
    for n := 0 to |threads|
      invariant |decisions| == n
      invariant decisions == Decisions(threads, deferred, began, clock, n)
      invariant OnePerPick(threads, decisions, comments)
    {
      var d := Decide(threads[n], deferred, began, clock[n]);
      PickNext(threads, decisions, comments, d);
      if d.verdict == Picked {
        comments := comments + [Pick(threads[n].nodeId, threads[n].top)];
      }
      decisions := decisions + [d];
    }
  }

  lemma {:induction false} OneDecisionEach(threads: seq<Thread>, deferred: set<string>, began: Time, clock: seq<Time>,
                                           n: nat, k: nat)
    requires k < n <= |threads| == |clock|
    ensures |Decisions(threads, deferred, began, clock, n)| == n
    ensures Decisions(threads, deferred, began, clock, n)[k] == DecisionOf(threads[k], deferred, began, clock[k])
  {
    if k < n - 1 {
      OneDecisionEach(threads, deferred, began, clock, n - 1, k);
    } else if n > 1 {
      OneDecisionEach(threads, deferred, began, clock, n - 1, 0);
    }
  }

  /** Nothing but author follow-ups: every reply of an untouched thread is by its author. */
  predicate OnlyAuthor(rs: seq<Reply>, top: Option<string>) {
    Untouched(rs) && forall j :: 0 <= j < |rs| ==> ByAuthor(rs[j], top)
  }

  /** The last marker leaves the thread to be addressed: something was said after it, or the push failed, or
      it is a claim that is stale or has no readable time. */
  predicate LeavesOpen(rs: seq<Reply>, i: nat, now: Time)
    requires i < |rs| && LastMarker(rs, i)
  {
    || (exists j :: 0 <= j < |rs| && Later(rs, i, j))
    || MarkerOf(rs[i]) == Some(PushFailed)
    || (MarkerOf(rs[i]) == Some(Claim) && (rs[i].at.None? || now - rs[i].at.value >= STALE_CLAIM))
  }

  /** A thread is picked exactly when nobody resolved, deferred or outdated it and either nobody but its author
      replied, or its last marker leaves it open. */
  lemma {:induction false} PickedExactlyWhen(t: Thread, deferred: set<string>, now: Time)
    ensures VerdictOf(t, deferred, now) == Picked <==>
              && !t.resolved && t.nodeId !in deferred && !t.outdated
              && (OnlyAuthor(t.replies, Some(t.top.author))
                  || exists i :: 0 <= i < |t.replies| && LastMarker(t.replies, i) && LeavesOpen(t.replies, i, now))
  {
    var rs, top := t.replies, Some(t.top.author);
    if Untouched(rs) {
      FoldMeans(rs, top, 0);
    } else {
      var i := TouchedHasLast(rs);
      FoldMeans(rs, top, i);
      forall k | 0 <= k < |rs| && LastMarker(rs, k)
        ensures k == i
      {
        assert Later(rs, k, i) || Later(rs, i, k) || k == i;
      }
    }
  }

  /** The last word in a thread, by stamp and then by place, is a marker of this kind. */
  predicate EndsIn(rs: seq<Reply>, i: nat, m: Marker) {
    && i < |rs| && MarkerOf(rs[i]) == Some(m)
    && forall j :: 0 <= j < |rs| ==> rs[j].rank < rs[i].rank || (rs[j].rank == rs[i].rank && j <= i)
  }

  lemma {:induction false} EndsInMeans(rs: seq<Reply>, i: nat, k: nat, m: Marker)
    requires i < |rs| && LastMarker(rs, i)
    ensures EndsIn(rs, k, m) ==> k == i
    ensures EndsIn(rs, i, m) <==> MarkerOf(rs[i]) == Some(m) && !exists j :: 0 <= j < |rs| && Later(rs, i, j)
  {
    assert EndsIn(rs, k, m) ==> Later(rs, i, k) || k == i;
    forall j | 0 <= j < |rs|
      ensures Later(rs, i, j) <==> !(rs[j].rank < rs[i].rank || (rs[j].rank == rs[i].rank && j <= i))
    {
    }
  }

  lemma {:induction false} EndingIs(rs: seq<Reply>, top: Option<string>, i: nat)
    requires i < |rs| && LastMarker(rs, i)
    ensures Final(rs, top).state == Done <==> EndsIn(rs, i, Completed)
    ensures Final(rs, top).state == Claimed <==> EndsIn(rs, i, Claim)
    ensures forall k: nat, m :: EndsIn(rs, k, m) ==> k == i
  {
    FoldMeans(rs, top, i);
    forall k: nat, m
      ensures EndsIn(rs, k, m) ==> k == i
    {
      EndsInMeans(rs, i, k, m);
    }
    EndsInMeans(rs, i, i, Completed);
    EndsInMeans(rs, i, i, Claim);
  }

  /** Why a thread is passed over: it was resolved, else deferred, else outdated; or else its last word is a completion,
      or no marker was ever set and somebody but its author replied, or its last word is a claim made less than an hour
      ago. */
  lemma {:induction false} PassedOverExactlyWhen(t: Thread, deferred: set<string>, now: Time)
    ensures var v, rs := VerdictOf(t, deferred, now), t.replies;
            && (v == SkipResolved <==> t.resolved)
            && (v == SkipDeferred <==> !t.resolved && t.nodeId in deferred)
            && (v == SkipOutdated <==> !t.resolved && t.nodeId !in deferred && t.outdated)
            && (!t.resolved && t.nodeId !in deferred && !t.outdated ==>
                  && (v == SkipAddressed <==> exists i: nat :: EndsIn(rs, i, Completed))
                  && (v == SkipHumanResolved <==>
                        && (forall j :: 0 <= j < |rs| ==> MarkerOf(rs[j]).None?)
                        && exists j :: 0 <= j < |rs| && (rs[j].author == "" || rs[j].author != t.top.author))
                  && (v == SkipClaimedActive <==>
                        exists i: nat ::
                          EndsIn(rs, i, Claim) && rs[i].at.Some? && now - rs[i].at.value < 3600 * SECOND))
  {
    var rs, top := t.replies, Some(t.top.author);
    if Untouched(rs) {
      FoldMeans(rs, top, 0);
    } else {
      var i := TouchedHasLast(rs);
      FoldMeans(rs, top, i);
      EndingIs(rs, top, i);
    }
  }

  /** What the audit record tells of a thread: how old its top comment is, the state its replies left it in unless it
      was passed over unread, and, of an active claim, the time since that claim. */
  lemma {:induction false} DecisionTells(t: Thread, deferred: set<string>, began: Time, now: Time, i: nat)
    ensures var d := DecisionOf(t, deferred, began, now);
            && d.threadId == t.nodeId && d.author == t.top.author && d.verdict == VerdictOf(t, deferred, now)
            && (d.age.Some? <==> t.top.at.Some?) && (d.age.Some? ==> d.age.value + t.top.at.value == began)
            && (d.marker.None? <==> t.resolved || t.nodeId in deferred || t.outdated)
            && (d.claimAge.Some? <==> d.verdict == SkipClaimedActive)
            && (d.claimAge.Some? && EndsIn(t.replies, i, Claim) ==>
                  t.replies[i].at.Some? && d.claimAge.value + t.replies[i].at.value == now)
  {
    if EndsIn(t.replies, i, Claim) {
      FoldMeans(t.replies, Some(t.top.author), i);
    }
  }

  /** _thread_is_addressed_or_claimed */
  function Handled(rs: seq<Reply>, now: Time): bool {
    rs != [] && (Final(rs, None).state in {Done, HumanResolved} || ActiveClaim(Final(rs, None), now))
  }

  /** The older helper agrees with the scan on every live thread except the ones where only the author
      followed up: those it calls handled, and the scan picks them. */
  lemma {:induction false} HandledDiffersOnFollowUps(t: Thread, now: Time)
    requires !t.resolved && !t.outdated
    ensures (VerdictOf(t, {}, now) != Picked) == Handled(t.replies, now) <==>
              !(t.replies != [] && OnlyAuthor(t.replies, Some(t.top.author)))
    ensures t.replies != [] && OnlyAuthor(t.replies, Some(t.top.author)) ==>
              VerdictOf(t, {}, now) == Picked && Handled(t.replies, now)
  {
    var rs, top := t.replies, Some(t.top.author);
    if Untouched(rs) {
      FoldMeans(rs, top, 0);
      FoldMeans(rs, None, 0);
      assert rs != [] ==> !ByAuthor(rs[0], None);
    } else {
      var i := TouchedHasLast(rs);
      FoldMeans(rs, top, i);
      FoldMeans(rs, None, i);
    }
  }
}

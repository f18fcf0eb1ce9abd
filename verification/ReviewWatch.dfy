/** The reset-anchored schedule of late-review checks: _next_review_watch and its arming. */
module ReviewWatch {
  import opened Wrappers
  import opened LifecycleModels

  const OFFSETS: seq<int> := [60, 300, 900, 1800, 3600, 7200, 14400, 28800]

  function ElapsedSeconds(index: nat): int {
    if index <= 7 then OFFSETS[index] else OFFSETS[7] * (index - 7 + 1)
  }

  function Deadline(resetAt: Time, index: nat): Time {
    resetAt + SECOND * ElapsedSeconds(index)
  }

  lemma {:induction false} DeadlinesIncrease(resetAt: Time, j: nat, k: nat)
    requires j < k
    ensures Deadline(resetAt, j) + (k - j) <= Deadline(resetAt, k)
    decreases k - j
  {
    assert ElapsedSeconds(k - 1) < ElapsedSeconds(k);
    if j < k - 1 {
      DeadlinesIncrease(resetAt, j, k - 1);
    }
  }

  /** The checks in seconds after the reset: one, five, fifteen and thirty minutes, one, two, four and eight hours, and
      every eight hours from there. */
  lemma {:induction false} ChecksFall(resetAt: Time, k: nat)
    ensures Deadline(resetAt, 0) == resetAt + 60_000_000 && Deadline(resetAt, 1) == resetAt + 300_000_000
    ensures Deadline(resetAt, 2) == resetAt + 900_000_000 && Deadline(resetAt, 3) == resetAt + 1_800_000_000
    ensures Deadline(resetAt, 4) == resetAt + 3_600_000_000 && Deadline(resetAt, 5) == resetAt + 7_200_000_000
    ensures Deadline(resetAt, 6) == resetAt + 14_400_000_000
    ensures 7 <= k ==> Deadline(resetAt, k) == resetAt + (k - 6) * 28_800_000_000
  {
  }

  /** `index` is the first check whose deadline has not passed at `now`. */
  ghost predicate LeastAfter(resetAt: Time, index: nat, now: Time) {
    && now < Deadline(resetAt, index)
    && forall j: nat :: j < index ==> Deadline(resetAt, j) <= now
  }

  lemma {:induction false} LeastAfterUnique(resetAt: Time, i: nat, j: nat, now: Time)
    requires LeastAfter(resetAt, i, now) && LeastAfter(resetAt, j, now)
    ensures i == j
  {
  }

  /** The loop of the catch-up: the first index from `index` on whose deadline is after `now`. */
  function CatchUp(resetAt: Time, index: nat, now: Time): (r: nat)
    ensures index <= r && now < Deadline(resetAt, r)
    ensures forall j: nat :: index <= j < r ==> Deadline(resetAt, j) <= now
    decreases if now < Deadline(resetAt, index) then 0 else now - Deadline(resetAt, index) + 1
  {
    if now < Deadline(resetAt, index) then index
    else
      DeadlinesIncrease(resetAt, index, index + 1);
      CatchUp(resetAt, index + 1, now)
  }

  const FEEDBACK: string := "actionable review feedback observed"
  const CI_GREEN: string := "required CI became green"

  function Arm(headSha: string, now: Time, observed: bool, actionable: nat, reason: string): Watch {
    Watch(Armed, headSha, now, if observed then Some(now) else None, Deadline(now, 0), 0, actionable, reason)
  }

  /** What _next_review_watch returns, branch by branch. */
  function Advance(previous: Option<Watch>, now: Time, headSha: string, ci: CiState, succeeded: bool,
                   actionable: nat): Option<Watch>
  {
    var prior := if previous.Some? && previous.value.headSha != headSha then None else previous;
    if ci != CiState.Passing then
      if prior.None? then None else Some(prior.value.(status := Paused))
    else if prior.None? then
      Some(Arm(headSha, now, succeeded, actionable, if actionable > 0 then FEEDBACK else CI_GREEN))
    else
      var w := prior.value;
      if !succeeded then Some(w.(status := if w.nextCheckAt <= now then Due else w.status))
      else if actionable > 0 then Some(Arm(headSha, now, true, actionable, FEEDBACK))
      else if now < w.nextCheckAt then
        Some(w.(status := Armed, lastObservedAt := Some(now), unresolvedThreads := 0))
      else
        var index := CatchUp(w.resetAt, w.intervalIndex + 1, now);
        Some(w.(status := Armed, lastObservedAt := Some(now), nextCheckAt := Deadline(w.resetAt, index),
                intervalIndex := index, unresolvedThreads := 0))
  }

  /** The first check is a minute after the reset. */
  predicate ArmedAt(w: Watch, now: Time, headSha: string) {
    && w.status == Armed && w.headSha == headSha && w.resetAt == now && w.intervalIndex == 0
    && w.nextCheckAt == now + 60 * SECOND
  }

  method NextReviewWatch(previous: Option<Watch>, now: Time, headSha: string, ci: CiState, succeeded: bool,
                         actionable: nat) returns (watch: Option<Watch>)
    ensures watch == Advance(previous, now, headSha, ci, succeeded, actionable)
    ensures previous.None? || previous.value.headSha != headSha ==>
              if ci != CiState.Passing then watch.None? else watch.Some? && ArmedAt(watch.value, now, headSha)
  {
    var prior := previous;
    if prior.Some? && prior.value.headSha != headSha {
      prior := None;
    }
    if ci != CiState.Passing {
      if prior.None? {
        return None;
      }
      return Some(prior.value.(status := Paused));
    }
    if prior.None? {
      return Some(Arm(headSha, now, succeeded, actionable, if actionable > 0 then FEEDBACK else CI_GREEN));
    }
    var w := prior.value;
    if !succeeded {
      return Some(w.(status := if now >= w.nextCheckAt then Due else w.status));
    }
    if actionable > 0 {
      return Some(Arm(headSha, now, true, actionable, FEEDBACK));
    }
    if now < w.nextCheckAt {
      return Some(w.(status := Armed, lastObservedAt := Some(now), unresolvedThreads := 0));
    }
    var nextIndex: nat := w.intervalIndex + 1;
    var nextCheckAt := Deadline(w.resetAt, nextIndex);
    while nextCheckAt <= now
      invariant nextCheckAt == Deadline(w.resetAt, nextIndex)
      invariant CatchUp(w.resetAt, nextIndex, now) == CatchUp(w.resetAt, w.intervalIndex + 1, now)
      decreases now - nextCheckAt
    {
      DeadlinesIncrease(w.resetAt, nextIndex, nextIndex + 1);
      nextIndex := nextIndex + 1;
      nextCheckAt := Deadline(w.resetAt, nextIndex);
    }
    watch := Some(w.(status := Armed, lastObservedAt := Some(now), nextCheckAt := nextCheckAt,
                     intervalIndex := nextIndex, unresolvedThreads := 0));
  }

  /** _due_review_watch_snapshot, on the watch alone: None when the snapshot is left as it is. */
  function MarkDue(watch: Option<Watch>, now: Time): Option<Watch> {
    if watch.None? || watch.value.status != Armed || now < watch.value.nextCheckAt then None
    else Some(watch.value.(status := Due))
  }

  // ---------------------------------------------------------------- runs on one head

  /** One step of a watch: a polled observation, or an outage that leaves no observation. */
  datatype WatchStep = Poll(now: Time, ci: CiState, succeeded: bool, actionable: nat) | Outage(now: Time)

  function TakeStep(w: Watch, step: WatchStep): (r: Watch)
  {
    match step
    case Poll(now, ci, succeeded, actionable) => Advance(Some(w), now, w.headSha, ci, succeeded, actionable).value
    case Outage(now) => var due := MarkDue(Some(w), now); if due.Some? then due.value else w
  }

  function Run(w: Watch, steps: seq<WatchStep>): Watch
    decreases |steps|
  {
    if steps == [] then w else TakeStep(Run(w, steps[..|steps| - 1]), steps[|steps| - 1])
  }

  /** A successful observation without feedback, under passing CI. */
  predicate Good(step: WatchStep) {
    step.Poll? && step.ci == CiState.Passing && step.succeeded && step.actionable == 0
  }

  /** A step that cannot reset the watch: anything but observed feedback under passing CI. */
  predicate Quiet(step: WatchStep) {
    step.Poll? && step.ci == CiState.Passing && step.succeeded ==> step.actionable == 0
  }

  ghost predicate Clocked(start: Time, steps: seq<WatchStep>) {
    && (forall i :: 0 <= i < |steps| ==> start <= steps[i].now)
    && (forall i, j :: 0 <= i < j < |steps| ==> steps[i].now <= steps[j].now)
  }

  /** The time of the last good observation, or the reset when there is none. */
  function LastGood(start: Time, steps: seq<WatchStep>): Time
    decreases |steps|
  {
    if steps == [] then start
    else if Good(steps[|steps| - 1]) then steps[|steps| - 1].now
    else LastGood(start, steps[..|steps| - 1])
  }

  lemma {:induction false} LastGoodInRange(start: Time, steps: seq<WatchStep>)
    requires Clocked(start, steps)
    ensures start <= LastGood(start, steps)
    ensures steps != [] ==> LastGood(start, steps) <= steps[|steps| - 1].now
    decreases |steps|
  {
    if steps != [] && !Good(steps[|steps| - 1]) {
      var before := steps[..|steps| - 1];
      LastGoodInRange(start, before);
      if before != [] {
        assert before[|before| - 1] == steps[|steps| - 2];
      }
    }
  }

  /** The schedule of a watch is the one its reset and its last good observation determine. */
  ghost predicate Anchored(w: Watch, start: Time, good: Time) {
    && w.resetAt == start && LeastAfter(start, w.intervalIndex, good)
    && w.nextCheckAt == Deadline(start, w.intervalIndex)
  }

  lemma {:induction false} QuietStepAnchors(w: Watch, step: WatchStep, start: Time, good: Time)
    requires Anchored(w, start, good) && Quiet(step) && good <= step.now
    ensures var r := TakeStep(w, step);
            && Anchored(r, start, if Good(step) then step.now else good)
            && r.headSha == w.headSha && r.resetReason == w.resetReason
            && (Good(step) ==> r.status == Armed && r.lastObservedAt == Some(step.now) && r.unresolvedThreads == 0)
  {
    if Good(step) && w.nextCheckAt <= step.now {
      forall j: nat | j <= w.intervalIndex
        ensures Deadline(start, j) <= step.now
      {
        if j < w.intervalIndex {
          DeadlinesIncrease(start, j, w.intervalIndex);
        }
      }
    }
  }

  /** Only observed success under passing CI moves the schedule. Any other step that is no feedback changes the status
      alone: CI that does not pass pauses the watch, and failures and outages show a check that is overdue. */
  lemma {:induction false} OnlyGoodMoves(w: Watch, step: WatchStep)
    requires Quiet(step) && !Good(step)
    ensures var r := TakeStep(w, step);
            && r == w.(status := r.status)
            && (step.Poll? && step.ci != CiState.Passing ==> r.status == Paused)
            && (step.Poll? && step.ci == CiState.Passing ==>
                  r.status == if step.now < w.nextCheckAt then w.status else Due)
            && (step.Outage? ==> r.status == if w.status == Armed && w.nextCheckAt <= step.now then Due else w.status)
  {
  }

  /** However many polls, outages and CI pauses lie between, the schedule of a watch armed at `start`
      is a function of `start` and of the last good observation: the stored index is the least one
      whose deadline was still ahead at that observation. */
  lemma {:induction false} ScheduleIsAnchored(w: Watch, start: Time, steps: seq<WatchStep>)
    requires w.resetAt == start && w.intervalIndex == 0 && w.nextCheckAt == Deadline(start, 0)
    requires Clocked(start, steps)
    requires forall i :: 0 <= i < |steps| ==> Quiet(steps[i])
    ensures var r := Run(w, steps);
            && r.resetAt == start && r.headSha == w.headSha && r.resetReason == w.resetReason
            && LeastAfter(start, r.intervalIndex, LastGood(start, steps))
            && r.nextCheckAt == Deadline(start, r.intervalIndex)
    ensures steps != [] && Good(steps[|steps| - 1]) ==>
              var r := Run(w, steps);
              && r.status == Armed && steps[|steps| - 1].now < r.nextCheckAt
              && r.lastObservedAt == Some(steps[|steps| - 1].now) && r.unresolvedThreads == 0
    decreases |steps|
  {
    if steps != [] {
      var before, last := steps[..|steps| - 1], steps[|steps| - 1];
      ScheduleIsAnchored(w, start, before);
      LastGoodInRange(start, before);
      if before != [] {
        assert before[|before| - 1] == steps[|steps| - 2];
      }
      QuietStepAnchors(Run(w, before), last, start, LastGood(start, before));
    }
  }

  lemma {:induction false} RunSplit(w: Watch, a: seq<WatchStep>, b: seq<WatchStep>)
    ensures Run(w, a + b) == Run(Run(w, a), b)
    decreases |b|
  {
    if b == [] {
      assert a + b == a;
    } else {
      var front := b[..|b| - 1];
      RunSplit(w, a, front);
      assert (a + b)[..|a + b| - 1] == a + front;
    }
  }

  /** Feedback is the only thing that moves the anchor: after any history at all, feedback observed under
      passing CI makes the schedule a function of the time it was seen and of the last good observation since. */
  lemma {:induction false} FeedbackReanchors(w: Watch, history: seq<WatchStep>, feedback: WatchStep,
                                             quiet: seq<WatchStep>)
    requires feedback.Poll? && feedback.ci == CiState.Passing && feedback.succeeded && feedback.actionable > 0
    requires Clocked(feedback.now, quiet) && forall i :: 0 <= i < |quiet| ==> Quiet(quiet[i])
    ensures Anchored(Run(w, history + [feedback] + quiet), feedback.now, LastGood(feedback.now, quiet))
    ensures Run(w, history + [feedback] + quiet).resetReason == FEEDBACK
  {
    var armed := Run(w, history + [feedback]);
    assert (history + [feedback])[..|history|] == history;
    FeedbackResets(Some(Run(w, history)), feedback.now, Run(w, history).headSha, feedback.actionable);
    assert armed == TakeStep(Run(w, history), feedback);
    ScheduleIsAnchored(armed, feedback.now, quiet);
    RunSplit(w, history + [feedback], quiet);
  }

  /** Two histories with the same reset and the same last good observation, ending in it, leave the
      very same watch. */
  lemma {:induction false} HistoryIsForgotten(w: Watch, start: Time, one: seq<WatchStep>, two: seq<WatchStep>)
    requires w.resetAt == start && w.intervalIndex == 0 && w.nextCheckAt == Deadline(start, 0)
    requires Clocked(start, one) && Clocked(start, two)
    requires forall i :: 0 <= i < |one| ==> Quiet(one[i])
    requires forall i :: 0 <= i < |two| ==> Quiet(two[i])
    requires one != [] && two != [] && Good(one[|one| - 1]) && Good(two[|two| - 1])
    requires one[|one| - 1].now == two[|two| - 1].now
    ensures Run(w, one) == Run(w, two)
  {
    ScheduleIsAnchored(w, start, one);
    ScheduleIsAnchored(w, start, two);
    LeastAfterUnique(start, Run(w, one).intervalIndex, Run(w, two).intervalIndex, one[|one| - 1].now);
  }

  /** A watch that says it is due is overdue: through any steps at all, resets included, the status is Due
      only once the next check's time has passed. */
  lemma {:induction false} DueMeansOverdue(w: Watch, start: Time, steps: seq<WatchStep>)
    requires w.status != Due && Clocked(start, steps)
    ensures Run(w, steps).status == Due ==> steps != [] && Run(w, steps).nextCheckAt <= steps[|steps| - 1].now
    decreases |steps|
  {
    if steps != [] {
      var before := steps[..|steps| - 1];
      DueMeansOverdue(w, start, before);
      if before != [] {
        assert before[|before| - 1] == steps[|steps| - 2];
      }
    }
  }

  /** Feedback observed under passing CI restarts the schedule at the time it was seen. */
  lemma {:induction false} FeedbackResets(previous: Option<Watch>, now: Time, headSha: string, actionable: nat)
    requires 0 < actionable
    ensures var r := Advance(previous, now, headSha, CiState.Passing, true, actionable);
            && r.Some? && r.value.resetAt == now && r.value.intervalIndex == 0
            && r.value.nextCheckAt == Deadline(now, 0) && LeastAfter(now, 0, now)
            && r.value.status == Armed && r.value.unresolvedThreads == actionable && r.value.headSha == headSha
            && r.value.lastObservedAt == Some(now) && r.value.resetReason == FEEDBACK
  {
  }

  // ---------------------------------------------------------------- from before the first green observation

  /** What a job's watch is after one step, when there may be none, or one of another head. */
  function StepFrom(w: Option<Watch>, headSha: string, step: WatchStep): Option<Watch> {
    match step
    case Poll(now, ci, succeeded, actionable) => Advance(w, now, headSha, ci, succeeded, actionable)
    case Outage(now) => var due := MarkDue(w, now); if due.Some? then due else w
  }

  function RunFrom(w: Option<Watch>, headSha: string, steps: seq<WatchStep>): Option<Watch>
    decreases |steps|
  {
    if |steps| == 0 then w else StepFrom(RunFrom(w, headSha, steps[..|steps| - 1]), headSha, steps[|steps| - 1])
  }

  predicate Foreign(w: Option<Watch>, headSha: string) {
    w.Some? ==> w.value.headSha != headSha
  }

  predicate Green(step: WatchStep) {
    step.Poll? && step.ci == CiState.Passing
  }

  /** No watch of a head exists before its required CI was first seen passing. */
  lemma {:induction false} NoWatchBeforeGreen(w: Option<Watch>, headSha: string, steps: seq<WatchStep>)
    requires Foreign(w, headSha) && forall i :: 0 <= i < |steps| ==> !Green(steps[i])
    ensures Foreign(RunFrom(w, headSha, steps), headSha)
    decreases |steps|
  {
    if |steps| > 0 {
      NoWatchBeforeGreen(w, headSha, steps[..|steps| - 1]);
    }
  }

  /** The first green observation arms it, whether it was complete and whatever feedback it carries. */
  lemma {:induction false} FirstGreenArms(w: Option<Watch>, headSha: string, green: WatchStep)
    requires Foreign(w, headSha) && Green(green)
    ensures var r := StepFrom(w, headSha, green);
            && r.Some? && ArmedAt(r.value, green.now, headSha) && r.value.unresolvedThreads == green.actionable
            && r.value.lastObservedAt == (if green.succeeded then Some(green.now) else None)
            && r.value.resetReason
               == if 0 < green.actionable then "actionable review feedback observed" else "required CI became green"
  {
  }

  lemma {:induction false} RunFromSplit(w: Option<Watch>, headSha: string, a: seq<WatchStep>, b: seq<WatchStep>)
    ensures RunFrom(w, headSha, a + b) == RunFrom(RunFrom(w, headSha, a), headSha, b)
    decreases |b|
  {
    if |b| == 0 {
      assert a + b == a;
    } else {
      var front := b[..|b| - 1];
      RunFromSplit(w, headSha, a, front);
      assert (a + b)[..|a + b| - 1] == a + front;
    }
  }

  lemma {:induction false} RunFromIsRun(w: Watch, steps: seq<WatchStep>)
    ensures RunFrom(Some(w), w.headSha, steps) == Some(Run(w, steps)) && Run(w, steps).headSha == w.headSha
    decreases |steps|
  {
    if |steps| > 0 {
      RunFromIsRun(w, steps[..|steps| - 1]);
    }
  }

  /** The index law from the very beginning: with no watch of the head to start with, the schedule is anchored at the
      first green observation, and the stored index is the least one whose deadline was ahead at the last good one. */
  lemma {:induction false} AnchoredFromFirstGreen(w: Option<Watch>, headSha: string, waiting: seq<WatchStep>,
                                                  green: WatchStep, quiet: seq<WatchStep>)
    requires Foreign(w, headSha) && Green(green) && forall i :: 0 <= i < |waiting| ==> !Green(waiting[i])
    requires Clocked(green.now, quiet) && forall i :: 0 <= i < |quiet| ==> Quiet(quiet[i])
    ensures var r := RunFrom(w, headSha, waiting + [green] + quiet);
            && r.Some? && r.value.headSha == headSha && Anchored(r.value, green.now, LastGood(green.now, quiet))
  {
    var before := RunFrom(w, headSha, waiting);
    NoWatchBeforeGreen(w, headSha, waiting);
    FirstGreenArms(before, headSha, green);
    assert (waiting + [green])[..|waiting|] == waiting;
    var armed := RunFrom(w, headSha, waiting + [green]).value;
    RunFromSplit(w, headSha, waiting + [green], quiet);
    RunFromIsRun(armed, quiet);
    ScheduleIsAnchored(armed, green.now, quiet);
  }

  /** So the next check is never further off than eight hours from the last good observation. */
  lemma {:induction false} NextCheckIsNear(w: Watch, start: Time, good: Time)
    requires Anchored(w, start, good) && start <= good
    ensures good < w.nextCheckAt <= good + 28_800 * SECOND
  {
    if w.intervalIndex > 0 {
      assert Deadline(start, w.intervalIndex - 1) <= good;
    }
  }
}

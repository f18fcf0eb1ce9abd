/** Executor-failure streaks and escalation of src/agentic_pr_dash/loop.py: several loop processes
    sharing one locked health file and one unlocked escalation marker. */
module LoopHealth {
  import opened Wrappers

  /** Keys of the health file: the loop's own record, and str(pr) for a pull request number or None. */
  datatype Key = LoopRecord | Pr(number: Option<int>)

  /** A streak entry, the loop's heartbeat, or anything whose streak cannot be read. */
  datatype Entry = Streak(count: int, lastError: string) | Heartbeat(viable: bool, scope: string) | Malformed

  type Health = map<Key, Entry>

  /** _entry_streak: malformed content counts as zero. */
  function EntryStreak(e: Entry): int {
    if e.Streak? then e.count else 0
  }

  function StreakOf(h: Health, pr: Option<int>): int {
    if Pr(pr) in h then EntryStreak(h[Pr(pr)]) else 0
  }

  // ---------------------------------------------------------------- locked transactions

  datatype Mutation = Beat(record: Entry) | Fail(pr: Option<int>, error: string) | Reset(pr: Option<int>)

  function Mutated(h: Health, m: Mutation): Health {
    match m
    case Beat(record) => h[LoopRecord := record]
    case Fail(pr, error) => h[Pr(pr) := Streak(StreakOf(h, pr) + 1, error)]
    case Reset(pr) => h - {Pr(pr)}
  }

  datatype Mark = Mark(streak: int, lastError: string)
  type Marker = map<Option<int>, Mark>

  /** What a heartbeat may claim to cover. */
  function ScopeOf(sessionId: string, noDiscover: bool, once: bool): (scope: string)
    ensures scope == "session" <==> sessionId != ""
    ensures scope == "restricted" <==> sessionId == "" && noDiscover
    ensures scope == "oneshot" <==> sessionId == "" && !noDiscover && once
    ensures scope == "machine" <==> sessionId == "" && !noDiscover && !once
  {
    if sessionId != "" then "session" else if noDiscover then "restricted" else if once then "oneshot" else "machine"
  }

  /** The two files of one repository's daemon directory. */
  class LoopFiles {
    var health: Health
    var marker: Marker

    constructor ()
      ensures health == map[] && marker == map[]
    {
      health, marker := map[], map[];
    }

    method RecordLoopHealth(viable: bool, sessionId: string, noDiscover: bool, once: bool)
      modifies this`health
      ensures health == Mutated(old(health), Beat(Heartbeat(viable, ScopeOf(sessionId, noDiscover, once))))
      ensures LoopRecord in health && health[LoopRecord].Heartbeat? && health[LoopRecord].viable == viable
      ensures forall key :: key != LoopRecord ==> (key in health <==> key in old(health))
                                                  && (key in health ==> health[key] == old(health)[key])
    {
      var scope;
      if sessionId != "" {
        scope := "session";
      } else if noDiscover {
        scope := "restricted";
      } else if once {
        scope := "oneshot";
      } else {
        scope := "machine";
      }
      health := health[LoopRecord := Heartbeat(viable, scope)];
    }

    method RecordExecutorFailure(pr: Option<int>, error: string) returns (streak: int)
      modifies this`health
      ensures health == Mutated(old(health), Fail(pr, error))
      ensures streak == StreakOf(health, pr) == StreakOf(old(health), pr) + 1
    {
      streak := (if Pr(pr) in health then EntryStreak(health[Pr(pr)]) else 0) + 1;
      health := health[Pr(pr) := Streak(streak, error)];
    }

    /** Both files: the streak under the lock, then the marker entry. */
    method ResetExecutorFailure(pr: Option<int>)
      modifies this
      ensures health == Mutated(old(health), Reset(pr)) && StreakOf(health, pr) == 0
      ensures marker == Marked(old(marker), Clear(pr))
    {
      health := health - {Pr(pr)};
      if pr !in marker {
        return;
      }
      marker := marker - {pr};
    }

    /** Edge-triggered: fires at the crossing and at no other streak. */
    method MaybeEscalate(pr: Option<int>, error: string, streak: int, threshold: int) returns (fired: bool)
      modifies this`marker
      ensures fired <==> streak == threshold
      ensures marker == if fired then Marked(old(marker), Escalate(pr, Mark(streak, error))) else old(marker)
    {
      if streak != threshold {
        return false;
      }
      marker := marker[pr := Mark(streak, error)];
      fired := true;
    }
  }

  // ---------------------------------------------------------------- runs of the locked health file

  function HealthAt(start: Health, ms: seq<Mutation>, k: nat): Health
    requires k <= |ms|
  {
    if k == 0 then start else Mutated(HealthAt(start, ms, k - 1), ms[k - 1])
  }

  /** Failures recorded for `pr` by step `k` since its last reset, over what the file started with. */
  function FailuresSince(start: Health, ms: seq<Mutation>, k: nat, pr: Option<int>): int
    requires k <= |ms|
  {
    if k == 0 then StreakOf(start, pr)
    else if ms[k - 1] == Reset(pr) then 0
    else FailuresSince(start, ms, k - 1, pr) + if ms[k - 1].Fail? && ms[k - 1].pr == pr then 1 else 0
  }

  /** Whatever heartbeats and other pull requests do in between, a streak is the number of failures
      recorded since the last reset. */
  lemma {:induction false} StreakCountsFailures(start: Health, ms: seq<Mutation>, k: nat, pr: Option<int>)
    requires k <= |ms|
    ensures StreakOf(HealthAt(start, ms, k), pr) == FailuresSince(start, ms, k, pr)
  {
    if k > 0 {
      StreakCountsFailures(start, ms, k - 1, pr);
    }
  }

  /** The last heartbeat of a run, or none. */
  function LastBeat(ms: seq<Mutation>, k: nat): Option<Entry>
    requires k <= |ms|
  {
    if k == 0 then None else if ms[k - 1].Beat? then Some(ms[k - 1].record) else LastBeat(ms, k - 1)
  }

  /** Whatever failures and resets happen in between, the loop's record is its last heartbeat. */
  lemma {:induction false} LoopRecordIsLastBeat(start: Health, ms: seq<Mutation>, k: nat)
    requires k <= |ms|
    ensures LastBeat(ms, k).Some? ==>
              LoopRecord in HealthAt(start, ms, k) && HealthAt(start, ms, k)[LoopRecord] == LastBeat(ms, k).value
  {
    if k > 0 {
      LoopRecordIsLastBeat(start, ms, k - 1);
    }
  }

  /** What the last failure since the last reset said, or none. */
  function LastError(ms: seq<Mutation>, k: nat, pr: Option<int>): Option<string>
    requires k <= |ms|
  {
    if k == 0 || ms[k - 1] == Reset(pr) then None
    else if ms[k - 1].Fail? && ms[k - 1].pr == pr then Some(ms[k - 1].error)
    else LastError(ms, k - 1, pr)
  }

  /** And a streak entry carries the error of its last failure; a reset leaves no entry. */
  lemma {:induction false} EntryHasLastError(start: Health, ms: seq<Mutation>, k: nat, pr: Option<int>)
    requires k <= |ms|
    ensures var h := HealthAt(start, ms, k);
            && (LastError(ms, k, pr).Some? ==>
                  Pr(pr) in h && h[Pr(pr)].Streak? && h[Pr(pr)].lastError == LastError(ms, k, pr).value)
            && (k > 0 && ms[k - 1] == Reset(pr) ==> Pr(pr) !in h)
  {
    if k > 0 {
      EntryHasLastError(start, ms, k - 1, pr);
    }
  }

  /** A run without its heartbeats. */
  function WithoutBeats(ms: seq<Mutation>): seq<Mutation>
    decreases |ms|
  {
    if |ms| == 0 then []
    else WithoutBeats(ms[..|ms| - 1]) + if ms[|ms| - 1].Beat? then [] else [ms[|ms| - 1]]
  }

  /** Heartbeats are invisible to every pull request: a run leaves each entry of the file but the loop's own
      exactly as the run without its heartbeats does. */
  lemma {:induction false} HeartbeatsAreInvisible(start: Health, ms: seq<Mutation>)
    ensures HealthAt(start, ms, |ms|) - {LoopRecord}
         == HealthAt(start, WithoutBeats(ms), |WithoutBeats(ms)|) - {LoopRecord}
    decreases |ms|
  {
    if |ms| > 0 {
      var front, last := ms[..|ms| - 1], ms[|ms| - 1];
      HeartbeatsAreInvisible(start, front);
      HealthPrefix(start, front, ms, |front|);
      if !last.Beat? {
        var fewer := WithoutBeats(front);
        HealthPrefix(start, fewer, fewer + [last], |fewer|);
        MutatedAlike(HealthAt(start, front, |front|), HealthAt(start, fewer, |fewer|), last);
      } else {
        assert WithoutBeats(ms) == WithoutBeats(front);
        assert HealthAt(start, ms, |ms|) - {LoopRecord} == HealthAt(start, front, |front|) - {LoopRecord};
      }
    }
  }

  lemma {:induction false} HealthPrefix(start: Health, a: seq<Mutation>, b: seq<Mutation>, k: nat)
    requires k <= |a| && k <= |b| && forall i :: 0 <= i < k ==> a[i] == b[i]
    ensures HealthAt(start, a, k) == HealthAt(start, b, k)
  {
    if k > 0 {
      HealthPrefix(start, a, b, k - 1);
    }
  }

  lemma {:induction false} MutatedAlike(g: Health, h: Health, m: Mutation)
    requires !m.Beat? && g - {LoopRecord} == h - {LoopRecord}
    ensures Mutated(g, m) - {LoopRecord} == Mutated(h, m) - {LoopRecord}
  {
    forall key: Key | key != LoopRecord
      ensures (key in g <==> key in h) && (key in g ==> g[key] == h[key])
    {
      assert key in g <==> key in g - {LoopRecord};
      assert key in h <==> key in h - {LoopRecord};
      assert key in g ==> (g - {LoopRecord})[key] == g[key];
      assert key in h ==> (h - {LoopRecord})[key] == h[key];
    }
    if m.Fail? {
      assert StreakOf(g, m.pr) == StreakOf(h, m.pr);
    }
  }

  predicate NoReset(ms: seq<Mutation>, lo: nat, hi: nat, pr: Option<int>)
    requires lo <= hi <= |ms|
  {
    forall i :: lo <= i < hi ==> ms[i] != Reset(pr)
  }

  function FailuresIn(ms: seq<Mutation>, lo: nat, hi: nat, pr: Option<int>): nat
    requires lo <= hi <= |ms|
  {
    if lo == hi then 0
    else FailuresIn(ms, lo, hi - 1, pr) + if ms[hi - 1].Fail? && ms[hi - 1].pr == pr then 1 else 0
  }

  /** The failures in a stretch whose returned streak makes _maybe_escalate fire. */
  function FiringsIn(start: Health, ms: seq<Mutation>, lo: nat, hi: nat, pr: Option<int>, threshold: int): nat
    requires lo <= hi <= |ms|
  {
    if lo == hi then 0
    else
      FiringsIn(start, ms, lo, hi - 1, pr, threshold)
      + if ms[hi - 1].Fail? && ms[hi - 1].pr == pr && StreakOf(HealthAt(start, ms, hi), pr) == threshold then 1 else 0
  }

  lemma {:induction false} StretchAdds(start: Health, ms: seq<Mutation>, lo: nat, hi: nat, pr: Option<int>)
    requires lo <= hi <= |ms| && NoReset(ms, lo, hi, pr)
    ensures StreakOf(HealthAt(start, ms, hi), pr) == StreakOf(HealthAt(start, ms, lo), pr) + FailuresIn(ms, lo, hi, pr)
    decreases hi
  {
    if lo < hi {
      StretchAdds(start, ms, lo, hi - 1, pr);
    }
  }

  /** In a stretch without a reset escalation fires once if the recorded failures carry the streak from
      below the threshold to it, and otherwise never, however the processes interleave. */
  lemma {:induction false} EscalatesOnce(start: Health, ms: seq<Mutation>, lo: nat, hi: nat, pr: Option<int>,
                                         threshold: int)
    requires lo <= hi <= |ms| && NoReset(ms, lo, hi, pr)
    ensures var base := StreakOf(HealthAt(start, ms, lo), pr);
            FiringsIn(start, ms, lo, hi, pr, threshold)
              == if base < threshold <= base + FailuresIn(ms, lo, hi, pr) then 1 else 0
    decreases hi
  {
    if lo < hi {
      EscalatesOnce(start, ms, lo, hi - 1, pr, threshold);
      StretchAdds(start, ms, lo, hi - 1, pr);
      StretchAdds(start, ms, lo, hi, pr);
    }
  }

  /** Between two resets: exactly once if the failures reach a positive threshold, never otherwise. */
  lemma {:induction false} EscalatesOnceBetweenResets(start: Health, ms: seq<Mutation>, lo: nat, hi: nat,
                                                      pr: Option<int>,
                                                      threshold: int)
    requires lo < hi <= |ms| && ms[lo] == Reset(pr) && NoReset(ms, lo + 1, hi, pr) && 0 < threshold
    ensures FiringsIn(start, ms, lo + 1, hi, pr, threshold)
         == if threshold <= FailuresIn(ms, lo + 1, hi, pr) then 1 else 0
  {
    EscalatesOnce(start, ms, lo + 1, hi, pr, threshold);
    assert StreakOf(HealthAt(start, ms, lo + 1), pr) == 0;
  }

  // ---------------------------------------------------------------- the marker, which has no lock

  datatype MarkerOp = Escalate(pr: Option<int>, mark: Mark) | Clear(pr: Option<int>)

  function Marked(m: Marker, op: MarkerOp): Marker {
    match op
    case Escalate(pr, mark) => m[pr := mark]
    case Clear(pr) => m - {pr}
  }

  /** Each operation loads the file at one moment and replaces it at a later one. */
  datatype Rewrite = Rewrite(op: MarkerOp, loadedAt: nat)

  function MarkerAt(rs: seq<Rewrite>, k: nat): Marker
    requires k <= |rs|
  {
    if k == 0 then map[]
    else Marked(MarkerAt(rs, if rs[k - 1].loadedAt < k then rs[k - 1].loadedAt else k - 1), rs[k - 1].op)
  }

  predicate Serial(rs: seq<Rewrite>) {
    forall i :: 0 <= i < |rs| ==> rs[i].loadedAt == i
  }

  function LastOp(rs: seq<Rewrite>, k: nat, pr: Option<int>): Option<MarkerOp>
    requires k <= |rs|
  {
    if k == 0 then None else if rs[k - 1].op.pr == pr then Some(rs[k - 1].op) else LastOp(rs, k - 1, pr)
  }

  /** The marker at `k` names a pull request exactly when it was escalated and not cleared since. */
  ghost predicate ExactAt(rs: seq<Rewrite>, k: nat, pr: Option<int>)
    requires k <= |rs|
  {
    && (pr in MarkerAt(rs, k) <==> LastOp(rs, k, pr).Some? && LastOp(rs, k, pr).value.Escalate?)
    && (pr in MarkerAt(rs, k) ==> MarkerAt(rs, k)[pr] == LastOp(rs, k, pr).value.mark)
  }

  lemma {:induction false} SerialMarkerIsExact(rs: seq<Rewrite>, k: nat, pr: Option<int>)
    requires k <= |rs| && Serial(rs)
    ensures ExactAt(rs, k, pr)
  {
    if k > 0 {
      SerialMarkerIsExact(rs, k - 1, pr);
    }
  }

  /** The rewrites load when the schedule says; rewrite `i` can load no later than it replaces the file. */
  predicate Follows(rs: seq<Rewrite>, loads: seq<nat>) {
    |rs| == |loads| && forall i :: 0 <= i < |rs| ==> rs[i].loadedAt == loads[i]
  }

  lemma {:induction false} NeverNamed(rs: seq<Rewrite>, k: nat, pr: Option<int>)
    requires k <= |rs| && forall j :: 0 <= j < k ==> rs[j].op.pr != pr
    ensures pr !in MarkerAt(rs, k)
  {
    if k > 0 {
      NeverNamed(rs, if rs[k - 1].loadedAt < k then rs[k - 1].loadedAt else k - 1, pr);
    }
  }

  /** Every overlap can lose an entry: whatever the schedule, if rewrite `i` loads before the rewrite in front of
      it is in place, there are operations after which the last one on a pull request is an escalation and the
      marker does not name it. */
  lemma {:induction false} OverlapLosesMarker(loads: seq<nat>, i: nat, mark: Mark) returns (rs: seq<Rewrite>)
    requires i < |loads| && loads[i] < i
    ensures Follows(rs, loads) && !ExactAt(rs, i + 1, Some(1))
    ensures LastOp(rs, i + 1, Some(1)) == Some(Escalate(Some(1), mark)) && Some(1) !in MarkerAt(rs, i + 1)
  {
    rs := seq(|loads|, j requires 0 <= j < |loads| =>
                Rewrite(Escalate(Some(if j == i - 1 then 1 else 2), mark), loads[j]));
    NeverNamed(rs, loads[i], Some(1));
    assert LastOp(rs, i, Some(1)) == Some(rs[i - 1].op);
  }

  /** The marker file has no lock, so what it can be trusted for depends on the schedule alone: it is exact at
      every point for all operations if and only if no rewrite loads before its own turn. */
  lemma {:induction false} MarkerExactExactlyWhen(loads: seq<nat>)
    requires forall i :: 0 <= i < |loads| ==> loads[i] <= i
    ensures (forall rs, k: nat, pr :: Follows(rs, loads) && k <= |rs| ==> ExactAt(rs, k, pr))
            <==> (forall i :: 0 <= i < |loads| ==> loads[i] == i)
  {
    if forall i :: 0 <= i < |loads| ==> loads[i] == i {
      forall rs, k: nat, pr | Follows(rs, loads) && k <= |rs|
        ensures ExactAt(rs, k, pr)
      {
        SerialMarkerIsExact(rs, k, pr);
      }
    } else {
      var i: nat :| i < |loads| && loads[i] != i;
      var rs := OverlapLosesMarker(loads, i, Mark(1, ""));
      assert Follows(rs, loads) && i + 1 <= |rs| && !ExactAt(rs, i + 1, Some(1));
    }
  }
}

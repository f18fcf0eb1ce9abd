/** What one snapshot of a job carries over into the next: exactly which part of what is read back decides what is
    stored, whatever is observed. */
module SnapshotCarry {
  import opened Wrappers
  import opened LifecycleModels
  import opened ReviewWatch
  import opened Settlement

  /** _snapshot reads the file twice: the watch goes on from the first read, the settlement chain from the second. */
  function TakeFrom(promoted: bool, first: Option<Snapshot>, again: Option<Snapshot>, key: Key, now: Time, o: Observed,
                    interval: nat, combined: bool): Snapshot
  {
    TakeSnapshot(promoted, again, key, now, o, interval, combined)
      .(watch := TakeSnapshot(promoted, first, key, now, o, interval, combined).watch)
  }

  lemma {:induction false} OneRead(promoted: bool, stored: Option<Snapshot>, key: Key, now: Time, o: Observed,
                                   interval: nat, combined: bool)
    ensures TakeFrom(promoted, stored, stored, key, now, o, interval, combined)
         == TakeSnapshot(promoted, stored, key, now, o, interval, combined)
  {
  }

  // ---------------------------------------------------------------- what a recorded observation carries over

  /** A watch of this head; an observation overwrites its status. */
  function OfHead(w: Option<Watch>, headSha: string): Option<Watch> {
    if w.Some? && w.value.headSha == headSha then Some(w.value.(status := Paused)) else None
  }

  function WatchCarry(read: Option<Snapshot>, key: Key): Option<Watch> {
    OfHead(if read.Some? then read.value.watch else None, key.headSha)
  }

  /** The settlement chain: its facts, where it began, and the count the next observation would settle at. */
  datatype Chain = Chain(facts: Facts, firstAt: Time, count: nat)

  /** The facts a clean observation of the job can have. */
  predicate CleanFacts(f: Facts, key: Key) {
    && f.key == key && Qualifies(f) && f.actions == [] && f.mergeability != Mergeability.Unavailable
  }

  function FirstAt(s: Snapshot): Time {
    if s.stableFirstAt.Some? then s.stableFirstAt.value else s.observedAt
  }

  function NextCount(s: Snapshot): nat {
    if s.stableCount + 1 >= 2 then s.stableCount + 1 else 2
  }

  function ChainCarry(read: Option<Snapshot>, key: Key): Option<Chain> {
    if read.Some? && CleanFacts(FactsOf(read.value), key) then
      Some(Chain(FactsOf(read.value), FirstAt(read.value), NextCount(read.value)))
    else None
  }

  lemma {:induction false} CleanHasCleanFacts(key: Key, now: Time, o: Observed)
    requires CleanObservation(o)
    ensures CleanFacts(FactsOf(Built(key, now, o)), key)
  {
    CleanBuilt(key, now, o);
  }

  /** A clean observation with given clean facts. */
  function CleanWith(f: Facts): Observed {
    Observed(Evaluation(true, true, [], false, false, 0), false,
             if f.mergeability == Mergeability.Conflicting then SaysConflicting
             else if f.mergeability == Mergeability.Mergeable then SaysMergeable else SaysOther,
             f.rawUnresolved, 0, f.settlementKey)
  }

  lemma {:induction false} CleanWithIsClean(f: Facts, key: Key, now: Time)
    requires CleanFacts(f, key)
    ensures CleanObservation(CleanWith(f)) && FactsOf(Built(key, now, CleanWith(f))) == f
  {
    NothingBlocks(CleanWith(f));
    CleanBuilt(key, now, CleanWith(f));
  }

  lemma {:induction false} AdvanceAlike(a: Option<Watch>, b: Option<Watch>, now: Time, headSha: string, ci: CiState,
                                        actionable: nat)
    requires OfHead(a, headSha) == OfHead(b, headSha)
    ensures Advance(a, now, headSha, ci, true, actionable) == Advance(b, now, headSha, ci, true, actionable)
  {
    if OfHead(a, headSha).Some? {
      assert a.value == OfHead(a, headSha).value.(status := a.value.status);
      assert b.value == OfHead(b, headSha).value.(status := b.value.status);
    }
  }

  lemma {:induction false} WatchTaken(read: Option<Snapshot>, key: Key, now: Time, o: Observed, interval: nat,
                                      combined: bool)
    ensures TakeSnapshot(true, read, key, now, o, interval, combined).watch
         == Advance(if read.Some? then read.value.watch else None, now, key.headSha, CiOf(o), true,
                    o.evaluation.unresolvedFindings + o.unaddressed)
  {
  }

  lemma {:induction false} SameWatch(a: Option<Snapshot>, b: Option<Snapshot>, key: Key, now: Time, o: Observed,
                                     interval: nat, combined: bool)
    requires WatchCarry(a, key) == WatchCarry(b, key)
    ensures TakeSnapshot(true, a, key, now, o, interval, combined).watch
         == TakeSnapshot(true, b, key, now, o, interval, combined).watch
  {
    WatchTaken(a, key, now, o, interval, combined);
    WatchTaken(b, key, now, o, interval, combined);
    AdvanceAlike(if a.Some? then a.value.watch else None, if b.Some? then b.value.watch else None, now, key.headSha,
                 CiOf(o), o.evaluation.unresolvedFindings + o.unaddressed);
  }

  lemma {:induction false} SameChain(a: Option<Snapshot>, b: Option<Snapshot>, key: Key, now: Time, o: Observed,
                                     interval: nat, combined: bool)
    requires ChainCarry(a, key) == ChainCarry(b, key)
    ensures TakeSnapshot(true, a, key, now, o, interval, combined).(watch := None)
         == TakeSnapshot(true, b, key, now, o, interval, combined).(watch := None)
  {
    if CleanObservation(o) {
      CleanHasCleanFacts(key, now, o);
    }
  }

  const CI_RUNNING: Observed :=
    Observed(Evaluation(false, true, [CiPending], false, false, 0), false, SaysOther, 0, 0, "")

  /** An observation of running CI shows the watch it went on from. */
  lemma {:induction false} RunningShowsWatch(read: Option<Snapshot>, key: Key, now: Time, interval: nat, combined: bool)
    ensures TakeSnapshot(true, read, key, now, CI_RUNNING, interval, combined).watch == WatchCarry(read, key)
  {
  }

  lemma {:induction false} CleanCases(read: Option<Snapshot>, key: Key, f: Facts, now: Time, interval: nat)
    requires CleanFacts(f, key)
    ensures var s := TakeSnapshot(true, read, key, now, CleanWith(f), interval, true);
            if ChainCarry(read, key).Some? && ChainCarry(read, key).value.facts == f then
              var c := ChainCarry(read, key).value;
              && s.stableFirstAt == Some(c.firstAt) && (s.settled <==> now - c.firstAt >= interval)
              && (s.settled ==> s.stableCount == c.count)
            else s.stableFirstAt == Some(now) && !s.settled
  {
    CleanWithIsClean(f, key, now);
  }

  /** A chain shows in clean observations with its facts: a moment before it began, and at its interval. */
  lemma {:induction false} CleanShowsChain(a: Option<Snapshot>, b: Option<Snapshot>, key: Key, interval: nat)
    requires ChainCarry(a, key).Some?
    requires var c := ChainCarry(a, key).value; var o := CleanWith(c.facts);
             forall now :: TakeSnapshot(true, a, key, now, o, interval, true).(watch := None)
                        == TakeSnapshot(true, b, key, now, o, interval, true).(watch := None)
    ensures ChainCarry(b, key) == ChainCarry(a, key)
  {
    var c := ChainCarry(a, key).value;
    CleanCases(a, key, c.facts, c.firstAt - 1, interval);
    CleanCases(b, key, c.facts, c.firstAt - 1, interval);
    CleanCases(a, key, c.facts, c.firstAt + interval, interval);
    CleanCases(b, key, c.facts, c.firstAt + interval, interval);
    var o, early, late := CleanWith(c.facts), c.firstAt - 1, c.firstAt + interval;
    assert TakeSnapshot(true, a, key, early, o, interval, true).(watch := None).stableFirstAt
        == TakeSnapshot(true, b, key, early, o, interval, true).(watch := None).stableFirstAt;
    var x := TakeSnapshot(true, a, key, late, o, interval, true).(watch := None);
    assert x == TakeSnapshot(true, b, key, late, o, interval, true).(watch := None);
    assert x.settled && x.stableCount == c.count;
  }

  /** Two files store the same, whatever is observed, whenever and with whatever verdict on combining. */
  ghost predicate StoreAlike(first: Option<Snapshot>, again: Option<Snapshot>, b: Option<Snapshot>, key: Key,
                             interval: nat)
  {
    forall now, o, combined :: TakeFrom(true, first, again, key, now, o, interval, combined)
                            == TakeSnapshot(true, b, key, now, o, interval, combined)
  }

  lemma {:induction false} ChainShows(first: Option<Snapshot>, again: Option<Snapshot>, b: Option<Snapshot>, key: Key,
                                      interval: nat)
    requires StoreAlike(first, again, b, key, interval)
    ensures ChainCarry(again, key) == ChainCarry(b, key)
  {
    forall now, o
      ensures TakeSnapshot(true, again, key, now, o, interval, true).(watch := None)
           == TakeSnapshot(true, b, key, now, o, interval, true).(watch := None)
    {
      assert TakeFrom(true, first, again, key, now, o, interval, true)
          == TakeSnapshot(true, b, key, now, o, interval, true);
    }
    if ChainCarry(again, key).Some? {
      CleanShowsChain(again, b, key, interval);
    } else if ChainCarry(b, key).Some? {
      CleanShowsChain(b, again, key, interval);
    }
  }

  lemma {:induction false} WatchShows(first: Option<Snapshot>, again: Option<Snapshot>, b: Option<Snapshot>, key: Key,
                                      interval: nat)
    requires StoreAlike(first, again, b, key, interval)
    ensures WatchCarry(first, key) == WatchCarry(b, key)
  {
    assert TakeFrom(true, first, again, key, 0, CI_RUNNING, interval, true)
        == TakeSnapshot(true, b, key, 0, CI_RUNNING, interval, true);
    RunningShowsWatch(first, key, 0, interval, true);
    RunningShowsWatch(b, key, 0, interval, true);
  }

  /** What an observation of a promoted record stores is the same for two files, whatever is observed, if and only if
      they carry the same watch and the same chain. */
  lemma {:induction false} StoresAlikeExactlyWhen(first: Option<Snapshot>, again: Option<Snapshot>, b: Option<Snapshot>,
                                                  key: Key, interval: nat)
    ensures StoreAlike(first, again, b, key, interval) <==>
            WatchCarry(first, key) == WatchCarry(b, key) && ChainCarry(again, key) == ChainCarry(b, key)
  {
    if StoreAlike(first, again, b, key, interval) {
      WatchShows(first, again, b, key, interval);
      ChainShows(first, again, b, key, interval);
    }
    if WatchCarry(first, key) == WatchCarry(b, key) && ChainCarry(again, key) == ChainCarry(b, key) {
      forall now, o, combined
        ensures TakeFrom(true, first, again, key, now, o, interval, combined)
             == TakeSnapshot(true, b, key, now, o, interval, combined)
      {
        SameWatch(first, b, key, now, o, interval, combined);
        SameChain(again, b, key, now, o, interval, combined);
      }
    }
  }

  /** An observation of any other record carries nothing over. */
  lemma {:induction false} UnpromotedStoresAlike(first: Option<Snapshot>, again: Option<Snapshot>, b: Option<Snapshot>,
                                                 key: Key, now: Time, o: Observed, interval: nat, combined: bool)
    ensures TakeFrom(false, first, again, key, now, o, interval, combined)
         == TakeSnapshot(false, b, key, now, o, interval, combined)
  {
  }

  // ---------------------------------------------------------------- what a missed observation carries over

  /** Everything but whether an armed watch was marked due already. */
  function MissCarry(read: Option<Snapshot>): Option<Snapshot> {
    if read.None? || read.value.watch.None? || read.value.watch.value.status != Armed then read
    else Some(read.value.(watch := Some(read.value.watch.value.(status := Due))))
  }

  /** What the file holds after a missed observation that read `b`. */
  function AfterMiss(b: Option<Snapshot>, key: Key, now: Time): Option<Snapshot> {
    var written := UnavailableSnapshot(b, key, now);
    if written.Some? then written else b
  }

  /** A missed observation over this would write something, sooner or later. */
  predicate Writable(read: Option<Snapshot>) {
    read.Some? ==> read.value.watch.Some? && read.value.watch.value.status == Armed
  }

  /** Whenever a missed observation that read `a` writes, it writes what one that reads `b` would leave, if and only
      if the two differ at most in whether the watch is marked due. */
  lemma {:induction false} MissesAlikeExactlyWhen(a: Option<Snapshot>, b: Option<Snapshot>, key: Key)
    requires Writable(a)
    ensures (forall now :: UnavailableSnapshot(a, key, now).Some? ==>
                             UnavailableSnapshot(a, key, now) == AfterMiss(b, key, now))
            <==> MissCarry(a) == MissCarry(b)
  {
    if forall now :: UnavailableSnapshot(a, key, now).Some? ==>
                       UnavailableSnapshot(a, key, now) == AfterMiss(b, key, now)
    {
      var x := if a.Some? then a.value.watch.value.nextCheckAt else 0;
      var y := if b.Some? && b.value.watch.Some? then b.value.watch.value.nextCheckAt else 0;
      var late := if x <= y then y else x;
      assert UnavailableSnapshot(a, key, late) == AfterMiss(b, key, late);
      assert UnavailableSnapshot(a, key, late + 1).Some?;
      assert UnavailableSnapshot(a, key, late + 1) == AfterMiss(b, key, late + 1);
      if a.None? {
        assert HeadDrift(key, late).observedAt != HeadDrift(key, late + 1).observedAt;
      }
    }
  }
}

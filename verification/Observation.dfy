/** The observation controller of src/agentic_pr_dash/observation.py: which slices of a pull request
    are due, which an event invalidated, and which an acknowledgement may clear. */
module Observation {
  import opened Wrappers
  import opened LifecycleModels

  datatype Slice = Metadata | Review | Ci
  datatype Reason = Initial | EventReason | HeadChanged | CiPoll | MetadataReconciliation | ReviewReconciliation
                  | Forced

  /** Identity of one immutable head; the repository is already trimmed and case-folded. */
  datatype HeadKey = HeadKey(repo: string, number: Pos, headSha: string)

  const ALL: set<Slice> := {Metadata, Review, Ci}

  datatype PerSlice<T> = PerSlice(metadata: T, review: T, ci: T) {
    function Get(s: Slice): T {
      match s
      case Metadata => metadata
      case Review => review
      case Ci => ci
    }

    function Put(s: Slice, value: T): PerSlice<T> {
      match s
      case Metadata => this.(metadata := value)
      case Review => this.(review := value)
      case Ci => this.(ci := value)
    }
  }

  datatype State = State(
    observedAt: PerSlice<Option<Time>>, ciPending: bool, invalidated: set<Slice>, invalidatedAt: Option<Time>,
    reason: Option<Reason>, generations: PerSlice<nat>)

  const FRESH := State(PerSlice(None, None, None), false, {}, None, None, PerSlice(0, 0, 0))

  datatype Plan = Plan(key: HeadKey, slices: set<Slice>, reason: Reason, generations: map<Slice, nat>)

  /** The two RuntimeErrors of plan_for. */
  datatype Fault = NoTimestamp | NoReason

  datatype Config = Config(debounce: nat, ciPoll: nat, metadataEvery: nat, reviewEvery: nat)

  // ---------------------------------------------------------------- planning

  predicate Elapsed(at: Option<Time>, now: Time, interval: nat) {
    at.None? || at.value + interval <= now
  }

  predicate Due(st: State, s: Slice, now: Time, pending: bool, c: Config) {
    match s
    case Metadata => Elapsed(st.observedAt.metadata, now, c.metadataEvery)
    case Review => Elapsed(st.observedAt.review, now, c.reviewEvery)
    case Ci => Elapsed(st.observedAt.ci, now, if pending then c.ciPoll else c.reviewEvery)
  }

  function DueSet(st: State, now: Time, pending: bool, c: Config): set<Slice> {
    set s: Slice | s in ALL && Due(st, s, now, pending, c)
  }

  function GenerationsOf(st: Option<State>, slices: set<Slice>): map<Slice, nat> {
    if st.None? then map[] else map s | s in slices :: st.value.generations.Get(s)
  }

  /** plan_for, on the state found for the key. */
  function PlanOf(key: HeadKey, found: Option<State>, now: Time, ciPending: Option<bool>, force: bool, c: Config)
    : Result<Option<Plan>, Fault>
  {
    if force then Ok(Some(Plan(key, ALL, Forced, GenerationsOf(found, ALL))))
    else if found.None? then Ok(Some(Plan(key, ALL, Initial, map[])))
    else
      var st := found.value;
      var pending := if ciPending.Some? then ciPending.value else st.ciPending;
      var due := DueSet(st, now, pending, c);
      if st.invalidated != {} then
        if st.invalidatedAt.None? then Err(NoTimestamp)
        else if now < st.invalidatedAt.value + c.debounce then Ok(None)
        else if st.reason.None? then Err(NoReason)
        else
          var never := st.observedAt == PerSlice(None, None, None);
          var slices := if never then ALL else st.invalidated + due;
          Ok(Some(Plan(key, slices, st.reason.value, GenerationsOf(found, slices))))
      else if due - {Metadata} != {} then
        var reason := if Review in due then ReviewReconciliation
                      else if pending then CiPoll else ReviewReconciliation;
        Ok(Some(Plan(key, due - {Metadata}, reason, GenerationsOf(found, due - {Metadata}))))
      else if Metadata in due then
        Ok(Some(Plan(key, {Metadata}, MetadataReconciliation, GenerationsOf(found, {Metadata}))))
      else Ok(None)
  }

  // ---------------------------------------------------------------- acknowledging and invalidating

  /** The slices whose invalidation a plan may clear: read for it, at the generation it recorded. */
  function Clearable(st: State, plan: Plan): set<Slice> {
    set s: Slice | s in plan.slices && s in plan.generations && plan.generations[s] == st.generations.Get(s)
  }

  function SetAll<T>(ps: PerSlice<T>, slices: set<Slice>, value: T): PerSlice<T> {
    PerSlice(if Metadata in slices then value else ps.metadata,
             if Review in slices then value else ps.review,
             if Ci in slices then value else ps.ci)
  }

  function Acknowledged(found: Option<State>, plan: Plan, now: Time, ciPending: bool): State {
    var st := if found.Some? then found.value else FRESH;
    var left := st.invalidated - Clearable(st, plan);
    State(SetAll(st.observedAt, plan.slices, Some(now)),
          if Ci in plan.slices then ciPending else st.ciPending,
          left,
          if left == {} then None else st.invalidatedAt,
          if left == {} then None else st.reason,
          st.generations)
  }

  /** The slices an event invalidates, and why; none for an unknown event family. */
  function SlicesOf(event: string, action: Option<string>): (set<Slice>, Reason) {
    if event in {"pull_request_review", "pull_request_review_comment", "pull_request_review_thread"} then
      ({Review}, EventReason)
    else if event in {"check_run", "check_suite", "status"} then ({Ci}, EventReason)
    else if event == "pull_request" then
      if action.Some? && action.value in {"opened", "reopened", "synchronize"} then (ALL, HeadChanged)
      else ({Metadata}, EventReason)
    else ({}, EventReason)
  }

  function Bumped(g: PerSlice<nat>, slices: set<Slice>): PerSlice<nat> {
    PerSlice(if Metadata in slices then g.metadata + 1 else g.metadata,
             if Review in slices then g.review + 1 else g.review,
             if Ci in slices then g.ci + 1 else g.ci)
  }

  function Invalidated(found: Option<State>, slices: set<Slice>, reason: Reason, now: Time): State {
    var st := if found.Some? then found.value else FRESH;
    st.(invalidated := st.invalidated + slices,
        generations := Bumped(st.generations, slices),
        invalidatedAt := Some(now),
        reason := if reason == HeadChanged || st.reason.None? then Some(reason) else st.reason)
  }

  type States = map<HeadKey, State>

  function Find(states: States, key: HeadKey): Option<State> {
    if key in states then Some(states[key]) else None
  }

  predicate WellFormed(st: State) {
    st.invalidated != {} ==> st.invalidatedAt.Some? && st.reason.Some?
  }

  predicate ChangesHead(action: Option<string>) {
    action == Some("opened") || action == Some("reopened") || action == Some("synchronize")
  }

  predicate Known(event: string) {
    || event == "check_run" || event == "check_suite" || event == "status" || event == "pull_request"
    || event == "pull_request_review" || event == "pull_request_review_comment" || event == "pull_request_review_thread"
  }

  /** The head is tracked, exactly the slices hit are newly marked and one generation on, the debounce starts at `now`,
      and everything else is as it was. */
  ghost predicate Invalidates(before: States, after: States, key: HeadKey, hit: set<Slice>, now: Time) {
    && after.Keys == before.Keys + {key} && (forall k :: k in before && k != key ==> after[k] == before[k])
    && var was := if key in before then before[key] else FRESH;
       && after[key].observedAt == was.observedAt && after[key].ciPending == was.ciPending
       && after[key].invalidatedAt == Some(now)
       && forall s: Slice ::
            && (s in after[key].invalidated <==> s in hit || s in was.invalidated)
            && after[key].generations.Get(s) == was.generations.Get(s) + if s in hit then 1 else 0
  }

  /** The reason of an earlier invalidation stays. */
  ghost predicate KeepsReason(before: States, after: States, key: HeadKey)
    requires key in after
  {
    after[key].reason
    == if key in before && before[key].reason.Some? then before[key].reason else Some(EventReason)
  }

  lemma {:induction false} EventInvalidates(before: States, key: HeadKey, slices: set<Slice>, reason: Reason, now: Time)
    ensures var after := before[key := Invalidated(Find(before, key), slices, reason, now)];
            && Invalidates(before, after, key, slices, now)
            && (reason == HeadChanged ==> after[key].reason == Some(HeadChanged))
            && (reason == EventReason ==> KeepsReason(before, after, key))
  {
  }

  lemma {:induction false} EventMeans(event: string, action: Option<string>)
    ensures event in {"check_run", "check_suite", "status"} ==> SlicesOf(event, action) == ({Ci}, EventReason)
    ensures event in {"pull_request_review", "pull_request_review_comment", "pull_request_review_thread"} ==>
              SlicesOf(event, action) == ({Review}, EventReason)
    ensures event == "pull_request" ==>
              SlicesOf(event, action)
              == if ChangesHead(action) then ({Metadata, Review, Ci}, HeadChanged) else ({Metadata}, EventReason)
    ensures !Known(event) ==> SlicesOf(event, action).0 == {}
  {
    assert |"status"| == 6 && |"check_run"| == 9 && |"check_suite"| == 11 && |"pull_request"| == 12;
    assert |"pull_request_review"| == 19 && |"pull_request_review_comment"| == 27;
    assert |"pull_request_review_thread"| == 26;
  }

  class ObservationController {
    var states: States
    const config: Config

    constructor (config: Config)
      ensures states == map[] && this.config == config
    {
      states := map[];
      this.config := config;
    }

    ghost predicate Valid()
      reads this
    {
      forall k :: k in states ==> WellFormed(states[k])
    }

    /** Asking for a plan changes nothing, and in a valid controller neither RuntimeError can be raised. */
    method PlanFor(key: HeadKey, now: Time, ciPending: Option<bool>, force: bool)
    returns (r: Result<Option<Plan>, Fault>)
      ensures r == PlanOf(key, Find(states, key), now, ciPending, force, config)
      ensures Valid() ==> r.Ok?
    {
      if force {
        return Ok(Some(Plan(key, ALL, Forced, GenerationsOf(Find(states, key), ALL))));
      }
      if key !in states {
        return Ok(Some(Plan(key, ALL, Initial, map[])));
      }
      var st := states[key];
      var pending := if ciPending.Some? then ciPending.value else st.ciPending;
      var due, metadataDue := DueNow(st, now, pending);
      var independently := if metadataDue then due + {Metadata} else due;
      assert independently == DueSet(st, now, pending, config);
      if st.invalidated != {} {
        if st.invalidatedAt.None? {
          return Err(NoTimestamp);
        }
        if now < st.invalidatedAt.value + config.debounce {
          return Ok(None);
        }
        if st.reason.None? {
          return Err(NoReason);
        }
        var never := st.observedAt.review.None? && st.observedAt.ci.None? && st.observedAt.metadata.None?;
        var slices := if never then ALL else st.invalidated + independently;
        return Ok(Some(Plan(key, slices, st.reason.value, GenerationsOf(Some(st), slices))));
      }
      if due != {} {
        var reason := if Review in due then ReviewReconciliation
                      else if Ci in due && pending then CiPoll else ReviewReconciliation;
        return Ok(Some(Plan(key, due, reason, GenerationsOf(Some(st), due))));
      }
      if metadataDue {
        return Ok(Some(Plan(key, {Metadata}, MetadataReconciliation, GenerationsOf(Some(st), {Metadata}))));
      }
      r := Ok(None);
    }

    method DueNow(st: State, now: Time, pending: bool) returns (due: set<Slice>, metadataDue: bool)
      ensures due == DueSet(st, now, pending, config) - {Metadata}
      ensures metadataDue == (Metadata in DueSet(st, now, pending, config))
    {
      var reviewAt, ciAt, metadataAt := st.observedAt.review, st.observedAt.ci, st.observedAt.metadata;
      var reviewDue := reviewAt.None? || now >= reviewAt.value + config.reviewEvery;
      var ciDue := || ciAt.None?
                   || (pending && now >= ciAt.value + config.ciPoll)
                   || (!pending && now >= ciAt.value + config.reviewEvery);
      metadataDue := metadataAt.None? || now >= metadataAt.value + config.metadataEvery;
      due := {};
      if reviewDue {
        due := due + {Review};
      }
      if ciDue {
        due := due + {Ci};
      }
    }

    method RecordRefresh(plan: Plan, now: Time, ciPending: bool)
      modifies this
      ensures states == old(states)[plan.key := Acknowledged(Find(old(states), plan.key), plan, now, ciPending)]
      ensures old(Valid()) ==> Valid()
    {
      var st := if plan.key in states then states[plan.key] else FRESH;
      var observedAt, invalidated := MarkRead(st, plan, now);
      st := st.(observedAt := observedAt, invalidated := invalidated);
      if Ci in plan.slices {
        st := st.(ciPending := ciPending);
      }
      if st.invalidated == {} {
        st := st.(invalidatedAt := None, reason := None);
      }
      states := states[plan.key := st];
    }

    /** The loop of record_refresh over the slices of the plan. */
    static method MarkRead(st: State, plan: Plan, now: Time)
      returns (observedAt: PerSlice<Option<Time>>, invalidated: set<Slice>)
      ensures observedAt == SetAll(st.observedAt, plan.slices, Some(now))
      ensures invalidated == st.invalidated - Clearable(st, plan)
    {
      observedAt, invalidated := st.observedAt, st.invalidated;
      var todo := plan.slices;
      while |todo| != 0
        invariant todo <= plan.slices
        invariant forall x: Slice :: observedAt.Get(x) ==
                    if x in plan.slices && x !in todo then Some(now) else st.observedAt.Get(x)
        invariant forall x: Slice :: x in invalidated <==>
                    x in st.invalidated && !(x in Clearable(st, plan) && x !in todo)
        decreases |todo|
      {
        var s :| s in todo;
        observedAt := observedAt.Put(s, Some(now));
        if s in plan.generations && st.generations.Get(s) == plan.generations[s] {
          invalidated := invalidated - {s};
        }
        todo := todo - {s};
      }
      assert observedAt.Get(Metadata) == SetAll(st.observedAt, plan.slices, Some(now)).metadata;
      assert observedAt.Get(Review) == SetAll(st.observedAt, plan.slices, Some(now)).review;
      assert observedAt.Get(Ci) == SetAll(st.observedAt, plan.slices, Some(now)).ci;
    }

    method HandleEvent(event: string, action: Option<string>, key: HeadKey, now: Time)
      modifies this
      ensures var (slices, reason) := SlicesOf(event, action);
              states == if slices == {} then old(states)
                        else old(states)[key := Invalidated(Find(old(states), key), slices, reason, now)]
      ensures old(Valid()) ==> Valid()
      ensures event in {"check_run", "check_suite", "status"} ==>
                Invalidates(old(states), states, key, {Ci}, now) && KeepsReason(old(states), states, key)
      ensures event in {"pull_request_review", "pull_request_review_comment", "pull_request_review_thread"} ==>
                Invalidates(old(states), states, key, {Review}, now) && KeepsReason(old(states), states, key)
      ensures event == "pull_request" && ChangesHead(action) ==>
                Invalidates(old(states), states, key, {Metadata, Review, Ci}, now)
                && states[key].reason == Some(HeadChanged)
      ensures event == "pull_request" && !ChangesHead(action) ==>
                Invalidates(old(states), states, key, {Metadata}, now) && KeepsReason(old(states), states, key)
      ensures !Known(event) ==> states == old(states)
    {
      EventMeans(event, action);
      var (slices, reason) := SlicesOf(event, action);
      EventInvalidates(states, key, slices, reason, now);
      assert Metadata in {Metadata, Review, Ci} && Metadata in {Metadata} && Review in {Review} && Ci in {Ci};
      if slices == {} {
        return;
      }
      var st := if key in states then states[key] else FRESH;
      st := st.(invalidated := st.invalidated + slices);
      var generations := CountEvent(st.generations, slices);
      st := st.(generations := generations, invalidatedAt := Some(now));
      if reason == HeadChanged || st.reason.None? {
        st := st.(reason := Some(reason));
      }
      states := states[key := st];
    }

    /** The loop of handle_event over the slices it invalidates. */
    static method CountEvent(g: PerSlice<nat>, slices: set<Slice>) returns (r: PerSlice<nat>)
      ensures r == Bumped(g, slices)
    {
      r := g;
      var todo := slices;
      while |todo| != 0
        invariant todo <= slices
        invariant forall x: Slice :: r.Get(x) == g.Get(x) + if x in slices && x !in todo then 1 else 0
        decreases |todo|
      {
        var s :| s in todo;
        r := r.Put(s, r.Get(s) + 1);
        todo := todo - {s};
      }
      assert r.Get(Metadata) == Bumped(g, slices).metadata;
      assert r.Get(Review) == Bumped(g, slices).review;
      assert r.Get(Ci) == Bumped(g, slices).ci;
    }

    method Prune(active: set<HeadKey>)
      modifies this
      ensures states == map k | k in old(states) && k in active :: old(states)[k]
      ensures old(Valid()) ==> Valid()
    {
      var todo := states.Keys;
      while |todo| != 0
        invariant todo <= old(states).Keys
        invariant states == map k | k in old(states) && (k in active || k in todo) :: old(states)[k]
        decreases |todo|
      {
        var k :| k in todo;
        if k !in active {
          states := states - {k};
        }
        todo := todo - {k};
      }
    }
  }

  // ---------------------------------------------------------------- what a plan contains

  /** An unforced plan contains every invalidated slice and only slices that are due or invalidated;
      there is none exactly while an invalidation debounces or when nothing is due or invalidated. */
  lemma {:induction false} PlanContents(key: HeadKey, st: State, now: Time, ciPending: Option<bool>, c: Config)
    requires WellFormed(st)
    ensures var pending := if ciPending.Some? then ciPending.value else st.ciPending;
            var due := DueSet(st, now, pending, c);
            var r := PlanOf(key, Some(st), now, ciPending, false, c);
            && r.Ok?
            && (r.value.None? <==>
                  || (st.invalidated != {} && now < st.invalidatedAt.value + c.debounce)
                  || (st.invalidated == {} && due == {}))
            && (r.value.Some? ==>
                  && st.invalidated <= r.value.value.slices <= st.invalidated + due
                  && r.value.value.slices != {} && r.value.value.key == key
                  && r.value.value.generations == GenerationsOf(Some(st), r.value.value.slices))
  {
    var pending := if ciPending.Some? then ciPending.value else st.ciPending;
    var due := DueSet(st, now, pending, c);
    forall s: Slice
      ensures s in ALL
    {
      match s case Metadata => case Review => case Ci =>
    }
    if st.observedAt == PerSlice(None, None, None) {
      assert due == ALL;
    }
    assert due - {Metadata} == {} && Metadata !in due ==> due == {};
    var r := PlanOf(key, Some(st), now, ciPending, false, c);
    if r.value.Some? {
      var slices := r.value.value.slices;
      assert (slices == ALL && due == ALL) || slices == st.invalidated + due
             || slices == due - {Metadata} || slices == {Metadata};
      assert forall s: Slice :: s in slices ==> s in st.invalidated + due;
      assert st.invalidated <= ALL;
      if st.invalidated == {} {
        assert st.invalidated <= slices;
      } else if slices == st.invalidated + due {
        assert st.invalidated <= slices;
      }
    }
  }

  predicate Settled(found: Option<State>, now: Time, c: Config) {
    found.Some? && found.value.invalidated != {} ==>
      found.value.invalidatedAt.Some? && found.value.invalidatedAt.value + c.debounce <= now
  }

  function Ask(key: HeadKey, found: Option<State>, now: Time, ciPending: Option<bool>, c: Config): Option<Plan> {
    var r := PlanOf(key, found, now, ciPending, false, c);
    if r.Ok? then r.value else None
  }

  lemma {:induction false} AfterOne(key: HeadKey, found: Option<State>, now: Time, ciPending: Option<bool>, ack: bool,
                                    c: Config)
    requires c.ciPoll > 0 && c.metadataEvery > 0 && c.reviewEvery > 0
    requires (found.Some? ==> WellFormed(found.value)) && Settled(found, now, c)
    requires Ask(key, found, now, ciPending, c).Some?
    ensures var plan := Ask(key, found, now, ciPending, c).value;
            var st := Acknowledged(found, plan, now, ack);
            WellFormed(st) && st.invalidated == {} &&
            var due := DueSet(st, now, if ciPending.Some? then ciPending.value else st.ciPending, c);
            due <= {Metadata} && (Metadata in plan.slices ==> due == {}) && plan.slices != {}
  {
    var plan := Ask(key, found, now, ciPending, c).value;
    var st := Acknowledged(found, plan, now, ack);
    var pending := if ciPending.Some? then ciPending.value else st.ciPending;
    assert forall s: Slice :: s in plan.slices ==> !Due(st, s, now, pending, c);
    if found.Some? {
      PlanContents(key, found.value, now, ciPending, c);
      var asked := if ciPending.Some? then ciPending.value else found.value.ciPending;
      var was := DueSet(found.value, now, asked, c);
      assert Clearable(found.value, plan) == plan.slices;
      assert was <= plan.slices + {Metadata} && (Metadata in plan.slices ==> was <= plan.slices) by {
        assert was - {Metadata} <= was;
        assert was - {Metadata} == {} ==> was <= {Metadata};
      }
      assert forall s: Slice :: s !in plan.slices ==>
               (Due(st, s, now, pending, c) ==> Due(found.value, s, now, asked, c));
      assert forall s: Slice :: s in DueSet(st, now, pending, c) ==>
               s in DueSet(found.value, now, asked, c) && s !in plan.slices;
    }
  }

  /** Repeating plan and acknowledgement at one fixed time past the debounce, with one fixed answer about
      pending CI, stops after at most two acknowledgements. */
  lemma {:induction false} StopsAfterTwo(key: HeadKey, found: Option<State>, now: Time, ciPending: Option<bool>,
                                         ack1: bool, ack2: bool, c: Config)
    requires c.ciPoll > 0 && c.metadataEvery > 0 && c.reviewEvery > 0
    requires (found.Some? ==> WellFormed(found.value)) && Settled(found, now, c)
    requires Ask(key, found, now, ciPending, c).Some?
    ensures var one := Acknowledged(found, Ask(key, found, now, ciPending, c).value, now, ack1);
            Ask(key, Some(one), now, ciPending, c).Some? ==>
              var two := Acknowledged(Some(one), Ask(key, Some(one), now, ciPending, c).value, now, ack2);
              Ask(key, Some(two), now, ciPending, c) == None
  {
    AfterOne(key, found, now, ciPending, ack1, c);
    var one := Acknowledged(found, Ask(key, found, now, ciPending, c).value, now, ack1);
    if Ask(key, Some(one), now, ciPending, c).Some? {
      AfterOne(key, Some(one), now, ciPending, ack2, c);
    }
  }

  // ---------------------------------------------------------------- when a slice is read again

  /** Never read, or read at least the interval ago. */
  predicate Over(at: Option<Time>, interval: nat, now: Time) {
    at.Some? ==> at.value + interval <= now
  }

  /** What an unforced plan holds of a slice that is not invalidated: review and CI exactly when their time is over,
      which for CI is the poll interval while CI is pending and the review interval otherwise; metadata when its time is
      over, and, with nothing invalidated, only if neither of the others is to be read. */
  lemma {:induction false} PlannedExactlyWhen(key: HeadKey, st: State, now: Time, ciPending: Option<bool>, c: Config,
                                              s: Slice)
    requires WellFormed(st) && s !in st.invalidated && PlanOf(key, Some(st), now, ciPending, false, c).value.Some?
    ensures var slices := PlanOf(key, Some(st), now, ciPending, false, c).value.value.slices;
            var pending := if ciPending.Some? then ciPending.value else st.ciPending;
            var review := Over(st.observedAt.review, c.reviewEvery, now);
            var ci := Over(st.observedAt.ci, if pending then c.ciPoll else c.reviewEvery, now);
            s in slices <==>
              match s
              case Review => review
              case Ci => ci
              case Metadata =>
                Over(st.observedAt.metadata, c.metadataEvery, now) && (st.invalidated != {} || (!review && !ci))
  {
    var pending := if ciPending.Some? then ciPending.value else st.ciPending;
    var due := DueSet(st, now, pending, c);
    assert Metadata in ALL && Review in ALL && Ci in ALL;
    assert Review in due <==> Over(st.observedAt.review, c.reviewEvery, now);
    assert Ci in due <==> Over(st.observedAt.ci, if pending then c.ciPoll else c.reviewEvery, now);
    assert Metadata in due <==> Over(st.observedAt.metadata, c.metadataEvery, now);
    assert Review in due || Ci in due ==> Review in due - {Metadata} || Ci in due - {Metadata};
    if Review !in due && Ci !in due {
      assert due - {Metadata} == {};
    }
  }

  /** Why a plan is made: asked for by force, for a head never seen, for the reason of its invalidation, for a CI poll
      when nothing but pending CI is to be read again, and else to reconcile. */
  lemma {:induction false} PlanSaysWhy(key: HeadKey, found: Option<State>, now: Time, ciPending: Option<bool>,
                                       force: bool, c: Config)
    requires found.Some? ==> WellFormed(found.value)
    requires PlanOf(key, found, now, ciPending, force, c).value.Some?
    ensures var plan := PlanOf(key, found, now, ciPending, force, c).value.value;
            && plan.key == key
            && (force ==> plan.reason == Forced && plan.slices == {Metadata, Review, Ci})
            && (!force && found.None? ==> plan.reason == Initial && plan.slices == {Metadata, Review, Ci})
            && (!force && found.Some? && found.value.invalidated != {} ==> Some(plan.reason) == found.value.reason)
            && (!force && found.Some? && found.value.invalidated == {} ==>
                  var pending := if ciPending.Some? then ciPending.value else found.value.ciPending;
                  plan.reason == if plan.slices == {Ci} && pending then CiPoll
                                 else if plan.slices == {Metadata} then MetadataReconciliation
                                 else ReviewReconciliation)
  {
    if !force && found.Some? && found.value.invalidated == {} {
      var pending := if ciPending.Some? then ciPending.value else found.value.ciPending;
      PlannedReason(key, found.value, now, ciPending, c);
    }
  }

  lemma {:induction false} PlannedReason(key: HeadKey, st: State, now: Time, ciPending: Option<bool>, c: Config)
    requires st.invalidated == {} && PlanOf(key, Some(st), now, ciPending, false, c).value.Some?
    ensures var plan := PlanOf(key, Some(st), now, ciPending, false, c).value.value;
            var pending := if ciPending.Some? then ciPending.value else st.ciPending;
            && plan.slices != {}
            && plan.reason == if plan.slices == {Ci} && pending then CiPoll
                              else if plan.slices == {Metadata} then MetadataReconciliation
                              else ReviewReconciliation
  {
    var pending := if ciPending.Some? then ciPending.value else st.ciPending;
    var due := DueSet(st, now, pending, c) - {Metadata};
    if Review !in due && due != {} {
      assert due == {Ci};
    }
    if Review in due {
      assert Review in due && Review !in {Ci};
    }
  }

  /** What an acknowledgement leaves: its slices were read now, the answer about CI is kept if CI was read, and the
      reason and the time of an invalidation go with the last of its marks. */
  lemma {:induction false} AckLeaves(found: Option<State>, plan: Plan, now: Time, ciPending: bool)
    ensures var was, st := if found.Some? then found.value else FRESH, Acknowledged(found, plan, now, ciPending);
            && (forall s: Slice ::
                  st.observedAt.Get(s) == if s in plan.slices then Some(now) else was.observedAt.Get(s))
            && st.ciPending == (if Ci in plan.slices then ciPending else was.ciPending)
            && st.generations == was.generations && st.invalidated <= was.invalidated
            && (forall s: Slice :: s in was.invalidated && s !in st.invalidated ==>
                  s in plan.slices && s in plan.generations && plan.generations[s] == was.generations.Get(s))
            && (if st.invalidated == {} then st.invalidatedAt.None? && st.reason.None?
                else st.invalidatedAt == was.invalidatedAt && st.reason == was.reason)
  {
  }

  /** A slice that was read is not asked for again before its interval is over, unless an event hits it. */
  lemma {:induction false} ReadIsNotRepeated(key: HeadKey, found: Option<State>, plan: Plan, readAt: Time, ack: bool,
                                             now: Time, ciPending: Option<bool>, c: Config, s: Slice)
    requires s in plan.slices && (found.Some? ==> WellFormed(found.value))
    ensures var st := Acknowledged(found, plan, readAt, ack);
            var r := PlanOf(key, Some(st), now, ciPending, false, c);
            var every := match s
                         case Metadata => c.metadataEvery
                         case Review => c.reviewEvery
                         case Ci => if (if ciPending.Some? then ciPending.value else st.ciPending) then c.ciPoll
                                    else c.reviewEvery;
            s !in st.invalidated && r.Ok? && r.value.Some? && s in r.value.value.slices ==> readAt + every <= now
  {
    var st := Acknowledged(found, plan, readAt, ack);
    AckLeaves(found, plan, readAt, ack);
    var r := PlanOf(key, Some(st), now, ciPending, false, c);
    if s !in st.invalidated && r.Ok? && r.value.Some? {
      PlannedExactlyWhen(key, st, now, ciPending, c, s);
      assert st.observedAt.Get(s) == Some(readAt);
    }
  }
}

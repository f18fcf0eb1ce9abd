/** The runs of ObservationRuns, told by the events GitHub names instead of the slices they hit. */
module NamedEvents {
  import opened Wrappers
  import opened LifecycleModels
  import opened Observation
  import opened ObservationRuns

  /** An event as it arrives, or any other step of the controller. */
  datatype Happening = Heard(event: string, action: Option<string>, key: HeadKey, now: Time) | Other(act: Act)

  function ActOf(h: Happening): Act {
    match h
    case Heard(event, action, key, now) =>
      var (slices, reason) := SlicesOf(event, action);
      Event(key, slices, reason, now)
    case Other(act) => act
  }

  function ActsOf(hs: seq<Happening>): (acts: seq<Act>)
    ensures |acts| == |hs| && forall i :: 0 <= i < |hs| ==> acts[i] == ActOf(hs[i])
  {
    seq(|hs|, i requires 0 <= i < |hs| => ActOf(hs[i]))
  }

  /** Every event of the run is a named one. */
  ghost predicate AllNamed(hs: seq<Happening>) {
    forall i :: 0 <= i < |hs| && hs[i].Other? ==> !hs[i].act.Event?
  }

  /** Whether news of that name is about the slice: reviews about review, checks and statuses about CI, a changed head
      about everything, and any other news of the pull request about its metadata. */
  predicate IsAbout(event: string, action: Option<string>, s: Slice) {
    if event == "pull_request" then s == Metadata || ChangesHead(action)
    else
      match s
      case Metadata => false
      case Review =>
        || event == "pull_request_review" || event == "pull_request_review_comment"
        || event == "pull_request_review_thread"
      case Ci => event == "check_run" || event == "check_suite" || event == "status"
  }

  lemma {:induction false} HitsWhatItIsAbout(event: string, action: Option<string>, s: Slice)
    ensures s in SlicesOf(event, action).0 <==> IsAbout(event, action, s)
  {
    EventMeans(event, action);
    assert Metadata in {Metadata, Review, Ci} && Metadata in {Metadata} && Review in {Review} && Ci in {Ci};
    assert |"status"| == 6 && |"check_run"| == 9 && |"check_suite"| == 11 && |"pull_request"| == 12;
    assert |"pull_request_review"| == 19 && |"pull_request_review_comment"| == 27;
    assert |"pull_request_review_thread"| == 26;
  }

  /** Step `e` is news about the slice of the head, and the head has not been dropped since. */
  ghost predicate News(hs: seq<Happening>, e: nat, k: nat, key: HeadKey, s: Slice)
    requires k <= |hs|
  {
    && Dropped(ActsOf(hs), k, key) <= e < k && hs[e].Heard? && hs[e].key == key
    && IsAbout(hs[e].event, hs[e].action, s)
  }

  lemma {:induction false} NewsIsHit(hs: seq<Happening>, e: nat, key: HeadKey, s: Slice)
    requires AllNamed(hs) && e < |hs|
    ensures Hits(ActsOf(hs)[e], key, s) <==>
            hs[e].Heard? && hs[e].key == key && IsAbout(hs[e].event, hs[e].action, s)
  {
    if hs[e].Heard? {
      HitsWhatItIsAbout(hs[e].event, hs[e].action, s);
    }
  }

  /** Nobody who looked after it has reported back. */
  ghost predicate Unanswered(hs: seq<Happening>, e: nat, k: nat, key: HeadKey, s: Slice, c: Config)
    requires k <= |hs|
  {
    forall a: nat :: a < k ==> !Answers(ActsOf(hs), a, e, key, s, c)
  }

  lemma {:induction false} LastIsNews(hs: seq<Happening>, e: nat, k: nat, key: HeadKey, s: Slice, c: Config)
    requires AllNamed(hs) && k <= |hs| && News(hs, e, k, key, s) && Unanswered(hs, e, k, key, s, c)
    ensures e <= LastHit(ActsOf(hs), k, key, s) && Unanswered(hs, LastHit(ActsOf(hs), k, key, s), k, key, s, c)
  {
    NewsIsHit(hs, e, key, s);
    var last := LastHit(ActsOf(hs), k, key, s);
    forall a: nat | a < k
      ensures !Answers(ActsOf(hs), a, last, key, s, c)
    {
      assert !Answers(ActsOf(hs), a, e, key, s, c);
    }
  }

  /** No news is lost, and nothing is made up: while no prune drops the head between a plan for it and the plan's
      acknowledgement, a slice is marked invalidated exactly when there was news about it, since the head was last
      dropped, that no acknowledged plan issued after it has answered. */
  lemma {:induction false} NoNewsIsLost(hs: seq<Happening>, k: nat, key: HeadKey, s: Slice, c: Config)
    requires AllNamed(hs) && k <= |hs| && PlansOutlivePrunes(ActsOf(hs), key, s, c)
    ensures Marked(ActsOf(hs), k, key, s, c) <==>
            exists e: nat :: News(hs, e, k, key, s) && Unanswered(hs, e, k, key, s, c)
  {
    var acts := ActsOf(hs);
    NoInvalidationIsLost(acts, k, key, s, c);
    var last := LastHit(acts, k, key, s);
    if Marked(acts, k, key, s, c) {
      NewsIsHit(hs, last, key, s);
      assert News(hs, last, k, key, s) && Unanswered(hs, last, k, key, s, c);
    }
    if e: nat :| News(hs, e, k, key, s) && Unanswered(hs, e, k, key, s, c) {
      LastIsNews(hs, e, k, key, s, c);
    }
  }

  /** So a failing check is heard: after a check event on a head the next unforced plan past the debounce holds CI,
      whatever came in between, unless an acknowledged plan issued after the event has already read it or the head was
      dropped. */
  lemma {:induction false} CheckIsPlanned(hs: seq<Happening>, e: nat, k: nat, key: HeadKey, now: Time,
                                          ciPending: Option<bool>, c: Config)
    requires AllNamed(hs) && k <= |hs| && PlansOutlivePrunes(ActsOf(hs), key, Ci, c)
    requires Dropped(ActsOf(hs), k, key) <= e < k && hs[e].Heard? && hs[e].key == key && hs[e].event == "check_run"
    requires Unanswered(hs, e, k, key, Ci, c)
    ensures key in StatesAt(ActsOf(hs), k, c)
    ensures var st := StatesAt(ActsOf(hs), k, c)[key];
            var r := PlanOf(key, Some(st), now, ciPending, false, c);
            && r.Ok? && st.invalidatedAt.Some?
            && (st.invalidatedAt.value + c.debounce <= now ==> r.value.Some? && Ci in r.value.value.slices)
  {
    assert News(hs, e, k, key, Ci);
    NoNewsIsLost(hs, k, key, Ci, c);
    NeverFaults(ActsOf(hs), k, c);
    PlanContents(key, StatesAt(ActsOf(hs), k, c)[key], now, ciPending, c);
  }
}

/** Paged reads of src/agentic_pr_dash/github_api.py: the required-check scan, its batched single-page
    twin and the review-thread list. */
module RequiredChecks {
  import opened Wrappers

  const ROLLUP_MAX_PAGES := 20

  /** One context of a status rollup; a node that is no dictionary is skipped by every reader. */
  datatype Context =
    | CheckRun(status: string, required: bool)
    | StatusContext(state: string, required: bool)
    | Unknown(required: bool)
    | NotADict

  datatype Page<T> = Page(nodes: seq<T>, hasNext: bool, endCursor: Option<string>)

  /** What one request brings back. `NoRollup` is a commit without status checks, which is an observation;
      `Failed` is a failed command or a malformed answer. */
  datatype Reply<T> = Failed | NoRollup | Contents(page: Page<T>)

  /** The repository's state during one scan: the answer to each cursor. */
  type Server<T> = Option<string> -> Reply<T>

  // ---------------------------------------------------------------- the rule

  predicate NonTerminal(c: Context) {
    match c
    case CheckRun(status, _) => status != "COMPLETED"
    case StatusContext(state, _) => state == "EXPECTED" || state == "PENDING"
    case Unknown(_) => false
    case NotADict => false
  }

  predicate Required(c: Context) {
    !c.NotADict? && c.required
  }

  predicate SomeRequired(cs: seq<Context>) {
    exists i :: 0 <= i < |cs| && Required(cs[i])
  }

  predicate SomeRequiredPending(cs: seq<Context>) {
    exists i :: 0 <= i < |cs| && Required(cs[i]) && NonTerminal(cs[i])
  }

  predicate SomeUnrequiredPending(cs: seq<Context>) {
    exists i :: 0 <= i < |cs| && !Required(cs[i]) && NonTerminal(cs[i])
  }

  /** Some required check is still running; or none is required at all and some check is still running. */
  predicate Pending(cs: seq<Context>) {
    || SomeRequiredPending(cs)
    || (!SomeRequired(cs) && exists i :: 0 <= i < |cs| && NonTerminal(cs[i]))
  }

  /** Each part of the rule over a concatenation. */
  lemma {:induction false} PartsOfSum(a: seq<Context>, b: seq<Context>)
    ensures SomeRequired(a + b) <==> SomeRequired(a) || SomeRequired(b)
    ensures SomeRequiredPending(a + b) <==> SomeRequiredPending(a) || SomeRequiredPending(b)
    ensures SomeUnrequiredPending(a + b) <==> SomeUnrequiredPending(a) || SomeUnrequiredPending(b)
  {
    var s := a + b;
    assert forall i :: 0 <= i < |a| ==> s[i] == a[i];
    assert forall i :: 0 <= i < |b| ==> s[|a| + i] == b[i];
  }

  // ---------------------------------------------------------------- following cursors

  predicate GoesOn<T>(p: Page<T>) {
    p.hasNext && p.endCursor.Some? && p.endCursor.value != ""
  }

  /** The pages at most `n` requests bring back, starting at a cursor. */
  function Fetched<T>(server: Server<T>, after: Option<string>, n: nat): (ps: seq<Page<T>>)
    ensures |ps| <= n
    decreases n
  {
    if n == 0 || !server(after).Contents? then []
    else
      var p := server(after).page;
      [p] + if GoesOn(p) then Fetched(server, p.endCursor, n - 1) else []
  }

  /** How those requests end. */
  datatype Ending = AtLastPage | AtFailure | AtNoRollup | OutOfRequests

  function EndOf<T>(server: Server<T>, after: Option<string>, n: nat): Ending
    decreases n
  {
    if n == 0 then OutOfRequests
    else
      match server(after)
      case Failed => AtFailure
      case NoRollup => AtNoRollup
      case Contents(p) => if GoesOn(p) then EndOf(server, p.endCursor, n - 1) else AtLastPage
  }

  function All<T>(ps: seq<Page<T>>): seq<T> {
    if |ps| == 0 then [] else ps[0].nodes + All(ps[1..])
  }

  // ---------------------------------------------------------------- the live scan

  /** The answer, and whether the scan noted that it could not observe. */
  datatype Probe = Probe(pending: bool, failureNoted: bool)

  /** What a scan of at most `n` requests answers. */
  function Answer(server: Server<Context>, after: Option<string>, n: nat, before: seq<Context>): Probe {
    var cs := before + All(Fetched(server, after, n));
    if SomeRequiredPending(cs) then Probe(true, false)
    else
      match EndOf(server, after, n)
      case AtLastPage => Probe(Pending(cs), false)
      case AtNoRollup => Probe(false, false)
      case AtFailure => Probe(false, true)
      case OutOfRequests => Probe(false, true)
  }

  lemma {:induction false} AnswerStep(server: Server<Context>, after: Option<string>, n: nat, before: seq<Context>)
    requires n > 0 && server(after).Contents?
    ensures var p := server(after).page;
            && (SomeRequiredPending(before + p.nodes) ==> Answer(server, after, n, before) == Probe(true, false))
            && (GoesOn(p) ==> Answer(server, after, n, before) == Answer(server, p.endCursor, n - 1, before + p.nodes))
            && (!GoesOn(p) && !SomeRequiredPending(before + p.nodes) ==>
                  Answer(server, after, n, before) == Probe(Pending(before + p.nodes), false))
  {
    var p := server(after).page;
    var ps := Fetched(server, after, n);
    assert ps[0] == p && All(ps) == p.nodes + All(ps[1..]);
    assert before + All(ps) == before + p.nodes + All(ps[1..]);
    PartsOfSum(before + p.nodes, All(ps[1..]));
    assert !GoesOn(p) ==> before + p.nodes + All(ps[1..]) == before + p.nodes;
  }

  lemma {:induction false} RuleWithoutRequired(cs: seq<Context>)
    requires !SomeRequiredPending(cs)
    ensures Pending(cs) <==> SomeUnrequiredPending(cs) && !SomeRequired(cs)
  {
    assert forall i :: 0 <= i < |cs| && NonTerminal(cs[i]) ==> !Required(cs[i]);
  }

  /** The loop over the contexts of one page; it stops at the first required one still running. */
  method ScanPage(nodes: seq<Context>, sawRequired: bool, unrequiredPending: bool)
    returns (found: bool, saw: bool, unrequired: bool)
    ensures found <==> SomeRequiredPending(nodes)
    ensures !found ==> (saw <==> sawRequired || SomeRequired(nodes))
    ensures !found ==> (unrequired <==> unrequiredPending || SomeUnrequiredPending(nodes))
  {
    saw, unrequired := sawRequired, unrequiredPending;
    for i := 0 to |nodes|
      invariant !SomeRequiredPending(nodes[..i])
      invariant saw <==> sawRequired || SomeRequired(nodes[..i])
      invariant unrequired <==> unrequiredPending || SomeUnrequiredPending(nodes[..i])
    {
      var c := nodes[i];
      assert nodes[..i + 1] == nodes[..i] + [c];
      PartsOfSum(nodes[..i], [c]);
      assert [c][0] == c;
      if Required(c) {
        saw := true;
        if NonTerminal(c) {
          return true, saw, unrequired;
        }
      } else if NonTerminal(c) {
        unrequired := true;
      }
    }
    assert nodes[..|nodes|] == nodes;
    found := false;
  }

  /** What the loop has to know of the contexts read so far. */
  lemma {:induction false} FactsOfSum(cs: seq<Context>, nodes: seq<Context>)
    ensures SomeRequired(cs + nodes) <==> SomeRequired(cs) || SomeRequired(nodes)
    ensures SomeRequiredPending(cs + nodes) <==> SomeRequiredPending(cs) || SomeRequiredPending(nodes)
    ensures SomeUnrequiredPending(cs + nodes) <==> SomeUnrequiredPending(cs) || SomeUnrequiredPending(nodes)
    ensures !SomeRequiredPending(cs + nodes) ==>
              (Pending(cs + nodes) <==> SomeUnrequiredPending(cs + nodes) && !SomeRequired(cs + nodes))
  {
    PartsOfSum(cs, nodes);
    if !SomeRequiredPending(cs + nodes) {
      RuleWithoutRequired(cs + nodes);
    }
  }

  lemma {:induction false} AnswerStops(server: Server<Context>, after: Option<string>, n: nat, before: seq<Context>)
    requires !SomeRequiredPending(before) && (n == 0 || !server(after).Contents?)
    ensures Answer(server, after, n, before) == Probe(false, n == 0 || server(after).Failed?)
  {
    assert before + [] == before;
  }

  /** What the loop remembers of the contexts it has read. */
  ghost predicate Remembers(cs: seq<Context>, sawRequired: bool, unrequiredPending: bool) {
    && !SomeRequiredPending(cs) && (sawRequired <==> SomeRequired(cs))
    && (unrequiredPending <==> SomeUnrequiredPending(cs))
  }

  /** One page of the loop: an answer, or what to remember and where to go on. */
  method TakePage(page: Page<Context>, sawRequired: bool, unrequiredPending: bool, ghost server: Server<Context>,
                  ghost after: Option<string>, ghost n: nat, ghost cs: seq<Context>)
    returns (answer: Option<bool>, saw: bool, unrequired: bool)
    requires n > 0 && server(after) == Contents(page) && Remembers(cs, sawRequired, unrequiredPending)
    ensures answer.Some? ==> Answer(server, after, n, cs) == Probe(answer.value, false)
    ensures answer.None? ==>
              && GoesOn(page) && Remembers(cs + page.nodes, saw, unrequired)
              && Answer(server, after, n, cs) == Answer(server, page.endCursor, n - 1, cs + page.nodes)
  {
    AnswerStep(server, after, n, cs);
    FactsOfSum(cs, page.nodes);
    var found;
    found, saw, unrequired := ScanPage(page.nodes, sawRequired, unrequiredPending);
    if found {
      return Some(true), saw, unrequired;
    }
    if !page.hasNext || page.endCursor.None? || page.endCursor.value == "" {
      return Some(unrequired && !saw), saw, unrequired;
    }
    answer := None;
  }

  /** The page loop, for any limit on the pages. */
  method ScanUpTo(server: Server<Context>, limit: nat) returns (r: Probe)
    ensures r == Answer(server, None, limit, [])
  {
    var after: Option<string>, sawRequired, unrequiredPending := None, false, false;
    ghost var cs: seq<Context>, whole := [], Answer(server, None, limit, []);
    for k := 0 to limit
      invariant Remembers(cs, sawRequired, unrequiredPending)
      invariant whole == Answer(server, after, limit - k, cs)
    {
      var reply := server(after);
      if !reply.Contents? {
        AnswerStops(server, after, limit - k, cs);
        return Probe(false, reply.Failed?);
      }
      var answer;
      answer, sawRequired, unrequiredPending :=
        TakePage(reply.page, sawRequired, unrequiredPending, server, after, limit - k, cs);
      if answer.Some? {
        return Probe(answer.value, false);
      }
      after, cs := reply.page.endCursor, cs + reply.page.nodes;
    }
    AnswerStops(server, after, 0, cs);
    r := Probe(false, true);
  }

  /** _required_checks_pending_live on a cache miss. */
  method ScanLive(server: Server<Context>) returns (r: Probe)
    ensures r == Answer(server, None, ROLLUP_MAX_PAGES, [])
  {
    r := ScanUpTo(server, ROLLUP_MAX_PAGES);
  }

  // ---------------------------------------------------------------- every way of paging

  /** The server hands out these pages, one cursor after the other, and the last one leads no further. */
  ghost predicate Leads<T(!new)>(server: Server<T>, after: Option<string>, ps: seq<Page<T>>)
    decreases |ps|
  {
    && |ps| > 0 && server(after) == Contents(ps[0])
    && if |ps| == 1 then !GoesOn(ps[0]) else GoesOn(ps[0]) && Leads(server, ps[0].endCursor, ps[1..])
  }

  /** They are all there is: the last page claims no successor. */
  ghost predicate Serves<T(!new)>(server: Server<T>, after: Option<string>, ps: seq<Page<T>>) {
    Leads(server, after, ps) && !ps[|ps| - 1].hasNext
  }

  lemma {:induction false} ServedPages<T(!new)>(server: Server<T>, after: Option<string>, ps: seq<Page<T>>, n: nat)
    requires Leads(server, after, ps)
    ensures Fetched(server, after, n) == if |ps| <= n then ps else ps[..n]
    ensures EndOf(server, after, n) == if |ps| <= n then AtLastPage else OutOfRequests
    decreases |ps|
  {
    if |ps| > 1 {
      ServedPages(server, ps[0].endCursor, ps[1..], if n > 0 then n - 1 else 0);
      assert ps == [ps[0]] + ps[1..];
    }
  }

  lemma {:induction false} AllPrefix<T>(ps: seq<Page<T>>, n: nat)
    requires n <= |ps|
    ensures All(ps) == All(ps[..n]) + All(ps[n..])
    decreases n
  {
    if n == 0 {
      assert ps[..0] == [] && ps[0..] == ps;
    } else {
      AllPrefix(ps[1..], n - 1);
      assert ps[..n][1..] == ps[1..][..n - 1] && ps[n..] == ps[1..][n - 1..];
    }
  }

  /** Over any split into at most 20 pages the live scan answers the rule on the whole rollup and notes no
      failure. Over a longer split it still answers the rule exactly when a required check is running on
      the first 20 pages or the rule says no; otherwise it answers no, and notes that. */
  lemma {:induction false} LiveAnswersTheRule(server: Server<Context>, ps: seq<Page<Context>>)
    requires Serves(server, None, ps)
    ensures var r := Answer(server, None, ROLLUP_MAX_PAGES, []);
            && (|ps| <= ROLLUP_MAX_PAGES ==> r == Probe(Pending(All(ps)), false))
            && (|ps| > ROLLUP_MAX_PAGES ==>
                  && (r.pending == Pending(All(ps)) <==>
                        SomeRequiredPending(All(ps[..ROLLUP_MAX_PAGES])) || !Pending(All(ps)))
                  && (r.pending != Pending(All(ps)) ==> r.failureNoted))
  {
    ServedPages(server, None, ps, ROLLUP_MAX_PAGES);
    if |ps| <= ROLLUP_MAX_PAGES {
      assert [] + All(ps) == All(ps);
    } else {
      var head := All(ps[..ROLLUP_MAX_PAGES]);
      AllPrefix(ps, ROLLUP_MAX_PAGES);
      PartsOfSum(head, All(ps[ROLLUP_MAX_PAGES..]));
      assert [] + head == head;
    }
  }

  /** What counts as running: a check run until it is completed, a commit status while it is expected or pending, and
      nothing else. */
  predicate Running(c: Context) {
    || (c.CheckRun? && c.status != "COMPLETED")
    || (c.StatusContext? && c.state in ["EXPECTED", "PENDING"])
  }

  /** What must pass before a merge: the contexts marked so. */
  predicate Gates(c: Context) {
    (c.CheckRun? || c.StatusContext? || c.Unknown?) && c.required
  }

  /** What the live scan says of a rollup of up to 20 pages, context by context: CI is still going on exactly when a
      gating context is running or, where nothing gates, any context is. */
  lemma {:induction false} LiveTells(server: Server<Context>, ps: seq<Page<Context>>)
    requires Serves(server, None, ps) && |ps| <= 20
    ensures var r, cs := Answer(server, None, ROLLUP_MAX_PAGES, []), All(ps);
            && !r.failureNoted
            && (r.pending <==>
                  || (exists c :: c in cs && Gates(c) && Running(c))
                  || ((forall c :: c in cs ==> !Gates(c)) && exists c :: c in cs && Running(c)))
  {
    LiveAnswersTheRule(server, ps);
    PendingMeans(All(ps));
  }

  lemma {:induction false} PendingMeans(cs: seq<Context>)
    ensures Pending(cs) <==>
            || (exists c :: c in cs && Gates(c) && Running(c))
            || ((forall c :: c in cs ==> !Gates(c)) && exists c :: c in cs && Running(c))
  {
    forall c
      ensures Required(c) == Gates(c) && NonTerminal(c) == Running(c)
    {
    }
    if c :| c in cs && Running(c) {
      var i :| 0 <= i < |cs| && cs[i] == c;
    }
  }

  /** A page that claims a successor without a cursor ends the scan as if it were the last: wherever it stands
      among up to 20 pages, the answer is the rule on what was read, and no failure is noted. */
  lemma {:induction false} MissingCursorAnswersPrefix(server: Server<Context>, ps: seq<Page<Context>>)
    requires Leads(server, None, ps) && |ps| <= ROLLUP_MAX_PAGES && ps[|ps| - 1].hasNext
    ensures Answer(server, None, ROLLUP_MAX_PAGES, []) == Probe(Pending(All(ps)), false)
  {
    ServedPages(server, None, ps, ROLLUP_MAX_PAGES);
    assert [] + All(ps) == All(ps);
  }

  /** When such an answer can be trusted: it is the rule's answer whatever the unread pages hold if and only if a
      required check was seen running. */
  lemma {:induction false} PrefixDecidesExactlyWhen(cs: seq<Context>)
    ensures (forall rest :: Pending(cs + rest) == Pending(cs)) <==> SomeRequiredPending(cs)
  {
    if SomeRequiredPending(cs) {
      forall rest
        ensures Pending(cs + rest) == Pending(cs)
      {
        PartsOfSum(cs, rest);
      }
    } else {
      var rest := [CheckRun(if Pending(cs) then "COMPLETED" else "QUEUED", true)];
      PartsOfSum(cs, rest);
      assert Required(rest[0]);
      RuleWithoutRequired(cs);
      if Pending(cs) {
        assert !SomeRequiredPending(rest);
        RuleWithoutRequired(cs + rest);
      } else {
        assert NonTerminal(rest[0]);
      }
      assert Pending(cs + rest) != Pending(cs);
    }
  }

  /** So a required check still running behind such a page is reported as finished CI. */
  lemma {:induction false} MissingCursorHidesRequired()
    returns (server: Server<Context>, first: Page<Context>, rest: seq<Context>)
    ensures server(None) == Contents(first) && first.hasNext
    ensures Pending(first.nodes + rest)
    ensures Answer(server, None, ROLLUP_MAX_PAGES, []) == Probe(false, false)
  {
    var page: Page<Context> := Page([CheckRun("COMPLETED", true)], true, None);
    first, rest := page, [CheckRun("QUEUED", true)];
    server := cursor => Contents(page);
    assert (first.nodes + rest)[1] == CheckRun("QUEUED", true);
    assert Leads(server, None, [page]);
    MissingCursorAnswersPrefix(server, [page]);
    assert All([page]) == page.nodes + All([page][1..]) == page.nodes;
  }

  // ---------------------------------------------------------------- the batched twin

  /** One pull request in a batch answer: whether its threads could be read whole, and its rollup. */
  datatype Rollup = Malformed | NoCommit | NoChecks | Checks(page: Page<Context>)
  datatype Row = Missing | Row(threadsReadable: bool, threadsTruncated: bool, rollup: Rollup)

  /** The rollup part of batch_fetch_pr_review_and_ci: None is a pull request left out of the batch. */
  method BatchRow(row: Row) returns (r: Option<bool>)
    ensures r.Some? <==> row.Row? && row.threadsReadable && !row.threadsTruncated && !row.rollup.Malformed?
                         && (row.rollup.Checks? ==> !row.rollup.page.hasNext)
    ensures r.Some? ==> r.value == (row.rollup.Checks? && Pending(row.rollup.page.nodes))
  {
    if row.Missing? || !row.threadsReadable || row.threadsTruncated || row.rollup.Malformed? {
      return None;
    }
    var pending := false;
    if row.rollup.Checks? {
      var page := row.rollup.page;
      if page.hasNext {
        return None;
      }
      var found, saw, unrequired := ScanPage(page.nodes, false, false);
      pending := found;
      if !pending {
        RuleWithoutRequired(page.nodes);
        pending := unrequired && !saw;
      }
    }
    r := Some(pending);
  }

  type Cache = map<(string, int), bool>

  /** _required_checks_pending_live: a primed entry answers for the server. */
  method RequiredChecksPendingLive(cache: Cache, repo: string, prNumber: int, server: Server<Context>)
    returns (r: Probe)
    ensures r == if (repo, prNumber) in cache then Probe(cache[(repo, prNumber)], false)
                 else Answer(server, None, ROLLUP_MAX_PAGES, [])
  {
    if (repo, prNumber) in cache {
      return Probe(cache[(repo, prNumber)], false);
    }
    r := ScanLive(server);
  }

  /** The server and the batch row see the same rollup, however the server pages it. */
  ghost predicate SameRollup(server: Server<Context>, rollup: Rollup) {
    match rollup
    case Malformed => true
    case NoCommit => server(None) == Failed
    case NoChecks => server(None) == NoRollup
    case Checks(page) => exists ps :: Serves(server, None, ps) && |ps| <= ROLLUP_MAX_PAGES && All(ps) == page.nodes
  }

  /** A primed entry agrees with the live query on the answer, and on having observed it except where the
      pull request lists no commit: the batch takes that for no checks, the live query for a failure. */
  lemma {:induction false} PrimedAgreesWithLive(server: Server<Context>, rollup: Rollup)
    requires SameRollup(server, rollup) && !rollup.Malformed?
    ensures var primed := rollup.Checks? && Pending(rollup.page.nodes);
            var live := Answer(server, None, ROLLUP_MAX_PAGES, []);
            live.pending == primed && (live.failureNoted <==> rollup.NoCommit?)
  {
    match rollup {
      case NoCommit => assert [] + All(Fetched(server, None, ROLLUP_MAX_PAGES)) == [];
      case NoChecks => assert [] + All(Fetched(server, None, ROLLUP_MAX_PAGES)) == [];
      case Checks(page) =>
        var ps :| Serves(server, None, ps) && |ps| <= ROLLUP_MAX_PAGES && All(ps) == page.nodes;
        LiveAnswersTheRule(server, ps);
    }
  }

  /** A cursor that is missing or empty leads nowhere: a first page that claims a successor behind one ends the scan on
      what it holds. */
  lemma {:induction false} CursorlessPageEnds(server: Server<Context>, page: Page<Context>)
    requires server(None) == Contents(page) && page.hasNext && (page.endCursor == None || page.endCursor == Some(""))
    ensures Answer(server, None, ROLLUP_MAX_PAGES, []) == Probe(Pending(page.nodes), false)
  {
    assert Leads(server, None, [page]);
    MissingCursorAnswersPrefix(server, [page]);
    assert All([page]) == page.nodes + All([page][1..]) == page.nodes;
  }

  // ---------------------------------------------------------------- review threads

  datatype ReadError = FirstPage | LaterPage | NoCursor

  lemma {:induction false} LastPageEnds<T>(server: Server<T>, after: Option<string>, n: nat)
    requires EndOf(server, after, n) == AtLastPage
    ensures |Fetched(server, after, n)| > 0
  {
  }

  /** What a read of all review threads gives: every page, or an error; only a lenient read whose first
      request fails gives the empty list instead. */
  function Threads<T>(server: Server<T>, after: Option<string>, strict: bool, n: nat, before: seq<T>, paged: bool)
    : Result<seq<T>, ReadError>
  {
    var ps := Fetched(server, after, n);
    if EndOf(server, after, n) == AtLastPage then
      LastPageEnds(server, after, n);
      if ps[|ps| - 1].hasNext then Err(NoCursor) else Ok(before + All(ps))
    else if paged || ps != [] then Err(LaterPage)
    else if strict then Err(FirstPage)
    else Ok(before)
  }

  lemma {:induction false} ThreadsStep<T>(server: Server<T>, after: Option<string>, strict: bool, n: nat,
                                          before: seq<T>, paged: bool)
    requires n > 0 && server(after).Contents?
    ensures var p := server(after).page;
            Threads(server, after, strict, n, before, paged) ==
              if GoesOn(p) then Threads(server, p.endCursor, strict, n - 1, before + p.nodes, true)
              else if p.hasNext then Err(NoCursor) else Ok(before + p.nodes)
  {
    var p, ps := server(after).page, Fetched(server, after, n);
    assert ps[0] == p && All(ps) == p.nodes + All(ps[1..]);
    assert before + All(ps) == before + p.nodes + All(ps[1..]);
    if !GoesOn(p) {
      assert ps == [p] && p.nodes + All(ps[1..]) == p.nodes;
    }
  }

  /** get_review_threads on a cache miss. The loop has no page limit; the model stops it after `requests` and
      then returns nothing, so nothing is assumed of how far the server's cursors lead. */
  method GetReviewThreads<T>(server: Server<T>, strict: bool, requests: nat)
    returns (r: Option<Result<seq<T>, ReadError>>)
    ensures r == if EndOf(server, None, requests) == OutOfRequests then None
                 else Some(Threads(server, None, strict, requests, [], false))
  {
    var threads: seq<T>, cursor: Option<string>, paged := [], None, false;
    var left := requests;
    ghost var end, whole := EndOf(server, None, requests), Threads(server, None, strict, requests, [], false);
    while left > 0
      invariant end == EndOf(server, cursor, left) && whole == Threads(server, cursor, strict, left, threads, paged)
      invariant !paged ==> threads == []
    {
      var reply := server(cursor);
      if !reply.Contents? {
        if paged {
          return Some(Err(LaterPage));
        }
        if strict {
          return Some(Err(FirstPage));
        }
        return Some(Ok(threads));
      }
      ThreadsStep(server, cursor, strict, left, threads, paged);
      var page := reply.page;
      threads := threads + page.nodes;
      if !page.hasNext {
        return Some(Ok(threads));
      }
      if page.endCursor.None? || page.endCursor.value == "" {
        return Some(Err(NoCursor));
      }
      cursor, paged, left := page.endCursor, true, left - 1;
    }
    r := None;
  }

  /** Requests beyond the ones that suffice change nothing. */
  lemma {:induction false} EnoughIsEnough<T>(server: Server<T>, after: Option<string>, n: nat, m: nat)
    requires EndOf(server, after, n) != OutOfRequests && n <= m
    ensures Fetched(server, after, m) == Fetched(server, after, n) && EndOf(server, after, m) == EndOf(server, after, n)
    decreases n
  {
    if server(after).Contents? && GoesOn(server(after).page) {
      EnoughIsEnough(server, server(after).page.endCursor, n - 1, m - 1);
    }
  }

  /** And it ends the read of the threads with an error, strict or not. */
  lemma {:induction false} CursorlessPageFails<T>(server: Server<T>, page: Page<T>, strict: bool, n: nat)
    requires server(None) == Contents(page) && page.hasNext && (page.endCursor == None || page.endCursor == Some(""))
    requires n > 0
    ensures Threads(server, None, strict, n, [], false) == Err(NoCursor)
  {
    ThreadsStep(server, None, strict, n, [], false);
  }

  lemma {:induction false} FetchedIsServed<T(!new)>(server: Server<T>, after: Option<string>, n: nat)
    requires EndOf(server, after, n) == AtLastPage
    ensures var ps := Fetched(server, after, n);
            |ps| > 0 && Leads(server, after, ps)
    decreases n
  {
    var p := server(after).page;
    if GoesOn(p) {
      FetchedIsServed(server, p.endCursor, n - 1);
      var ps := Fetched(server, after, n);
      assert ps[1..] == Fetched(server, p.endCursor, n - 1);
    }
  }

  /** A read whose first request succeeds returns threads exactly when the server's pages are complete, and
      then it returns all of them; a lenient read whose first request fails returns none. */
  lemma {:induction false} NeverPartial<T(!new)>(server: Server<T>, strict: bool, n: nat)
    requires EndOf(server, None, n) != OutOfRequests
    ensures var r, ps := Threads(server, None, strict, n, [], false), Fetched(server, None, n);
            && (server(None).Contents? ==> (r.Ok? <==> Serves(server, None, ps)) && (r.Ok? ==> r.value == All(ps)))
            && (!server(None).Contents? ==> r == if strict then Err(FirstPage) else Ok([]))
  {
    var ps := Fetched(server, None, n);
    assert [] + All(ps) == All(ps);
    if EndOf(server, None, n) == AtLastPage {
      FetchedIsServed(server, None, n);
    }
    if Serves(server, None, ps) {
      ServedPages(server, None, ps, n);
    }
  }
}

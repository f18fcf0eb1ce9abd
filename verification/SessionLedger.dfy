/** The append-only session ledger of src/agentic_pr_dash/session_ledger.py, which must behave as an
    insertion-ordered map keyed by repository and pull request. */
module SessionLedger {
  import opened Wrappers

  datatype EntryKey = EntryKey(repo: string, pr: int)
  datatype Entry = Entry(pr: int, branch: string, worktree: string, openedAt: string, baselineSha: Option<string>,
                         repo: string)

  /** One physical line: a row, or something read skips (blank, not JSON, no usable pr). */
  datatype Line = Row(entry: Entry) | Junk

  function KeyOf(e: Entry): EntryKey {
    EntryKey(e.repo, e.pr)
  }

  // ---------------------------------------------------------------- the insertion-ordered map

  /** Where a key is, or the length when it is absent. */
  function IndexOf(m: seq<Entry>, k: EntryKey): (i: nat)
    ensures i <= |m| && (i < |m| ==> KeyOf(m[i]) == k)
    ensures forall j :: 0 <= j < i ==> KeyOf(m[j]) != k
    decreases |m|
  {
    if |m| == 0 then 0
    else
      var i := IndexOf(m[..|m| - 1], k);
      if i < |m| - 1 || KeyOf(m[|m| - 1]) == k then i else |m|
  }

  /** Assignment in an insertion-ordered map: an existing key keeps its place. */
  function Put(m: seq<Entry>, e: Entry): seq<Entry> {
    var i := IndexOf(m, KeyOf(e));
    if i < |m| then m[i := e] else m + [e]
  }

  ghost predicate DistinctKeys(m: seq<Entry>) {
    forall i, j :: 0 <= i < j < |m| ==> KeyOf(m[i]) != KeyOf(m[j])
  }

  lemma {:induction false} PutKeepsDistinct(m: seq<Entry>, e: Entry)
    requires DistinctKeys(m)
    ensures DistinctKeys(Put(m, e))
  {
  }

  // ---------------------------------------------------------------- reading and writing the file

  /** What a read of the file gives, before any filter. */
  function Logical(lines: seq<Line>): seq<Entry>
    decreases |lines|
  {
    if |lines| == 0 then []
    else
      var before, last := Logical(lines[..|lines| - 1]), lines[|lines| - 1];
      if last.Row? then Put(before, last.entry) else before
  }

  function Written(entries: seq<Entry>): seq<Line> {
    seq(|entries|, i requires 0 <= i < |entries| => Row(entries[i]))
  }

  lemma {:induction false} LogicalAppend(lines: seq<Line>, l: Line)
    ensures Logical(lines + [l]) == if l.Row? then Put(Logical(lines), l.entry) else Logical(lines)
  {
    assert (lines + [l])[..|lines|] == lines;
  }

  lemma {:induction false} LogicalIsDistinct(lines: seq<Line>)
    ensures DistinctKeys(Logical(lines))
    decreases |lines|
  {
    if |lines| > 0 {
      LogicalIsDistinct(lines[..|lines| - 1]);
      if lines[|lines| - 1].Row? {
        PutKeepsDistinct(Logical(lines[..|lines| - 1]), lines[|lines| - 1].entry);
      }
    }
  }

  /** Rewriting is invisible: reading what was written gives it back. */
  lemma {:induction false} RoundTrip(entries: seq<Entry>)
    requires DistinctKeys(entries)
    ensures Logical(Written(entries)) == entries
    decreases |entries|
  {
    if |entries| > 0 {
      var n := |entries| - 1;
      RoundTrip(entries[..n]);
      assert Written(entries)[..n] == Written(entries[..n]);
      assert IndexOf(entries[..n], KeyOf(entries[n])) == n;
      assert entries[..n] + [entries[n]] == entries;
    }
  }

  /** The value read for a key is the one on its last line; a key is read exactly when some line has it. */
  lemma {:induction false} LastLineWins(lines: seq<Line>, n: nat)
    requires n < |lines| && lines[n].Row?
    requires forall m :: n < m < |lines| && lines[m].Row? ==> KeyOf(lines[m].entry) != KeyOf(lines[n].entry)
    ensures lines[n].entry in Logical(lines)
    decreases |lines|
  {
    var before, last := lines[..|lines| - 1], lines[|lines| - 1];
    if n < |lines| - 1 {
      LastLineWins(before, n);
      if last.Row? {
        var i :| 0 <= i < |Logical(before)| && Logical(before)[i] == lines[n].entry;
        assert Put(Logical(before), last.entry)[i] == lines[n].entry;
      }
    } else {
      var at := IndexOf(Logical(before), KeyOf(last.entry));
      assert Put(Logical(before), last.entry)[at] == last.entry;
    }
  }

  /** Every entry read comes from the last line of its key. */
  lemma {:induction false} ReadsOnlyLastLines(lines: seq<Line>, i: nat) returns (n: nat)
    requires i < |Logical(lines)|
    ensures n < |lines| && lines[n] == Row(Logical(lines)[i])
    ensures forall m :: n < m < |lines| && lines[m].Row? ==> KeyOf(lines[m].entry) != KeyOf(lines[n].entry)
    decreases |lines|
  {
    var before, last := lines[..|lines| - 1], lines[|lines| - 1];
    if last.Row? && i == IndexOf(Logical(before), KeyOf(last.entry)) {
      n := |lines| - 1;
    } else {
      n := ReadsOnlyLastLines(before, i);
      LogicalIsDistinct(before);
      assert lines[n] == before[n];
    }
  }

  /** Keys are read in the order of their first lines. */
  lemma {:induction false} OrderedByFirstLine(lines: seq<Line>, i: nat, j: nat) returns (a: nat, b: nat)
    requires i < j < |Logical(lines)|
    ensures a < b < |lines| && lines[a].Row? && lines[b].Row?
    ensures KeyOf(lines[a].entry) == KeyOf(Logical(lines)[i]) && KeyOf(lines[b].entry) == KeyOf(Logical(lines)[j])
    ensures forall m :: 0 <= m < b && lines[m].Row? ==> KeyOf(lines[m].entry) != KeyOf(lines[b].entry)
    decreases |lines|
  {
    var before, last := lines[..|lines| - 1], lines[|lines| - 1];
    if j < |Logical(before)| {
      a, b := OrderedByFirstLine(before, i, j);
      assert lines[a] == before[a] && lines[b] == before[b];
    } else {
      b := |lines| - 1;
      a := ReadsOnlyLastLines(before, i);
      assert lines[a] == before[a];
      forall m | 0 <= m < b && lines[m].Row?
        ensures KeyOf(lines[m].entry) != KeyOf(last.entry)
      {
        KeyIsRead(before, m);
      }
    }
  }

  lemma {:induction false} KeyIsRead(lines: seq<Line>, m: nat)
    requires m < |lines| && lines[m].Row?
    ensures IndexOf(Logical(lines), KeyOf(lines[m].entry)) < |Logical(lines)|
    decreases |lines|
  {
    var before, last := lines[..|lines| - 1], lines[|lines| - 1];
    var key := KeyOf(lines[m].entry);
    if m < |lines| - 1 {
      KeyIsRead(before, m);
      var at := IndexOf(Logical(before), key);
      assert KeyOf(Logical(lines)[at]) == key;
    } else {
      var at := IndexOf(Logical(before), key);
      assert KeyOf(Logical(lines)[at]) == key;
    }
  }

  // ---------------------------------------------------------------- filters

  /** The repository filter of read: legacy rows have no repository. */
  predicate Visible(e: Entry, repo: Option<string>, includeLegacy: bool) {
    repo.None? || (if includeLegacy then e.repo == repo.value || e.repo == "" else e.repo != "" && e.repo == repo.value)
  }

  /** Whether a prune may drop an entry. */
  predicate Eligible(e: Entry, repo: Option<string>, includeLegacy: bool) {
    if repo.None? then true else if e.repo == "" then includeLegacy else e.repo == repo.value
  }

  function Filter(m: seq<Entry>, keep: Entry -> bool): seq<Entry>
    decreases |m|
  {
    if |m| == 0 then []
    else Filter(m[..|m| - 1], keep) + if keep(m[|m| - 1]) then [m[|m| - 1]] else []
  }

  lemma {:induction false} FilterAppend(m: seq<Entry>, e: Entry, keep: Entry -> bool)
    ensures Filter(m + [e], keep) == Filter(m, keep) + if keep(e) then [e] else []
  {
    assert (m + [e])[..|m|] == m;
  }

  lemma {:induction false} FilterKeeps(m: seq<Entry>, keep: Entry -> bool)
    requires DistinctKeys(m)
    ensures DistinctKeys(Filter(m, keep))
    ensures forall e :: e in Filter(m, keep) <==> e in m && keep(e)
    decreases |m|
  {
    if |m| > 0 {
      var front, last := m[..|m| - 1], m[|m| - 1];
      FilterKeeps(front, keep);
      assert m == front + [last];
      assert forall i :: 0 <= i < |Filter(front, keep)| ==> Filter(front, keep)[i] in front;
    }
  }

  function Survives(drop: set<int>, repo: Option<string>, includeLegacy: bool): Entry -> bool {
    (e: Entry) => !(Eligible(e, repo, includeLegacy) && e.pr in drop)
  }

  /** The rows that remain keep their order. */
  lemma {:induction false} FilterKeepsOrder(m: seq<Entry>, keep: Entry -> bool, i: nat, j: nat) returns (a: nat, b: nat)
    requires i < j < |Filter(m, keep)|
    ensures a < b < |m| && m[a] == Filter(m, keep)[i] && m[b] == Filter(m, keep)[j]
    decreases |m|
  {
    var front := m[..|m| - 1];
    if j < |Filter(front, keep)| {
      a, b := FilterKeepsOrder(front, keep, i, j);
    } else {
      b := |m| - 1;
      a := FilteredFrom(front, keep, i);
    }
  }

  lemma {:induction false} FilteredFrom(m: seq<Entry>, keep: Entry -> bool, i: nat) returns (a: nat)
    requires i < |Filter(m, keep)|
    ensures a < |m| && m[a] == Filter(m, keep)[i]
    decreases |m|
  {
    var front := m[..|m| - 1];
    if i < |Filter(front, keep)| {
      a := FilteredFrom(front, keep, i);
    } else {
      a := |m| - 1;
    }
  }

  /** The rows one repository's prune is about: its own, and the legacy ones if asked; without a repository, all. */
  predicate Concerns(e: Entry, repo: Option<string>, includeLegacy: bool) {
    || repo.None?
    || (e.repo == "" && includeLegacy)
    || (e.repo != "" && e.repo == repo.value)
  }

  /** A prune drops exactly the rows it concerns whose PR is to go: whatever the file held, that is what a later read
      finds gone, and nothing else. */
  lemma {:induction false} PruneDropsExactly(lines: seq<Line>, drop: set<int>, repo: Option<string>,
                                             includeLegacy: bool, e: Entry)
    ensures var before, after := Logical(lines), Logical(Effect(lines, Op.Prune(drop, repo, includeLegacy)));
            e in after <==> e in before && !(e.pr in drop && Concerns(e, repo, includeLegacy))
  {
    LogicalIsDistinct(lines);
    EffectHasMeaning(lines, Op.Prune(drop, repo, includeLegacy));
    FilterKeeps(Logical(lines), Survives(drop, repo, includeLegacy));
  }

  /** So a prune of every PR a reader of the repository sees leaves that reader nothing. */
  lemma {:induction false} PruneEmptiesRead(lines: seq<Line>, drop: set<int>, repo: Option<string>,
                                            includeLegacy: bool, e: Entry)
    requires forall x :: x in Logical(lines) && Visible(x, repo, includeLegacy) ==> x.pr in drop
    requires e in Logical(Effect(lines, Op.Prune(drop, repo, includeLegacy)))
    ensures !Visible(e, repo, includeLegacy) && !Concerns(e, repo, includeLegacy)
  {
    PruneDropsExactly(lines, drop, repo, includeLegacy, e);
  }

  /** Pruning one repository leaves every other repository's rows exactly as they were, in order. */
  lemma {:induction false} PruneIsScoped(m: seq<Entry>, drop: set<int>, repo: string, includeLegacy: bool,
                                         other: string)
    requires other != repo && (other != "" || !includeLegacy)
    ensures Filter(Filter(m, Survives(drop, Some(repo), includeLegacy)), (e: Entry) => e.repo == other)
         == Filter(m, (e: Entry) => e.repo == other)
    decreases |m|
  {
    if |m| > 0 {
      var front, last := m[..|m| - 1], m[|m| - 1];
      PruneIsScoped(front, drop, repo, includeLegacy, other);
      var kept := Filter(front, Survives(drop, Some(repo), includeLegacy));
      if Survives(drop, Some(repo), includeLegacy)(last) {
        FilterAppend(kept, last, (e: Entry) => e.repo == other);
      } else {
        assert kept + [] == kept;
      }
    }
  }

  // ---------------------------------------------------------------- the operations

  datatype Op =
    | Append(entry: Entry, threshold: int)
    | Compact
    | Prune(drop: set<int>, repo: Option<string>, includeLegacy: bool)

  /** What an operation does to the insertion-ordered map. */
  function Meaning(m: seq<Entry>, op: Op): seq<Entry> {
    match op
    case Append(e, _) => Put(m, e)
    case Compact => m
    case Prune(drop, repo, includeLegacy) => Filter(m, Survives(drop, repo, includeLegacy))
  }

  /** What an operation does to the file. */
  function Effect(lines: seq<Line>, op: Op): seq<Line> {
    match op
    case Append(e, threshold) =>
      var grown := lines + [Row(e)];
      if 0 < threshold <= |grown| then Written(Logical(grown)) else grown
    case Compact => Written(Logical(lines))
    case Prune(_, _, _) => Written(Meaning(Logical(lines), op))
  }

  lemma {:induction false} EffectHasMeaning(lines: seq<Line>, op: Op)
    ensures Logical(Effect(lines, op)) == Meaning(Logical(lines), op)
  {
    LogicalIsDistinct(lines);
    match op
    case Append(e, _) =>
      LogicalAppend(lines, Row(e));
      LogicalIsDistinct(lines + [Row(e)]);
      RoundTrip(Logical(lines + [Row(e)]));
    case Compact => RoundTrip(Logical(lines));
    case Prune(drop, repo, includeLegacy) =>
      FilterKeeps(Logical(lines), Survives(drop, repo, includeLegacy));
      RoundTrip(Meaning(Logical(lines), op));
  }

  function FileAfter(lines: seq<Line>, ops: seq<Op>): seq<Line>
    decreases |ops|
  {
    if |ops| == 0 then lines else Effect(FileAfter(lines, ops[..|ops| - 1]), ops[|ops| - 1])
  }

  function MapAfter(m: seq<Entry>, ops: seq<Op>): seq<Entry>
    decreases |ops|
  {
    if |ops| == 0 then m else Meaning(MapAfter(m, ops[..|ops| - 1]), ops[|ops| - 1])
  }

  /** After any sequence of appends, automatic compactions, compactions and prunes, reading the log gives
      exactly the entries, in order, of the insertion-ordered map: compaction is invisible. */
  lemma {:induction false} LedgerIsOrderedMap(lines: seq<Line>, ops: seq<Op>)
    ensures Logical(FileAfter(lines, ops)) == MapAfter(Logical(lines), ops)
    decreases |ops|
  {
    if |ops| > 0 {
      LedgerIsOrderedMap(lines, ops[..|ops| - 1]);
      EffectHasMeaning(FileAfter(lines, ops[..|ops| - 1]), ops[|ops| - 1]);
    }
  }

  lemma {:induction false} PutReplaces(m: seq<Entry>, e: Entry, x: Entry)
    requires DistinctKeys(m)
    ensures x in Put(m, e) <==> x == e || (x in m && !(x.repo == e.repo && x.pr == e.pr))
  {
    var i := IndexOf(m, KeyOf(e));
    assert Put(m, e)[i] == e;
    if x in m && KeyOf(x) != KeyOf(e) {
      var k :| 0 <= k < |m| && m[k] == x;
      assert Put(m, e)[k] == x;
    }
    if x in Put(m, e) && x != e {
      var k :| 0 <= k < |Put(m, e)| && Put(m, e)[k] == x;
      assert m[k] == x;
    }
  }

  /** An append is read back, in the place of what was recorded for the same PR of the same repository, and changes
      nothing else that is read. */
  lemma {:induction false} AppendReplacesItsPr(lines: seq<Line>, e: Entry, threshold: int, x: Entry)
    ensures var before, after := Logical(lines), Logical(Effect(lines, Op.Append(e, threshold)));
            x in after <==> x == e || (x in before && !(x.repo == e.repo && x.pr == e.pr))
  {
    LogicalIsDistinct(lines);
    EffectHasMeaning(lines, Op.Append(e, threshold));
    PutReplaces(Logical(lines), e, x);
  }

  /** With a positive threshold, after an append the file is below it or holds one line per key. */
  lemma {:induction false} AppendBoundsFile(lines: seq<Line>, e: Entry, threshold: int)
    requires 0 < threshold
    ensures var after := Effect(lines, Append(e, threshold));
            |after| < threshold || |after| == |Logical(after)|
  {
    EffectHasMeaning(lines, Append(e, threshold));
    LogicalAppend(lines, Row(e));
  }

  class SessionLedger {
    var lines: seq<Line>

    constructor (lines: seq<Line>)
      ensures this.lines == lines
    {
      this.lines := lines;
    }

    /** The dictionary loop of read, over every physical line. */
    method ReadAll() returns (entries: seq<Entry>)
      ensures entries == Logical(lines)
    {
      entries := [];
      for n := 0 to |lines|
        invariant entries == Logical(lines[..n])
      {
        assert lines[..n + 1][..n] == lines[..n];
        if lines[n].Row? {
          var e := lines[n].entry;
          var i := 0;
          while i < |entries| && KeyOf(entries[i]) != KeyOf(e)
            invariant 0 <= i <= IndexOf(entries, KeyOf(e))
          {
            i := i + 1;
          }
          if i < |entries| {
            entries := entries[i := e];
          } else {
            entries := entries + [e];
          }
        }
      }
      assert lines[..|lines|] == lines;
    }

    method Read(repo: Option<string>, includeLegacy: bool) returns (entries: seq<Entry>)
      ensures entries == Filter(Logical(lines), (e: Entry) => Visible(e, repo, includeLegacy))
      ensures forall e :: e in entries <==> e in Logical(lines) && Concerns(e, repo, includeLegacy)
    {
      var all := ReadAll();
      LogicalIsDistinct(lines);
      FilterKeeps(all, (e: Entry) => Visible(e, repo, includeLegacy));
      entries := [];
      for n := 0 to |all|
        invariant entries == Filter(all[..n], (e: Entry) => Visible(e, repo, includeLegacy))
      {
        assert all[..n + 1] == all[..n] + [all[n]];
        FilterAppend(all[..n], all[n], (e: Entry) => Visible(e, repo, includeLegacy));
        if Visible(all[n], repo, includeLegacy) {
          entries := entries + [all[n]];
        }
      }
      assert all[..|all|] == all;
    }

    method WriteAll(entries: seq<Entry>)
      modifies this
      ensures lines == Written(entries)
    {
      var written: seq<Line> := [];
      for n := 0 to |entries|
        invariant written == Written(entries[..n])
      {
        written := written + [Row(entries[n])];
      }
      assert entries[..|entries|] == entries;
      lines := written;
    }

    method Append(e: Entry, threshold: int)
      modifies this
      ensures lines == Effect(old(lines), Op.Append(e, threshold))
      ensures threshold <= 0 || |old(lines)| + 1 < threshold ==> lines == old(lines) + [Row(e)]
    {
      lines := lines + [Row(e)];
      if threshold > 0 && |lines| >= threshold {
        var entries := ReadAll();
        WriteAll(entries);
      }
    }

    method Compact()
      modifies this
      ensures lines == Effect(old(lines), Op.Compact)
    {
      var entries := ReadAll();
      WriteAll(entries);
    }

    /** The loop of prune over the entries read. */
    static method Divide(all: seq<Entry>, drop: set<int>, repo: Option<string>, includeLegacy: bool)
      returns (entries: seq<Entry>, pruned: seq<EntryKey>)
      ensures entries == Filter(all, Survives(drop, repo, includeLegacy))
      ensures forall k :: k in pruned <==>
                exists i :: 0 <= i < |all| && KeyOf(all[i]) == k && !Survives(drop, repo, includeLegacy)(all[i])
    {
      var keep := Survives(drop, repo, includeLegacy);
      entries, pruned := [], [];
      for n := 0 to |all|
        invariant entries == Filter(all[..n], keep)
        invariant forall k :: k in pruned <==> exists i :: 0 <= i < n && KeyOf(all[i]) == k && !keep(all[i])
      {
        assert all[..n + 1] == all[..n] + [all[n]];
        FilterAppend(all[..n], all[n], keep);
        var e := all[n];
        var eligible := if repo.None? then true else if e.repo == "" then includeLegacy else e.repo == repo.value;
        assert keep(e) <==> !(eligible && e.pr in drop);
        if eligible && e.pr in drop {
          pruned := pruned + [KeyOf(e)];
        } else {
          entries := entries + [e];
        }
      }
      assert all[..|all|] == all;
    }

    /** The keys it returns are those whose claim files are removed. */
    method Prune(drop: set<int>, repo: Option<string>, includeLegacy: bool) returns (pruned: seq<EntryKey>)
      modifies this
      ensures lines == Effect(old(lines), Op.Prune(drop, repo, includeLegacy))
      ensures forall k :: k in pruned <==>
                exists i :: 0 <= i < |Logical(old(lines))| && KeyOf(Logical(old(lines))[i]) == k
                            && !Survives(drop, repo, includeLegacy)(Logical(old(lines))[i])
    {
      var all := ReadAll();
      var entries;
      entries, pruned := Divide(all, drop, repo, includeLegacy);
      WriteAll(entries);
    }
  }
}

/**
 * The "counts bugs grouped by platform" step of tests/sync-jira-qa-portal.spec.ts:
 * the module-level `statsByPlatform` table is reset, then filled by a nested loop
 * that adds one to `statsByPlatform[platform][priority]` for every entry of each
 * issue's normalised platform list.
 */
module PlatformStats {
  import opened Wrappers
  import opened JsonModel
  import opened PlatformMapping
  import opened PriorityMapping

  /** The platform and priority names the test lists as known. */
  const KnownPlatforms: seq<string> := ["Tizen", "WebOS", "AndroidTV", "Android", "iOS", "tvOS", "Chromecast"]
  const KnownPriorities: seq<string> := ["Highest", "High", "Medium", "Low", "Lowest"]

  /** `Record<string, Record<string, number>>`: platform -> priority -> count. */
  type Table = map<string, map<string, int>>

  // ---------------------------------------------------------------------------
  // Specification of the counting
  // ---------------------------------------------------------------------------

  /** `issue?.fields?.priority?.name ?? 'Unknown'` */
  function PriorityKey(issue: Issue): (key: string)
    ensures issue.priorityName.None? ==> key == "Unknown"
    ensures issue.priorityName.Some? ==> key == issue.priorityName.value
  {
    issue.priorityName.GetOr("Unknown")
  }

  /** The platform field as the inner loop iterates it: a falsy value becomes
      `['Unknown']`, a truthy non-array `[value]`, an array itself. */
  function NormalisedField(f: JsValue): (entries: seq<JsValue>)
    ensures !Truthy(f) ==> entries == [Str("Unknown")]
    ensures Truthy(f) && !f.Arr? ==> entries == [f]
    ensures f.Arr? ==> entries == f.items
    ensures |entries| == 0 <==> f == Arr([])
  {
    if !Truthy(f) then [Str("Unknown")] else if !f.Arr? then [f] else f.items
  }

  /** `String(platform)` of every entry. */
  function Texts(vs: seq<JsValue>): (ts: seq<string>)
    ensures |ts| == |vs|
  {
    seq(|vs|, i requires 0 <= i < |vs| => ToText(vs[i]))
  }

  /** The platform keys one issue is counted under, with repetitions. */
  function PlatformList(issue: Issue): seq<string> {
    Texts(NormalisedField(issue.platformField))
  }

  /** The value of one cell, 0 where the source has no key. */
  function Cell(t: Table, p: string, q: string): int {
    if p in t && q in t[p] then t[p][q] else 0
  }

  /** The shape the loop keeps: every platform row holds a priority, every count is at least 1. */
  predicate WellFormed(t: Table) {
    forall p :: p in t ==> t[p] != map[] && forall q :: q in t[p] ==> t[p][q] >= 1
  }

  /** One `statsByPlatform[plat][priName] += 1`, creating the keys it needs. */
  function Bump(t: Table, p: string, q: string): Table {
    var row := if p in t then t[p] else map[];
    var n := if q in row then row[q] else 0;
    t[p := row[q := n + 1]]
  }

  /** One increment adds the key `p` if missing, raises cell (p, q) by one and
      changes no other cell. */
  lemma BumpCells(t: Table, p: string, q: string)
    ensures Bump(t, p, q).Keys == t.Keys + {p}
    ensures Cell(Bump(t, p, q), p, q) == Cell(t, p, q) + 1
    ensures forall p', q' :: (p', q') != (p, q) ==> Cell(Bump(t, p, q), p', q') == Cell(t, p', q')
    ensures WellFormed(t) ==> WellFormed(Bump(t, p, q))
  {
  }

  /** Increments for each platform entry in turn, all under priority `q`. */
  function CountEntries(t: Table, ps: seq<string>, q: string): Table {
    if |ps| == 0 then t else Bump(CountEntries(t, ps[..|ps| - 1], q), ps[|ps| - 1], q)
  }

  /** The inner loop over one issue. */
  function CountIssue(t: Table, issue: Issue): Table {
    CountEntries(t, PlatformList(issue), PriorityKey(issue))
  }

  /** The table the outer loop leaves after the given issues, starting from `{}`. */
  function Tally(issues: seq<Issue>): Table {
    if |issues| == 0 then map[] else CountIssue(Tally(issues[..|issues| - 1]), issues[|issues| - 1])
  }

  /** How many of one issue's (platform entry, priority) pairs are (p, q). */
  function Contribution(issue: Issue, p: string, q: string): nat {
    if PriorityKey(issue) == q then multiset(PlatformList(issue))[p] else 0
  }

  /** Independent count: how many (issue, platform entry) pairs fall in cell (p, q). */
  function Occurrences(issues: seq<Issue>, p: string, q: string): nat {
    if |issues| == 0 then 0
    else Occurrences(issues[..|issues| - 1], p, q) + Contribution(issues[|issues| - 1], p, q)
  }

  /** Every platform key some issue is counted under. */
  function PlatformsOf(issues: seq<Issue>): set<string> {
    if |issues| == 0 then {}
    else
      var entries := PlatformList(issues[|issues| - 1]);
      PlatformsOf(issues[..|issues| - 1]) + set p | p in entries
  }

  /** Total fan-out: the number of increments the issues cause. */
  function Increments(issues: seq<Issue>): nat {
    if |issues| == 0 then 0 else Increments(issues[..|issues| - 1]) + |PlatformList(issues[|issues| - 1])|
  }

  /** One more platform entry is one more increment. */
  lemma CountEntriesStep(t: Table, vs: seq<JsValue>, j: nat, q: string)
    requires j < |vs|
    ensures CountEntries(t, Texts(vs[..j + 1]), q) == Bump(CountEntries(t, Texts(vs[..j]), q), ToText(vs[j]), q)
  {
    assert Texts(vs[..j + 1])[..j] == Texts(vs[..j]);
  }

  /** One more issue is one more run of the inner loop. */
  lemma TallyStep(issues: seq<Issue>, i: nat)
    requires i < |issues|
    ensures Tally(issues[..i + 1]) == CountIssue(Tally(issues[..i]), issues[i])
  {
    assert issues[..i + 1][..i] == issues[..i];
  }

  // ---------------------------------------------------------------------------
  // What the table means
  // ---------------------------------------------------------------------------

  /** The inner loop raises cell (p, q0) once per occurrence of `p` in the list
      and creates exactly the listed platform keys. */
  lemma {:induction false} CountEntriesCells(t: Table, ps: seq<string>, q0: string)
    ensures forall p, q ::
      Cell(CountEntries(t, ps, q0), p, q) == Cell(t, p, q) + (if q == q0 then multiset(ps)[p] else 0)
    ensures CountEntries(t, ps, q0).Keys == t.Keys + set p | p in ps
    ensures WellFormed(t) ==> WellFormed(CountEntries(t, ps, q0))
  {
    if |ps| > 0 {
      var init, last := ps[..|ps| - 1], ps[|ps| - 1];
      assert ps == init + [last];
      CountEntriesCells(t, init, q0);
      BumpCells(CountEntries(t, init, q0), last, q0);
      assert multiset(ps) == multiset(init) + multiset{last};
      assert (set p | p in ps) == (set p | p in init) + {last};
    }
  }

  /** Every present cell is at least 1, and cell (p, q) is the number of
      (issue, platform entry) pairs with platform `p` and priority `q`. */
  lemma {:induction false} TallyCells(issues: seq<Issue>)
    ensures WellFormed(Tally(issues))
    ensures forall p, q :: Cell(Tally(issues), p, q) == Occurrences(issues, p, q)
  {
    if |issues| > 0 {
      var init, last := issues[..|issues| - 1], issues[|issues| - 1];
      TallyCells(init);
      CountEntriesCells(Tally(init), PlatformList(last), PriorityKey(last));
    }
  }

  /** The platform keys of the table are exactly the entries of the issues'
      normalised platform lists. */
  lemma {:induction false} TallyKeys(issues: seq<Issue>)
    ensures Tally(issues).Keys == PlatformsOf(issues)
  {
    if |issues| > 0 {
      var init, last := issues[..|issues| - 1], issues[|issues| - 1];
      TallyKeys(init);
      CountEntriesCells(Tally(init), PlatformList(last), PriorityKey(last));
    }
  }

  /** No platform key at all exactly when every issue's platform field is `[]`. */
  lemma {:induction false} PlatformsOfEmpty(issues: seq<Issue>)
    ensures PlatformsOf(issues) == {} <==> forall i :: 0 <= i < |issues| ==> issues[i].platformField == Arr([])
  {
    if |issues| > 0 {
      var init, last := issues[..|issues| - 1], issues[|issues| - 1];
      PlatformsOfEmpty(init);
      PlatformListEmpty(last);
      if PlatformList(last) != [] {
        assert PlatformList(last)[0] in PlatformsOf(issues);
      }
      if forall i :: 0 <= i < |issues| ==> issues[i].platformField == Arr([]) {
        forall i | 0 <= i < |init| ensures init[i].platformField == Arr([]) {
          assert init[i] == issues[i];
        }
      }
      if PlatformsOf(issues) == {} {
        forall i | 0 <= i < |issues| ensures issues[i].platformField == Arr([]) {
          if i < |init| {
            assert init[i] == issues[i];
          }
        }
      }
    }
  }

  /** A well-formed table is determined by its cells. */
  lemma TableExtensional(t1: Table, t2: Table)
    requires WellFormed(t1) && WellFormed(t2)
    requires forall p, q :: Cell(t1, p, q) == Cell(t2, p, q)
    ensures t1 == t2
  {
    forall p | p in t1 ensures p in t2 {
      var q :| q in t1[p];
      assert Cell(t1, p, q) >= 1;
    }
    forall p | p in t2 ensures p in t1 {
      var q :| q in t2[p];
      assert Cell(t2, p, q) >= 1;
    }
    forall p | p in t1 ensures t1[p] == t2[p] {
      forall q | q in t1[p] ensures q in t2[p] && t1[p][q] == t2[p][q] {
        assert Cell(t1, p, q) == Cell(t2, p, q);
      }
      forall q | q in t2[p] ensures q in t1[p] {
        assert Cell(t1, p, q) == Cell(t2, p, q);
      }
    }
  }

  lemma {:induction false} OccurrencesAppend(a: seq<Issue>, b: seq<Issue>, p: string, q: string)
    ensures Occurrences(a + b, p, q) == Occurrences(a, p, q) + Occurrences(b, p, q)
  {
    if |b| == 0 {
      assert a + b == a;
    } else {
      var init := b[..|b| - 1];
      assert (a + b)[..|a + b| - 1] == a + init;
      assert (a + b)[|a + b| - 1] == b[|b| - 1];
      OccurrencesAppend(a, init, p, q);
    }
  }

  lemma OccurrencesRemoveAt(s: seq<Issue>, j: nat, p: string, q: string)
    requires j < |s|
    ensures Occurrences(s, p, q) == Occurrences(s[..j] + s[j + 1..], p, q) + Contribution(s[j], p, q)
  {
    var left, x, right := s[..j], s[j], s[j + 1..];
    assert s == (left + [x]) + right;
    OccurrencesAppend(left + [x], right, p, q);
    OccurrencesAppend(left, [x], p, q);
    OccurrencesAppend(left, right, p, q);
    assert [x][..0] == [];
  }

  lemma MultisetRemoveLast(s1: seq<Issue>, s2: seq<Issue>, j: nat)
    requires multiset(s1) == multiset(s2) && |s1| > 0
    requires j < |s2| && s2[j] == s1[|s1| - 1]
    ensures multiset(s1[..|s1| - 1]) == multiset(s2[..j] + s2[j + 1..])
  {
    var init, last := s1[..|s1| - 1], s1[|s1| - 1];
    var left, right := s2[..j], s2[j + 1..];
    assert s1 == init + [last];
    assert s2 == left + [last] + right;
    assert multiset(s2) == multiset(left) + multiset{last} + multiset(right);
    assert multiset(left + right) == multiset(left) + multiset(right);
    assert multiset(init) == multiset(s1) - multiset{last};
  }

  lemma {:induction false} OccurrencesPermutation(s1: seq<Issue>, s2: seq<Issue>, p: string, q: string)
    requires multiset(s1) == multiset(s2)
    ensures Occurrences(s1, p, q) == Occurrences(s2, p, q)
    decreases |s1|
  {
    if |s1| > 0 {
      var last := s1[|s1| - 1];
      assert last in multiset(s2);
      var j :| 0 <= j < |s2| && s2[j] == last;
      MultisetRemoveLast(s1, s2, j);
      OccurrencesPermutation(s1[..|s1| - 1], s2[..j] + s2[j + 1..], p, q);
      OccurrencesRemoveAt(s2, j, p, q);
    } else {
      assert s2 == [];
    }
  }

  /** Reordering the issues does not change the table. */
  lemma TallyPermutation(s1: seq<Issue>, s2: seq<Issue>)
    requires multiset(s1) == multiset(s2)
    ensures Tally(s1) == Tally(s2)
  {
    TallyCells(s1);
    TallyCells(s2);
    forall p, q ensures Cell(Tally(s1), p, q) == Cell(Tally(s2), p, q) {
      OccurrencesPermutation(s1, s2, p, q);
    }
    TableExtensional(Tally(s1), Tally(s2));
  }

  /** Only an empty platform array yields no platform entry: `[]` is truthy, so
      it is not replaced by `['Unknown']`. */
  lemma PlatformListEmpty(issue: Issue)
    ensures PlatformList(issue) == [] <==> issue.platformField == Arr([])
  {
  }

  /** The test's expectation `Object.keys(statsByPlatform).length > 0` holds
      exactly when some issue's platform field is not the empty array. */
  lemma TallyNonEmpty(issues: seq<Issue>)
    ensures |Tally(issues)| > 0 <==> exists i :: 0 <= i < |issues| && issues[i].platformField != Arr([])
  {
    TallyKeys(issues);
    PlatformsOfEmpty(issues);
    if Tally(issues) != map[] {
      var p :| p in Tally(issues);
      assert p in Tally(issues).Keys;
    }
  }

  /** How a single issue is counted: a missing priority goes under `Unknown`; a
      falsy platform field once under `Unknown`; a truthy non-array once under
      its `String` form; an array once per entry (duplicates twice), so `[]`
      adds nothing. */
  lemma OneIssue(issue: Issue, p: string, q: string)
    ensures var f := issue.platformField;
      var hit := q == issue.priorityName.GetOr("Unknown");
      && (!Truthy(f) ==> Cell(Tally([issue]), p, q) == if hit && p == "Unknown" then 1 else 0)
      && (Truthy(f) && !f.Arr? ==> Cell(Tally([issue]), p, q) == if hit && p == ToText(f) then 1 else 0)
      && (f.Arr? ==> Cell(Tally([issue]), p, q) == if hit then multiset(Texts(f.items))[p] else 0)
      && (f == Arr([]) ==> Tally([issue]) == map[])
  {
    TallyCells([issue]);
    assert [issue][..0] == [];
    assert Occurrences([issue], p, q)
      == if PriorityKey(issue) == q then multiset(PlatformList(issue))[p] else 0;
    var f := issue.platformField;
    if !Truthy(f) {
      assert PlatformList(issue) == ["Unknown"];
    } else if !f.Arr? {
      assert PlatformList(issue) == [ToText(f)];
    }
    PlatformListEmpty(issue);
  }

  // Sums over the table ------------------------------------------------------

  ghost function RowSum(row: map<string, int>): int
    decreases |row|
  {
    if row == map[] then 0 else var k :| k in row; row[k] + RowSum(row - {k})
  }

  ghost function TableSum(t: Table): int
    decreases |t|
  {
    if t == map[] then 0 else var k :| k in t; RowSum(t[k]) + TableSum(t - {k})
  }

  lemma {:induction false} RowSumRemove(row: map<string, int>, k: string)
    requires k in row
    ensures RowSum(row) == row[k] + RowSum(row - {k})
    decreases |row|
  {
    var k' :| k' in row && RowSum(row) == row[k'] + RowSum(row - {k'});
    if k' != k {
      assert (row - {k'}) - {k} == (row - {k}) - {k'};
      RowSumRemove(row - {k'}, k);
      RowSumRemove(row - {k}, k');
    }
  }

  lemma {:induction false} TableSumRemove(t: Table, k: string)
    requires k in t
    ensures TableSum(t) == RowSum(t[k]) + TableSum(t - {k})
    decreases |t|
  {
    var k' :| k' in t && TableSum(t) == RowSum(t[k']) + TableSum(t - {k'});
    if k' != k {
      assert (t - {k'}) - {k} == (t - {k}) - {k'};
      TableSumRemove(t - {k'}, k);
      TableSumRemove(t - {k}, k');
    }
  }

  lemma BumpSum(t: Table, p: string, q: string)
    ensures TableSum(Bump(t, p, q)) == TableSum(t) + 1
  {
    var row := if p in t then t[p] else map[];
    var n := if q in row then row[q] else 0;
    var row' := row[q := n + 1];
    RowSumRemove(row', q);
    assert row' - {q} == row - {q};
    if q in row {
      RowSumRemove(row, q);
    } else {
      assert row - {q} == row;
    }
    TableSumRemove(Bump(t, p, q), p);
    assert Bump(t, p, q) - {p} == t - {p};
    if p in t {
      TableSumRemove(t, p);
    } else {
      assert t - {p} == t;
      assert row == map[];
    }
  }

  lemma {:induction false} CountEntriesSum(t: Table, ps: seq<string>, q: string)
    ensures TableSum(CountEntries(t, ps, q)) == TableSum(t) + |ps|
  {
    if |ps| > 0 {
      CountEntriesSum(t, ps[..|ps| - 1], q);
      BumpSum(CountEntries(t, ps[..|ps| - 1], q), ps[|ps| - 1], q);
    }
  }

  /** The sum of all cells is the total fan-out: each issue contributes the
      length of its normalised platform list. */
  lemma {:induction false} TallySum(issues: seq<Issue>)
    ensures TableSum(Tally(issues)) == Increments(issues)
  {
    if |issues| > 0 {
      var init, last := issues[..|issues| - 1], issues[|issues| - 1];
      TallySum(init);
      CountEntriesSum(Tally(init), PlatformList(last), PriorityKey(last));
    } else {
      assert Tally(issues) == map[];
    }
  }

  // Against the mapping tables ------------------------------------------------

  /** Every priority the test knows has a portal field; its default `Unknown` has none. */
  lemma KnownPrioritiesMapped()
    ensures forall q :: q in KnownPriorities ==> MapPriority(q).Some?
    ensures MapPriority(PriorityKey(Issue(None, Undefined))) == None
  {
  }

  /** Of the platforms the test knows, all but `tvOS` and `Chromecast` have a
      portal project; the default `Unknown` has none. */
  lemma KnownPlatformsMapped()
    ensures forall p :: p in KnownPlatforms ==> (MapPlatform(p).Some? <==> p != "tvOS" && p != "Chromecast")
    ensures MapPlatform(PlatformList(Issue(None, Undefined))[0]) == None
  {
  }

  // ---------------------------------------------------------------------------
  // The test step, as the source runs it
  // ---------------------------------------------------------------------------

  /** The spec file's module-level state that the counting step writes. */
  class StatsByPlatform {
    var statsByPlatform: Table

    /** `let statsByPlatform = {}` */
    constructor()
      ensures statsByPlatform == map[]
    {
      statsByPlatform := map[];
    }

    /** Lines 85-87 for one platform entry: create the row and the cell if
        missing (or zero), then add one. */
    method Increment(plat: string, priName: string)
      modifies this
      ensures statsByPlatform == Bump(old(statsByPlatform), plat, priName)
    {
      ghost var oldRow := if plat in statsByPlatform then statsByPlatform[plat] else map[];
      ghost var oldCount := if priName in oldRow then oldRow[priName] else 0;
      if plat !in statsByPlatform {
        statsByPlatform := statsByPlatform[plat := map[]];
      }
      // the row object is updated in place; writing it back is the value view of that
      var row := statsByPlatform[plat];
      if priName !in row || row[priName] == 0 {
        row := row[priName := 0];
      }
      row := row[priName := row[priName] + 1];
      assert row == oldRow[priName := oldCount + 1];
      statsByPlatform := statsByPlatform[plat := row];
    }

    /** The inner loop `for (const platform of platformsField)` of line 83:
        one increment per entry, under the issue's priority name. */
    method CountPlatforms(platforms: seq<JsValue>, priName: string)
      modifies this
      ensures statsByPlatform == CountEntries(old(statsByPlatform), Texts(platforms), priName)
    {
      var j := 0;
      while j < |platforms|
        invariant 0 <= j <= |platforms|
        invariant statsByPlatform == CountEntries(old(statsByPlatform), Texts(platforms[..j]), priName)
      {
        var plat := ToText(platforms[j]);
        Increment(plat, priName);
        CountEntriesStep(old(statsByPlatform), platforms, j, priName);
        j := j + 1;
      }
      assert platforms[..|platforms|] == platforms;
    }

    /**
     * The body of the test 'counts bugs grouped by platform' over the issues the
     * fetch step stored in `allIssues`. The table is reset first, so the result
     * does not depend on the old table. `passed` is the test's final expectation
     * that at least one platform key exists.
     */
    method CountBugsGroupedByPlatform(allIssues: seq<Issue>) returns (passed: bool)
      modifies this
      ensures statsByPlatform == Tally(allIssues)
      ensures passed <==> |statsByPlatform| > 0
    {
      statsByPlatform := map[];

      var i := 0;
      while i < |allIssues|
        invariant 0 <= i <= |allIssues|
        invariant statsByPlatform == Tally(allIssues[..i])
      {
        var issue := allIssues[i];
        var priName := issue.priorityName.GetOr("Unknown");
        var platformsField := issue.platformField;

        if !Truthy(platformsField) {
          platformsField := Arr([Str("Unknown")]);
        } else if !platformsField.Arr? {
          platformsField := Arr([platformsField]);
        }
        var platforms := platformsField.items;
        assert platforms == NormalisedField(issue.platformField);

        CountPlatforms(platforms, priName);
        TallyStep(allIssues, i);
        i := i + 1;
      }
      assert allIssues[..|allIssues|] == allIssues;
      passed := |statsByPlatform| > 0;
    }
  }
}

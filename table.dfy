/** The results table's list logic (src/components/results-table.tsx): the risk filter,
    the sort comparator and the sort it drives, the sort-toggle transition, the filter-tab
    counts and the badge conditions. Rendering is not modelled.

    `localeCompare` is given by a collation key: two strings compare as their keys do. */
module ResultsTable {
  import opened Types
  import Scanner

  datatype SortField = Risk | ScoreField | Name | Artist
  datatype SortDirection = Asc | Desc
  datatype SortState = SortState(field: SortField, dir: SortDirection)

  /** The filter tab: every result, or one risk level. */
  datatype Filter = All | Level(level: RiskLevel)

  /** The table opens sorted by risk, ascending, on the "all" tab. */
  const INITIAL_SORT := SortState(Risk, Asc)
  const INITIAL_FILTER := All

  /** `riskOrder` */
  function RiskOrder(level: RiskLevel): (n: nat)
    ensures n <= 3
  {
    match level
    case High => 0
    case Medium => 1
    case Low => 2
    case Unknown => 3
  }

  /** The ranks are distinct and put high first, unknown last. */
  lemma RiskOrderRanks(a: RiskLevel, b: RiskLevel)
    ensures RiskOrder(a) == RiskOrder(b) <==> a == b
    ensures RiskOrder(High) < RiskOrder(Medium) < RiskOrder(Low) < RiskOrder(Unknown)
  {
  }

  /** `toggleSort(field)` */
  function ToggleSort(s: SortState, field: SortField): SortState
  {
    if s.field == field then s.(dir := if s.dir == Asc then Desc else Asc)
    else SortState(field, Asc)
  }

  /** Clicking the current column flips the direction, twice restores it; clicking another
      column sorts it ascending. */
  lemma ToggleSortTransitions(s: SortState, field: SortField)
    ensures ToggleSort(s, field).field == field
    ensures s.field == field ==> ToggleSort(s, field).dir != s.dir
    ensures s.field == field ==> ToggleSort(ToggleSort(s, field), field) == s
    ensures s.field != field ==> ToggleSort(s, field).dir == Asc && ToggleSort(ToggleSort(s, field), field).dir == Desc
  {
  }

  // ─── Filter ──────────────────────────────────────────────────────

  predicate Passes(r: ScanResult, f: Filter)
  {
    f.All? || r.riskLevel == f.level
  }

  /** `filter === "all" ? results : results.filter(r => r.riskLevel === filter)` */
  function Filtered(rs: seq<ScanResult>, f: Filter): seq<ScanResult>
  {
    if f.All? then rs
    else if rs == [] then []
    else Filtered(rs[..|rs| - 1], f) + (if Passes(rs[|rs| - 1], f) then [rs[|rs| - 1]] else [])
  }

  /** The "all" tab keeps everything; a level tab keeps exactly the results at that level. */
  lemma FilterMembership(rs: seq<ScanResult>, f: Filter)
    ensures f.All? ==> Filtered(rs, f) == rs
    ensures forall x :: x in Filtered(rs, f) <==> x in rs && Passes(x, f)
    ensures f.Level? ==> |Filtered(rs, f)| == Scanner.CountMeeting(rs, Scanner.AtLevel(f.level))
  {
    FilterMembers(rs, f);
    if f.Level? {
      FilterCount(rs, f.level);
    }
  }

  lemma {:induction false} FilterMembers(rs: seq<ScanResult>, f: Filter)
    ensures forall x :: x in Filtered(rs, f) <==> x in rs && Passes(x, f)
  {
    if f.Level? && rs != [] {
      var init, last := rs[..|rs| - 1], rs[|rs| - 1];
      FilterMembers(init, f);
      var tail := if Passes(last, f) then [last] else [];
      assert Filtered(rs, f) == Filtered(init, f) + tail;
      assert rs == init + [last];
    }
  }

  lemma {:induction false} FilterCount(rs: seq<ScanResult>, level: RiskLevel)
    ensures |Filtered(rs, Level(level))| == Scanner.CountMeeting(rs, Scanner.AtLevel(level))
  {
    if rs != [] {
      FilterCount(rs[..|rs| - 1], level);
    }
  }

  /** The filter keeps the input order: what it keeps is a subsequence, picked by
      increasing indexes. */
  function FilterIndexes(rs: seq<ScanResult>, f: Filter): seq<nat>
  {
    if rs == [] then []
    else FilterIndexes(rs[..|rs| - 1], f) + (if Passes(rs[|rs| - 1], f) then [|rs| - 1] else [])
  }

  lemma {:induction false} FilterInOrder(rs: seq<ScanResult>, f: Filter)
    requires f.Level?
    ensures var pick := FilterIndexes(rs, f);
      && |pick| == |Filtered(rs, f)|
      && (forall i :: 0 <= i < |pick| ==> pick[i] < |rs| && rs[pick[i]] == Filtered(rs, f)[i])
      && (forall i, j :: 0 <= i < j < |pick| ==> pick[i] < pick[j])
  {
    if rs != [] {
      var init := rs[..|rs| - 1];
      FilterInOrder(init, f);
      var before := FilterIndexes(init, f);
      var pick := FilterIndexes(rs, f);
      forall i | 0 <= i < |before| ensures before[i] < |init| && rs[before[i]] == Filtered(init, f)[i] {
        assert rs[before[i]] == init[before[i]];
      }
      if Passes(rs[|rs| - 1], f) {
        assert pick == before + [|rs| - 1];
        forall i | 0 <= i < |pick| ensures pick[i] < |rs| && rs[pick[i]] == Filtered(rs, f)[i] {
          if i < |before| {
            assert pick[i] == before[i];
          }
        }
      }
    }
  }

  // ─── Tabs and badges ─────────────────────────────────────────────

  /** The count a tab's label shows. */
  function TabCount(rs: seq<ScanResult>, f: Filter): nat
  {
    if f.All? then |rs| else |Filtered(rs, f)|
  }

  /** Each level tab counts the results at its level, and the four level tabs add up to the
      "all" tab. */
  lemma TabCountsPartition(rs: seq<ScanResult>)
    ensures forall l :: TabCount(rs, Level(l)) == Scanner.CountMeeting(rs, Scanner.AtLevel(l))
    ensures TabCount(rs, Level(High)) + TabCount(rs, Level(Medium)) + TabCount(rs, Level(Low)) +
            TabCount(rs, Level(Unknown)) == TabCount(rs, All)
  {
    forall l ensures TabCount(rs, Level(l)) == Scanner.CountMeeting(rs, Scanner.AtLevel(l)) {
      FilterMembership(rs, Level(l));
    }
    Scanner.LevelsPartition(rs);
  }

  predicate ShowsBlocklistBadge(r: ScanResult)
  {
    r.blocklistMatch
  }

  predicate ShowsAudioBadge(r: ScanResult)
  {
    r.audioScore.Some? && r.audioScore.value >= 0.4
  }

  /** On a result the scanner produced, the badges explain its level: a medium result always
      shows the audio badge, a low or unknown one shows none, and a result with a badge is
      high or medium. */
  lemma BadgesExplainRisk(r: ScanResult)
    requires Scanner.Consistent(r)
    ensures (ShowsBlocklistBadge(r) || ShowsAudioBadge(r)) <==> (r.riskLevel == High || r.riskLevel == Medium)
    ensures r.riskLevel == Medium ==> ShowsAudioBadge(r) && !ShowsBlocklistBadge(r)
    ensures r.riskLevel == High ==> ShowsBlocklistBadge(r) || ShowsAudioBadge(r)
  {
  }

  // ─── Sorting ─────────────────────────────────────────────────────

  function Dir(d: SortDirection): real
  {
    if d == Asc then 1.0 else -1.0
  }

  /** `a.audioScore ?? -1` */
  function ScoreOrMinusOne(r: ScanResult): real
  {
    if r.audioScore.Some? then r.audioScore.value else -1.0
  }

  /** `a.localeCompare(b)`: the sign of the collation keys' difference. */
  function LocaleCompare(collation: string -> int, a: string, b: string): int
  {
    if collation(a) < collation(b) then -1 else if collation(a) == collation(b) then 0 else 1
  }

  /** The comparator handed to `sort`. */
  function Compare(s: SortState, collation: string -> int, a: ScanResult, b: ScanResult): real
  {
    var dir := Dir(s.dir);
    match s.field
    case Risk => (RiskOrder(a.riskLevel) as real - RiskOrder(b.riskLevel) as real) * dir
    case ScoreField => (ScoreOrMinusOne(a) - ScoreOrMinusOne(b)) * -dir
    case Name => LocaleCompare(collation, a.track.name, b.track.name) as real * dir
    case Artist =>
      LocaleCompare(collation, Scanner.PrimaryArtist(a.track), Scanner.PrimaryArtist(b.track)) as real * dir
  }

  /** The position the comparator gives a result: it orders any two results as their keys
      do. */
  function Key(s: SortState, collation: string -> int, r: ScanResult): real
  {
    var dir := Dir(s.dir);
    match s.field
    case Risk => RiskOrder(r.riskLevel) as real * dir
    case ScoreField => ScoreOrMinusOne(r) * -dir
    case Name => collation(r.track.name) as real * dir
    case Artist => collation(Scanner.PrimaryArtist(r.track)) as real * dir
  }

  /** The comparator is consistent: its sign is that of the keys' difference, so it is a
      total preorder. */
  lemma CompareIsKeyOrder(s: SortState, collation: string -> int, a: ScanResult, b: ScanResult)
    ensures Compare(s, collation, a, b) < 0.0 <==> Key(s, collation, a) < Key(s, collation, b)
    ensures Compare(s, collation, a, b) == 0.0 <==> Key(s, collation, a) == Key(s, collation, b)
  {
  }

  /** Insert behind every result that does not sort after it, which keeps the sort stable. */
  function Insert(s: SortState, collation: string -> int, x: ScanResult, sorted: seq<ScanResult>): seq<ScanResult>
  {
    if sorted == [] then [x]
    else if Key(s, collation, x) < Key(s, collation, sorted[0]) then [x] + sorted
    else [sorted[0]] + Insert(s, collation, x, sorted[1..])
  }

  /** `[...filtered].sort(compare)`, as a stable insertion sort. */
  function Sort(s: SortState, collation: string -> int, xs: seq<ScanResult>): seq<ScanResult>
  {
    if xs == [] then []
    else Insert(s, collation, xs[|xs| - 1], Sort(s, collation, xs[..|xs| - 1]))
  }

  predicate SortedBy(s: SortState, collation: string -> int, r: seq<ScanResult>)
  {
    forall i, j :: 0 <= i < j < |r| ==> Key(s, collation, r[i]) <= Key(s, collation, r[j])
  }

  lemma {:induction false} InsertPermutation(s: SortState, collation: string -> int, x: ScanResult, sorted: seq<ScanResult>)
    ensures multiset(Insert(s, collation, x, sorted)) == multiset(sorted) + multiset{x}
    decreases |sorted|
  {
    if sorted != [] && Key(s, collation, x) >= Key(s, collation, sorted[0]) {
      InsertPermutation(s, collation, x, sorted[1..]);
      assert sorted == [sorted[0]] + sorted[1..];
    }
  }

  /** What is inserted and what it is inserted into stay at or above a common bound. */
  lemma {:induction false} InsertBounded(s: SortState, collation: string -> int, x: ScanResult, sorted: seq<ScanResult>, bound: real)
    requires Key(s, collation, x) >= bound
    requires forall k :: 0 <= k < |sorted| ==> Key(s, collation, sorted[k]) >= bound
    ensures forall k :: 0 <= k < |Insert(s, collation, x, sorted)| ==> Key(s, collation, Insert(s, collation, x, sorted)[k]) >= bound
    decreases |sorted|
  {
    if sorted != [] && Key(s, collation, x) >= Key(s, collation, sorted[0]) {
      InsertBounded(s, collation, x, sorted[1..], bound);
    }
  }

  lemma {:induction false} InsertSorted(s: SortState, collation: string -> int, x: ScanResult, sorted: seq<ScanResult>)
    requires SortedBy(s, collation, sorted)
    ensures SortedBy(s, collation, Insert(s, collation, x, sorted))
    decreases |sorted|
  {
    if sorted != [] {
      var head := Key(s, collation, sorted[0]);
      var tail := sorted[1..];
      if Key(s, collation, x) >= head {
        InsertSorted(s, collation, x, tail);
        InsertBounded(s, collation, x, tail, head);
        var rest := Insert(s, collation, x, tail);
        var r := [sorted[0]] + rest;
        forall i, j | 0 <= i < j < |r| ensures Key(s, collation, r[i]) <= Key(s, collation, r[j]) {
          assert r[j] == rest[j - 1];
          if i > 0 {
            assert r[i] == rest[i - 1];
          }
        }
      } else {
        var r := [x] + sorted;
        forall i, j | 0 <= i < j < |r| ensures Key(s, collation, r[i]) <= Key(s, collation, r[j]) {
          assert r[j] == sorted[j - 1];
          if i > 0 {
            assert r[i] == sorted[i - 1];
          }
        }
      }
    }
  }

  /** The sort puts the results in comparator order and neither drops nor duplicates one. */
  lemma SortCorrect(s: SortState, collation: string -> int, xs: seq<ScanResult>)
    ensures SortedBy(s, collation, Sort(s, collation, xs))
    ensures multiset(Sort(s, collation, xs)) == multiset(xs)
  {
    SortSorted(s, collation, xs);
    SortPermutes(s, collation, xs);
  }

  lemma {:induction false} SortSorted(s: SortState, collation: string -> int, xs: seq<ScanResult>)
    ensures SortedBy(s, collation, Sort(s, collation, xs))
  {
    if xs != [] {
      var init := xs[..|xs| - 1];
      SortSorted(s, collation, init);
      InsertSorted(s, collation, xs[|xs| - 1], Sort(s, collation, init));
    }
  }

  lemma {:induction false} SortPermutes(s: SortState, collation: string -> int, xs: seq<ScanResult>)
    ensures multiset(Sort(s, collation, xs)) == multiset(xs)
  {
    if xs != [] {
      var init, last := xs[..|xs| - 1], xs[|xs| - 1];
      SortPermutes(s, collation, init);
      InsertPermutation(s, collation, last, Sort(s, collation, init));
      assert xs == init + [last];
      assert multiset(xs) == multiset(init) + multiset{last};
    }
  }

  /** `filteredAndSorted` */
  function FilteredAndSorted(rs: seq<ScanResult>, f: Filter, s: SortState, collation: string -> int): seq<ScanResult>
  {
    Sort(s, collation, Filtered(rs, f))
  }

  /** The table shows the filtered results, each once, with the comparator never placing a
      row after one it sorts before. */
  lemma FilteredAndSortedCorrect(rs: seq<ScanResult>, f: Filter, s: SortState, collation: string -> int)
    ensures var shown := FilteredAndSorted(rs, f, s, collation);
      && multiset(shown) == multiset(Filtered(rs, f))
      && |shown| == TabCount(rs, f)
      && (forall x :: x in shown <==> x in rs && Passes(x, f))
      && (forall i, j :: 0 <= i < j < |shown| ==> Compare(s, collation, shown[i], shown[j]) <= 0.0)
  {
    var shown := FilteredAndSorted(rs, f, s, collation);
    SortCorrect(s, collation, Filtered(rs, f));
    FilterMembership(rs, f);
    assert |shown| == |multiset(shown)| == |multiset(Filtered(rs, f))| == |Filtered(rs, f)|;
    forall x ensures x in shown <==> x in rs && Passes(x, f) {
      assert x in shown <==> x in multiset(shown);
      assert x in Filtered(rs, f) <==> x in multiset(Filtered(rs, f));
    }
    forall i, j | 0 <= i < j < |shown| ensures Compare(s, collation, shown[i], shown[j]) <= 0.0 {
      CompareIsKeyOrder(s, collation, shown[i], shown[j]);
    }
  }

  /** By risk, ascending puts high before medium before low before unknown; descending
      reverses it. */
  lemma RiskSortOrder(rs: seq<ScanResult>, f: Filter, dir: SortDirection, collation: string -> int)
    ensures var shown := FilteredAndSorted(rs, f, SortState(Risk, dir), collation);
      forall i, j :: 0 <= i < j < |shown| ==>
        if dir == Asc then RiskOrder(shown[i].riskLevel) <= RiskOrder(shown[j].riskLevel)
        else RiskOrder(shown[i].riskLevel) >= RiskOrder(shown[j].riskLevel)
  {
    SortCorrect(SortState(Risk, dir), collation, Filtered(rs, f));
  }

  /** By score, "asc" puts higher scores first, with an unscored result as -1 (below every
      score); "desc" puts them last. */
  lemma ScoreSortOrder(rs: seq<ScanResult>, f: Filter, dir: SortDirection, collation: string -> int)
    ensures var shown := FilteredAndSorted(rs, f, SortState(ScoreField, dir), collation);
      forall i, j :: 0 <= i < j < |shown| ==>
        if dir == Asc then ScoreOrMinusOne(shown[i]) >= ScoreOrMinusOne(shown[j])
        else ScoreOrMinusOne(shown[i]) <= ScoreOrMinusOne(shown[j])
  {
    SortCorrect(SortState(ScoreField, dir), collation, Filtered(rs, f));
  }
}

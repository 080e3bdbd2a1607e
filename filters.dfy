/**
 * The sidebar's cascading hierarchy filters: which values each multiselect offers,
 * and the filtered view of the table that the rest of the dashboard works on.
 */
module Filters {
  import opened Collections
  import opened Dataset

  // ---------------------------------------------------------------------------
  // Row masks

  /** pandas `rows[rows[level].isin(values)]`: the rows whose field at `level` is listed, in order. */
  function KeepIn(rows: Table, level: Level, values: seq<string>): (v: Table)
    ensures forall r :: r in v <==> r in rows && Field(r, level) in values
  {
    if rows == [] then []
    else
      assert rows == [rows[0]] + rows[1..];
      (if Field(rows[0], level) in values then [rows[0]] else []) + KeepIn(rows[1..], level, values)
  }

  /** A selection list constrains its level only when something is chosen in it. */
  predicate Admits(chosen: seq<string>, v: string) {
    chosen == [] || v in chosen
  }

  /** The record passes the filters of the `k` outermost levels. */
  predicate MatchesUpTo(r: Record, s: Selection, k: nat) {
    && (k > 0 ==> Admits(s.province, r.province))
    && (k > 1 ==> Admits(s.division, r.division))
    && (k > 2 ==> Admits(s.district, r.district))
    && (k > 3 ==> Admits(s.tehsil, r.tehsil))
  }

  /** The record passes the filters of all four levels. */
  predicate Matches(r: Record, s: Selection) {
    MatchesUpTo(r, s, 4)
  }

  /** The rows of `t` passing the filters of the `k` outermost levels, in table order. */
  function FilteredUpTo(t: Table, s: Selection, k: nat): (v: Table)
    ensures forall r :: r in v <==> r in t && MatchesUpTo(r, s, k)
  {
    if t == [] then []
    else
      assert t == [t[0]] + t[1..];
      (if MatchesUpTo(t[0], s, k) then [t[0]] else []) + FilteredUpTo(t[1..], s, k)
  }

  /** The filtered view: the rows of `t` passing every level's filter, in table order. */
  function Filtered(t: Table, s: Selection): (v: Table)
    ensures forall r :: r in v <==> r in t && Matches(r, s)
  {
    FilteredUpTo(t, s, 4)
  }

  // ---------------------------------------------------------------------------
  // The filter chain

  /**
   * The filter chain: start from a copy of the table and, level by level from the
   * province down, keep only the rows whose field is in that level's list, skipping
   * the levels where nothing is chosen.
   */
  method ApplyFilters(t: Table, s: Selection) returns (view: Table)
    ensures view == Filtered(t, s)
  {
    view := t;
    FilterKeepsMatchingTable(t, s, 0);
    view := Narrow(t, s, view, Province);
    view := Narrow(t, s, view, Division);
    view := Narrow(t, s, view, District);
    view := Narrow(t, s, view, Tehsil);
  }

  /**
   * One `if` of the chain: when `level`'s list is non-empty, keep the rows whose field
   * is in it. Applied to the rows passing the levels above, it yields the rows passing
   * the levels down to `level`.
   */
  method Narrow(t: Table, s: Selection, view: Table, level: Level) returns (narrowed: Table)
    requires view == FilteredUpTo(t, s, level.Rank())
    ensures narrowed == FilteredUpTo(t, s, level.Rank() + 1)
  {
    narrowed := view;
    if s.At(level) != [] {
      narrowed := KeepIn(view, level, s.At(level));
    }
    NarrowStep(t, s, level);
  }

  /** The filtered view keeps exactly the matching rows, in the order of the table. */
  lemma FilteredViewProperties(t: Table, s: Selection)
    ensures IsSubsequence(Filtered(t, s), t)
    ensures forall r :: r in Filtered(t, s) <==> r in t && Matches(r, s)
    ensures forall r :: multiset(Filtered(t, s))[r] == if Matches(r, s) then multiset(t)[r] else 0
  {
    FilteredIsSubsequence(t, s, 4);
    forall r ensures multiset(Filtered(t, s))[r] == if Matches(r, s) then multiset(t)[r] else 0 {
      FilteredCounts(t, s, 4, r);
    }
  }

  /** Every copy of a row passing the filters is kept, and no copy of any other row. */
  lemma {:induction false} FilteredCounts(t: Table, s: Selection, k: nat, r: Record)
    ensures multiset(FilteredUpTo(t, s, k))[r] == if MatchesUpTo(r, s, k) then multiset(t)[r] else 0
  {
    if t != [] {
      FilteredCounts(t[1..], s, k, r);
      assert t == [t[0]] + t[1..];
    }
  }

  /** A table whose rows all pass the first `k` filters comes through unchanged. */
  lemma {:induction false} FilterKeepsMatchingTable(t: Table, s: Selection, k: nat)
    requires forall i :: 0 <= i < |t| ==> MatchesUpTo(t[i], s, k)
    ensures FilteredUpTo(t, s, k) == t
  {
    if t != [] {
      FilterKeepsMatchingTable(t[1..], s, k);
      assert t == [t[0]] + t[1..];
    }
  }

  /** With nothing chosen at any level, the filtered view is the whole table. */
  lemma NoSelectionShowsAllData(t: Table)
    ensures Filtered(t, Selection([], [], [], [])) == t
  {
    FilterKeepsMatchingTable(t, Selection([], [], [], []), 4);
  }

  /**
   * One step of the chain: narrowing the rows that pass the filters above `level`
   * by `level`'s list (unless it is empty) gives the rows passing the filters down
   * to `level`.
   */
  lemma {:induction false} NarrowStep(t: Table, s: Selection, level: Level)
    ensures FilteredUpTo(t, s, level.Rank() + 1) ==
      if s.At(level) == [] then FilteredUpTo(t, s, level.Rank())
      else KeepIn(FilteredUpTo(t, s, level.Rank()), level, s.At(level))
  {
    if t != [] {
      NarrowStep(t[1..], s, level);
      var k := level.Rank();
      var x := t[0];
      var tail := FilteredUpTo(t[1..], s, k);
      if MatchesUpTo(x, s, k) {
        assert FilteredUpTo(t, s, k) == [x] + tail;
        assert ([x] + tail)[0] == x && ([x] + tail)[1..] == tail;
      } else {
        assert FilteredUpTo(t, s, k) == tail;
      }
    }
  }

  /** The rows passing any prefix of the filters keep their order in the table. */
  lemma {:induction false} FilteredIsSubsequence(t: Table, s: Selection, k: nat)
    ensures IsSubsequence(FilteredUpTo(t, s, k), t)
  {
    if t != [] {
      var x := t[0];
      var tail := FilteredUpTo(t[1..], s, k);
      FilteredIsSubsequence(t[1..], s, k);
      if MatchesUpTo(x, s, k) {
        assert FilteredUpTo(t, s, k) == [x] + tail;
        assert ([x] + tail)[0] == x && ([x] + tail)[1..] == tail;
      } else {
        assert FilteredUpTo(t, s, k) == tail;
        if tail != [] {
          assert tail[0] in tail;
        }
      }
    }
  }

  /** `wider` keeps every empty list empty and every non-empty list of `s` within its own. */
  predicate ListWidens(chosen: seq<string>, wider: seq<string>) {
    (chosen == [] ==> wider == []) && forall x :: x in chosen ==> x in wider
  }

  predicate Widens(s: Selection, wider: Selection) {
    && ListWidens(s.province, wider.province)
    && ListWidens(s.division, wider.division)
    && ListWidens(s.district, wider.district)
    && ListWidens(s.tehsil, wider.tehsil)
  }

  /**
   * Adding values to lists that already constrain their level never removes a row:
   * the narrower view is a subsequence of the wider one.
   */
  lemma {:induction false} WideningKeepsRows(t: Table, s: Selection, wider: Selection)
    requires Widens(s, wider)
    ensures IsSubsequence(Filtered(t, s), Filtered(t, wider))
  {
    if t != [] {
      WideningKeepsRows(t[1..], s, wider);
      var x := t[0];
      var narrow := Filtered(t[1..], s);
      var wide := Filtered(t[1..], wider);
      if Matches(x, s) {
        assert Matches(x, wider);
        assert Filtered(t, s) == [x] + narrow;
        assert Filtered(t, wider) == [x] + wide;
        assert ([x] + narrow)[1..] == narrow;
        assert ([x] + wide)[0] == x && ([x] + wide)[1..] == wide;
      } else if Matches(x, wider) {
        assert Filtered(t, s) == narrow;
        assert Filtered(t, wider) == [x] + wide;
        assert ([x] + wide)[1..] == wide;
        if narrow != [] {
          assert narrow[0] in narrow;
        }
      } else {
        assert Filtered(t, s) == narrow;
        assert Filtered(t, wider) == wide;
      }
    }
  }

  // ---------------------------------------------------------------------------
  // Cascading options

  /**
   * The ancestor mask of the option lists: every level above `level` has the row's
   * field in its list. As with pandas `isin`, an empty list admits no row.
   */
  predicate WithinAncestors(r: Record, s: Selection, level: Level) {
    && (level.Rank() > 0 ==> r.province in s.province)
    && (level.Rank() > 1 ==> r.division in s.division)
    && (level.Rank() > 2 ==> r.district in s.district)
  }

  /** The rows of `t` under the ancestor mask of `level`, in table order. */
  function Candidates(t: Table, s: Selection, level: Level): (v: Table)
    ensures forall r :: r in v <==> r in t && WithinAncestors(r, s, level)
  {
    if t == [] then []
    else
      assert t == [t[0]] + t[1..];
      (if WithinAncestors(t[0], s, level) then [t[0]] else []) + Candidates(t[1..], s, level)
  }

  /** The column `rows[level]`: each row's field at `level`, in row order. */
  function FieldValues(rows: Table, level: Level): (vs: seq<string>)
    ensures |vs| == |rows|
    ensures forall i :: 0 <= i < |rows| ==> vs[i] == Field(rows[i], level)
    ensures forall x :: x in vs <==> exists r :: r in rows && Field(r, level) == x
  {
    if rows == [] then []
    else
      assert rows == [rows[0]] + rows[1..];
      [Field(rows[0], level)] + FieldValues(rows[1..], level)
  }

  /**
   * The values the multiselect of `level` offers: every distinct province; below that,
   * nothing while the level directly above has nothing chosen, and otherwise the
   * distinct values, in order of first appearance, of the rows under the ancestor mask.
   */
  function OptionsFor(t: Table, s: Selection, level: Level): (opts: seq<string>)
    ensures NoDuplicates(opts)
    ensures level != Province && s.At(level.Parent()) == [] ==> opts == []
    ensures level == Province || s.At(level.Parent()) != [] ==>
      forall x :: x in opts <==> exists r :: r in t && WithinAncestors(r, s, level) && Field(r, level) == x
  {
    if level != Province && s.At(level.Parent()) == [] then []
    else Distinct(FieldValues(Candidates(t, s, level), level))
  }

  /** An empty list at ANY level above `level` leaves `level` with nothing to offer. */
  lemma EmptyAncestorEmptiesOptions(t: Table, s: Selection, level: Level, ancestor: Level)
    requires ancestor.Rank() < level.Rank() && s.At(ancestor) == []
    ensures OptionsFor(t, s, level) == []
  {
    NoCandidatesUnderEmptyAncestor(t, s, level, ancestor);
  }

  lemma {:induction false} NoCandidatesUnderEmptyAncestor(t: Table, s: Selection, level: Level, ancestor: Level)
    requires ancestor.Rank() < level.Rank() && s.At(ancestor) == []
    ensures Candidates(t, s, level) == []
  {
    if t != [] {
      NoCandidatesUnderEmptyAncestor(t[1..], s, level, ancestor);
      assert !WithinAncestors(t[0], s, level);
    }
  }

  /** Every level above `level` has something chosen. */
  predicate AncestorsChosen(s: Selection, level: Level) {
    && (level.Rank() > 0 ==> s.province != [])
    && (level.Rank() > 1 ==> s.division != [])
    && (level.Rank() > 2 ==> s.district != [])
  }

  /** Once every ancestor has a choice, the ancestor mask is the filter chain down to the parent. */
  lemma {:induction false} CandidatesAreAncestorView(t: Table, s: Selection, level: Level)
    requires AncestorsChosen(s, level)
    ensures Candidates(t, s, level) == FilteredUpTo(t, s, level.Rank())
  {
    if t != [] {
      CandidatesAreAncestorView(t[1..], s, level);
      assert WithinAncestors(t[0], s, level) == MatchesUpTo(t[0], s, level.Rank());
    }
  }

  /**
   * Once every ancestor has a choice, a level offers exactly the distinct values, in
   * order of first appearance, of the table filtered by the levels above it.
   */
  lemma OptionsComeFromAncestorView(t: Table, s: Selection, level: Level)
    requires AncestorsChosen(s, level)
    ensures OptionsFor(t, s, level) == Distinct(FieldValues(FilteredUpTo(t, s, level.Rank()), level))
  {
    CandidatesAreAncestorView(t, s, level);
  }

  /** `s` with `chosen` picked at `level` and nothing picked below it. */
  function ChooseAt(s: Selection, level: Level, chosen: seq<string>): Selection {
    match level
    case Province => Selection(chosen, [], [], [])
    case Division => Selection(s.province, chosen, [], [])
    case District => Selection(s.province, s.division, chosen, [])
    case Tehsil => Selection(s.province, s.division, s.district, chosen)
  }

  /** Picking values that include an offered option never leaves the filtered view empty. */
  lemma OfferedOptionShowsData(t: Table, s: Selection, level: Level, x: string, chosen: seq<string>)
    requires x in OptionsFor(t, s, level) && x in chosen
    ensures Filtered(t, ChooseAt(s, level, chosen)) != []
  {
    var r :| r in t && WithinAncestors(r, s, level) && Field(r, level) == x;
    assert Matches(r, ChooseAt(s, level, chosen));
    assert r in Filtered(t, ChooseAt(s, level, chosen));
  }
}

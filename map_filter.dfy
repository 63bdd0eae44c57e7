/**
 * The map section's filter block of app.py: the species, region and month filters applied one
 * after the other to the processed rows, and the month the month selector starts on.
 */
module MapFilter {
  import opened Wrappers
  import opened Labels
  import opened Normalizer

  /** The elements of `s` that satisfy `p`, in their order: pandas' boolean-mask indexing. */
  function Filter<T(!new)>(p: T -> bool, s: seq<T>): (r: seq<T>)
    ensures |r| <= |s|
    ensures forall x :: x in r <==> x in s && p(x)
  {
    if s == [] then []
    else if p(s[0]) then [s[0]] + Filter(p, s[1..])
    else Filter(p, s[1..])
  }

  /** `r` is `s` with some elements left out and the rest in their order. */
  predicate IsSubsequence<T(==)>(r: seq<T>, s: seq<T>) {
    if r == [] then true
    else if s == [] then false
    else (r[0] == s[0] && IsSubsequence(r[1..], s[1..])) || IsSubsequence(r, s[1..])
  }

  /** A filter keeps an order-preserving subsequence of its input. */
  lemma {:induction false} FilterIsSubsequence<T(!new)>(p: T -> bool, s: seq<T>)
    ensures IsSubsequence(Filter(p, s), s)
  {
    if s != [] {
      FilterIsSubsequence(p, s[1..]);
      var r := Filter(p, s);
      if p(s[0]) {
        assert r[0] == s[0] && r[1..] == Filter(p, s[1..]);
      } else {
        if r != [] {
          assert IsSubsequence(r, s[1..]);
        }
      }
    }
  }

  /** A filter that every element passes changes nothing. */
  lemma {:induction false} FilterKeepsAll<T(!new)>(p: T -> bool, s: seq<T>)
    requires forall x :: x in s ==> p(x)
    ensures Filter(p, s) == s
  {
    if s != [] {
      assert forall x :: x in s[1..] ==> x in s;
      FilterKeepsAll(p, s[1..]);
    }
  }

  /** Two filters in a row keep what their conjunction `pq` keeps. */
  lemma {:induction false} FilterThenFilter<T(!new)>(p: T -> bool, q: T -> bool, pq: T -> bool, s: seq<T>)
    requires forall x :: x in s ==> pq(x) == (p(x) && q(x))
    ensures Filter(q, Filter(p, s)) == Filter(pq, s)
  {
    if s != [] {
      assert forall x :: x in s[1..] ==> x in s;
      FilterThenFilter(p, q, pq, s[1..]);
      if p(s[0]) {
        assert Filter(p, s) == [s[0]] + Filter(p, s[1..]);
        assert ([s[0]] + Filter(p, s[1..]))[1..] == Filter(p, s[1..]);
      }
    }
  }

  /** The month filter: the row's categorical month equals the selected one (a missing month never does). */
  predicate InMonth(month: MonthIndex, r: Record): (b: bool)
    ensures r.month.None? ==> !b
    ensures b <==> r.month.Some? && r.month.value == month
  {
    r.month == Some(month)
  }

  /**
   * One row survives the filter block: an empty species or region selection constrains nothing,
   * a non-empty one requires membership, and the month must be the selected one.
   */
  predicate Shown(species: seq<string>, regions: seq<string>, month: MonthIndex, r: Record): (b: bool)
    ensures b ==> r.month == Some(month)
    ensures b && species != [] ==> r.species in species
    ensures b && regions != [] ==> r.region in regions
    ensures species == [] && regions == [] ==> (b <==> r.month == Some(month))
  {
    && (species == [] || r.species in species)
    && (regions == [] || r.region in regions)
    && InMonth(month, r)
  }

  /**
   * The filter block: start from a copy of the processed rows and narrow it by species when
   * species are selected, by region when regions are selected, and by the selected month. The
   * month selector's options are the twelve categories, so a month is always selected and its
   * test always applies.
   */
  method FilterMapData(rows: seq<Record>, species: seq<string>, regions: seq<string>, month: MonthIndex)
    returns (shown: seq<Record>)
    ensures shown == Filter(r => Shown(species, regions, month, r), rows)
  {
    var bySpecies := (r: Record) => r.species in species;
    var byRegion := (r: Record) => r.region in regions;
    var byMonth := (r: Record) => InMonth(month, r);
    // `passed` is the conjunction of the tests applied so far: `shown` is what it keeps.
    ghost var passed: Record -> bool := _ => true;
    FilterKeepsAll(passed, rows);
    shown := rows;
    if species != [] {
      ghost var next := (r: Record) => passed(r) && bySpecies(r);
      FilterThenFilter(passed, bySpecies, next, rows);
      shown := Filter(bySpecies, shown);
      passed := next;
    }
    if regions != [] {
      ghost var next := (r: Record) => passed(r) && byRegion(r);
      FilterThenFilter(passed, byRegion, next, rows);
      shown := Filter(byRegion, shown);
      passed := next;
    }
    FilterThenFilter(passed, byMonth, r => Shown(species, regions, month, r), rows);
    shown := Filter(byMonth, shown);
  }

  /** Filters by predicates that agree on every element keep the same elements. */
  lemma {:induction false} FilterSame<T(!new)>(p: T -> bool, q: T -> bool, s: seq<T>)
    requires forall x :: x in s ==> p(x) == q(x)
    ensures Filter(p, s) == Filter(q, s)
  {
    if s != [] {
      assert forall x :: x in s[1..] ==> x in s;
      FilterSame(p, q, s[1..]);
    }
  }

  /**
   * What the map and the table show: an order-preserving subsequence of the processed rows,
   * holding exactly the rows that pass all three tests.
   */
  lemma FilteredView(rows: seq<Record>, species: seq<string>, regions: seq<string>, month: MonthIndex)
    ensures var shown := Filter(r => Shown(species, regions, month, r), rows);
      && IsSubsequence(shown, rows)
      && (forall r :: r in shown <==>
            (r in rows && (species == [] || r.species in species) &&
             (regions == [] || r.region in regions) && r.month == Some(month)))
  {
    FilterIsSubsequence(r => Shown(species, regions, month, r), rows);
  }

  /** Empty species and region selections leave exactly the rows of the selected month. */
  lemma EmptySelectionsKeepMonth(rows: seq<Record>, month: MonthIndex)
    ensures Filter(r => Shown([], [], month, r), rows) == Filter(r => InMonth(month, r), rows)
  {
    FilterSame(r => Shown([], [], month, r), r => InMonth(month, r), rows);
  }

  /** The number of rows whose categorical month is `m`. */
  function MonthCount(rows: seq<Record>, m: MonthIndex): (n: nat)
    ensures n <= |rows|
    ensures n > 0 <==> exists r :: r in rows && r.month == Some(m)
  {
    if rows == [] then 0
    else (if rows[0].month == Some(m) then 1 else 0) + MonthCount(rows[1..], m)
  }

  /** The month filter keeps as many rows as carry that month. */
  lemma {:induction false} MonthFilterSize(rows: seq<Record>, m: MonthIndex)
    ensures |Filter(r => InMonth(m, r), rows)| == MonthCount(rows, m)
  {
    if rows != [] {
      MonthFilterSize(rows[1..], m);
    }
  }

  /**
   * The most frequent month, searching months `k..11` on from `best`, the most frequent of the
   * months before `k` and the earliest of those as frequent as it.
   */
  function ModeFrom(rows: seq<Record>, k: nat, best: MonthIndex): (r: MonthIndex)
    requires k <= 12 && best < k
    requires forall m: MonthIndex :: m < k ==> MonthCount(rows, m) <= MonthCount(rows, best)
    requires forall m: MonthIndex :: m < best ==> MonthCount(rows, m) < MonthCount(rows, best)
    ensures forall m: MonthIndex :: MonthCount(rows, m) <= MonthCount(rows, r)
    ensures forall m: MonthIndex :: m < r ==> MonthCount(rows, m) < MonthCount(rows, r)
    decreases 12 - k
  {
    if k == 12 then best
    else if MonthCount(rows, k) > MonthCount(rows, best) then ModeFrom(rows, k + 1, k)
    else ModeFrom(rows, k + 1, best)
  }

  /**
   * The month the selector starts on: `mode()[0]` of the month column, the most frequent month,
   * the earliest in calendar order among equally frequent ones. When no row has a month, `mode()`
   * is empty and `[0]` raises, which the model reports as no month.
   */
  function DefaultMonth(rows: seq<Record>): (r: Option<MonthIndex>)
    ensures r.Some? <==> exists row :: row in rows && row.month.Some?
    ensures r.Some? ==> MonthCount(rows, r.value) > 0
    ensures r.Some? ==> forall m: MonthIndex :: MonthCount(rows, m) <= MonthCount(rows, r.value)
    ensures r.Some? ==> forall m: MonthIndex :: m < r.value ==> MonthCount(rows, m) < MonthCount(rows, r.value)
  {
    var m := ModeFrom(rows, 1, 0);
    if MonthCount(rows, m) == 0 then
      NoMonthWithoutMode(rows, m);
      None
    else Some(m)
  }

  /** When even the most frequent month has no row, no row has a month. */
  lemma NoMonthWithoutMode(rows: seq<Record>, m: MonthIndex)
    requires MonthCount(rows, m) == 0
    requires forall k: MonthIndex :: MonthCount(rows, k) <= MonthCount(rows, m)
    ensures forall row :: row in rows ==> row.month.None?
  {
    forall row | row in rows
      ensures row.month.None?
    {
      var k: MonthIndex := if row.month.Some? then row.month.value else 0;
      assert MonthCount(rows, k) == 0;
    }
  }

  /**
   * With nothing selected for species and region, the default month shows a non-empty map: as
   * many rows as carry the most frequent month.
   */
  lemma DefaultViewNonEmpty(rows: seq<Record>)
    requires DefaultMonth(rows).Some?
    ensures var m := DefaultMonth(rows).value;
      |Filter(r => Shown([], [], m, r), rows)| == MonthCount(rows, m) > 0
  {
    var m := DefaultMonth(rows).value;
    EmptySelectionsKeepMonth(rows, m);
    MonthFilterSize(rows, m);
  }
}

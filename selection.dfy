/**
 * The species and region selections of the map section: the sorted list of distinct labels the
 * multiselects offer, and the session state that the "select all" and "clear" buttons and the
 * multiselects themselves update.
 */
module Selection {
  import opened Labels
  import opened Normalizer
  import opened MapFilter

  /** Python's `<` on `str`: code point by code point, a proper prefix before the longer string. */
  predicate Below(a: string, b: string): (r: bool)
    ensures |a| < |b| && a == b[..|a|] ==> r
    ensures |b| <= |a| && b == a[..|b|] ==> !r
  {
    if a == [] then b != []
    else if b == [] then false
    else a[0] < b[0] || (a[0] == b[0] && Below(a[1..], b[1..]))
  }

  /** At the first code point where the strings differ, the smaller code point decides. */
  lemma {:induction false} BelowAtFirstDifference(a: string, b: string, k: nat)
    requires k < |a| && k < |b| && a[..k] == b[..k] && a[k] != b[k]
    ensures Below(a, b) <==> a[k] < b[k]
  {
    if k > 0 {
      assert a[0] == a[..k][0] == b[..k][0] == b[0];
      assert a[1..][..k - 1] == a[..k][1..] == b[..k][1..] == b[1..][..k - 1];
      BelowAtFirstDifference(a[1..], b[1..], k - 1);
    }
  }

  lemma {:induction false} BelowIrreflexive(a: string)
    ensures !Below(a, a)
  {
    if a != [] {
      BelowIrreflexive(a[1..]);
    }
  }

  lemma {:induction false} BelowTransitive(a: string, b: string, c: string)
    requires Below(a, b) && Below(b, c)
    ensures Below(a, c)
  {
    if a != [] && b != [] && c != [] && a[0] == b[0] && b[0] == c[0] {
      BelowTransitive(a[1..], b[1..], c[1..]);
    }
  }

  lemma {:induction false} BelowTotal(a: string, b: string)
    ensures a == b || Below(a, b) || Below(b, a)
  {
    if a != [] && b != [] && a[0] == b[0] {
      BelowTotal(a[1..], b[1..]);
      if a[1..] == b[1..] {
        assert a == [a[0]] + a[1..] && b == [b[0]] + b[1..];
      }
    }
  }

  /** Each label is below every later one: the list is sorted and holds no label twice. */
  predicate StrictlySorted(s: seq<string>) {
    forall i, j :: 0 <= i < j < |s| ==> Below(s[i], s[j])
  }

  /** A strictly sorted list holds no label twice. */
  lemma SortedDistinct(s: seq<string>)
    requires StrictlySorted(s)
    ensures forall i, j :: 0 <= i < j < |s| ==> s[i] != s[j]
  {
    forall i, j | 0 <= i < j < |s|
      ensures s[i] != s[j]
    {
      if s[i] == s[j] {
        BelowIrreflexive(s[i]);
      }
    }
  }

  /** A label below the head of a strictly sorted list is below all of it. */
  lemma BelowAll(x: string, s: seq<string>)
    requires StrictlySorted(s) && s != [] && Below(x, s[0])
    ensures forall y :: y in s ==> Below(x, y)
  {
    forall y | y in s
      ensures Below(x, y)
    {
      if y != s[0] {
        BelowTransitive(x, s[0], y);
      }
    }
  }

  /** `s` with `x` added in its place, unless it is there already. */
  function Insert(x: string, s: seq<string>): (r: seq<string>)
    requires StrictlySorted(s)
    ensures StrictlySorted(r)
    ensures forall y :: y in r <==> y == x || y in s
  {
    if s == [] then [x]
    else if x == s[0] then s
    else if Below(x, s[0]) then
      BelowAll(x, s);
      [x] + s
    else
      BelowTotal(x, s[0]);
      var rest := Insert(x, s[1..]);
      assert forall y :: y in rest ==> Below(s[0], y);
      [s[0]] + rest
  }

  /** `sorted(labels.unique())`: the distinct labels in ascending order. */
  function SortedUnique(labels: seq<string>): (r: seq<string>)
    ensures StrictlySorted(r)
    ensures forall y :: y in r <==> y in labels
  {
    if labels == [] then []
    else Insert(labels[|labels| - 1], SortedUnique(labels[..|labels| - 1]))
  }

  /**
   * Two strictly sorted lists of the same labels are the same list: the distinct labels have
   * exactly one ascending listing, whatever order the rows gave them in.
   */
  lemma {:induction false} SortedListingUnique(a: seq<string>, b: seq<string>)
    requires StrictlySorted(a) && StrictlySorted(b)
    requires forall y :: y in a <==> y in b
    ensures a == b
  {
    assert a == [] <==> b == [] by {
      if a != [] { assert a[0] in a; }
      if b != [] { assert b[0] in b; }
    }
    if a != [] {
      if a[0] != b[0] {
        assert b[0] in a && a[0] in b;
        var i :| 0 <= i < |a| && a[i] == b[0];
        var j :| 0 <= j < |b| && b[j] == a[0];
        assert Below(a[0], b[0]) && Below(b[0], a[0]);
        BelowTransitive(a[0], b[0], a[0]);
        BelowIrreflexive(a[0]);
      }
      SortedDistinct(a);
      SortedDistinct(b);
      forall y
        ensures y in a[1..] <==> y in b[1..]
      {
        if y in a[1..] {
          var i :| 1 <= i < |a| && a[i] == y;
          assert y in b;
          var j :| 0 <= j < |b| && b[j] == y;
          assert j != 0;
          assert b[1..][j - 1] == y;
        }
        if y in b[1..] {
          var j :| 1 <= j < |b| && b[j] == y;
          assert y in a;
          var i :| 0 <= i < |a| && a[i] == y;
          assert i != 0;
          assert a[1..][i - 1] == y;
        }
      }
      SortedListingUnique(a[1..], b[1..]);
      assert a == [a[0]] + a[1..] && b == [b[0]] + b[1..];
    }
  }

  /** The species label column of the processed rows. */
  function SpeciesOf(rows: seq<Record>): (r: seq<string>)
    ensures |r| == |rows| && forall i :: 0 <= i < |rows| ==> r[i] == rows[i].species
  {
    seq(|rows|, i requires 0 <= i < |rows| => rows[i].species)
  }

  /** The region label column of the processed rows. */
  function RegionsOf(rows: seq<Record>): (r: seq<string>)
    ensures |r| == |rows| && forall i :: 0 <= i < |rows| ==> r[i] == rows[i].region
  {
    seq(|rows|, i requires 0 <= i < |rows| => rows[i].region)
  }

  /**
   * The species multiselect's options hold each species label of the rows once, in ascending
   * order, and nothing else.
   */
  lemma SpeciesOptions(rows: seq<Record>)
    ensures var opts := SortedUnique(SpeciesOf(rows));
      && StrictlySorted(opts)
      && (forall i, j :: 0 <= i < j < |opts| ==> opts[i] != opts[j])
      && (forall y :: y in opts <==> exists r :: r in rows && r.species == y)
  {
    var labels := SpeciesOf(rows);
    SortedDistinct(SortedUnique(labels));
    forall y
      ensures y in labels <==> exists r :: r in rows && r.species == y
    {
      if y in labels {
        var i :| 0 <= i < |labels| && labels[i] == y;
        assert rows[i] in rows;
      }
      if exists r :: r in rows && r.species == y {
        var r :| r in rows && r.species == y;
        var i :| 0 <= i < |rows| && rows[i] == r;
        assert labels[i] == y;
      }
    }
  }

  /**
   * Selecting all species shows the same rows as selecting none: every row's species is among
   * the options, and an empty selection does not constrain.
   */
  lemma SelectAllSpeciesShowsAll(rows: seq<Record>, regions: seq<string>, month: MonthIndex)
    ensures Filter(r => Shown(SortedUnique(SpeciesOf(rows)), regions, month, r), rows)
         == Filter(r => Shown([], regions, month, r), rows)
  {
    var all := SortedUnique(SpeciesOf(rows));
    forall r | r in rows
      ensures Shown(all, regions, month, r) == Shown([], regions, month, r)
    {
      var i :| 0 <= i < |rows| && rows[i] == r;
      assert SpeciesOf(rows)[i] == r.species;
    }
    FilterSame(r => Shown(all, regions, month, r), r => Shown([], regions, month, r), rows);
  }

  /** Selecting all regions shows the same rows as selecting none. */
  lemma SelectAllRegionsShowsAll(rows: seq<Record>, species: seq<string>, month: MonthIndex)
    ensures Filter(r => Shown(species, SortedUnique(RegionsOf(rows)), month, r), rows)
         == Filter(r => Shown(species, [], month, r), rows)
  {
    var all := SortedUnique(RegionsOf(rows));
    forall r | r in rows
      ensures Shown(species, all, month, r) == Shown(species, [], month, r)
    {
      var i :| 0 <= i < |rows| && rows[i] == r;
      assert RegionsOf(rows)[i] == r.region;
    }
    FilterSame(r => Shown(species, all, month, r), r => Shown(species, [], month, r), rows);
  }

  /**
   * The selection after the buttons of one dimension: "select all" wins over "clear" (the
   * source tests it first), and with neither pressed the previous selection stays.
   */
  function AfterButtons(options: seq<string>, previous: seq<string>, selectAll: bool, clear: bool): (r: seq<string>)
    ensures selectAll ==> r == options
    ensures !selectAll && clear ==> r == []
    ensures !selectAll && !clear ==> r == previous
  {
    if selectAll then options else if clear then [] else previous
  }

  /**
   * The session's stored selections. They persist across the reruns of one session; each rerun
   * applies the buttons and then stores whatever the multiselect returns.
   */
  class SessionSelection {
    var species: seq<string>
    var regions: seq<string>

    /** The first run of a session: neither key is in the session state, and both start empty. */
    constructor ()
      ensures species == [] && regions == []
    {
      species := [];
      regions := [];
    }

    /** The species buttons, with the options taken from the processed rows. */
    method SpeciesButtons(rows: seq<Record>, selectAll: bool, clear: bool)
      modifies this
      ensures species == AfterButtons(SortedUnique(SpeciesOf(rows)), old(species), selectAll, clear)
      ensures regions == old(regions)
    {
      var allSpecies := SortedUnique(SpeciesOf(rows));
      if selectAll {
        species := allSpecies;
      } else if clear {
        species := [];
      }
    }

    /** The region buttons, with the options taken from the processed rows. */
    method RegionButtons(rows: seq<Record>, selectAll: bool, clear: bool)
      modifies this
      ensures regions == AfterButtons(SortedUnique(RegionsOf(rows)), old(regions), selectAll, clear)
      ensures species == old(species)
    {
      var allRegions := SortedUnique(RegionsOf(rows));
      if selectAll {
        regions := allRegions;
      } else if clear {
        regions := [];
      }
    }

    /** The species multiselect's value is stored when it differs from the stored one. */
    method PickSpecies(chosen: seq<string>)
      modifies this
      ensures species == chosen && regions == old(regions)
    {
      if chosen != species {
        species := chosen;
      }
    }

    /** The region multiselect's value is stored when it differs from the stored one. */
    method PickRegions(chosen: seq<string>)
      modifies this
      ensures regions == chosen && species == old(species)
    {
      if chosen != regions {
        regions := chosen;
      }
    }
  }
}

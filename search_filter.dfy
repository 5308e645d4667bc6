/** The result filter of the search worker and the snapshots it filters by:
    which parsers (file types) and which locations are checked, and whether
    the indexes hold files, emails or both. */
module SearchFilter {
  import opened Common
  import opened ResultDocuments

  /** The size panel's bounds in kilobytes; either side may be open. */
  datatype SizeBounds = SizeBounds(min: Option<int>, max: Option<int>)

  /** The filter settings a pass applies. */
  datatype FilterState = FilterState(
    checkedParsers: set<string>,
    allParsersChecked: bool,
    checkedLocations: set<string>,
    allLocationsChecked: bool)

  // ---------------------------------------------------------------------
  // Which documents survive
  // ---------------------------------------------------------------------

  predicate WithinBounds(kb: int, b: SizeBounds)
  {
    (b.min.None? || b.min.value <= kb) && (b.max.None? || kb <= b.max.value)
  }

  /** The size of every document is read only when a size bound is set. */
  predicate SizesReadable(docs: seq<ResultDocument>, bounds: Option<SizeBounds>)
  {
    bounds.Some? ==> forall i :: 0 <= i < |docs| ==> docs[i].HasSize()
  }

  /** The size check; a bound is compared with the size in kilobytes,
      which must be readable for the check to be passed. */
  predicate PassesSize(d: ResultDocument, bounds: Option<SizeBounds>)
  {
    bounds.None? || (d.HasSize() && WithinBounds(d.SizeInKB(), bounds.value))
  }

  /** Emails are not filtered by type. */
  predicate PassesType(d: ResultDocument, f: FilterState)
  {
    d.isEmail ||
    (f.checkedParsers != {} &&
     (f.allParsersChecked || (d.ParserName().Some? && d.ParserName().value in f.checkedParsers)))
  }

  predicate PassesLocation(d: ResultDocument, f: FilterState)
  {
    f.checkedLocations != {} && (f.allLocationsChecked || d.ParentPath() in f.checkedLocations)
  }

  predicate Survives(d: ResultDocument, bounds: Option<SizeBounds>, f: FilterState)
  {
    PassesSize(d, bounds) && PassesType(d, f) && PassesLocation(d, f)
  }

  // ---------------------------------------------------------------------
  // Order-preserving selection
  // ---------------------------------------------------------------------

  /** The elements that `keep` accepts, in their original order. */
  function Select<T>(xs: seq<T>, keep: T -> bool): seq<T>
    decreases |xs|
  {
    if xs == [] then []
    else
      var n := |xs| - 1;
      Select(xs[..n], keep) + (if keep(xs[n]) then [xs[n]] else [])
  }

  /** The positions of the accepted elements, in increasing order. */
  function SelectedPositions<T>(xs: seq<T>, keep: T -> bool): seq<nat>
    decreases |xs|
  {
    if xs == [] then []
    else
      var n := |xs| - 1;
      SelectedPositions(xs[..n], keep) + (if keep(xs[n]) then [n] else [])
  }

  /** The selected elements are the elements at the selected positions. */
  lemma {:induction false} SelectAtPositions<T>(xs: seq<T>, keep: T -> bool)
    ensures var r, pos := Select(xs, keep), SelectedPositions(xs, keep);
            && |r| == |pos|
            && (forall k :: 0 <= k < |pos| ==> pos[k] < |xs| && r[k] == xs[pos[k]])
    decreases |xs|
  {
    if xs != [] {
      var n := |xs| - 1;
      var init := xs[..n];
      SelectAtPositions(init, keep);
      var r0, pos0 := Select(init, keep), SelectedPositions(init, keep);
      var r, pos := Select(xs, keep), SelectedPositions(xs, keep);
      forall k | 0 <= k < |pos| ensures pos[k] < |xs| && r[k] == xs[pos[k]] {
        if k < |pos0| {
          assert pos[k] == pos0[k] && r[k] == r0[k];
          assert init[pos0[k]] == xs[pos0[k]];
        }
      }
    }
  }

  /** The selected positions increase strictly, and a position is selected
      exactly when its element is accepted. */
  lemma {:induction false} SelectedPositionsOrdered<T>(xs: seq<T>, keep: T -> bool)
    ensures var pos := SelectedPositions(xs, keep);
            && (forall k :: 0 <= k < |pos| ==> pos[k] < |xs|)
            && (forall k, l :: 0 <= k < l < |pos| ==> pos[k] < pos[l])
            && (forall i :: 0 <= i < |xs| ==> (i in pos <==> keep(xs[i])))
    decreases |xs|
  {
    if xs != [] {
      var n := |xs| - 1;
      var init := xs[..n];
      SelectedPositionsOrdered(init, keep);
      var pos0 := SelectedPositions(init, keep);
      var pos := SelectedPositions(xs, keep);
      assert pos == pos0 + (if keep(xs[n]) then [n] else []);
      forall i | 0 <= i < n ensures init[i] == xs[i] { }
      assert n !in pos0;
    }
  }

  /** An element is selected exactly when it occurs and is accepted. */
  lemma {:induction false} SelectMembership<T>(xs: seq<T>, keep: T -> bool, x: T)
    ensures x in Select(xs, keep) <==> x in xs && keep(x)
    decreases |xs|
  {
    if xs != [] {
      var n := |xs| - 1;
      var init := xs[..n];
      SelectMembership(init, keep, x);
      assert xs == init + [xs[n]];
    }
  }

  // ---------------------------------------------------------------------
  // The result filter
  // ---------------------------------------------------------------------

  /** The visible results: the survivors, in their original order. */
  function Filter(docs: seq<ResultDocument>, bounds: Option<SizeBounds>, f: FilterState): seq<ResultDocument>
  {
    Select(docs, d => Survives(d, bounds, f))
  }

  /** The filter is stable: the visible results are the survivors at
      strictly increasing positions of the results, and a position is among
      them exactly when its document survives. */
  lemma FilterIsStable(docs: seq<ResultDocument>, bounds: Option<SizeBounds>, f: FilterState)
    requires SizesReadable(docs, bounds)
    ensures var keep := d => Survives(d, bounds, f);
            var r, pos := Filter(docs, bounds, f), SelectedPositions(docs, keep);
            && |r| == |pos|
            && (forall k :: 0 <= k < |pos| ==> pos[k] < |docs| && r[k] == docs[pos[k]])
            && (forall k, l :: 0 <= k < l < |pos| ==> pos[k] < pos[l])
            && (forall i :: 0 <= i < |docs| ==> (i in pos <==> Survives(docs[i], bounds, f)))
  {
    var keep := d => Survives(d, bounds, f);
    SelectAtPositions(docs, keep);
    SelectedPositionsOrdered(docs, keep);
  }

  /** A document is visible exactly when it is one of the results and it
      survives the size, type and location checks. */
  lemma FilterMembership(docs: seq<ResultDocument>, bounds: Option<SizeBounds>, f: FilterState, d: ResultDocument)
    requires SizesReadable(docs, bounds)
    ensures d in Filter(docs, bounds, f) <==> d in docs && Survives(d, bounds, f)
  {
    SelectMembership(docs, x => Survives(x, bounds, f), d);
  }

  /** Emails are never removed by the type filter, even with no type checked. */
  lemma EmailsBypassTypeFilter(d: ResultDocument, bounds: Option<SizeBounds>, f: FilterState)
    requires d.isEmail
    ensures Survives(d, bounds, f) <==> PassesSize(d, bounds) && PassesLocation(d, f)
  {
  }

  /** With every parser checked, a file passes the type filter whatever its
      parser name, even one that is not in the checked set. */
  lemma AllParsersCheckedShortcut(d: ResultDocument, f: FilterState)
    requires f.allParsersChecked && f.checkedParsers != {}
    ensures PassesType(d, f)
  {
  }

  /** The checks on one document: the memoising getters are called in the
      order of the checks, and only until the first check that fails. */
  method Keeps(d: ResultDocument, bounds: Option<SizeBounds>, f: FilterState) returns (keep: bool)
    requires d.Valid()
    requires bounds.Some? ==> d.HasSize()
    modifies d
    ensures d.Valid()
    ensures keep == Survives(d, bounds, f)
  {
    if bounds.Some? {
      var read := d.GetSizeInKB();
      var size := read.value;
      if bounds.value.min.Some? && size < bounds.value.min.value {
        return false;
      }
      if bounds.value.max.Some? && size > bounds.value.max.value {
        return false;
      }
    }
    if !d.isEmail {
      if f.checkedParsers == {} {
        return false;
      }
      if !f.allParsersChecked {
        var name := d.GetParserName();
        if name.None? || name.value !in f.checkedParsers {
          return false;
        }
      }
    }
    if f.checkedLocations == {} {
      return false;
    }
    if !f.allLocationsChecked {
      var parent := d.GetParentPath();
      if parent !in f.checkedLocations {
        return false;
      }
    }
    return true;
  }

  /** The filter loop over the results, keeping the survivors in order. */
  method ApplyFilters(docs: seq<ResultDocument>, bounds: Option<SizeBounds>, f: FilterState)
    returns (visible: seq<ResultDocument>)
    requires forall i :: 0 <= i < |docs| ==> docs[i].Valid()
    requires SizesReadable(docs, bounds)
    modifies set i | 0 <= i < |docs| :: docs[i]
    ensures forall i :: 0 <= i < |docs| ==> docs[i].Valid()
    ensures visible == Filter(docs, bounds, f)
  {
    visible := [];
    for i := 0 to |docs|
      invariant forall j :: 0 <= j < |docs| ==> docs[j].Valid()
      invariant visible == Filter(docs[..i], bounds, f)
    {
      var d := docs[i];
      assert docs[..i + 1][..i] == docs[..i];
      assert docs[..i + 1][i] == d;
      var keep := Keeps(d, bounds, f);
      if keep {
        visible := visible + [d];
      }
    }
    assert docs[..|docs|] == docs;
  }

  // ---------------------------------------------------------------------
  // The type-filter snapshot
  // ---------------------------------------------------------------------

  /** The names of the parsers whose check box is on, from the type panel's
      list of (parser name, checked) entries. */
  function CheckedParserNames(states: seq<(string, bool)>): set<string>
  {
    set i | 0 <= i < |states| && states[i].1 :: states[i].0
  }

  predicate DistinctNames(states: seq<(string, bool)>)
  {
    forall i, j :: 0 <= i < j < |states| ==> states[i].0 != states[j].0
  }

  /** Rebuilds the checked parser set entry by entry; all parsers count as
      checked when the set is as large as the list. */
  method BuildParserFilter(states: seq<(string, bool)>) returns (checked: set<string>, allChecked: bool)
    ensures checked == CheckedParserNames(states)
    ensures forall name :: name in checked <==> (name, true) in states
    ensures allChecked <==> |checked| == |states|
  {
    checked := {};
    for i := 0 to |states|
      invariant checked == CheckedParserNames(states[..i])
    {
      assert states[..i + 1][..i] == states[..i];
      if !states[i].1 {
        continue;
      }
      checked := checked + {states[i].0};
    }
    assert states[..|states|] == states;
    allChecked := |checked| == |states|;
  }

  lemma {:induction false} CheckedParserNamesStep(states: seq<(string, bool)>)
    requires |states| > 0
    ensures var n := |states| - 1;
            CheckedParserNames(states) ==
              CheckedParserNames(states[..n]) + (if states[n].1 then {states[n].0} else {})
  {
    var n := |states| - 1;
    var init := states[..n];
    forall name | name in CheckedParserNames(states)
      ensures name in CheckedParserNames(init) + (if states[n].1 then {states[n].0} else {})
    {
      var i :| 0 <= i < |states| && states[i].1 && states[i].0 == name;
      if i < n {
        assert init[i] == states[i];
      }
    }
    forall name | name in CheckedParserNames(init)
      ensures name in CheckedParserNames(states)
    {
      var i :| 0 <= i < |init| && init[i].1 && init[i].0 == name;
      assert states[i] == init[i];
    }
  }

  /** There are never more checked names than entries, and as many only
      when every entry is checked. */
  lemma {:induction false} CheckedParserNamesBound(states: seq<(string, bool)>)
    ensures |CheckedParserNames(states)| <= |states|
    ensures |CheckedParserNames(states)| == |states| ==> forall i :: 0 <= i < |states| ==> states[i].1
    decreases |states|
  {
    if states == [] {
      assert CheckedParserNames(states) == {};
    } else {
      var n := |states| - 1;
      CheckedParserNamesStep(states);
      CheckedParserNamesBound(states[..n]);
      if |CheckedParserNames(states)| == |states| {
        assert states[n].1;
        forall i | 0 <= i < |states| ensures states[i].1 {
          if i < n {
            assert states[..n][i] == states[i];
          }
        }
      }
    }
  }

  /** With distinct names and every entry checked, the checked set is as
      large as the list. */
  lemma {:induction false} EveryEntryCheckedFillsSet(states: seq<(string, bool)>)
    requires DistinctNames(states)
    requires forall i :: 0 <= i < |states| ==> states[i].1
    ensures |CheckedParserNames(states)| == |states|
    decreases |states|
  {
    if states == [] {
      assert CheckedParserNames(states) == {};
    } else {
      var n := |states| - 1;
      var init := states[..n];
      forall i | 0 <= i < n ensures init[i] == states[i] { }
      EveryEntryCheckedFillsSet(init);
      CheckedParserNamesStep(states);
      assert forall i :: 0 <= i < |init| ==> init[i].0 != states[n].0;
      assert states[n].0 !in CheckedParserNames(init);
    }
  }

  /** When no two entries share a name, `allParsersChecked` holds exactly
      when every entry of the type panel is checked. */
  lemma AllParsersCheckedIffEveryEntry(states: seq<(string, bool)>)
    requires DistinctNames(states)
    ensures |CheckedParserNames(states)| == |states| <==> forall i :: 0 <= i < |states| ==> states[i].1
  {
    CheckedParserNamesBound(states);
    if forall i :: 0 <= i < |states| ==> states[i].1 {
      EveryEntryCheckedFillsSet(states);
    }
  }

  /** A counterexample: two checked entries under one name leave
      `allParsersChecked` false although everything is checked. */
  lemma SharedNameDefeatsAllChecked()
    ensures var states := [("TextParser", true), ("TextParser", true)];
            (forall i :: 0 <= i < |states| ==> states[i].1) &&
            |CheckedParserNames(states)| != |states|
  {
    var states := [("TextParser", true), ("TextParser", true)];
    assert CheckedParserNames(states) == {"TextParser"} by {
      forall name | name in CheckedParserNames(states) ensures name == "TextParser" {
        var i :| 0 <= i < |states| && states[i].1 && states[i].0 == name;
      }
      assert states[0].0 in CheckedParserNames(states);
    }
  }

  // ---------------------------------------------------------------------
  // The location snapshot
  // ---------------------------------------------------------------------

  /** The checked locations as a set, and whether all folders are checked,
      judged by comparing the length of the checked list with the folder count. */
  function LocationSnapshot(checkedPaths: seq<string>, folderCount: int): (r: (set<string>, bool))
    ensures forall p :: p in r.0 <==> p in checkedPaths
    ensures r.1 <==> |checkedPaths| == folderCount
    ensures |r.0| <= |checkedPaths|
  {
    SetOfPathsBound(checkedPaths);
    (set p | p in checkedPaths, |checkedPaths| == folderCount)
  }

  lemma {:induction false} SetOfPathsBound(paths: seq<string>)
    ensures |set p | p in paths| <= |paths|
    decreases |paths|
  {
    if paths != [] {
      var n := |paths| - 1;
      SetOfPathsBound(paths[..n]);
      assert (set p | p in paths) == (set p | p in paths[..n]) + {paths[n]} by {
        forall p | p in paths ensures p in paths[..n] || p == paths[n] {
          var i :| 0 <= i < |paths| && paths[i] == p;
          if i < n { assert paths[..n][i] == p; }
        }
      }
    }
  }

  // ---------------------------------------------------------------------
  // The header flags
  // ---------------------------------------------------------------------

  predicate SomeFileIndex(indexIsEmail: seq<bool>)
  {
    exists i :: 0 <= i < |indexIsEmail| && !indexIsEmail[i]
  }

  predicate SomeEmailIndex(indexIsEmail: seq<bool>)
  {
    exists i :: 0 <= i < |indexIsEmail| && indexIsEmail[i]
  }

  /** Scans the indexes: files are found when some index is not an email
      index, emails when some index is. */
  method HeaderFlags(indexIsEmail: seq<bool>) returns (filesFound: bool, emailsFound: bool)
    ensures filesFound <==> SomeFileIndex(indexIsEmail)
    ensures emailsFound <==> SomeEmailIndex(indexIsEmail)
  {
    filesFound, emailsFound := false, false;
    for i := 0 to |indexIsEmail|
      invariant filesFound <==> exists j :: 0 <= j < i && !indexIsEmail[j]
      invariant emailsFound <==> exists j :: 0 <= j < i && indexIsEmail[j]
    {
      if indexIsEmail[i] {
        emailsFound := true;
      } else {
        filesFound := true;
      }
    }
  }
}

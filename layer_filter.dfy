/** The layer-filter controller set up by `addLayerToMap`: two comboboxes filled with the
    distinct values of one attribute, a "Show All" sentinel item in each, and a filter on
    the layer view recomputed from the first selected item of each combobox. */
module LayerFilter {
  import opened Wrappers
  import opened Expressions

  /** Value of the sentinel item that stands for "no restriction". */
  const ShowAllValue: string := "Show_All"
  /** Label of the sentinel item. */
  const ShowAllLabel: string := "Show All"

  /** A `calcite-combobox-item`: its `value` and its `textLabel`. */
  datatype ComboItem = ComboItem(value: string, textLabel: string)

  const ShowAllItem: ComboItem := ComboItem(ShowAllValue, ShowAllLabel)

  // ---------------------------------------------------------------------------
  // The filter expression (applyFilters)
  // ---------------------------------------------------------------------------

  /** The value of the first selected item, or null when nothing is selected. */
  function FirstValue(selected: seq<ComboItem>): Option<string>
  {
    if |selected| == 0 then None else Some(selected[0].value)
  }

  /** A selection contributes a clause when it is present, truthy (not "") and not the sentinel. */
  predicate Usable(v: Option<string>)
  {
    v.Some? && v.value != "" && v.value != ShowAllValue
  }

  /** The clauses the two selections contribute, the first combobox's first. */
  function Clauses(fieldName: string, v1: Option<string>, v2: Option<string>): seq<string>
  {
    (if Usable(v1) then [EqualsClause(fieldName, v1.value)] else [])
    + (if Usable(v2) then [EqualsClause(fieldName, v2.value)] else [])
  }

  /** Clauses joined by " OR "; no clause at all is the empty string. */
  function JoinOr(clauses: seq<string>): string
  {
    if |clauses| == 0 then ""
    else if |clauses| == 1 then clauses[0]
    else clauses[0] + " OR " + JoinOr(clauses[1..])
  }

  /** The `where` of the filter for the two first-selected values. */
  function FilterWhere(fieldName: string, v1: Option<string>, v2: Option<string>): string
  {
    JoinOr(Clauses(fieldName, v1, v2))
  }

  /** Exactly one usable selection yields exactly its own clause, whichever combobox holds it. */
  lemma FilterWhereSingle(fieldName: string, v1: Option<string>, v2: Option<string>)
    ensures Usable(v1) && !Usable(v2) ==> FilterWhere(fieldName, v1, v2) == EqualsClause(fieldName, v1.value)
    ensures !Usable(v1) && Usable(v2) ==> FilterWhere(fieldName, v1, v2) == EqualsClause(fieldName, v2.value)
  {
  }

  /** Two usable selections yield both clauses joined by " OR ", the first combobox's first,
      with no deduplication even when the two values are equal. */
  lemma FilterWhereBoth(fieldName: string, a: string, b: string)
    requires Usable(Some(a)) && Usable(Some(b))
    ensures FilterWhere(fieldName, Some(a), Some(b))
         == EqualsClause(fieldName, a) + " OR " + EqualsClause(fieldName, b)
  {
    var c1, c2 := EqualsClause(fieldName, a), EqualsClause(fieldName, b);
    assert Clauses(fieldName, Some(a), Some(b)) == [c1, c2];
    assert [c1, c2][1..] == [c2];
    assert JoinOr([c1, c2]) == c1 + " OR " + JoinOr([c2]);
  }

  /** The filter is the empty, match-all `where` exactly when neither selection is usable. */
  lemma FilterWhereEmptyIff(fieldName: string, v1: Option<string>, v2: Option<string>)
    ensures FilterWhere(fieldName, v1, v2) == "" <==> !Usable(v1) && !Usable(v2)
  {
  }

  /** The value is interpolated unescaped: one selected value holding a quote and " OR "
      produces the same `where` as two separate selections. */
  lemma UnescapedValueMergesClauses(fieldName: string, a: string, b: string)
    requires Usable(Some(a)) && Usable(Some(b))
    ensures FilterWhere(fieldName, Some(a + "' OR " + fieldName + " = '" + b), None)
         == FilterWhere(fieldName, Some(a), Some(b))
  {
    var merged := a + "' OR " + fieldName + " = '" + b;
    assert merged[|a|] == '\'';
    assert '\'' !in ShowAllValue;
    FilterWhereSingle(fieldName, Some(merged), None);
    FilterWhereBoth(fieldName, a, b);
  }

  /** The instance with the zoning values R1 and C2. */
  lemma ZoningValueMergesClauses()
    ensures FilterWhere("Zoning", Some("R1' OR Zoning = 'C2"), None)
         == FilterWhere("Zoning", Some("R1"), Some("C2"))
  {
    UnescapedValueMergesClauses("Zoning", "R1", "C2");
  }

  // ---------------------------------------------------------------------------
  // The distinct values of the query results
  // ---------------------------------------------------------------------------

  /** An attribute value is kept when it is neither null/undefined nor "". */
  predicate Kept(v: Option<string>)
  {
    v.Some? && v.value != ""
  }

  /** The kept attribute values without repetitions, in first-seen order
      (the `Set`-guarded pass over `results.features`). */
  function Distinct(values: seq<Option<string>>): seq<string>
  {
    if values == [] then []
    else
      var d := Distinct(values[..|values| - 1]);
      var v := values[|values| - 1];
      if Kept(v) && v.value !in d then d + [v.value] else d
  }

  /** Index of the first feature whose attribute is `x`. */
  function FirstIndex(values: seq<Option<string>>, x: string): (k: nat)
    requires Some(x) in values
    ensures k < |values| && values[k] == Some(x)
    ensures forall j :: 0 <= j < k ==> values[j] != Some(x)
  {
    if values[0] == Some(x) then 0 else 1 + FirstIndex(values[1..], x)
  }

  /** Distinct values never repeat. */
  lemma {:induction false} DistinctNoDuplicates(values: seq<Option<string>>)
    ensures forall i, j :: 0 <= i < j < |Distinct(values)| ==> Distinct(values)[i] != Distinct(values)[j]
  {
    if values != [] {
      DistinctNoDuplicates(values[..|values| - 1]);
    }
  }

  /** A string is among the distinct values exactly when it is not "" and some feature has it:
      null, undefined and "" are excluded, every other occurring value is kept. */
  lemma {:induction false} DistinctMembership(values: seq<Option<string>>, x: string)
    ensures x in Distinct(values) <==> x != "" && Some(x) in values
  {
    if values != [] {
      var p := values[..|values| - 1];
      DistinctMembership(p, x);
      assert values == p + [values[|values| - 1]];
    }
  }

  /** Distinct values appear in the order of their first occurrence among the features. */
  lemma {:induction false} DistinctFirstSeenOrder(values: seq<Option<string>>)
    ensures forall i :: 0 <= i < |Distinct(values)| ==> Some(Distinct(values)[i]) in values
    ensures forall i, j :: 0 <= i < j < |Distinct(values)| ==>
              FirstIndex(values, Distinct(values)[i]) < FirstIndex(values, Distinct(values)[j])
  {
    if values != [] {
      var p := values[..|values| - 1];
      var v := values[|values| - 1];
      var d := Distinct(values);
      var dp := Distinct(p);
      DistinctFirstSeenOrder(p);
      assert values == p + [v];
      forall y | y in dp
        ensures Some(y) in p && FirstIndex(values, y) == FirstIndex(p, y)
      {
        var i :| 0 <= i < |dp| && dp[i] == y;
        assert Some(y) in p;
        FirstIndexOfPrefix(p, v, y);
      }
      if Kept(v) && v.value !in dp {
        DistinctMembership(p, v.value);
        assert FirstIndex(values, v.value) == |p|;
        forall i, j | 0 <= i < j < |d|
          ensures FirstIndex(values, d[i]) < FirstIndex(values, d[j])
        {
          assert d[i] == dp[i];
          if j < |dp| {
            assert d[j] == dp[j];
          }
        }
      }
    }
  }

  /** Appending a feature does not move the first occurrence of a value already present. */
  lemma FirstIndexOfPrefix(p: seq<Option<string>>, v: Option<string>, y: string)
    requires Some(y) in p
    ensures Some(y) in p + [v] && FirstIndex(p + [v], y) == FirstIndex(p, y)
  {
    var k := FirstIndex(p + [v], y);
    var k' := FirstIndex(p, y);
    assert (p + [v])[k'] == Some(y);
  }

  /** The items a list of distinct values becomes: value and label are both the value. */
  function ItemsOf(values: seq<string>): seq<ComboItem>
  {
    seq(|values|, i requires 0 <= i < |values| => ComboItem(values[i], values[i]))
  }

  /** The sentinel never comes from a feature value: a value item has equal value and label,
      the sentinel does not, so each combobox receives exactly one sentinel item. */
  lemma SentinelNotAValueItem(values: seq<string>)
    ensures ShowAllItem !in ItemsOf(values)
    ensures multiset([ShowAllItem] + ItemsOf(values))[ShowAllItem] == 1
  {
  }

  /** A combobox that held no sentinel before it was populated holds exactly one afterwards. */
  lemma PopulatedSentinelOnce(before: seq<ComboItem>, values: seq<Option<string>>)
    requires ShowAllItem !in before
    ensures multiset(before + [ShowAllItem] + ItemsOf(Distinct(values)))[ShowAllItem] == 1
  {
  }

  /** A feature whose value is the text "Show_All" gets a value item of its own ... */
  lemma ShowAllValueBecomesItem(values: seq<Option<string>>)
    requires Some(ShowAllValue) in values
    ensures ComboItem(ShowAllValue, ShowAllValue) in ItemsOf(Distinct(values))
  {
    DistinctMembership(values, ShowAllValue);
    var i :| 0 <= i < |Distinct(values)| && Distinct(values)[i] == ShowAllValue;
    assert ItemsOf(Distinct(values))[i] == ComboItem(ShowAllValue, ShowAllValue);
  }

  /** ... but selecting that item in either combobox restricts nothing: it is read as the
      sentinel. */
  lemma ShowAllValueIgnored(fieldName: string, v: Option<string>)
    ensures FilterWhere(fieldName, Some(ShowAllValue), v) == FilterWhere(fieldName, None, v)
    ensures FilterWhere(fieldName, v, Some(ShowAllValue)) == FilterWhere(fieldName, v, None)
  {
  }

  /** Two distinct values are the items a combobox receives, with value = label. */
  lemma ZoningScenario()
    ensures Distinct([Some("R1"), Some("R1"), Some("C2"), Some("")]) == ["R1", "C2"]
    ensures [ShowAllItem] + ItemsOf(Distinct([Some("R1"), Some("R1"), Some("C2"), Some("")]))
         == [ComboItem("Show_All", "Show All"), ComboItem("R1", "R1"), ComboItem("C2", "C2")]
  {
    var s1 := [Some("R1")];
    var s2 := s1 + [Some("R1")];
    var s3 := s2 + [Some("C2")];
    var s4 := s3 + [Some("")];
    assert s1[..0] == [];
    assert Distinct(s1) == ["R1"];
    assert s2[..1] == s1;
    assert Distinct(s2) == ["R1"];
    assert s3[..2] == s2;
    assert Distinct(s3) == ["R1", "C2"];
    assert s4[..3] == s3;
    assert Distinct(s4) == ["R1", "C2"];
    assert s4 == [Some("R1"), Some("R1"), Some("C2"), Some("")];
    assert ItemsOf(["R1", "C2"]) == [ComboItem("R1", "R1"), ComboItem("C2", "C2")];
  }

  // ---------------------------------------------------------------------------
  // The page objects
  // ---------------------------------------------------------------------------

  /** A `calcite-combobox`: its child items and its selection. */
  class Combobox {
    var items: seq<ComboItem>
    var selectedItems: seq<ComboItem>

    constructor (items: seq<ComboItem>)
      ensures this.items == items && selectedItems == []
    {
      this.items := items;
      selectedItems := [];
    }

    /** `appendChild` of one item. */
    method AppendChild(item: ComboItem)
      modifies this
      ensures items == old(items) + [item]
      ensures selectedItems == old(selectedItems)
    {
      items := items + [item];
    }
  }

  /** The state `addLayerToMap` builds for one layer descriptor: the attribute it filters on,
      its two comboboxes, and the `where` of the layer view's filter (`None` until a filter
      has first been applied). */
  class Controller {
    const fieldName: string
    const combobox1: Combobox
    const combobox2: Combobox
    var filter: Option<string>

    ghost predicate Valid()
    {
      combobox1 != combobox2
    }

    constructor (fieldName: string, combobox1: Combobox, combobox2: Combobox)
      requires combobox1 != combobox2
      ensures Valid()
      ensures this.fieldName == fieldName && this.combobox1 == combobox1 && this.combobox2 == combobox2
      ensures filter == None
    {
      this.fieldName := fieldName;
      this.combobox1 := combobox1;
      this.combobox2 := combobox2;
      filter := None;
    }

    /** `applyFilters`: the filter becomes the clauses of the two first-selected values;
        nothing else changes, so applying it again with the same selections sets the same filter. */
    method ApplyFilters()
      modifies this
      ensures filter == Some(FilterWhere(fieldName, FirstValue(combobox1.selectedItems), FirstValue(combobox2.selectedItems)))
    {
      var selectedValue1 := FirstValue(combobox1.selectedItems);
      var selectedValue2 := FirstValue(combobox2.selectedItems);
      var filterExpression := "";
      if Usable(selectedValue1) {
        filterExpression := EqualsClause(fieldName, selectedValue1.value);
      }
      if Usable(selectedValue2) {
        if filterExpression != "" {
          filterExpression := filterExpression + " OR " + EqualsClause(fieldName, selectedValue2.value);
        } else {
          filterExpression := EqualsClause(fieldName, selectedValue2.value);
        }
      }
      filter := Some(filterExpression);
      FilterWhereSingle(fieldName, selectedValue1, selectedValue2);
      FilterWhereEmptyIff(fieldName, selectedValue1, selectedValue2);
      if Usable(selectedValue1) && Usable(selectedValue2) {
        FilterWhereBoth(fieldName, selectedValue1.value, selectedValue2.value);
      }
    }

    /** The reset handler: both selections are cleared and the filter becomes match-all. */
    method Reset()
      requires Valid()
      modifies this, combobox1, combobox2
      ensures Valid()
      ensures combobox1.selectedItems == [] && combobox2.selectedItems == []
      ensures combobox1.items == old(combobox1.items) && combobox2.items == old(combobox2.items)
      ensures filter == Some("")
    {
      combobox1.selectedItems := [];
      combobox2.selectedItems := [];
      ApplyFilters();
      FilterWhereEmptyIff(fieldName, None, None);
    }

    /** The synchronous part of the layer-view callback: one sentinel item is appended to
        each combobox (the distinct-value query is only started here). */
    method AppendShowAll()
      requires Valid()
      modifies combobox1, combobox2
      ensures combobox1.items == old(combobox1.items) + [ShowAllItem]
      ensures combobox2.items == old(combobox2.items) + [ShowAllItem]
      ensures combobox1.selectedItems == old(combobox1.selectedItems)
      ensures combobox2.selectedItems == old(combobox2.selectedItems)
    {
      combobox1.AppendChild(ShowAllItem);
      combobox2.AppendChild(ShowAllItem);
    }

    /** The distinct-value query's callback: one pass over the features' attribute values,
        guarded by a set of the values seen so far, appending each new kept value to both
        comboboxes. */
    method OnQueryResults(values: seq<Option<string>>)
      requires Valid()
      modifies combobox1, combobox2
      ensures combobox1.items == old(combobox1.items) + ItemsOf(Distinct(values))
      ensures combobox2.items == old(combobox2.items) + ItemsOf(Distinct(values))
      ensures combobox1.selectedItems == old(combobox1.selectedItems)
      ensures combobox2.selectedItems == old(combobox2.selectedItems)
    {
      var seen: set<string> := {};
      ghost var kept: seq<string> := [];
      var i := 0;
      while i < |values|
        invariant 0 <= i <= |values|
        invariant kept == Distinct(values[..i])
        invariant seen == set x | x in kept
        invariant combobox1.items == old(combobox1.items) + ItemsOf(kept)
        invariant combobox2.items == old(combobox2.items) + ItemsOf(kept)
        invariant combobox1.selectedItems == old(combobox1.selectedItems)
        invariant combobox2.selectedItems == old(combobox2.selectedItems)
      {
        var v := values[i];
        assert values[..i + 1][..i] == values[..i];
        if v.Some? && v.value !in seen && v.value != "" {
          seen := seen + {v.value};
          assert ItemsOf(kept + [v.value]) == ItemsOf(kept) + [ComboItem(v.value, v.value)];
          kept := kept + [v.value];
          combobox1.AppendChild(ComboItem(v.value, v.value));
          combobox2.AppendChild(ComboItem(v.value, v.value));
        }
        i := i + 1;
      }
      assert values[..i] == values;
    }

    /** The layer-view callback followed, later, by the query's callback: each combobox ends
        with the sentinel first and then the distinct values, and both receive the same items. */
    method Populate(values: seq<Option<string>>)
      requires Valid()
      modifies combobox1, combobox2
      ensures combobox1.items == old(combobox1.items) + [ShowAllItem] + ItemsOf(Distinct(values))
      ensures combobox2.items == old(combobox2.items) + [ShowAllItem] + ItemsOf(Distinct(values))
      ensures combobox1.selectedItems == old(combobox1.selectedItems)
      ensures combobox2.selectedItems == old(combobox2.selectedItems)
    {
      AppendShowAll();
      OnQueryResults(values);
    }
  }
}

/**
 * CarListingViewSpecification.java: search criteria compiled into a
 * conjunction of clauses over rows of the denormalized car_listings view.
 *
 * A clause is a value; the query is the list of clauses, all of which a row
 * must satisfy. SQL's `LIKE '%p%'` is substring containment, `lower` is the
 * ASCII `Text.Lower`, and a null column never satisfies a clause.
 */
module CarListingViewSpecification {
  import opened Nullable
  import opened Text
  import Streams
  import opened Entities
  import opened CarFilterCriteria

  datatype NameColumn = MakeName | ModelName | TrimName

  function Column(column: NameColumn, row: ListingRow): Option<string> {
    match column
    case MakeName => row.makeName
    case ModelName => row.modelName
    case TrimName => row.trimName
  }

  datatype ViewClause =
    | IsNotSold
      /** `lower(makeName) LIKE p OR lower(modelName) LIKE p OR lower(trimName) LIKE p` with `p = %needle%`. */
    | TextLike(needle: string)
    | PriceAtLeast(min: real)
    | PriceAtMost(max: real)
      /** `lower(makeName) = name`, or the same on modelName or trimName. */
    | NameIs(column: NameColumn, name: string)
    | BodyTypeNameIn(bodyTypes: seq<string>)
    | TransmissionTypeIs(transmission: string)

  /** `lower(column) LIKE '%needle%'`; false on a null column. */
  predicate LikeLower(column: Option<string>, needle: string) {
    column.Some? && Contains(Lower(column.value), needle)
  }

  /** `lower(column) = value`; false on a null column. */
  predicate EqualsLower(column: Option<string>, value: string) {
    column.Some? && Lower(column.value) == value
  }

  predicate Holds(clause: ViewClause, row: ListingRow) {
    match clause
    case IsNotSold => row.isSold == Some(false)
    case TextLike(needle) =>
      LikeLower(row.makeName, needle) || LikeLower(row.modelName, needle) || LikeLower(row.trimName, needle)
    case PriceAtLeast(min) => row.price.Some? && row.price.value >= min
    case PriceAtMost(max) => row.price.Some? && row.price.value <= max
    case NameIs(column, name) => EqualsLower(Column(column, row), name)
    case BodyTypeNameIn(bodyTypes) => row.bodyTypeName.Some? && Lower(row.bodyTypeName.value) in bodyTypes
    case TransmissionTypeIs(transmission) => EqualsLower(row.transmissionType, transmission)
  }

  /** `criteriaBuilder.and(predicates)`: every clause holds (the empty conjunction is true). */
  predicate HoldsAll(clauses: seq<ViewClause>, row: ListingRow) {
    forall k :: 0 <= k < |clauses| ==> Holds(clauses[k], row)
  }

  /** `alwaysTrue()`: the empty conjunction, which every row satisfies, sold or not. */
  function AlwaysTrue(): (clauses: seq<ViewClause>)
    ensures forall row :: HoldsAll(clauses, row)
  {
    []
  }

  /** A string criterion counts when it is non-null and not blank after trimming. */
  predicate Given(s: Option<string>) {
    s.Some? && !IsBlank(s.value)
  }

  /** The transmission criterion counts when given and not "All" in any case. */
  predicate TransmissionGiven(s: Option<string>) {
    Given(s) && Lower(s.value) != "all"
  }

  predicate BodyTypesGiven(s: Option<seq<string>>) {
    s.Some? && s.value != []
  }

  /*
   * The meaning of the criteria, one condition per criterion: each applies
   * only when its criterion is present, and a row matches when all do.
   */

  /** Free text: some one of the make, model and trim names contains it, ignoring case. */
  predicate TextMatches(value: Option<string>, row: ListingRow) {
    Given(value) ==>
      var needle := Lower(value.value);
      LikeLower(row.makeName, needle) || LikeLower(row.modelName, needle) || LikeLower(row.trimName, needle)
  }

  /** Inclusive, independent price bounds. */
  predicate PriceMatches(minPrice: Option<real>, maxPrice: Option<real>, price: Option<real>) {
    (minPrice.Some? ==> price.Some? && minPrice.value <= price.value) &&
    (maxPrice.Some? ==> price.Some? && price.value <= maxPrice.value)
  }

  /** Case-insensitive equality of a name column with a given criterion. */
  predicate SameName(selected: string, column: Option<string>) {
    column.Some? && Lower(column.value) == Lower(selected)
  }

  predicate NameMatches(selected: Option<string>, column: Option<string>) {
    Given(selected) ==> SameName(selected.value, column)
  }

  predicate BodyTypeMatches(selected: Option<seq<string>>, column: Option<string>) {
    BodyTypesGiven(selected) ==>
      column.Some? && exists k :: 0 <= k < |selected.value| && Lower(selected.value[k]) == Lower(column.value)
  }

  predicate TransmissionMatches(selected: Option<string>, column: Option<string>) {
    TransmissionGiven(selected) ==> SameName(selected.value, column)
  }

  /** A row the search returns: unsold, and every present criterion agrees with it. */
  predicate Matches(c: Criteria, row: ListingRow) {
    row.isSold == Some(false) &&
    TextMatches(c.value, row) &&
    PriceMatches(c.minPrice, c.maxPrice, row.price) &&
    NameMatches(c.selectedMake, row.makeName) &&
    NameMatches(c.selectedModel, row.modelName) &&
    NameMatches(c.selectedTrim, row.trimName) &&
    BodyTypeMatches(c.selectedBodyTypes, row.bodyTypeName) &&
    TransmissionMatches(c.selectedTransmission, row.transmissionType)
  }

  lemma HoldsAllAppend(clauses: seq<ViewClause>, clause: ViewClause, row: ListingRow)
    ensures HoldsAll(clauses + [clause], row) <==> HoldsAll(clauses, row) && Holds(clause, row)
  {
    if HoldsAll(clauses, row) && Holds(clause, row) {
      forall k | 0 <= k < |clauses + [clause]|
        ensures Holds((clauses + [clause])[k], row)
      {
        if k < |clauses| {
          assert (clauses + [clause])[k] == clauses[k];
        }
      }
    }
    if HoldsAll(clauses + [clause], row) {
      assert Holds((clauses + [clause])[|clauses|], row);
      forall k | 0 <= k < |clauses|
        ensures Holds(clauses[k], row)
      {
        assert (clauses + [clause])[k] == clauses[k];
      }
    }
  }

  /** Appending a clause narrows the matched rows by exactly that clause. */
  lemma AppendNarrows(clauses: seq<ViewClause>, clause: ViewClause)
    ensures forall row :: HoldsAll(clauses + [clause], row) <==> HoldsAll(clauses, row) && Holds(clause, row)
  {
    forall row
      ensures HoldsAll(clauses + [clause], row) <==> HoldsAll(clauses, row) && Holds(clause, row)
    {
      HoldsAllAppend(clauses, clause, row);
    }
  }

  /** The text step: one OR-of-LIKE clause when the search text is given. */
  method AddTextClause(value: Option<string>, clauses: seq<ViewClause>) returns (next: seq<ViewClause>)
    ensures forall row :: HoldsAll(next, row) <==> HoldsAll(clauses, row) && TextMatches(value, row)
    ensures Given(value) ==> next == clauses + [TextLike(Lower(value.value))]
    ensures !Given(value) ==> next == clauses
  {
    next := clauses;
    if Given(value) {
      var clause := TextLike(Lower(value.value));
      next := clauses + [clause];
      forall row
        ensures HoldsAll(next, row) <==> HoldsAll(clauses, row) && TextMatches(value, row)
      {
        HoldsAllAppend(clauses, clause, row);
      }
    }
  }

  /** The price steps: an inclusive lower bound and an inclusive upper bound, each when given. */
  method AddPriceClauses(minPrice: Option<real>, maxPrice: Option<real>, clauses: seq<ViewClause>) returns (next: seq<ViewClause>)
    ensures forall row :: HoldsAll(next, row) <==> HoldsAll(clauses, row) && PriceMatches(minPrice, maxPrice, row.price)
    ensures |next| >= |clauses| && forall k :: 0 <= k < |clauses| ==> next[k] == clauses[k]
    ensures forall k :: |clauses| <= k < |next| ==> next[k].PriceAtLeast? || next[k].PriceAtMost?
  {
    next := clauses;
    if minPrice.Some? {
      AppendNarrows(next, PriceAtLeast(minPrice.value));
      next := next + [PriceAtLeast(minPrice.value)];
    }
    if maxPrice.Some? {
      AppendNarrows(next, PriceAtMost(maxPrice.value));
      next := next + [PriceAtMost(maxPrice.value)];
    }
  }

  /** One of the make, model and trim steps: a case-insensitive name equality when the selection is not blank. */
  method AddNameClause(column: NameColumn, selected: Option<string>, clauses: seq<ViewClause>) returns (next: seq<ViewClause>)
    ensures forall row :: HoldsAll(next, row) <==> HoldsAll(clauses, row) && NameMatches(selected, Column(column, row))
    ensures |next| >= |clauses| && forall k :: 0 <= k < |clauses| ==> next[k] == clauses[k]
    ensures forall k :: |clauses| <= k < |next| ==> next[k].NameIs?
  {
    next := clauses;
    if Given(selected) {
      var clause := NameIs(column, Lower(selected.value));
      next := clauses + [clause];
      forall row
        ensures HoldsAll(next, row) <==> HoldsAll(clauses, row) && NameMatches(selected, Column(column, row))
      {
        HoldsAllAppend(clauses, clause, row);
        assert Holds(clause, row) <==> NameMatches(selected, Column(column, row));
      }
    }
  }

  lemma LoweredMembership(names: seq<string>, name: string)
    ensures name in Streams.Map(names, Lower) <==> exists k :: 0 <= k < |names| && Lower(names[k]) == name
  {
    var lowered := Streams.Map(names, Lower);
    if name in lowered {
      var k :| 0 <= k < |lowered| && lowered[k] == name;
      assert Lower(names[k]) == name;
    }
    if exists k :: 0 <= k < |names| && Lower(names[k]) == name {
      var k :| 0 <= k < |names| && Lower(names[k]) == name;
      assert lowered[k] == name;
    }
  }

  /** The body-type step: membership of the lower-cased name in the lower-cased list, when the list is non-empty. */
  method AddBodyTypeClause(selected: Option<seq<string>>, clauses: seq<ViewClause>) returns (next: seq<ViewClause>)
    ensures forall row :: HoldsAll(next, row) <==> HoldsAll(clauses, row) && BodyTypeMatches(selected, row.bodyTypeName)
    ensures |next| >= |clauses| && forall k :: 0 <= k < |clauses| ==> next[k] == clauses[k]
    ensures forall k :: |clauses| <= k < |next| ==> next[k].BodyTypeNameIn?
  {
    next := clauses;
    if selected.Some? && selected.value != [] {
      var lowered := Streams.Map(selected.value, Lower);
      AppendNarrows(clauses, BodyTypeNameIn(lowered));
      next := clauses + [BodyTypeNameIn(lowered)];
      forall row
        ensures Holds(BodyTypeNameIn(lowered), row) <==> BodyTypeMatches(selected, row.bodyTypeName)
      {
        if row.bodyTypeName.Some? {
          LoweredMembership(selected.value, Lower(row.bodyTypeName.value));
        }
      }
    }
  }

  /** The transmission step: skipped for a blank selection and for "All" in any case. */
  method AddTransmissionClause(selected: Option<string>, clauses: seq<ViewClause>) returns (next: seq<ViewClause>)
    ensures forall row :: HoldsAll(next, row) <==> HoldsAll(clauses, row) && TransmissionMatches(selected, row.transmissionType)
    ensures TransmissionGiven(selected) ==> next == clauses + [TransmissionTypeIs(Lower(selected.value))]
    ensures !TransmissionGiven(selected) ==> next == clauses
  {
    next := clauses;
    if TransmissionGiven(selected) {
      var clause := TransmissionTypeIs(Lower(selected.value));
      next := clauses + [clause];
      forall row
        ensures HoldsAll(next, row) <==> HoldsAll(clauses, row) && TransmissionMatches(selected, row.transmissionType)
      {
        HoldsAllAppend(clauses, clause, row);
        assert Holds(clause, row) <==> TransmissionMatches(selected, row.transmissionType);
      }
    }
  }

  /**
   * `filterByCriteria`: appends one clause per present criterion, in source
   * order, after the unconditional `isSold = false`.
   */
  method FilterByCriteria(c: Criteria) returns (clauses: seq<ViewClause>)
    ensures forall row :: HoldsAll(clauses, row) <==> Matches(c, row)
    ensures |clauses| >= 1 && clauses[0] == IsNotSold
    ensures TransmissionGiven(c.selectedTransmission) ==> clauses[|clauses| - 1] == TransmissionTypeIs(Lower(c.selectedTransmission.value))
  {
    AppendNarrows([], IsNotSold);
    assert [] + [IsNotSold] == [IsNotSold];
    var unsold := [IsNotSold];
    var withText := AddTextClause(c.value, unsold);
    var withPrice := AddPriceClauses(c.minPrice, c.maxPrice, withText);
    var withMake := AddNameClause(MakeName, c.selectedMake, withPrice);
    var withModel := AddNameClause(ModelName, c.selectedModel, withMake);
    var withTrim := AddNameClause(TrimName, c.selectedTrim, withModel);
    var withBodyTypes := AddBodyTypeClause(c.selectedBodyTypes, withTrim);
    clauses := AddTransmissionClause(c.selectedTransmission, withBodyTypes);
    forall row
      ensures HoldsAll(clauses, row) <==> Matches(c, row)
    {
      assert HoldsAll(unsold, row) <==> row.isSold == Some(false);
      assert HoldsAll(withText, row) <==> HoldsAll(unsold, row) && TextMatches(c.value, row);
      assert HoldsAll(withPrice, row) <==> HoldsAll(withText, row) && PriceMatches(c.minPrice, c.maxPrice, row.price);
      assert HoldsAll(withMake, row) <==> HoldsAll(withPrice, row) && NameMatches(c.selectedMake, Column(MakeName, row));
      assert HoldsAll(withModel, row) <==> HoldsAll(withMake, row) && NameMatches(c.selectedModel, Column(ModelName, row));
      assert HoldsAll(withTrim, row) <==> HoldsAll(withModel, row) && NameMatches(c.selectedTrim, Column(TrimName, row));
      assert HoldsAll(withBodyTypes, row) <==> HoldsAll(withTrim, row) && BodyTypeMatches(c.selectedBodyTypes, row.bodyTypeName);
      assert HoldsAll(clauses, row) <==> HoldsAll(withBodyTypes, row) && TransmissionMatches(c.selectedTransmission, row.transmissionType);
      assert Column(MakeName, row) == row.makeName;
      assert Column(ModelName, row) == row.modelName;
      assert Column(TrimName, row) == row.trimName;
    }
  }

  /** Criteria with nothing usable in them: null or blank strings, "All" transmission, no prices, no body types. */
  predicate Inert(c: Criteria) {
    !Given(c.value) && c.minPrice.None? && c.maxPrice.None? &&
    !Given(c.selectedMake) && !Given(c.selectedModel) && !Given(c.selectedTrim) &&
    !BodyTypesGiven(c.selectedBodyTypes) && !TransmissionGiven(c.selectedTransmission)
  }

  /** Inert criteria, the empty criteria among them, match exactly the unsold rows. */
  lemma InertCriteriaMatchUnsold(c: Criteria, row: ListingRow)
    requires Inert(c)
    ensures Inert(NoCriteria)
    ensures Matches(c, row) <==> row.isSold == Some(false)
  {
  }

  /** A sold row passes `alwaysTrue()` yet no criteria at all let it through `filterByCriteria`. */
  lemma SoldRowsOnlyPassAlwaysTrue(c: Criteria, row: ListingRow)
    requires row.isSold != Some(false)
    ensures HoldsAll(AlwaysTrue(), row) && !Matches(c, row)
  {
  }

  /** `more` keeps every filter criterion `fewer` sets, and may set others. */
  predicate Extends(more: Criteria, fewer: Criteria) {
    (fewer.value.None? || more.value == fewer.value) &&
    (fewer.minPrice.None? || more.minPrice == fewer.minPrice) &&
    (fewer.maxPrice.None? || more.maxPrice == fewer.maxPrice) &&
    (fewer.selectedMake.None? || more.selectedMake == fewer.selectedMake) &&
    (fewer.selectedModel.None? || more.selectedModel == fewer.selectedModel) &&
    (fewer.selectedTrim.None? || more.selectedTrim == fewer.selectedTrim) &&
    (fewer.selectedBodyTypes.None? || more.selectedBodyTypes == fewer.selectedBodyTypes) &&
    (fewer.selectedTransmission.None? || more.selectedTransmission == fewer.selectedTransmission)
  }

  /** Adding criteria never widens the result: every row the larger criteria match, the smaller match too. */
  lemma MoreCriteriaNeverWiden(more: Criteria, fewer: Criteria, row: ListingRow)
    requires Extends(more, fewer)
    ensures Matches(more, row) ==> Matches(fewer, row)
  {
  }

  /** "All", in any case, as the transmission is the same as no transmission. */
  lemma AllTransmissionIgnored(c: Criteria, all: string, row: ListingRow)
    requires Lower(all) == "all"
    ensures Matches(c.(selectedTransmission := Some(all)), row) <==> Matches(c.(selectedTransmission := None), row)
  {
  }

  /** Every string criterion with its text lower-cased; the body-type names element by element. */
  function LowerCriteria(c: Criteria): (lowered: Criteria)
    ensures lowered.minPrice == c.minPrice && lowered.maxPrice == c.maxPrice
  {
    c.(value := LowerOption(c.value),
       selectedMake := LowerOption(c.selectedMake),
       selectedModel := LowerOption(c.selectedModel),
       selectedTrim := LowerOption(c.selectedTrim),
       selectedTransmission := LowerOption(c.selectedTransmission),
       selectedBodyTypes := if c.selectedBodyTypes.Some? then Some(Streams.Map(c.selectedBodyTypes.value, Lower)) else None)
  }

  function LowerOption(s: Option<string>): Option<string> {
    if s.Some? then Some(Lower(s.value)) else None
  }

  lemma LowerOptionKeepsSelection(s: Option<string>)
    ensures Given(LowerOption(s)) <==> Given(s)
    ensures TransmissionGiven(LowerOption(s)) <==> TransmissionGiven(s)
    ensures Given(s) ==> Lower(LowerOption(s).value) == Lower(s.value)
  {
    if s.Some? {
      LowerKeepsBlank(s.value);
      LowerIdempotent(s.value);
    }
  }

  lemma TextIgnoresCase(value: Option<string>, row: ListingRow)
    ensures TextMatches(LowerOption(value), row) <==> TextMatches(value, row)
  {
    LowerOptionKeepsSelection(value);
  }

  lemma NameIgnoresCase(selected: Option<string>, column: Option<string>)
    ensures NameMatches(LowerOption(selected), column) <==> NameMatches(selected, column)
    ensures TransmissionMatches(LowerOption(selected), column) <==> TransmissionMatches(selected, column)
  {
    LowerOptionKeepsSelection(selected);
  }

  lemma LoweredNamesLowerAlike(names: seq<string>)
    ensures |Streams.Map(names, Lower)| == |names|
    ensures forall k :: 0 <= k < |names| ==> Lower(Streams.Map(names, Lower)[k]) == Lower(names[k])
  {
    forall k | 0 <= k < |names|
      ensures Lower(Streams.Map(names, Lower)[k]) == Lower(names[k])
    {
      LowerIdempotent(names[k]);
    }
  }

  lemma BodyTypeIgnoresCase(selected: Option<seq<string>>, column: Option<string>)
    requires selected.Some?
    ensures BodyTypeMatches(Some(Streams.Map(selected.value, Lower)), column) <==> BodyTypeMatches(selected, column)
  {
    LoweredNamesLowerAlike(selected.value);
  }

  /** The case of the search text and of every selection is irrelevant to the rows matched. */
  lemma SelectionsIgnoreCase(c: Criteria, row: ListingRow)
    ensures Matches(LowerCriteria(c), row) <==> Matches(c, row)
  {
    var l := LowerCriteria(c);
    TextIgnoresCase(c.value, row);
    NameIgnoresCase(c.selectedMake, row.makeName);
    NameIgnoresCase(c.selectedModel, row.modelName);
    NameIgnoresCase(c.selectedTrim, row.trimName);
    NameIgnoresCase(c.selectedTransmission, row.transmissionType);
    if c.selectedBodyTypes.Some? {
      BodyTypeIgnoresCase(c.selectedBodyTypes, row.bodyTypeName);
    }
    assert TextMatches(l.value, row) <==> TextMatches(c.value, row);
  }

  /**
   * A row whose model name contains the search text, in any case, passes the
   * text clause whatever its make and trim, a null trim included.
   */
  lemma {:induction false} TextFindsModelName(value: string, before: string, after: string, row: ListingRow)
    requires Given(Some(value))
    requires row.modelName == Some(before + value + after)
    ensures TextMatches(Some(value), row)
  {
    LowerConcat(before + value, after);
    LowerConcat(before, value);
    ContainsInfix(Lower(before), Lower(value), Lower(after));
  }
}

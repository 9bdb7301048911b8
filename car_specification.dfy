/**
 * CarSpecification.java: the same criteria compiled against the normalized
 * Car entity, reaching make, model, trim, body type and transmission through
 * joins. Unlike the view variant it matches those dimensions by id, exactly
 * as given (no case folding, no blank check, no "All" sentinel).
 */
module CarSpecification {
  import opened Nullable
  import opened Text
  import opened Entities
  import opened CarFilterCriteria
  import View = CarListingViewSpecification

  /** The third operand of the text clause's OR. */
  datatype NameTerm =
    | TrimNameLike(needle: string)
      /** `criteriaBuilder.and()`: the empty conjunction, true for every car. */
    | Conjunction

  datatype CarClause =
    | CarNotSold
      /** `lower(make.name) LIKE p OR lower(model.name) LIKE p OR trimTerm`. */
    | CarTextLike(needle: string, trimTerm: NameTerm)
    | CarPriceAtLeast(min: real)
    | CarPriceAtMost(max: real)
    | MakeIdIs(makeId: string)
    | ModelIdIs(modelId: string)
    | TrimIdIs(trimId: string)
    | BodyTypeIdIn(bodyTypeIds: seq<string>)
    | TransmissionIdIs(transmissionId: string)

  /* The ids of a car's joined entities; null when the entity is missing. */

  function MakeId(car: Car): Option<Uuid> { if car.make.Some? then Some(car.make.value.id) else None }
  function ModelId(car: Car): Option<Uuid> { if car.model.Some? then Some(car.model.value.id) else None }
  function TrimId(car: Car): Option<Uuid> { if car.trim.Some? then Some(car.trim.value.id) else None }
  function BodyTypeId(car: Car): Option<Uuid> { if car.bodyType.Some? then Some(car.bodyType.value.id) else None }
  function TransmissionId(car: Car): Option<Uuid> {
    if car.transmission.Some? then Some(car.transmission.value.id) else None
  }

  predicate TermHolds(term: NameTerm, car: Car) {
    match term
    case TrimNameLike(needle) => View.LikeLower(TrimName(car), needle)
    case Conjunction => true
  }

  /**
   * `root.join("trim")` is an inner join made only when the trim term is
   * built: it keeps just the cars that have a trim.
   */
  predicate TermJoins(term: NameTerm, car: Car) {
    match term
    case TrimNameLike(_) => car.trim.Some?
    case Conjunction => true
  }

  predicate Holds(clause: CarClause, car: Car) {
    match clause
    case CarNotSold => car.isSold == Some(false)
    case CarTextLike(needle, trimTerm) =>
      car.make.Some? && car.model.Some? && TermJoins(trimTerm, car) &&
      (View.LikeLower(MakeName(car), needle) || View.LikeLower(ModelName(car), needle) || TermHolds(trimTerm, car))
    case CarPriceAtLeast(min) => car.price.Some? && car.price.value >= min
    case CarPriceAtMost(max) => car.price.Some? && car.price.value <= max
    case MakeIdIs(id) => MakeId(car) == Some(id)
    case ModelIdIs(id) => ModelId(car) == Some(id)
    case TrimIdIs(id) => TrimId(car) == Some(id)
    case BodyTypeIdIn(ids) => BodyTypeId(car).Some? && BodyTypeId(car).value in ids
    case TransmissionIdIs(id) => TransmissionId(car) == Some(id)
  }

  predicate HoldsAll(clauses: seq<CarClause>, car: Car) {
    forall k :: 0 <= k < |clauses| ==> Holds(clauses[k], car)
  }

  /*
   * The meaning of the criteria against a car.
   */

  /** The entities the text step joins: make, model and trim, all inner joins. */
  predicate HasJoinedNames(car: Car) {
    car.make.Some? && car.model.Some? && car.trim.Some?
  }

  /**
   * Free text: the car has a make, a model and a trim to join, and the make,
   * model or trim name contains the text, ignoring case.
   */
  predicate TextMatches(value: Option<string>, car: Car) {
    View.Given(value) ==>
      var needle := Lower(value.value);
      HasJoinedNames(car) &&
      (View.LikeLower(MakeName(car), needle) || View.LikeLower(ModelName(car), needle) || View.LikeLower(TrimName(car), needle))
  }

  /** A non-null selection, blank or not, must equal the joined entity's id exactly. */
  predicate IdMatches(selected: Option<string>, id: Option<Uuid>) {
    selected.Some? ==> id == selected
  }

  /** A non-empty list of body-type ids must contain the car's body-type id. */
  predicate BodyTypeIdMatches(selected: Option<seq<string>>, id: Option<Uuid>) {
    View.BodyTypesGiven(selected) ==> id.Some? && id.value in selected.value
  }

  predicate Matches(c: Criteria, car: Car) {
    car.isSold == Some(false) &&
    TextMatches(c.value, car) &&
    View.PriceMatches(c.minPrice, c.maxPrice, car.price) &&
    IdMatches(c.selectedMake, MakeId(car)) &&
    IdMatches(c.selectedModel, ModelId(car)) &&
    IdMatches(c.selectedTrim, TrimId(car)) &&
    BodyTypeIdMatches(c.selectedBodyTypes, BodyTypeId(car)) &&
    IdMatches(c.selectedTransmission, TransmissionId(car))
  }

  lemma HoldsAllAppend(clauses: seq<CarClause>, clause: CarClause, car: Car)
    ensures HoldsAll(clauses + [clause], car) <==> HoldsAll(clauses, car) && Holds(clause, car)
  {
    if HoldsAll(clauses, car) && Holds(clause, car) {
      forall k | 0 <= k < |clauses + [clause]|
        ensures Holds((clauses + [clause])[k], car)
      {
        if k < |clauses| {
          assert (clauses + [clause])[k] == clauses[k];
        }
      }
    }
    if HoldsAll(clauses + [clause], car) {
      assert Holds((clauses + [clause])[|clauses|], car);
      forall k | 0 <= k < |clauses|
        ensures Holds(clauses[k], car)
      {
        assert (clauses + [clause])[k] == clauses[k];
      }
    }
  }

  lemma AppendNarrows(clauses: seq<CarClause>, clause: CarClause)
    ensures forall car :: HoldsAll(clauses + [clause], car) <==> HoldsAll(clauses, car) && Holds(clause, car)
  {
    forall car
      ensures HoldsAll(clauses + [clause], car) <==> HoldsAll(clauses, car) && Holds(clause, car)
    {
      HoldsAllAppend(clauses, clause, car);
    }
  }

  /** The text clause, trim term included, holds exactly when the text matches. */
  lemma TextClauseMeansText(value: Option<string>, car: Car)
    requires View.Given(value)
    ensures Holds(CarTextLike(Lower(value.value), TrimNameLike(Lower(value.value))), car) <==> TextMatches(value, car)
  {
  }

  /**
   * `root.get("trim") != null`: a JPA path object, which is never null, so
   * the guard around the trim LIKE always passes.
   */
  const TrimPathIsNonNull := true

  /**
   * The text step. `trimPredicate` starts as the empty conjunction and is
   * replaced by the trim LIKE under the always-true guard.
   */
  method AddTextClause(value: Option<string>, clauses: seq<CarClause>) returns (next: seq<CarClause>)
    ensures forall car :: HoldsAll(next, car) <==> HoldsAll(clauses, car) && TextMatches(value, car)
    ensures View.Given(value) ==> next == clauses + [CarTextLike(Lower(value.value), TrimNameLike(Lower(value.value)))]
    ensures !View.Given(value) ==> next == clauses
  {
    next := clauses;
    if View.Given(value) {
      var needle := Lower(value.value);
      var trimPredicate := Conjunction;
      if TrimPathIsNonNull {
        trimPredicate := TrimNameLike(needle);
      }
      assert trimPredicate == TrimNameLike(needle);
      var clause := CarTextLike(needle, trimPredicate);
      next := clauses + [clause];
      forall car
        ensures HoldsAll(next, car) <==> HoldsAll(clauses, car) && TextMatches(value, car)
      {
        HoldsAllAppend(clauses, clause, car);
        TextClauseMeansText(value, car);
      }
    }
  }

  method AddPriceClauses(minPrice: Option<real>, maxPrice: Option<real>, clauses: seq<CarClause>) returns (next: seq<CarClause>)
    ensures forall car :: HoldsAll(next, car) <==> HoldsAll(clauses, car) && View.PriceMatches(minPrice, maxPrice, car.price)
    ensures |next| >= |clauses| && forall k :: 0 <= k < |clauses| ==> next[k] == clauses[k]
  {
    next := clauses;
    if minPrice.Some? {
      AppendNarrows(next, CarPriceAtLeast(minPrice.value));
      next := next + [CarPriceAtLeast(minPrice.value)];
    }
    if maxPrice.Some? {
      AppendNarrows(next, CarPriceAtMost(maxPrice.value));
      next := next + [CarPriceAtMost(maxPrice.value)];
    }
  }

  /** The make, model and trim steps: id equality whenever the selection is non-null. */
  method AddIdClauses(make: Option<string>, model: Option<string>, trim: Option<string>, clauses: seq<CarClause>)
    returns (next: seq<CarClause>)
    ensures forall car :: HoldsAll(next, car) <==>
      HoldsAll(clauses, car) && IdMatches(make, MakeId(car)) && IdMatches(model, ModelId(car)) && IdMatches(trim, TrimId(car))
    ensures |next| >= |clauses| && forall k :: 0 <= k < |clauses| ==> next[k] == clauses[k]
  {
    next := clauses;
    if make.Some? {
      AppendNarrows(next, MakeIdIs(make.value));
      next := next + [MakeIdIs(make.value)];
    }
    if model.Some? {
      AppendNarrows(next, ModelIdIs(model.value));
      next := next + [ModelIdIs(model.value)];
    }
    if trim.Some? {
      AppendNarrows(next, TrimIdIs(trim.value));
      next := next + [TrimIdIs(trim.value)];
    }
  }

  /** The body-type and transmission steps. */
  method AddBodyTypeAndTransmissionClauses(bodyTypes: Option<seq<string>>, transmission: Option<string>, clauses: seq<CarClause>)
    returns (next: seq<CarClause>)
    ensures forall car :: HoldsAll(next, car) <==>
      HoldsAll(clauses, car) && BodyTypeIdMatches(bodyTypes, BodyTypeId(car)) && IdMatches(transmission, TransmissionId(car))
    ensures |next| >= |clauses| && forall k :: 0 <= k < |clauses| ==> next[k] == clauses[k]
  {
    next := clauses;
    if bodyTypes.Some? && bodyTypes.value != [] {
      AppendNarrows(next, BodyTypeIdIn(bodyTypes.value));
      next := next + [BodyTypeIdIn(bodyTypes.value)];
    }
    if transmission.Some? {
      AppendNarrows(next, TransmissionIdIs(transmission.value));
      next := next + [TransmissionIdIs(transmission.value)];
    }
  }

  /** `filterByCriteria`: `isSold = false`, then one clause per present criterion, all ANDed. */
  method FilterByCriteria(c: Criteria) returns (clauses: seq<CarClause>)
    ensures forall car :: HoldsAll(clauses, car) <==> Matches(c, car)
    ensures |clauses| >= 1 && clauses[0] == CarNotSold
  {
    AppendNarrows([], CarNotSold);
    assert [] + [CarNotSold] == [CarNotSold];
    var unsold := [CarNotSold];
    var withText := AddTextClause(c.value, unsold);
    var withPrice := AddPriceClauses(c.minPrice, c.maxPrice, withText);
    var withIds := AddIdClauses(c.selectedMake, c.selectedModel, c.selectedTrim, withPrice);
    clauses := AddBodyTypeAndTransmissionClauses(c.selectedBodyTypes, c.selectedTransmission, withIds);
    assert withText[0] == CarNotSold;
    assert withPrice[0] == CarNotSold && withIds[0] == CarNotSold;
    forall car
      ensures HoldsAll(clauses, car) <==> Matches(c, car)
    {
      assert HoldsAll(unsold, car) <==> car.isSold == Some(false);
      assert HoldsAll(withText, car) <==> HoldsAll(unsold, car) && TextMatches(c.value, car);
      assert HoldsAll(withPrice, car) <==> HoldsAll(withText, car) && View.PriceMatches(c.minPrice, c.maxPrice, car.price);
      assert HoldsAll(withIds, car) <==> (HoldsAll(withPrice, car) &&
        IdMatches(c.selectedMake, MakeId(car)) && IdMatches(c.selectedModel, ModelId(car)) && IdMatches(c.selectedTrim, TrimId(car)));
      assert HoldsAll(clauses, car) <==> (HoldsAll(withIds, car) &&
        BodyTypeIdMatches(c.selectedBodyTypes, BodyTypeId(car)) && IdMatches(c.selectedTransmission, TransmissionId(car)));
    }
  }

  /**
   * Were the trim guard ever false, the text clause would keep the empty
   * conjunction as its third operand, join no trim, and admit every car that
   * has a make and a model.
   */
  lemma TrimFallbackWouldAdmitEveryCar(needle: string, car: Car)
    ensures car.make.Some? && car.model.Some? ==> Holds(CarTextLike(needle, Conjunction), car)
    ensures Holds(CarTextLike(needle, TrimNameLike(needle)), car) <==> (HasJoinedNames(car) &&
      (View.LikeLower(MakeName(car), needle) || View.LikeLower(ModelName(car), needle) || View.LikeLower(TrimName(car), needle)))
  {
  }

  /** Criteria that set none of make, model, trim, body types and transmission. */
  predicate NoDimensionFilters(c: Criteria) {
    c.selectedMake.None? && c.selectedModel.None? && c.selectedTrim.None? &&
    c.selectedBodyTypes.None? && c.selectedTransmission.None?
  }

  /**
   * Restricted to text and price, the two variants agree up to the joins: a
   * car matches exactly when its flattened view row does and, when text is
   * searched, it has a make, a model and a trim to join.
   */
  lemma VariantsAgreeOnTextAndPrice(c: Criteria, car: Car, badgesJson: Option<string>)
    requires NoDimensionFilters(c)
    ensures Matches(c, car) <==>
      View.Matches(c, Flatten(car, badgesJson)) && (View.Given(c.value) ==> HasJoinedNames(car))
  {
    var row := Flatten(car, badgesJson);
    assert row.makeName == MakeName(car) && row.modelName == ModelName(car) && row.trimName == TrimName(car);
  }

  /**
   * The inner trim join: a text search of the entity variant never returns a
   * car without a trim, whatever its make and model names.
   */
  lemma TextSearchSkipsTrimlessCars(c: Criteria, car: Car)
    requires View.Given(c.value) && car.trim.None?
    ensures !Matches(c, car)
  {
  }

  /** "Toyota Corolla" without a trim: the view finds it by its model name, the entity variant does not. */
  const Corolla: Car := Toyota.(model := Some(Model("model-1", Some("Corolla"))))

  lemma CorollaNames()
    ensures Lower("Corolla") == "corolla" && Lower("corolla") == "corolla"
    ensures !IsBlank("corolla") && Contains("corolla", "corolla")
  {
    assert Lower("Corolla") == "corolla" by {
      assert Lower("Corolla")[0] == 'c';
      assert forall k :: 1 <= k < 7 ==> Lower("Corolla")[k] == "Corolla"[k];
    }
    LowerIdempotent("Corolla");
    assert !IsTrimmable("corolla"[0]);
    ContainsInfix("", "corolla", "");
    assert "" + "corolla" + "" == "corolla";
  }

  lemma TrimlessCarFoundOnlyByView()
    ensures View.Matches(NoCriteria.(value := Some("corolla")), Flatten(Corolla, None))
    ensures !Matches(NoCriteria.(value := Some("corolla")), Corolla)
  {
    var c := NoCriteria.(value := Some("corolla"));
    var row := Flatten(Corolla, None);
    CorollaNames();
    assert row.modelName == Some("Corolla") && row.isSold == Some(false);
    assert View.LikeLower(row.modelName, Lower("corolla"));
    assert View.TextMatches(c.value, row);
    TextSearchSkipsTrimlessCars(c, Corolla);
  }

  /**
   * The "All" sentinel exists only in the view variant: there it drops the
   * transmission filter, here it is an id no car's transmission is assumed to have.
   */
  lemma AllSentinelOnlyInView(c: Criteria, all: string, car: Car, badgesJson: Option<string>)
    requires Lower(all) == "all"
    requires TransmissionId(car) != Some(all)
    ensures !Matches(c.(selectedTransmission := Some(all)), car)
    ensures View.Matches(c.(selectedTransmission := Some(all)), Flatten(car, badgesJson)) <==>
      View.Matches(c.(selectedTransmission := None), Flatten(car, badgesJson))
  {
    View.AllTransmissionIgnored(c, all, Flatten(car, badgesJson));
  }

  /** A blank selection is ignored by the view variant but compared as an id here. */
  lemma BlankMakeOnlyIgnoredByView(c: Criteria, blank: string, car: Car, badgesJson: Option<string>)
    requires IsBlank(blank)
    requires MakeId(car) != Some(blank)
    ensures !Matches(c.(selectedMake := Some(blank)), car)
    ensures View.Matches(c.(selectedMake := Some(blank)), Flatten(car, badgesJson)) <==>
      View.Matches(c.(selectedMake := None), Flatten(car, badgesJson))
  {
  }

  /** An unsold car with only a make: "Toyota" stored under id "make-1". */
  const Toyota: Car := Car("car-1", None, None, None, None, Some(Make("make-1", Some("Toyota"))),
    None, None, None, None, None, None, None, None, Some(false), None, None)

  lemma ExampleNames()
    ensures Lower("Toyota") == "toyota" && Lower("toyota") == "toyota"
    ensures Lower("make-1") != "toyota"
    ensures !IsBlank("toyota") && !IsBlank("make-1")
  {
    assert Lower("Toyota") == "toyota" by {
      assert Lower("Toyota")[0] == 't';
      assert forall k :: 1 <= k < 6 ==> Lower("Toyota")[k] == "Toyota"[k];
    }
    LowerIdempotent("Toyota");
    assert Lower("make-1")[0] == 'm';
    assert !IsTrimmable("toyota"[0]) && !IsTrimmable("make-1"[0]);
  }

  /**
   * The view variant matches the make by name, ignoring case; this variant
   * by id, exactly. A lower-case name finds the car in the view only...
   */
  lemma NameFindsOnlyTheView()
    ensures View.Matches(NoCriteria.(selectedMake := Some("toyota")), Flatten(Toyota, None))
    ensures !Matches(NoCriteria.(selectedMake := Some("toyota")), Toyota)
  {
    NameFindsTheRow();
    var c := NoCriteria.(selectedMake := Some("toyota"));
    assert MakeId(Toyota) == Some("make-1");
    assert "toyota"[0] != "make-1"[0];
    assert !IdMatches(c.selectedMake, MakeId(Toyota));
  }

  lemma NameFindsTheRow()
    ensures View.Matches(NoCriteria.(selectedMake := Some("toyota")), Flatten(Toyota, None))
  {
    var c := NoCriteria.(selectedMake := Some("toyota"));
    var row := Flatten(Toyota, None);
    ExampleNames();
    assert row.makeName == Some("Toyota") && row.isSold == Some(false);
    assert View.SameName("toyota", row.makeName);
    assert View.NameMatches(c.selectedMake, row.makeName);
  }

  /** ...and the id finds it here only. */
  lemma IdFindsOnlyTheEntity()
    ensures Matches(NoCriteria.(selectedMake := Some("make-1")), Toyota)
    ensures !View.Matches(NoCriteria.(selectedMake := Some("make-1")), Flatten(Toyota, None))
  {
    var c := NoCriteria.(selectedMake := Some("make-1"));
    var row := Flatten(Toyota, None);
    ExampleNames();
    assert MakeId(Toyota) == Some("make-1");
    assert IdMatches(c.selectedMake, MakeId(Toyota));
    assert row.makeName == Some("Toyota");
    assert View.Given(c.selectedMake);
    assert !View.SameName("make-1", row.makeName);
  }
}

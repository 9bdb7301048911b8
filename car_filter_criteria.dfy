/**
 * CarFilterCriteria.java: the sparse search criteria (every field nullable)
 * and the SortOption enum with its wire strings.
 */
module CarFilterCriteria {
  import opened Nullable

  /** Prices are BigDecimal values, compared numerically; `real` holds them exactly. */
  datatype Criteria = Criteria(
    value: Option<string>,
    minPrice: Option<real>,
    maxPrice: Option<real>,
    selectedMake: Option<string>,
    selectedModel: Option<string>,
    selectedTrim: Option<string>,
    selectedBodyTypes: Option<seq<string>>,
    selectedTransmission: Option<string>,
    sort: Option<string>,
    page: Option<int>,
    size: Option<int>)

  /** `CarFilterCriteria.builder().build()`: nothing set. */
  const NoCriteria := Criteria(None, None, None, None, None, None, None, None, None, None, None)

  datatype SortOption = Relevance | PriceAsc | PriceDesc | YearAsc | YearDesc | MileageAsc | MileageDesc
  {
    /** `getValue()`: the option's wire string. */
    function GetValue(): string {
      match this
      case Relevance => "relevance"
      case PriceAsc => "price-asc"
      case PriceDesc => "price-desc"
      case YearAsc => "year-asc"
      case YearDesc => "year-desc"
      case MileageAsc => "mileage-asc"
      case MileageDesc => "mileage-desc"
    }
  }

  /** `SortOption.values()`, in declaration order. */
  const AllOptions: seq<SortOption> := [Relevance, PriceAsc, PriceDesc, YearAsc, YearDesc, MileageAsc, MileageDesc]

  /** The loop of `fromValue`: the first option whose value equals the key (`String.equals`, so never null). */
  function FindOption(options: seq<SortOption>, value: Option<string>): (r: Option<SortOption>)
    ensures r.Some? ==> r.value in options && value == Some(r.value.GetValue())
    ensures r.None? ==> forall k :: 0 <= k < |options| ==> value != Some(options[k].GetValue())
  {
    if options == [] then None
    else if value == Some(options[0].GetValue()) then Some(options[0])
    else FindOption(options[1..], value)
  }

  /** `fromValue`: the option with this exact, case-sensitive value; RELEVANCE for anything else, null included. */
  function FromValue(value: Option<string>): (o: SortOption)
    ensures o == Relevance || value == Some(o.GetValue())
    ensures (forall k :: 0 <= k < |AllOptions| ==> value != Some(AllOptions[k].GetValue())) ==> o == Relevance
  {
    match FindOption(AllOptions, value)
    case Some(o) => o
    case None => Relevance
  }

  /** There are seven options and their wire strings are pairwise distinct. */
  lemma {:induction false} OptionValuesDistinct(a: SortOption, b: SortOption)
    ensures |AllOptions| == 7 && a in AllOptions
    ensures a.GetValue() == b.GetValue() ==> a == b
  {
    var va, vb := a.GetValue(), b.GetValue();
    if a != b {
      assert |va| != |vb| || va[0] != vb[0];
    }
  }

  /** `fromValue(o.getValue()) == o` for every option. */
  lemma {:induction false} FromValueRoundTrip(o: SortOption)
    ensures FromValue(Some(o.GetValue())) == o
  {
    var r := FromValue(Some(o.GetValue()));
    OptionValuesDistinct(o, o);
    assert o == AllOptions[IndexOf(o)];
    OptionValuesDistinct(r, o);
  }

  function IndexOf(o: SortOption): (k: nat)
    ensures k < |AllOptions| && AllOptions[k] == o
  {
    match o
    case Relevance => 0
    case PriceAsc => 1
    case PriceDesc => 2
    case YearAsc => 3
    case YearDesc => 4
    case MileageAsc => 5
    case MileageDesc => 6
  }

  /** Matching is case-sensitive: an upper-case key is unknown and yields RELEVANCE, as does null. */
  lemma FromValueUnknownKeys()
    ensures FromValue(Some("PRICE-ASC")) == Relevance
    ensures FromValue(None) == Relevance
    ensures FromValue(Some("")) == Relevance
  {
  }
}

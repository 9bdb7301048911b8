/**
 * GetCarListUseCase.java: validates the price range, shapes the page request
 * (defaults, sort key), runs one repository query built by the view
 * specification, and converts the resulting page into a Pagination of CarDto,
 * all inside the use-case executor.
 *
 * The repository and the JSON parser are parameters: `findAll` stands for
 * `CarListingViewRepository.findAll(specification, pageable)` and `parse` for
 * Jackson reading the view's badges_json column.
 */
module GetCarListUseCase {
  import opened Nullable
  import opened Text
  import Streams
  import opened Eithers
  import opened Exceptions
  import opened Failures
  import opened Entities
  import opened CarFilterCriteria
  import P = Pagination
  import View = CarListingViewSpecification
  import Executor = ExecuteUseCase

  datatype Direction = Ascending | Descending

  /** `Sort.by(property)` in one direction. */
  datatype Sort = Sort(property: string, direction: Direction)

  /** A Spring `PageRequest`: 0-based page index, page size, sort. */
  datatype PageRequest = PageRequest(page: int, size: int, sort: Sort)

  /** What the repository hands back: the page's rows and the total over all pages. */
  datatype RowPage = RowPage(content: seq<ListingRow>, totalElements: nat)

  /** The RELEVANCE order: newest first. */
  const NewestFirst := Sort("createdAt", Descending)

  /** The switch of `buildSort`: each option's order, RELEVANCE by the default arm. */
  function SortFor(o: SortOption): (s: Sort)
    ensures o == Relevance <==> s == NewestFirst
  {
    match o
    case PriceAsc => Sort("price", Ascending)
    case PriceDesc => Sort("price", Descending)
    case YearAsc => Sort("year", Ascending)
    case YearDesc => Sort("year", Descending)
    case MileageAsc => Sort("mileage", Ascending)
    case MileageDesc => Sort("mileage", Descending)
    case Relevance => NewestFirst
  }

  /** Distinct options give distinct orders. */
  lemma SortForInjective(o: SortOption, p: SortOption)
    ensures SortFor(o) == SortFor(p) ==> o == p
  {
  }

  /** Every option's wire value looks it up again. */
  lemma AllOptionsRoundTrip()
    ensures forall k :: 0 <= k < |AllOptions| ==> FromValue(Some(AllOptions[k].GetValue())) == AllOptions[k]
  {
    forall k | 0 <= k < |AllOptions|
      ensures FromValue(Some(AllOptions[k].GetValue())) == AllOptions[k]
    {
      FromValueRoundTrip(AllOptions[k]);
    }
  }

  /**
   * The order `buildSort` gives a sort key: null and "" mean "relevance", a
   * known key its option's order, any other key newest first.
   */
  function SortOf(sortOption: Option<string>): (s: Sort)
    ensures sortOption.None? || sortOption == Some("") ==> s == NewestFirst
    ensures forall k :: 0 <= k < |AllOptions| && sortOption == Some(AllOptions[k].GetValue()) ==> s == SortFor(AllOptions[k])
    ensures (forall k :: 0 <= k < |AllOptions| ==> sortOption != Some(AllOptions[k].GetValue())) ==> s == NewestFirst
  {
    AllOptionsRoundTrip();
    FromValueRoundTrip(Relevance);
    SortFor(FromValue(if sortOption.None? || sortOption == Some("") then Some("relevance") else sortOption))
  }

  /**
   * `buildSort`: a null or empty key becomes "relevance"; the key is looked up
   * with `SortOption.fromValue`, so an unknown key sorts newest first.
   */
  method BuildSort(sortOption: Option<string>) returns (s: Sort)
    ensures s == SortOf(sortOption)
    ensures sortOption.None? || sortOption == Some("") ==> s == NewestFirst
    ensures forall k :: 0 <= k < |AllOptions| && sortOption == Some(AllOptions[k].GetValue()) ==> s == SortFor(AllOptions[k])
    ensures (forall k :: 0 <= k < |AllOptions| ==> sortOption != Some(AllOptions[k].GetValue())) ==> s == NewestFirst
  {
    var key := sortOption;
    if key.None? || key.value == "" {
      key := Some("relevance");
    }
    var option := FromValue(key);
    s := SortFor(option);
    forall k | 0 <= k < |AllOptions| && sortOption == Some(AllOptions[k].GetValue())
      ensures s == SortFor(AllOptions[k])
    {
      FromValueRoundTrip(AllOptions[k]);
    }
    if sortOption.None? || sortOption == Some("") {
      FromValueRoundTrip(Relevance);
    }
  }

  const PageIndexMessage := "Page index must not be less than zero"
  const PageSizeMessage := "Page size must not be less than one"

  /** Spring's `PageRequest.of(page, size, sort)`, which rejects a negative page and a size below one. */
  function PageRequestOf(page: int, size: int, sort: Sort): (r: Attempt<PageRequest>)
    ensures r.Returned? <==> page >= 0 && size >= 1
    ensures r.Returned? ==> r.value == PageRequest(page, size, sort)
    ensures r.Raised? ==> r.fault.OtherException?
  {
    if page < 0 then Raised(OtherException(Some(PageIndexMessage)))
    else if size < 1 then Raised(OtherException(Some(PageSizeMessage)))
    else Returned(PageRequest(page, size, sort))
  }

  const DefaultPage := 0
  const DefaultSize := 20

  /** `buildPageable`: page defaults to 0 and size to 20, neither clamped; Spring rejects what is out of range. */
  method BuildPageable(c: Criteria) returns (r: Attempt<PageRequest>)
    ensures r.Returned? <==> c.page.GetOr(DefaultPage) >= 0 && c.size.GetOr(DefaultSize) >= 1
    ensures r.Returned? ==> r.value.page == c.page.GetOr(DefaultPage) && r.value.size == c.size.GetOr(DefaultSize)
    ensures r.Returned? && (c.sort.None? || c.sort == Some("")) ==> r.value.sort == NewestFirst
    ensures r.Returned? ==> forall k :: 0 <= k < |AllOptions| && c.sort == Some(AllOptions[k].GetValue()) ==>
      r.value.sort == SortFor(AllOptions[k])
    ensures r.Returned? && (forall k :: 0 <= k < |AllOptions| ==> c.sort != Some(AllOptions[k].GetValue())) ==>
      r.value.sort == NewestFirst
    ensures r.Returned? ==> r.value.sort == SortOf(c.sort)
    ensures r.Raised? ==> r.fault.OtherException?
  {
    var pageValue := if c.page.Some? then c.page.value else DefaultPage;
    var sizeValue := if c.size.Some? then c.size.value else DefaultSize;
    var sort := BuildSort(c.sort);
    r := PageRequestOf(pageValue, sizeValue, sort);
  }

  /**
   * `parseBadgesJson`: null, blank and "[]" short-circuit to no badges, and so
   * does a document the parser rejects.
   */
  function ParseBadgesJson(badgesJson: Option<string>, parse: string -> Option<seq<BadgeDto>>): (badges: seq<BadgeDto>)
    ensures badgesJson.None? || IsBlank(badgesJson.value) || badgesJson == Some("[]") ==> badges == []
    ensures badgesJson.Some? && parse(badgesJson.value).None? ==> badges == []
    ensures badges != [] ==> badgesJson.Some? && parse(badgesJson.value) == Some(badges)
    ensures badgesJson.Some? && !IsBlank(badgesJson.value) && badgesJson != Some("[]") && parse(badgesJson.value).Some? ==>
      badges == parse(badgesJson.value).value
  {
    if badgesJson.None? || IsBlank(badgesJson.value) || badgesJson.value == "[]" then []
    else
      match parse(badgesJson.value)
      case Some(parsed) => parsed
      case None => []
  }

  /** `convertToDto`: the view's columns copied one to one, badges parsed from the JSON column. */
  function ConvertToDto(row: ListingRow, parse: string -> Option<seq<BadgeDto>>): (dto: CarDto)
    ensures dto.id == row.id && dto.year == row.year && dto.mileage == row.mileage && dto.price == row.price
    ensures dto.imageUrl == row.imageUrl && dto.isFeatured == row.isFeatured && dto.isSold == row.isSold
    ensures dto.viewsCount == row.viewsCount && dto.createdAt == row.createdAt
    ensures dto.makeName == row.makeName && dto.modelName == row.modelName && dto.trimName == row.trimName
    ensures dto.bodyTypeName == row.bodyTypeName && dto.bodyTypeIcon == row.bodyTypeIcon
    ensures dto.transmissionType == row.transmissionType && dto.conditionName == row.conditionName
    ensures dto.dealerName == row.dealerName && dto.dealerLocation == row.dealerLocation
    ensures dto.badges == ParseBadgesJson(row.badgesJson, parse)
  {
    CarDto(
      row.id, row.year, row.mileage, row.price, row.imageUrl,
      row.makeName, row.modelName, row.trimName, row.bodyTypeName, row.bodyTypeIcon, row.transmissionType,
      row.conditionName, row.dealerName, row.dealerLocation,
      ParseBadgesJson(row.badgesJson, parse),
      row.isFeatured, row.isSold, row.viewsCount, row.createdAt)
  }

  /**
   * `buildPaginationResponse`: the rows converted one to one and in order;
   * the 0-based page index becomes the 1-based page number.
   */
  function BuildPaginationResponse(request: PageRequest, rows: RowPage, parse: string -> Option<seq<BadgeDto>>): (p: P.Pagination<CarDto>)
    requires request.size >= 1
    ensures |p.list| == |rows.content|
    ensures forall k :: 0 <= k < |rows.content| ==> p.list[k] == ConvertToDto(rows.content[k], parse)
    ensures p.page == request.page + 1 && p.pageSize == request.size && p.total == rows.totalElements
    ensures p.pageCount == 0 <==> rows.totalElements == 0
    ensures p.HasPrevious() <==> request.page >= 1
  {
    P.PageCountZeroIffNoElements(Streams.Map(rows.content, row => ConvertToDto(row, parse)), request.page + 1, request.size, rows.totalElements);
    P.Of(Streams.Map(rows.content, row => ConvertToDto(row, parse)), request.page + 1, request.size, rows.totalElements)
  }

  /** `minPrice.compareTo(maxPrice) > 0`: both bounds given and in the wrong order. */
  predicate PriceRangeInverted(c: Criteria) {
    c.minPrice.Some? && c.maxPrice.Some? && c.minPrice.value > c.maxPrice.value
  }

  const InvalidPriceRange := ValidationWithCode(Some("INVALID_PRICE_RANGE"), Some("Max price must be greater than min price"))

  /**
   * `executeSearch`. `query` is the repository call made, if any: the clauses
   * of the view specification and the page request.
   */
  method ExecuteSearch(
    c: Criteria,
    findAll: (seq<View.ViewClause>, PageRequest) -> Attempt<RowPage>,
    parse: string -> Option<seq<BadgeDto>>)
    returns (r: Attempt<Either<Failure, P.Pagination<CarDto>>>, query: Option<(seq<View.ViewClause>, PageRequest)>)
    ensures PriceRangeInverted(c) ==> r == Returned(Left(InvalidPriceRange)) && query.None?
    ensures !PriceRangeInverted(c) && (c.page.GetOr(DefaultPage) < 0 || c.size.GetOr(DefaultSize) < 1) ==>
      r.Raised? && r.fault.OtherException? && query.None?
    ensures query.Some? ==> forall row :: View.HoldsAll(query.value.0, row) <==> View.Matches(c, row)
    ensures query.Some? ==> query.value.1.page == c.page.GetOr(DefaultPage) && query.value.1.size == c.size.GetOr(DefaultSize)
    ensures query.Some? ==> query.value.1.sort == SortOf(c.sort)
    ensures query.Some? ==> query.value.1.size >= 1
    ensures query.Some? ==>
      var found := findAll(query.value.0, query.value.1);
      (found.Raised? ==> r == Raised(found.fault)) &&
      (found.Returned? ==> r == Returned(Right(BuildPaginationResponse(query.value.1, found.value, parse))))
    ensures query.None? <==> PriceRangeInverted(c) || c.page.GetOr(DefaultPage) < 0 || c.size.GetOr(DefaultSize) < 1
  {
    if c.minPrice.Some? && c.maxPrice.Some? && c.minPrice.value > c.maxPrice.value {
      return Returned(Left(InvalidPriceRange)), None;
    }
    var pageable := BuildPageable(c);
    if pageable.Raised? {
      return Raised(pageable.fault), None;
    }
    var clauses := View.FilterByCriteria(c);
    query := Some((clauses, pageable.value));
    var found := findAll(clauses, pageable.value);
    if found.Raised? {
      return Raised(found.fault), query;
    }
    var response := BuildPaginationResponse(pageable.value, found.value, parse);
    r := Returned(Right(response));
  }

  const ExecuteTitle := "GetCarListUseCase.execute"
  const SearchFailedMessage := "Failed to search cars"

  /** `execute`: the search inside the executor, with no handlers and the message "Failed to search cars". */
  method Execute(
    c: Criteria,
    findAll: (seq<View.ViewClause>, PageRequest) -> Attempt<RowPage>,
    parse: string -> Option<seq<BadgeDto>>)
    returns (r: Either<Failure, P.Pagination<CarDto>>, query: Option<(seq<View.ViewClause>, PageRequest)>)
    ensures PriceRangeInverted(c) ==> r == Left(InvalidPriceRange)
    ensures PriceRangeInverted(c) ==> r.left.errorCode == Some("INVALID_PRICE_RANGE") && r.left.statusCode == Some(400)
    ensures !PriceRangeInverted(c) && (c.page.GetOr(DefaultPage) < 0 || c.size.GetOr(DefaultSize) < 1) ==>
      r.Left? && r.left.errorCode == Some("UNKNOWN_ERROR") && r.left.message == Some(SearchFailedMessage) && r.left.statusCode == Some(500)
    ensures query.Some? ==> forall row :: View.HoldsAll(query.value.0, row) <==> View.Matches(c, row)
    ensures query.Some? ==> query.value.1.size >= 1
    ensures query.Some? ==> query.value.1.page == c.page.GetOr(DefaultPage) && query.value.1.sort == SortOf(c.sort)
    ensures query.None? <==> PriceRangeInverted(c) || c.page.GetOr(DefaultPage) < 0 || c.size.GetOr(DefaultSize) < 1
    ensures query.Some? ==>
      var found := findAll(query.value.0, query.value.1);
      (found.Raised? ==> r == Executor.ExecuteDefault(Raised(found.fault), ExecuteTitle, Some(SearchFailedMessage))) &&
      (found.Returned? ==> r == Right(BuildPaginationResponse(query.value.1, found.value, parse)))
  {
    var attempt;
    attempt, query := ExecuteSearch(c, findAll, parse);
    r := Executor.ExecuteDefault(attempt, ExecuteTitle, Some(SearchFailedMessage));
    if !PriceRangeInverted(c) && (c.page.GetOr(DefaultPage) < 0 || c.size.GetOr(DefaultSize) < 1) {
      Executor.ExecuteOther<P.Pagination<CarDto>>(attempt.fault.message, ExecuteTitle, Some(SearchFailedMessage), None, None);
    }
  }

  /**
   * When the repository returns only rows its query admits, every car in the
   * response is unsold and priced within the requested bounds.
   */
  lemma ResultsHonourCriteria(
    c: Criteria, clauses: seq<View.ViewClause>, request: PageRequest, rows: RowPage, parse: string -> Option<seq<BadgeDto>>)
    requires request.size >= 1
    requires forall row :: View.HoldsAll(clauses, row) <==> View.Matches(c, row)
    requires forall k :: 0 <= k < |rows.content| ==> View.HoldsAll(clauses, rows.content[k])
    ensures var p := BuildPaginationResponse(request, rows, parse);
      forall k :: 0 <= k < |p.list| ==>
        p.list[k].isSold == Some(false) &&
        (c.minPrice.Some? ==> p.list[k].price.Some? && c.minPrice.value <= p.list[k].price.value) &&
        (c.maxPrice.Some? ==> p.list[k].price.Some? && p.list[k].price.value <= c.maxPrice.value)
  {
    var p := BuildPaginationResponse(request, rows, parse);
    forall k | 0 <= k < |p.list|
      ensures p.list[k].isSold == Some(false)
      ensures c.minPrice.Some? ==> p.list[k].price.Some? && c.minPrice.value <= p.list[k].price.value
      ensures c.maxPrice.Some? ==> p.list[k].price.Some? && p.list[k].price.value <= c.maxPrice.value
    {
      assert View.Matches(c, rows.content[k]);
      assert p.list[k] == ConvertToDto(rows.content[k], parse);
    }
  }

  /** Equal bounds are a valid range: a search with min = max is not rejected. */
  lemma EqualBoundsAccepted(c: Criteria)
    requires c.minPrice.Some? && c.maxPrice == c.minPrice
    ensures !PriceRangeInverted(c)
  {
  }
}

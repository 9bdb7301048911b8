/**
 * CarController.java: the search endpoint's request shaping (parameter
 * defaults, the 1-based to 0-based page shift, the comma-separated body-type
 * list) and the hand-off of the use case's result to the response helper.
 */
module CarController {
  import opened Nullable
  import opened Text
  import Streams
  import opened Eithers
  import opened Exceptions
  import opened Failures
  import Entities
  import opened CarFilterCriteria
  import P = Pagination
  import View = CarListingViewSpecification
  import List = GetCarListUseCase
  import Response = EitherResponseHelper
  import Executor = ExecuteUseCase

  /** A Java `int`. */
  newtype Int32 = x: int | -0x8000_0000 <= x < 0x8000_0000

  /** `a - 1` in 32-bit two's complement: the smallest int wraps to the largest. */
  function Decrement(a: Int32): (r: Int32)
    ensures a > -0x8000_0000 ==> r as int == a as int - 1
    ensures a == -0x8000_0000 ==> r == 0x7fff_ffff
  {
    if a == -0x8000_0000 then 0x7fff_ffff else a - 1
  }

  function NonEmpty(s: string): bool { s != "" }

  /**
   * `parseStringList`: null or blank gives no names; otherwise the text is
   * split on commas, each piece trimmed, and empty pieces dropped, in order.
   */
  function ParseStringList(listString: Option<string>): (names: seq<string>)
    ensures listString.None? || IsBlank(listString.value) ==> names == []
    ensures listString.Some? && !IsBlank(listString.value) ==>
      names == Streams.Filter(Streams.Map(SplitAll(listString.value, ','), Trim), NonEmpty)
    ensures forall k :: 0 <= k < |names| ==> names[k] != "" && Trim(names[k]) == names[k] && ',' !in names[k]
  {
    if listString.None? || IsBlank(listString.value) then []
    else
      var s := listString.value;
      TrailingEmptyPiecesIrrelevant(s);
      var names := Streams.Filter(Streams.Map(JavaSplit(s, ','), Trim), NonEmpty);
      PiecesAreTrimmedNames(JavaSplit(s, ','), names);
      names
  }

  /** Every name kept from trimmed pieces is non-empty, its own trim, and comma-free. */
  lemma PiecesAreTrimmedNames(pieces: seq<string>, names: seq<string>)
    requires forall k :: 0 <= k < |pieces| ==> ',' !in pieces[k]
    requires names == Streams.Filter(Streams.Map(pieces, Trim), NonEmpty)
    ensures forall k :: 0 <= k < |names| ==> names[k] != "" && Trim(names[k]) == names[k] && ',' !in names[k]
  {
    var trimmed := Streams.Map(pieces, Trim);
    forall k | 0 <= k < |names|
      ensures names[k] != "" && Trim(names[k]) == names[k] && ',' !in names[k]
    {
      assert NonEmpty(names[k]);
      var j :| 0 <= j < |trimmed| && trimmed[j] == names[k];
      TrimIdempotent(pieces[j]);
      TrimKeepsAbsent(pieces[j], ',');
    }
  }

  /**
   * Java's `split` drops trailing empty pieces; after trimming and dropping
   * empty names that makes no difference.
   */
  lemma TrailingEmptyPiecesIrrelevant(s: string)
    ensures Streams.Filter(Streams.Map(JavaSplit(s, ','), Trim), NonEmpty) ==
            Streams.Filter(Streams.Map(SplitAll(s, ','), Trim), NonEmpty)
  {
    if ',' in s {
      var all := SplitAll(s, ',');
      var kept := DropTrailingEmpty(all);
      var dropped := all[|kept|..];
      assert all == kept + dropped;
      Streams.MapAppend(kept, dropped, Trim);
      Streams.FilterAppend(Streams.Map(kept, Trim), Streams.Map(dropped, Trim), NonEmpty);
      forall k | 0 <= k < |dropped|
        ensures !NonEmpty(Streams.Map(dropped, Trim)[k])
      {
        assert dropped[k] == "";
      }
      Streams.FilterKeepsNone(Streams.Map(dropped, Trim), NonEmpty);
    } else {
      SplitAllNoSep(s, ',');
    }
  }

  /** A list of non-empty, trimmed, comma-free names survives joining with commas and parsing back. */
  lemma {:induction false} ParseJoinedList(names: seq<string>)
    requires |names| >= 1
    requires forall k :: 0 <= k < |names| ==> names[k] != "" && Trim(names[k]) == names[k] && ',' !in names[k]
    ensures ParseStringList(Some(Join(names, ','))) == names
  {
    var joined := Join(names, ',');
    JoinStartsWithFirst(names, ',');
    assert joined[0] == names[0][0];
    assert !IsTrimmable(names[0][0]);
    assert !IsBlank(joined);
    SplitAllJoin(names, ',');
    assert Streams.Map(names, Trim) == names;
    Streams.FilterKeepsAll(names, NonEmpty);
  }

  /** The query parameters of `GET /search`; a missing parameter is None. */
  datatype SearchParams = SearchParams(
    value: Option<string>,
    minPrice: Option<real>,
    maxPrice: Option<real>,
    selectedMakes: Option<string>,
    selectedModels: Option<string>,
    selectedTrims: Option<string>,
    selectedBodyTypes: Option<string>,
    selectedTransmission: Option<string>,
    sort: Option<string>,
    page: Option<Int32>,
    size: Option<Int32>)

  const DefaultSort := "relevance"
  const DefaultPage: Int32 := 1
  const DefaultSize: Int32 := 20

  /**
   * The criteria `searchCars` builds: parameters passed through, the body
   * types parsed as a list, defaults for sort, page and size, and the 1-based
   * page shifted to 0-based.
   */
  function SearchCriteria(p: SearchParams): (c: Criteria)
    ensures c.value == p.value && c.minPrice == p.minPrice && c.maxPrice == p.maxPrice
    ensures c.selectedMake == p.selectedMakes && c.selectedModel == p.selectedModels && c.selectedTrim == p.selectedTrims
    ensures c.selectedTransmission == p.selectedTransmission
    ensures c.selectedBodyTypes == Some(ParseStringList(p.selectedBodyTypes))
    ensures c.sort == Some(p.sort.GetOr(DefaultSort))
    ensures c.size == Some(p.size.GetOr(DefaultSize) as int)
    ensures p.page.GetOr(DefaultPage) > -0x8000_0000 ==> c.page == Some(p.page.GetOr(DefaultPage) as int - 1)
    ensures p.page.None? ==> c.page == Some(0)
  {
    Criteria(
      p.value, p.minPrice, p.maxPrice,
      p.selectedMakes, p.selectedModels, p.selectedTrims,
      Some(ParseStringList(p.selectedBodyTypes)),
      p.selectedTransmission,
      Some(p.sort.GetOr(DefaultSort)),
      Some(Decrement(p.page.GetOr(DefaultPage)) as int),
      Some(p.size.GetOr(DefaultSize) as int))
  }

  /**
   * A request for page n (n >= 1) queries 0-based page n - 1, and the
   * response built from that page reports page n again.
   */
  lemma {:induction false} RequestedPageIsReportedPage(
    p: SearchParams, sort: List.Sort, rows: List.RowPage, parse: string -> Option<seq<Entities.BadgeDto>>)
    requires p.page.GetOr(DefaultPage) >= 1 && p.size.GetOr(DefaultSize) >= 1
    ensures var c := SearchCriteria(p);
      c.page.value >= 0 &&
      List.BuildPaginationResponse(List.PageRequest(c.page.value, c.size.value, sort), rows, parse).page == p.page.GetOr(DefaultPage) as int
  {
  }

  /** With no parameters at all the search asks for the first page of 20 cars, by relevance, unfiltered. */
  lemma {:induction false} DefaultRequest(rows: List.RowPage, parse: string -> Option<seq<Entities.BadgeDto>>)
    ensures var c := SearchCriteria(SearchParams(None, None, None, None, None, None, None, None, None, None, None));
      c.page == Some(0) && c.size == Some(20) && c.sort == Some("relevance") &&
      c.selectedBodyTypes == Some([]) && View.Inert(c)
  {
  }

  const SearchSucceededMessage := "Search cars successfully"

  /**
   * `searchCars`: the criteria searched by the list use case, the result
   * folded into a response. `query` is what the repository was asked, if it
   * was asked at all.
   */
  method SearchCars(
    p: SearchParams,
    findAll: (seq<View.ViewClause>, List.PageRequest) -> Attempt<List.RowPage>,
    parse: string -> Option<seq<Entities.BadgeDto>>,
    isKnownStatus: int -> bool)
    returns (response: Response.ResponseEntity<P.Pagination<Entities.CarDto>>, query: Option<(seq<View.ViewClause>, List.PageRequest)>)
    ensures List.PriceRangeInverted(SearchCriteria(p)) && isKnownStatus(400) ==>
      response == Response.ResponseEntity(400, Response.ApiResponse(false, Some("Max price must be greater than min price"), None))
    ensures response.body.success ==> response.status == Response.Ok && response.body.message == Some(SearchSucceededMessage)
    ensures !response.body.success ==> response.body.data.None?
    ensures query.Some? ==> forall row :: View.HoldsAll(query.value.0, row) <==> View.Matches(SearchCriteria(p), row)
    ensures query.Some? ==> query.value.1.size >= 1
    ensures query.Some? ==> query.value.1.page == SearchCriteria(p).page.GetOr(List.DefaultPage)
    ensures query.Some? ==> query.value.1.sort == List.SortOf(SearchCriteria(p).sort)
    ensures response.body.success <==> query.Some? && findAll(query.value.0, query.value.1).Returned?
    ensures response.body.success ==>
      response.body.data == Some(List.BuildPaginationResponse(query.value.1, findAll(query.value.0, query.value.1).value, parse))
    ensures query.None? && !List.PriceRangeInverted(SearchCriteria(p)) ==>
      response.status == Response.ResolveHttpStatus(Some(500), isKnownStatus) && response.body.message == Some(List.SearchFailedMessage)
    ensures query.Some? && findAll(query.value.0, query.value.1).Raised? ==>
      response == Response.ToResponse(
        Executor.ExecuteDefault(Raised(findAll(query.value.0, query.value.1).fault), List.ExecuteTitle, Some(List.SearchFailedMessage)),
        SearchSucceededMessage, isKnownStatus)
  {
    var result;
    result, query := List.Execute(SearchCriteria(p), findAll, parse);
    response := Response.ToResponse(result, SearchSucceededMessage, isKnownStatus);
  }
}

# Car search core of the autotrader backend, in Dafny

This project models the search-listings logic of the autotrader backend, a
Spring service that lists used cars and shows one car in detail. The model has
three cooperating parts.

- **The error-result pipeline.**
  - `Either` (with `Left` and `Right`) is a two-variant result whose only
    primitive is `fold`.
  - `Failure` is the failure record, and its factories fix codes and statuses.
  - The `BusinessException` family fixes default codes and statuses.
  - `ExecuteUseCase.execute` classifies whatever a use case raises through an
    ordered catch chain.
  - `EitherResponseHelper` folds a result into an HTTP status and a response
    body.
- **The two filter compilers.**
  - `CarListingViewSpecification.filterByCriteria` works on the denormalized
    `car_listings` view. It matches names, ignores case, skips blank
    selections, and treats the transmission "All" as no filter.
  - `CarSpecification.filterByCriteria` works on the normalized `Car` entity.
    It matches ids exactly, with no case folding, no blank check and no "All".
  - Both are modelled as a list of clauses that a row must all satisfy. The
    methods that build the list are proved equivalent to a declarative
    `Matches(criteria, row)`.
- **Pagination and request shaping.**
  - `Pagination.of/map/filter/copyWith` and the last/next/previous-page rules.
  - The sort-key lookup.
  - The page and size defaults, and the shift from 1-based to 0-based pages
    and back.
  - Rejection of an inverted price range.
  - The controller's comma-separated list parsing.
  - The list and detail use cases end to end, with the repositories as
    parameters.

Java `null` is `Option.None`. A method that may throw returns an
`Attempt<T>` (`Returned(value)` or `Raised(fault)`). `BigDecimal` prices are
`real`. UUIDs are their text form. SQL `LIKE '%p%'` is substring containment,
`lower` is ASCII lower-casing, and a null column never satisfies a clause.

Files:
- `nullable.dfy`, `text.dfy` and `streams.dfy` hold the Java library behaviour
  the core relies on (`Option`, `String.trim/toLowerCase/split`, stream
  `map`/`filter`).
- `either.dfy`, `failure.dfy`, `exceptions.dfy`, `execute_use_case.dfy` and
  `either_response_helper.dfy` are the error pipeline.
- `pagination.dfy` is `Pagination`.
- `car_filter_criteria.dfy` and `entities.dfy` are the data model.
- `car_listing_view_specification.dfy` and `car_specification.dfy` are the
  two filter compilers.
- `get_car_list_use_case.dfy`, `get_car_detail_use_case.dfy` and
  `car_controller.dfy` are the use cases and the controller.

## Model

| member | source | states |
|---|---|---|
| Eithers.Either.Fold | src/main/java/com/example/autotrader/core/data/Left.java:21-25 | a Left applies `ifLeft` to its value and a Right applies `ifRight` (Right.java:21-25) |
| Eithers.Either.IsLeft | src/main/java/com/example/autotrader/core/data/Either.java:15-17 | true exactly for a Left, though defined through `fold` |
| Eithers.Either.IsRight | src/main/java/com/example/autotrader/core/data/Either.java:19-21 | true exactly for a Right |
| Eithers.IsLeftIsNotRight | src/main/java/com/example/autotrader/core/data/Either.java:15-21 | `isLeft` and `isRight` are always opposite |
| Eithers.Either.LeftOrNull | src/main/java/com/example/autotrader/core/data/Either.java:23-25 | for a non-null stored value, non-null exactly on a Left, and then it is the stored value |
| Eithers.Either.RightOrNull | src/main/java/com/example/autotrader/core/data/Either.java:27-29 | for a non-null stored value, non-null exactly on a Right, and then it is the stored value |
| Eithers.Either.FoldLeft | src/main/java/com/example/autotrader/core/data/Either.java:31-33 | `ifLeft` of the value on a Left, null on a Right |
| Eithers.Either.FoldRight | src/main/java/com/example/autotrader/core/data/Either.java:35-37 | `ifRight` of the value on a Right, null on a Left |
| Eithers.MakeLeft | src/main/java/com/example/autotrader/core/data/Either.java:39-41 | `left(v)` is a Left, not a Right, and holds v |
| Eithers.MakeRight | src/main/java/com/example/autotrader/core/data/Either.java:43-45 | `right(v)` is a Right, not a Left, and holds v |
| Eithers.Either.LeftValue | src/main/java/com/example/autotrader/core/data/Left.java:13-19 | `getValue` returns exactly the value the Left was built with |
| Eithers.Either.RightValue | src/main/java/com/example/autotrader/core/data/Right.java:13-19 | `getValue` returns exactly the value the Right was built with |
| Eithers.FoldUsesOneBranch | src/main/java/com/example/autotrader/core/data/Right.java:21-25 | `fold` never depends on the function of the other variant |
| Eithers.Equals | src/main/java/com/example/autotrader/core/data/Left.java:27-30 | equal iff same variant and equal values, so a Left never equals a Right |
| Eithers.HashCode | src/main/java/com/example/autotrader/core/data/Left.java:32-35 | the hash is the stored value's hash |
| Eithers.EqualsImpliesEqualHash | src/main/java/com/example/autotrader/core/data/Right.java:27-35 | equal values have equal hashes |
| Eithers.ToString | src/main/java/com/example/autotrader/core/data/Left.java:37-40 | "Left(" + value + ")" or "Right(" + value + ")" |
| Eithers.ToStringTellsVariantsApart | src/main/java/com/example/autotrader/core/data/Right.java:37-40 | a Left and a Right never print the same |
| Failures.FailureWithMessage | src/main/java/com/example/autotrader/core/data/Failure.java:44-46 | only the message is set, every other field null |
| Failures.FailureWithCode | src/main/java/com/example/autotrader/core/data/Failure.java:48-51 | code and message set, status, cause and details null |
| Failures.FailureWithStatus | src/main/java/com/example/autotrader/core/data/Failure.java:53-57 | code, message and status set, cause and details null |
| Failures.Network | src/main/java/com/example/autotrader/core/data/Failure.java:60-66 | NETWORK_ERROR/503, null message replaced by the network default |
| Failures.Server | src/main/java/com/example/autotrader/core/data/Failure.java:68-74 | SERVER_ERROR/500 with a default message for null |
| Failures.Validation | src/main/java/com/example/autotrader/core/data/Failure.java:76-82 | VALIDATION_ERROR/400 with a default message for null |
| Failures.ValidationWithCode | src/main/java/com/example/autotrader/core/data/Failure.java:84-90 | the caller's code with status 400 |
| Failures.Business | src/main/java/com/example/autotrader/core/data/Failure.java:92-98 | the caller's code, status 400, message defaulting to "Business logic error." |
| Failures.NotFound | src/main/java/com/example/autotrader/core/data/Failure.java:100-106 | NOT_FOUND/404 with a default message |
| Failures.Unauthorized | src/main/java/com/example/autotrader/core/data/Failure.java:108-114 | UNAUTHORIZED/401 with a default message |
| Failures.Forbidden | src/main/java/com/example/autotrader/core/data/Failure.java:116-122 | FORBIDDEN/403 with a default message |
| Failures.Timeout | src/main/java/com/example/autotrader/core/data/Failure.java:124-130 | TIMEOUT/408 with a default message |
| Failures.Custom | src/main/java/com/example/autotrader/core/data/Failure.java:132-138 | code, message and status copied verbatim, a null message included |
| Failures.FactoriesFollowTaxonomy | src/main/java/com/example/autotrader/core/data/Failure.java:60-130 | every fixed-code factory yields its kind's code and status, a non-null message, and no cause or details |
| Failures.KindCodesDistinct | src/main/java/com/example/autotrader/core/data/Failure.java:60-130 | no two fixed-code factories share a code |
| Failures.OnlyCustomKeepsNullMessage | src/main/java/com/example/autotrader/core/data/Failure.java:84-138 | `custom` keeps a null message where `business` and `validation` supply one |
| Exceptions.NewBusiness | src/main/java/com/example/autotrader/core/exceptions/BusinessException.java:15-20 | BUSINESS_ERROR, 400, details null |
| Exceptions.NewBusinessWithCode | src/main/java/com/example/autotrader/core/exceptions/BusinessException.java:22-27 | the given code, status 400 |
| Exceptions.NewBusinessWithStatus | src/main/java/com/example/autotrader/core/exceptions/BusinessException.java:29-34 | the given code and status, details null |
| Exceptions.NewBusinessWithDetails | src/main/java/com/example/autotrader/core/exceptions/BusinessException.java:36-41 | all four values stored |
| Exceptions.NewBusinessWithCause | src/main/java/com/example/autotrader/core/exceptions/BusinessException.java:43-48 | status 400 whatever the cause, details null, cause kept |
| Exceptions.NotFoundMessage | src/main/java/com/example/autotrader/core/exceptions/ResourceNotFoundException.java:12-18 | the message starts with the resource name and contains the id |
| Exceptions.NewNotFound | src/main/java/com/example/autotrader/core/exceptions/ResourceNotFoundException.java:8-10 | NOT_FOUND/404 with the message verbatim |
| Exceptions.NewNotFoundForLongId | src/main/java/com/example/autotrader/core/exceptions/ResourceNotFoundException.java:12-14 | NOT_FOUND/404, the id printed in decimal |
| Exceptions.NewNotFoundForId | src/main/java/com/example/autotrader/core/exceptions/ResourceNotFoundException.java:16-18 | NOT_FOUND/404, the id printed by its text form |
| Exceptions.NotFoundAlwaysNotFound | src/main/java/com/example/autotrader/core/exceptions/ResourceNotFoundException.java:8-18 | every constructor gives NOT_FOUND/404 and no details |
| Exceptions.NewValidation | src/main/java/com/example/autotrader/core/exceptions/ValidationException.java:8-10 | VALIDATION_ERROR/400, message kept, details null |
| Exceptions.NewValidationWithDetails | src/main/java/com/example/autotrader/core/exceptions/ValidationException.java:12-14 | VALIDATION_ERROR/400, message and details kept |
| Exceptions.NewNetwork | src/main/java/com/example/autotrader/core/exceptions/NetworkException.java:8-10 | NETWORK_ERROR/503 |
| Exceptions.NewNetworkWithCause | src/main/java/com/example/autotrader/core/exceptions/NetworkException.java:12-14 | NETWORK_ERROR with status 400, through the cause constructor |
| Exceptions.NetworkStatusDependsOnConstructor | src/main/java/com/example/autotrader/core/exceptions/NetworkException.java:8-14 | the two constructors share the code but not the status |
| ExecuteUseCase.FirstCatch | src/main/java/com/example/autotrader/core/usecase/ExecuteUseCase.java:50-123 | the clause chosen is in the chain and catches the fault; with the `Exception` clause present some clause always catches |
| ExecuteUseCase.FirstCatchIsEarliest | src/main/java/com/example/autotrader/core/usecase/ExecuteUseCase.java:50-123 | the clause chosen is the earliest that catches: every clause before it lets the fault pass |
| ExecuteUseCase.CatchAllFirstShadowsTheRest | src/main/java/com/example/autotrader/core/usecase/ExecuteUseCase.java:53-123 | the order matters: with `Exception` first it would catch every fault, and a BusinessException would no longer reach its own clause |
| ExecuteUseCase.FirstCatchIsOwnClause | src/main/java/com/example/autotrader/core/usecase/ExecuteUseCase.java:53-107 | in source order each fault is caught by its own class's clause, so only unlisted exceptions reach `Exception` |
| ExecuteUseCase.Execute | src/main/java/com/example/autotrader/core/usecase/ExecuteUseCase.java:43-51 | a normal return is passed through unchanged |
| ExecuteUseCase.ExecuteDefault | src/main/java/com/example/autotrader/core/usecase/ExecuteUseCase.java:24-30 | overload 1 is the full version with both handlers null; a normal result passes through and every exception becomes a Left |
| ExecuteUseCase.ExecuteWithBusinessHandler | src/main/java/com/example/autotrader/core/usecase/ExecuteUseCase.java:33-40 | overload 2 is the full version with no other-exception handler |
| ExecuteUseCase.ExecuteBusiness | src/main/java/com/example/autotrader/core/usecase/ExecuteUseCase.java:53-69 | a non-null handler result wins, else a Left with the exception's own code, message, status and details |
| ExecuteUseCase.ExecuteResourceAccess | src/main/java/com/example/autotrader/core/usecase/ExecuteUseCase.java:71-73 | NETWORK_ERROR/503 with the fixed network message |
| ExecuteUseCase.ExecuteHttpServerError | src/main/java/com/example/autotrader/core/usecase/ExecuteUseCase.java:75-78 | SERVER_ERROR/500 whatever the upstream status; the body's message, else a fixed one |
| ExecuteUseCase.ExecuteHttpClientError | src/main/java/com/example/autotrader/core/usecase/ExecuteUseCase.java:80-101 | code "HTTP_<status>", upstream status kept; message from the body, else fixed text for 400/401/403/404, else the default |
| ExecuteUseCase.ExecuteDataAccess | src/main/java/com/example/autotrader/core/usecase/ExecuteUseCase.java:103-105 | SERVER_ERROR/500 with a fixed message, nothing of the exception kept |
| ExecuteUseCase.ExecuteOther | src/main/java/com/example/autotrader/core/usecase/ExecuteUseCase.java:107-122 | a non-null handler result wins, else UNKNOWN_ERROR/500 with the default message |
| ExecuteUseCase.NetworkExceptionIsBusiness | src/main/java/com/example/autotrader/core/exceptions/NetworkException.java:6 | a NetworkException goes down the business branch and keeps its 503 or 400 |
| ExecuteUseCase.NotFoundExceptionIsNotFound | src/main/java/com/example/autotrader/core/exceptions/ResourceNotFoundException.java:6 | a ResourceNotFoundException reaches the caller as NOT_FOUND/404 with its message |
| EitherResponseHelper.ResolveHttpStatus | src/main/java/com/example/autotrader/core/utilities/EitherResponseHelper.java:125-136 | null and unknown codes map to 500, a known code to itself |
| EitherResponseHelper.ToResponse | src/main/java/com/example/autotrader/core/utilities/EitherResponseHelper.java:35-55 | a Left gives the resolved status, success false, its message and no data; a Right gives 200 with the success message and its (non-null) data |
| EitherResponseHelper.ToResponseDefault | src/main/java/com/example/autotrader/core/utilities/EitherResponseHelper.java:61-65 | the success message is "Operation successful" |
| EitherResponseHelper.ToResponseWithStatus | src/main/java/com/example/autotrader/core/utilities/EitherResponseHelper.java:71-92 | the given success status is used only on a Right |
| EitherResponseHelper.ToResponseWithErrorMapper | src/main/java/com/example/autotrader/core/utilities/EitherResponseHelper.java:98-119 | a Left's message is the mapper's; everything else as `toResponse` |
| EitherResponseHelper.IsSuccess | src/main/java/com/example/autotrader/core/utilities/EitherResponseHelper.java:141-143 | true exactly on a Right |
| EitherResponseHelper.IsFailure | src/main/java/com/example/autotrader/core/utilities/EitherResponseHelper.java:148-150 | true exactly on a Left |
| EitherResponseHelper.SuccessAndFailureComplementary | src/main/java/com/example/autotrader/core/utilities/EitherResponseHelper.java:141-150 | `isSuccess` and `isFailure` are always opposite |
| EitherResponseHelper.GetOrThrow | src/main/java/com/example/autotrader/core/utilities/EitherResponseHelper.java:156-163 | a Right's data, or a RuntimeException carrying the failure's message |
| EitherResponseHelper.KnownFailureStatusReachesClient | src/main/java/com/example/autotrader/core/utilities/EitherResponseHelper.java:39-48 | a failure with a known status reaches the client with that status and its message |
| Pagination.CeilDiv | src/main/java/com/example/autotrader/core/data/Pagination.java:79 | the least q with total <= pageSize * q |
| Pagination.Empty | src/main/java/com/example/autotrader/core/data/Pagination.java:65-73 | empty list, every number 0, no error, last page, no next or previous page |
| Pagination.Of | src/main/java/com/example/autotrader/core/data/Pagination.java:78-87 | inputs stored unchanged, no error, page count the ceiling of total / pageSize |
| Pagination.PageCountZeroIffNoElements | src/main/java/com/example/autotrader/core/data/Pagination.java:78-79 | the page count is non-negative, and 0 exactly when total is 0 |
| Pagination.OfDoesNotCheckPage | src/main/java/com/example/autotrader/core/data/Pagination.java:78-87 | any page number is stored as it is, and one at or past the page count reports last and no next page |
| Pagination.HasNextIffBeforeLastPage | src/main/java/com/example/autotrader/core/data/Pagination.java:92-103 | `hasNext` iff page < pageCount, and never together with `isLast` |
| Pagination.PageBoundaryExamples | src/main/java/com/example/autotrader/core/data/Pagination.java:92-111 | an empty result, page 3 of 25/10 and page 1 of 25/10 answer last/next/previous as documented |
| Pagination.Pagination.Map | src/main/java/com/example/autotrader/core/data/Pagination.java:129-142 | same length, element k mapped from element k, all other fields copied |
| Pagination.MapLaws | src/main/java/com/example/autotrader/core/data/Pagination.java:129-142 | mapping the identity changes nothing, and two maps compose |
| Pagination.Pagination.Filter | src/main/java/com/example/autotrader/core/data/Pagination.java:147-160 | the list is the stream filter of the list: kept elements satisfy the predicate and come from the list, every satisfying element is kept; page count and total copied |
| Pagination.FilterSplitsAtAppend | src/main/java/com/example/autotrader/core/data/Pagination.java:147-160 | filtering a concatenation is the concatenation of the filtered parts, so order is kept |
| Pagination.FilterOfOneElement | src/main/java/com/example/autotrader/core/data/Pagination.java:147-160 | a single element is kept once when it satisfies the predicate and dropped otherwise, so multiplicity is kept |
| Pagination.FilterKeepingAllIsIdentity | src/main/java/com/example/autotrader/core/data/Pagination.java:147-160 | a predicate true of every element returns the same page |
| Pagination.FilterIdempotent | src/main/java/com/example/autotrader/core/data/Pagination.java:147-160 | filtering twice is filtering once |
| Pagination.FilterKeepsStaleTotals | src/main/java/com/example/autotrader/core/data/Pagination.java:152-159 | filtering out everything still reports the old total and page count |
| Pagination.Pagination.CopyWith | src/main/java/com/example/autotrader/core/data/Pagination.java:116-124 | a null argument keeps the old field, the error is kept, and the page count becomes 0 |
| Pagination.CopyWithDropsPageCount | src/main/java/com/example/autotrader/core/data/Pagination.java:116-124 | a page with a next page loses it after an all-null `copyWith` |
| Pagination.Pagination.CopyWithKeepingPageCount | src/main/java/com/example/autotrader/core/data/Pagination.java:116-124 | the corrected copy: as `copyWith`, with the page count carried over |
| Pagination.CopyWithKeepingPageCountPreservesNavigation | src/main/java/com/example/autotrader/core/data/Pagination.java:116-124 | the corrected all-null copy is the identity, and a new list keeps the last and next answers |
| CarFilterCriteria.FindOption | src/main/java/com/example/autotrader/application/dtos/CarFilterCriteria.java:61-66 | a found option is in the list and its value equals the key; none found means no option's value equals it |
| CarFilterCriteria.FromValue | src/main/java/com/example/autotrader/application/dtos/CarFilterCriteria.java:61-68 | the option whose value equals the key, or RELEVANCE when none does |
| CarFilterCriteria.OptionValuesDistinct | src/main/java/com/example/autotrader/application/dtos/CarFilterCriteria.java:43-49 | seven options with pairwise distinct values |
| CarFilterCriteria.FromValueRoundTrip | src/main/java/com/example/autotrader/application/dtos/CarFilterCriteria.java:42-68 | `fromValue(o.getValue()) == o` for every option |
| CarFilterCriteria.FromValueUnknownKeys | src/main/java/com/example/autotrader/application/dtos/CarFilterCriteria.java:63-67 | "PRICE-ASC", null and "" all give RELEVANCE: matching is exact and case-sensitive |
| Entities.Flatten | src/main/java/com/example/autotrader/domain/entities/CarListingView.java:37-104 | the view row keeps a car's id, price and sold flag, and a missing related entity gives null name columns |
| CarListingViewSpecification.AlwaysTrue | src/main/java/com/example/autotrader/infrastructure/specifications/CarListingViewSpecification.java:25-27 | every row satisfies it, a sold one included |
| CarListingViewSpecification.AddTextClause | src/main/java/com/example/autotrader/infrastructure/specifications/CarListingViewSpecification.java:38-55 | the clause is added exactly when the text is non-blank, with the lower-cased untrimmed text, and admits the rows some name column of which contains it |
| CarListingViewSpecification.AddPriceClauses | src/main/java/com/example/autotrader/infrastructure/specifications/CarListingViewSpecification.java:58-70 | inclusive, independent lower and upper price bounds |
| CarListingViewSpecification.AddNameClause | src/main/java/com/example/autotrader/infrastructure/specifications/CarListingViewSpecification.java:73-94 | a non-blank make, model or trim must equal its column, ignoring case |
| CarListingViewSpecification.AddBodyTypeClause | src/main/java/com/example/autotrader/infrastructure/specifications/CarListingViewSpecification.java:97-105 | with a non-empty list, the lower-cased body type must be among the lower-cased names |
| CarListingViewSpecification.AddTransmissionClause | src/main/java/com/example/autotrader/infrastructure/specifications/CarListingViewSpecification.java:108-115 | skipped for null, blank and "All" in any case; otherwise case-insensitive equality |
| CarListingViewSpecification.FilterByCriteria | src/main/java/com/example/autotrader/infrastructure/specifications/CarListingViewSpecification.java:29-119 | the conjunction starts with `isSold = false` and admits exactly the rows `Matches` describes |
| CarListingViewSpecification.InertCriteriaMatchUnsold | src/main/java/com/example/autotrader/infrastructure/specifications/CarListingViewSpecification.java:117 | empty or inert criteria match exactly the unsold rows |
| CarListingViewSpecification.SoldRowsOnlyPassAlwaysTrue | src/main/java/com/example/autotrader/infrastructure/specifications/CarListingViewSpecification.java:25-34 | a sold row passes `alwaysTrue` but no criteria |
| CarListingViewSpecification.MoreCriteriaNeverWiden | src/main/java/com/example/autotrader/infrastructure/specifications/CarListingViewSpecification.java:117 | adding criteria can only shrink the rows matched |
| CarListingViewSpecification.AllTransmissionIgnored | src/main/java/com/example/autotrader/infrastructure/specifications/CarListingViewSpecification.java:108-110 | "All" in any case as the transmission matches as if none were given |
| CarListingViewSpecification.TextIgnoresCase | src/main/java/com/example/autotrader/infrastructure/specifications/CarListingViewSpecification.java:38-54 | the case of the search text does not change the rows matched |
| CarListingViewSpecification.NameIgnoresCase | src/main/java/com/example/autotrader/infrastructure/specifications/CarListingViewSpecification.java:73-94 | the case of a make, model, trim or transmission selection does not matter |
| CarListingViewSpecification.BodyTypeIgnoresCase | src/main/java/com/example/autotrader/infrastructure/specifications/CarListingViewSpecification.java:97-105 | the case of the body-type names does not matter |
| CarListingViewSpecification.SelectionsIgnoreCase | src/main/java/com/example/autotrader/infrastructure/specifications/CarListingViewSpecification.java:38-115 | lower-casing every criterion leaves the matched rows unchanged |
| CarListingViewSpecification.TextFindsModelName | src/main/java/com/example/autotrader/infrastructure/specifications/CarListingViewSpecification.java:41-54 | text contained in the model name, in any case, passes whatever the make and trim |
| CarSpecification.AddTextClause | src/main/java/com/example/autotrader/infrastructure/specifications/CarSpecification.java:23-50 | with non-blank text, the OR of case-insensitive LIKE over make, model and trim names, under inner joins of make, model and trim, the trim branch always taken |
| CarSpecification.AddPriceClauses | src/main/java/com/example/autotrader/infrastructure/specifications/CarSpecification.java:52-65 | inclusive, independent price bounds |
| CarSpecification.AddIdClauses | src/main/java/com/example/autotrader/infrastructure/specifications/CarSpecification.java:67-83 | a non-null make, model or trim, even blank, must equal the joined entity's id exactly |
| CarSpecification.AddBodyTypeAndTransmissionClauses | src/main/java/com/example/autotrader/infrastructure/specifications/CarSpecification.java:85-98 | a non-empty body-type list must contain the body-type id; a non-null transmission, "All" included, must equal its id |
| CarSpecification.FilterByCriteria | src/main/java/com/example/autotrader/infrastructure/specifications/CarSpecification.java:15-102 | the conjunction starts with `isSold = false` and admits exactly the cars `Matches` describes |
| CarSpecification.TrimFallbackWouldAdmitEveryCar | src/main/java/com/example/autotrader/infrastructure/specifications/CarSpecification.java:39-47 | the unused `and()` fallback would join no trim and admit every car with a make and a model; the trim LIKE, with its inner join, is the one in force |
| CarSpecification.VariantsAgreeOnTextAndPrice | src/main/java/com/example/autotrader/infrastructure/specifications/CarSpecification.java:20-65 | on text and price alone, a car matches iff its view row does and, when text is searched, it has a make, a model and a trim to join |
| CarSpecification.TextSearchSkipsTrimlessCars | src/main/java/com/example/autotrader/infrastructure/specifications/CarSpecification.java:40-47 | the inner trim join: a text search never returns a car without a trim |
| CarSpecification.TrimlessCarFoundOnlyByView | src/main/java/com/example/autotrader/infrastructure/specifications/CarSpecification.java:23-50 | a trimless "Toyota Corolla" is found by "corolla" in the view variant only |
| CarSpecification.AllSentinelOnlyInView | src/main/java/com/example/autotrader/infrastructure/specifications/CarSpecification.java:92-98 | "All" drops the transmission filter only in the view variant |
| CarSpecification.BlankMakeOnlyIgnoredByView | src/main/java/com/example/autotrader/infrastructure/specifications/CarSpecification.java:68-71 | a blank make is ignored by the view variant but compared as an id here |
| CarSpecification.NameFindsOnlyTheView | src/main/java/com/example/autotrader/infrastructure/specifications/CarSpecification.java:68-71 | a make name in lower case finds the car in the view variant only |
| CarSpecification.IdFindsOnlyTheEntity | src/main/java/com/example/autotrader/infrastructure/specifications/CarSpecification.java:68-71 | a make id finds the car in the entity variant only |
| GetCarListUseCase.SortFor | src/main/java/com/example/autotrader/application/usecases/GetCarListUseCase.java:105-113 | RELEVANCE, and only RELEVANCE, sorts newest first |
| GetCarListUseCase.SortForInjective | src/main/java/com/example/autotrader/application/usecases/GetCarListUseCase.java:105-113 | distinct options give distinct orders |
| GetCarListUseCase.SortOf | src/main/java/com/example/autotrader/application/usecases/GetCarListUseCase.java:98-114 | the order a sort key asks for: null or "" newest first, a known key by its option, an unknown key newest first |
| GetCarListUseCase.BuildSort | src/main/java/com/example/autotrader/application/usecases/GetCarListUseCase.java:98-114 | the sort built is `SortOf` the key: null or "" sorts newest first, a known key by its option, an unknown key newest first |
| GetCarListUseCase.PageRequestOf | src/main/java/com/example/autotrader/application/usecases/GetCarListUseCase.java:95 | succeeds iff page >= 0 and size >= 1, storing them unchanged |
| GetCarListUseCase.BuildPageable | src/main/java/com/example/autotrader/application/usecases/GetCarListUseCase.java:86-96 | page defaults to 0 and size to 20, neither clamped; the sort is `SortOf` the key, an unknown key included (newest first); failure exactly when out of range |
| GetCarListUseCase.ParseBadgesJson | src/main/java/com/example/autotrader/application/usecases/GetCarListUseCase.java:164-188 | null, blank, "[]" and unparsable JSON give no badges; otherwise exactly the parsed list |
| GetCarListUseCase.ConvertToDto | src/main/java/com/example/autotrader/application/usecases/GetCarListUseCase.java:132-158 | each of the eighteen view columns copied into its own DTO field, badges from the JSON column |
| GetCarListUseCase.BuildPaginationResponse | src/main/java/com/example/autotrader/application/usecases/GetCarListUseCase.java:116-126 | rows converted one to one in order; page is the 0-based index + 1; page count 0 iff total 0; a previous page iff index >= 1 |
| GetCarListUseCase.ExecuteSearch | src/main/java/com/example/autotrader/application/usecases/GetCarListUseCase.java:59-84 | an inverted range gives INVALID_PRICE_RANGE before any query; otherwise one query whose clauses mean `Matches` of the criteria, with the defaulted page and size and the sort `SortOf` the key, its page converted or its fault propagated |
| GetCarListUseCase.Execute | src/main/java/com/example/autotrader/application/usecases/GetCarListUseCase.java:48-54 | the search under the executor: a bad page request is UNKNOWN_ERROR/500 "Failed to search cars", repository faults are classified, the repository is asked exactly when the range and the page request are valid, with the requested page and sort |
| GetCarListUseCase.ResultsHonourCriteria | src/main/java/com/example/autotrader/application/usecases/GetCarListUseCase.java:76-83 | every car of a response is unsold and within the price bounds |
| GetCarListUseCase.EqualBoundsAccepted | src/main/java/com/example/autotrader/application/usecases/GetCarListUseCase.java:63-64 | min = max is not an inverted range |
| GetCarDetailUseCase.ConvertBadgeToDto | src/main/java/com/example/autotrader/application/usecases/GetCarDetailUseCase.java:77-83 | id, name and color copied |
| GetCarDetailUseCase.ConvertToDto | src/main/java/com/example/autotrader/application/usecases/GetCarDetailUseCase.java:46-75 | scalars copied; each derived name, icon and location taken from its entity when present and null when not; one BadgeDto per badge in order, none for null badges |
| GetCarDetailUseCase.GetCarDetail | src/main/java/com/example/autotrader/application/usecases/GetCarDetailUseCase.java:33-43 | a found car is Right of its DTO; a missing id is NOT_FOUND/404 naming the id; repository faults are classified |
| GetCarDetailUseCase.MissingCarMessage | src/main/java/com/example/autotrader/application/usecases/GetCarDetailUseCase.java:37 | the message reads "Car với ID <id> không tồn tại" |
| GetCarDetailUseCase.DetailAgreesWithListing | src/main/java/com/example/autotrader/application/usecases/GetCarDetailUseCase.java:46-75 | the detail DTO equals the list DTO of the car's view row, badges aside |
| CarController.Decrement | src/main/java/com/example/autotrader/presentation/controllers/CarController.java:77 | `page - 1` in 32-bit arithmetic, wrapping at the smallest int |
| CarController.ParseStringList | src/main/java/com/example/autotrader/presentation/controllers/CarController.java:104-113 | null or blank gives []; otherwise the comma pieces trimmed with empty ones dropped, in order; each name non-empty, trimmed, comma-free |
| CarController.PiecesAreTrimmedNames | src/main/java/com/example/autotrader/presentation/controllers/CarController.java:110-111 | every kept piece is non-empty, its own trim, and comma-free |
| CarController.TrailingEmptyPiecesIrrelevant | src/main/java/com/example/autotrader/presentation/controllers/CarController.java:109-111 | the trailing empty pieces `split` drops would be dropped by the filter anyway |
| CarController.ParseJoinedList | src/main/java/com/example/autotrader/presentation/controllers/CarController.java:104-113 | names joined with commas parse back to themselves |
| CarController.SearchCriteria | src/main/java/com/example/autotrader/presentation/controllers/CarController.java:60-79 | parameters passed through (plural names to singular fields), body types parsed, sort, page and size defaulted, page shifted to 0-based |
| CarController.RequestedPageIsReportedPage | src/main/java/com/example/autotrader/presentation/controllers/CarController.java:77 | page n queries index n - 1 and the response reports page n again |
| CarController.DefaultRequest | src/main/java/com/example/autotrader/presentation/controllers/CarController.java:60-62 | no parameters ask for index 0, size 20, "relevance", and filter nothing |
| CarController.SearchCars | src/main/java/com/example/autotrader/presentation/controllers/CarController.java:50-86 | an inverted range answers 400 with its message; the query means the criteria built from the parameters, with their page and sort; success exactly when the repository answered, with 200 "Search cars successfully" and the pagination of its rows; a failure carries no data; a bad page or size answers the resolved 500 status with "Failed to search cars"; a repository fault answers exactly `toResponse` of the executor's classification of that fault under "GetCarListUseCase.execute" |

## Left out

- I/O and wiring:
  - The repositories, the database and Spring's dependency injection are
    left out.
  - `findAll` and `findById` are parameters that return rows, a total or a
    raised fault.
  - `CarListingViewRepositoryImpl`, `CarRepositoryImpl` and the JPA
    interfaces are not part of this model.
- SQL semantics:
  - LIKE is plain substring search, so `%` and `_` in user text are not
    treated as wildcards.
  - Three-valued NULL logic is reduced to "a null column fails the clause".
  - The joins of `CarSpecification` are inner joins. The model keeps a car
    only when each entity a clause joins is present: the text clause joins
    make, model and trim, and the id clauses join their own entity. With the
    trim join, a text search drops every car without a trim, even when its
    make or model name matches (`CarSpecification.TextSearchSkipsTrimlessCars`).
    Joining the same entity twice adds no rows, since each join is to-one.
- The SQL of the `car_listings` view is not part of the sources. `Flatten`
  assumes the correspondence the column names describe. The `badge_count`
  and `badge_names` columns are not read by the core and are not modelled.
- Locale: `toLowerCase` is ASCII lower-casing. Locale-specific rules and
  non-ASCII case mappings are not modelled.
- `Math.ceil((double) total / pageSize)` is exact integer ceiling division,
  for `pageSize >= 1`. The behaviour of doubles and of `pageSize = 0` is not
  modelled.
- Pagination.Of: the `(int)` cast of the ceiling is not modelled. `total` is
  a `long` and `pageCount` an `int`, so Java saturates the page count at
  `Integer.MAX_VALUE` once `total / pageSize` exceeds 2^31 - 1; the model's
  page count is the unbounded ceiling.
- GetCarListUseCase.BuildPaginationResponse: Java's 32-bit overflow of
  `getNumber() + 1` is not modelled. The controller's `page - 1` wrap is
  modelled by `CarController.Decrement`.
- Bean Validation:
  - The `@Min(1)`/`@Max(100)` annotations on `page` and `size` are enforced
    by the framework, not the shown code, so they are not modelled.
  - Spring's conversion of missing or empty request parameters to their
    defaults is taken as given.
  - The model keeps whatever `Int32` the request carries.
- The badges JSON:
  - Jackson parsing is the `parse` parameter.
  - The `UUID.fromString` and cast failures inside the stream are not
    modelled, because those exceptions escape `parseBadgesJson` unhandled.
- `extractServiceErrorMessage` is not modelled. The message it reads from an
  HTTP error body is the `bodyMessage` field of the fault.
- The order of a car's badges: `Car.badges` is a `HashSet`, and the model
  takes its iteration order as the given sequence.
- The following are not modelled:
  - logging;
  - the `timestamp` of `ApiResponse`;
  - the table of `HttpStatus.valueOf` (the `isKnownStatus` parameter);
  - `GlobalExceptionHandler.java` (Spring picks its handlers by type).
- `ApiResponse.java`, `Make.java` and `Badge.java` are not part of this
  model. Their shapes are read off their uses.
- Exceptions:
  - Java `Error`s and exceptions thrown from inside the executor's handler
    hooks are not caught by `execute` and are not modelled.
  - A fault's `cause` chain is kept only where the executor stores it.
- Eithers.Either.LeftOrNull: a stored null is not modelled. Java's
  `left(null).leftOrNull()` is null on a Left; the model always returns the
  stored value on the matching variant.
- Eithers.Either.RightOrNull: a stored null is not modelled, as for
  `LeftOrNull`.
- EitherResponseHelper.ToResponse: a Right holding null is not modelled. Java
  then sends success with null data; the model's success always carries data.
- The null-id `NullPointerException` of
  `ResourceNotFoundException(name, Object id)` is not modelled; the id's text
  is always given. For a `Long` id, a null prints "null" through `%d`.
- CarListingViewSpecification.FilterByCriteria: does not state the position
  of each clause after `isSold = false`. The meaning of the whole
  conjunction, the first clause, and the last, transmission, clause are
  stated.

## Findings

| source | as written | input that shows it | evidently intended | confidence | as-written member | corrected member |
|---|---|---|---|---|---|---|
| src/main/java/com/example/autotrader/core/data/Pagination.java:116-124 | `copyWith` never sets `pageCount` on the builder, so every copy has page count 0 and reports itself as the last page | `of(rows, 1, 10, 25)` has a next page; `.copyWith(null, null, null, null)` of it has none | carry `pageCount` over, as `map` and `filter` do | medium, not executed | Pagination.Pagination.CopyWith, Pagination.CopyWithDropsPageCount | Pagination.Pagination.CopyWithKeepingPageCount, Pagination.CopyWithKeepingPageCountPreservesNavigation |

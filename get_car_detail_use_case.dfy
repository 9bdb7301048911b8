/**
 * GetCarDetailUseCase.java: one car by id through the normalized repository,
 * a missing id reported as NOT_FOUND, the entity flattened into a CarDto.
 * `findById` stands for `CarRepository.findById`; the id is a UUID in its
 * text form.
 */
module GetCarDetailUseCase {
  import opened Nullable
  import opened Text
  import Streams
  import opened Eithers
  import opened Exceptions
  import opened Failures
  import opened Entities
  import Executor = ExecuteUseCase
  import List = GetCarListUseCase

  /** `convertBadgeToDto`: id, name and color copied. */
  function ConvertBadgeToDto(badge: Badge): (dto: BadgeDto)
    ensures dto.id == badge.id && dto.name == badge.name && dto.color == badge.color
  {
    BadgeDto(badge.id, badge.name, badge.color)
  }

  /**
   * `convertToDto`: scalar fields copied, each related entity's fields taken
   * from it or null when it is missing, one BadgeDto per badge in order.
   */
  function ConvertToDto(car: Car): (dto: CarDto)
    ensures dto.id == car.id && dto.year == car.year && dto.mileage == car.mileage && dto.price == car.price
    ensures dto.imageUrl == car.imageUrl && dto.isFeatured == car.isFeatured && dto.isSold == car.isSold
    ensures dto.viewsCount == car.viewsCount && dto.createdAt == car.createdAt
    ensures car.make.None? ==> dto.makeName.None?
    ensures car.make.Some? ==> dto.makeName == car.make.value.name
    ensures car.model.None? ==> dto.modelName.None?
    ensures car.model.Some? ==> dto.modelName == car.model.value.name
    ensures car.trim.None? ==> dto.trimName.None?
    ensures car.trim.Some? ==> dto.trimName == car.trim.value.name
    ensures car.bodyType.None? ==> dto.bodyTypeName.None? && dto.bodyTypeIcon.None?
    ensures car.bodyType.Some? ==> dto.bodyTypeName == car.bodyType.value.name && dto.bodyTypeIcon == car.bodyType.value.icon
    ensures car.transmission.None? ==> dto.transmissionType.None?
    ensures car.transmission.Some? ==> dto.transmissionType == car.transmission.value.transmissionType
    ensures car.condition.None? ==> dto.conditionName.None?
    ensures car.condition.Some? ==> dto.conditionName == car.condition.value.name
    ensures car.dealer.None? ==> dto.dealerName.None? && dto.dealerLocation.None?
    ensures car.dealer.Some? ==> dto.dealerName == car.dealer.value.name && dto.dealerLocation == car.dealer.value.location
    ensures car.badges.None? ==> dto.badges == []
    ensures car.badges.Some? ==> |dto.badges| == |car.badges.value|
    ensures car.badges.Some? ==> forall k :: 0 <= k < |car.badges.value| ==> dto.badges[k] == ConvertBadgeToDto(car.badges.value[k])
  {
    var badges := if car.badges.Some? then Streams.Map(car.badges.value, ConvertBadgeToDto) else [];
    CarDto(
      car.id, car.year, car.mileage, car.price, car.imageUrl,
      MakeName(car), ModelName(car), TrimName(car), BodyTypeName(car), BodyTypeIcon(car), TransmissionType(car),
      ConditionName(car), DealerName(car), DealerLocation(car),
      badges,
      car.isFeatured, car.isSold, car.viewsCount, car.createdAt)
  }

  const DetailTitle := "GetCarDetailUseCase.getCarDetail"
  const DetailFailedMessage := "Không thể lấy thông tin xe"

  /** The supplier run by the executor: the car as a Right, or a ResourceNotFoundException for "Car". */
  function FindCar(carId: Uuid, findById: Uuid -> Attempt<Option<Car>>): Attempt<Either<Failure, CarDto>> {
    match findById(carId)
    case Raised(f) => Raised(f)
    case Returned(None) => Raised(Business(NewNotFoundForId(Some("Car"), carId)))
    case Returned(Some(car)) => Returned(Right(ConvertToDto(car)))
  }

  /** `getCarDetail`. */
  function GetCarDetail(carId: Uuid, findById: Uuid -> Attempt<Option<Car>>): (r: Either<Failure, CarDto>)
    ensures findById(carId).Returned? && findById(carId).value.Some? ==> r == Right(ConvertToDto(findById(carId).value.value))
    ensures findById(carId) == Returned(None) ==>
      r.Left? && r.left.errorCode == Some("NOT_FOUND") && r.left.statusCode == Some(404) &&
      r.left.message == Some(NotFoundMessage(Some("Car"), carId)) && Contains(r.left.message.value, carId)
    ensures findById(carId).Raised? ==> r == Executor.ExecuteDefault(Raised(findById(carId).fault), DetailTitle, Some(DetailFailedMessage))
  {
    Executor.ExecuteBusiness<CarDto>(NewNotFoundForId(Some("Car"), carId), DetailTitle, Some(DetailFailedMessage), None, None);
    Executor.ExecuteDefault(FindCar(carId, findById), DetailTitle, Some(DetailFailedMessage))
  }

  /** The message for a missing car reads "Car với ID <id> không tồn tại". */
  lemma {:induction false} MissingCarMessage(carId: Uuid)
    ensures NotFoundMessage(Some("Car"), carId) == "Car với ID " + carId + " không tồn tại"
  {
  }

  /**
   * The detail and the list conversions agree on every field but the badges
   * when the list row is the car's flattened view row.
   */
  lemma DetailAgreesWithListing(car: Car, badgesJson: Option<string>, parse: string -> Option<seq<BadgeDto>>)
    ensures ConvertToDto(car) == List.ConvertToDto(Flatten(car, badgesJson), parse).(badges := ConvertToDto(car).badges)
  {
  }
}

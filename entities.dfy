/**
 * The shapes of the persisted records the core reads: a row of the
 * denormalized car_listings view (CarListingView.java), the normalized Car
 * entity with the related entities it joins, and the CarDto the use cases
 * return. Identifiers are UUIDs in their text form.
 */
module Entities {
  import opened Nullable

  type Uuid = string

  /** An OffsetDateTime, only ever copied. */
  type Instant = int

  /** A row of the car_listings view: every related entity already flattened into name columns. */
  datatype ListingRow = ListingRow(
    id: Uuid,
    year: Option<int>,
    mileage: Option<int>,
    price: Option<real>,
    imageUrl: Option<string>,
    isFeatured: Option<bool>,
    isSold: Option<bool>,
    viewsCount: Option<int>,
    createdAt: Option<Instant>,
    makeName: Option<string>,
    modelName: Option<string>,
    trimName: Option<string>,
    bodyTypeName: Option<string>,
    bodyTypeIcon: Option<string>,
    transmissionType: Option<string>,
    conditionName: Option<string>,
    dealerName: Option<string>,
    dealerLocation: Option<string>,
    badgesJson: Option<string>)

  datatype Make = Make(id: Uuid, name: Option<string>)
  datatype Model = Model(id: Uuid, name: Option<string>)
  datatype Trim = Trim(id: Uuid, name: Option<string>)
  datatype BodyType = BodyType(id: Uuid, name: Option<string>, icon: Option<string>)
  datatype Transmission = Transmission(id: Uuid, transmissionType: Option<string>)
  datatype Condition = Condition(id: Uuid, name: Option<string>)
  datatype Dealer = Dealer(id: Uuid, name: Option<string>, location: Option<string>)
  datatype Badge = Badge(id: Uuid, name: Option<string>, color: Option<string>)

  /** The Car entity; the badge set is given in its iteration order. */
  datatype Car = Car(
    id: Uuid,
    year: Option<int>,
    mileage: Option<int>,
    price: Option<real>,
    imageUrl: Option<string>,
    make: Option<Make>,
    model: Option<Model>,
    trim: Option<Trim>,
    bodyType: Option<BodyType>,
    transmission: Option<Transmission>,
    condition: Option<Condition>,
    dealer: Option<Dealer>,
    badges: Option<seq<Badge>>,
    isFeatured: Option<bool>,
    isSold: Option<bool>,
    viewsCount: Option<int>,
    createdAt: Option<Instant>)

  datatype BadgeDto = BadgeDto(id: Uuid, name: Option<string>, color: Option<string>)

  datatype CarDto = CarDto(
    id: Uuid,
    year: Option<int>,
    mileage: Option<int>,
    price: Option<real>,
    imageUrl: Option<string>,
    makeName: Option<string>,
    modelName: Option<string>,
    trimName: Option<string>,
    bodyTypeName: Option<string>,
    bodyTypeIcon: Option<string>,
    transmissionType: Option<string>,
    conditionName: Option<string>,
    dealerName: Option<string>,
    dealerLocation: Option<string>,
    badges: seq<BadgeDto>,
    isFeatured: Option<bool>,
    isSold: Option<bool>,
    viewsCount: Option<int>,
    createdAt: Option<Instant>)

  /* The name columns of a car's related entities; null when the entity is missing. */

  function MakeName(car: Car): Option<string> { if car.make.Some? then car.make.value.name else None }
  function ModelName(car: Car): Option<string> { if car.model.Some? then car.model.value.name else None }
  function TrimName(car: Car): Option<string> { if car.trim.Some? then car.trim.value.name else None }
  function BodyTypeName(car: Car): Option<string> { if car.bodyType.Some? then car.bodyType.value.name else None }
  function BodyTypeIcon(car: Car): Option<string> { if car.bodyType.Some? then car.bodyType.value.icon else None }
  function TransmissionType(car: Car): Option<string> {
    if car.transmission.Some? then car.transmission.value.transmissionType else None
  }
  function ConditionName(car: Car): Option<string> { if car.condition.Some? then car.condition.value.name else None }
  function DealerName(car: Car): Option<string> { if car.dealer.Some? then car.dealer.value.name else None }
  function DealerLocation(car: Car): Option<string> { if car.dealer.Some? then car.dealer.value.location else None }

  /**
   * The car_listings row of a car: scalar columns copied, each related
   * entity flattened into its name columns. The view's SQL is not part of
   * this model; this is the correspondence its column names describe.
   */
  function Flatten(car: Car, badgesJson: Option<string>): (row: ListingRow)
    ensures row.id == car.id && row.price == car.price && row.isSold == car.isSold
    ensures car.make.None? ==> row.makeName.None?
    ensures car.model.None? ==> row.modelName.None?
    ensures car.trim.None? ==> row.trimName.None?
    ensures car.bodyType.None? ==> row.bodyTypeName.None? && row.bodyTypeIcon.None?
    ensures car.transmission.None? ==> row.transmissionType.None?
  {
    ListingRow(
      car.id, car.year, car.mileage, car.price, car.imageUrl, car.isFeatured, car.isSold, car.viewsCount, car.createdAt,
      MakeName(car), ModelName(car), TrimName(car), BodyTypeName(car), BodyTypeIcon(car), TransmissionType(car),
      ConditionName(car), DealerName(car), DealerLocation(car), badgesJson)
  }
}

/** Records of the static catalog: tyre products and selectable cars.
    Every field that is optional in the storefront's record types is an Option here. */
module Catalog {

  datatype Option<+T> = None | Some(value: T)

  /** One entry of a product's attribute record: a score name and its
      score, absent when the record leaves the key undefined. The sequence of
      entries keeps the record's own key order. */
  datatype AttributeEntry = AttributeEntry(key: string, score: Option<int>)

  /** A tyre product. Prices, discounts and review counts are integers in
      every catalog record; the star rating is the only fractional field. */
  datatype TireProduct = TireProduct(
    id: string,
    brand: string,
    name: string,
    image: Option<string>,
    rating: real,
    reviews: int,
    attributes: seq<AttributeEntry>,
    tags: Option<seq<string>>,
    price: int,
    oldPrice: Option<int>,
    discountPercent: Option<int>,
    currency: Option<string>,
    compatibleTireSize: string,
    isPopular: Option<bool>)

  /** A car the shopper can pick. Only `title` is mandatory. */
  datatype CarSelection = CarSelection(
    id: Option<string>,
    title: string,
    make: Option<string>,
    model: Option<string>,
    trim: Option<string>,
    subtitle: Option<string>,
    year: Option<int>,
    tireSize: Option<string>,
    color: Option<string>,
    mileageKm: Option<int>,
    selected: Option<bool>)

  /** A tyre fits a car when its size equals the car's tyre size exactly; a car
      without a tyre size fits nothing. */
  predicate Fits(p: TireProduct, car: CarSelection)
  {
    car.tireSize == Some(p.compatibleTireSize)
  }

  /** `product.isPopular` read as a condition: an absent flag is false. */
  predicate IsPopular(p: TireProduct)
  {
    p.isPopular == Some(true)
  }
}

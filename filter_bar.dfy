/** `FilterBarProvider`: the tyres that fit the selected car, arranged by the
    selected tab, and the per-tab counts. */
module FilterBar {
  import opened Catalog
  import opened Sequences

  /** The tab keys. The tab bar casts whatever key it receives to a tab
      without checking it, so a key outside the four is kept as `Unknown`: a
      derivation falls to its `default` branch for it. */
  datatype FilterType = All | Popular | PriceLowHigh | PriceHighLow | Unknown(key: string)

  function FilterKey(f: FilterType): string
  {
    match f
    case All => "all"
    case Popular => "popular"
    case PriceLowHigh => "price_low_high"
    case PriceHighLow => "price_high_low"
    case Unknown(k) => k
  }

  /** The unchecked cast of a key to a tab, as the derivations read it. */
  function ParseFilterKey(key: string): (f: Tab)
    ensures f.Unknown? ==> key !in {"all", "popular", "price_low_high", "price_high_low"}
  {
    if key == "all" then All
    else if key == "popular" then Popular
    else if key == "price_low_high" then PriceLowHigh
    else if key == "price_high_low" then PriceHighLow
    else Unknown(key)
  }

  /** A tab value is well formed unless it is an `Unknown` spelling one of the four keys. */
  predicate WellFormed(f: FilterType)
  {
    f.Unknown? ==> f.key !in {"all", "popular", "price_low_high", "price_high_low"}
  }

  /** The tab values some key denotes: an `Unknown` never carries one of the
      four tab keys, since the cast reads those as their own tabs. */
  type Tab = f: FilterType | WellFormed(f) witness All

  /** Reading a key and writing it back gives the key; writing a well-formed tab and reading it gives the tab. */
  lemma FilterKeyRoundTrip(key: string, f: FilterType)
    ensures FilterKey(ParseFilterKey(key)) == key
    ensures WellFormed(ParseFilterKey(key))
    ensures WellFormed(f) ==> ParseFilterKey(FilterKey(f)) == f
  {
  }

  // ----- Keys of the comparators -----

  /** Most reviews first: ascending by negated reviews. */
  function ReviewsDescending(p: TireProduct): int { -p.reviews }

  /** Cheapest first. */
  function PriceAscending(p: TireProduct): int { p.price }

  /** Dearest first: ascending by negated price. */
  function PriceDescending(p: TireProduct): int { -p.price }

  /** Each comparator of the derivation is the difference of its key, so a
      stable sort ascending by the key orders exactly as the comparator does. */
  lemma ComparatorsAreKeyDifferences(a: TireProduct, b: TireProduct)
    ensures b.reviews - a.reviews == ReviewsDescending(a) - ReviewsDescending(b)
    ensures a.price - b.price == PriceAscending(a) - PriceAscending(b)
    ensures b.price - a.price == PriceDescending(a) - PriceDescending(b)
  {
  }

  function FitsCar(car: CarSelection): TireProduct -> bool
  {
    (p: TireProduct) => Fits(p, car)
  }

  function PopularFlag(): TireProduct -> bool
  {
    (p: TireProduct) => IsPopular(p)
  }

  /** The catalog's tyres that fit the car, in catalog order. */
  function CarProducts(products: seq<TireProduct>, car: CarSelection): seq<TireProduct>
  {
    Filter(products, FitsCar(car))
  }

  /** The popular products of a list. */
  function PopularProducts(products: seq<TireProduct>): seq<TireProduct>
  {
    Filter(products, PopularFlag())
  }

  /** The arrangement the selected tab gives the car's products. */
  function ApplyFilter(carProducts: seq<TireProduct>, f: FilterType): seq<TireProduct>
  {
    match f
    case All => carProducts
    case Popular => SortByKey(PopularProducts(carProducts), ReviewsDescending)
    case PriceLowHigh => SortByKey(carProducts, PriceAscending)
    case PriceHighLow => SortByKey(carProducts, PriceDescending)
    case Unknown(_) => carProducts
  }

  /** The provider's derived list: nothing without a car, otherwise the car's tyres as the tab arranges them. */
  function GetFilteredProducts(products: seq<TireProduct>, selectedCar: Option<CarSelection>, f: FilterType): seq<TireProduct>
  {
    match selectedCar
    case None => []
    case Some(car) => ApplyFilter(CarProducts(products, car), f)
  }

  datatype FilterCounts = FilterCounts(all: nat, popular: nat, priceLowHigh: nat, priceHighLow: nat)

  /** The per-tab counts; they do not depend on the selected tab. */
  function GetFilterCounts(products: seq<TireProduct>, selectedCar: Option<CarSelection>): FilterCounts
  {
    match selectedCar
    case None => FilterCounts(0, 0, 0, 0)
    case Some(car) =>
      var carProducts := CarProducts(products, car);
      FilterCounts(|carProducts|, |PopularProducts(carProducts)|, |carProducts|, |carProducts|)
  }

  /** The count belonging to a tab (the tab bar displays only the `all` count);
      a key outside the four derives like `all`. */
  function CountOf(counts: FilterCounts, f: FilterType): nat
  {
    match f
    case All => counts.all
    case Popular => counts.popular
    case PriceLowHigh => counts.priceLowHigh
    case PriceHighLow => counts.priceHighLow
    case Unknown(_) => counts.all
  }

  // ----- Properties of the derivation -----

  /** With no selected car the list is empty and every count is 0. */
  lemma NoCarNothing(products: seq<TireProduct>, f: FilterType)
    ensures GetFilteredProducts(products, None, f) == []
    ensures GetFilterCounts(products, None) == FilterCounts(0, 0, 0, 0)
  {
  }

  /** Every derived product fits the car, and comes from the catalog; a car
      without a tyre size gets nothing. */
  lemma DerivedProductsFit(products: seq<TireProduct>, car: CarSelection, f: FilterType)
    ensures var r := GetFilteredProducts(products, Some(car), f);
      (forall i :: 0 <= i < |r| ==> Fits(r[i], car) && r[i] in products)
      && (car.tireSize.None? ==> r == [])
  {
    var c := CarProducts(products, car);
    var r := GetFilteredProducts(products, Some(car), f);
    FilterElements(products, FitsCar(car));
    assert forall i :: 0 <= i < |r| ==> r[i] in c by {
      match f
      case Popular =>
        var pool := PopularProducts(c);
        FilterElements(c, PopularFlag());
        SortByKeyElements(pool, ReviewsDescending);
        assert forall i :: 0 <= i < |r| ==> r[i] in pool;
      case PriceLowHigh => SortByKeyElements(c, PriceAscending);
      case PriceHighLow => SortByKeyElements(c, PriceDescending);
      case _ =>
    }
    if car.tireSize.None? {
      FilterDropsAll(products, FitsCar(car));
    }
  }

  /** Tab `all`, and any unknown key: exactly the fitting subsequence of the catalog, in catalog order. */
  lemma AllIsFittingSubsequence(products: seq<TireProduct>, car: CarSelection, f: Tab)
    requires f.All? || f.Unknown?
    ensures var r := GetFilteredProducts(products, Some(car), f);
      r == Filter(products, FitsCar(car))
      && IsSubsequence(r, products)
      && (forall i :: 0 <= i < |products| && Fits(products[i], car) ==> products[i] in r)
  {
    FilterIsSubsequence(products, FitsCar(car));
    FilterElements(products, FitsCar(car));
  }

  /** Tab `popular`: the popular fitting products only, by reviews from most to
      fewest, equal review counts in catalog order. */
  lemma PopularTab(products: seq<TireProduct>, car: CarSelection)
    ensures var r := GetFilteredProducts(products, Some(car), Popular);
      var pool := PopularProducts(CarProducts(products, car));
      multiset(r) == multiset(pool)
      && (forall i :: 0 <= i < |r| ==> IsPopular(r[i]) && Fits(r[i], car))
      && (forall i, j :: 0 <= i < j < |r| ==> r[i].reviews >= r[j].reviews)
      && SameKeyOrder(r, pool, ReviewsDescending)
      && IsSubsequence(pool, products)
  {
    var c := CarProducts(products, car);
    var pool := PopularProducts(c);
    SortByKeyPermutes(pool, ReviewsDescending);
    SortByKeySorted(pool, ReviewsDescending);
    SortByKeyStable(pool, ReviewsDescending);
    PopularPoolFits(products, car);
    PopularPoolIsSubsequence(products, car);
  }

  /** The popular fitting products, sorted, are popular and fit the car. */
  lemma PopularPoolFits(products: seq<TireProduct>, car: CarSelection)
    ensures var r := SortByKey(PopularProducts(CarProducts(products, car)), ReviewsDescending);
      forall i :: 0 <= i < |r| ==> IsPopular(r[i]) && Fits(r[i], car)
  {
    var c := CarProducts(products, car);
    var pool := PopularProducts(c);
    SortByKeyElements(pool, ReviewsDescending);
    FilterElements(c, PopularFlag());
    FilterElements(products, FitsCar(car));
  }

  lemma PopularPoolIsSubsequence(products: seq<TireProduct>, car: CarSelection)
    ensures IsSubsequence(PopularProducts(CarProducts(products, car)), products)
  {
    var c := CarProducts(products, car);
    FilterIsSubsequence(c, PopularFlag());
    FilterIsSubsequence(products, FitsCar(car));
    SubsequenceTransitive(PopularProducts(c), c, products);
  }

  /** Tab `price_low_high`: a permutation of the fitting products, prices
      non-decreasing, equal prices in catalog order. */
  lemma PriceLowHighTab(products: seq<TireProduct>, car: CarSelection)
    ensures var c := CarProducts(products, car);
      var r := GetFilteredProducts(products, Some(car), PriceLowHigh);
      r == SortByKey(c, PriceAscending)
      && multiset(r) == multiset(c)
      && (forall i, j :: 0 <= i < j < |r| ==> r[i].price <= r[j].price)
      && SameKeyOrder(r, c, PriceAscending)
  {
    var c := CarProducts(products, car);
    SortByKeyPermutes(c, PriceAscending);
    SortByKeyStable(c, PriceAscending);
    PricesAscend(c);
  }

  lemma PricesAscend(c: seq<TireProduct>)
    ensures var r := SortByKey(c, PriceAscending);
      forall i, j :: 0 <= i < j < |r| ==> r[i].price <= r[j].price
  {
    var r := SortByKey(c, PriceAscending);
    SortByKeySorted(c, PriceAscending);
    forall i, j | 0 <= i < j < |r| ensures r[i].price <= r[j].price {
      assert PriceAscending(r[i]) <= PriceAscending(r[j]);
    }
  }

  /** Tab `price_high_low`: a permutation of the fitting products, prices
      non-increasing, equal prices in catalog order. */
  lemma PriceHighLowTab(products: seq<TireProduct>, car: CarSelection)
    ensures var c := CarProducts(products, car);
      var r := GetFilteredProducts(products, Some(car), PriceHighLow);
      r == SortByKey(c, PriceDescending)
      && multiset(r) == multiset(c)
      && (forall i, j :: 0 <= i < j < |r| ==> r[i].price >= r[j].price)
      && SameKeyOrder(r, c, PriceDescending)
  {
    var c := CarProducts(products, car);
    SortByKeyPermutes(c, PriceDescending);
    SortByKeyStable(c, PriceDescending);
    PricesDescend(c);
  }

  lemma PricesDescend(c: seq<TireProduct>)
    ensures var r := SortByKey(c, PriceDescending);
      forall i, j :: 0 <= i < j < |r| ==> r[i].price >= r[j].price
  {
    var r := SortByKey(c, PriceDescending);
    SortByKeySorted(c, PriceDescending);
    forall i, j | 0 <= i < j < |r| ensures r[i].price >= r[j].price {
      assert PriceDescending(r[i]) <= PriceDescending(r[j]);
    }
  }

  /** Each tab's count is the length of the list that tab derives; `all` and
      both price tabs count the fitting products, `popular` the popular ones. */
  lemma CountsMatchTabs(products: seq<TireProduct>, selectedCar: Option<CarSelection>, f: FilterType)
    ensures CountOf(GetFilterCounts(products, selectedCar), f) == |GetFilteredProducts(products, selectedCar, f)|
    ensures selectedCar.Some? ==>
      var counts := GetFilterCounts(products, selectedCar);
      var c := CarProducts(products, selectedCar.value);
      counts.all == counts.priceLowHigh == counts.priceHighLow == |c|
      && counts.popular == |PopularProducts(c)|
  {
  }

  /** The state of `FilterBarProvider`: its two props and the `selectedFilter` cell. */
  class FilterBarProvider {
    const products: seq<TireProduct>
    const selectedCar: Option<CarSelection>
    var selectedFilter: Tab

    constructor (products: seq<TireProduct>, selectedCar: Option<CarSelection>)
      ensures this.products == products && this.selectedCar == selectedCar
      ensures selectedFilter == All
    {
      this.products := products;
      this.selectedCar := selectedCar;
      selectedFilter := All;
    }

    method SetSelectedFilter(f: Tab)
      modifies this
      ensures selectedFilter == f
    {
      selectedFilter := f;
    }

    /** The tab bar's selection handler: the received key becomes the tab. */
    method HandleSelectionChange(key: string)
      modifies this
      ensures selectedFilter == ParseFilterKey(key)
      ensures FilterKey(selectedFilter) == key
    {
      FilterKeyRoundTrip(key, All);
      selectedFilter := ParseFilterKey(key);
    }

    /** The value the provider hands to its children. */
    function Context(): (ctx: FilterBarContext)
      reads this
      ensures ctx.selectedFilter == selectedFilter && ctx.selectedCar == selectedCar
      ensures ctx.filteredProducts == GetFilteredProducts(products, selectedCar, selectedFilter)
      ensures |ctx.filteredProducts| == CountOf(ctx.filterCounts, selectedFilter)
    {
      CountsMatchTabs(products, selectedCar, selectedFilter);
      FilterBarContext(selectedFilter, GetFilteredProducts(products, selectedCar, selectedFilter),
                       selectedCar, GetFilterCounts(products, selectedCar))
    }
  }

  datatype FilterBarContext = FilterBarContext(
    selectedFilter: Tab,
    filteredProducts: seq<TireProduct>,
    selectedCar: Option<CarSelection>,
    filterCounts: FilterCounts)
}

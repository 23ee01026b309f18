/** The `Products` grid and the helpers of its `ProductCard`. */
module Products {
  import opened Catalog
  import opened Sequences
  import opened FilterBar

  /** The optional props of `Products`. `selectedCar` has three states:
      `None` is undefined, `Some(None)` is null, `Some(Some(car))` is a car. */
  datatype ProductsProps = ProductsProps(
    products: Option<seq<TireProduct>>,
    selectedCar: Option<Option<CarSelection>>,
    filterType: Option<Tab>)

  /** What the component shows: the hint to pick a car, the "nothing fits"
      message, or a grid of product cards. */
  datatype View = SelectCarHint | NoMatches | Grid(cards: seq<TireProduct>)

  /** A passed list wins over the context's; since any list is truthy, an
      empty passed list is used too. */
  function ResolveProducts(props: ProductsProps, ctx: FilterBarContext): seq<TireProduct>
  {
    match props.products
    case Some(ps) => ps
    case None => ctx.filteredProducts
  }

  /** A passed car wins over the context's unless the prop is undefined; a null prop wins too. */
  function ResolveSelectedCar(props: ProductsProps, ctx: FilterBarContext): Option<CarSelection>
  {
    match props.selectedCar
    case Some(car) => car
    case None => ctx.selectedCar
  }

  /** A passed tab wins over the context's; only an absent or empty key falls back. */
  function ResolveFilterType(props: ProductsProps, ctx: FilterBarContext): Tab
  {
    match props.filterType
    case Some(f) => if FilterKey(f) != "" then f else ctx.selectedFilter
    case None => ctx.selectedFilter
  }

  /** The compatibility filter and the tab `switch`, re-applied to the resolved list. */
  function Rederive(products: seq<TireProduct>, car: CarSelection, f: FilterType): seq<TireProduct>
  {
    ApplyFilter(CarProducts(products, car), f)
  }

  /** What the grid component renders for its props and the filter bar context. */
  function ProductsView(props: ProductsProps, ctx: FilterBarContext): (v: View)
    ensures v == SelectCarHint <==> ResolveSelectedCar(props, ctx).None?
    ensures v == NoMatches ==> ResolveSelectedCar(props, ctx).Some?
    ensures v.Grid? ==> v.cards != []
  {
    match ResolveSelectedCar(props, ctx)
    case None => SelectCarHint
    case Some(car) =>
      var shown := Rederive(ResolveProducts(props, ctx), car, ResolveFilterType(props, ctx));
      if |shown| > 0 then Grid(shown) else NoMatches
  }

  /** With a resolved car, the view is the re-derived list: a grid of exactly
      that list when it is non-empty, and "nothing fits" exactly when it is
      empty. When every prop is passed (and the tab key is not empty), the
      context plays no part in the view. */
  lemma ViewShowsRederivedList(props: ProductsProps, ctx: FilterBarContext, other: FilterBarContext)
    ensures ResolveSelectedCar(props, ctx).Some? ==>
      var shown := Rederive(ResolveProducts(props, ctx), ResolveSelectedCar(props, ctx).value,
                            ResolveFilterType(props, ctx));
      && (ProductsView(props, ctx) == NoMatches <==> shown == [])
      && (shown != [] ==> ProductsView(props, ctx) == Grid(shown))
    ensures props.products.Some? && props.selectedCar.Some? && props.filterType.Some?
            && FilterKey(props.filterType.value) != "" ==>
      ProductsView(props, ctx) == ProductsView(props, other)
  {
  }

  /** What each resolution rule means for the view: a null car prop shows the
      hint whatever the context holds; a passed list, even an empty one, is
      never replaced by the context's; an empty tab key reads the context's tab. */
  lemma PropsPrecedence(props: ProductsProps, ctx: FilterBarContext)
    ensures props.selectedCar == Some(None) ==> ProductsView(props, ctx) == SelectCarHint
    ensures props.products == Some([]) ==> !ProductsView(props, ctx).Grid?
    ensures props.filterType == Some(Unknown("")) ==>
      ProductsView(props, ctx) == ProductsView(props.(filterType := None), ctx)
  {
    if props.products == Some([]) {
      match ResolveSelectedCar(props, ctx)
      case None =>
      case Some(car) =>
        var f := ResolveFilterType(props, ctx);
        assert CarProducts([], car) == [];
        assert Rederive([], car, f) == [];
    }
  }

  /** Every card on the grid fits the resolved car and comes from the resolved list. */
  lemma GridCardsFit(props: ProductsProps, ctx: FilterBarContext)
    ensures var v := ProductsView(props, ctx);
      v.Grid? ==>
        && ResolveSelectedCar(props, ctx).Some?
        && v.cards != []
        && forall i :: 0 <= i < |v.cards| ==>
             Fits(v.cards[i], ResolveSelectedCar(props, ctx).value) && v.cards[i] in ResolveProducts(props, ctx)
  {
    match ResolveSelectedCar(props, ctx)
    case None =>
    case Some(car) =>
      var ps, f := ResolveProducts(props, ctx), ResolveFilterType(props, ctx);
      DerivedProductsFit(ps, car, f);
      assert Rederive(ps, car, f) == GetFilteredProducts(ps, Some(car), f);
  }

  /** Re-deriving the provider's list for the same car and tab returns that
      same list: the compatibility filter keeps everything, and a stable sort
      of an already sorted list is the identity. */
  lemma RederiveIdempotent(products: seq<TireProduct>, car: CarSelection, f: FilterType)
    ensures var l := GetFilteredProducts(products, Some(car), f);
      Rederive(l, car, f) == l
  {
    var l := GetFilteredProducts(products, Some(car), f);
    DerivedProductsFit(products, car, f);
    FilterKeepsAll(l, FitsCar(car));
    var c := CarProducts(products, car);
    match f
    case Popular =>
      var pool := PopularProducts(c);
      PopularTab(products, car);
      FilterKeepsAll(l, PopularFlag());
      SortByKeySorted(pool, ReviewsDescending);
      SortByKeyOfSorted(l, ReviewsDescending);
    case PriceLowHigh =>
      SortByKeyIdempotent(c, PriceAscending);
    case PriceHighLow =>
      SortByKeyIdempotent(c, PriceDescending);
    case _ =>
  }

  /** The page renders `<Products />` with no props inside the provider: the
      grid is then exactly the provider's list, and an empty list with a car
      selected is the "nothing fits" message, not the hint. */
  lemma PageShowsProviderList(products: seq<TireProduct>, selectedCar: Option<CarSelection>, f: Tab)
    ensures var ctx := FilterBarContext(f, GetFilteredProducts(products, selectedCar, f),
                                        selectedCar, GetFilterCounts(products, selectedCar));
      var l := ctx.filteredProducts;
      ProductsView(ProductsProps(None, None, None), ctx) ==
        if selectedCar.None? then SelectCarHint
        else if l == [] then NoMatches
        else Grid(l)
  {
    if selectedCar.Some? {
      RederiveIdempotent(products, selectedCar.value, f);
    }
  }

  // ----- ProductCard helpers -----

  /** The saving against the old price; an absent or zero old price gives no discount. */
  function DiscountAmount(product: TireProduct): (d: int)
    ensures product.oldPrice.Some? && product.oldPrice.value != 0 ==> product.price + d == product.oldPrice.value
    ensures product.oldPrice.None? || product.oldPrice.value == 0 ==> d == 0
  {
    match product.oldPrice
    case Some(was) => if was != 0 then was - product.price else 0
    case None => 0
  }

  /** The label table of `getAttributeLabel`. */
  function AttributeLabels(): map<string, string>
  {
    map[
      "comfort" := "นุ่มเงียบ",
      "handling" := "การควบคุม",
      "fuelEconomy" := "ประหยัดน้ำมัน",
      "durability" := "ทนทาน",
      "noise" := "ลดเสียงรบกวน"]
  }

  /** The display label of a score name: every label is non-empty, so a key in
      the table gets its label and any other key is shown as itself. */
  function AttributeLabel(key: string): (text: string)
    ensures key in AttributeLabels() ==> text == AttributeLabels()[key] && text != key
    ensures key !in AttributeLabels() ==> text == key
  {
    if key in AttributeLabels() && AttributeLabels()[key] != "" then AttributeLabels()[key] else key
  }

  /** An entry is shown when its score is present and positive. */
  predicate Shown(e: AttributeEntry)
  {
    e.score.Some? && e.score.value > 0
  }

  function ShownEntry(): AttributeEntry -> bool
  {
    (e: AttributeEntry) => Shown(e)
  }

  /** The first five shown entries of the record: at most five
      entries, each with a present positive score, in the record's key order;
      none is dropped unless five are already shown. */
  function MainAttributes(entries: seq<AttributeEntry>): (r: seq<AttributeEntry>)
    ensures |r| <= 5
    ensures forall i :: 0 <= i < |r| ==> Shown(r[i])
    ensures IsSubsequence(r, entries)
    ensures |r| < 5 ==> forall i :: 0 <= i < |entries| && Shown(entries[i]) ==> entries[i] in r
    ensures var shown := Filter(entries, ShownEntry());
      |r| == (if |shown| < 5 then |shown| else 5) && r == shown[..|r|]
  {
    var shown := Filter(entries, ShownEntry());
    var n := if |shown| < 5 then |shown| else 5;
    FilterIsSubsequence(entries, ShownEntry());
    FilterElements(entries, ShownEntry());
    PrefixIsSubsequence(shown, n);
    SubsequenceTransitive(shown[..n], shown, entries);
    assert n < 5 ==> shown[..n] == shown;
    shown[..n]
  }
}

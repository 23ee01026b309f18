# Tyre storefront core, modelled in Dafny

This project models the logic behind a tyre storefront page. It covers four
parts:

- **The shopping cart** (`CartProvider`). It keeps a list of product
  snapshots, each with a quantity, and computes the item and price totals.
- **The filter bar** (`FilterBarProvider`). It derives the tyres that fit the
  selected car, arranged by the selected tab: all, popular, price low to
  high, price high to low. It also computes the per-tab counts and holds the
  `selectedFilter` cell.
- **The product grid** (`Products`). It resolves its props against the filter
  bar context, shows the "pick a car" hint when no car is selected, and
  re-derives the list it shows. Its card helpers compute the discount, the
  attribute labels and the main attributes.
- **The car picker** (`CarSelectProvider`). It holds the search and filters
  the car list by it, keeps the selected car first, and clears the search or
  the selected car.

Modules:

- `Catalog`: the records (`TireProduct`, `CarSelection`) and the
  compatibility test.
- `Sequences`: the JavaScript `filter` and stable `sort`, with their laws. The
  sort is an insertion sort by an integer key. `StableSortIsUnique` shows that
  every stable sort by the same key gives the same result.
- `Strings`: ASCII `toLowerCase`, `includes`, and the decimal text of an
  integer.
- `Providers`: the cart.
- `FilterBar`: the derivations and counts, and the provider with its
  `selectedFilter` cell.
- `Products`: the grid.
- `CarSelect`: the car picker.
- `MockData`: the repository's catalog and car list, with concrete
  consequences of the model on that data.

State that the source updates in place becomes a `class`:

- `CartProvider.items`;
- `FilterBarProvider.selectedFilter`;
- the three cells of `CarSelectProvider`.

Each method's new state is tied to a pure function of the old state, and the
module's lemmas prove what that function promises.

Integers are unbounded. Prices and quantities are integers; see "Left out".

## Model

| member | source | states |
|---|---|---|
| Catalog.Fits | test-page/src/components/FilterBar.tsx:36-38 | definition of compatibility (tyre size equals the car's, strictly); its properties are the lemmas `FilterBar.DerivedProductsFit` and `Products.GridCardsFit` |
| Catalog.IsPopular | test-page/src/components/FilterBar.tsx:46 | definition of the popular flag (true only when the flag is set to true); its properties are the lemma `FilterBar.PopularTab` |
| Providers.Incremented | test-page/src/app/providers.tsx:37-42 | every entry with the id gains one unit, the others are unchanged, and the length is kept; used by `Providers.AddedShape` and `Providers.TotalsAfterAdd` |
| Providers.WithQuantity | test-page/src/app/providers.tsx:58-62 | every entry with the id takes the given quantity, the others are unchanged, and the length is kept; used by `Providers.UpdatedShape` |
| Providers.Added | test-page/src/app/providers.tsx:34-47 | definition of the list an add computes; its properties are the lemmas `Providers.AddedShape`, `Providers.AddedValid` and `Providers.TotalsAfterAdd` |
| Providers.Removed | test-page/src/app/providers.tsx:49-51 | definition of the list a removal computes; its properties are the lemmas `Providers.RemovedShape` and `Providers.RemovedValid` |
| Providers.Updated | test-page/src/app/providers.tsx:53-63 | definition of the list an update computes; its properties are the lemmas `Providers.UpdatedShape` and `Providers.UpdatedValid` |
| Providers.TotalItems | test-page/src/app/providers.tsx:65-67 | definition of the unit total; its properties are the lemmas `Providers.TotalItemsAtLeastEntries` and `Providers.TotalsAfterAdd` |
| Providers.TotalPrice | test-page/src/app/providers.tsx:69-71 | definition of the price total; its properties are the lemma `Providers.TotalsAfterAdd` and the contract of `Providers.CartProvider.ClearCart` |
| FilterBar.CarProducts | test-page/src/components/FilterBar.tsx:36-38 | definition of the car's fitting products; its properties are the lemmas `FilterBar.AllIsFittingSubsequence` and `FilterBar.DerivedProductsFit` |
| FilterBar.PopularProducts | test-page/src/components/FilterBar.tsx:46 | definition of the popular pool; its properties are the lemma `FilterBar.PopularTab` |
| FilterBar.ApplyFilter | test-page/src/components/FilterBar.tsx:41-54 | definition of the tab arrangement; its properties are the lemmas `FilterBar.AllIsFittingSubsequence`, `FilterBar.PopularTab`, `FilterBar.PriceLowHighTab` and `FilterBar.PriceHighLowTab` |
| FilterBar.GetFilteredProducts | test-page/src/components/FilterBar.tsx:32-55 | definition of the derived list; its properties are the lemmas `FilterBar.NoCarNothing`, `FilterBar.DerivedProductsFit` and the four tab lemmas |
| FilterBar.GetFilterCounts | test-page/src/components/FilterBar.tsx:57-70 | definition of the counts; its properties are the lemmas `FilterBar.NoCarNothing` and `FilterBar.CountsMatchTabs` |
| FilterBar.CountOf | test-page/src/components/FilterBar.tsx:57-70 | the count belonging to a tab, an unknown key reading the `all` count; tied to the lists by `FilterBar.CountsMatchTabs` |
| FilterBar.FilterKey | test-page/src/components/FilterBar.tsx:9 | the key of each tab, as the tab type's string union spells it; an unknown key is kept as it was. Its properties are the lemma `FilterBar.FilterKeyRoundTrip` |
| FilterBar.ReviewsDescending | test-page/src/components/FilterBar.tsx:47 | the key of the reviews comparator, which Products.tsx:285 repeats: sorting stably by key k stands for the comparator `k(a) - k(b)`, as `FilterBar.ComparatorsAreKeyDifferences` proves |
| FilterBar.PriceAscending | test-page/src/components/FilterBar.tsx:49 | the key of the low-to-high comparator, which Products.tsx:288 repeats: sorting stably by key k stands for the comparator `k(a) - k(b)`, as `FilterBar.ComparatorsAreKeyDifferences` proves |
| FilterBar.PriceDescending | test-page/src/components/FilterBar.tsx:51 | the key of the high-to-low comparator, which Products.tsx:291 repeats: sorting stably by key k stands for the comparator `k(a) - k(b)`, as `FilterBar.ComparatorsAreKeyDifferences` proves |
| FilterBar.ComparatorsAreKeyDifferences | test-page/src/components/FilterBar.tsx:44-51 | each of the three comparators returns exactly the difference of its key for the pair, so a stable ascending sort by the key orders as the comparator does |
| Providers.Requantify | test-page/src/app/providers.tsx:40 | the spread that rewrites the quantity of an entry with the id and leaves any other entry alone (also at providers.tsx:60); its properties are the contracts of `Providers.Incremented` and `Providers.WithQuantity` |
| Products.Shown | test-page/src/components/Products.tsx:43 | an attribute entry is shown exactly when its score is present and positive; its properties are the contract of `Products.MainAttributes` |
| Products.AttributeLabels | test-page/src/components/Products.tsx:31-37 | the five score names and their labels, every label non-empty; its properties are the contract of `Products.AttributeLabel` |
| Products.ResolveProducts | test-page/src/components/Products.tsx:248 | definition of the list resolution; its properties are the lemma `Products.PropsPrecedence` |
| Products.ResolveSelectedCar | test-page/src/components/Products.tsx:249 | definition of the car resolution; its properties are the lemma `Products.PropsPrecedence` and the contract of `Products.ProductsView` |
| Products.ResolveFilterType | test-page/src/components/Products.tsx:250 | definition of the tab resolution; its properties are the lemma `Products.PropsPrecedence` |
| Products.Rederive | test-page/src/components/Products.tsx:273-295 | definition of the grid's own filtering and switch; its properties are the lemmas `Products.RederiveIdempotent`, `Products.GridCardsFit` and `Products.ViewShowsRederivedList` |
| CarSelect.MatchesQuery | test-page/src/components/CarSelect.tsx:80-86 | definition of the search match; its properties are the lemma `CarSelect.MatchIff` |
| CarSelect.Kept | test-page/src/components/CarSelect.tsx:78-86 | definition of the filter callback; its properties are the lemmas `CarSelect.MatchIff` and `CarSelect.EmptyQueryKeepsAll` |
| CarSelect.SelectionKey | test-page/src/components/CarSelect.tsx:87-91 | the comparator as a 0/1 key; its properties are the lemmas `CarSelect.FilterCarsPartition` and `CarSelect.NoCurrentCarKeepsOrder` |
| CarSelect.FilterCars | test-page/src/components/CarSelect.tsx:78-91 | definition of `filteredCars`; its properties are the lemmas `CarSelect.FilterCarsPermutesMatches`, `CarSelect.FilterCarsPartition`, `CarSelect.NoCurrentCarKeepsOrder` and `CarSelect.AfterSelectCarFirst` |
| Sequences.Filter | test-page/src/components/FilterBar.tsx:36-38 | never longer than its input; its properties are the lemmas `Sequences.FilterElements`, `Sequences.FilterIsSubsequence` and `Sequences.FilterIdempotent` |
| Sequences.SortByKey | test-page/src/components/FilterBar.tsx:44-51 | definition of the stable sort; its properties are the lemmas `Sequences.SortByKeyPermutes`, `Sequences.SortByKeySorted`, `Sequences.SortByKeyStable` and `Sequences.StableSortIsUnique` |
| Strings.ToLower | test-page/src/components/CarSelect.tsx:81 | keeps the length and lowers each ASCII capital letter, leaving every other character alone |
| Strings.Includes | test-page/src/components/CarSelect.tsx:82-85 | definition of `includes`; its properties are the lemma `Strings.IncludesIff` |
| Strings.IntToDecimal | test-page/src/components/CarSelect.tsx:82 | definition of the year's text; its properties are the lemma `Strings.IntToDecimalRoundTrip` |
| Providers.Find | test-page/src/app/providers.tsx:36 | `find` by id returns nothing exactly when no entry has the id; otherwise it returns the first entry with that id |
| Providers.AddedShape | test-page/src/app/providers.tsx:34-47 | adding an unknown id appends one entry with quantity 1; adding a known id adds one to that entry's quantity only, keeps every stored snapshot and the length |
| Providers.RemovedShape | test-page/src/app/providers.tsx:49-51 | removing an id keeps a subsequence that holds no entry with that id and keeps every other entry; an absent id leaves the cart as it was |
| Providers.UpdatedShape | test-page/src/app/providers.tsx:53-63 | a quantity of 0 or less removes the id; a positive quantity rewrites only that id's quantities, changes no snapshot and adds no entry |
| Providers.AddedValid | test-page/src/app/providers.tsx:34-47 | adding keeps the cart invariant: one entry per id, quantities at least 1 |
| Providers.RemovedValid | test-page/src/app/providers.tsx:49-51 | removing keeps the cart invariant |
| Providers.UpdatedValid | test-page/src/app/providers.tsx:53-63 | updating keeps the cart invariant, including for zero or negative quantities |
| Providers.TotalItemsAtLeastEntries | test-page/src/app/providers.tsx:65-67 | with positive quantities there are at least as many units as entries |
| Providers.TotalsAfterAdd | test-page/src/app/providers.tsx:34-47 | after an add the unit total grows by one; the price total grows by the price stored for that id (the old snapshot's price if the id was present) |
| Providers.CartProvider.constructor | test-page/src/app/providers.tsx:32 | the cart starts empty and valid |
| Providers.CartProvider.GetTotalItems | test-page/src/app/providers.tsx:65-67 | the sum of the quantities, at least the number of entries |
| Providers.CartProvider.GetTotalPrice | test-page/src/app/providers.tsx:69-71 | the sum of price times quantity over the entries |
| Providers.CartProvider.AddToCart | test-page/src/app/providers.tsx:34-47 | the new cart is the added list; the invariant holds; units grow by one and the price total by the stored price |
| Providers.CartProvider.RemoveFromCart | test-page/src/app/providers.tsx:49-51 | the id is gone, the invariant holds, and an absent id changes nothing |
| Providers.CartProvider.UpdateQuantity | test-page/src/app/providers.tsx:53-63 | a quantity of 0 or less removes the id, otherwise it sets that id's quantity; the invariant holds |
| Providers.CartProvider.ClearCart | test-page/src/app/providers.tsx:73-75 | the cart is empty and both totals are 0 |
| FilterBar.ParseFilterKey | test-page/src/components/FilterBar.tsx:100-102 | a key becomes `Unknown` only when it is none of the four tab keys |
| FilterBar.FilterKeyRoundTrip | test-page/src/components/FilterBar.tsx:9 | reading a key and writing it back gives the key; writing a well-formed tab and reading it back gives the tab |
| FilterBar.NoCarNothing | test-page/src/components/FilterBar.tsx:33-34 | with no selected car the list is empty and every count is 0 |
| FilterBar.DerivedProductsFit | test-page/src/components/FilterBar.tsx:32-55 | on every tab, each derived product fits the car and comes from the catalog; a car without a tyre size gets nothing |
| FilterBar.AllIsFittingSubsequence | test-page/src/components/FilterBar.tsx:36-43 | the `all` tab and any unknown key give exactly the fitting products, in catalog order, none missing |
| FilterBar.PopularTab | test-page/src/components/FilterBar.tsx:44-47 | the popular tab holds exactly the popular fitting products (as a multiset), most reviews first, equal review counts in catalog order |
| FilterBar.PriceLowHighTab | test-page/src/components/FilterBar.tsx:48-49 | a permutation of the fitting products, prices non-decreasing, equal prices in catalog order |
| FilterBar.PriceHighLowTab | test-page/src/components/FilterBar.tsx:50-51 | a permutation of the fitting products, prices non-increasing, equal prices in catalog order |
| FilterBar.CountsMatchTabs | test-page/src/components/FilterBar.tsx:57-70 | each tab's count is the length of the list that tab derives; `all` and both price tabs count the fitting products, `popular` counts the popular ones |
| FilterBar.FilterBarProvider.constructor | test-page/src/components/FilterBar.tsx:30 | the tab starts at `all` |
| FilterBar.FilterBarProvider.SetSelectedFilter | test-page/src/components/FilterBar.tsx:30 | the tab cell takes the given tab value; an `Unknown` carrying one of the four tab keys is not a tab value, so the cell cannot hold one |
| FilterBar.FilterBarProvider.HandleSelectionChange | test-page/src/components/FilterBar.tsx:100-102 | the tab becomes the parsed key, and its key is the one received |
| FilterBar.FilterBarProvider.Context | test-page/src/components/FilterBar.tsx:76-82 | the context carries the current tab, the car, the derived list, and counts where the current tab's count equals the list's length |
| Products.ProductsView | test-page/src/components/Products.tsx:245-323 | the hint appears exactly when the resolved car is absent or null; "nothing fits" only with a car; a grid is never empty |
| Products.PropsPrecedence | test-page/src/components/Products.tsx:248-250 | a null car prop shows the hint whatever the context holds; a passed empty list never shows a grid; an empty tab key reads the context's tab |
| Products.GridCardsFit | test-page/src/components/Products.tsx:273-320 | every card shown fits the resolved car and comes from the resolved list |
| Products.RederiveIdempotent | test-page/src/components/Products.tsx:273-295 | re-deriving the provider's list for the same car and tab returns that list unchanged |
| Products.PageShowsProviderList | test-page/src/components/Products.tsx:245-323 | with no props inside the provider: the hint without a car, otherwise exactly the provider's list, or "nothing fits" when it is empty |
| Products.ViewShowsRederivedList | test-page/src/components/Products.tsx:245-320 | with a resolved car the grid is exactly the re-derived list, and "nothing fits" appears exactly when that list is empty; with every prop passed and a non-empty tab key, the context does not affect the view |
| Products.DiscountAmount | test-page/src/components/Products.tsx:27 | with an old price other than 0, price plus discount equals the old price; otherwise the discount is 0 |
| Products.AttributeLabel | test-page/src/components/Products.tsx:30-39 | a known key gets its own label, which differs from the key; any other key is shown as itself |
| Products.MainAttributes | test-page/src/components/Products.tsx:42-44 | exactly the first five shown entries (all of them when fewer are shown), each with a positive score, in record order |
| CarSelect.MatchIff | test-page/src/components/CarSelect.tsx:78-86 | with a non-empty query, a car is kept exactly when the lowered query occurs in its year text, or in its lowered model, make or title |
| CarSelect.EmptyQueryKeepsAll | test-page/src/components/CarSelect.tsx:79 | an empty query keeps every car |
| CarSelect.FilterCarsPermutesMatches | test-page/src/components/CarSelect.tsx:78-91 | the list is a permutation of the matching cars |
| CarSelect.FilterCarsPartition | test-page/src/components/CarSelect.tsx:87-91 | the matching cars with the current car's id come first, then the other matching cars, each group in catalog order |
| CarSelect.EmptyQueryPartition | test-page/src/components/CarSelect.tsx:78-91 | with an empty query, that partition covers the whole car list |
| CarSelect.NoCurrentCarKeepsOrder | test-page/src/components/CarSelect.tsx:87-91 | with no current car the list is the matching cars in catalog order |
| CarSelect.DistinctIdsUnique | test-page/src/data/navbarMock.ts:15-26 | in a list with distinct ids, no other car shares any car's id |
| CarSelect.SameIdIsOne | test-page/src/components/CarSelect.tsx:87-91 | when car `k`'s id is unique, only car `k` has that id |
| CarSelect.OtherIdsAreTheRest | test-page/src/components/CarSelect.tsx:87-91 | when car `k`'s id is unique, the cars with another id are all the others, in order |
| CarSelect.AfterSelectCarFirst | test-page/src/components/CarSelect.tsx:87-97 | right after picking car `k`, when its id is unique, the list is car `k` followed by the other cars in catalog order |
| CarSelect.CarSelectProvider.constructor | test-page/src/components/CarSelect.tsx:53-56 | no car, dropdown closed, empty query |
| CarSelect.CarSelectProvider.FilteredCars | test-page/src/components/CarSelect.tsx:78-91 | the list is a permutation of the cars that match the current query |
| CarSelect.CarSelectProvider.SetSearchQuery | test-page/src/components/CarSelect.tsx:56 | only the query changes |
| CarSelect.CarSelectProvider.SetIsDropdownOpen | test-page/src/components/CarSelect.tsx:55 | only the dropdown flag changes |
| CarSelect.CarSelectProvider.HandleCarSelect | test-page/src/components/CarSelect.tsx:93-97 | the car is current, the dropdown is closed and the query empty; the list is every car, with the same-id cars first and then the rest, each group in order |
| CarSelect.CarSelectProvider.ClearSearch | test-page/src/components/CarSelect.tsx:99 | the query is empty; nothing else changes |
| CarSelect.CarSelectProvider.ClearCar | test-page/src/components/CarSelect.tsx:101-105 | no car, dropdown closed, empty query; the list is the car list as given |
| Sequences.FilterElements | test-page/src/components/FilterBar.tsx:36-38 | `filter` keeps exactly the elements that pass the test, each taken from the input |
| Sequences.FilterIsSubsequence | test-page/src/components/FilterBar.tsx:36-38 | `filter` keeps the input's order |
| Sequences.FilterIdempotent | test-page/src/components/FilterBar.tsx:36-38 | filtering twice by the same test is filtering once |
| Sequences.SortByKeyPermutes | test-page/src/components/FilterBar.tsx:44-51 | the sort is a permutation |
| Sequences.SortByKeySorted | test-page/src/components/FilterBar.tsx:44-51 | the sort's keys are non-decreasing |
| Sequences.SortByKeyStable | test-page/src/components/FilterBar.tsx:44-51 | elements with equal keys keep their relative order |
| Sequences.StableSortIsUnique | test-page/src/components/FilterBar.tsx:44-51 | any sorted sequence with the same keyed groups in the same order is the sort's result |
| Sequences.SortByKeyIdempotent | test-page/src/components/FilterBar.tsx:44-51 | sorting twice is sorting once |
| Sequences.SortByBinaryKeyPartitions | test-page/src/components/CarSelect.tsx:87-91 | sorting by a 0/1 key puts the key-0 group, in order, before the key-1 group, in order |
| Strings.IncludesIff | test-page/src/components/CarSelect.tsx:80-86 | `includes` holds exactly when the query occurs at some position |
| Strings.IntToDecimalRoundTrip | test-page/src/components/CarSelect.tsx:82 | the year's decimal text is a sign and digits, and it reads back as the year |
| MockData.Car1Counts | test-page/src/data/pageMock.ts:55 | for the 2025 Honda Accord the catalog yields 7 fitting tyres, matching the `all` tab's count, 5 of them popular |
| MockData.Car1PopularTab | test-page/src/data/pageMock.ts:75-494 | the Accord's popular tab lists the five popular tyres, most reviewed first |
| MockData.CarIdsDistinct | test-page/src/data/navbarMock.ts:15-26 | every car in the list has an id, and the ids are distinct |
| MockData.SelectC200 | test-page/src/data/navbarMock.ts:16-25 | picking the Mercedes-Benz C200, the last car, moves it to the head and keeps the other nine in order |
| MockData.CartScenario | test-page/src/app/providers.tsx:34-71 | adding the same tyre twice and another once gives two entries, three units and a total of 8800 |

## Left out

- Floating point: quantities and prices are integers, so a fractional or NaN quantity, a fractional price, and the rating's percentage width are not modelled.
- Letter case: `toLowerCase` is modelled for ASCII only, and Unicode case mapping is not modelled. The fields the search lowers are ASCII in the car catalog: the title, make and model (the year is digits). The Thai subtitles are not searched. The typed query is lowered too, and JavaScript applies full Unicode case mapping to it, which the model does not: U+212A KELVIN SIGN, for instance, lowers to an ASCII `k` in JavaScript but is unchanged in the model.
- Formatting: `toLocaleString`, currency symbols and the card's visual output are presentation and are left out.
- Browser behaviour: scroll and touch handlers, the click-outside listener, refs, focus, and the add-to-cart "adding"/"added" timers are left out.
- Other files: `TyreFilter`, `GuideCard`, `Navbar`, the layout, the page and the configuration are outside the core. As written, the page (test-page/src/app/page.tsx:23) renders `CarSelectProvider` without `carOptions`, so the filter on the car list (CarSelect.tsx:78) would throw on the provider's first render. The model supplies the car list as a parameter of `CarSelectProvider` instead.
- Attribute narrowing: `TyreFilter` reads `tyreFilterSelections` and its setter from the filter-bar context (TyreFilter.tsx:40), but the context provides neither (FilterBar.tsx:11-17, 75-81). So no choice is stored, and nothing narrows the product list or the tab counts. The model follows the code.
- React: batching and functional updaters are modelled as sequential updates of the state cells, and re-rendering is modelled by recomputing the derived values from the cells.
- Products.AttributeLabel: a key inherited from `Object.prototype`, such as `constructor`, is treated like any other unknown key instead of resolving to the inherited member.
- FilterBar.FilterBarProvider.HandleSelectionChange: the tab bar's key may also be a number; only string keys are modelled.
- CarSelect.FilterCars: the comparator returns -1 for any pair whose first car has the current id, including the current car compared with itself. That breaks the reflexivity ECMA-262 requires of a consistent comparator (section 23.1.3.30: comparing a value with itself gives 0), even when the current id is unique, so the order an engine produces is implementation-defined. The stable partition the model uses is what an engine produces when it never compares an element with itself and, among the cars, at most one has the current id. The model uses the stable 0/1 key such a comparator is meant to express. CarSelect.AfterSelectCarFirst therefore requires the picked car's id to be unique, which holds for the catalog (`MockData.CarIdsDistinct`).
- The catalog is never mutated by the derivations. This holds by value semantics and needs no lemma.
- The counts do not depend on the selected tab: `FilterBar.GetFilterCounts` takes no tab argument, so this holds by construction.

/** `CarSelectProvider`: the car search and the three state cells of the car picker. */
module CarSelect {
  import opened Catalog
  import opened Sequences
  import opened Strings

  /** The lowered query occurs in the year's decimal text, or in the lowered
      model, make or title. An absent field matches nothing. */
  predicate MatchesQuery(car: CarSelection, query: string)
  {
    var q := ToLower(query);
    || (car.year.Some? && Includes(IntToDecimal(car.year.value), q))
    || (car.model.Some? && Includes(ToLower(car.model.value), q))
    || (car.make.Some? && Includes(ToLower(car.make.value), q))
    || Includes(ToLower(car.title), q)
  }

  /** Whether the search keeps a car: an empty query keeps every car. */
  predicate Kept(car: CarSelection, query: string)
  {
    query == "" || MatchesQuery(car, query)
  }

  function KeptFor(query: string): CarSelection -> bool
  {
    (car: CarSelection) => Kept(car, query)
  }

  /** The comparator that ranks the current car first, as a key: 0 for a car whose id equals the current car's, 1 otherwise.
      With no current car every key is 1, which leaves the order alone. */
  function SelectionKey(currentCar: Option<CarSelection>): CarSelection -> int
  {
    (car: CarSelection) => if currentCar.Some? && car.id == currentCar.value.id then 0 else 1
  }

  /** `filteredCars`: the matching cars, stably sorted so the current car comes first. */
  function FilterCars(carOptions: seq<CarSelection>, query: string, currentCar: Option<CarSelection>): seq<CarSelection>
  {
    SortByKey(Filter(carOptions, KeptFor(query)), SelectionKey(currentCar))
  }

  /** The cars whose id is (or is not) the current car's. */
  function SameIdAs(car: CarSelection): CarSelection -> bool
  {
    (c: CarSelection) => c.id == car.id
  }

  function OtherIdThan(car: CarSelection): CarSelection -> bool
  {
    (c: CarSelection) => c.id != car.id
  }

  // ----- The search -----

  /** `q` occurs at some position of `s`. */
  ghost predicate OccursIn(q: string, s: string)
  {
    exists i :: OccursAt(s, q, i)
  }

  /** With a non-empty query a car is kept exactly when the lowered query occurs
      at some position of its year text, lowered model, make or title. */
  lemma MatchIff(car: CarSelection, query: string)
    requires query != ""
    ensures Kept(car, query) <==>
      || (car.year.Some? && OccursIn(ToLower(query), IntToDecimal(car.year.value)))
      || (car.model.Some? && OccursIn(ToLower(query), ToLower(car.model.value)))
      || (car.make.Some? && OccursIn(ToLower(query), ToLower(car.make.value)))
      || OccursIn(ToLower(query), ToLower(car.title))
  {
    var q := ToLower(query);
    if car.year.Some? {
      IncludesIff(IntToDecimal(car.year.value), q);
    }
    if car.model.Some? {
      IncludesIff(ToLower(car.model.value), q);
    }
    if car.make.Some? {
      IncludesIff(ToLower(car.make.value), q);
    }
    IncludesIff(ToLower(car.title), q);
  }

  /** The filtered list is a permutation of the matching cars. */
  lemma FilterCarsPermutesMatches(carOptions: seq<CarSelection>, query: string, currentCar: Option<CarSelection>)
    ensures multiset(FilterCars(carOptions, query, currentCar)) == multiset(Filter(carOptions, KeptFor(query)))
  {
    SortByKeyPermutes(Filter(carOptions, KeptFor(query)), SelectionKey(currentCar));
  }

  /** An empty query keeps every car. */
  lemma EmptyQueryKeepsAll(carOptions: seq<CarSelection>, currentCar: Option<CarSelection>)
    ensures Filter(carOptions, KeptFor("")) == carOptions
    ensures multiset(FilterCars(carOptions, "", currentCar)) == multiset(carOptions)
  {
    FilterKeepsAll(carOptions, KeptFor(""));
    FilterCarsPermutesMatches(carOptions, "", currentCar);
  }

  /** The matching cars with the current car's id come first, then the other
      matching cars; both groups keep catalog order. */
  lemma FilterCarsPartition(carOptions: seq<CarSelection>, query: string, car: CarSelection)
    ensures var matched := Filter(carOptions, KeptFor(query));
      FilterCars(carOptions, query, Some(car)) == Filter(matched, SameIdAs(car)) + Filter(matched, OtherIdThan(car))
  {
    var matched := Filter(carOptions, KeptFor(query));
    var key := SelectionKey(Some(car));
    SortByBinaryKeyPartitions(matched, key);
    KeyClassIsFilter(matched, key, 0, SameIdAs(car));
    KeyClassIsFilter(matched, key, 1, OtherIdThan(car));
  }

  /** With the query empty, the partition is of the whole car list. */
  lemma EmptyQueryPartition(carOptions: seq<CarSelection>, car: CarSelection)
    ensures FilterCars(carOptions, "", Some(car)) == Filter(carOptions, SameIdAs(car)) + Filter(carOptions, OtherIdThan(car))
  {
    FilterCarsPartition(carOptions, "", car);
    FilterKeepsAll(carOptions, KeptFor(""));
  }

  lemma {:induction false} KeyClassIsFilter(s: seq<CarSelection>, key: CarSelection -> int, k: int, p: CarSelection -> bool)
    requires forall c :: key(c) == k <==> p(c)
    ensures KeyClass(s, key, k) == Filter(s, p)
  {
    if s != [] {
      KeyClassIsFilter(s[1..], key, k, p);
      KeyClassCons(s, key, k);
    }
  }

  /** With no current car the result is the matching subsequence in catalog order. */
  lemma NoCurrentCarKeepsOrder(carOptions: seq<CarSelection>, query: string)
    ensures FilterCars(carOptions, query, None) == Filter(carOptions, KeptFor(query))
    ensures IsSubsequence(FilterCars(carOptions, query, None), carOptions)
  {
    var matched := Filter(carOptions, KeptFor(query));
    SortByKeySorted(matched, SelectionKey(None));
    SortByKeyOfSorted(matched, SelectionKey(None));
    FilterIsSubsequence(carOptions, KeptFor(query));
  }

  /** Car ids are present and distinct, as in the car catalog. */
  predicate DistinctIds(cars: seq<CarSelection>)
  {
    && (forall i :: 0 <= i < |cars| ==> cars[i].id.Some?)
    && (forall i, j :: 0 <= i < j < |cars| ==> cars[i].id != cars[j].id)
  }

  /** No car other than car `k` shares car `k`'s id. */
  predicate UniqueIdAt(cars: seq<CarSelection>, k: nat)
    requires k < |cars|
  {
    forall i :: 0 <= i < |cars| && i != k ==> cars[i].id != cars[k].id
  }

  /** Distinct ids make every position's id unique. */
  lemma DistinctIdsUnique(cars: seq<CarSelection>, k: nat)
    requires k < |cars| && DistinctIds(cars)
    ensures UniqueIdAt(cars, k)
  {
    forall i | 0 <= i < |cars| && i != k ensures cars[i].id != cars[k].id {
      if i < k {
        assert cars[i].id != cars[k].id;
      } else {
        assert cars[k].id != cars[i].id;
      }
    }
  }

  /** Around car `k`, every car before and after it has another id. */
  lemma OthersHaveOtherIds(carOptions: seq<CarSelection>, k: nat)
    requires k < |carOptions| && UniqueIdAt(carOptions, k)
    ensures var before, after := carOptions[..k], carOptions[k + 1..];
      && carOptions == before + [carOptions[k]] + after
      && (forall i :: 0 <= i < |before| ==> OtherIdThan(carOptions[k])(before[i]))
      && (forall i :: 0 <= i < |after| ==> OtherIdThan(carOptions[k])(after[i]))
  {
    var before, after := carOptions[..k], carOptions[k + 1..];
    assert carOptions == before + [carOptions[k]] + after;
    forall i | 0 <= i < |before| ensures OtherIdThan(carOptions[k])(before[i]) {
      assert before[i] == carOptions[i];
    }
    forall i | 0 <= i < |after| ensures OtherIdThan(carOptions[k])(after[i]) {
      assert after[i] == carOptions[k + 1 + i];
    }
  }

  /** ... so only car `k` itself has car `k`'s id. */
  lemma SameIdIsOne(carOptions: seq<CarSelection>, k: nat)
    requires k < |carOptions| && UniqueIdAt(carOptions, k)
    ensures Filter(carOptions, SameIdAs(carOptions[k])) == [carOptions[k]]
  {
    var car := carOptions[k];
    var before, after := carOptions[..k], carOptions[k + 1..];
    OthersHaveOtherIds(carOptions, k);
    FilterKeepsOne(before, car, after, SameIdAs(car));
  }

  /** ... and every other car has another id. */
  lemma OtherIdsAreTheRest(carOptions: seq<CarSelection>, k: nat)
    requires k < |carOptions| && UniqueIdAt(carOptions, k)
    ensures Filter(carOptions, OtherIdThan(carOptions[k])) == carOptions[..k] + carOptions[k + 1..]
  {
    var car := carOptions[k];
    var before, after := carOptions[..k], carOptions[k + 1..];
    OthersHaveOtherIds(carOptions, k);
    FilterDropsOne(before, car, after, OtherIdThan(car));
  }

  /** Right after picking catalog car `k` (the query is then empty), the list is
      that car followed by all the others in catalog order. It needs only that
      no other car shares car `k`'s id; distinct ids, as in the car catalog,
      give that for every `k`. */
  lemma AfterSelectCarFirst(carOptions: seq<CarSelection>, k: nat)
    requires k < |carOptions| && UniqueIdAt(carOptions, k)
    ensures FilterCars(carOptions, "", Some(carOptions[k])) == [carOptions[k]] + carOptions[..k] + carOptions[k + 1..]
  {
    EmptyQueryPartition(carOptions, carOptions[k]);
    SameIdIsOne(carOptions, k);
    OtherIdsAreTheRest(carOptions, k);
  }

  /** The three state cells of `CarSelectProvider` and their updates. */
  class CarSelectProvider {
    const carOptions: seq<CarSelection>
    var currentCar: Option<CarSelection>
    var isDropdownOpen: bool
    var searchQuery: string

    constructor (carOptions: seq<CarSelection>)
      ensures this.carOptions == carOptions
      ensures currentCar == None && !isDropdownOpen && searchQuery == ""
    {
      this.carOptions := carOptions;
      currentCar := None;
      isDropdownOpen := false;
      searchQuery := "";
    }

    /** `filteredCars`, recomputed from the current cells. */
    function FilteredCars(): (cars: seq<CarSelection>)
      reads this
      ensures multiset(cars) == multiset(Filter(carOptions, KeptFor(searchQuery)))
    {
      FilterCarsPermutesMatches(carOptions, searchQuery, currentCar);
      FilterCars(carOptions, searchQuery, currentCar)
    }

    method SetSearchQuery(query: string)
      modifies this`searchQuery
      ensures searchQuery == query
    {
      searchQuery := query;
    }

    method SetIsDropdownOpen(open: bool)
      modifies this`isDropdownOpen
      ensures isDropdownOpen == open
    {
      isDropdownOpen := open;
    }

    method HandleCarSelect(car: CarSelection)
      modifies this`currentCar, this`isDropdownOpen, this`searchQuery
      ensures currentCar == Some(car) && !isDropdownOpen && searchQuery == ""
      ensures multiset(FilteredCars()) == multiset(carOptions)
      ensures FilteredCars() == Filter(carOptions, SameIdAs(car)) + Filter(carOptions, OtherIdThan(car))
    {
      currentCar := Some(car);
      isDropdownOpen := false;
      searchQuery := "";
      EmptyQueryKeepsAll(carOptions, currentCar);
      EmptyQueryPartition(carOptions, car);
    }

    /** Only the query changes. */
    method ClearSearch()
      modifies this`searchQuery
      ensures searchQuery == ""
    {
      searchQuery := "";
    }

    method ClearCar()
      modifies this`currentCar, this`isDropdownOpen, this`searchQuery
      ensures currentCar == None && !isDropdownOpen && searchQuery == ""
      ensures FilteredCars() == carOptions
    {
      currentCar := None;
      isDropdownOpen := false;
      searchQuery := "";
      NoCurrentCarKeepsOrder(carOptions, "");
      EmptyQueryKeepsAll(carOptions, None);
    }
  }
}

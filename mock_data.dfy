/** The storefront's fixture data: the tyre catalog and the car list, with
    concrete checks of the derivations against them. */
module MockData {
  import opened Catalog
  import opened Sequences
  import opened FilterBar
  import opened Providers
  import opened CarSelect

  // ----- The tyre catalog (`pageMock.products`) -----

  // test-page/src/data/pageMock.ts:76
  const PetlasPt3111 := TireProduct("petlas-pt311-1", "Petlas", "Petlas Elegant PT311", Some("/images/petlas-pt311.png"), 4.8, 423,
      [AttributeEntry("comfort", Some(4)), AttributeEntry("handling", Some(4)), AttributeEntry("fuelEconomy", Some(4)), AttributeEntry("durability", Some(4)), AttributeEntry("noise", Some(4))],
      Some(["รถ EV", "Run Flat"]), 2340, Some(2750), Some(15), Some("฿"), "225/50R17", Some(true))

  // test-page/src/data/pageMock.ts:92
  const MichelinPrimacy1 := TireProduct("michelin-primacy-1", "Michelin", "Michelin Primacy 4", Some("/images/michelin-primacy.png"), 4.9, 1024,
      [AttributeEntry("comfort", Some(5)), AttributeEntry("handling", Some(5)), AttributeEntry("fuelEconomy", Some(4)), AttributeEntry("durability", Some(5)), AttributeEntry("noise", Some(5))],
      Some(["รถ EV", "ประหยัดน้ำมัน", "Run Flat"]), 4120, Some(4500), Some(8), Some("฿"), "225/50R17", Some(true))

  // test-page/src/data/pageMock.ts:108
  const YokohamaAdv1 := TireProduct("yokohama-adv-1", "Yokohama", "Yokohama BluEarth GT AE51", Some("/images/yokohama-premium.png"), 4.6, 312,
      [AttributeEntry("comfort", Some(4)), AttributeEntry("handling", Some(4)), AttributeEntry("fuelEconomy", Some(4)), AttributeEntry("durability", Some(4)), AttributeEntry("noise", Some(3))],
      Some(["รถ EV"]), 2480, Some(2800), Some(11), Some("฿"), "225/50R17", Some(false))

  // test-page/src/data/pageMock.ts:124
  const BridgestoneTuranza1 := TireProduct("bridgestone-turanza-1", "Bridgestone", "Bridgestone Turanza T005A", Some("/images/bridgestone-turanza.png"), 4.7, 567,
      [AttributeEntry("comfort", Some(4)), AttributeEntry("handling", Some(4)), AttributeEntry("fuelEconomy", Some(5)), AttributeEntry("durability", Some(4)), AttributeEntry("noise", Some(4))],
      Some(["ประหยัดน้ำมัน"]), 3200, Some(3600), Some(11), Some("฿"), "225/50R17", Some(false))

  // test-page/src/data/pageMock.ts:140
  const ContinentalPremium1 := TireProduct("continental-premium-1", "Continental", "Continental PremiumContact 6", Some("/images/continental-premium.png"), 4.8, 789,
      [AttributeEntry("comfort", Some(5)), AttributeEntry("handling", Some(5)), AttributeEntry("fuelEconomy", Some(4)), AttributeEntry("durability", Some(4)), AttributeEntry("noise", Some(4))],
      Some(["Run Flat"]), 3850, Some(4200), Some(8), Some("฿"), "225/50R17", Some(true))

  // test-page/src/data/pageMock.ts:158
  const PetlasPt311Corolla := TireProduct("petlas-pt311-corolla", "Petlas", "Petlas Elegant PT311", Some("/images/petlas-pt311.png"), 4.6, 234,
      [AttributeEntry("comfort", Some(4)), AttributeEntry("handling", Some(4)), AttributeEntry("fuelEconomy", Some(4)), AttributeEntry("durability", Some(4)), AttributeEntry("noise", Some(4))],
      Some([]), 1890, Some(2200), Some(14), Some("฿"), "195/65R15", Some(true))

  // test-page/src/data/pageMock.ts:174
  const MichelinEnergyCorolla := TireProduct("michelin-energy-corolla", "Michelin", "Michelin Energy XM2+", Some("/images/michelin-energy.png"), 4.8, 687,
      [AttributeEntry("comfort", Some(5)), AttributeEntry("handling", Some(4)), AttributeEntry("fuelEconomy", Some(5)), AttributeEntry("durability", Some(5)), AttributeEntry("noise", Some(4))],
      Some(["ประหยัดน้ำมัน"]), 2650, Some(2900), Some(9), Some("฿"), "195/65R15", Some(true))

  // test-page/src/data/pageMock.ts:190
  const YokohamaBluearthCorolla := TireProduct("yokohama-bluearth-corolla", "Yokohama", "Yokohama BluEarth AE-01", Some("/images/yokohama-bluearth.png"), 4.5, 345,
      [AttributeEntry("comfort", Some(4)), AttributeEntry("handling", Some(4)), AttributeEntry("fuelEconomy", Some(5)), AttributeEntry("durability", Some(4)), AttributeEntry("noise", Some(3))],
      Some(["ประหยัดน้ำมัน"]), 2150, Some(2400), Some(10), Some("฿"), "195/65R15", Some(false))

  // test-page/src/data/pageMock.ts:208
  const MichelinPilotBmw := TireProduct("michelin-pilot-bmw", "Michelin", "Michelin Pilot Sport 4", Some("/images/michelin-pilot.png"), 4.9, 1456,
      [AttributeEntry("comfort", Some(4)), AttributeEntry("handling", Some(5)), AttributeEntry("fuelEconomy", Some(3)), AttributeEntry("durability", Some(4)), AttributeEntry("noise", Some(4))],
      Some(["Performance"]), 5200, Some(5800), Some(10), Some("฿"), "225/45R18", Some(true))

  // test-page/src/data/pageMock.ts:224
  const ContinentalSportBmw := TireProduct("continental-sport-bmw", "Continental", "Continental SportContact 6", Some("/images/continental-sport.png"), 4.8, 892,
      [AttributeEntry("comfort", Some(4)), AttributeEntry("handling", Some(5)), AttributeEntry("fuelEconomy", Some(3)), AttributeEntry("durability", Some(4)), AttributeEntry("noise", Some(3))],
      Some(["Performance"]), 4650, Some(5100), Some(9), Some("฿"), "225/45R18", Some(true))

  // test-page/src/data/pageMock.ts:240
  const BridgestonePotenzaBmw := TireProduct("bridgestone-potenza-bmw", "Bridgestone", "Bridgestone Potenza S001", Some("/images/bridgestone-potenza.png"), 4.7, 634,
      [AttributeEntry("comfort", Some(3)), AttributeEntry("handling", Some(5)), AttributeEntry("fuelEconomy", Some(3)), AttributeEntry("durability", Some(4)), AttributeEntry("noise", Some(3))],
      Some(["Performance"]), 4100, Some(4500), Some(9), Some("฿"), "225/45R18", Some(false))

  // test-page/src/data/pageMock.ts:258
  const MichelinPilotTesla := TireProduct("michelin-pilot-tesla", "Michelin", "Michelin Pilot Sport EV", Some("/images/michelin-pilot-ev.png"), 4.9, 723,
      [AttributeEntry("comfort", Some(5)), AttributeEntry("handling", Some(5)), AttributeEntry("fuelEconomy", Some(5)), AttributeEntry("durability", Some(5)), AttributeEntry("noise", Some(5))],
      Some(["รถ EV", "Performance"]), 6200, Some(6800), Some(9), Some("฿"), "235/45R18", Some(true))

  // test-page/src/data/pageMock.ts:274
  const ContinentalEcoTesla := TireProduct("continental-eco-tesla", "Continental", "Continental EcoContact 6", Some("/images/continental-eco.png"), 4.7, 456,
      [AttributeEntry("comfort", Some(4)), AttributeEntry("handling", Some(4)), AttributeEntry("fuelEconomy", Some(5)), AttributeEntry("durability", Some(4)), AttributeEntry("noise", Some(4))],
      Some(["รถ EV", "ประหยัดน้ำมัน"]), 4800, Some(5200), Some(8), Some("฿"), "235/45R18", Some(true))

  // test-page/src/data/pageMock.ts:292
  const YokohamaBluearthCivic := TireProduct("yokohama-bluearth-civic", "Yokohama", "Yokohama BluEarth GT AE51", Some("/images/yokohama-bluearth-civic.png"), 4.6, 467,
      [AttributeEntry("comfort", Some(4)), AttributeEntry("handling", Some(4)), AttributeEntry("fuelEconomy", Some(4)), AttributeEntry("durability", Some(4)), AttributeEntry("noise", Some(4))],
      Some([]), 2340, Some(2600), Some(10), Some("฿"), "215/55R16", Some(true))

  // test-page/src/data/pageMock.ts:308
  const MichelinPrimacyCivic := TireProduct("michelin-primacy-civic", "Michelin", "Michelin Primacy 4", Some("/images/michelin-primacy-civic.png"), 4.8, 623,
      [AttributeEntry("comfort", Some(5)), AttributeEntry("handling", Some(4)), AttributeEntry("fuelEconomy", Some(4)), AttributeEntry("durability", Some(5)), AttributeEntry("noise", Some(5))],
      Some([]), 3200, Some(3500), Some(9), Some("฿"), "215/55R16", Some(true))

  // test-page/src/data/pageMock.ts:326
  const MichelinLatitudeCx5 := TireProduct("michelin-latitude-cx5", "Michelin", "Michelin Latitude Tour HP", Some("/images/michelin-latitude.png"), 4.7, 543,
      [AttributeEntry("comfort", Some(4)), AttributeEntry("handling", Some(4)), AttributeEntry("fuelEconomy", Some(4)), AttributeEntry("durability", Some(5)), AttributeEntry("noise", Some(4))],
      Some(["SUV"]), 4650, Some(5100), Some(9), Some("฿"), "225/55R19", Some(true))

  // test-page/src/data/pageMock.ts:342
  const BridgestoneDuelerCx5 := TireProduct("bridgestone-dueler-cx5", "Bridgestone", "Bridgestone Dueler H/P Sport", Some("/images/bridgestone-dueler.png"), 4.6, 398,
      [AttributeEntry("comfort", Some(4)), AttributeEntry("handling", Some(4)), AttributeEntry("fuelEconomy", Some(4)), AttributeEntry("durability", Some(4)), AttributeEntry("noise", Some(3))],
      Some(["SUV"]), 3890, Some(4200), Some(7), Some("฿"), "225/55R19", Some(false))

  // test-page/src/data/pageMock.ts:360
  const BridgestoneDuelerNavara := TireProduct("bridgestone-dueler-navara", "Bridgestone", "Bridgestone Dueler A/T 697", Some("/images/bridgestone-at.png"), 4.5, 612,
      [AttributeEntry("comfort", Some(3)), AttributeEntry("handling", Some(4)), AttributeEntry("fuelEconomy", Some(3)), AttributeEntry("durability", Some(5)), AttributeEntry("noise", Some(3))],
      Some(["All Terrain", "Pickup"]), 4200, Some(4600), Some(9), Some("฿"), "265/60R18", Some(true))

  // test-page/src/data/pageMock.ts:376
  const YokohamaGeolandarNavara := TireProduct("yokohama-geolandar-navara", "Yokohama", "Yokohama Geolandar A/T G015", Some("/images/yokohama-geolandar.png"), 4.6, 423,
      [AttributeEntry("comfort", Some(3)), AttributeEntry("handling", Some(4)), AttributeEntry("fuelEconomy", Some(3)), AttributeEntry("durability", Some(5)), AttributeEntry("noise", Some(3))],
      Some(["All Terrain", "Pickup"]), 3950, Some(4300), Some(8), Some("฿"), "265/60R18", Some(true))

  // test-page/src/data/pageMock.ts:394
  const MichelinEnergyCamry := TireProduct("michelin-energy-camry", "Michelin", "Michelin Energy XM2+", Some("/images/michelin-energy-camry.png"), 4.8, 789,
      [AttributeEntry("comfort", Some(5)), AttributeEntry("handling", Some(4)), AttributeEntry("fuelEconomy", Some(5)), AttributeEntry("durability", Some(5)), AttributeEntry("noise", Some(4))],
      Some(["Hybrid", "ประหยัดน้ำมัน"]), 3200, Some(3500), Some(9), Some("฿"), "215/55R17", Some(true))

  // test-page/src/data/pageMock.ts:410
  const BridgestoneEcopiaCamry := TireProduct("bridgestone-ecopia-camry", "Bridgestone", "Bridgestone Ecopia EP300", Some("/images/bridgestone-ecopia.png"), 4.6, 456,
      [AttributeEntry("comfort", Some(4)), AttributeEntry("handling", Some(4)), AttributeEntry("fuelEconomy", Some(5)), AttributeEntry("durability", Some(4)), AttributeEntry("noise", Some(4))],
      Some(["Hybrid", "ประหยัดน้ำมัน"]), 2850, Some(3100), Some(8), Some("฿"), "215/55R17", Some(true))

  // test-page/src/data/pageMock.ts:428
  const BridgestoneDuelerRanger := TireProduct("bridgestone-dueler-ranger", "Bridgestone", "Bridgestone Dueler H/T 684II", Some("/images/bridgestone-ht.png"), 4.4, 534,
      [AttributeEntry("comfort", Some(4)), AttributeEntry("handling", Some(3)), AttributeEntry("fuelEconomy", Some(4)), AttributeEntry("durability", Some(5)), AttributeEntry("noise", Some(3))],
      Some(["Highway Terrain", "Pickup"]), 3650, Some(4000), Some(9), Some("฿"), "265/65R17", Some(true))

  // test-page/src/data/pageMock.ts:444
  const YokohamaGeolandarRanger := TireProduct("yokohama-geolandar-ranger", "Yokohama", "Yokohama Geolandar H/T G056", Some("/images/yokohama-ht.png"), 4.5, 367,
      [AttributeEntry("comfort", Some(4)), AttributeEntry("handling", Some(3)), AttributeEntry("fuelEconomy", Some(4)), AttributeEntry("durability", Some(5)), AttributeEntry("noise", Some(3))],
      Some(["Highway Terrain", "Pickup"]), 3400, Some(3700), Some(8), Some("฿"), "265/65R17", Some(false))

  // test-page/src/data/pageMock.ts:462
  const ContinentalPremiumC200 := TireProduct("continental-premium-c200", "Continental", "Continental PremiumContact 6", Some("/images/continental-premium-c200.png"), 4.9, 923,
      [AttributeEntry("comfort", Some(5)), AttributeEntry("handling", Some(5)), AttributeEntry("fuelEconomy", Some(4)), AttributeEntry("durability", Some(4)), AttributeEntry("noise", Some(5))],
      Some(["Premium", "Run Flat"]), 4850, Some(5300), Some(8), Some("฿"), "225/50R17", Some(true))

  // test-page/src/data/pageMock.ts:478
  const MichelinPrimacyC200 := TireProduct("michelin-primacy-c200", "Michelin", "Michelin Primacy 4 ST", Some("/images/michelin-primacy-c200.png"), 4.8, 756,
      [AttributeEntry("comfort", Some(5)), AttributeEntry("handling", Some(5)), AttributeEntry("fuelEconomy", Some(4)), AttributeEntry("durability", Some(5)), AttributeEntry("noise", Some(5))],
      Some(["Premium"]), 4200, Some(4600), Some(9), Some("฿"), "225/50R17", Some(true))

  /** The tyres of size 225/50R17 at the head of the catalog. */
  const accordTyres := [PetlasPt3111, MichelinPrimacy1, YokohamaAdv1, BridgestoneTuranza1, ContinentalPremium1]

  /** The tyres of the other sizes. */
  const otherTyres := [PetlasPt311Corolla, MichelinEnergyCorolla, YokohamaBluearthCorolla, MichelinPilotBmw, ContinentalSportBmw, BridgestonePotenzaBmw, MichelinPilotTesla, ContinentalEcoTesla, YokohamaBluearthCivic, MichelinPrimacyCivic, MichelinLatitudeCx5, BridgestoneDuelerCx5, BridgestoneDuelerNavara, YokohamaGeolandarNavara, MichelinEnergyCamry, BridgestoneEcopiaCamry, BridgestoneDuelerRanger, YokohamaGeolandarRanger]

  /** The tyres of size 225/50R17 at the tail of the catalog. */
  const c200Tyres := [ContinentalPremiumC200, MichelinPrimacyC200]

  const products := accordTyres + otherTyres + c200Tyres

  /** The count the `all` tab is hard-coded with in the page data. */
  const allTabCount := 7

  // ----- The car list (`carOptions`) -----

  // test-page/src/data/navbarMock.ts:16
  const Car1 := CarSelection(Some("car-1"), "2025 Honda Accord EX", Some("Honda"), Some("Accord"), Some("EX"), Some("ขนาดยาง 225/50R17"), Some(2025), Some("225/50R17"), Some("Modern Steel Metallic"), Some(15000), None)

  // test-page/src/data/navbarMock.ts:17
  const Car2 := CarSelection(Some("car-2"), "2020 Toyota Corolla G", Some("Toyota"), Some("Corolla"), Some("G"), Some("ขนาดยาง 195/65R15"), Some(2020), Some("195/65R15"), Some("White"), Some(42000), None)

  // test-page/src/data/navbarMock.ts:18
  const Car3 := CarSelection(Some("car-3"), "2019 BMW 3 Series 330i", Some("BMW"), Some("3 Series"), Some("330i"), Some("ขนาดยาง 225/45R18"), Some(2019), Some("225/45R18"), Some("Alpine White"), Some(68000), None)

  // test-page/src/data/navbarMock.ts:19
  const Car4 := CarSelection(Some("car-4"), "2022 Tesla Model 3 Standard", Some("Tesla"), Some("Model 3"), Some("Standard"), Some("ขนาดยาง 235/45R18"), Some(2022), Some("235/45R18"), Some("Black"), Some(12000), None)

  // test-page/src/data/navbarMock.ts:20
  const Car5 := CarSelection(Some("car-5"), "2018 Honda Civic RS", Some("Honda"), Some("Civic"), Some("RS"), Some("ขนาดยาง 215/55R16"), Some(2018), Some("215/55R16"), Some("Blue"), Some(85000), None)

  // test-page/src/data/navbarMock.ts:21
  const Car6 := CarSelection(Some("car-6"), "2021 Mazda CX-5 SP", Some("Mazda"), Some("CX-5"), Some("SP"), Some("ขนาดยาง 225/55R19"), Some(2021), Some("225/55R19"), Some("Soul Red"), Some(30000), None)

  // test-page/src/data/navbarMock.ts:22
  const Car7 := CarSelection(Some("car-7"), "2017 Nissan Navara PRO-4X", Some("Nissan"), Some("Navara"), Some("PRO-4X"), Some("ขนาดยาง 265/60R18"), Some(2017), Some("265/60R18"), Some("Gray"), Some(110000), None)

  // test-page/src/data/navbarMock.ts:23
  const Car8 := CarSelection(Some("car-8"), "2024 Toyota Camry Hybrid", Some("Toyota"), Some("Camry"), Some("Hybrid"), Some("ขนาดยาง 215/55R17"), Some(2024), Some("215/55R17"), Some("Silver"), Some(5000), None)

  // test-page/src/data/navbarMock.ts:24
  const Car9 := CarSelection(Some("car-9"), "2016 Ford Ranger Wildtrak", Some("Ford"), Some("Ranger"), Some("Wildtrak"), Some("ขนาดยาง 265/65R17"), Some(2016), Some("265/65R17"), Some("Orange"), Some(140000), None)

  // test-page/src/data/navbarMock.ts:25
  const Car10 := CarSelection(Some("car-10"), "2023 Mercedes-Benz C200", Some("Mercedes-Benz"), Some("C-Class"), Some("C200"), Some("ขนาดยาง 225/50R17"), Some(2023), Some("225/50R17"), Some("Black"), Some(8000), None)

  /** The cars listed before the Mercedes-Benz C200. */
  const carsBeforeC200 := [Car1, Car2, Car3, Car4, Car5, Car6, Car7, Car8, Car9]

  const carOptions := carsBeforeC200 + [Car10]

  lemma AccordTyresFit()
    ensures forall i :: 0 <= i < |accordTyres| ==> FitsCar(Car1)(accordTyres[i]) && FitsCar(Car10)(accordTyres[i])
  {
  }

  lemma OtherTyresDoNotFit()
    ensures forall i :: 0 <= i < |otherTyres| ==> !FitsCar(Car1)(otherTyres[i])
  {
  }

  lemma C200TyresFit()
    ensures forall i :: 0 <= i < |c200Tyres| ==> FitsCar(Car1)(c200Tyres[i]) && PopularFlag()(c200Tyres[i])
  {
  }

  lemma PopularAccordTyres()
    ensures PopularProducts(accordTyres) == [PetlasPt3111, MichelinPrimacy1, ContinentalPremium1]
  {
    var s := accordTyres;
    assert PopularProducts(s[4..]) == [ContinentalPremium1];
    assert PopularProducts(s[3..]) == [ContinentalPremium1];
    assert PopularProducts(s[2..]) == [ContinentalPremium1];
    assert PopularProducts(s[1..]) == [MichelinPrimacy1, ContinentalPremium1];
  }

  /** A catalog made of a fitting run, a non-fitting run and a fitting run
      derives the two fitting runs. */
  lemma CarProductsOfRuns(head: seq<TireProduct>, middle: seq<TireProduct>, tail: seq<TireProduct>, car: CarSelection)
    requires forall i :: 0 <= i < |head| ==> FitsCar(car)(head[i])
    requires forall i :: 0 <= i < |middle| ==> !FitsCar(car)(middle[i])
    requires forall i :: 0 <= i < |tail| ==> FitsCar(car)(tail[i])
    ensures CarProducts(head + middle + tail, car) == head + tail
  {
    var fits := FitsCar(car);
    FilterAppend(head + middle, tail, fits);
    FilterAppend(head, middle, fits);
    FilterKeepsAll(head, fits);
    FilterDropsAll(middle, fits);
    FilterKeepsAll(tail, fits);
    DropEmptyMiddle(head, tail);
  }

  /** The popular car-1 tyres, in catalog order. */
  lemma Car1PopularPool()
    ensures PopularProducts(accordTyres + c200Tyres) ==
      [PetlasPt3111, MichelinPrimacy1, ContinentalPremium1, ContinentalPremiumC200, MichelinPrimacyC200]
  {
    FilterAppend(accordTyres, c200Tyres, PopularFlag());
    PopularAccordTyres();
    C200TyresFit();
    FilterKeepsAll(c200Tyres, PopularFlag());
  }

  /** The tyres derived for car-1 match the `all` tab's hard-coded count;
      five of them are popular. */
  lemma Car1Counts()
    ensures CarProducts(products, Car1) == accordTyres + c200Tyres
    ensures GetFilterCounts(products, Some(Car1)) == FilterCounts(allTabCount, 5, allTabCount, allTabCount)
  {
    AccordTyresFit();
    OtherTyresDoNotFit();
    C200TyresFit();
    CarProductsOfRuns(accordTyres, otherTyres, c200Tyres, Car1);
    Car1PopularPool();
  }

  /** The popular tyres for car-1, sorted by reviews, most first. */
  lemma SortCar1Popular()
    ensures SortByKey([PetlasPt3111, MichelinPrimacy1, ContinentalPremium1, ContinentalPremiumC200, MichelinPrimacyC200], ReviewsDescending) ==
      [MichelinPrimacy1, ContinentalPremiumC200, ContinentalPremium1, MichelinPrimacyC200, PetlasPt3111]
  {
    var pool := [PetlasPt3111, MichelinPrimacy1, ContinentalPremium1, ContinentalPremiumC200, MichelinPrimacyC200];
    var key := ReviewsDescending;
    assert SortByKey(pool[4..], key) == [MichelinPrimacyC200];
    assert SortByKey(pool[3..], key) == [ContinentalPremiumC200, MichelinPrimacyC200];
    assert Insert(ContinentalPremium1, [MichelinPrimacyC200], key) == [ContinentalPremium1, MichelinPrimacyC200];
    assert SortByKey(pool[2..], key) == [ContinentalPremiumC200, ContinentalPremium1, MichelinPrimacyC200];
    var three := [ContinentalPremiumC200, ContinentalPremium1, MichelinPrimacyC200];
    assert SortByKey(pool[1..], key) == [MichelinPrimacy1] + three;
    var four := [MichelinPrimacy1] + three;
    assert Insert(PetlasPt3111, [MichelinPrimacyC200], key) == [MichelinPrimacyC200, PetlasPt3111];
    assert Insert(PetlasPt3111, three[1..], key) == [ContinentalPremium1, MichelinPrimacyC200, PetlasPt3111];
    assert Insert(PetlasPt3111, three, key) == [ContinentalPremiumC200, ContinentalPremium1, MichelinPrimacyC200, PetlasPt3111];
    assert Insert(PetlasPt3111, four, key) == [MichelinPrimacy1, ContinentalPremiumC200, ContinentalPremium1, MichelinPrimacyC200, PetlasPt3111];
  }

  /** Popular tab for car-1: the five popular tyres, most reviewed first. */
  lemma Car1PopularTab()
    ensures GetFilteredProducts(products, Some(Car1), Popular) ==
      [MichelinPrimacy1, ContinentalPremiumC200, ContinentalPremium1, MichelinPrimacyC200, PetlasPt3111]
  {
    Car1Counts();
    Car1PopularPool();
    SortCar1Popular();
  }

  function IdsOf(cars: seq<CarSelection>): (ids: seq<Option<string>>)
    ensures |ids| == |cars| && forall i :: 0 <= i < |cars| ==> ids[i] == cars[i].id
  {
    if cars == [] then [] else [cars[0].id] + IdsOf(cars[1..])
  }

  const carIds := [Some("car-1"), Some("car-2"), Some("car-3"), Some("car-4"), Some("car-5"),
                   Some("car-6"), Some("car-7"), Some("car-8"), Some("car-9"), Some("car-10")]

  lemma CarIds()
    ensures IdsOf(carOptions) == carIds
  {
  }

  lemma CarIdsPairwiseDistinct()
    ensures forall i, j :: 0 <= i < j < |carIds| ==> carIds[i] != carIds[j]
  {
  }

  /** The car list has present, distinct ids. */
  lemma CarIdsDistinct()
    ensures DistinctIds(carOptions)
  {
    CarIds();
    CarIdsPairwiseDistinct();
    forall i | 0 <= i < |carOptions| ensures carOptions[i].id.Some? {
      assert carOptions[i].id == carIds[i];
    }
    forall i, j | 0 <= i < j < |carOptions| ensures carOptions[i].id != carOptions[j].id {
      assert carOptions[i].id == carIds[i] && carOptions[j].id == carIds[j];
    }
  }

  /** Picking the Mercedes-Benz C200, the last car, moves it to the head of the list. */
  lemma SelectC200()
    ensures FilterCars(carOptions, "", Some(Car10)) == [Car10] + carsBeforeC200
  {
    var before := carsBeforeC200;
    assert carOptions[9] == Car10;
    assert forall i :: 0 <= i < 9 ==> carOptions[i] == before[i];
    CarIdsDistinct();
    DistinctIdsUnique(carOptions, 9);
    AfterSelectCarFirst(carOptions, 9);
    assert carOptions[..9] == before;
    assert carOptions[10..] == [];
  }

  /** Adding the same tyre twice and another once: two entries, three tyres,
      and the total 2 * 2340 + 4120. */
  method CartScenario() returns (entries: nat, totalItems: int, totalPrice: int)
    ensures entries == 2 && totalItems == 3 && totalPrice == 8800
  {
    var cart := new CartProvider();
    cart.AddToCart(PetlasPt3111);
    cart.AddToCart(PetlasPt3111);
    cart.AddToCart(MichelinPrimacy1);
    entries := |cart.items|;
    totalItems := cart.GetTotalItems();
    totalPrice := cart.GetTotalPrice();
  }
}

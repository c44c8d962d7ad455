/** The listing filters shared by the search page (src/car/Search.jsx) and
    the home page (src/Components/Index-Main.jsx): a dictionary of ten
    string-valued filter keys, the cascade that clears a child filter when
    its parent changes, and the per-car predicate, a conjunction of optional
    id equalities and inclusive numeric bounds. The two pages differ only in
    how they parse the price bounds, so the price parser is a parameter. */
module Filters {
  import opened Js
  import opened Seqs
  import opened Catalog

  type FilterState = map<string, string>

  const FilterKeys: seq<string> := [
    "maker_id", "model_id", "car_type_id", "year_from", "year_to",
    "price_from", "price_to", "state_id", "city_id", "fuel_type_id"]

  /** The initial and the reset state: every key holds "". */
  function EmptyFilters(): (f: FilterState)
    ensures forall k :: k in f <==> k in FilterKeys
    ensures forall k :: k in f ==> f[k] == ""
  {
    map k | k in FilterKeys :: ""
  }

  /** The child key a change of `name` clears, if any. */
  function ChildOf(name: string): Option<string> {
    if name == "maker_id" then Some("model_id")
    else if name == "state_id" then Some("city_id")
    else None
  }

  /** handleFilterChange: set the named key; a new maker clears the model,
      a new state clears the city. Every other key, present or not, is left
      as it was. */
  function Cascade(prev: FilterState, name: string, value: string): (next: FilterState)
    ensures name in next && next[name] == value
    ensures ChildOf(name).Some? ==> ChildOf(name).value in next && next[ChildOf(name).value] == ""
    ensures forall k :: k != name && Some(k) != ChildOf(name) ==>
      (k in next <==> k in prev) && (k in prev ==> next[k] == prev[k])
  {
    var updated := prev[name := value];
    var updated := if name == "maker_id" then updated["model_id" := ""] else updated;
    if name == "state_id" then updated["city_id" := ""] else updated
  }

  /** `String(car.fuelType?.id)`: `fuelType` is a string, whose `id` is
      undefined, so this is "undefined" for every car. */
  function FuelIdString(car: Car): string {
    "undefined"
  }

  /** An id filter passes when it is empty or equals the car's stringified id. */
  predicate IdPasses(f: FilterState, key: string, carId: string) {
    Get(f, key) == "" || carId == Get(f, key)
  }

  /** `v < bound` for a parsed bound: a comparison with NaN is false. */
  predicate LessThan(v: int, bound: Num) {
    bound.Num? && (v as real) < bound.value
  }

  predicate GreaterThan(v: int, bound: Num) {
    bound.Num? && (v as real) > bound.value
  }

  predicate LowerPasses(f: FilterState, key: string, v: int, parse: string -> Num) {
    Get(f, key) == "" || !LessThan(v, parse(Get(f, key)))
  }

  predicate UpperPasses(f: FilterState, key: string, v: int, parse: string -> Num) {
    Get(f, key) == "" || !GreaterThan(v, parse(Get(f, key)))
  }

  /** The body of the `cars.filter` callback. Years are parsed with
      parseInt; prices with `parsePrice`. */
  predicate Matches(car: Car, f: FilterState, parsePrice: string -> Num) {
    && IdPasses(f, "maker_id", IdString(IdOf(MakerOf(car))))
    && IdPasses(f, "model_id", IdString(IdOf(car.model)))
    && IdPasses(f, "car_type_id", IdString(IdOf(car.carType)))
    && LowerPasses(f, "year_from", car.year, ParseInt)
    && UpperPasses(f, "year_to", car.year, ParseInt)
    && LowerPasses(f, "price_from", car.price, parsePrice)
    && UpperPasses(f, "price_to", car.price, parsePrice)
    && IdPasses(f, "state_id", IdString(IdOf(StateOf(car))))
    && IdPasses(f, "city_id", IdString(IdOf(car.city)))
    && IdPasses(f, "fuel_type_id", FuelIdString(car))
  }

  /** `cars.filter(...)` */
  function FilterCars(cars: seq<Car>, f: FilterState, parsePrice: string -> Num): seq<Car> {
    Filter(cars, (c: Car) => Matches(c, f, parsePrice))
  }

  /** Every filter key is empty. */
  predicate AllEmpty(f: FilterState) {
    forall k :: k in FilterKeys ==> Get(f, k) == ""
  }

  /** With every filter empty, all cars are kept, in their original order. */
  lemma {:induction false} EmptyFiltersKeepAll(cars: seq<Car>, f: FilterState, parsePrice: string -> Num)
    requires AllEmpty(f)
    ensures FilterCars(cars, f, parsePrice) == cars
  {
    assert forall k :: 0 <= k < |cars| ==> Matches(cars[k], f, parsePrice) by {
      assert "maker_id" in FilterKeys && "model_id" in FilterKeys && "car_type_id" in FilterKeys;
      assert "year_from" in FilterKeys && "year_to" in FilterKeys;
      assert "price_from" in FilterKeys && "price_to" in FilterKeys;
      assert "state_id" in FilterKeys && "city_id" in FilterKeys && "fuel_type_id" in FilterKeys;
    }
    FilterKeepsAll(cars, (c: Car) => Matches(c, f, parsePrice));
  }

  /** The filtered list is a subsequence of the cars. A car is kept exactly
      when it is one of the cars and every non-empty id filter equals its
      stringified id and it lies within every bound that parses, both ends
      inclusive; a bound that does not parse excludes nothing. */
  lemma {:induction false} FilterCarsSpec(cars: seq<Car>, f: FilterState, parsePrice: string -> Num)
    ensures IsSubsequence(FilterCars(cars, f, parsePrice), cars)
    ensures forall c :: c in FilterCars(cars, f, parsePrice) <==> c in cars && Matches(c, f, parsePrice)
    ensures forall c :: c in FilterCars(cars, f, parsePrice) ==>
      && (Get(f, "maker_id") != "" ==> IdString(IdOf(MakerOf(c))) == Get(f, "maker_id"))
      && (Get(f, "model_id") != "" ==> IdString(IdOf(c.model)) == Get(f, "model_id"))
      && (Get(f, "car_type_id") != "" ==> IdString(IdOf(c.carType)) == Get(f, "car_type_id"))
      && (Get(f, "state_id") != "" ==> IdString(IdOf(StateOf(c))) == Get(f, "state_id"))
      && (Get(f, "city_id") != "" ==> IdString(IdOf(c.city)) == Get(f, "city_id"))
      && (Get(f, "year_from") != "" && ParseInt(Get(f, "year_from")).Num? ==>
            ParseInt(Get(f, "year_from")).value <= c.year as real)
      && (Get(f, "year_to") != "" && ParseInt(Get(f, "year_to")).Num? ==>
            c.year as real <= ParseInt(Get(f, "year_to")).value)
      && (Get(f, "price_from") != "" && parsePrice(Get(f, "price_from")).Num? ==>
            parsePrice(Get(f, "price_from")).value <= c.price as real)
      && (Get(f, "price_to") != "" && parsePrice(Get(f, "price_to")).Num? ==>
            c.price as real <= parsePrice(Get(f, "price_to")).value)
  {
    FilterIsSubsequence(cars, (c: Car) => Matches(c, f, parsePrice));
    FilterMembers(cars, (c: Car) => Matches(c, f, parsePrice));
  }

  /** A fuel filter other than the literal "undefined" excludes every car. */
  lemma {:induction false} FuelFilterExcludesAll(cars: seq<Car>, f: FilterState, parsePrice: string -> Num)
    requires Get(f, "fuel_type_id") != "" && Get(f, "fuel_type_id") != "undefined"
    ensures FilterCars(cars, f, parsePrice) == []
  {
    FilterKeepsNone(cars, (c: Car) => Matches(c, f, parsePrice));
  }

  /** `children.filter(c => c.parent && String(c.parent.id) === parentId)`:
      the dependent dropdown options of the home page. */
  function ChildOptions(children: seq<Entity>, parentId: string): seq<Entity> {
    Filter(children, (e: Entity) => e.parent.Some? && IdString(e.parent.value.id) == parentId)
  }

  /** `children.filter(c => String(c.parent?.id) === parentId)`: the search
      page's variant, where a missing parent reads as "undefined". */
  function ChildOptionsLoose(children: seq<Entity>, parentId: string): seq<Entity> {
    Filter(children, (e: Entity) => IdString(IdOf(e.parent)) == parentId)
  }

  /** The options are exactly the children, in order, that have a parent
      whose stringified id is the selected one. */
  lemma {:induction false} ChildOptionsSpec(children: seq<Entity>, parentId: string)
    ensures IsSubsequence(ChildOptions(children, parentId), children)
    ensures forall e :: e in ChildOptions(children, parentId) <==>
      e in children && e.parent.Some? && IdString(e.parent.value.id) == parentId
  {
    FilterIsSubsequence(children, (e: Entity) => e.parent.Some? && IdString(e.parent.value.id) == parentId);
    FilterMembers(children, (e: Entity) => e.parent.Some? && IdString(e.parent.value.id) == parentId);
  }

  /** The two variants differ only for the selection "undefined", which
      no option offers. */
  lemma {:induction false} ChildOptionsAgree(children: seq<Entity>, parentId: string)
    requires parentId != "undefined"
    ensures ChildOptionsLoose(children, parentId) == ChildOptions(children, parentId)
  {
    FilterCongruent(children,
      (e: Entity) => IdString(IdOf(e.parent)) == parentId,
      (e: Entity) => e.parent.Some? && IdString(e.parent.value.id) == parentId);
  }
}

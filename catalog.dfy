/** The catalog cache (src/Components/CarContext.jsx): the car list fetched
    once, the lookup lists for the form dropdowns derived from it, and the
    single-car lookup that falls back to a fetch and merges its result into
    the cache when the id is absent. */
module Catalog {
  import opened Js
  import opened Seqs

  /** A lookup record: maker, model (whose parent is its maker), state, city
      (whose parent is its state) or car type. Its id may be missing.
      `name` is the record's display text: the `name` property of a maker,
      state, city or car type, and the `model` property of a model record
      (as `car.model?.model` and `data.model.model` read it). */
  datatype Entity = Entity(id: Option<int>, name: string, parent: Option<Entity>)

  datatype Image = Image(id: int, imagePath: string)

  datatype Owner = Owner(phone: string)

  /** A car as the API returns it. Nested records may be null, which is why
      they are optional; `fuelType` is a plain string, not a record. */
  datatype Car = Car(
    id: int,
    year: int,
    price: int,
    mileage: int,
    description: string,
    model: Option<Entity>,
    city: Option<Entity>,
    carType: Option<Entity>,
    fuelType: Option<string>,
    images: Option<seq<Image>>,
    imageUrls: Option<seq<string>>,
    features: Option<map<string, bool>>,
    owner: Option<Owner>)

  /** `car.model?.maker` */
  function MakerOf(car: Car): Option<Entity> {
    if car.model.Some? then car.model.value.parent else None
  }

  /** `car.city?.state` */
  function StateOf(car: Car): Option<Entity> {
    if car.city.Some? then car.city.value.parent else None
  }

  function ModelOf(car: Car): Option<Entity> {
    car.model
  }

  function CityOf(car: Car): Option<Entity> {
    car.city
  }

  function CarTypeOf(car: Car): Option<Entity> {
    car.carType
  }

  /** `x?.id` */
  function IdOf(e: Option<Entity>): Option<int> {
    if e.Some? then e.value.id else None
  }

  /** `obj && obj.id`: the entry is present and its id is not 0 or missing. */
  predicate HasTruthyId(e: Option<Entity>) {
    e.Some? && e.value.id.Some? && e.value.id.value != 0
  }

  function KeyOf(e: Option<Entity>): int
    requires HasTruthyId(e)
  {
    e.value.id.value
  }

  /** The filter of uniqueById, with `seen` the ids the Set already holds. */
  function UniqueFrom(xs: seq<Option<Entity>>, seen: set<int>): seq<Entity> {
    if xs == [] then []
    else if HasTruthyId(xs[0]) && KeyOf(xs[0]) !in seen then
      [xs[0].value] + UniqueFrom(xs[1..], seen + {KeyOf(xs[0])})
    else UniqueFrom(xs[1..], seen)
  }

  /** uniqueById: one entry per truthy id, the first one, in input order. */
  function UniqueById(xs: seq<Option<Entity>>): seq<Entity> {
    UniqueFrom(xs, {})
  }

  /** The entries that are present, in order. */
  function PresentEntries(xs: seq<Option<Entity>>): (r: seq<Entity>)
    ensures |r| <= |xs|
  {
    if xs == [] then []
    else if xs[0].Some? then [xs[0].value] + PresentEntries(xs[1..])
    else PresentEntries(xs[1..])
  }

  /** Entry `i` has a truthy id and no earlier entry has that id. */
  ghost predicate IsFirstWithId(xs: seq<Option<Entity>>, i: int)
    requires 0 <= i < |xs|
  {
    HasTruthyId(xs[i]) && forall j :: 0 <= j < i ==> !(HasTruthyId(xs[j]) && KeyOf(xs[j]) == KeyOf(xs[i]))
  }

  /** `e` is an input entry whose id occurs at no earlier position. */
  ghost predicate FirstEntryWithItsId(xs: seq<Option<Entity>>, e: Entity) {
    exists i :: 0 <= i < |xs| && xs[i] == Some(e) && IsFirstWithId(xs, i)
  }

  lemma {:induction false} UniqueFromIsSubsequence(xs: seq<Option<Entity>>, seen: set<int>)
    ensures IsSubsequence(UniqueFrom(xs, seen), PresentEntries(xs))
  {
    if xs != [] {
      var rest := xs[1..];
      if HasTruthyId(xs[0]) && KeyOf(xs[0]) !in seen {
        UniqueFromIsSubsequence(rest, seen + {KeyOf(xs[0])});
        var r := UniqueFrom(rest, seen + {KeyOf(xs[0])});
        assert ([xs[0].value] + r)[1..] == r;
      } else {
        UniqueFromIsSubsequence(rest, seen);
      }
    }
  }

  lemma {:induction false} UniqueFromIdsDistinct(xs: seq<Option<Entity>>, seen: set<int>)
    ensures forall k :: 0 <= k < |UniqueFrom(xs, seen)| ==>
      UniqueFrom(xs, seen)[k].id.Some? && UniqueFrom(xs, seen)[k].id.value != 0 && UniqueFrom(xs, seen)[k].id.value !in seen
    ensures forall i, j :: 0 <= i < j < |UniqueFrom(xs, seen)| ==> UniqueFrom(xs, seen)[i].id != UniqueFrom(xs, seen)[j].id
  {
    if xs != [] {
      var rest := xs[1..];
      if HasTruthyId(xs[0]) && KeyOf(xs[0]) !in seen {
        UniqueFromIdsDistinct(rest, seen + {KeyOf(xs[0])});
      } else {
        UniqueFromIdsDistinct(rest, seen);
      }
    }
  }

  /** Where the `k`-th kept entry comes from: an input position holding it
      whose id occurs at no earlier position. */
  lemma {:induction false} UniqueFromSource(xs: seq<Option<Entity>>, seen: set<int>, k: int) returns (i: int)
    requires 0 <= k < |UniqueFrom(xs, seen)|
    ensures 0 <= i < |xs| && xs[i] == Some(UniqueFrom(xs, seen)[k]) && IsFirstWithId(xs, i)
  {
    var rest := xs[1..];
    var r := UniqueFrom(xs, seen);
    var kept := HasTruthyId(xs[0]) && KeyOf(xs[0]) !in seen;
    var seen' := if kept then seen + {KeyOf(xs[0])} else seen;
    var tail := UniqueFrom(rest, seen');
    assert r == if kept then [xs[0].value] + tail else tail;
    if kept && k == 0 {
      i := 0;
    } else {
      var t := if kept then k - 1 else k;
      assert r[k] == tail[t];
      var i' := UniqueFromSource(rest, seen', t);
      UniqueFromIdsDistinct(rest, seen');
      assert KeyOf(Some(tail[t])) !in seen';
      i := i' + 1;
      assert xs[i] == rest[i'];
      forall j | 0 <= j < i
        ensures !(HasTruthyId(xs[j]) && KeyOf(xs[j]) == KeyOf(xs[i]))
      {
        if j > 0 {
          assert xs[j] == rest[j - 1];
        }
      }
    }
  }

  /** Where an input entry with a truthy id, not yet seen, is represented. */
  lemma {:induction false} UniqueFromCovers(xs: seq<Option<Entity>>, seen: set<int>, i: int) returns (k: int)
    requires 0 <= i < |xs| && HasTruthyId(xs[i]) && KeyOf(xs[i]) !in seen
    ensures 0 <= k < |UniqueFrom(xs, seen)| && UniqueFrom(xs, seen)[k].id == xs[i].value.id
  {
    var rest := xs[1..];
    var r := UniqueFrom(xs, seen);
    var kept := HasTruthyId(xs[0]) && KeyOf(xs[0]) !in seen;
    var seen' := if kept then seen + {KeyOf(xs[0])} else seen;
    var tail := UniqueFrom(rest, seen');
    assert r == if kept then [xs[0].value] + tail else tail;
    if kept && KeyOf(xs[i]) == KeyOf(xs[0]) {
      k := 0;
    } else {
      assert rest[i - 1] == xs[i];
      var k' := UniqueFromCovers(rest, seen', i - 1);
      k := if kept then k' + 1 else k';
      assert r[k] == tail[k'];
    }
  }

  /** uniqueById keeps present entries only, in their input order. */
  lemma {:induction false} UniqueByIdIsSubsequence(xs: seq<Option<Entity>>)
    ensures IsSubsequence(UniqueById(xs), PresentEntries(xs))
  {
    UniqueFromIsSubsequence(xs, {});
  }

  /** Every kept entry has a truthy id (null entries, missing ids and id 0
      are dropped), and no two kept entries share an id. */
  lemma {:induction false} UniqueByIdDistinct(xs: seq<Option<Entity>>)
    ensures forall k :: 0 <= k < |UniqueById(xs)| ==>
      UniqueById(xs)[k].id.Some? && UniqueById(xs)[k].id.value != 0
    ensures forall i, j :: 0 <= i < j < |UniqueById(xs)| ==> UniqueById(xs)[i].id != UniqueById(xs)[j].id
  {
    UniqueFromIdsDistinct(xs, {});
  }

  /** The entry kept for an id is the first input entry with that id. */
  lemma {:induction false} UniqueByIdFirstOccurrence(xs: seq<Option<Entity>>)
    ensures forall k :: 0 <= k < |UniqueById(xs)| ==> FirstEntryWithItsId(xs, UniqueById(xs)[k])
  {
    forall k | 0 <= k < |UniqueById(xs)|
      ensures FirstEntryWithItsId(xs, UniqueById(xs)[k])
    {
      var i := UniqueFromSource(xs, {}, k);
      assert xs[i] == Some(UniqueById(xs)[k]) && IsFirstWithId(xs, i);
    }
  }

  /** Every input entry with a truthy id has its id represented in the output. */
  lemma {:induction false} UniqueByIdCovers(xs: seq<Option<Entity>>)
    ensures forall i :: 0 <= i < |xs| && HasTruthyId(xs[i]) ==>
      exists k :: 0 <= k < |UniqueById(xs)| && UniqueById(xs)[k].id == xs[i].value.id
  {
    forall i | 0 <= i < |xs| && HasTruthyId(xs[i])
      ensures exists k :: 0 <= k < |UniqueById(xs)| && UniqueById(xs)[k].id == xs[i].value.id
    {
      var k := UniqueFromCovers(xs, {}, i);
      assert UniqueById(xs)[k].id == xs[i].value.id;
    }
  }

  /** `data.map(project)` */
  function Project(data: seq<Car>, project: Car -> Option<Entity>): (r: seq<Option<Entity>>)
    ensures |r| == |data|
    ensures forall i :: 0 <= i < |data| ==> r[i] == project(data[i])
  {
    seq(|data|, i requires 0 <= i < |data| => project(data[i]))
  }

  /** One dropdown's lookup list: `uniqueById(data.map(project))`. */
  function LookupList(data: seq<Car>, project: Car -> Option<Entity>): seq<Entity> {
    UniqueById(Project(data, project))
  }

  /** Every entry of a lookup list is the record of some car, with a truthy,
      unique id; and every car whose record has a truthy id has that id listed. */
  lemma {:induction false} LookupListSpec(data: seq<Car>, project: Car -> Option<Entity>)
    ensures forall e :: e in LookupList(data, project) ==>
      (exists c :: c in data && project(c) == Some(e)) && e.id.Some? && e.id.value != 0
    ensures forall i, j :: 0 <= i < j < |LookupList(data, project)| ==>
      LookupList(data, project)[i].id != LookupList(data, project)[j].id
    ensures forall c :: c in data && HasTruthyId(project(c)) ==>
      exists e :: e in LookupList(data, project) && e.id == project(c).value.id
  {
    var xs := Project(data, project);
    var r := LookupList(data, project);
    UniqueByIdFirstOccurrence(xs);
    UniqueByIdDistinct(xs);
    UniqueByIdCovers(xs);
    forall e | e in r
      ensures exists c :: c in data && project(c) == Some(e)
    {
      var k :| 0 <= k < |r| && r[k] == e;
      var i :| 0 <= i < |xs| && xs[i] == Some(r[k]) && IsFirstWithId(xs, i);
      assert data[i] in data;
    }
    forall c | c in data && HasTruthyId(project(c))
      ensures exists e :: e in r && e.id == project(c).value.id
    {
      var i :| 0 <= i < |data| && data[i] == c;
      assert xs[i] == project(c);
      var k :| 0 <= k < |r| && r[k].id == xs[i].value.id;
      assert r[k] in r;
    }
  }

  /** The fuel-type dropdown entry `{id: name, name: name}`. */
  datatype FuelOption = FuelOption(id: string, name: string)

  /** `data.map(car => car.fuelType).filter(Boolean)` */
  function TruthyFuelTypes(data: seq<Car>): (r: seq<string>)
    ensures forall s :: s in r <==> exists c :: c in data && Present(c.fuelType) && c.fuelType.value == s
  {
    if data == [] then []
    else
      var rest := TruthyFuelTypes(data[1..]);
      assert forall c :: c in data <==> c == data[0] || c in data[1..];
      if Present(data[0].fuelType) then [data[0].fuelType.value] + rest else rest
  }

  /** `[...new Set(names)]` */
  function FuelTypeNames(data: seq<Car>): seq<string> {
    Dedup(TruthyFuelTypes(data), {})
  }

  /** `uniqueFuelTypes.map(name => ({ id: name, name: name }))`: one option
      per distinct name, in the same order, with the name as its id. */
  function FuelTypes(data: seq<Car>): (r: seq<FuelOption>)
    ensures |r| == |FuelTypeNames(data)|
    ensures forall i :: 0 <= i < |r| ==> r[i].id == r[i].name == FuelTypeNames(data)[i]
  {
    var names := FuelTypeNames(data);
    seq(|names|, i requires 0 <= i < |names| => FuelOption(names[i], names[i]))
  }

  /** The fuel types are the distinct truthy fuel-type strings of the cars, in
      first-seen order, each offered with the name as its id. */
  lemma {:induction false} FuelTypesSpec(data: seq<Car>)
    ensures IsSubsequence(FuelTypeNames(data), TruthyFuelTypes(data))
    ensures Distinct(FuelTypeNames(data))
    ensures InFirstSeenOrder(FuelTypeNames(data), TruthyFuelTypes(data))
    ensures forall s :: s in FuelTypeNames(data) <==> exists c :: c in data && Present(c.fuelType) && c.fuelType.value == s
    ensures forall o :: o in FuelTypes(data) <==>
      o.id == o.name && exists c :: c in data && Present(c.fuelType) && c.fuelType.value == o.id
  {
    DedupSpec(TruthyFuelTypes(data), {});
    DedupFirstSeen(TruthyFuelTypes(data), {});
    var names, options := FuelTypeNames(data), FuelTypes(data);
    forall o ensures o in options <==> o.id == o.name && o.id in names {
      if o in options {
        var i :| 0 <= i < |options| && options[i] == o;
      }
      if o.id == o.name && o.id in names {
        var i :| 0 <= i < |names| && names[i] == o.id;
        assert options[i] == o;
      }
    }
  }

  /** `cars.find(c => c.id === key)`: NaN equals no id. */
  function FindById(cars: seq<Car>, key: Num): (r: Option<Car>)
    ensures r.Some? ==> r.value in cars && key == Num(r.value.id as real)
    ensures r.None? <==> forall c :: c in cars ==> key != Num(c.id as real)
  {
    if cars == [] then None
    else if key == Num(cars[0].id as real) then Some(cars[0])
    else
      assert forall c :: c in cars <==> c == cars[0] || c in cars[1..];
      FindById(cars[1..], key)
  }

  /** find returns the first car with that id. */
  lemma {:induction false} FindByIdIsFirst(cars: seq<Car>, key: Num)
    ensures FindById(cars, key).Some? ==>
      exists i :: 0 <= i < |cars| && cars[i] == FindById(cars, key).value &&
        forall j :: 0 <= j < i ==> key != Num(cars[j].id as real)
  {
    if cars != [] && key != Num(cars[0].id as real) {
      var tail := cars[1..];
      assert FindById(cars, key) == FindById(tail, key);
      FindByIdIsFirst(tail, key);
      if FindById(tail, key).Some? {
        var i :| 0 <= i < |tail| && tail[i] == FindById(tail, key).value &&
          forall j :: 0 <= j < i ==> key != Num(tail[j].id as real);
        assert cars[i + 1] == tail[i];
        forall j | 0 <= j < i + 1 ensures key != Num(cars[j].id as real) {
          if j > 0 {
            assert cars[j] == tail[j - 1];
          }
        }
      }
    } else if cars != [] {
      assert cars[0] == FindById(cars, key).value;
    }
  }

  /** The cache update after a single fetch: keep the list when a car with
      that id is cached, otherwise append the fetched car at the end. */
  function MergeIfAbsent(cars: seq<Car>, car: Car): seq<Car> {
    if exists c :: c in cars && c.id == car.id then cars else cars + [car]
  }

  /** After a merge, the fetched car's id is always found in the cache; the
      cache only grows, and by the fetched car alone. */
  lemma {:induction false} MergeThenHit(cars: seq<Car>, car: Car)
    ensures FindById(MergeIfAbsent(cars, car), Num(car.id as real)).Some?
    ensures cars <= MergeIfAbsent(cars, car)
    ensures |MergeIfAbsent(cars, car)| <= |cars| + 1
    ensures forall c :: c in MergeIfAbsent(cars, car) ==> c in cars || c == car
  {
    var merged := MergeIfAbsent(cars, car);
    if exists c :: c in cars && c.id == car.id {
      var c :| c in cars && c.id == car.id;
      assert Num(car.id as real) == Num(c.id as real);
    } else {
      assert car in merged;
    }
  }

  /** The response to the bulk fetch of GET /api/cars. */
  datatype BulkResponse = BulkNetworkError | BulkNotOk | BulkNotArray | BulkCars(cars: seq<Car>)

  /** The state of CarProvider. */
  class CarCache {
    var cars: seq<Car>
    var loading: bool
    var makers: seq<Entity>
    var models: seq<Entity>
    var states: seq<Entity>
    var cities: seq<Entity>
    var carTypes: seq<Entity>
    var fuelTypes: seq<FuelOption>

    /** Every lookup list is the one derived from `cars`. */
    ghost predicate LookupsDerived()
      reads this
    {
      && makers == LookupList(cars, MakerOf)
      && models == LookupList(cars, ModelOf)
      && states == LookupList(cars, StateOf)
      && cities == LookupList(cars, CityOf)
      && carTypes == LookupList(cars, CarTypeOf)
      && fuelTypes == FuelTypes(cars)
    }

    constructor ()
      ensures cars == [] && loading
      ensures makers == [] && models == [] && states == [] && cities == [] && carTypes == [] && fuelTypes == []
    {
      cars, loading := [], true;
      makers, models, states, cities, carTypes, fuelTypes := [], [], [], [], [], [];
    }

    /** fetchAllCars: the list and every lookup list are set only when the
        response body is an array; loading is cleared in every case. */
    method FetchAllCars(response: BulkResponse)
      modifies this
      ensures !loading
      ensures response.BulkCars? ==> cars == response.cars && LookupsDerived()
      ensures !response.BulkCars? ==>
        && cars == old(cars) && makers == old(makers) && models == old(models) && states == old(states)
        && cities == old(cities) && carTypes == old(carTypes) && fuelTypes == old(fuelTypes)
    {
      loading := true;
      if response.BulkCars? {
        var data := response.cars;
        cars := data;
        makers := LookupList(data, MakerOf);
        models := LookupList(data, ModelOf);
        states := LookupList(data, StateOf);
        cities := LookupList(data, CityOf);
        carTypes := LookupList(data, CarTypeOf);
        fuelTypes := FuelTypes(data);
      }
      loading := false;
    }

    /** getCarById: a cached car is returned without a request; otherwise the
        car is fetched, merged into the cache if its id is absent, and
        returned; a failed fetch returns null and leaves the cache alone.
        `fetched` is the outcome of the request, when one is made. */
    method GetCarById(id: Num, fetched: Option<Car>) returns (r: Option<Car>, requested: bool)
      modifies this`cars
      ensures FindById(old(cars), id).Some? ==> r == FindById(old(cars), id) && !requested && cars == old(cars)
      ensures FindById(old(cars), id).None? ==> requested && r == fetched
      ensures FindById(old(cars), id).None? && fetched.Some? ==> cars == MergeIfAbsent(old(cars), fetched.value)
      ensures fetched.None? ==> cars == old(cars)
    {
      var existing := FindById(cars, id);
      if existing.Some? {
        return existing, false;
      }
      requested := true;
      if fetched.Some? {
        cars := MergeIfAbsent(cars, fetched.value);
      }
      r := fetched;
    }
  }
}

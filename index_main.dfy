/** The home page listing (src/Components/Index-Main.jsx): the filter
    dictionary with its cascade and reset, the filtered cars, with prices
    parsed by parseFloat, and the model and city dropdowns that depend on
    the selected maker and state. */
module IndexMain {
  import opened Js
  import opened Seqs
  import opened Catalog
  import opened Filters

  /** `filteredCars`: no sorting and no pages. */
  function FilteredCars(cars: seq<Car>, f: FilterState): seq<Car> {
    FilterCars(cars, f, ParseFloat)
  }

  class HomePage {
    var filters: FilterState

    constructor ()
      ensures filters == EmptyFilters()
    {
      filters := EmptyFilters();
    }

    method HandleFilterChange(name: string, value: string)
      modifies this
      ensures filters == Cascade(old(filters), name, value)
    {
      filters := Cascade(filters, name, value);
    }

    /** resetFilters: every one of the ten keys becomes "". */
    method ResetFilters()
      modifies this
      ensures filters == EmptyFilters()
    {
      filters := EmptyFilters();
    }

    /** The cars listed: the catalog's cars that pass every filter, in
        catalog order. */
    function Results(cars: seq<Car>): (r: seq<Car>)
      reads this
      ensures IsSubsequence(r, cars)
      ensures forall c :: c in r <==> c in cars && Matches(c, filters, ParseFloat)
    {
      FilterCarsSpec(cars, filters, ParseFloat);
      FilteredCars(cars, filters)
    }

    /** The model options: the models whose maker is the selected one. */
    function ModelOptions(models: seq<Entity>): (r: seq<Entity>)
      reads this
      ensures IsSubsequence(r, models)
      ensures forall e :: e in r <==>
        e in models && e.parent.Some? && IdString(e.parent.value.id) == Get(filters, "maker_id")
    {
      ChildOptionsSpec(models, Get(filters, "maker_id"));
      ChildOptions(models, Get(filters, "maker_id"))
    }

    /** The city options: the cities whose state is the selected one. */
    function CityOptions(cities: seq<Entity>): (r: seq<Entity>)
      reads this
      ensures IsSubsequence(r, cities)
      ensures forall e :: e in r <==>
        e in cities && e.parent.Some? && IdString(e.parent.value.id) == Get(filters, "state_id")
    {
      ChildOptionsSpec(cities, Get(filters, "state_id"));
      ChildOptions(cities, Get(filters, "state_id"))
    }
  }

  /** After a reset, the home page lists every car in its original order. */
  lemma {:induction false} ResetListsAll(cars: seq<Car>)
    ensures FilteredCars(cars, EmptyFilters()) == cars
  {
    EmptyFiltersKeepAll(cars, EmptyFilters(), ParseFloat);
  }
}

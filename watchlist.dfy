/** The watch-list page (src/car/WatchList.jsx): the cached cars whose id is
    among the favourites, and the combined loading flag. */
module WatchList {
  import opened Seqs
  import opened Catalog

  /** `cars.filter(car => favourites.includes(car.id))` */
  function FavouriteCars(cars: seq<Car>, favourites: seq<int>): seq<Car> {
    Filter(cars, (c: Car) => c.id in favourites)
  }

  /** The favourite cars keep the catalog order, and a cached car is listed
      exactly when its id is a favourite. */
  lemma {:induction false} FavouriteCarsSpec(cars: seq<Car>, favourites: seq<int>)
    ensures IsSubsequence(FavouriteCars(cars, favourites), cars)
    ensures forall c :: c in FavouriteCars(cars, favourites) <==> c in cars && c.id in favourites
  {
    FilterIsSubsequence(cars, (c: Car) => c.id in favourites);
    FilterMembers(cars, (c: Car) => c.id in favourites);
  }

  /** Favourite ids that match no cached car contribute nothing: two
      favourite lists that agree on the cached cars' ids list the same cars,
      in the same order and number. */
  lemma {:induction false} OrphanIdsIgnored(cars: seq<Car>, favourites: seq<int>, other: seq<int>)
    requires forall c :: c in cars ==> (c.id in favourites <==> c.id in other)
    ensures FavouriteCars(cars, favourites) == FavouriteCars(cars, other)
  {
    FilterCongruent(cars, (c: Car) => c.id in favourites, (c: Car) => c.id in other);
  }

  /** `favouritesLoading || carsLoading` */
  predicate IsLoading(favouritesLoading: bool, carsLoading: bool) {
    favouritesLoading || carsLoading
  }
}

/** The car page (src/car/View.jsx): the car looked up by the route id once
    the catalog has loaded, the list of its image paths, and the carousel
    index stepped by the Next and Prev buttons and reset when the car changes. */
module CarView {
  import opened Js
  import opened Catalog
  import opened Wrap

  /** `!carsLoading ? cars.find(c => c.id === parseInt(id)) : null` */
  function CarFor(cars: seq<Car>, routeId: string, loading: bool): (r: Option<Car>)
    ensures loading ==> r.None?
    ensures r.Some? ==> r.value in cars && ParseInt(routeId) == Num(r.value.id as real)
    ensures !loading && r.None? ==> forall c :: c in cars ==> ParseInt(routeId) != Num(c.id as real)
  {
    if loading then None else FindById(cars, ParseInt(routeId))
  }

  /** The car shown is the first cached car with the parsed id. */
  lemma {:induction false} CarForIsFirst(cars: seq<Car>, routeId: string)
    ensures CarFor(cars, routeId, false).Some? ==>
      exists i :: 0 <= i < |cars| && cars[i] == CarFor(cars, routeId, false).value &&
        forall j :: 0 <= j < i ==> ParseInt(routeId) != Num(cars[j].id as real)
  {
    FindByIdIsFirst(cars, ParseInt(routeId));
  }

  /** `car?.images?.map(img => img.imagePath) || []` */
  function CarImages(car: Option<Car>): (paths: seq<string>)
    ensures car.None? || car.value.images.None? ==> paths == []
    ensures car.Some? && car.value.images.Some? ==>
      |paths| == |car.value.images.value| &&
      forall k :: 0 <= k < |paths| ==> paths[k] == car.value.images.value[k].imagePath
  {
    if car.Some? && car.value.images.Some? then
      var images := car.value.images.value;
      seq(|images|, k requires 0 <= k < |images| => images[k].imagePath)
    else []
  }

  /** The carousel state: the active index and the car the reset effect
      last ran for. */
  class Carousel {
    var activeIndex: int
    var car: Option<Car>

    constructor (initial: Option<Car>)
      ensures activeIndex == 0 && car == initial
    {
      activeIndex, car := 0, initial;
    }

    /** The reset effect: a different car starts again at its first image. */
    method ShowCar(next: Option<Car>)
      modifies this
      ensures car == next
      ensures next != old(car) ==> activeIndex == 0
      ensures next == old(car) ==> activeIndex == old(activeIndex)
    {
      if next != car {
        activeIndex := 0;
      }
      car := next;
    }

    /** handleNext: one image forward, wrapping; nothing when there are no images. */
    method HandleNext()
      modifies this`activeIndex
      ensures |CarImages(car)| == 0 ==> activeIndex == old(activeIndex)
      ensures |CarImages(car)| > 0 ==> activeIndex == NextIndex(old(activeIndex), |CarImages(car)|)
      ensures 0 <= old(activeIndex) < |CarImages(car)| ==> 0 <= activeIndex < |CarImages(car)|
    {
      var n := |CarImages(car)|;
      if n > 0 {
        activeIndex := NextIndex(activeIndex, n);
      }
    }

    /** handlePrev: one image back, wrapping; nothing when there are no images. */
    method HandlePrev()
      modifies this`activeIndex
      ensures |CarImages(car)| == 0 ==> activeIndex == old(activeIndex)
      ensures |CarImages(car)| > 0 ==> activeIndex == PrevIndex(old(activeIndex), |CarImages(car)|)
      ensures 0 <= old(activeIndex) < |CarImages(car)| ==> 0 <= activeIndex < |CarImages(car)|
    {
      var n := |CarImages(car)|;
      if n > 0 {
        activeIndex := PrevIndex(activeIndex, n);
      }
    }
  }
}

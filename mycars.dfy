/** The owner's listing page (src/car/Mycars.jsx): the guarded fetch of the
    signed-in user's cars with its status classification, and the delete
    handler that drops the car from the list once the server confirms. */
module MyCars {
  import opened Js
  import opened Seqs
  import opened Catalog

  /** `response.ok`: a status in the 2xx range. */
  predicate Ok(status: int) {
    200 <= status < 300
  }

  /** The message thrown for a response's status, in the order the page
      tests it: 401 and 403 first, then any other status that is not ok. */
  function StatusError(status: int): (r: Option<string>)
    ensures status == 401 || status == 403 ==> r == Some("Authentication failed. Please log in again.")
    ensures status != 401 && status != 403 && !Ok(status) ==> r == Some("Failed to fetch your cars.")
    ensures r.None? <==> Ok(status)
  {
    if status == 401 || status == 403 then Some("Authentication failed. Please log in again.")
    else if !Ok(status) then Some("Failed to fetch your cars.")
    else None
  }

  /** The outcome of GET /api/user/my-cars: the request was rejected with a
      message, or the server answered with a status and (when ok) the cars. */
  datatype CarsResponse = Rejected(message: string) | Responded(status: int, cars: seq<Car>)

  /** The cars a confirmed, successful delete of `carId` leaves. */
  function WithoutCar(cars: seq<Car>, carId: int): seq<Car> {
    Filter(cars, (car: Car) => car.id != carId)
  }

  /** A successful delete removes exactly the cars with that id and keeps
      the others in their order. */
  lemma {:induction false} WithoutCarSpec(cars: seq<Car>, carId: int)
    ensures IsSubsequence(WithoutCar(cars, carId), cars)
    ensures forall car :: car in WithoutCar(cars, carId) <==> car in cars && car.id != carId
    ensures |WithoutCar(cars, carId)| < |cars| <==> exists car :: car in cars && car.id == carId
  {
    var p := (car: Car) => car.id != carId;
    FilterIsSubsequence(cars, p);
    FilterMembers(cars, p);
    FilterShorterIff(cars, p);
  }

  /** Filtering drops something exactly when some element fails the predicate. */
  lemma {:induction false} FilterShorterIff(cars: seq<Car>, p: Car -> bool)
    ensures |Filter(cars, p)| < |cars| <==> exists car :: car in cars && !p(car)
    decreases cars
  {
    if cars != [] {
      FilterShorterIff(cars[1..], p);
      assert forall car :: car in cars <==> car == cars[0] || car in cars[1..];
    }
  }

  /** The state of the page. */
  class MyCarsPage {
    var myCars: seq<Car>
    var loading: bool
    var error: Option<string>

    constructor ()
      ensures myCars == [] && loading && error.None?
    {
      myCars, loading, error := [], true, None;
    }

    /** The fetch effect. Without a token the error is set and nothing is
        requested. Otherwise a rejection or a failing status becomes the
        error, and an ok response replaces the list. Loading ends either way. */
    method Load(token: Option<string>, response: CarsResponse) returns (requested: bool)
      modifies this
      ensures requested <==> Present(token)
      ensures !loading
      ensures !Present(token) ==>
        error == Some("You must be logged in to view this page.") && myCars == old(myCars)
      ensures Present(token) && response.Rejected? ==>
        error == Some(response.message) && myCars == old(myCars)
      ensures Present(token) && response.Responded? && StatusError(response.status).Some? ==>
        error == StatusError(response.status) && myCars == old(myCars)
      ensures Present(token) && response.Responded? && StatusError(response.status).None? ==>
        error == old(error) && myCars == response.cars
    {
      if !Present(token) {
        error := Some("You must be logged in to view this page.");
        loading := false;
        return false;
      }
      requested := true;
      loading := true;
      match response {
        case Rejected(message) =>
          error := Some(message);
        case Responded(status, cars) =>
          var problem := StatusError(status);
          if problem.Some? {
            error := problem;
          } else {
            myCars := cars;
          }
      }
      loading := false;
    }

    /** handleDelete: a declined confirmation sends nothing; a confirmed
        delete that succeeds drops the car from the list, and one that
        fails keeps the list and shows the error. */
    method HandleDelete(carId: int, confirmed: bool, outcome: Fetched<()>) returns (requested: bool)
      modifies this`myCars, this`error
      ensures requested == confirmed
      ensures !confirmed ==> myCars == old(myCars) && error == old(error)
      ensures confirmed && outcome.Received? ==>
        myCars == WithoutCar(old(myCars), carId) && error == old(error)
      ensures confirmed && !outcome.Received? ==>
        myCars == old(myCars) && error == Some(FailureMessage(outcome, "Failed to delete the car."))
    {
      if !confirmed {
        return false;
      }
      requested := true;
      if outcome.Received? {
        myCars := WithoutCar(myCars, carId);
      } else {
        error := Some(FailureMessage(outcome, "Failed to delete the car."));
      }
    }
  }
}

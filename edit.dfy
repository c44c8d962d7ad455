/** The edit page (src/car/Edit.jsx): the car loaded through the catalog
    cache and mapped onto the form, the validator, the submit handler (which
    calls the validator without the image list, so it throws before any
    request), and the image upload and delete handlers. */
module Edit {
  import opened Js
  import opened Seqs
  import opened Catalog
  import opened CarForm
  import opened Create

  /** An image of the edit page: its position in `imageUrls` and its URL. */
  datatype EditImage = EditImage(id: int, url: string)

  /** The names of the page's text inputs and selects. The phone input is
      named "phoneNo". */
  const EditInputNames: seq<string> := [
    "makerName", "modelName", "year", "carTypeName", "phoneNo", "price",
    "mileage", "stateName", "cityName", "fuelTypeName", "description"]

  /** The keys of `initialCarState` other than `features`. */
  const StateKeys: seq<string> := [
    "makerName", "modelName", "year", "carTypeName", "price", "mileage",
    "fuelTypeName", "stateName", "cityName", "description", "phoneno"]

  /** `initialCarState`: every field "", no feature. */
  function InitialEditForm(): (form: Form)
    ensures forall k :: k in form.fields <==> k in StateKeys
    ensures forall k :: k in form.fields ==> form.fields[k] == ""
    ensures form.features == map[]
  {
    Form(map k | k in StateKeys :: "", map[])
  }

  /** `n || ""` for a number field: 0 is falsy, any other number is kept;
      the form then handles it by its string form. */
  function NumberField(n: int): (s: string)
    ensures n == 0 <==> s == ""
    ensures n != 0 ==> ParseFloat(s) == Num(n as real) && ParseInt(s) == Num(n as real)
  {
    if n == 0 then ""
    else
      ParseFloatOfIntToString(n);
      ParseIntOfIntToString(n);
      IntToString(n)
  }

  /** `data.fuelType || ""` */
  function OrEmpty(s: Option<string>): string {
    if s.Some? then s.value else ""
  }

  /** The nested records the mapping reads without a guard. */
  predicate MappingReads(car: Car) {
    && car.model.Some? && car.model.value.parent.Some?
    && car.carType.Some?
    && car.city.Some? && car.city.value.parent.Some?
    && car.owner.Some?
  }

  /** The value the mapping gives the field `key`. */
  function LoadedValue(car: Car, key: string): string
    requires MappingReads(car)
  {
    if key == "makerName" then car.model.value.parent.value.name
    else if key == "modelName" then car.model.value.name  // `data.model.model`
    else if key == "year" then NumberField(car.year)
    else if key == "carTypeName" then car.carType.value.name
    else if key == "price" then NumberField(car.price)
    else if key == "mileage" then NumberField(car.mileage)
    else if key == "fuelTypeName" then OrEmpty(car.fuelType)
    else if key == "stateName" then car.city.value.parent.value.name
    else if key == "cityName" then car.city.value.name
    else if key == "description" then car.description
    else car.owner.value.phone
  }

  /** The form a loaded car maps to, or None when one of the unguarded reads
      (`data.model.maker.name`, `data.carType.name`, `data.city.state.name`,
      `data.owner.phone`) throws. The fields are the inputs' names, so the
      phone lands under "phoneNo" and the loaded form has no "phoneno". */
  function EditFormOf(car: Car): (r: Option<Form>)
    ensures r.Some? <==> MappingReads(car)
    ensures r.Some? ==> forall k :: k in r.value.fields <==> k in EditInputNames
    ensures r.Some? ==> forall k :: k in r.value.fields ==> r.value.fields[k] == LoadedValue(car, k)
    ensures r.Some? ==> r.value.features == (if car.features.Some? then car.features.value else map[])
  {
    if !MappingReads(car) then None
    else
      Some(Form(map k | k in EditInputNames :: LoadedValue(car, k),
                if car.features.Some? then car.features.value else map[]))
  }

  /** The loaded form holds the phone under "phoneNo" and has no "phoneno". */
  lemma {:induction false} LoadedPhone(car: Car)
    requires MappingReads(car)
    ensures "phoneno" !in EditFormOf(car).value.fields
    ensures Get(EditFormOf(car).value.fields, "phoneNo") == car.owner.value.phone
  {
    assert "phoneNo" in EditInputNames;
  }

  /** The loaded form's numbers read back as the car's; a 0 reads as an
      empty field. */
  lemma {:induction false} LoadedNumbers(car: Car)
    requires MappingReads(car)
    ensures car.price != 0 ==> ParseFloat(Get(EditFormOf(car).value.fields, "price")) == Num(car.price as real)
    ensures car.price == 0 ==> Get(EditFormOf(car).value.fields, "price") == ""
    ensures car.mileage != 0 ==> ParseInt(Get(EditFormOf(car).value.fields, "mileage")) == Num(car.mileage as real)
    ensures car.mileage == 0 ==> Get(EditFormOf(car).value.fields, "mileage") == ""
  {
    var fields := EditFormOf(car).value.fields;
    assert "price" in EditInputNames && "mileage" in EditInputNames;
    assert fields["price"] == NumberField(car.price);
    assert fields["mileage"] == NumberField(car.mileage);
  }

  /** `data.imageUrls.map((url, i) => ({ id: i, url }))`, or [] without URLs:
      each image's id is its position. */
  function ImagesOf(car: Car): (r: seq<EditImage>)
    ensures car.imageUrls.None? ==> r == []
    ensures car.imageUrls.Some? ==> |r| == |car.imageUrls.value|
    ensures forall i :: 0 <= i < |r| ==> r[i] == EditImage(i, car.imageUrls.value[i])
  {
    if car.imageUrls.None? then []
    else seq(|car.imageUrls.value|, i requires 0 <= i < |car.imageUrls.value| => EditImage(i, car.imageUrls.value[i]))
  }

  /** The message recorded when a check fails. */
  function EditMessage(f: Field): string {
    match f
    case MakerName => "Maker is required."
    case ModelName => "Model is required."
    case Year => "Year is required."
    case CarTypeName => "Car type required."
    case FuelTypeName => "Fuel type required."
    case StateName => "State required."
    case CityName => "City required."
    case Price => "Valid price required."
    case Mileage => "Valid mileage required."
    case Phone => "Phone required."
    case Description => "Description must be 20+ characters."
    case Images => "At least 1 image required."
  }

  /** The error the edit page's validateForm records for `field`, given the
      length of the image list. */
  function EditCheck(field: Field, data: Form, imageCount: nat): Option<string> {
    var value := Get(data.fields, FieldKey(field));
    var failed :=
      match field
      case Images => imageCount == 0
      case Price => value == "" || PriceRejected(value)
      case Mileage => value == "" || MileageRejected(value)
      case Description => value == "" || |value| < 20
      case _ => value == "";
    if failed then Some(EditMessage(field)) else None
  }

  /** The edit validator fails the same checks as the listing validator,
      with its own messages, except the phone: the edit page only requires
      one, the listing page also requires it to match the phone pattern. */
  lemma {:induction false} EditCheckAgreesWithCreate(field: Field, data: Form, imageCount: nat)
    ensures !field.Phone? ==> (EditCheck(field, data, imageCount).Some? <==> CreateCheck(field, data, imageCount).Some?)
    ensures field.Phone? ==> (CreateCheck(field, data, imageCount).None? ==> EditCheck(field, data, imageCount).None?)
    ensures field.Phone? && IsPhone(Get(data.fields, "phoneno")) ==> EditCheck(field, data, imageCount).None?
    ensures field.Phone? && Get(data.fields, "phoneno") != "" && !IsPhone(Get(data.fields, "phoneno")) ==>
      EditCheck(field, data, imageCount).None? && CreateCheck(field, data, imageCount).Some?
  {
    if field.Phone? && IsPhone(Get(data.fields, "phoneno")) {
      assert Get(data.fields, "phoneno") != "" by {
        assert !IsPhone("");
      }
    }
  }

  /** The result of calling validateForm: the errors, or the TypeError it
      throws when called without an image list. */
  datatype Validation = Errors(errors: map<Field, string>) | TypeError

  /** validateForm(data, images): the checks run in order; reading the
      length of a missing image list throws. */
  method ValidateEditForm(data: Form, images: Option<seq<EditImage>>) returns (r: Validation)
    ensures images.None? <==> r.TypeError?
    ensures r.Errors? ==> forall f :: f in r.errors <==> EditCheck(f, data, |images.value|).Some?
    ensures r.Errors? ==> forall f :: f in r.errors ==> r.errors[f] == EditCheck(f, data, |images.value|).value
  {
    var errors := map[];
    for i := 0 to |FormChecks|
      invariant forall f :: f in errors <==> f in FormChecks[..i] && EditCheck(f, data, 0).Some?
      invariant forall f :: f in errors ==> errors[f] == EditCheck(f, data, 0).value
    {
      var f := FormChecks[i];
      var failure := EditCheck(f, data, 0);
      if failure.Some? {
        errors := errors[f := failure.value];
      }
      assert FormChecks[..i + 1] == FormChecks[..i] + [f];
    }
    if images.None? {
      return TypeError;
    }
    assert FormChecks[..|FormChecks|] == FormChecks;
    WithImageCheck(errors, data, |images.value|);
    if |images.value| == 0 {
      errors := errors[Images := EditMessage(Images)];
    }
    r := Errors(errors);
  }

  /** Adding the image check to the form checks' errors gives the errors
      of all checks. */
  lemma {:induction false} WithImageCheck(errors: map<Field, string>, data: Form, imageCount: nat)
    requires forall f :: f in errors <==> f in FormChecks && EditCheck(f, data, 0).Some?
    requires forall f :: f in errors ==> errors[f] == EditCheck(f, data, 0).value
    ensures var all := if imageCount == 0 then errors[Images := EditMessage(Images)] else errors;
      && (forall f :: f in all <==> EditCheck(f, data, imageCount).Some?)
      && (forall f :: f in all ==> all[f] == EditCheck(f, data, imageCount).value)
  {
    forall f: Field | !f.Images?
      ensures EditCheck(f, data, imageCount) == EditCheck(f, data, 0) && f in FormChecks
    {
      EveryFieldChecked(f);
    }
    assert Images !in FormChecks;
  }

  /** After a load, no change made through the page's inputs gives the form
      a "phoneno" field, so the validator always reports the phone missing. */
  lemma {:induction false} PhoneAlwaysMissing(car: Car, changes: seq<Change>, imageCount: nat)
    requires EditFormOf(car).Some?
    requires FromInputs(changes, EditInputNames)
    ensures EditCheck(Phone, ApplyChanges(EditFormOf(car).value, changes), imageCount) == Some("Phone required.")
  {
    LoadedPhone(car);
    ChangesKeepKeysOut(EditFormOf(car).value, changes, EditInputNames, "phoneno");
  }

  /** The state of the edit page. */
  class EditPage {
    var form: Form
    var images: seq<EditImage>
    var loading: bool
    var error: Option<string>
    var formErrors: map<Field, string>

    constructor ()
      ensures form == InitialEditForm() && images == [] && loading && error.None? && formErrors == map[]
    {
      form, images, loading, error, formErrors := InitialEditForm(), [], true, None, map[];
    }

    /** The load effect for the route id: an id that does not parse stops
        with "Invalid Car ID." before any request; otherwise the car is
        looked up through the catalog cache, which makes a request only on a
        miss (`fetched` is what that request would return) and merges the
        fetched car. A missing
        car stops with "Car not found."; a car whose mapping throws leaves
        the page loading; any other car fills the form and the images. */
    method LoadCar(routeId: string, cache: CarCache, fetched: Option<Car>) returns (car: Option<Car>, requested: bool)
      modifies this, cache`cars
      ensures requested <==> ParseInt(routeId).Num? && FindById(old(cache.cars), ParseInt(routeId)).None?
      ensures requested && fetched.Some? ==> cache.cars == MergeIfAbsent(old(cache.cars), fetched.value)
      ensures !(requested && fetched.Some?) ==> cache.cars == old(cache.cars)
      ensures ParseInt(routeId).NaN? ==>
        && car.None? && error == Some("Invalid Car ID.") && !loading
        && form == old(form) && images == old(images) && cache.cars == old(cache.cars)
      ensures ParseInt(routeId).Num? && FindById(old(cache.cars), ParseInt(routeId)).Some? ==>
        car == FindById(old(cache.cars), ParseInt(routeId))
      ensures ParseInt(routeId).Num? && FindById(old(cache.cars), ParseInt(routeId)).None? ==> car == fetched
      ensures ParseInt(routeId).Num? && car.None? ==>
        error == Some("Car not found.") && !loading && form == old(form) && images == old(images)
      ensures ParseInt(routeId).Num? && car.Some? && !MappingReads(car.value) ==>
        loading && error == old(error) && form == old(form) && images == old(images)
      ensures ParseInt(routeId).Num? && car.Some? && MappingReads(car.value) ==>
        !loading && error == old(error) && form == EditFormOf(car.value).value && images == ImagesOf(car.value)
      ensures formErrors == old(formErrors)
    {
      var carId := ParseInt(routeId);
      if carId.NaN? {
        error := Some("Invalid Car ID.");
        loading := false;
        return None, false;
      }
      loading := true;
      car, requested := cache.GetCarById(carId, fetched);
      if car.None? {
        error := Some("Car not found.");
        loading := false;
        return;
      }
      var mapped := EditFormOf(car.value);
      if mapped.None? {
        return;
      }
      form := mapped.value;
      images := ImagesOf(car.value);
      loading := false;
    }

    method HandleChange(name: string, value: string, checked: bool)
      modifies this`form
      ensures form == ApplyChange(old(form), name, value, checked)
    {
      form := ApplyChange(form, name, value, checked);
    }

    /** handleSubmit: sets loading and clears the error, then validateForm,
        called without the image list, throws. No request is sent, the
        form errors are not updated and the page stays loading, which
        disables the submit button. */
    method HandleSubmit() returns (putSent: bool)
      modifies this`loading, this`error
      ensures !putSent && loading && error.None?
    {
      loading := true;
      error := None;
      var outcome := ValidateEditForm(form, None);
      assert outcome.TypeError?;
      putSent := false;
    }

    /** handleImageUpload: with a file chosen, the uploaded image the server
        returns is appended; a failure sets the error and keeps the images. */
    method HandleImageUpload(fileChosen: bool, outcome: Fetched<EditImage>)
      modifies this`images, this`loading, this`error
      ensures !fileChosen ==> images == old(images) && loading == old(loading) && error == old(error)
      ensures fileChosen ==> !loading
      ensures fileChosen && outcome.Received? ==> images == old(images) + [outcome.body] && error == old(error)
      ensures fileChosen && !outcome.Received? ==>
        images == old(images) && error == Some(FailureMessage(outcome, "Image upload failed."))
    {
      if !fileChosen {
        return;
      }
      loading := true;
      if outcome.Received? {
        images := images + [outcome.body];
      } else {
        error := Some(FailureMessage(outcome, "Image upload failed."));
      }
      loading := false;
    }

    /** handleImageDelete: once confirmed, the image is removed before the
        request; if the request fails, the error is set and the list as it
        was before the click is put back, order included. */
    method HandleImageDelete(imageId: int, confirmed: bool, outcome: Fetched<()>)
      modifies this`images, this`error
      ensures !confirmed || !outcome.Received? ==> images == old(images)
      ensures !confirmed || outcome.Received? ==> error == old(error)
      ensures confirmed && outcome.Received? ==> images == Filter(old(images), (img: EditImage) => img.id != imageId)
      ensures confirmed && !outcome.Received? ==> error == Some(FailureMessage(outcome, "Failed to delete image."))
    {
      if !confirmed {
        return;
      }
      var originalImages := images;
      images := Filter(images, (img: EditImage) => img.id != imageId);
      if !outcome.Received? {
        error := Some(FailureMessage(outcome, "Failed to delete image."));
        images := originalImages;
      }
    }
  }

  /** A successful delete removes every image with that id and keeps all
      the others, in order. */
  lemma {:induction false} DeleteKeepsOthers(images: seq<EditImage>, imageId: int)
    ensures IsSubsequence(Filter(images, (img: EditImage) => img.id != imageId), images)
    ensures forall img :: img in Filter(images, (img: EditImage) => img.id != imageId) <==> img in images && img.id != imageId
  {
    FilterIsSubsequence(images, (img: EditImage) => img.id != imageId);
    FilterMembers(images, (img: EditImage) => img.id != imageId);
  }
}

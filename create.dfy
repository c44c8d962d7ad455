/** The listing page (src/car/Create.jsx): the form state, the parallel lists
    of chosen image files and their preview URLs, the validator (which the
    submit handler never calls, and which checks `*Name` keys the form does
    not have), the phone pattern, and the submit handler's token guard and
    request outcomes. */
module Create {
  import opened Js
  import opened Seqs
  import opened CarForm

  /** A file chosen in the file input. */
  datatype ImageFile = ImageFile(name: string, size: nat)

  /** The keys of `initialCarState` other than `features`. */
  const InputNames: seq<string> := [
    "makerId", "modelId", "year", "carTypeId", "price", "mileage",
    "fuelType", "stateId", "cityId", "description", "phoneno"]

  const FeatureNames: seq<string> := [
    "abs", "airConditioning", "powerWindows", "cruiseControl", "bluetoothConnectivity",
    "gpsNavigation", "heatedSeats", "climateControl", "rearParkingSensors", "leatherSeats"]

  /** `initialCarState`: every field "", except the phone, which starts as a
      single space; every feature unchecked. */
  function InitialForm(): (form: Form)
    ensures forall k :: k in form.fields <==> k in InputNames
    ensures forall k :: k in form.fields ==> form.fields[k] == (if k == "phoneno" then " " else "")
    ensures forall k :: k in form.features <==> k in FeatureNames
    ensures forall k :: k in form.features ==> !form.features[k]
  {
    Form(map k | k in InputNames :: if k == "phoneno" then " " else "",
         map k | k in FeatureNames :: false)
  }

  // ---- The phone pattern ^\(?([0-9]{3})\)?[-. ]?([0-9]{3})[-. ]?([0-9]{4})$ ----

  /** One way of writing a phone number the pattern accepts. */
  datatype PhoneParts = PhoneParts(
    open: bool, area: string, close: bool, sep1: string, exchange: string, sep2: string, line: string)

  predicate IsSeparator(c: char) {
    c == '-' || c == '.' || c == ' '
  }

  /** An optional `[-. ]`. */
  predicate OptionalSeparator(s: string) {
    s == "" || (|s| == 1 && IsSeparator(s[0]))
  }

  predicate WellFormed(p: PhoneParts) {
    && |p.area| == 3 && AllDigits(p.area)
    && |p.exchange| == 3 && AllDigits(p.exchange)
    && |p.line| == 4 && AllDigits(p.line)
    && OptionalSeparator(p.sep1) && OptionalSeparator(p.sep2)
  }

  function Optional(present: bool, c: char): string {
    if present then [c] else ""
  }

  /** The text the parts spell. */
  function Spell(p: PhoneParts): string {
    Optional(p.open, '(') + (p.area + (Optional(p.close, ')') +
      (p.sep1 + (p.exchange + (p.sep2 + p.line)))))
  }

  /** The separator the text starts with, if it starts with one. */
  function LeadingSeparator(s: string): (r: string)
    ensures OptionalSeparator(r) && |r| <= |s| && s == r + s[|r|..]
  {
    if |s| > 0 && IsSeparator(s[0]) then s[..1] else ""
  }
  /** Helpers for the matcher's soundness and completeness. */
  lemma {:induction false} SplitAt(s: string, n: nat)
    requires n <= |s|
    ensures s == s[..n] + s[n..]
  {
  }

  lemma {:induction false} SplitOptional(s: string, present: bool, c: char)
    requires present ==> |s| > 0 && s[0] == c
    ensures s == Optional(present, c) + (if present then s[1..] else s)
  {
    if present { assert s == [s[0]] + s[1..]; }
  }

  /** Matching the pattern left to right, one part at a time. Every
      optional part is a single character that cannot start the part after
      it, so taking it whenever it is there is the only way to match. */
  function ParsePhone(s: string): (r: Option<PhoneParts>)
    ensures r.Some? ==> WellFormed(r.value) && Spell(r.value) == s
  {
    var open := |s| > 0 && s[0] == '(';
    var r0 := if open then s[1..] else s;
    SplitOptional(s, open, '(');
    ParseFromArea(open, r0)
  }

  function ParseFromArea(open: bool, r0: string): (r: Option<PhoneParts>)
    ensures r.Some? ==> WellFormed(r.value) && Spell(r.value) == Optional(open, '(') + r0
  {
    if |r0| < 3 || !AllDigits(r0[..3]) then None
    else
      SplitAt(r0, 3);
      ParseFromClose(open, r0[..3], r0[3..])
  }

  function ParseFromClose(open: bool, area: string, r1: string): (r: Option<PhoneParts>)
    requires |area| == 3 && AllDigits(area)
    ensures r.Some? ==> WellFormed(r.value) && Spell(r.value) == Optional(open, '(') + (area + r1)
  {
    var close := |r1| > 0 && r1[0] == ')';
    var r2 := if close then r1[1..] else r1;
    SplitOptional(r1, close, ')');
    var sep1 := LeadingSeparator(r2);
    var r3 := r2[|sep1|..];
    if |r3| < 3 || !AllDigits(r3[..3]) then None
    else
      SplitAt(r3, 3);
      ParseLine(open, area, close, sep1, r3[..3], r3[3..])
  }

  function ParseLine(open: bool, area: string, close: bool, sep1: string, exchange: string, r4: string): (r: Option<PhoneParts>)
    requires |area| == 3 && AllDigits(area) && |exchange| == 3 && AllDigits(exchange) && OptionalSeparator(sep1)
    ensures r.Some? ==>
      WellFormed(r.value) && Spell(r.value) == Optional(open, '(') + (area + (Optional(close, ')') + (sep1 + (exchange + r4))))
  {
    var sep2 := LeadingSeparator(r4);
    var r5 := r4[|sep2|..];
    if |r5| != 4 || !AllDigits(r5) then None
    else Some(PhoneParts(open, area, close, sep1, exchange, sep2, r5))
  }

  /** `phoneRegex.test(s)` */
  predicate IsPhone(s: string) {
    ParsePhone(s).Some?
  }

  lemma {:induction false} DropOptional(x: string, present: bool, c: char)
    requires |x| > 0 && x[0] != c
    ensures var s := Optional(present, c) + x;
      (|s| > 0 && s[0] == c) == present && (if present then s[1..] else s) == x
  {
  }

  lemma {:induction false} DropSeparator(sep: string, x: string)
    requires OptionalSeparator(sep) && |x| > 0 && !IsSeparator(x[0])
    ensures LeadingSeparator(sep + x) == sep && (sep + x)[|sep|..] == x
  {
  }

  lemma {:induction false} DropPiece(d: string, x: string)
    ensures (d + x)[..|d|] == d && (d + x)[|d|..] == x
  {
  }

  /** The matcher finds the one way a well-formed number is written. */
  lemma {:induction false} ParsePhoneOfSpell(p: PhoneParts)
    requires WellFormed(p)
    ensures ParsePhone(Spell(p)) == Some(p)
  {
    var r4 := p.sep2 + p.line;
    var r3 := p.exchange + r4;
    var r2 := p.sep1 + r3;
    var r1 := Optional(p.close, ')') + r2;
    var r0 := p.area + r1;
    DropSeparator(p.sep2, p.line);
    assert ParseLine(p.open, p.area, p.close, p.sep1, p.exchange, r4) == Some(p);
    DropSeparator(p.sep1, r3);
    DropPiece(p.exchange, r4);
    assert r2[0] == (if p.sep1 == "" then p.exchange[0] else p.sep1[0]);
    DropOptional(r2, p.close, ')');
    assert ParseFromClose(p.open, p.area, r1) == Some(p);
    DropPiece(p.area, r1);
    assert ParseFromArea(p.open, r0) == Some(p);
    DropOptional(r0, p.open, '(');
  }

  /** The pattern accepts a text exactly when some well-formed parts spell it. */
  lemma {:induction false} IsPhoneIff(s: string)
    ensures IsPhone(s) <==> exists p :: WellFormed(p) && Spell(p) == s
  {
    if exists p :: WellFormed(p) && Spell(p) == s {
      var p :| WellFormed(p) && Spell(p) == s;
      ParsePhoneOfSpell(p);
    }
  }

  // ---- validateForm ----

  /** The keys validateForm may set, one per check. */
  datatype Field =
    | MakerName | ModelName | Year | CarTypeName | FuelTypeName | StateName | CityName
    | Price | Mileage | Phone | Description | Images

  /** The key each check reads from the form and writes to the errors. */
  function FieldKey(f: Field): string {
    match f
    case MakerName => "makerName"
    case ModelName => "modelName"
    case Year => "year"
    case CarTypeName => "carTypeName"
    case FuelTypeName => "fuelTypeName"
    case StateName => "stateName"
    case CityName => "cityName"
    case Price => "price"
    case Mileage => "mileage"
    case Phone => "phoneno"
    case Description => "description"
    case Images => "images"
  }

  /** `parseFloat(price) <= 0`: false when the text does not parse. */
  predicate PriceRejected(price: string) {
    var n := ParseFloat(price);
    n.Num? && n.value <= 0.0
  }

  /** `parseInt(mileage) < 0`: false when the text does not parse. */
  predicate MileageRejected(mileage: string) {
    var n := ParseInt(mileage);
    n.Num? && n.value < 0.0
  }

  /** The message recorded when the field is falsy. */
  function RequiredMessage(f: Field): string {
    match f
    case MakerName => "Maker is required."
    case ModelName => "Model is required."
    case Year => "Year is required."
    case CarTypeName => "Car Type is required."
    case FuelTypeName => "Fuel Type is required."
    case StateName => "State is required."
    case CityName => "City is required."
    case Price => "Price is required."
    case Mileage => "Mileage is required."
    case Phone => "Phone number is required."
    case Description => "Description is required."
    case Images => "Please upload at least one image."
  }

  /** The error validateForm records for `field`, if any: every form field
      is first required to be truthy; the images are counted instead. */
  function CreateCheck(field: Field, data: Form, imageCount: nat): Option<string> {
    var value := Get(data.fields, FieldKey(field));
    if field.Images? then
      if imageCount == 0 then Some(RequiredMessage(field)) else None
    else if value == "" then Some(RequiredMessage(field))
    else
      match field
      case Price =>
        if PriceRejected(value) then Some("Price must be a positive number.") else None
      case Mileage =>
        if MileageRejected(value) then Some("Mileage cannot be negative.") else None
      case Phone =>
        if !IsPhone(value) then Some("Please enter a valid phone number (e.g., 123-456-7890).") else None
      case Description =>
        if |value| < 20 then Some("Description must be at least 20 characters long.") else None
      case _ => None
  }

  /** What the validator accepts, stated field by field. */
  predicate Acceptable(data: Form, imageCount: nat) {
    var f := data.fields;
    && Get(f, "makerName") != "" && Get(f, "modelName") != "" && Get(f, "year") != ""
    && Get(f, "carTypeName") != "" && Get(f, "fuelTypeName") != ""
    && Get(f, "stateName") != "" && Get(f, "cityName") != ""
    && Get(f, "price") != "" && !PriceRejected(Get(f, "price"))
    && Get(f, "mileage") != "" && !MileageRejected(Get(f, "mileage"))
    && IsPhone(Get(f, "phoneno"))
    && |Get(f, "description")| >= 20
    && imageCount > 0
  }

  /** The requirement one check places on the form, stated without the
      messages. */
  predicate FieldAcceptable(field: Field, data: Form, imageCount: nat) {
    var value := Get(data.fields, FieldKey(field));
    match field
    case Images => imageCount > 0
    case Price => value != "" && !PriceRejected(value)
    case Mileage => value != "" && !MileageRejected(value)
    case Phone => IsPhone(value)
    case Description => |value| >= 20
    case _ => value != ""
  }

  /** A check passes exactly when its requirement holds. */
  lemma {:induction false} CreateCheckPasses(field: Field, data: Form, imageCount: nat)
    ensures CreateCheck(field, data, imageCount).None? <==> FieldAcceptable(field, data, imageCount)
  {
    if field == Phone {
      assert !IsPhone("");
    }
  }

  /** A form on which no check fails is acceptable. */
  lemma {:induction false} PassingFormIsAcceptable(data: Form, imageCount: nat)
    requires forall f :: CreateCheck(f, data, imageCount).None?
    ensures Acceptable(data, imageCount)
  {
    CreateCheckPasses(MakerName, data, imageCount);
    CreateCheckPasses(ModelName, data, imageCount);
    CreateCheckPasses(Year, data, imageCount);
    CreateCheckPasses(CarTypeName, data, imageCount);
    CreateCheckPasses(FuelTypeName, data, imageCount);
    CreateCheckPasses(StateName, data, imageCount);
    CreateCheckPasses(CityName, data, imageCount);
    CreateCheckPasses(Price, data, imageCount);
    CreateCheckPasses(Mileage, data, imageCount);
    CreateCheckPasses(Phone, data, imageCount);
    CreateCheckPasses(Description, data, imageCount);
    CreateCheckPasses(Images, data, imageCount);
  }

  /** On an acceptable form no check fails. */
  lemma {:induction false} AcceptableFormPasses(data: Form, imageCount: nat, f: Field)
    requires Acceptable(data, imageCount)
    ensures CreateCheck(f, data, imageCount).None?
  {
    CreateCheckPasses(f, data, imageCount);
  }

  /** No check fails exactly when the form is acceptable. */
  lemma {:induction false} CreateCheckSpec(data: Form, imageCount: nat)
    ensures (forall f :: CreateCheck(f, data, imageCount).None?) <==> Acceptable(data, imageCount)
  {
    if forall f :: CreateCheck(f, data, imageCount).None? {
      PassingFormIsAcceptable(data, imageCount);
    }
    if Acceptable(data, imageCount) {
      forall f ensures CreateCheck(f, data, imageCount).None? {
        AcceptableFormPasses(data, imageCount, f);
      }
    }
  }

  /** The checks of form fields, in the order validateForm runs them. */
  const FormChecks: seq<Field> := [
    MakerName, ModelName, Year, CarTypeName, FuelTypeName, StateName, CityName,
    Price, Mileage, Phone, Description]

  /** All checks in order: the image check comes last. */
  const CheckOrder: seq<Field> := FormChecks + [Images]

  lemma {:induction false} EveryFieldChecked(f: Field)
    ensures f in CheckOrder
    ensures !f.Images? ==> f in FormChecks
  {
    match f
    case MakerName => case ModelName => case Year => case CarTypeName =>
    case FuelTypeName => case StateName => case CityName => case Price =>
    case Mileage => case Phone => case Description => case Images =>
  }

  /** validateForm: runs the checks in order and records each failing
      check's message under its key. The errors are exactly the failing
      checks, with their messages. */
  method ValidateForm(data: Form, imageCount: nat) returns (errors: map<Field, string>)
    ensures forall f :: f in errors <==> CreateCheck(f, data, imageCount).Some?
    ensures forall f :: f in errors ==> errors[f] == CreateCheck(f, data, imageCount).value
  {
    errors := map[];
    for i := 0 to |CheckOrder|
      invariant forall f :: f in errors <==> f in CheckOrder[..i] && CreateCheck(f, data, imageCount).Some?
      invariant forall f :: f in errors ==> errors[f] == CreateCheck(f, data, imageCount).value
    {
      var f := CheckOrder[i];
      var failure := CreateCheck(f, data, imageCount);
      if failure.Some? {
        errors := errors[f := failure.value];
      }
      assert CheckOrder[..i + 1] == CheckOrder[..i] + [f];
    }
    forall f ensures f in CheckOrder[..|CheckOrder|] {
      EveryFieldChecked(f);
    }
  }

  /** The checks whose key names an entity the form holds by id. */
  predicate IsNameField(f: Field) {
    f.MakerName? || f.ModelName? || f.CarTypeName? || f.FuelTypeName? || f.StateName? || f.CityName?
  }

  lemma {:induction false} NameKeysAreNotInputs(f: Field)
    requires IsNameField(f)
    ensures FieldKey(f) !in InputNames
  {
  }

  /** The validator checks keys the form never holds: on any state the
      form's inputs can reach, it reports the maker, model, car type, fuel
      type, state and city as missing. */
  lemma {:induction false} ValidatorRejectsEveryFormState(changes: seq<Change>, imageCount: nat)
    requires FromInputs(changes, InputNames)
    ensures forall f :: IsNameField(f) ==>
      CreateCheck(f, ApplyChanges(InitialForm(), changes), imageCount) == Some(RequiredMessage(f))
  {
    forall f | IsNameField(f)
      ensures CreateCheck(f, ApplyChanges(InitialForm(), changes), imageCount) == Some(RequiredMessage(f))
    {
      NameKeysAreNotInputs(f);
      ChangesKeepKeysOut(InitialForm(), changes, InputNames, FieldKey(f));
    }
  }

  /** The outcome of POST /api/cars. `NotOkReply` carries the body's
      `message` ("" when it has none), or None when the body is not JSON. */
  datatype CreateReply = PostFailed(message: string) | Unauthorized | NotOkReply(bodyMessage: Option<string>) | Created(carId: int)

  /** The state of the listing page. */
  class CreatePage {
    var form: Form
    var imageFiles: seq<ImageFile>
    var imagePreviews: seq<string>
    var submitting: bool
    var error: Option<string>
    var navigatedTo: Option<string>

    /** Each chosen file has its preview URL at the same position. */
    predicate Parallel()
      reads this
    {
      |imageFiles| == |imagePreviews|
    }

    constructor ()
      ensures form == InitialForm() && imageFiles == [] && imagePreviews == [] && Parallel()
      ensures !submitting && error.None? && navigatedTo.None?
    {
      form, imageFiles, imagePreviews := InitialForm(), [], [];
      submitting, error, navigatedTo := false, None, None;
    }

    method HandleChange(name: string, value: string, checked: bool)
      modifies this`form
      ensures form == ApplyChange(old(form), name, value, checked)
    {
      form := ApplyChange(form, name, value, checked);
    }

    /** handleImageFileChange: the chosen files are appended, and their
        object URLs (from `objectUrl`) are appended to the previews in the
        same order; choosing no file changes nothing. */
    method HandleImageFileChange(files: seq<ImageFile>, objectUrl: ImageFile -> string)
      modifies this`imageFiles, this`imagePreviews
      ensures files == [] ==> imageFiles == old(imageFiles) && imagePreviews == old(imagePreviews)
      ensures files != [] ==> imageFiles == old(imageFiles) + files
      ensures files != [] ==> imagePreviews == old(imagePreviews) + seq(|files|, k requires 0 <= k < |files| => objectUrl(files[k]))
      ensures old(Parallel()) ==> Parallel()
    {
      if |files| == 0 {
        return;
      }
      imageFiles := imageFiles + files;
      imagePreviews := imagePreviews + seq(|files|, k requires 0 <= k < |files| => objectUrl(files[k]));
    }

    /** handleRemovePreviewImage: the file and its preview at `index` go
        together, and every other file keeps its preview. */
    method HandleRemovePreviewImage(index: int)
      modifies this`imageFiles, this`imagePreviews
      ensures imageFiles == RemoveIndex(old(imageFiles), index)
      ensures imagePreviews == RemoveIndex(old(imagePreviews), index)
      ensures old(Parallel()) ==>
        Parallel() && Zip(imageFiles, imagePreviews) == RemoveIndex(Zip(old(imageFiles), old(imagePreviews)), index)
    {
      if |imageFiles| == |imagePreviews| {
        RemoveIndexKeepsPairs(imageFiles, imagePreviews, index);
      }
      imageFiles := RemoveIndex(imageFiles, index);
      imagePreviews := RemoveIndex(imagePreviews, index);
    }

    /** handleSubmit: without a token only the login error is set and no
        request is sent. Otherwise the car is posted without validation;
        once created, one upload is sent per chosen file and the page moves
        to the new car, unless an upload request is rejected
        (`uploadFailure`). */
    method HandleSubmit(token: Option<string>, reply: CreateReply, uploadFailure: Option<string>)
      returns (posted: bool, uploads: nat)
      modifies this`submitting, this`error, this`navigatedTo
      ensures !Present(token) ==>
        && !posted && uploads == 0 && error == Some("You must be logged in to list a car.")
        && submitting == old(submitting) && navigatedTo == old(navigatedTo)
      ensures Present(token) ==> posted && !submitting
      ensures Present(token) && reply.PostFailed? ==> error == Some(reply.message) && uploads == 0
      ensures Present(token) && reply.Unauthorized? ==> error == Some("Unauthorized: Please log in again.") && uploads == 0
      ensures Present(token) && reply.NotOkReply? ==>
        uploads == 0 && error == Some(if reply.bodyMessage.Some? then reply.bodyMessage.value else "Failed to create car.")
      ensures Present(token) && reply.Created? ==> uploads == |imageFiles|
      ensures Present(token) && reply.Created? && (imageFiles == [] || uploadFailure.None?) ==>
        error.None? && navigatedTo == Some("/view/" + IntToString(reply.carId))
      ensures Present(token) && reply.Created? && imageFiles != [] && uploadFailure.Some? ==>
        error == uploadFailure && navigatedTo == old(navigatedTo)
      ensures Present(token) && !reply.Created? ==> navigatedTo == old(navigatedTo)
    {
      if !Present(token) {
        error := Some("You must be logged in to list a car.");
        return false, 0;
      }
      submitting := true;
      error := None;
      posted := true;
      uploads := 0;
      match reply {
        case PostFailed(message) =>
          error := Some(message);
        case Unauthorized =>
          error := Some("Unauthorized: Please log in again.");
        case NotOkReply(bodyMessage) =>
          error := Some(if bodyMessage.Some? then bodyMessage.value else "Failed to create car.");
        case Created(carId) =>
          uploads := |imageFiles|;
          if |imageFiles| > 0 && uploadFailure.Some? {
            error := uploadFailure;
          } else {
            navigatedTo := Some("/view/" + IntToString(carId));
          }
      }
      submitting := false;
    }
  }
}

/** The car form state shared by the listing page (src/car/Create.jsx) and
    the edit page (src/car/Edit.jsx): string fields plus a dictionary of
    feature check boxes, the change handler both pages use, and the year
    options both pages generate with the same loop. */
module CarForm {
  import opened Js

  /** `carData`: every field but `features` is a string here. */
  datatype Form = Form(fields: map<string, string>, features: map<string, bool>)

  const FeaturePrefix: string := "feature_"

  /** handleChange: an input named `feature_<f>` sets feature f to the
      check box state; any other input sets the field it names. Nothing
      else changes. */
  function ApplyChange(form: Form, name: string, value: string, checked: bool): (r: Form)
    ensures StartsWith(name, FeaturePrefix) ==>
      var f := SecondPiece(name, FeaturePrefix);
      && r.fields == form.fields
      && f in r.features && r.features[f] == checked
      && forall k :: k != f ==>
           (k in r.features <==> k in form.features) && (k in form.features ==> r.features[k] == form.features[k])
    ensures !StartsWith(name, FeaturePrefix) ==>
      && r.features == form.features
      && name in r.fields && r.fields[name] == value
      && forall k :: k != name ==>
           (k in r.fields <==> k in form.fields) && (k in form.fields ==> r.fields[k] == form.fields[k])
  {
    if StartsWith(name, FeaturePrefix) then
      form.(features := form.features[SecondPiece(name, FeaturePrefix) := checked])
    else
      form.(fields := form.fields[name := value])
  }

  /** The feature a check box named "feature_" + f toggles is f itself,
      unless f contains "feature_" again, where split cuts it short. */
  lemma {:induction false} FeatureNameOfInput(f: string)
    requires forall k :: 0 <= k <= |f| ==> !StartsWith(f[k..], FeaturePrefix)
    ensures StartsWith(FeaturePrefix + f, FeaturePrefix)
    ensures SecondPiece(FeaturePrefix + f, FeaturePrefix) == f
  {
    var name := FeaturePrefix + f;
    assert name[..|FeaturePrefix|] == FeaturePrefix;
    assert name[|FeaturePrefix|..] == f;
    var r := BeforeFirst(f, FeaturePrefix);
    assert |r| == |f|;
  }

  /** generateYearOptions: the years from `currentYear` down to 1990, both
      ends included, newest first. `currentYear` is the clock's year. */
  method GenerateYearOptions(currentYear: int) returns (years: seq<int>)
    ensures currentYear >= 1990 ==> |years| == currentYear - 1989
    ensures currentYear < 1990 ==> years == []
    ensures forall k :: 0 <= k < |years| ==> years[k] == currentYear - k && years[k] >= 1990
    ensures forall i, j :: 0 <= i < j < |years| ==> years[i] > years[j]
    ensures years != [] ==> years[0] == currentYear && years[|years| - 1] == 1990
  {
    years := [];
    var year := currentYear;
    while year >= 1990
      invariant year <= currentYear
      invariant currentYear >= 1990 ==> year >= 1989
      invariant currentYear < 1990 ==> year == currentYear
      invariant |years| == currentYear - year
      invariant forall k :: 0 <= k < |years| ==> years[k] == currentYear - k
      decreases year
    {
      years := years + [year];
      year := year - 1;
    }
  }

  /** A change event from one of a page's inputs. */
  datatype Change = Change(name: string, value: string, checked: bool)

  /** Every change comes from one of the named inputs or a feature check box. */
  predicate FromInputs(changes: seq<Change>, inputs: seq<string>) {
    forall i :: 0 <= i < |changes| ==> changes[i].name in inputs || StartsWith(changes[i].name, FeaturePrefix)
  }

  /** The form after a sequence of changes. */
  function ApplyChanges(form: Form, changes: seq<Change>): Form
    decreases changes
  {
    if changes == [] then form
    else ApplyChanges(ApplyChange(form, changes[0].name, changes[0].value, changes[0].checked), changes[1..])
  }

  /** A page's inputs never add a field that none of them is named after. */
  lemma {:induction false} ChangesKeepKeysOut(form: Form, changes: seq<Change>, inputs: seq<string>, key: string)
    requires key !in form.fields && key !in inputs
    requires FromInputs(changes, inputs)
    ensures key !in ApplyChanges(form, changes).fields
    decreases changes
  {
    if changes != [] {
      var next := ApplyChange(form, changes[0].name, changes[0].value, changes[0].checked);
      ChangesKeepKeysOut(next, changes[1..], inputs, key);
    }
  }
}

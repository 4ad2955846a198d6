/**
 * The missing-person report form (components/lost-found-form.tsx): field
 * updates by name, including the dotted names of the last-seen location,
 * the required-field check, the device-position lookup, the shaping of the
 * request to the lost-and-found route, and the reset after a successful
 * report. The form is a JavaScript object: a map from field name to value.
 * The position lookup and the request's outcome are parameters.
 */
module LostFoundForm {
  import opened Wrappers
  import opened Text

  /** A form value: text, a number, or a nested object. */
  datatype Val = Str(s: string) | Num(x: real) | Obj(fields: map<string, Val>)

  type Form = map<string, Val>

  const LocationField: string := "lastSeenLocation"
  const LocationPrefix: string := "lastSeenLocation."

  /** JavaScript truthiness of a property read; `None` is `undefined`. */
  predicate Truthy(v: Option<Val>) {
    match v
    case None => false
    case Some(Str(s)) => s != ""
    case Some(Num(x)) => x != 0.0
    case Some(Obj(_)) => true
  }

  function Get(form: Form, field: string): Option<Val> {
    if field in form then Some(form[field]) else None
  }

  /** The initial form: every text empty and the location at address "" and 0, 0. */
  function InitialForm(): Form {
    map["name" := Str(""), "age" := Str(""), "gender" := Str(""), "description" := Str(""),
        LocationField := Obj(map["address" := Str(""), "lat" := Num(0.0), "lng" := Num(0.0)]),
        "reporterName" := Str(""), "reporterPhone" := Str(""), "relation" := Str("")]
  }

  /** The text before the first `.` of `s`. */
  function BeforeDot(s: string): (r: string)
    ensures |r| <= |s| && r == s[..|r|] && '.' !in r
    ensures |r| < |s| ==> s[|r|] == '.'
  {
    if s == [] || s[0] == '.' then [] else [s[0]] + BeforeDot(s[1..])
  }

  /** `field.split('.')[1]` for a field that starts with the location prefix. */
  function NestedKey(field: string): (r: string)
    requires StartsWith(field, LocationPrefix)
    ensures '.' !in r
  {
    BeforeDot(field[|LocationPrefix|..])
  }

  /** The own properties that `{...v}` copies; spreading a text or a number is taken to copy none. */
  function Spread(v: Option<Val>): map<string, Val> {
    if v.Some? && v.value.Obj? then v.value.fields else map[]
  }

  /**
   * `handleInputChange`: a dotted location name sets that one key of the
   * location object; any other name sets that one top-level field.
   */
  function InputChange(form: Form, field: string, value: string): (r: Form)
    ensures StartsWith(field, LocationPrefix) ==>
      (&& r.Keys == form.Keys + {LocationField}
       && (forall k :: k in form && k != LocationField ==> r[k] == form[k])
       && r[LocationField].Obj?
       && r[LocationField].fields.Keys == Spread(Get(form, LocationField)).Keys + {NestedKey(field)}
       && r[LocationField].fields[NestedKey(field)] == Str(value)
       && (forall k :: k in Spread(Get(form, LocationField)) && k != NestedKey(field) ==>
             r[LocationField].fields[k] == Spread(Get(form, LocationField))[k]))
    ensures !StartsWith(field, LocationPrefix) ==>
      (&& r.Keys == form.Keys + {field}
       && r[field] == Str(value)
       && (forall k :: k in form && k != field ==> r[k] == form[k]))
  {
    if StartsWith(field, LocationPrefix) then
      form[LocationField := Obj(Spread(Get(form, LocationField))[NestedKey(field) := Str(value)])]
    else
      form[field := Str(value)]
  }

  const RequiredFields: seq<string> := ["name", "description", "reporterName", "reporterPhone"]

  /** The submit guard: the name, description, reporter name and reporter phone are all truthy. */
  predicate RequiredFilled(form: Form)
    ensures RequiredFilled(form) <==> forall f :: f in RequiredFields ==> Truthy(Get(form, f))
  {
    Truthy(Get(form, "name")) && Truthy(Get(form, "description"))
    && Truthy(Get(form, "reporterName")) && Truthy(Get(form, "reporterPhone"))
  }

  /** Emptying any required field blocks the submit, whatever the other fields hold. */
  lemma ClearingARequiredFieldBlocks(form: Form, field: string)
    requires field in RequiredFields
    ensures !RequiredFilled(InputChange(form, field, ""))
  {
    assert !StartsWith(field, LocationPrefix);
    assert Get(InputChange(form, field, ""), field) == Some(Str(""));
  }

  /** Typing text into the four required fields makes any form submittable. */
  lemma TypingTheRequiredFieldsUnblocks(form: Form, name: string, description: string, reporter: string, phone: string)
    requires name != "" && description != "" && reporter != "" && phone != ""
    ensures RequiredFilled(
      InputChange(InputChange(InputChange(InputChange(form, "name", name), "description", description),
                              "reporterName", reporter), "reporterPhone", phone))
  {
    var f1 := InputChange(form, "name", name);
    var f2 := InputChange(f1, "description", description);
    var f3 := InputChange(f2, "reporterName", reporter);
    var f4 := InputChange(f3, "reporterPhone", phone);
    assert f4["name"] == Str(name) && f4["description"] == Str(description);
    assert f4["reporterName"] == Str(reporter) && f4["reporterPhone"] == Str(phone);
  }

  /** The initial form is not submittable. */
  lemma InitialFormIncomplete()
    ensures !RequiredFilled(InitialForm())
  {
    assert Get(InitialForm(), "name") == Some(Str(""));
  }

  /** The `age` of the request: absent, a number, or NaN (sent as null). */
  datatype Age = NoAge | AgeNumber(n: int) | AgeNaN

  /**
   * `parseInt` of a value: of a text, of a number's rendering (its whole part), NaN for an object.
   * `LostFoundFormState.Change` only writes texts, so from the form itself the age is always a
   * `Str`; the other branches cover a form value of another type, which the form does not produce.
   */
  function ParseIntOf(v: Val): (r: Age)
    ensures !r.NoAge?
    ensures v.Obj? ==> r == AgeNaN
    ensures v.Str? ==> (r == AgeNaN <==> ParseInt(v.s).None?)
    ensures v.Str? && r.AgeNumber? ==> Some(r.n) == ParseInt(v.s)
    ensures v.Num? && v.x >= 0.0 ==> r.AgeNumber? && r.n as real <= v.x < r.n as real + 1.0
    ensures v.Num? && v.x < 0.0 ==> r.AgeNumber? && r.n as real - 1.0 < v.x <= r.n as real
  {
    match v
    case Str(s) => if ParseInt(s).Some? then AgeNumber(ParseInt(s).value) else AgeNaN
    case Num(x) => AgeNumber(if x >= 0.0 then x.Floor else -((-x).Floor))
    case Obj(_) => AgeNaN
  }

  datatype ReportedBy = ReportedBy(name: Option<Val>, phone: Option<Val>, relation: Option<Val>)

  /** The body posted to the lost-and-found route; `None` is a property left undefined. */
  datatype Report = Report(
    name: Option<Val>, age: Age, gender: Option<Val>, description: Option<Val>,
    lastSeenLocation: Option<Val>, reportedBy: ReportedBy)

  /**
   * `submitForm`'s body: an empty age is left out, otherwise parsed; an
   * empty gender is left out; the reporter's name, phone and relation are
   * grouped under `reportedBy`; the rest are copied.
   */
  function ReportOf(data: Form): (r: Report)
    ensures !Truthy(Get(data, "age")) <==> r.age == NoAge
    ensures Truthy(Get(data, "age")) ==> r.age == ParseIntOf(data["age"])
    ensures !Truthy(Get(data, "gender")) <==> r.gender.None?
    ensures Truthy(Get(data, "gender")) ==> r.gender == Some(data["gender"])
    ensures r.reportedBy == ReportedBy(Get(data, "reporterName"), Get(data, "reporterPhone"), Get(data, "relation"))
    ensures r.name == Get(data, "name") && r.description == Get(data, "description")
    ensures r.lastSeenLocation == Get(data, LocationField)
  {
    Report(
      Get(data, "name"),
      if Truthy(Get(data, "age")) then ParseIntOf(data["age"]) else NoAge,
      if Truthy(Get(data, "gender")) then Get(data, "gender") else None,
      Get(data, "description"),
      Get(data, LocationField),
      ReportedBy(Get(data, "reporterName"), Get(data, "reporterPhone"), Get(data, "relation")))
  }

  /** An age typed as digits reaches the request as that number. */
  lemma TypedAgeIsSent(form: Form, age: nat)
    requires Get(form, "age") == Some(Str(NatToString(age)))
    ensures ReportOf(form).age == AgeNumber(age)
  {
    ParseIntRoundTrip(age);
  }

  /** The data sent once the device position is known: the location with that latitude and longitude. */
  function WithPosition(form: Form, lat: real, lng: real): (r: Form)
    ensures r.Keys == form.Keys + {LocationField}
    ensures forall k :: k in form && k != LocationField ==> r[k] == form[k]
    ensures r[LocationField] == Obj(Spread(Get(form, LocationField))["lat" := Num(lat)]["lng" := Num(lng)])
  {
    form[LocationField := Obj(Spread(Get(form, LocationField))["lat" := Num(lat)]["lng" := Num(lng)])]
  }

  /** Whether the device position is asked for: geolocation exists and the location has no (truthy) latitude. */
  predicate WantsPosition(form: Form, geolocationAvailable: bool)
    ensures WantsPosition(form, geolocationAvailable) ==> geolocationAvailable
  {
    geolocationAvailable && !Truthy(Get(Spread(Get(form, LocationField)), "lat"))
  }

  /** The fresh form, whose latitude is 0, asks for the position wherever geolocation exists. */
  lemma InitialFormWantsPosition()
    ensures WantsPosition(InitialForm(), true)
  {
    assert Get(InitialForm(), LocationField) == Some(Obj(map["address" := Str(""), "lat" := Num(0.0), "lng" := Num(0.0)]));
  }

  /** Data that already carries a non-zero latitude would not ask for the position again. */
  lemma PositionNotAskedTwice(form: Form, lat: real, lng: real, geolocationAvailable: bool)
    requires lat != 0.0
    ensures !WantsPosition(WithPosition(form, lat, lng), geolocationAvailable)
  {
    var loc := Spread(Get(form, LocationField))["lat" := Num(lat)]["lng" := Num(lng)];
    assert Spread(Get(WithPosition(form, lat, lng), LocationField)) == loc;
    assert Get(loc, "lat") == Some(Num(lat));
  }

  datatype FormEffect =
    | PositionRequested
    | Posted(report: Report)
    | FormToast(title: string, destructive: bool)
    | ReportedToParent
    | ClosedForm

  class LostFoundFormState {
    var form: Form
    var isSubmitting: bool
    var effects: seq<FormEffect>

    /** Nothing is being submitted between handlers, and no report was posted without the required fields. */
    ghost predicate Valid()
      reads this
    {
      && !isSubmitting
      && forall e :: e in effects && e.Posted? ==>
        Truthy(e.report.name) && Truthy(e.report.description)
        && Truthy(e.report.reportedBy.name) && Truthy(e.report.reportedBy.phone)
    }

    constructor ()
      ensures Valid()
      ensures form == InitialForm() && !isSubmitting && effects == []
    {
      form, isSubmitting, effects := InitialForm(), false, [];
    }

    method Change(field: string, value: string)
      requires Valid()
      modifies this
      ensures Valid()
      ensures form == InputChange(old(form), field, value)
      ensures isSubmitting == old(isSubmitting) && effects == old(effects)
    {
      form := InputChange(form, field, value);
    }

    /**
     * `handleSubmit` with `submitForm`. Without the required fields an error
     * is shown and nothing is posted. Otherwise, when the position is
     * wanted it is asked for and, if it comes, merged into the location;
     * the report is posted. On success the parent is told, the form closes
     * and is reset. On failure the form is kept; an error toast appears only
     * when no position was asked for, since a failure inside the position
     * callback is not caught by the handler.
     */
    method Submit(geolocationAvailable: bool, position: Option<(real, real)>, succeeds: bool)
      requires Valid()
      modifies this
      ensures Valid()
      ensures !RequiredFilled(old(form)) ==> form == old(form) && effects == old(effects) + [FormToast("Error", true)]
      ensures RequiredFilled(old(form)) ==>
        var data := if WantsPosition(old(form), geolocationAvailable) && position.Some?
                    then WithPosition(old(form), position.value.0, position.value.1) else old(form);
        var asked := if WantsPosition(old(form), geolocationAvailable) then [PositionRequested] else [];
        && form == (if succeeds then InitialForm() else old(form))
        && effects == old(effects) + asked + [Posted(ReportOf(data))]
             + (if succeeds then [FormToast("Report Submitted", false), ReportedToParent, ClosedForm]
                else if WantsPosition(old(form), geolocationAvailable) then [] else [FormToast("Error", true)])
    {
      if !RequiredFilled(form) {
        effects := effects + [FormToast("Error", true)];
        return;
      }
      isSubmitting := true;
      var data := form;
      var viaCallback := WantsPosition(form, geolocationAvailable);
      if viaCallback {
        effects := effects + [PositionRequested];
        if position.Some? {
          data := WithPosition(form, position.value.0, position.value.1);
        }
      }
      var report := ReportOf(data);
      assert Get(data, "name") == Get(form, "name") && Get(data, "description") == Get(form, "description");
      assert Get(data, "reporterName") == Get(form, "reporterName");
      assert Get(data, "reporterPhone") == Get(form, "reporterPhone");
      effects := effects + [Posted(report)];
      if succeeds {
        effects := effects + [FormToast("Report Submitted", false), ReportedToParent, ClosedForm];
        form := InitialForm();
      } else if !viaCallback {
        effects := effects + [FormToast("Error", true)];
      }
      isSubmitting := false;
    }
  }
}

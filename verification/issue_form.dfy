/**
 * The issue form record and its change rule, shared by the stand-alone issue
 * form and the report page (both hold the same record and the same
 * `handleChange`), and the stand-alone form component itself.
 */
module IssueForm {
  import opened Common
  import opened Text

  /**
   * The form record. The nested `location` and `reportedBy` objects and the
   * top-level text fields are maps from field name to text, because a change
   * event writes the field its input is named after, whatever that name is.
   */
  datatype FormData = FormData(
    top: map<string, string>,
    location: map<string, string>,
    reportedBy: map<string, string>)

  /** Every field of the form starts out as the empty string. */
  const InitialForm := FormData(
    map["imageUrl" := "", "description" := ""],
    map["latitude" := "", "longitude" := "", "address" := "", "city" := "", "state" := "", "pincode" := ""],
    map["name" := "", "contact" := ""])

  const LocationPrefix := "location."
  const ReporterPrefix := "reportedBy."

  /** `name.split('.')[1]`, for a name that has a dot. */
  function FieldOf(name: string): string
    requires '.' in name
  {
    Split(name, '.')[1]
  }

  /**
   * handleChange: a "location." name writes that field of `location`, a
   * "reportedBy." name that field of `reportedBy`, any other name the
   * top-level field of that name.
   */
  function Update(form: FormData, name: string, value: string): (r: FormData)
    ensures form.top.Keys <= r.top.Keys && form.location.Keys <= r.location.Keys
    ensures form.reportedBy.Keys <= r.reportedBy.Keys
    ensures || (r.location == form.location && r.reportedBy == form.reportedBy)
            || (r.top == form.top && r.reportedBy == form.reportedBy)
            || (r.top == form.top && r.location == form.location)
    ensures value in r.top.Values + r.location.Values + r.reportedBy.Values
  {
    if StartsWith(name, LocationPrefix) then
      assert name[8] == '.';
      var location := form.location[FieldOf(name) := value];
      assert location[FieldOf(name)] in location.Values;
      form.(location := location)
    else if StartsWith(name, ReporterPrefix) then
      assert name[10] == '.';
      var reportedBy := form.reportedBy[FieldOf(name) := value];
      assert reportedBy[FieldOf(name)] in reportedBy.Values;
      form.(reportedBy := reportedBy)
    else
      var top := form.top[name := value];
      assert top[name] in top.Values;
      form.(top := top)
  }

  /** The field named after a prefix ending in a dot is the rest of the name, up to the next dot. */
  lemma FieldAfterPrefix(prefix: string, field: string)
    requires |prefix| > 0 && prefix[|prefix| - 1] == '.' && '.' !in prefix[..|prefix| - 1]
    requires '.' !in field
    ensures '.' in prefix + field
    ensures FieldOf(prefix + field) == field
  {
    var p := prefix[..|prefix| - 1];
    assert prefix + field == p + ['.'] + field;
    SplitAtFirstSeparator(p, '.', field);
    SplitNoSeparator(field, '.');
  }

  /** A "location." name with a dot-free field writes exactly that entry of `location`. */
  lemma LocationUpdate(form: FormData, field: string, value: string)
    requires '.' !in field
    ensures Update(form, LocationPrefix + field, value) == form.(location := form.location[field := value])
  {
    FieldAfterPrefix(LocationPrefix, field);
    assert (LocationPrefix + field)[..|LocationPrefix|] == LocationPrefix;
  }

  /** "location.f" changes `location.f` and nothing else. */
  lemma LocationChangeIsLocal(form: FormData, field: string, value: string)
    requires '.' !in field
    ensures var r := Update(form, LocationPrefix + field, value);
      && r.top == form.top
      && r.reportedBy == form.reportedBy
      && r.location.Keys == form.location.Keys + {field}
      && r.location[field] == value
      && forall k :: k in form.location && k != field ==> r.location[k] == form.location[k]
  {
    FieldAfterPrefix(LocationPrefix, field);
    assert (LocationPrefix + field)[..|LocationPrefix|] == LocationPrefix;
  }

  /** "reportedBy.f" changes `reportedBy.f` and nothing else. */
  lemma ReporterChangeIsLocal(form: FormData, field: string, value: string)
    requires '.' !in field
    ensures var r := Update(form, ReporterPrefix + field, value);
      && r.top == form.top
      && r.location == form.location
      && r.reportedBy.Keys == form.reportedBy.Keys + {field}
      && r.reportedBy[field] == value
      && forall k :: k in form.reportedBy && k != field ==> r.reportedBy[k] == form.reportedBy[k]
  {
    FieldAfterPrefix(ReporterPrefix, field);
    var name := ReporterPrefix + field;
    assert name[..|ReporterPrefix|] == ReporterPrefix;
    assert name[0] != LocationPrefix[0];
  }

  /**
   * Any other name changes that top-level field and nothing else. The names
   * "location" and "reportedBy" themselves are excluded: the record spread
   * would replace the nested object by the text, and no input has either name.
   */
  lemma TopLevelChangeIsLocal(form: FormData, name: string, value: string)
    requires !StartsWith(name, LocationPrefix) && !StartsWith(name, ReporterPrefix)
    requires name != "location" && name != "reportedBy"
    ensures var r := Update(form, name, value);
      && r.location == form.location
      && r.reportedBy == form.reportedBy
      && r.top.Keys == form.top.Keys + {name}
      && r.top[name] == value
      && forall k :: k in form.top && k != name ==> r.top[k] == form.top[k]
  {
  }

  /** What the browser's geolocation service reports: no service, an error, or a position rendered as text. */
  datatype Geolocation = Unsupported | Denied(message: string) | Located(latitude: string, longitude: string)

  const LocationUnsupportedMessage := "Geolocation is not supported by your browser"
  const LocationDeniedPrefix := "Unable to get location: "

  /** A captured position overwrites latitude and longitude and leaves every other field as it was. */
  function WithPosition(form: FormData, latitude: string, longitude: string): (r: FormData)
    ensures r.top == form.top && r.reportedBy == form.reportedBy
    ensures r.location.Keys == form.location.Keys + {"latitude", "longitude"}
    ensures r.location["latitude"] == latitude && r.location["longitude"] == longitude
    ensures forall k :: k in form.location && k != "latitude" && k != "longitude" ==> r.location[k] == form.location[k]
  {
    form.(location := form.location["latitude" := latitude]["longitude" := longitude])
  }

  /** Filling in both coordinates through the inputs gives the same record as a captured position. */
  lemma TypedCoordinatesMatchPosition(form: FormData, latitude: string, longitude: string)
    ensures Update(Update(form, "location.latitude", latitude), "location.longitude", longitude)
      == WithPosition(form, latitude, longitude)
  {
    var lat, lng := "latitude", "longitude";
    assert '.' !in lat && '.' !in lng;
    assert LocationPrefix + lat == "location.latitude";
    assert LocationPrefix + lng == "location.longitude";
    LocationUpdate(form, lat, latitude);
    var f1 := form.(location := form.location[lat := latitude]);
    LocationUpdate(f1, lng, longitude);
  }

  /** The stand-alone form component: its record, the change handler and the hand-off on submit. */
  class IssueFormView {
    var form: FormData
    /** Messages shown with `alert`. */
    var alerts: seq<string>

    constructor ()
      ensures form == InitialForm && alerts == []
    {
      form := InitialForm;
      alerts := [];
    }

    /** getCurrentLocation: a position fills both coordinates; otherwise an alert says why not. */
    method UseCurrentLocation(geo: Geolocation)
      modifies this
      ensures geo.Located? ==> form == WithPosition(old(form), geo.latitude, geo.longitude) && alerts == old(alerts)
      ensures geo.Denied? ==> form == old(form) && alerts == old(alerts) + [LocationDeniedPrefix + geo.message]
      ensures geo.Unsupported? ==> form == old(form) && alerts == old(alerts) + [LocationUnsupportedMessage]
    {
      match geo {
        case Located(latitude, longitude) =>
          form := WithPosition(form, latitude, longitude);
        case Denied(message) =>
          alerts := alerts + [LocationDeniedPrefix + message];
        case Unsupported =>
          alerts := alerts + [LocationUnsupportedMessage];
      }
    }

    /** handleChange stores the updated record. */
    method HandleChange(name: string, value: string)
      modifies this
      ensures form == Update(old(form), name, value) && alerts == old(alerts)
    {
      form := Update(form, name, value);
    }

    /** handleSubmit passes the current record, unchanged, to `onSubmit`. */
    method HandleSubmit() returns (submitted: FormData)
      ensures submitted == form
    {
      submitted := form;
    }
  }

  /** The submit button is disabled exactly while the parent reports loading; an empty image URL does not disable it. */
  function SubmitDisabled(loading: bool, form: FormData): (disabled: bool)
    ensures disabled <==> loading
  {
    loading
  }

  /** The error block is rendered exactly when the error prop is non-empty. */
  function ShowsError(error: string): (shown: bool)
    ensures shown <==> error != ""
  {
    error != ""
  }
}

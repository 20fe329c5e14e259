/** The area form's cross-field check of latitude and longitude, and its
    `position` choices.

    Coordinates are the form's optional decimals, exact here as `real`.
    The check tests them for truthiness, so a coordinate of zero counts as
    missing. */
module Forms {
  import opened Wrappers

  /** The form's cleaned values that the check reads. */
  datatype CleanedData = CleanedData(lat: Option<real>, lon: Option<real>, code: string)

  /** What `clean` returns: the empty string after recording an error,
      or the cleaned data unchanged. */
  datatype CleanResult = Rejected | Accepted(data: CleanedData)

  /** An error the check records: the field and its one message. */
  datatype FieldError = FieldError(field: string, message: string)

  const MissingLatitude := "Please provide the latitude"
  const MissingLongitude := "Please provide the longitude"
  const LatitudeOutOfRange := "Invalid latitude must be between 90 and -90"
  /** The longitude message as the source words it, naming the latitude. */
  const LongitudeOutOfRange := "Invalid latitude must be between 180 and -180"

  /** Python truthiness of an optional decimal: None and zero are false. */
  predicate Given(x: Option<real>)
  {
    x.Some? && x.value != 0.0
  }

  predicate LatInRange(lat: real) { -90.0 <= lat <= 90.0 }
  predicate LonInRange(lon: real) { -180.0 <= lon <= 180.0 }

  /** The coordinates the form accepts: none given, or both given and in range. */
  predicate Acceptable(lat: Option<real>, lon: Option<real>)
  {
    (!Given(lat) && !Given(lon)) ||
    (Given(lat) && Given(lon) && LatInRange(lat.value) && LonInRange(lon.value))
  }

  /** The error `clean` records, if any, in the order the source tests:
      a missing latitude, a missing longitude, the latitude's range, the
      longitude's range. */
  function Verdict(lat: Option<real>, lon: Option<real>): (e: Option<FieldError>)
    ensures e.None? <==> Acceptable(lat, lon)
    ensures e.Some? ==> e.value.field == "lat" || e.value.field == "lon"
  {
    if !Given(lat) && Given(lon) then Some(FieldError("lat", MissingLatitude))
    else if Given(lat) && !Given(lon) then Some(FieldError("lon", MissingLongitude))
    else if Given(lat) && Given(lon) then
      if !LatInRange(lat.value) then Some(FieldError("lat", LatitudeOutOfRange))
      else if !LonInRange(lon.value) then Some(FieldError("lon", LongitudeOutOfRange))
      else None
    else None
  }

  /** The latitude is faulted exactly when it is missing beside a given
      longitude, or when both are given and it is out of range. */
  lemma LatitudeErrorIff(lat: Option<real>, lon: Option<real>)
    ensures (Verdict(lat, lon).Some? && Verdict(lat, lon).value.field == "lat") <==>
      (!Given(lat) && Given(lon)) || (Given(lat) && Given(lon) && !LatInRange(lat.value))
  {
  }

  /** The longitude is faulted exactly when it is missing beside a given
      latitude, or when both are given, the latitude is in range and the
      longitude is not: the latitude is checked first. */
  lemma LongitudeErrorIff(lat: Option<real>, lon: Option<real>)
    ensures (Verdict(lat, lon).Some? && Verdict(lat, lon).value.field == "lon") <==>
      (Given(lat) && !Given(lon)) ||
      (Given(lat) && Given(lon) && LatInRange(lat.value) && !LonInRange(lon.value))
  {
  }

  /** A latitude of zero counts as missing. */
  lemma ZeroLatitudeIsMissing(lon: real)
    requires lon != 0.0
    ensures Verdict(Some(0.0), Some(lon)) == Some(FieldError("lat", MissingLatitude))
  {
  }

  /** The form, with the error map that `clean` writes into. */
  class LocationForm {
    var cleanedData: CleanedData
    var errors: map<string, seq<string>>

    constructor (data: CleanedData)
      ensures cleanedData == data && errors == map[]
    {
      cleanedData := data;
      errors := map[];
    }

    /** `clean`: records at most one error, under one key, as a one-message
        list, and returns the empty result then; otherwise returns the
        cleaned data and leaves the errors alone. */
    method Clean() returns (r: CleanResult)
      modifies this`errors
      ensures var v := Verdict(cleanedData.lat, cleanedData.lon);
        match v
        case None => r == Accepted(cleanedData) && errors == old(errors)
        case Some(e) => r == Rejected && errors == old(errors)[e.field := [e.message]]
    {
      var lat := cleanedData.lat;
      var lon := cleanedData.lon;
      if !Given(lat) && Given(lon) {
        errors := errors["lat" := [MissingLatitude]];
        return Rejected;
      } else if Given(lat) && !Given(lon) {
        errors := errors["lon" := [MissingLongitude]];
        return Rejected;
      }
      if Given(lat) && Given(lon) {
        if !LatInRange(lat.value) {
          errors := errors["lat" := [LatitudeOutOfRange]];
          return Rejected;
        }
        if !LonInRange(lon.value) {
          errors := errors["lon" := [LongitudeOutOfRange]];
          return Rejected;
        }
      }
      return Accepted(cleanedData);
    }
  }

  // ---------------------------------------------------------------------
  // The `position` field
  // ---------------------------------------------------------------------

  /** Where a moved area goes relative to its target. */
  datatype Position = LastChild | Left | Right

  /** The submitted value of a choice. */
  function PositionValue(p: Position): string
  {
    match p
    case LastChild => "last-child"
    case Left => "left"
    case Right => "right"
  }

  /** The label the form shows for a choice. */
  function PositionLabel(p: Position): string
  {
    match p
    case LastChild => "inside"
    case Left => "before"
    case Right => "after"
  }

  /** The choices, in the form's order, as (value, label) pairs. */
  const PositionChoices := [("last-child", "inside"), ("left", "before"), ("right", "after")]

  /** Each position is exactly one listed choice: its value and label form
      a pair of the list, and different positions have different values. */
  lemma PositionChoicesSpec(p: Position, q: Position)
    ensures (PositionValue(p), PositionLabel(p)) in PositionChoices
    ensures PositionValue(p) == PositionValue(q) ==> p == q
    ensures |PositionChoices| == 3
  {
  }

  /** Cleaning the optional choice field: Some(None) for the empty value,
      Some(Some(p)) for a listed value, None for anything else (an invalid
      choice). */
  function CleanPosition(s: string): (r: Option<Option<Position>>)
    ensures r == Some(None) <==> s == ""
    ensures forall p :: r == Some(Some(p)) <==> s == PositionValue(p)
  {
    if s == "" then Some(None)
    else if s == "last-child" then Some(Some(LastChild))
    else if s == "left" then Some(Some(Left))
    else if s == "right" then Some(Some(Right))
    else None
  }
}

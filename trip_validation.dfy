/** The trip-builder schemas (`locationSchema`, `tripStopSchema`,
    `tripInputSchema`, `tripBuilderFormSchema`) as predicates over typed
    records.  The date refinements compare with the current date and are
    not part of the model; neither is the form's `Date` object. */
module TripValidation {
  import opened Wrappers
  import opened Text
  import opened SearchValidation

  predicate PlaceTypeValid(t: string) {
    t == "city" || t == "station" || t == "airport" || t == "bus_stand" || t == "address"
  }

  datatype LocationInput = LocationInput(
    id: string, name: string, city: string, state: string, country: Option<string>, lat: real, lng: real,
    placeType: Option<string>, displayName: Option<string>)

  /** `locationSchema`. */
  predicate LocationValid(l: LocationInput) {
    |l.id| >= 1 && 1 <= |l.name| <= 100 && 1 <= |l.city| <= 50 && 1 <= |l.state| <= 50 &&
    -90.0 <= l.lat <= 90.0 && -180.0 <= l.lng <= 180.0 &&
    (l.placeType.Some? ==> PlaceTypeValid(l.placeType.value)) &&
    (l.displayName.Some? ==> |l.displayName.value| <= 200)
  }

  /** The parsed country: `.default('India')` fills a missing one. */
  function Country(l: LocationInput): (c: string)
    ensures l.country.None? ==> c == "India"
    ensures l.country.Some? ==> c == l.country.value
  {
    l.country.GetOr("India")
  }

  datatype TripStopInput = TripStopInput(
    id: string, location: LocationInput, duration: real, arrivalTime: Option<string>,
    departureTime: Option<string>, activities: Option<seq<string>>, notes: Option<string>)

  /** `tripStopSchema`: the duration need not be whole. */
  predicate TripStopValid(s: TripStopInput) {
    |s.id| >= 1 && LocationValid(s.location) && 15.0 <= s.duration <= 4320.0 &&
    (s.activities.Some? ==> forall k :: 0 <= k < |s.activities.value| ==> |s.activities.value[k]| <= 200) &&
    (s.notes.Some? ==> |s.notes.value| <= 500)
  }

  datatype TripInput = TripInput(
    origin: LocationInput, destination: LocationInput, date: string, time: Option<string>, passengers: real,
    preference: string, stops: Option<seq<TripStopInput>>)

  /** The field rules of `tripInputSchema`, with at most ten stops. */
  predicate TripFieldsValid(t: TripInput) {
    LocationValid(t.origin) && LocationValid(t.destination) &&
    (t.time.Some? ==> TimeFormat(t.time.value)) &&
    IsInteger(t.passengers) && 1.0 <= t.passengers <= 50.0 &&
    PreferenceValid(t.preference) &&
    (t.stops.Some? ==> |t.stops.value| <= 10 && forall k :: 0 <= k < |t.stops.value| ==> TripStopValid(t.stops.value[k]))
  }

  /** `tripInputSchema`: the field rules, and origin and destination not
      both of the same city and the same name. */
  predicate TripInputValid(t: TripInput) {
    TripFieldsValid(t) && (t.origin.city != t.destination.city || t.origin.name != t.destination.name)
  }

  function TotalStopMinutes(stops: seq<TripStopInput>): real
    decreases |stops|
  {
    if stops == [] then 0.0 else TotalStopMinutes(stops[..|stops| - 1]) + stops[|stops| - 1].duration
  }

  lemma {:induction false} TotalStopMinutesBounds(stops: seq<TripStopInput>)
    requires forall k :: 0 <= k < |stops| ==> 15.0 <= stops[k].duration <= 4320.0
    ensures 15.0 * |stops| as real <= TotalStopMinutes(stops) <= 4320.0 * |stops| as real
    decreases |stops|
  {
    if stops != [] {
      TotalStopMinutesBounds(stops[..|stops| - 1]);
    }
  }

  /** A valid trip spends between 15 minutes per stop and 30 days in all
      at its stops. */
  lemma ValidTripStopTime(t: TripInput)
    requires TripInputValid(t) && t.stops.Some?
    ensures 15.0 * |t.stops.value| as real <= TotalStopMinutes(t.stops.value) <= 43200.0
  {
    TotalStopMinutesBounds(t.stops.value);
  }

  /** The refinement compares only city and name: two places in one city
      are accepted when their names differ, places in different cities are
      accepted even under one name, and two places with the same city and
      name are refused whatever their ids or coordinates. */
  lemma SameCityTripAccepted(t: TripInput)
    ensures TripInputValid(t) ==> TripFieldsValid(t)
    ensures TripFieldsValid(t) && t.origin.city == t.destination.city && t.origin.name != t.destination.name ==>
      TripInputValid(t)
    ensures TripFieldsValid(t) && t.origin.city != t.destination.city ==> TripInputValid(t)
    ensures t.origin.city == t.destination.city && t.origin.name == t.destination.name ==> !TripInputValid(t)
    ensures t.origin == t.destination ==> !TripInputValid(t)
  {
  }

  datatype FormStop = FormStop(location: string, duration: real)

  datatype TripBuilderForm = TripBuilderForm(
    origin: string, destination: string, time: string, passengers: real, preference: string,
    stops: Option<seq<FormStop>>)

  /** `tripBuilderFormSchema`: the time may be left empty. */
  predicate TripBuilderFormValid(f: TripBuilderForm) {
    |f.origin| >= 1 && |f.destination| >= 1 &&
    (TimeFormat(f.time) || f.time == "") &&
    IsInteger(f.passengers) && 1.0 <= f.passengers <= 50.0 &&
    PreferenceValid(f.preference) &&
    (f.stops.Some? ==> forall k :: 0 <= k < |f.stops.value| ==>
                         |f.stops.value[k].location| >= 1 && 15.0 <= f.stops.value[k].duration <= 4320.0)
  }

  /** A filled-in form time is one the route engine reads as a time of
      day; an empty one is the only other accepted value. */
  lemma FormTimeReadable(f: TripBuilderForm)
    requires TripBuilderFormValid(f)
    ensures f.time == "" || (HourMinute(f.time).Some? && HourMinute(f.time).value.0 < 24 && HourMinute(f.time).value.1 < 60)
  {
    if f.time != "" {
      ValidTimeParses(f.time);
    }
  }
}

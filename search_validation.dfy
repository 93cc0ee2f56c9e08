/** The route-search request schema (`searchRoutesSchema`, `stopSchema`)
    and `validateSearchInput`.  The request arrives as a typed record;
    JSON numbers are reals, and `.int()` asks for an integral value.  The
    date's "today or later" refinement reads the clock and is not part of
    the model. */
module SearchValidation {
  import opened Wrappers
  import opened Text

  /** `/^\d{4}-\d{2}-\d{2}$/`. */
  predicate DateFormat(s: string) {
    |s| == 10 && AllDigits(s[..4]) && s[4] == '-' && AllDigits(s[5..7]) && s[7] == '-' && AllDigits(s[8..])
  }

  /** `[0-1]?[0-9]|2[0-3]`. */
  predicate HourPart(h: string) {
    (|h| == 1 && IsDigit(h[0])) ||
    (|h| == 2 && '0' <= h[0] <= '1' && IsDigit(h[1])) ||
    (|h| == 2 && h[0] == '2' && '0' <= h[1] <= '3')
  }

  /** `[0-5][0-9]`. */
  predicate MinutePart(m: string) {
    |m| == 2 && '0' <= m[0] <= '5' && IsDigit(m[1])
  }

  /** `/^([0-1]?[0-9]|2[0-3]):[0-5][0-9]$/`. */
  predicate TimeFormat(s: string) {
    |s| >= 4 && s[|s| - 3] == ':' && HourPart(s[..|s| - 3]) && MinutePart(s[|s| - 2..])
  }

  lemma OneDigitValue(h: string)
    requires |h| == 1 && IsDigit(h[0])
    ensures AllDigits(h) && DigitsValue(h) == DigitValue(h[0])
  {
    assert h[..0] == [];
  }

  lemma TwoDigitsValue(h: string)
    requires |h| == 2 && IsDigit(h[0]) && IsDigit(h[1])
    ensures AllDigits(h) && DigitsValue(h) == 10 * DigitValue(h[0]) + DigitValue(h[1])
  {
    OneDigitValue(h[..1]);
  }

  /** The pattern accepts exactly "H:MM" and "HH:MM" with an hour of 0 to
      23 and a minute of 00 to 59. */
  lemma TimeFormatMeaning(s: string)
    ensures TimeFormat(s) <==>
      (|s| == 4 || |s| == 5) && s[|s| - 3] == ':' && AllDigits(s[..|s| - 3]) && AllDigits(s[|s| - 2..]) &&
      DigitsValue(s[..|s| - 3]) <= 23 && DigitsValue(s[|s| - 2..]) <= 59
  {
    if (|s| == 4 || |s| == 5) && s[|s| - 3] == ':' && AllDigits(s[..|s| - 3]) && AllDigits(s[|s| - 2..]) {
      var h, m := s[..|s| - 3], s[|s| - 2..];
      assert IsDigit(h[0]) && IsDigit(m[0]) && IsDigit(m[1]);
      TwoDigitsValue(m);
      if |h| == 1 {
        OneDigitValue(h);
      } else {
        assert IsDigit(h[1]);
        TwoDigitsValue(h);
      }
    }
  }

  lemma TimeFormatExamples()
    ensures TimeFormat("9:05") && TimeFormat("09:05") && TimeFormat("23:59")
    ensures !TimeFormat("24:00") && !TimeFormat("9:5") && !TimeFormat("12:60")
  {
  }

  /** A time the schema accepts is read by the route engine's
      `split(':').map(Number)` as the same hour and minute, both within a
      day. */
  lemma ValidTimeParses(s: string)
    requires TimeFormat(s)
    ensures var h, m := s[..|s| - 3], s[|s| - 2..];
      AllDigits(h) && AllDigits(m) &&
      HourMinute(s) == Some((DigitsValue(h), DigitsValue(m))) &&
      DigitsValue(h) < 24 && DigitsValue(m) < 60
  {
    TimeFormatMeaning(s);
    var h, m := s[..|s| - 3], s[|s| - 2..];
    assert ':' !in h && ':' !in m by {
      assert forall i :: 0 <= i < |h| ==> IsDigit(h[i]);
      assert forall i :: 0 <= i < |m| ==> IsDigit(m[i]);
    }
    assert s == h + [':'] + m;
    SplitFirst(h, ':', m);
    SplitNoSep(m, ':');
  }

  predicate PreferenceValid(p: string) {
    p == "fastest" || p == "cheapest" || p == "balanced"
  }

  /** `.int()` on a JSON number. */
  predicate IsInteger(x: real) {
    x.Floor as real == x
  }

  datatype Stop = Stop(location: string, duration: real)

  datatype SearchRoutesInput = SearchRoutesInput(
    origin: string, destination: string, date: string, time: Option<string>, passengers: real,
    preference: string, stops: Option<seq<Stop>>)

  /** `stopSchema`. */
  predicate StopValid(s: Stop) {
    |s.location| >= 2 && IsInteger(s.duration) && 15.0 <= s.duration <= 4320.0
  }

  /** The field rules of `searchRoutesSchema`. */
  predicate FieldsValid(input: SearchRoutesInput) {
    |input.origin| >= 2 && |input.destination| >= 2 && DateFormat(input.date) &&
    (input.time.Some? ==> TimeFormat(input.time.value)) &&
    IsInteger(input.passengers) && 1.0 <= input.passengers <= 9.0 &&
    PreferenceValid(input.preference) &&
    (input.stops.Some? ==> forall k :: 0 <= k < |input.stops.value| ==> StopValid(input.stops.value[k]))
  }

  /** `searchRoutesSchema`: the field rules and origin differing from
      destination ignoring case. */
  predicate SearchRoutesValid(input: SearchRoutesInput) {
    FieldsValid(input) && Lower(input.origin) != Lower(input.destination)
  }

  /** The rule behind each issue the schema reports. */
  datatype Rule =
    | OriginTooShort | DestinationTooShort | DateNotYmd | TimeNotHourMinute
    | PassengersNotInteger | PassengersBelowOne | PassengersAboveNine | PreferenceUnknown
    | StopLocationTooShort(stop: nat) | StopDurationNotInteger(stop: nat)
    | StopDurationBelow15(stop: nat) | StopDurationAbove4320(stop: nat)
    | SameOriginAndDestination

  function Check(ok: bool, rule: Rule): seq<Rule> {
    if ok then [] else [rule]
  }

  function StopIssues(s: Stop, k: nat): seq<Rule> {
    Check(|s.location| >= 2, StopLocationTooShort(k)) + Check(IsInteger(s.duration), StopDurationNotInteger(k)) +
    Check(15.0 <= s.duration, StopDurationBelow15(k)) + Check(s.duration <= 4320.0, StopDurationAbove4320(k))
  }

  /** The issues of the stops from index `k` on, in order. */
  function StopsIssues(stops: seq<Stop>, k: nat): seq<Rule>
    requires k <= |stops|
    decreases |stops| - k
  {
    if k == |stops| then [] else StopIssues(stops[k], k) + StopsIssues(stops, k + 1)
  }

  /** Every failed check of the schema, field by field, then the
      cross-field refinement.  Zod skips an object refinement once a field
      has failed with an aborting issue; of the typed fields only an
      unknown enum value aborts (length, pattern and number checks only
      mark the result dirty), so the refinement runs exactly when the
      preference is known. */
  function Issues(input: SearchRoutesInput): seq<Rule> {
    Check(|input.origin| >= 2, OriginTooShort) +
    Check(|input.destination| >= 2, DestinationTooShort) +
    Check(DateFormat(input.date), DateNotYmd) +
    Check(input.time.None? || TimeFormat(input.time.value), TimeNotHourMinute) +
    Check(IsInteger(input.passengers), PassengersNotInteger) +
    Check(1.0 <= input.passengers, PassengersBelowOne) +
    Check(input.passengers <= 9.0, PassengersAboveNine) +
    Check(PreferenceValid(input.preference), PreferenceUnknown) +
    (if input.stops.Some? then StopsIssues(input.stops.value, 0) else []) +
    (if PreferenceValid(input.preference)
     then Check(Lower(input.origin) != Lower(input.destination), SameOriginAndDestination)
     else [])
  }

  lemma {:induction false} StopsIssuesEmpty(stops: seq<Stop>, k: nat)
    requires k <= |stops|
    ensures StopsIssues(stops, k) == [] <==> forall j :: k <= j < |stops| ==> StopValid(stops[j])
    decreases |stops| - k
  {
    if k < |stops| {
      StopsIssuesEmpty(stops, k + 1);
      StopIssuesEmpty(stops[k], k);
      var head, rest := StopIssues(stops[k], k), StopsIssues(stops, k + 1);
      assert StopsIssues(stops, k) == head + rest;
      if head == [] && rest == [] {
        assert StopsIssues(stops, k) == [];
      } else {
        assert |head + rest| > 0;
      }
    }
  }

  /** One stop reports no issue exactly when it satisfies `stopSchema`. */
  lemma StopIssuesEmpty(s: Stop, k: nat)
    ensures StopIssues(s, k) == [] <==> StopValid(s)
  {
    assert |StopIssues(s, k)| ==
      |Check(|s.location| >= 2, StopLocationTooShort(k))| + |Check(IsInteger(s.duration), StopDurationNotInteger(k))| +
      |Check(15.0 <= s.duration, StopDurationBelow15(k))| + |Check(s.duration <= 4320.0, StopDurationAbove4320(k))|;
  }

  /** No issue is reported exactly when the input satisfies the schema. */
  lemma IssuesEmptyIffValid(input: SearchRoutesInput)
    ensures Issues(input) == [] <==> SearchRoutesValid(input)
  {
    if input.stops.Some? {
      StopsIssuesEmpty(input.stops.value, 0);
    }
  }

  /** The stops never report the cross-field rule. */
  lemma {:induction false} StopsIssuesNotSame(stops: seq<Stop>, k: nat)
    requires k <= |stops|
    ensures SameOriginAndDestination !in StopsIssues(stops, k)
    decreases |stops| - k
  {
    if k < |stops| {
      StopsIssuesNotSame(stops, k + 1);
      StopIssuesNotSame(stops[k], k);
      assert StopsIssues(stops, k) == StopIssues(stops[k], k) + StopsIssues(stops, k + 1);
    }
  }

  lemma StopIssuesNotSame(s: Stop, k: nat)
    ensures SameOriginAndDestination !in StopIssues(s, k)
  {
    assert forall x :: x in StopIssues(s, k) ==> !x.SameOriginAndDestination?;
  }

  /** The origin/destination issue is reported exactly when the two names
      agree ignoring case and the preference is known: an unknown
      preference hides it, a failed length, pattern or number check does
      not. */
  lemma SameOriginReported(input: SearchRoutesInput)
    ensures SameOriginAndDestination in Issues(input) <==>
      PreferenceValid(input.preference) && Lower(input.origin) == Lower(input.destination)
  {
    if input.stops.Some? {
      StopsIssuesNotSame(input.stops.value, 0);
    }
  }

  /** The `{ success, data?, error? }` record of `validateSearchInput`. */
  datatype Validation<T> = Validation(success: bool, data: Option<T>, error: Option<seq<Rule>>)

  /** `validateSearchInput`: the parsed data on success, the issues on
      failure, never both. */
  function ValidateSearchInput(input: SearchRoutesInput): (r: Validation<SearchRoutesInput>)
    ensures r.success <==> SearchRoutesValid(input)
    ensures r.data.Some? <==> r.success
    ensures r.error.Some? <==> !r.success
    ensures r.success ==> r.data.value == input
    ensures !r.success ==> |r.error.value| > 0 && r.error.value == Issues(input)
  {
    IssuesEmptyIffValid(input);
    var issues := Issues(input);
    if issues == [] then Validation(true, Some(input), None)
    else Validation(false, None, Some(issues))
  }
}

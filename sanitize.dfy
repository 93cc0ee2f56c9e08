/** The backend's input sanitisers and validators and its general-purpose
    fixed-window rate limiter.  DOMPurify is outside the model: the
    sanitisers take the text it returns.  `Date.now()` is the parameter
    `now`, in milliseconds. */
module Sanitize {
  import opened Wrappers
  import opened Text

  // ---------------------------------------------------------------------
  // Character filters

  /** `s.replace(/[^...]/g, '')`: keeps exactly the allowed characters, in
      order. */
  function Keep(s: string, allowed: char -> bool): (r: string)
    ensures |r| <= |s|
    ensures forall i :: 0 <= i < |r| ==> allowed(r[i])
  {
    if s == [] then []
    else (if allowed(s[0]) then [s[0]] else []) + Keep(s[1..], allowed)
  }

  /** Filtering is done piecewise: the filter of a concatenation is the
      concatenation of the filters. */
  lemma {:induction false} KeepAppend(a: string, b: string, allowed: char -> bool)
    ensures Keep(a + b, allowed) == Keep(a, allowed) + Keep(b, allowed)
  {
    if a == [] {
      assert a + b == b;
    } else {
      assert (a + b)[1..] == a[1..] + b;
      KeepAppend(a[1..], b, allowed);
    }
  }

  /** A string of allowed characters passes unchanged. */
  lemma {:induction false} KeepAllAllowed(s: string, allowed: char -> bool)
    requires forall i :: 0 <= i < |s| ==> allowed(s[i])
    ensures Keep(s, allowed) == s
  {
    if s != [] {
      KeepAllAllowed(s[1..], allowed);
    }
  }

  /** Filtering twice is filtering once. */
  lemma KeepIdempotent(s: string, allowed: char -> bool)
    ensures Keep(Keep(s, allowed), allowed) == Keep(s, allowed)
  {
    KeepAllAllowed(Keep(s, allowed), allowed);
  }

  /** `sanitizeString` after DOMPurify: `purified` is the tag-free text
      DOMPurify returns; it is trimmed and cut to 200 characters. */
  function SanitizeString(purified: string): (r: string)
    ensures |r| <= 200 && |r| <= |Trim(purified)| && r == Trim(purified)[..|r|]
    ensures |Trim(purified)| <= 200 ==> r == Trim(purified)
    ensures |Trim(purified)| > 200 ==> r == Trim(purified)[..200]
  {
    Take(Trim(purified), 200)
  }

  /** The class `[a-zA-Z0-9\s\-,()'.]` of `sanitizeLocationName`. */
  predicate LocationChar(c: char) {
    IsAsciiLetter(c) || IsDigit(c) || IsJsSpace(c) || c in "-,()'."
  }

  /** The class `[a-zA-Z0-9\s\-,.()'":!?]` of `sanitizeNotes`. */
  predicate NoteChar(c: char) {
    LocationChar(c) || c in "\":!?"
  }

  function SanitizeLocationName(purified: string): (r: string)
    ensures |r| <= 200
    ensures forall i :: 0 <= i < |r| ==> LocationChar(r[i])
    ensures r == Keep(SanitizeString(purified), LocationChar)
  {
    Keep(SanitizeString(purified), LocationChar)
  }

  /** A name that is already trimmed, at most 200 characters long and made
      only of allowed characters passes through unchanged. */
  lemma LocationNameKept(name: string)
    requires Trim(name) == name && |name| <= 200
    requires forall i :: 0 <= i < |name| ==> LocationChar(name[i])
    ensures SanitizeLocationName(name) == name
  {
    KeepAllAllowed(name, LocationChar);
  }

  function SanitizeNotes(purified: string): string {
    Take(Keep(SanitizeString(purified), NoteChar), 500)
  }

  /** The notes keep only note characters and at most 200 of them, so the
      final 500-character cut never removes anything. */
  lemma SanitizeNotesShape(purified: string)
    ensures SanitizeNotes(purified) == Keep(SanitizeString(purified), NoteChar)
    ensures |SanitizeNotes(purified)| <= 200
    ensures forall i :: 0 <= i < |SanitizeNotes(purified)| ==> NoteChar(SanitizeNotes(purified)[i])
  {
  }

  /** Both filters are idempotent, and a location name already passes the
      notes filter. */
  lemma FiltersIdempotent(s: string)
    ensures Keep(Keep(s, LocationChar), LocationChar) == Keep(s, LocationChar)
    ensures Keep(Keep(s, NoteChar), NoteChar) == Keep(s, NoteChar)
    ensures Keep(Keep(s, LocationChar), NoteChar) == Keep(s, LocationChar)
  {
    KeepIdempotent(s, LocationChar);
    KeepIdempotent(s, NoteChar);
    KeepAllAllowed(Keep(s, LocationChar), NoteChar);
  }

  // ---------------------------------------------------------------------
  // sanitizeNumber

  /** A JavaScript number value. */
  datatype JsNum = NaN | PlusInfinity | MinusInfinity | Finite(value: real)

  /** `sanitizeNumber` given `Number(input)`: undefined for NaN, an infinity
      or a value outside `[min, max]`, otherwise the value rounded down. */
  function SanitizeNumber(num: JsNum, min: real, max: real): (r: Option<int>)
    ensures r.Some? <==> num.Finite? && min <= num.value <= max
    ensures r.Some? ==> r.value as real <= num.value < r.value as real + 1.0 && r.value as real <= max
  {
    if num.NaN? || !num.Finite? then None
    else if num.value < min || num.value > max then None
    else Some(num.value.Floor)
  }

  /** With an integral lower bound the result lies in `[min, max]`. */
  lemma SanitizeNumberInRange(num: JsNum, min: real, max: real)
    requires min.Floor as real == min && SanitizeNumber(num, min, max).Some?
    ensures min <= SanitizeNumber(num, min, max).value as real <= max
  {
  }

  // ---------------------------------------------------------------------
  // isValidEmail

  /** A run matched by `[^\s@]+`. */
  predicate EmailPart(s: string) {
    |s| > 0 && forall i :: 0 <= i < |s| ==> !IsJsSpace(s[i]) && s[i] != '@'
  }

  /** `/^[^\s@]+@[^\s@]+\.[^\s@]+$/.test(email)`: some split of the text
      into a local part, '@', a domain, '.', and a last part. */
  predicate IsValidEmail(email: string) {
    exists at, dot :: 0 < at < dot < |email| - 1 && email[at] == '@' && email[dot] == '.' &&
      EmailPart(email[..at]) && EmailPart(email[at + 1..dot]) && EmailPart(email[dot + 1..])
  }

  /** An address is valid exactly when it has no white space, a single
      '@' that is not first, and a '.' after it that is neither right
      after the '@' nor last. */
  lemma EmailShape(email: string, p: nat)
    requires p < |email| && email[p] == '@'
    ensures IsValidEmail(email) <==> EmailShaped(email, p)
  {
    if IsValidEmail(email) {
      ValidEmailShaped(email, p);
    }
    if EmailShaped(email, p) {
      ShapedEmailValid(email, p);
    }
  }

  /** The shape `EmailShape` characterises, around the '@' at `p`. */
  predicate EmailShaped(email: string, p: nat)
    requires p < |email|
  {
    p > 0 && NoSpace(email) && (forall i :: 0 <= i < |email| && i != p ==> email[i] != '@') &&
    exists dot :: p + 1 < dot < |email| - 1 && email[dot] == '.'
  }

  lemma ValidEmailShaped(email: string, p: nat)
    requires p < |email| && email[p] == '@' && IsValidEmail(email)
    ensures EmailShaped(email, p)
  {
    var at, dot :| 0 < at < dot < |email| - 1 && email[at] == '@' && email[dot] == '.' &&
      EmailPart(email[..at]) && EmailPart(email[at + 1..dot]) && EmailPart(email[dot + 1..]);
    forall i | 0 <= i < |email| && i != at
      ensures !IsJsSpace(email[i]) && email[i] != '@'
    {
      if i < at {
        assert email[..at][i] == email[i];
      } else if at < i < dot {
        assert email[at + 1..dot][i - at - 1] == email[i];
      } else if i > dot {
        assert email[dot + 1..][i - dot - 1] == email[i];
      }
    }
    assert p == at;
  }

  lemma ShapedEmailValid(email: string, p: nat)
    requires p < |email| && email[p] == '@' && EmailShaped(email, p)
    ensures IsValidEmail(email)
  {
    var dot :| p + 1 < dot < |email| - 1 && email[dot] == '.';
    assert EmailPart(email[..p]);
    assert EmailPart(email[p + 1..dot]);
    assert EmailPart(email[dot + 1..]);
  }

  /** Without '@' no address is valid. */
  lemma EmailNeedsAt(email: string)
    requires '@' !in email
    ensures !IsValidEmail(email)
  {
  }

  // ---------------------------------------------------------------------
  // isValidIndianPhone

  predicate NotSpaceOrHyphen(c: char) { !IsJsSpace(c) && c != '-' }

  /** `phone.replace(/[\s\-]/g, '')`. */
  function Cleaned(phone: string): string {
    Keep(phone, NotSpaceOrHyphen)
  }

  /** `[6-9]\d{9}`. */
  predicate SubscriberNumber(s: string) {
    |s| == 10 && '6' <= s[0] <= '9' && AllDigits(s)
  }

  /** `/^(\+91|91)?[6-9]\d{9}$/.test(...)`. */
  predicate IndianPhonePattern(s: string) {
    SubscriberNumber(s) ||
    (|s| == 13 && s[..3] == "+91" && SubscriberNumber(s[3..])) ||
    (|s| == 12 && s[..2] == "91" && SubscriberNumber(s[2..]))
  }

  predicate IsValidIndianPhone(phone: string) {
    IndianPhonePattern(Cleaned(phone))
  }

  /** A valid number, once spaces and hyphens are gone, has 10, 12 or 13
      characters and ends in a ten-digit number starting with 6 to 9;
      cleaning it again changes nothing. */
  lemma PhoneShape(phone: string)
    requires IsValidIndianPhone(phone)
    ensures var c := Cleaned(phone);
      (|c| == 10 || |c| == 12 || |c| == 13) && SubscriberNumber(c[|c| - 10..]) &&
      (|c| > 10 ==> c[|c| - 12..|c| - 10] == "91") &&
      IsValidIndianPhone(c)
  {
    var c := Cleaned(phone);
    KeepIdempotent(phone, NotSpaceOrHyphen);
    if |c| == 13 {
      assert c[3..] == c[|c| - 10..];
      assert c[|c| - 12..|c| - 10] == c[..3][1..];
    } else if |c| == 12 {
      assert c[2..] == c[|c| - 10..];
      assert c[|c| - 12..|c| - 10] == c[..2];
    } else {
      assert c[|c| - 10..] == c;
    }
  }

  /** Spaces and hyphens anywhere are ignored. */
  lemma PhoneIgnoresSeparators(a: string, b: string)
    ensures IsValidIndianPhone(a + " " + b) == IsValidIndianPhone(a + b)
    ensures IsValidIndianPhone(a + "-" + b) == IsValidIndianPhone(a + b)
  {
    assert Keep(" ", NotSpaceOrHyphen) == [] && Keep("-", NotSpaceOrHyphen) == [];
    KeepAppend(a + " ", b, NotSpaceOrHyphen);
    KeepAppend(a, " ", NotSpaceOrHyphen);
    KeepAppend(a + "-", b, NotSpaceOrHyphen);
    KeepAppend(a, "-", NotSpaceOrHyphen);
    KeepAppend(a, b, NotSpaceOrHyphen);
    assert Cleaned(a + " " + b) == Cleaned(a + b);
    assert Cleaned(a + "-" + b) == Cleaned(a + b);
  }

  // ---------------------------------------------------------------------
  // checkRateLimit and cleanupRateLimits

  datatype RateLimitEntry = RateLimitEntry(count: int, resetTime: int)

  datatype RateLimitResult = RateLimitResult(allowed: bool, remaining: int, resetTime: int)


  /** One `checkRateLimit` call for an identifier at time `now`: its entry
      afterwards and the answer.  The window is still open at
      `now == resetTime`. */
  function RateLimitStep(entry: Option<RateLimitEntry>, maxRequests: int, windowMs: int, now: int)
    : (RateLimitEntry, RateLimitResult)
  {
    if entry.None? || now > entry.value.resetTime then
      (RateLimitEntry(1, now + windowMs), RateLimitResult(true, maxRequests - 1, now + windowMs))
    else if entry.value.count >= maxRequests then
      (entry.value, RateLimitResult(false, 0, entry.value.resetTime))
    else
      var e := entry.value.(count := entry.value.count + 1);
      (e, RateLimitResult(true, maxRequests - e.count, e.resetTime))
  }

  /** A call allowed by a positive limit leaves a count of at most the
      limit, reports the requests left as the limit minus the count, and
      a call that is refused changes nothing. */
  lemma RateLimitStepBounds(entry: Option<RateLimitEntry>, maxRequests: int, windowMs: int, now: int)
    requires maxRequests >= 1 && (entry.Some? ==> 1 <= entry.value.count <= maxRequests)
    ensures var (e, r) := RateLimitStep(entry, maxRequests, windowMs, now);
      1 <= e.count <= maxRequests && r.resetTime == e.resetTime &&
      (r.allowed ==> r.remaining == maxRequests - e.count >= 0) &&
      (!r.allowed ==> entry == Some(e) && e.count == maxRequests && r.remaining == 0 && now <= e.resetTime)
  {
  }

  /** The calls allowed in a run of calls for one identifier. */
  function AllowedCalls(entry: Option<RateLimitEntry>, maxRequests: int, windowMs: int, times: seq<int>): nat
    decreases |times|
  {
    if times == [] then 0
    else
      var (e, r) := RateLimitStep(entry, maxRequests, windowMs, times[0]);
      (if r.allowed then 1 else 0) + AllowedCalls(Some(e), maxRequests, windowMs, times[1..])
  }

  /** Inside an open window, at most the remaining allowance is granted,
      however many calls come. */
  lemma {:induction false} OpenWindowAdmitsAtMost(e: RateLimitEntry, maxRequests: int, windowMs: int, times: seq<int>)
    requires forall k :: 0 <= k < |times| ==> times[k] <= e.resetTime
    ensures AllowedCalls(Some(e), maxRequests, windowMs, times) <= if e.count < maxRequests then maxRequests - e.count else 0
    decreases |times|
  {
    if times != [] {
      var (e', r) := RateLimitStep(Some(e), maxRequests, windowMs, times[0]);
      OpenWindowAdmitsAtMost(e', maxRequests, windowMs, times[1..]);
    }
  }

  /** A window opened at `start` admits at most `maxRequests` calls before
      it expires. */
  lemma NewWindowAdmitsAtMost(maxRequests: int, windowMs: int, start: int, times: seq<int>)
    requires maxRequests >= 1 && |times| > 0 && times[0] == start
    requires forall k :: 0 <= k < |times| ==> times[k] <= start + windowMs
    ensures AllowedCalls(None, maxRequests, windowMs, times) <= maxRequests
  {
    OpenWindowAdmitsAtMost(RateLimitEntry(1, start + windowMs), maxRequests, windowMs, times[1..]);
  }

  /** An expired entry behaves exactly like a missing one, now and later,
      so removing it never changes an answer. */
  lemma ExpiredLikeMissing(e: RateLimitEntry, maxRequests: int, windowMs: int, now: int, later: int)
    requires now > e.resetTime && later >= now
    ensures RateLimitStep(Some(e), maxRequests, windowMs, later) == RateLimitStep(None, maxRequests, windowMs, later)
  {
  }

  /** The entries still open at `now`. */
  function Unexpired(m: map<string, RateLimitEntry>, now: int): (r: map<string, RateLimitEntry>)
    ensures forall k :: k in r <==> k in m && now <= m[k].resetTime
    ensures forall k :: k in r ==> r[k] == m[k]
  {
    map k | k in m && now <= m[k].resetTime :: m[k]
  }

  /** Every stored count lies between 1 and the limit. */
  predicate AllWithin(m: map<string, RateLimitEntry>, maxRequests: int) {
    forall k :: k in m ==> 1 <= m[k].count <= maxRequests
  }

  /** The module-level `rateLimitMap`. */
  class RateLimitStore {
    var entries: map<string, RateLimitEntry>

    constructor ()
      ensures entries == map[]
    {
      entries := map[];
    }

    /** `checkRateLimit(identifier, maxRequests, windowMs)` at time `now`. */
    method CheckRateLimit(identifier: string, maxRequests: int, windowMs: int, now: int)
      returns (res: RateLimitResult)
      modifies this
      ensures identifier in entries
      ensures (entries[identifier], res) == RateLimitStep(Lookup(old(entries), identifier), maxRequests, windowMs, now)
      ensures entries == old(entries)[identifier := entries[identifier]]
      ensures !res.allowed ==> entries == old(entries)
      ensures maxRequests >= 1 && old(AllWithin(entries, maxRequests)) ==> AllWithin(entries, maxRequests)
    {
      var entry := Lookup(entries, identifier);
      if entry.None? || now > entry.value.resetTime {
        var newEntry := RateLimitEntry(1, now + windowMs);
        entries := entries[identifier := newEntry];
        return RateLimitResult(true, maxRequests - 1, newEntry.resetTime);
      }
      var e := entry.value;
      if e.count >= maxRequests {
        return RateLimitResult(false, 0, e.resetTime);
      }
      e := e.(count := e.count + 1);
      entries := entries[identifier := e];
      res := RateLimitResult(true, maxRequests - e.count, e.resetTime);
    }

    /** `cleanupRateLimits()` at time `now`: deletes the expired entries
        one by one and keeps the others unchanged. */
    method CleanupRateLimits(now: int)
      modifies this
      ensures entries == Unexpired(old(entries), now)
    {
      var pending := entries.Keys;
      while pending != {}
        invariant pending <= old(entries).Keys
        invariant forall k :: k in entries <==> k in old(entries) && (k in pending || now <= old(entries)[k].resetTime)
        invariant forall k :: k in entries ==> entries[k] == old(entries)[k]
        decreases pending
      {
        var key :| key in pending;
        if now > entries[key].resetTime {
          entries := entries - {key};
        }
        pending := pending - {key};
      }
    }
  }
}

/** The agent's intent normalizer: reading a time of day out of the user's
    words (`parse_when`), the search window around it (`make_window_for`) and
    the completion of booking arguments (`normalize_booking_args`).
    Times are wall-clock minutes in the session's zone; "now" is an input. */
module Intent {
  import opened Wrappers
  import opened Text
  import opened Json

  const MinutesPerDay := 1440
  const DefaultDurationMin := 60
  const DefaultSummary := "Appointment"

  datatype Meridiem = NoMeridiem | Am | Pm

  /** What the clock-time pattern captures: the hour digits, the minute digits
      (0 when absent) and the am/pm marker. */
  datatype Clock = Clock(hour: nat, minute: nat, meridiem: Meridiem)

  /** Finds the first clock-time token in a lower-cased text, if any. The
      regular expression engine is not modelled; this is its answer. */
  type ClockScanner = string -> Option<Clock>

  function Day(t: int): int { t / MinutesPerDay }

  function TimeOfDay(t: int): int { t % MinutesPerDay }

  /** The minute at hour `h`, minute `m` of day `day`. */
  function At(day: int, h: int, m: int): int { day * MinutesPerDay + h * 60 + m }

  /** 10:00 on the day after `now`, the agent's fallback start. */
  function TomorrowAtTen(now: int): int { At(Day(now) + 1, 10, 0) }

  /** The hour on the 24-hour clock: 12am is midnight, a pm hour below 12 is
      moved into the afternoon, anything else is taken as written. */
  function Hour24(c: Clock): int {
    if c.meridiem == Am && c.hour == 12 then 0
    else if c.meridiem == Pm && c.hour < 12 then c.hour + 12
    else c.hour
  }

  /** `parse_when`: `Success(None)` when there is no time to read, the minute
      meant otherwise, `Failure(ValueError)` when the hour or minute is out of
      range for `datetime.replace`. */
  function ParseWhen(text: string, now: int, scan: ClockScanner): Result<Option<int>, PyError> {
    if text == "" then Success(None)
    else
      var lowered := Lower(text);
      var tomorrow := Contains(lowered, "tomorrow");
      var baseDay := if tomorrow then Day(now) + 1 else Day(now);
      match scan(lowered)
      case None => Success(None)
      case Some(c) =>
        var h := Hour24(c);
        if h > 23 || c.minute > 59 then Failure(ValueError)
        else
          var t := At(baseDay, h, c.minute);
          Success(Some(if !tomorrow && t <= now then t + MinutesPerDay else t))
  }

  /** `make_window_for`: the window of `span` minutes centred on `t`
      (Python's `//` floors, as Dafny's `/` does for a positive divisor). The
      duration argument is accepted and ignored, as in the source. */
  function MakeWindowFor(t: int, duration: int, span: int): (w: (int, int))
    ensures w.0 + w.1 == 2 * t
    ensures span >= 0 ==> w.0 <= t <= w.1
    ensures span % 2 == 0 ==> w.1 - w.0 == span
  {
    (t - span / 2, t + span / 2)
  }

  // ---------------------------------------------------------------------
  // normalize_booking_args

  /** The start a provided `start_iso` value gives: only an ISO-8601 string parses. */
  function ProvidedStart(v: Json): Option<Stamp> {
    if v.JTime? then Some(v.t) else None
  }

  /** The result of `normalize_booking_args` once the start is known. */
  function Complete(args: map<string, Json>, start: Stamp): Result<map<string, Json>, PyError> {
    var summary := Or(Or(Get(args, "summary"), Get(args, "title")), JStr(DefaultSummary));
    var aware := if start.zone.None? then start.(zone := Some(Local)) else start;
    var duration :- ToInt(Or(Get(args, "duration_minutes"), JNum(DefaultDurationMin)));
    var end := aware.(wall := aware.wall + duration);
    Success(args["summary" := summary]["start_iso" := JTime(aware)]["end_iso" := JTime(end)] - {"title", "duration_minutes"})
  }

  /** `normalize_booking_args` with the session's zone handed to `parse_when`
      (the corrected form; see `NormalizeAsWritten`). */
  function Normalize(args: map<string, Json>, lastUserIntent: Option<string>, now: int, scan: ClockScanner): Result<map<string, Json>, PyError> {
    var provided := ProvidedStart(Get(args, "start_iso"));
    var parsed :-
      if provided.None? && lastUserIntent.Some? && lastUserIntent.value != "" then
        ParseWhen(lastUserIntent.value, now, scan)
      else Success(None);
    var start :=
      if provided.Some? then provided.value
      else if parsed.Some? then Stamp(parsed.value, Some(Local))
      else Stamp(TomorrowAtTen(now), Some(Local));
    Complete(args, start)
  }

  /** `normalize_booking_args` as written: the zone NAME, a string, is handed
      to `parse_when`, whose `datetime.now(tzinfo)` then raises `TypeError`
      on any non-empty text. */
  function NormalizeAsWritten(args: map<string, Json>, lastUserIntent: Option<string>, now: int, scan: ClockScanner): Result<map<string, Json>, PyError> {
    var provided := ProvidedStart(Get(args, "start_iso"));
    if provided.None? && lastUserIntent.Some? && lastUserIntent.value != "" then Failure(TypeError)
    else Complete(args, if provided.Some? then provided.value else Stamp(TomorrowAtTen(now), Some(Local)))
  }

  // ---------------------------------------------------------------------
  // Properties of parse_when

  /** Without text, or without a clock token, there is no time, even when
      the text says "tomorrow". */
  lemma ParseWhenNeedsClockToken(text: string, now: int, scan: ClockScanner)
    requires text == "" || scan(Lower(text)).None?
    ensures ParseWhen(text, now, scan) == Success(None)
  {
  }

  /** A clock token is rejected exactly when its 24-hour reading is out of
      range for a time of day ("25pm", "9:75"). */
  lemma ParseWhenRejectsOutOfRange(text: string, now: int, scan: ClockScanner)
    requires text != "" && scan(Lower(text)).Some?
    ensures var c := scan(Lower(text)).value;
      ParseWhen(text, now, scan).Failure? <==> (Hour24(c) > 23 || c.minute > 59)
  {
  }

  /** The 12-hour markers: 12am is hour 0, 12pm is noon, a pm hour below 12
      gains 12, an am hour other than 12 (or an unmarked hour) stays. */
  lemma MeridiemRule(h: nat, m: nat)
    ensures Hour24(Clock(12, m, Am)) == 0
    ensures Hour24(Clock(12, m, Pm)) == 12
    ensures h < 12 ==> Hour24(Clock(h, m, Pm)) == h + 12
    ensures h != 12 ==> Hour24(Clock(h, m, Am)) == h
    ensures Hour24(Clock(h, m, NoMeridiem)) == h
  {
  }

  lemma DayBounds(t: int)
    ensures Day(t) * MinutesPerDay <= t < Day(t) * MinutesPerDay + MinutesPerDay
    ensures TimeOfDay(t) == t - Day(t) * MinutesPerDay
  {
  }

  lemma AtParts(day: int, h: int, m: int)
    requires 0 <= h <= 23 && 0 <= m <= 59
    ensures Day(At(day, h, m)) == day && TimeOfDay(At(day, h, m)) == h * 60 + m
  {
    var t := At(day, h, m);
    assert 0 <= h * 60 + m < MinutesPerDay;
    assert t == day * MinutesPerDay + (h * 60 + m);
  }

  /** A time read from the text is always in the future and carries the
      token's time of day. With "tomorrow" it falls on the next day; without,
      it is the first moment after now with that time of day, so a time at or
      before now is moved forward by exactly one day. */
  lemma ParseWhenIsFuture(text: string, now: int, scan: ClockScanner)
    requires ParseWhen(text, now, scan).Success? && ParseWhen(text, now, scan).value.Some?
    ensures var t := ParseWhen(text, now, scan).value.value;
      var c := scan(Lower(text)).value;
      now < t &&
      TimeOfDay(t) == Hour24(c) * 60 + c.minute &&
      (Contains(Lower(text), "tomorrow") ==> Day(t) == Day(now) + 1) &&
      (!Contains(Lower(text), "tomorrow") ==> t <= now + MinutesPerDay)
  {
    var c := scan(Lower(text)).value;
    var h := Hour24(c);
    DayBounds(now);
    AtParts(Day(now), h, c.minute);
    AtParts(Day(now) + 1, h, c.minute);
    var t := ParseWhen(text, now, scan).value.value;
    if !Contains(Lower(text), "tomorrow") && At(Day(now), h, c.minute) <= now {
      assert t == At(Day(now), h, c.minute) + MinutesPerDay;
      assert t == At(Day(now) + 1, h, c.minute);
    }
  }

  /** Without "tomorrow", a clock time still ahead today is kept as is; one at
      or before now is moved exactly one day on. */
  lemma ParseWhenRollsOver(text: string, now: int, scan: ClockScanner)
    requires text != "" && !Contains(Lower(text), "tomorrow")
    requires scan(Lower(text)).Some?
    requires Hour24(scan(Lower(text)).value) <= 23 && scan(Lower(text)).value.minute <= 59
    ensures var c := scan(Lower(text)).value;
      var today := At(Day(now), Hour24(c), c.minute);
      ParseWhen(text, now, scan) == Success(Some(if today <= now then today + MinutesPerDay else today))
  {
  }

  // ---------------------------------------------------------------------
  // Properties of normalize_booking_args

  /** A normalized request is fully qualified: summary, zone-qualified start
      and end with end = start + duration (60 minutes unless a truthy
      `duration_minutes` says otherwise), no `title` or `duration_minutes`,
      and every other argument as it was. */
  lemma NormalizeShape(args: map<string, Json>, intent: Option<string>, now: int, scan: ClockScanner)
    requires Normalize(args, intent, now, scan).Success?
    ensures var r := Normalize(args, intent, now, scan).value;
      var duration := ToInt(Or(Get(args, "duration_minutes"), JNum(DefaultDurationMin)));
      && duration.Success?
      && "summary" in r && "start_iso" in r && "end_iso" in r
      && "title" !in r && "duration_minutes" !in r
      && r["start_iso"].JTime? && r["end_iso"].JTime?
      && r["start_iso"].t.zone.Some?
      && r["end_iso"].t.zone == r["start_iso"].t.zone
      && r["end_iso"].t.wall == r["start_iso"].t.wall + duration.value
      && (forall k :: k !in {"summary", "start_iso", "end_iso", "title", "duration_minutes"} ==>
            (k in r <==> k in args) && (k in r ==> r[k] == args[k]))
  {
  }

  /** The summary is the first truthy one of `summary` and `title`, else "Appointment". */
  lemma NormalizeSummary(args: map<string, Json>, intent: Option<string>, now: int, scan: ClockScanner)
    requires Normalize(args, intent, now, scan).Success?
    ensures var s := Normalize(args, intent, now, scan).value["summary"];
      (Truthy(Get(args, "summary")) ==> s == args["summary"]) &&
      (!Truthy(Get(args, "summary")) && Truthy(Get(args, "title")) ==> s == args["title"]) &&
      (!Truthy(Get(args, "summary")) && !Truthy(Get(args, "title")) ==> s == JStr(DefaultSummary))
  {
  }

  /** The start: a provided ISO-8601 start wins (given the session zone when it
      has none); otherwise the time read from the user's words; otherwise
      tomorrow at 10:00. */
  lemma NormalizeStart(args: map<string, Json>, intent: Option<string>, now: int, scan: ClockScanner)
    requires Normalize(args, intent, now, scan).Success?
    ensures var start := Normalize(args, intent, now, scan).value["start_iso"].t;
      var provided := Get(args, "start_iso");
      (provided.JTime? ==>
        start.wall == provided.t.wall &&
        start.zone == (if provided.t.zone.Some? then provided.t.zone else Some(Local))) &&
      (!provided.JTime? && intent.Some? && intent.value != "" &&
        ParseWhen(intent.value, now, scan).value.Some? ==>
        start == Stamp(ParseWhen(intent.value, now, scan).value.value, Some(Local))) &&
      (!provided.JTime? && (intent.None? || intent.value == "" || ParseWhen(intent.value, now, scan).value.None?) ==>
        start == Stamp(TomorrowAtTen(now), Some(Local)))
  {
  }

  /** Normalizing again returns the request unchanged when its end is the
      default 60 minutes after its start, whatever the words and the clock. */
  lemma NormalizeIdempotentAtDefaultDuration(args: map<string, Json>, intent: Option<string>, now: int, scan: ClockScanner,
                                             intent2: Option<string>, now2: int, scan2: ClockScanner)
    requires Normalize(args, intent, now, scan).Success?
    requires ToInt(Or(Get(args, "duration_minutes"), JNum(DefaultDurationMin))) == Success(DefaultDurationMin)
    ensures var r := Normalize(args, intent, now, scan).value;
      Normalize(r, intent2, now2, scan2) == Success(r)
  {
    var r := Normalize(args, intent, now, scan).value;
    NormalizeShape(args, intent, now, scan);
    var again := Normalize(r, intent2, now2, scan2);
    assert again.Success?;
    assert again.value == r;
  }

  /** With any other duration, the request does NOT survive a second
      normalization: the duration is dropped and the end falls back to
      start + 60 minutes. */
  lemma NormalizeNotIdempotentForOtherDurations(now: int, scan: ClockScanner)
    ensures var args := map["start_iso" := JTime(Stamp(600, Some(Offset(60)))), "duration_minutes" := JNum(90)];
      var once := Normalize(args, None, now, scan);
      once.Success? && once.value["end_iso"] == JTime(Stamp(690, Some(Offset(60)))) &&
      Normalize(once.value, None, now, scan).value["end_iso"] == JTime(Stamp(660, Some(Offset(60))))
  {
  }

  /** As written, any request without a parsable start and with user text
      raises `TypeError`: the zone name reaches `datetime.now`. */
  lemma NormalizeAsWrittenRaises(args: map<string, Json>, text: string, now: int, scan: ClockScanner)
    requires !Get(args, "start_iso").JTime? && text != ""
    ensures NormalizeAsWritten(args, Some(text), now, scan) == Failure(TypeError)
  {
  }

  /** The failing input: no start argument and a text such as "tomorrow at
      3pm". As written it raises; corrected, it books 15:00 tomorrow for an hour. */
  lemma TomorrowAtThreeExample(text: string, now: int, scan: ClockScanner)
    requires Contains(Lower(text), "tomorrow")
    requires scan(Lower(text)) == Some(Clock(3, 0, Pm))
    ensures NormalizeAsWritten(map[], Some(text), now, scan) == Failure(TypeError)
    ensures var r := Normalize(map[], Some(text), now, scan);
      r.Success? &&
      r.value["start_iso"] == JTime(Stamp(At(Day(now) + 1, 15, 0), Some(Local))) &&
      r.value["end_iso"] == JTime(Stamp(At(Day(now) + 1, 15, 0) + 60, Some(Local)))
  {
    assert text != "";
  }

  /** Where the as-written and the corrected functions agree: whenever a start
      is provided, or there is no user text. */
  lemma NormalizeAgreesWithAsWritten(args: map<string, Json>, intent: Option<string>, now: int, scan: ClockScanner)
    requires Get(args, "start_iso").JTime? || intent.None? || intent.value == ""
    ensures NormalizeAsWritten(args, intent, now, scan) == Normalize(args, intent, now, scan)
  {
  }
}

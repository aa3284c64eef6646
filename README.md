# pebble-sunclock, modelled in Dafny

pebble-sunclock is a Pebble watchface that shows a 24-hour dial. Night is
black, the twilight bands (astronomical, nautical, civil) are shades of
grey and daylight is white. The band edges sit where the sun crosses each
zenith angle on the local date at the cached location. This project
models the logic behind that dial and proves properties of it:

- the sunrise/sunset ephemeris (`SunCalc`, from `src/suncalc.c`);
- the twilight path object, which holds a 5-point polygon, its dawn and
  dusk times and its graphics handles (`Twilight`, from `src/TwilightPath.c`);
- the location cache kept in flash (`ConfigData`, from `src/ConfigData.c`);
- the watch side of the location request protocol (`Messaging`, from
  `src/messaging.c`);
- the watchface's own logic (`Sunclock`, from `src/sunclock.c`): the Julian
  day, the moon glyph, the once-a-day recomputation, the sunrise/sunset
  digits, the 12-hour time text, the band table and the back-to-front dial
  drawing.

`CStd` holds the C semantics the rest depends on:

- integer division that truncates toward zero (`Div`);
- float-to-int casts (`Trunc`);
- the `struct tm` fields that are read (`Tm`);
- reading a C string out of a buffer (`CStringOf`).

Pure C code is modelled as functions on values. C code that changes state
is modelled as classes whose methods are proved to follow those functions:

- `ConfigData.ConfigStore` follows `AfterInit`, `AfterSet`, `AfterErase`
  and the getters.
- `Messaging.AppMessaging` follows `Request`, `Received` and `OutFailed`.
- `Twilight.TwilightPath` keeps its points in an `array<Point>`. Its
  methods follow `RiseAndSet`, `PathPoints`, `RenderStep` and
  `ReleaseCalls`.
- `Sunclock.Watchface` holds the four bands.

Float arithmetic is exact `real` arithmetic. Nothing is assumed about the
math library's trigonometric helpers: they are the fields of a `Trig`
value. Nothing is assumed about `NO_RISE_SET_TIME` or the `ZENITH_*`
constants of `suncalc.h` either: they are the parameters `noRiseSet` and
`zenithOf` (`suncalc.h` is not part of this model). The world outside is
made of inputs:

- the clock;
- the flash read and write results;
- malloc, bitmap loading and path creation;
- the outbox results;
- `moon_phase`.

The platform calls the code makes are recorded as traces: `GfxCall`,
`DialCall` and `Messaging.Effect`.

The C code's known quirks are kept, not fixed. The local date is used
where UTC is meant. `tm_year` is passed without adding 1900
(`Twilight.YearsSince1900Harmless` shows this changes nothing for years
from 1900 on). The sunrise and sunset minutes are truncated.

## Model

| member | source | states |
|---|---|---|
| CStd.Div | src/sunclock.c:180-181 | C integer division by a positive divisor rounds toward zero: for a non-negative dividend q·b ≤ a < q·b + b, for a negative one q·b − b < a ≤ q·b |
| CStd.Trunc | src/sunclock.c:183-184 | the float-to-int cast: the result lies within one below a non-negative value, and within one above a negative one |
| SunCalc.DayOfYear | src/suncalc.c:46-49 | the definition of step 1: N1 − N2·N3 + day − 30 in truncating integer division; `DayOfYearIsOrdinal` and `DayOfYearLandmarks` state what it computes |
| SunCalc.LeapTerm | src/suncalc.c:48 | for a year ≥ 0 the third factor of the day-of-year formula is 1 in years divisible by four and 2 otherwise |
| SunCalc.DayOfYearIsOrdinal | src/suncalc.c:46-49 | the day-of-year formula equals the days in the months before the date's month plus the day, with February 29 days long in years divisible by four (checked against the independent month-length table `DaysBefore`) |
| SunCalc.DayOfYearLandmarks | src/suncalc.c:46-49 | January 1 is day 1, March 1 is day 60 (61 in a leap year) and December 31 is day 365 (366) |
| SunCalc.DayOfYearYearModFour | src/suncalc.c:48 | for a year ≥ 0 the day of the year depends on the year only modulo four, so the year plus 1900 gives the same day |
| SunCalc.ApproxTime | src/suncalc.c:53-65 | the definition of step 2: the day plus (6 h for the rise, 18 h for the set, minus the longitude in hours) over 24; see `ApproxTimeHalfDayApart` |
| SunCalc.ApproxTimeHalfDayApart | src/suncalc.c:55-65 | for the same day and longitude the set's approximate time is exactly half a day after the rise's |
| SunCalc.WrapDegrees | src/suncalc.c:73-75 | L (and RA) is corrected at most once, by +360 or −360. A raw value in [−360, 720] ends in [0, 360], and one already in [0, 360] is unchanged |
| SunCalc.QuadrantFix | src/suncalc.c:84-88 | the adjusted RA lies in the same 90-degree quadrant as L, and moves from the unadjusted RA by a whole number of quadrants |
| SunCalc.Divide | src/suncalc.c:101 | the hour-angle cosine is the exact quotient for a non-zero divisor. For a zero divisor it is +infinity or −infinity according to the sign of the numerator |
| SunCalc.SunPositionOnDay | src/suncalc.c:51-101 | steps 2 to 7 for day `n`: the position records `n`, L is in [0, 360] when its raw value is in [−360, 720], RA is in L's quadrant, and RA in hours is the degrees over 15 |
| SunCalc.SunPosition | src/suncalc.c:44-101 | as above, with the day of the year computed from the date |
| SunCalc.NoEvent | src/suncalc.c:103-110 | the definition of the step 7a test: a finite cosine above 1 or below −1, or an infinite or undefined one |
| SunCalc.HourAngle | src/suncalc.c:114-126 | the definition of step 7b: `360 − acos` in degrees for the rise, `acos` for the set, over 15; see `HourAnglesSumToDay` |
| SunCalc.HourAnglesSumToDay | src/suncalc.c:114-126 | for the same cosine, the rise hour angle `(360 − acos)/15` and the set hour angle `acos/15` add up to 24 h |
| SunCalc.WrapHours | src/suncalc.c:132-140 | UT is corrected at most once, by +24 or −24. A raw value in [−24, 48] ends in [0, 24], and one in [0, 24] is unchanged |
| SunCalc.RawUniversalTime | src/suncalc.c:129-132 | the definition of steps 8 and 9 before the correction: H + RA − 0.06571·t − 6.622 − lngHour |
| SunCalc.CalcSun | src/suncalc.c:39-144 | the definition of calcSun: the sentinel when `NoEvent` holds of the cosine, otherwise the raw UT corrected by `WrapHours`; see `NoEventGivesSentinel` and `EventGivesHour` |
| SunCalc.CalcSunRise | src/suncalc.c:146-149 | the definition: calcSun with `sunset` false |
| SunCalc.CalcSunSet | src/suncalc.c:151-154 | the definition: calcSun with `sunset` true |
| SunCalc.NoEventGivesSentinel | src/suncalc.c:103-110 | when the cosine is above 1 or below −1 (or infinite), rise and set return the sentinel whatever acos is, because acos is never consulted |
| SunCalc.EventGivesHour | src/suncalc.c:112-142 | otherwise the cosine is finite and in [−1, 1], and the result is the raw UT corrected at most once by ±24. It lies in [0, 24] when the raw UT lies in [−24, 48] |
| ConfigData.TzInHours | src/ConfigData.c:64-67 | the timezone in hours times 3600 is the negated UTC offset in seconds, and is negative exactly when the offset is positive |
| ConfigData.LocationsEquiv | src/ConfigData.c:154-159 | the definition: latitude, longitude and offset all equal, the version, the reserved field and the update time ignored |
| ConfigData.IsDifferent | src/ConfigData.c:142-150 | the definition: not (location_get succeeds and its triple equals the arguments); see `IsDifferentFalseIff` |
| ConfigData.AfterInit | src/ConfigData.c:69-90 | the definition of config_data_init on the two statics: zeroed cache on a short read or wrong version, else the stored record and its timezone; see `InitOutcome` |
| ConfigData.NewRecord | src/ConfigData.c:168-173 | the definition of the record location_set builds: version 1, reserved 0, the triple and `time(NULL)` |
| ConfigData.AfterSet | src/ConfigData.c:162-203 | the definition of location_set: the same triple returns true untouched, a full write replaces the cache and the timezone and returns true, a short write returns false; see `SetWritten`, `SetWriteFailed` and `SetSameIsNoOp` |
| ConfigData.AfterErase | src/ConfigData.c:206-212 | the definition: the cache is zeroed and the timezone kept; see `EraseClears` |
| ConfigData.Get | src/ConfigData.c:100-124 | location_get yields a location exactly when data is available, and that location holds every cached field |
| ConfigData.AvailableIffUpdated | src/ConfigData.c:93-97 | data is available exactly when the update time is non-zero, and location_get then yields nothing exactly when data is unavailable |
| ConfigData.IsDifferentFalseIff | src/ConfigData.c:142-150 | is_different is false exactly when data is available and latitude, longitude and offset all equal the arguments |
| ConfigData.SetSameIsNoOp | src/ConfigData.c:154-181 | setting the cached triple again is accepted, writes nothing and leaves the whole state unchanged, update time included. On the zeroed cache, setting (0, 0, 0) leaves data unavailable |
| ConfigData.SetWritten | src/ConfigData.c:162-196 | a set that writes the whole record stores version 1, reserved 0, the triple and the current time, with the timezone −(offset/3600), and returns true |
| ConfigData.SetWriteFailed | src/ConfigData.c:188-201 | a set that writes but does not get the full record size back returns false and leaves the cache and the timezone unchanged |
| ConfigData.SetThenNotDifferent | src/ConfigData.c:142-196 | after an accepted set that left data available, the same triple is no longer different. A set that wrote leaves data available exactly when `now` is non-zero, and a set that did not write leaves availability as it was |
| ConfigData.SetIdempotent | src/ConfigData.c:162-196 | after an accepted set, setting the same triple again is accepted and changes nothing |
| ConfigData.InitOutcome | src/ConfigData.c:69-90 | a short read or a version other than 1 leaves no data and keeps the timezone. Otherwise the cache is the stored record and the timezone follows its offset |
| ConfigData.EraseClears | src/ConfigData.c:206-212 | after erase no data is available and every triple is different |
| ConfigData.ConfigStore.Init | src/ConfigData.c:69-90 | the module's two statics become `AfterInit` of their old values |
| ConfigData.ConfigStore.LocationAvail | src/ConfigData.c:93-97 | true exactly when the state has data available |
| ConfigData.ConfigStore.LocationGet | src/ConfigData.c:100-124 | what `Get` gives for the current state |
| ConfigData.ConfigStore.Latitude | src/ConfigData.c:126-129 | the definition: the cached latitude, whether or not data is available |
| ConfigData.ConfigStore.Longitude | src/ConfigData.c:131-134 | the definition: the cached longitude, whether or not data is available |
| ConfigData.ConfigStore.TzHours | src/ConfigData.c:136-139 | the definition: the stored timezone in hours |
| ConfigData.ConfigStore.Differs | src/ConfigData.c:142-150 | what `IsDifferent` gives for the current state |
| ConfigData.ConfigStore.LocationSet | src/ConfigData.c:162-203 | the new state and the result are those of `AfterSet` |
| ConfigData.ConfigStore.LocationErase | src/ConfigData.c:206-212 | the new state is `AfterErase` of the old one |
| Twilight.RimPoint | src/TwilightPath.c:164-170 | the rim point's coordinates are `sin·120` and `9 − cos·120` of the dial angle, each truncated toward zero: for a non-negative product the coordinate lies within one below it, for a negative one within one above it. Unit-range sines and cosines keep them in [−120, 120] and [−111, 129] |
| Twilight.Corners | src/TwilightPath.c:53-67 | the definition of the constant slots 2 and 3: the top corners left then right for the top, the bottom corners right then left for the bottom |
| Twilight.DialAngle | src/TwilightPath.c:164-170 | the definition: (t + 12 h) / 24 · 2π, so local midnight lies below the hub and noon above it |
| Twilight.PathPoints | src/TwilightPath.c:173-182 | the definition of the five slots: hub, then dawn, corners, dusk for the top, and dusk, corners, dawn for the bottom; see `ShoelaceClosedForm` and `PathIsClockwise` |
| Twilight.ShoelaceClosedForm | src/TwilightPath.c:173-182 | the shoelace sums of the top and bottom paths, in closed form in the dawn and dusk points |
| Twilight.PathIsClockwise | src/TwilightPath.h:61-63 | both orderings are clockwise on the y-down screen whenever dawn is not right of dusk and both lie strictly between the top and bottom edges |
| Twilight.WindingAtSixAndEighteen | src/TwilightPath.c:164-182 | with the sun at 6 h and 18 h the rim points are (−120, 9) and (120, 9), and the top and bottom paths wind clockwise (sums 35898 and 28950) |
| Twilight.AdjustTimezone | src/TwilightPath.c:92-107 | the sentinel passes through unchanged. Any other time gets the timezone added, then at most one ±24 correction: an input in [−24, 48] after the add ends in [0, 24], and one in [0, 24] is kept |
| Twilight.RiseAndSet | src/TwilightPath.c:122-141 | the definition of calcRiseAndSet: calcSunRise and calcSunSet for `tm_year`, `tm_mon + 1` and `tm_mday` at the cached location, each through adjustTimezone; see `RiseAndSetLocal` |
| Twilight.RiseAndSetLocal | src/TwilightPath.c:122-141 | the local times keep the sentinel, and a UTC time in [0, 24] with a timezone of at most a day either way stays in [0, 24] |
| Twilight.YearsSince1900Harmless | src/TwilightPath.c:131-135 | passing years since 1900 instead of the full year gives the same rise and set for any year from 1900 on |
| Twilight.ReleaseCalls | src/TwilightPath.c:237-238 | the definition: a path destroy if there is a path, then a bitmap destroy if there is a bitmap; see `ReleaseOnce` |
| Twilight.ReleaseOnce | src/TwilightPath.c:232-245 | destroy releases each handle it holds exactly once, the path before the bitmap, and makes no other call |
| Twilight.RenderSkipsSentinel | src/TwilightPath.c:196-202 | with either time the sentinel, render keeps the path handle and makes no call |
| Twilight.RenderStep | src/TwilightPath.c:191-229 | the definition of twilight_path_render on values; see `RenderSkipsSentinel` and `RenderRebuilds` |
| Twilight.RenderRebuilds | src/TwilightPath.c:204-227 | otherwise only the old path is destroyed, and first. A new path is built from the current points and its handle kept. A failed creation draws nothing. The bitmap is drawn with AND compositing exactly when there is one, and the fill in the given colour comes last |
| Twilight.TwilightPath.constructor | src/TwilightPath.c:50-74 | slot 0 is the hub and slots 2 and 3 are this side's corners. The path handle is NULL and the band is not yet computed |
| Twilight.TwilightPath.ComputeCurrent | src/TwilightPath.c:144-188 | the band records the inputs it was computed from (math library, sentinel, location cache, local date) and `Current` holds: the stored dawn and dusk are `RiseAndSet` of those inputs, before the 12 h fudge, and slots 1 and 4 are their rim points, dawn first for the top and dusk first for the bottom. Slots 0, 2 and 3 and the handles are kept |
| Twilight.TwilightPath.StoreTimes | src/TwilightPath.c:158-182 | the two times are stored and the slots become `PathPoints` of their rim points, with the handles kept |
| Twilight.CurrentTimes | src/TwilightPath.c:144-182 | for a valid band computed from some inputs, the stored times are `RiseAndSet` of those inputs at the band's zenith and the five slots are `PathPoints` of their rim points |
| Twilight.TwilightPath.Render | src/TwilightPath.c:191-229 | the new path handle and the calls made are those of `RenderStep` |
| Twilight.TwilightPath.Release | src/TwilightPath.c:237-238 | the calls are `ReleaseCalls` of the old handles, and both handles are cleared |
| Twilight.CreateTwilightPath | src/TwilightPath.c:23-78 | NULL exactly when malloc fails or a bitmap resource does not load. Otherwise a fresh valid object with the given zenith and side, no path, and a bitmap only for a real resource |
| Twilight.DestroyTwilightPath | src/TwilightPath.c:232-245 | nothing for NULL. Otherwise both handles are released, as `ReleaseCalls` |
| Messaging.SendAttemptDiscipline | src/messaging.c:38-96 | the outbox is sent only when begin, the tuplet write and the end all succeeded. The dictionary is ended even after the tuplet failed, and the result is true exactly when the send succeeded too |
| Messaging.SendAttempt | src/messaging.c:38-96 | the definition of app_msg_SendInternal on the platform's answers; see `SendAttemptDiscipline` |
| Messaging.RequestSuppressesDuplicates | src/messaging.c:99-110 | with a request outstanding, a request returns true, sends nothing and keeps the submit time. Otherwise the request becomes outstanding from `now`, whether the send works or not |
| Messaging.SecondRequestIsSilent | src/messaging.c:99-110 | a second request right after a first sends nothing and changes nothing |
| Messaging.Request | src/messaging.c:99-110 | the definition of app_msg_RequestLatLong; see `RequestSuppressesDuplicates` |
| Messaging.Unscale | src/messaging.c:140-143 | the received degrees times 10^6 are the scaled integer |
| Messaging.AsInt32 | src/messaging.c:158-159 | the uint32 fail code passed as int32_t agrees with it modulo 2^32, and is unchanged below 2^31 |
| Messaging.ReceivedOutcome | src/messaging.c:122-162 | a reply with all three location values ends the request and reaches the success callback, if there is one, in degrees. A failure reply keeps the request outstanding and calls the failure callback once, with FAIL_SRC_PHONE, the fail code as int32_t, and the message itself when shorter than 64 characters or no terminated string otherwise. Anything else is ignored |
| Messaging.Received | src/messaging.c:122-162 | the definition of in_received_handler as written, with the failure message read back from the `strncpy` buffer; see `ReceivedOutcome` |
| Messaging.ReceivedCorrected | src/messaging.c:150-160 | the definition of in_received_handler with a copy that keeps the terminator; everything else as `Received` |
| Messaging.ReceivedCorrectedDelivers | src/messaging.c:150-160 | with the corrected copy a failure reply always delivers the message, cut to 63 characters when longer, and it agrees with the code as written exactly when the reply is not a failure with a message of 64 characters or more |
| Messaging.StrncpyLeavesUnterminated | src/messaging.c:155 | as written, a phone message of 64 characters or more leaves the buffer without a terminator |
| Messaging.StrncpyShortMessage | src/messaging.c:155 | as written, a shorter message arrives whole |
| Messaging.StrncpyBuffer | src/messaging.c:155 | the definition of the buffer as written: the first 64 characters of the message, NUL-padded; see `StrncpyLeavesUnterminated` |
| Messaging.BoundedCopyDelivers | src/messaging.c:155 | the corrected copy always delivers a terminated string: the whole message, or its first 63 characters |
| Messaging.BoundedCopy | src/messaging.c:155 | the definition of the corrected buffer: at most 63 characters, NUL-padded; see `BoundedCopyDelivers` |
| Messaging.ReasonTextRoundTrip | src/messaging.c:204-264 | each named failure reason has its own text, from which it is recovered. Every other value gets "unknown, see int code" |
| Messaging.ReasonTextInjective | src/messaging.c:204-264 | distinct named reasons have distinct texts |
| Messaging.ReasonText | src/messaging.c:204-264 | the definition of the reason texts; see `ReasonTextRoundTrip` |
| Messaging.OutFailedOutcome | src/messaging.c:171-269 | a failure with no request outstanding is ignored. A send timeout under 20 s after submission resends and keeps the request. One at or after 20 s ends it with (FAIL_SRC_APP_MSG, 1, "Send retry timeout"). Any other reason is reported with its text and keeps the request |
| Messaging.OutFailed | src/messaging.c:171-269 | the definition of out_failed_handler; see `OutFailedOutcome` |
| Messaging.TimeoutsGiveUpOnce | src/messaging.c:177-197 | over any run of send timeouts, the request stays outstanding exactly while every timeout is within 20 s, and the failure callback is called at most once: exactly once if some timeout comes at or after 20 s |
| Messaging.InitDeinitReset | src/messaging.c:272-309 | init and deinit clear the outstanding flag. After init a request always sends, and after deinit a complete reply reaches no callback |
| Messaging.AppMessaging.Init | src/messaging.c:272-297 | the statics become `AfterInit` of their old values, and nothing is logged |
| Messaging.AppMessaging.Deinit | src/messaging.c:300-309 | the statics become `AfterDeinit` of their old values, and nothing is logged |
| Messaging.AppMessaging.SendInternal | src/messaging.c:38-96 | the result and the calls logged are those of `SendAttempt` |
| Messaging.AppMessaging.RequestLatLong | src/messaging.c:99-110 | the new statics, the result and the calls logged are those of `Request` |
| Messaging.AppMessaging.InReceived | src/messaging.c:122-162 | the new statics and the callbacks logged are those of `Received`, the code as written, the strncpy included |
| Messaging.AppMessaging.OutFailedHandler | src/messaging.c:171-269 | the new statics and the effects logged are those of `OutFailed` |
| Sunclock.Tm2JdIntegerForm | src/sunclock.c:169-186 | for dates from year 1 on, January and February become months 13 and 14 of the previous year, and the two float products truncate to 1461·(y+4716)/4 and 306001·(m+1)/10000 |
| Sunclock.Tm2Jd | src/sunclock.c:169-186 | the definition of tm2jd, with C's truncating division and float-to-int casts; see `Tm2JdEpochs` and `Tm2JdNextDay` |
| Sunclock.Tm2JdEpochs | src/sunclock.c:169-186 | 1 January 2000 is Julian day 2451545 and 1 January 1900 is 2415021 |
| Sunclock.Tm2JdNextDay | src/sunclock.c:169-186 | consecutive Gregorian calendar days get consecutive Julian days, across month ends, February 29 and century years included |
| Sunclock.SouthernFlipInvolution | src/sunclock.c:212-214 | the southern flip keeps phases in 0..27, fixes 0 and 14, leaves the north unchanged and undoes itself |
| Sunclock.SouthernFlip | src/sunclock.c:212-214 | the definition: a non-zero phase becomes 28 minus it south of the equator; see `SouthernFlipInvolution` |
| Sunclock.MoonGlyph | src/sunclock.c:216-229 | the definition of the font character for a phase; see `MoonGlyphBijection` |
| Sunclock.MoonGlyphBijection | src/sunclock.c:216-229 | 14 gives '0' and 0 gives '1'. 1..13 map onto 'a'..'m' and 15..27 onto 'n'..'z', one to one, with `GlyphPhase` as the inverse |
| Sunclock.TimeDigits | src/sunclock.c:284-294 | for a time t ≥ 0 the hour is floor(t) and the minute is in 0..59. The shown minute count is 60·t truncated, not rounded |
| Sunclock.ShiftedLeftDropsFirst | src/sunclock.c:338-341 | shifting a text that starts with '0' drops that character and nothing else of the C string |
| Sunclock.ShiftedLeft | src/sunclock.c:340 | the definition of the memmove: every byte but the last moves one place left, the last kept |
| Sunclock.StripLeadingZero | src/sunclock.c:337-341 | in 12-hour style a leading '0' shifts the buffer left by one place, the last byte kept. Otherwise the buffer is unchanged |
| Sunclock.RenderOrderBackToFront | src/sunclock.c:132-144 | the dial draws each band once, darkest zenith first. Only Night fills the bottom, in black and without a bitmap |
| Sunclock.BandZenith | src/sunclock.c:416-423 | the definition of the band table's zeniths: Night astronomical, Astro nautical, Nautical civil, Civil official |
| Sunclock.BandSide | src/sunclock.c:416-423 | the definition: Night encloses the bottom, the others the top |
| Sunclock.BandShade | src/sunclock.c:416-423 | the definition: Night has no bitmap, Astro dark grey, Nautical grey, Civil light grey |
| Sunclock.BandColor | src/sunclock.c:132-144 | the definition: Night is filled black, the others white |
| Sunclock.Watchface.UpdateDayAndNightInfo | src/sunclock.c:247-307 | unless forced, nothing changes on the local day already done. Otherwise all four bands are recomputed from the same inputs, so by the face's invariant each holds `RiseAndSet` of them at its zenith and the path through their rim points; the digits come from the Civil band's times, the moon glyph from the flipped phase of the UTC Julian day, the day is remembered and the dial marked dirty. The path and bitmap handles are never touched |
| Sunclock.Watchface.ComputeBands | src/sunclock.c:267-270 | all four bands are computed from the current location and local date, so by the face's invariant their times and slots are `RiseAndSet` and `PathPoints` of those inputs; the handles are kept |
| Sunclock.Watchface.StoreDayInfo | src/sunclock.c:284-305 | the sunrise and sunset digits are `TimeDigits` of the Civil band's dawn and dusk, the moon glyph is that of the flipped phase of the UTC Julian day, the day is remembered and the dial is marked dirty |
| Sunclock.Watchface.MinuteTick | src/sunclock.c:322-341 | the time text is stripped as `StripLeadingZero` states. On the day already done nothing else changes; on a new day the bands, digits, moon glyph, day and dirty mark are as after a due `UpdateDayAndNightInfo` |
| Sunclock.Watchface.CoordsReceived | src/sunclock.c:588-600 | the same location changes nothing. A different one is stored as `AfterSet` and forces a full recomputation whether or not the write worked: bands, digits, moon glyph (with the new latitude), day and dirty mark as after a due update |
| Sunclock.Watchface.RenderDial | src/sunclock.c:103-156 | without location data: the status window and one location request, and no band is touched. Otherwise the four bands are rendered Night, Astro, Nautical, Civil (black, then white), each as `RenderStep` states, then the frame and the compositing reset. Only the bands' path handles and the messaging state can change, so the times, slots, bitmaps and the face's invariant are kept |
| Sunclock.Watchface.RenderBands | src/sunclock.c:132-144 | the four twilight_path_render calls in `RenderOrder`, each as `RenderStep` states, and only the path handles change |
| Sunclock.WindowLoad | src/sunclock.c:399-428 | the dial's registration, the frame and the bands left behind are `LoadAsWritten`. The bands follow the table: Night = astronomical/bottom/no bitmap, Astro = nautical/top/dark grey, Nautical = civil/top/grey, Civil = official/top/light grey. A face with a dial exists exactly when the root layer, the frame and all four bands do |
| Sunclock.BandsCreated | src/sunclock.c:416-423 | a band is created exactly when malloc works and its bitmap, if any, loads; all four are exactly when each is |
| Sunclock.LoadAsWritten | src/sunclock.c:399-428 | the definition as written: the update procedure registered once the root layer exists, before the frame is loaded and the bands are created |
| Sunclock.LoadAsWrittenUnsafe | src/sunclock.c:404-428 | as written, the dial is left registered without the frame or some band exactly when the root layer exists but the frame or a band does not, for instance when only the Astro bitmap fails to load |
| Sunclock.LoadCorrected | src/sunclock.c:399-428 | the definition with the registration moved after the bands are checked |
| Sunclock.LoadCorrectedSafe | src/sunclock.c:399-428 | the corrected load never leaves the dial registered without what it draws, registers it exactly when everything exists, creates the same objects as the code as written and agrees with it whenever the code as written is safe and registers |

## Left out

- The math library (`my_math.h`) is not part of this model. The trigonometric helpers are opaque parameters, and no property of sin, cos, tan, atan, asin or acos is assumed.
- Float rounding: all arithmetic is exact. A 0/0 cosine (NaN in C, which fails both comparisons and would reach acos) is treated as no rise/set.
- `suncalc.h` is not part of this model: `NO_RISE_SET_TIME` is the parameter `noRiseSet` and the `ZENITH_*` values are the parameter `zenithOf`.
- `moon_phase` (double arithmetic) is a parameter of the daily update. `get24HourAngle` and the hour hand are left out, as float display code.
- `strftime`, the fonts, the text layers and `clock_copy_time_string` are left out. The digits are modelled as numbers, and the time text buffer is an input.
- The graphics library draws nothing here. Calls are recorded and `grect_center_point` is kept as the frame it is applied to.
- Sunclock.WindowLoad: only the root layer, the dial's registration, the frame and the bands of `sunclock_window_load` are modelled. The frame's TransBitmap is an input (`frameOk`). On a partial load no face is returned: the bands that were created stay in the globals, which `sunclock_window_unload` destroys; that path, the fonts, the text layers and the hour hand are UI glue left out.
- `Messaging.AppMessageResult`: the named results' numeric values are not part of this model, so an `OtherResult` code could in principle equal one of them; `ReasonText` and `OutFailed` treat every `OtherResult` as unknown.
- The `int16_t` casts of the rim points are modelled as truncation toward zero. The values fit in 16 bits whenever sin and cos are in [−1, 1].
- `time_t` is an unbounded integer, and the persisted record's size is taken as 20 bytes (a 32-bit `time_t`).
- `config_data_location_get` with NULL output pointers is modelled as returning all fields. The caller chooses which to read.
- The flash (`persist_*`), `app_message_*`, the phone-side JavaScript, the message window and `main.c` are left out, as I/O and lifecycle glue. Their results are inputs.
- The failure callback is assumed registered: the C code calls it without a NULL check, and the model records the call.
- The disabled `HOUR_VIBRATION` block and `in_dropped_handler` (which only logs) are left out.

## Findings

| source | as written | input that shows it | evidently intended | confidence | as-written member | corrected member |
|---|---|---|---|---|---|---|
| src/messaging.c:155 | `strncpy` into the 64-byte `achErrMessage` with the full buffer size, so a long message is not terminated and the failure callback reads past the buffer | a phone failure message of 64 or more characters | a terminated message, truncated to 63 characters when too long | not executed | Messaging.ReceivedOutcome | Messaging.ReceivedCorrectedDelivers |
| src/sunclock.c:404 | the dial's update procedure is registered before the watchface frame and the four bands exist, and the early returns at lines 409-412 and 424-428 leave it registered; once location data is cached, the next redraw renders the bands and the frame (lines 132-147), and `twilight_path_render` reads a NULL band's `fDawnTime` (TwilightPath.c line 196) | `loaded(Astro)` is None: the Astro bitmap fails to load, `twilight_path_create` returns NULL for it, and the dial stays registered | register the update procedure only once the frame and all four bands exist | not executed | Sunclock.LoadAsWrittenUnsafe | Sunclock.LoadCorrectedSafe |

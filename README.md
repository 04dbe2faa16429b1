# nattrak clearance requests and conflict checker, in Dafny

nattrak is a web application for oceanic clearances on the VATSIM network.
A pilot files a clearance request (an RCL: callsign, destination, flight
level, maximum flight level, mach, a NAT track or a random routeing, oceanic
entry fix and entry time). A controller answers with a clearance (a CLX).

This project models three parts of it:

- **The RCL record** (`rcl_message.dfy`, module `RclMessages`). It covers the
  `pending`, `cleared`, `requestedTrack` and `requestedRandomRouteing` query
  scopes, as predicates on one row. It also covers the datalink text a request
  is shown as.
- **The clearance request form** (`rcl_message_request.dfy`, module
  `RclRequests`, class `RclMessageRequest`).
  - Before validation, the entry fix is derived from the requested track's
    routeing.
  - After the field rules, the cross-field checks run. These are: exactly
    one of track and random routeing; maximum level not below the filed
    level; no 420 or 440; a ceiling of 450; the mach pattern; and the
    submission window around the entry time.
  - Each failed check adds its own message to the error bag. The window check
    can also send a "contact by voice" message.
- **The conflict checker** (`conflict_checker.dfy`, module `Conflicts`, class
  `ConflictChecker`). This Livewire component sits beside a request. It lists
  cleared and pending aircraft at the same entry fix and flight level whose
  entry time is within ten minutes of the request's. From the cleared ones it
  sets a conflict level: Warning, Potential or none.

Shared pieces:

- `wrappers.dfy`: `Option`.
- `seqs.dfy`: a filter standing in for a database `where`.
- `text.dfy`:
  - PHP's `empty()` on strings;
  - the first token `strtok(s, " ")` returns;
  - integer-to-decimal conversion;
  - the byte length `strlen` gives for a string's UTF-8 encoding.
- `clock.dfy`: minutes of the day and their `Hi` labels ("0930"), Carbon's
  minute differences, and distance round the clock face.

The conflict checker works in whole minutes of one day (`Minute`, 0 to 1439),
because the times it parses are labels with no seconds. The submission window
reads the clock, so it works on instants in microseconds from today's
midnight:
- "now" carries a minute, a second and a microsecond;
- the entry time parsed with `createFromFormat('Hi')` has zero seconds and
  microseconds;
- Carbon 2's `diffInMinutes` is absolute, and truncates to whole seconds and
  then to whole minutes.

The database, the clock and the datalink authority lookup are parameters:

- the `clx` and `rcl` tables are sequences of rows;
- "now" is a `Now` value;
- the track's routeing and the authority's auto-acknowledge flag are
  arguments.

A Livewire handler whose `check()` throws ends as a failed request, and
Livewire then keeps the component's previous state. `check()` throws when
`Carbon::parse` cannot read the component time. The model reads only
four-digit "HHMM" times and treats every other time as one that throws. So
the handlers return `ok`, and leave the state unchanged when it is false.

Where the code does something its comments do not promise, the model follows
the code. Lemmas show the consequences:
- **Cross-midnight difference.** Near midnight the ten-minute window wraps
  round the clock, but the minute difference in `mapClxMessages` is taken
  within one day. An aircraft at 2358, against a request at 0005, is listed as
  1433 minutes away and sets no conflict level.
- **Midnight branch of the window.** It measures the entry's distance from
  midnight as an absolute value. So with limits [15, 90] it also accepts an
  entry late the same evening (at 10:00, an entry at 2300).

## Model

| member | source | states |
|---|---|---|
| Text.FirstToken | app/Http/Livewire/Controllers/ConflictChecker.php:76 | `strtok(s, " ")`: none exactly when `s` is all spaces; otherwise the token is non-empty and space-free, follows only spaces in `s`, and ends at the string's end or at a space |
| Text.FirstTokenOfWord | app/Http/Requests/RclMessageRequest.php:54 | a space-free word followed by nothing or by a space is the first token of the text |
| Text.IsEmpty | app/Http/Livewire/Controllers/ConflictChecker.php:44 | PHP's `empty()` on a string: true for "" and for "0" |
| Text.Utf8Length | app/Http/Requests/RclMessageRequest.php:92 | `strlen`: the number of bytes of the UTF-8 encoding, between one and four per character |
| Text.Utf8LengthAscii | app/Http/Requests/RclMessageRequest.php:92 | the byte length equals the character count exactly when every character is ASCII |
| Text.NatToStringRoundTrip | app/Http/Requests/RclMessageRequest.php:97-99 | the decimal text PHP writes for a number when concatenating is all digits and reads back as that number |
| Clock.Label | app/Http/Livewire/Controllers/ConflictChecker.php:86 | `format('Hi')`: a minute of the day as four digits, hours then minutes |
| Clock.ParseLabel | app/Http/Livewire/Controllers/ConflictChecker.php:146-147 | `Carbon::parse` of a four-digit `HHMM` time: hours under 24 and minutes under 60, otherwise none |
| Clock.LabelRoundTrip | app/Http/Livewire/Controllers/ConflictChecker.php:83-87 | formatting a minute of the day as `Hi` and parsing it back gives the minute again |
| Clock.ParseLabelInverse | app/Http/Livewire/Controllers/ConflictChecker.php:146-147 | a string that parses as `HHMM` is the `Hi` label of the minute it parses to |
| Clock.LabelInjective | app/Http/Livewire/Controllers/ConflictChecker.php:119-121 | different minutes have different labels, so matching against a label list matches minutes |
| Clock.DiffMinutes | app/Http/Livewire/Controllers/ConflictChecker.php:147 | Carbon's minute difference of two times of the same day is at most 1439 and is zero exactly for equal times |
| Clock.DiffMinutesSymmetric | app/Http/Livewire/Controllers/ConflictChecker.php:147 | the difference does not depend on the order of the two times |
| Clock.InstantDiffOfMinutes | app/Http/Requests/RclMessageRequest.php:122 | Carbon 2's `diffInMinutes` of two instants q whole minutes and less than a minute apart is q |
| Clock.DiffMinutesNoMidnightWrap | app/Http/Livewire/Controllers/ConflictChecker.php:147 | 0005 and 2355 are 1430 minutes apart by that difference, but 10 round the clock |
| RclMessages.Pending | app/Models/RclMessage.php:109-112 | `scopePending`: the request has no clearance id |
| RclMessages.Cleared | app/Models/RclMessage.php:118-121 | `scopeCleared`: the request has a clearance id |
| RclMessages.RequestedTrack | app/Models/RclMessage.php:129-132 | `scopeRequestedTrack`: the request names that track and has no random routeing |
| RclMessages.RequestedRandomRouteing | app/Models/RclMessage.php:140-143 | `scopeRequestedRandomRouteing`: the request has a random routeing and no track |
| RclMessages.PendingXorCleared | app/Models/RclMessage.php:109-121 | every request is in exactly one of the pending and cleared scopes |
| RclMessages.TrackAndRandomRouteingDisjoint | app/Models/RclMessage.php:129-143 | no request is in both the track scope and the random-routeing scope |
| RclMessages.DataLinkMessage | app/Models/RclMessage.php:180-187 | the two interpolated templates, chosen by whether the `track` relation (the track `trackId` names) resolves; null columns interpolate as "" |
| RclMessages.DataLinkMessageShape | app/Models/RclMessage.php:180-187 | both datalink templates are the same prefix (callsign, destination, fix/time), a routeing part and the same suffix (levels, mach, TMI) |
| RclMessages.DataLinkMessageBranch | app/Models/RclMessage.php:182-186 | with a track the random routeing never appears; without one the text equals the track text when the routeing is `TRACK <ident>` |
| RclMessages.DataLinkMessageStartsWithCallsign | app/Models/RclMessage.php:183-185 | a callsign without spaces is the first token of the datalink text |
| Conflicts.TimeRange | app/Http/Livewire/Controllers/ConflictChecker.php:81-89 | the labels of centre−span … centre+span, minute by minute, wrapped at midnight |
| Conflicts.GetTimeRange | app/Http/Livewire/Controllers/ConflictChecker.php:81-89 | the loop appends one label per minute, giving the labels of centre−span … centre+span, wrapped at midnight |
| Conflicts.TimeRangeShape | app/Http/Livewire/Controllers/ConflictChecker.php:83 | the window has 2·span+1 labels; each parses to its minute, and consecutive labels are one minute apart round the clock |
| Conflicts.TimeRangeLabelsParse | app/Http/Livewire/Controllers/ConflictChecker.php:85-87 | every label in a window reads as a time of day |
| Conflicts.TimeRangeMembership | app/Http/Livewire/Controllers/ConflictChecker.php:83 | a time's label is in the window if and only if the time is within span minutes of the centre round the clock (span under 12 hours) |
| Conflicts.TimeRangeWrapsAtMidnight | app/Http/Livewire/Controllers/ConflictChecker.php:83 | the 21-label window round 0005 holds 2355 and 0015 |
| Conflicts.FormatDiff | app/Http/Livewire/Controllers/ConflictChecker.php:91-98 | "Same" under two minutes, otherwise the minute difference standing for Carbon's phrase |
| Conflicts.FormatDiffSame | app/Http/Livewire/Controllers/ConflictChecker.php:91-98 | "Same" exactly when the times are under two minutes apart; the result is symmetric |
| Conflicts.LevelOf | app/Http/Livewire/Controllers/ConflictChecker.php:100-113 | the level the rows set, read from the last one; it is none exactly when every difference is above ten minutes |
| Conflicts.DetermineConflictLevel | app/Http/Livewire/Controllers/ConflictChecker.php:100-113 | the loop's result is the level the last row within ten minutes sets (Warning under 5, Potential 5 to 10), or none |
| Conflicts.NoMatchIsNoConflict | app/Http/Livewire/Controllers/ConflictChecker.php:102-110 | with every difference above ten minutes the level stays none |
| Conflicts.LastMatchDecides | app/Http/Livewire/Controllers/ConflictChecker.php:103-110 | the last difference of ten minutes or less decides the level, whatever came before it |
| Conflicts.FarTrafficKeepsLevel | app/Http/Livewire/Controllers/ConflictChecker.php:104-109 | a further row more than ten minutes away leaves the level unchanged |
| Conflicts.LevelOfBoundaries | app/Http/Livewire/Controllers/ConflictChecker.php:104-108 | 4 is Warning, 5 and 10 are Potential, 11 and the empty list are none |
| Conflicts.LevelOfOrderExamples | app/Http/Livewire/Controllers/ConflictChecker.php:103-110 | the last matching row wins over a more severe earlier one: [3,7] is Potential, [7,3] Warning, [3,20] Warning |
| Conflicts.MapClxMessages | app/Http/Livewire/Controllers/ConflictChecker.php:138-150 | one row per fetched clearance |
| Conflicts.MapRclMessages | app/Http/Livewire/Controllers/ConflictChecker.php:152-164 | one row per fetched pending request |
| Conflicts.FetchCleared | app/Http/Livewire/Controllers/ConflictChecker.php:115-126 | the clearances, in table order, with the entry fix, a restriction among the window's labels and the flight level |
| Conflicts.FetchPending | app/Http/Livewire/Controllers/ConflictChecker.php:128-136 | the pending requests, in table order, with the entry fix, an entry time among the window's labels and the flight level |
| Conflicts.FetchedClearedParse | app/Http/Livewire/Controllers/ConflictChecker.php:115-126 | every fetched clearance has an entry-time restriction that parses as a time, so its row can be built |
| Conflicts.FetchedPendingParse | app/Http/Livewire/Controllers/ConflictChecker.php:128-136 | every fetched pending request has an entry time that parses |
| Conflicts.Scan | app/Http/Livewire/Controllers/ConflictChecker.php:166-181 | what `check()` computes: the cleared rows, the level they set and the pending rows, for a ten-minute window |
| Conflicts.ScanLevelIgnoresPending | app/Http/Livewire/Controllers/ConflictChecker.php:171-180 | pending requests never change the conflict level or the cleared list |
| Conflicts.ScanRowsInWindow | app/Http/Livewire/Controllers/ConflictChecker.php:115-136 | every listed row, cleared or pending, is within ten minutes of the time round the clock |
| Conflicts.ScanClassifiesTrafficAwayFromMidnight | app/Http/Livewire/Controllers/ConflictChecker.php:171-175 | more than ten minutes from midnight, any cleared traffic sets a level, that of the last row |
| Conflicts.ScanAcrossMidnightIsNotClassified | app/Http/Livewire/Controllers/ConflictChecker.php:146-147 | at 0005 a clearance at 2358 is listed with difference 1433 and the level stays none |
| Conflicts.ConflictChecker.Mount | app/Http/Livewire/Controllers/ConflictChecker.php:35-40 | mounting keeps the first level, entry and time as the originals; the lists start empty and the level none |
| Conflicts.ConflictChecker.Check | app/Http/Livewire/Controllers/ConflictChecker.php:166-181 | the component then shows the scan of its level, entry fix and time; the level agrees with the cleared list; level, entry and time are untouched |
| Conflicts.ConflictChecker.LevelChanged | app/Http/Livewire/Controllers/ConflictChecker.php:42-50 | an empty value restores the mount level, another replaces it, then a check; when the time is unreadable nothing changes |
| Conflicts.ConflictChecker.TimeChanged | app/Http/Livewire/Controllers/ConflictChecker.php:52-60 | the same for the time; the check succeeds exactly when the new time reads as HHMM |
| Conflicts.ConflictChecker.TrackChanged | app/Http/Livewire/Controllers/ConflictChecker.php:62-69 | the entry fix becomes the first token of the track's routeing (or the mount value when empty), with no new check |
| Conflicts.ConflictChecker.RrChanged | app/Http/Livewire/Controllers/ConflictChecker.php:71-79 | the entry fix becomes the first token of the new random routeing (or the mount value), then a check |
| RclRequests.Add | app/Http/Requests/RclMessageRequest.php:66 | `MessageBag::add` appends the message under its key unless that key already holds it, and leaves every other key's messages as they were |
| RclRequests.AddIdempotent | app/Http/Requests/RclMessageRequest.php:66 | adding the same message twice gives the bag adding it once gives |
| RclRequests.KeyNameInjective | app/Http/Requests/RclMessageRequest.php:66-99 | the six keys the after-hook writes are six different names, so separate rules never share a bag entry |
| RclRequests.RouteingAmbiguous | app/Http/Requests/RclMessageRequest.php:65-69 | with loose `!= null`, the track and the random routeing are both given or both missing |
| RclRequests.MaxFlTooLow | app/Http/Requests/RclMessageRequest.php:74 | the filed level is above the maximum; a null maximum compares as "", below any numeric level |
| RclRequests.RvsmExcluded | app/Http/Requests/RclMessageRequest.php:80 | the filed or the maximum level is 420 or 440 |
| RclRequests.AboveCeiling | app/Http/Requests/RclMessageRequest.php:84 | the filed level is above 450 |
| RclRequests.MachMatches | app/Http/Requests/RclMessageRequest.php:88 | a left-to-right scan for `\b0[1-9][0-9]\b` |
| RclRequests.MachMatchesFromSpec | app/Http/Requests/RclMessageRequest.php:88 | the left-to-right scan from position i finds the mach pattern exactly when it matches at some position from i on |
| RclRequests.MachMatchesSpec | app/Http/Requests/RclMessageRequest.php:88 | `preg_match` succeeds exactly when `\b0[1-9][0-9]\b` matches at some position |
| RclRequests.MachExamples | app/Http/Requests/RclMessageRequest.php:88-89 | "074" and ".074" pass; "74", "0745", "M074", "009" and "0.74" fail |
| RclRequests.CreateFromHi | app/Http/Requests/RclMessageRequest.php:114 | `createFromFormat('Hi')` gives a time exactly for four digits, and agrees with HHMM parsing on valid times |
| RclRequests.LeadMinutesRange | app/Http/Requests/RclMessageRequest.php:116-122 | an entry time, moved to tomorrow when earlier than now, is 0 to 1439 whole minutes ahead; 0 exactly when under a minute ahead; 1439 for the current minute once it has begun; now plus the lead (and the partial minute) lands on the entry |
| RclRequests.MidnightSplit | app/Http/Requests/RclMessageRequest.php:130-132 | for an entry moved to the next day, the whole minutes to midnight plus the minutes from midnight are exactly the lead time |
| RclRequests.WithinWindow | app/Http/Requests/RclMessageRequest.php:125-138 | the lead time within [lower, upper], or at least lower minutes to midnight and the entry at most upper minutes from it |
| RclRequests.WindowLateEveningExamples | app/Http/Requests/RclMessageRequest.php:111-139 | at 23:50 with [15, 90], entry 0005 (15 minutes ahead) is accepted and 0145 (115 ahead) is not |
| RclRequests.WindowMidnightBranchExample | app/Http/Requests/RclMessageRequest.php:129-136 | at 22:00, entry 0030 is 150 minutes ahead and rejected by the first test, but the midnight branch accepts it |
| RclRequests.WindowSameEveningAccepted | app/Http/Requests/RclMessageRequest.php:130-135 | at 10:00, entry 2300 is 780 minutes ahead, yet the midnight branch accepts it |
| RclRequests.WindowPartialMinuteRejects | app/Http/Requests/RclMessageRequest.php:113-122 | at 23:50:30, entry 0005 is 14 whole minutes ahead and 9 to midnight, so both tests reject it with [15, 90] |
| RclRequests.WindowCheckOf | app/Http/Requests/RclMessageRequest.php:92-93 | skipped when disabled or not four bytes long; else an error for a non-numeric time, or in or out of the window |
| RclRequests.WindowSecondsMatter | app/Http/Requests/RclMessageRequest.php:113-114 | at 23:45:00 the entry 0130 is accepted, at 23:45:30 it is not |
| RclRequests.RvsmIndependentOfMaxFl | app/Http/Requests/RclMessageRequest.php:74-82 | filing 420 under a 430 maximum trips the RVSM rule but not the maximum-level rule |
| RclRequests.RclMessageRequest.PrepareForValidation | app/Http/Requests/RclMessageRequest.php:50-57 | with no entry fix but a track id, the entry fix becomes the first token of the track's routeing (`false` when none); afterwards a request with a track id has an entry fix |
| RclRequests.RclMessageRequest.EntryTimeWithinRange | app/Http/Requests/RclMessageRequest.php:111-139 | the arithmetic on instants in microseconds, with the next-day roll, the midnight instant and Carbon's truncated differences, accepts exactly when `WithinWindow` holds |
| RclRequests.RclMessageRequest.LevelAndMachRules | app/Http/Requests/RclMessageRequest.php:74-90 | each of the maximum-level, RVSM, ceiling and mach messages is added under its key exactly when its rule fails and the key does not already hold it; the routeing and window keys are untouched |
| RclRequests.RclMessageRequest.EntryTimeRule | app/Http/Requests/RclMessageRequest.php:92-100 | when enabled and four bytes long, an out-of-window entry adds the range message quoting lower+1 and upper−1 (unless already present), and sends the voice contact when auto-acknowledgement applies; a non-numeric time raises; other keys are untouched |
| RclRequests.RclMessageRequest.WithValidator | app/Http/Requests/RclMessageRequest.php:59-104 | the bag holds, per key, exactly the one message each failed rule adds: the routeing when both or neither are given, and the rest only for non-Concorde requests |

## Left out

- Database access. Eloquent queries become filters over sequences of rows. The `with('rclMessage')` eager load is a `callsign` column on the clearance row. Row order is the table order.
- `firstOrFail` on a missing track (a 404 response). The track's routeing is passed in.
- `formatEntryTimeRestriction` and the clearance model. `ClxMessage.php` is not part of this model, and a row's `time` is its raw restriction.
- Carbon's `longAbsoluteDiffForHumans` phrase. `formatDiff` keeps its minute count in place of the English text.
- `Carbon::parse` of the component time beyond HHMM (other formats, dates, time zones). A time that is not four valid clock digits counts as making `check()` throw.
- Livewire rendering and the listener wiring. A handler whose check would throw keeps the previous state, as a failed Livewire request does.
- The `rules()` field rules. The after-hook is modelled with all the values it reads; the field rules run separately.
- Request inputs other than strings, null, `false` and absent (JSON integers and booleans). The mach and entry time are strings.
- Flight levels as strings. They are integers standing for the numeric strings the field rules let through, and PHP compares numeric strings as numbers. A missing or empty filed level is not modelled; a missing maximum level is.
- The field rules' messages in the error bag. Laravel files them under attribute names (`flight_level`, `mach`, …), and none of these is one of the after-hook's six keys (`select_one_routeing`, `max_fl`, `rvsm`, `flight_level.max`, `mach.regex`, `entry_time.range`). So the model starts those six keys empty.
- `sendMessage` and the CPDLC service. The model records only whether the contact message is sent.
- `config()` values and the datalink authority lookup. They are parameters.
- The gaps between the separate clock reads in `entryTimeWithinRange` (`now()`, `Carbon::today()`). One "now", to the microsecond, is used for both.
- Carbon 3's signed, fractional `diffInMinutes`. The model follows Carbon 2: absolute and truncated.
- `createFromFormat` on strings of four characters that are not all digits. They are treated as an error, although PHP's number reader may skip some non-digits.
- Overflowing hours and minutes such as "2599". They roll forward as PHP does; PHP's warning is not modelled.
- Comparing a `false` entry fix with a database string. In this model no entry matches no row.
- `authorize()` and the constructor's service injection.
- Conflicts.MapClxMessages: its contract states only the row count. The row contents are read through `Scan` and the lemmas about it.
- Conflicts.MapRclMessages: the same.

# Booking agent with email verification — a Dafny model

The system is a conversational booking assistant backed by two tool servers.
The agent (`agent/agent_run.py`) takes one user message per turn. It asks a
language model for tool calls and checks each call against a small state
machine: `idle`, `collecting_email`, `otp_sent`, `verified`. No calendar tool
may run before the user's email address has been verified with a one-time
code. The agent also rewrites calendar calls: an availability question
becomes a `find_free_slot` search in a four-hour window around the time the
user named, and the slot found is cached and reused by the next
`create_calendar_event`. The email server keeps the one-time codes in memory,
rate-limits the sends and counts the verification attempts. The calendar
server finds the first free slot of a window from the calendar's busy
intervals.

The model is split into modules that follow the program:

- `Wrappers` holds `Option` and `Result`.
- `Text` holds the string operations the code relies on: `str.lower` (ASCII letters only),
  `startswith`, `endswith` and substring `in`.
- `Json` holds the dynamically typed values passed between the model, the
  agent and the servers, with Python's truthiness, `dict.get`, `or` and `int()`.
- `Gateway` is `call_tool`'s routing and reply handling, and the `list_tools`
  schema conversion.
- `Intent` is `parse_when`, `make_window_for` and `normalize_booking_args`.
  Times are integer wall-clock minutes in the agent's zone.
- `Orchestrator` is `run_turn`. Pure functions say what a turn does to a
  snapshot of the session. The class `Session` holds the session's fields and
  updates them in place, and each of its methods is proved equal to its
  function.
- `OrchestratorProps` holds the properties of the turn: the guards, the state
  machine, what an unverified session can send, the search, the slot cache
  and the history.
- `OtpLedger` is the email server's store. The class `Ledger` mutates the
  store and its methods are proved equal to the pure `Send` and `Verify`.
  Lemmas cover rate limiting, expiry, attempt counting, re-sending and
  case-insensitive keys.
- `Scheduler` is `find_free_slot`'s gap walk and first-fit scan. Imperative
  methods are proved against the functions `Gaps` and `FirstFit`. Lemmas show
  the results are ordered and earliest-first, and for sorted busy lists that
  the padded slot never overlaps a busy interval.

Several things are inputs to the model: the language model's proposal and
its closing reply, the clock, the two regular-expression scanners (email
address and clock time), and the backends. A backend is a function from the
request sent to the reply it gets.

Behaviours of the code a reader might not expect:

- "tomorrow" without a clock time gives no time at all; the 09:00 base is
  never used on its own (`Intent.ParseWhenNeedsClockToken`).
- `call_tool` does not strip the `email.` prefix. The email server expects the
  full name (`Gateway.RouteEmail`).
- A failing backend raises an exception out of the turn. It does not produce
  a structured error (`Gateway.AnswerUnwrapsEnvelope`).
- `normalize_booking_args` is idempotent only at the default duration
  (`Intent.NormalizeNotIdempotentForOtherDurations`). `run_turn` never calls
  it.
- For a 09:00–13:00 window with busy 09:30–10:00 and 11:00–11:30, the search
  returns 09:00–09:30, because the first gap already fits
  (`Scheduler.MorningExample`).

## Model

| member | source | states |
|---|---|---|
| Text.Lower | email_otp_server/email-otp-mcp-server.py:30 | lower-casing keeps the length and folds each character (ASCII letters only) |
| Text.LowerIdempotent | email_otp_server/email-otp-mcp-server.py:30 | lower-casing twice is lower-casing once |
| Json.ParseInt | agent/agent_run.py:306 | `int(str)` succeeds exactly on an optionally signed, non-empty digit string, giving its signed decimal value; anything else raises `ValueError` |
| Json.ToInt | agent/agent_run.py:306 | `int()` of a number is the number, of a bool 1 or 0, of a string its parse; a timestamp string raises `ValueError`; `None`, a list or a dict raise `TypeError` |
| Json.ParseIntExample | agent/agent_run.py:306 | "90" gives 90, "-15" gives -15, "1h" raises `ValueError` |
| Gateway.IndexOf | agent/agent_run.py:203 | the index found is that of the first occurrence; none means the character does not occur |
| Gateway.RouteHeader | agent/agent_run.py:206-208 | the `X-Verified` header is attached exactly to `calendar.*` calls of a verified session |
| Gateway.RouteEmail | agent/agent_run.py:201-205 | `email.*` calls go to the email server under their full name, without the header |
| Gateway.RouteCalendar | agent/agent_run.py:201-208 | `calendar.<tool>` goes to the calendar server as `<tool>`, with the header iff verified |
| Gateway.RouteNeedsDot | agent/agent_run.py:203 | a name without a dot is never sent: the split raises `IndexError` |
| Gateway.RouteOtherNamespace | agent/agent_run.py:201-208 | a name in any other namespace still goes to the calendar server, never with the header |
| Gateway.AnswerUnwrapsEnvelope | agent/agent_run.py:212-217 | a server's `{"ok": true, "result": r}` answer unwraps to `r`; statuses 400–599 raise; no answer raises `ConnectionError` |
| Gateway.ConvertInput | agent/agent_run.py:71-79 | the field-by-field conversion computes the properties map and the required list |
| Gateway.ListTools | agent/agent_run.py:66-94 | one schema per catalogue entry, in order |
| Gateway.QualifiedNameInNamespace | agent/agent_run.py:67-69 | every schema name is in the namespace, a name already in it is kept, and qualifying is idempotent |
| Gateway.PropertiesAreFields | agent/agent_run.py:73-77 | the properties are exactly the input fields |
| Gateway.PropertyTypes | agent/agent_run.py:74-77 | each property has its field's JSON type: int is integer, bool is boolean, anything else is string, with `?` ignored |
| Gateway.RequiredAreMandatoryFields | agent/agent_run.py:74-79 | a field is required exactly when its type is not marked optional with `?` |
| Gateway.SendEmailOtpSchema | email_otp_server/email-otp-mcp-server.py:111-116 | the email server's `send_email_otp` entry converts to email and locale strings, with only email required |
| Intent.MakeWindowFor | agent/agent_run.py:143-149 | the window is centred on the start, contains it, and spans `span` minutes when `span` is even |
| Intent.ParseWhenNeedsClockToken | agent/agent_run.py:125-134 | empty text, or text without a clock time, gives no time, even with "tomorrow" |
| Intent.ParseWhenRejectsOutOfRange | agent/agent_run.py:135-138 | a clock time is rejected with `ValueError` exactly when its 24-hour hour exceeds 23 or its minute exceeds 59 |
| Intent.MeridiemRule | agent/agent_run.py:135-137 | 12am is hour 0, 12pm is noon, a pm hour below 12 gains 12, other hours stay |
| Intent.ParseWhenIsFuture | agent/agent_run.py:128-141 | a parsed time is after now and has the token's time of day; with "tomorrow" it falls on the next day, otherwise within the next 24 hours |
| Intent.ParseWhenRollsOver | agent/agent_run.py:138-141 | without "tomorrow", a time still ahead today is kept, and one at or before now moves one day on |
| Intent.NormalizeShape | agent/agent_run.py:151-197 | the normalized request has a summary and zone-qualified start and end, with end = start + duration; title and duration are removed; all other arguments are untouched |
| Intent.NormalizeSummary | agent/agent_run.py:157 | the summary is the first truthy one of summary and title, else "Appointment" |
| Intent.NormalizeStart | agent/agent_run.py:160-181 | the start is the provided ISO start (given the local zone when naive), else the time read from the text, else tomorrow at 10:00 |
| Intent.NormalizeIdempotentAtDefaultDuration | agent/agent_run.py:151-197 | at the default 60-minute duration, normalizing again returns the request unchanged, whatever the text and the clock |
| Intent.NormalizeNotIdempotentForOtherDurations | agent/agent_run.py:184-195 | with a 90-minute duration, a second normalization moves the end back to start + 60 |
| Intent.NormalizeAsWrittenRaises | agent/agent_run.py:170-172 | as written, a request without a parsable start and with user text raises `TypeError` |
| Intent.TomorrowAtThreeExample | agent/agent_run.py:170-177 | "tomorrow at 3pm" without a start raises as written; corrected, it books 15:00–16:00 tomorrow |
| Intent.NormalizeAgreesWithAsWritten | agent/agent_run.py:160-177 | the as-written and corrected forms agree whenever a start is provided or there is no user text |
| OtpLedger.Ledger.constructor | email_otp_server/email-otp-mcp-server.py:33 | the store starts empty |
| OtpLedger.Ledger.IncrBucket | email_otp_server/email-otp-mcp-server.py:39-47 | the address's bucket is counted on or restarted, the count is returned, and code records are untouched |
| OtpLedger.Ledger.SendEmailOtp | email_otp_server/email-otp-mcp-server.py:50-63 | the new store and the outcome are those of `Send` |
| OtpLedger.Ledger.VerifyEmailOtp | email_otp_server/email-otp-mcp-server.py:79-94 | the new store and the outcome are those of `Verify` |
| OtpLedger.KeyIgnoresCase | email_otp_server/email-otp-mcp-server.py:30 | two addresses share a key exactly when they agree up to ASCII case |
| OtpLedger.MetaAndBucketKeysDiffer | email_otp_server/email-otp-mcp-server.py:30 | a code record and a send bucket never share a key |
| OtpLedger.BucketWindowRule | email_otp_server/email-otp-mcp-server.py:43-45 | a missing bucket, or one older than an hour (strictly), restarts at 1; otherwise the count goes up by one |
| OtpLedger.SendRefusal | email_otp_server/email-otp-mcp-server.py:54-55 | a send is refused exactly when the new count exceeds the cap; a refused send still counts and stores no code |
| OtpLedger.SendReplacesRecord | email_otp_server/email-otp-mcp-server.py:57-63 | a send replaces the address's record with the new code's hash, expiry now + TTL and 0 attempts |
| OtpLedger.UnconfiguredSendChangesNothing | email_otp_server/email-otp-mcp-server.py:51-52 | without mail configuration, nothing is counted or stored |
| OtpLedger.SendsWithinHour | email_otp_server/email-otp-mcp-server.py:39-55 | within one bucket's hour, the i-th further send is refused exactly when count + i + 1 exceeds the cap |
| OtpLedger.SixthSendInAnHourRefused | email_otp_server/email-otp-mcp-server.py:24 | under the default cap, five sends in an hour go out and the sixth is refused |
| OtpLedger.VerifyWithoutRecord | email_otp_server/email-otp-mcp-server.py:80-82 | with no record the answer is `no_pending` and nothing changes |
| OtpLedger.VerifyAfterExpiry | email_otp_server/email-otp-mcp-server.py:83-85 | past the expiry the record is deleted and the answer is `expired` |
| OtpLedger.VerifyCountsAttempt | email_otp_server/email-otp-mcp-server.py:86-94 | before expiry each try counts an attempt; past the limit it is `too_many_attempts`, even for the right code; a wrong code gives `incorrect_code`; the right one verifies and deletes the record |
| OtpLedger.VerifiedOnlyWithMatchingCode | email_otp_server/email-otp-mcp-server.py:79-94 | verification succeeds only with a record, before expiry, within the attempt limit and with the stored hash |
| OtpLedger.VerifiedCodeIsConsumed | email_otp_server/email-otp-mcp-server.py:93-94 | after success, verifying again gives `no_pending` |
| OtpLedger.WrongCodesExhaustAttempts | email_otp_server/email-otp-mcp-server.py:86-92 | wrong codes give `incorrect_code` while within the limit and `too_many_attempts` after it |
| OtpLedger.SixWrongCodesAfterSend | email_otp_server/email-otp-mcp-server.py:25 | after a send, with the defaults, six wrong codes give five `incorrect_code` then `too_many_attempts` |
| OtpLedger.ResendInvalidatesOldCode | email_otp_server/email-otp-mcp-server.py:57-63 | after re-sending, the earlier code no longer verifies and the new one does |
| OtpLedger.OtherAddressesUntouched | email_otp_server/email-otp-mcp-server.py:30 | sending to or verifying one address changes no other address's records |
| OtpLedger.CaseVariantsShareRecord | email_otp_server/email-otp-mcp-server.py:30 | addresses that differ only in ASCII case behave identically |
| Scheduler.Advance | MCP_Calendar/calendar_api_server.py:94 | the cursor never moves back and ends at or past the busy interval's end |
| Scheduler.FindFreeSlot | MCP_Calendar/calendar_api_server.py:89-102 | the answer is the first fit among the gaps of the window |
| Scheduler.CollectGaps | MCP_Calendar/calendar_api_server.py:89-95 | the loop computes the walk's gaps plus the trailing gap |
| Scheduler.ScanFirstFit | MCP_Calendar/calendar_api_server.py:96-102 | the loop returns the first fit of the gaps |
| Scheduler.CursorNeverDecreases | MCP_Calendar/calendar_api_server.py:90-94 | gaps start at or after the starting cursor, and the final cursor is past every busy end |
| Scheduler.WalkOrdered | MCP_Calendar/calendar_api_server.py:91-94 | with well-formed busy intervals the walk's gaps are non-empty, increasing and non-overlapping |
| Scheduler.GapsOrdered | MCP_Calendar/calendar_api_server.py:89-95 | so are the window's gaps |
| Scheduler.GapsStartInWindow | MCP_Calendar/calendar_api_server.py:89-95 | every gap starts at or after the window start |
| Scheduler.GapsOfFreeWindow | MCP_Calendar/calendar_api_server.py:95 | with nothing busy the only gap is the whole window, when it is not empty |
| Scheduler.FirstFitIsEarliest | MCP_Calendar/calendar_api_server.py:96-102 | nothing is found exactly when no gap fits; otherwise the slot is cut from the earliest gap that fits |
| Scheduler.FreeSlotIsFirstFit | MCP_Calendar/calendar_api_server.py:96-102 | a found slot lasts exactly the duration and starts `pad` into the earliest fitting gap |
| Scheduler.WalkGapsFree | MCP_Calendar/calendar_api_server.py:91-94 | over busy intervals sorted by start, no gap of the walk overlaps any of them |
| Scheduler.FirstFitInsideGap | MCP_Calendar/calendar_api_server.py:98-100 | the slot padded on both sides lies inside its gap |
| Scheduler.FreeSlotAvoidsBusy | MCP_Calendar/calendar_api_server.py:89-102 | over sorted busy intervals, the padded slot overlaps none of them |
| Scheduler.WalkGapsBefore | MCP_Calendar/calendar_api_server.py:91-95 | when no busy interval starts after the window end, every gap ends inside the window |
| Scheduler.FreeSlotInWindow | MCP_Calendar/calendar_api_server.py:89-102 | then the padded slot lies within the window |
| Scheduler.MorningExample | MCP_Calendar/calendar_api_server.py:89-102 | window 09:00–13:00, busy 09:30–10:00 and 11:00–11:30, 30 minutes: the answer is 09:00–09:30 |
| Orchestrator.LastUserIsMostRecent | agent/agent_run.py:293-296 | the backwards scan finds the most recent user entry, and finds none only when there is none |
| Orchestrator.Session.constructor | agent/agent_run.py:220-225 | the session starts idle, with no email, unverified, with an empty history and no cached slot |
| Orchestrator.Session.LastUserContent | agent/agent_run.py:293-296 | the loop returns the most recent user entry |
| Orchestrator.Session.Say | agent/agent_run.py:272-274 | one assistant entry is appended and nothing else changes |
| Orchestrator.Session.RecordUserText | agent/agent_run.py:243-251 | the session becomes the intake snapshot |
| Orchestrator.Session.Execute | agent/agent_run.py:350-388 | the session, tool messages and requests become those of the execution step |
| Orchestrator.Session.Search | agent/agent_run.py:303-316 | the session and requests become those of the search step |
| Orchestrator.Session.Offer | agent/agent_run.py:319-332 | the session becomes that of the offer step |
| Orchestrator.Session.PrepareCreateArgs | agent/agent_run.py:335-348 | the creation's arguments and the slot cache are those `PrepareCreate` gives, and nothing else changes |
| Orchestrator.Session.HandleCall | agent/agent_run.py:266-388 | the session, tool messages and requests become those of `Step` |
| Orchestrator.Session.RunTurn | agent/agent_run.py:241-411 | the session, the reply or error, and the requests sent are those of `Turn` |
| OrchestratorProps.RouteOfSend | agent/agent_run.py:201-205 | the send goes to the email server under its full name, without the header |
| OrchestratorProps.RouteOfVerify | agent/agent_run.py:201-205 | the verification goes to the email server under its full name, without the header |
| OrchestratorProps.RouteOfFind | agent/agent_run.py:201-208 | the search goes to the calendar server as `find_free_slot`, with the header iff verified |
| OrchestratorProps.RouteOfCreate | agent/agent_run.py:201-208 | the creation goes to the calendar server as `create_calendar_event`, with the header iff verified |
| OrchestratorProps.VerifyNeedsPendingCode | agent/agent_run.py:271-274 | a verification with no pending code only appends the "send a code first" reply and ends the turn |
| OrchestratorProps.EarlyVerifyEndsTurn | agent/agent_run.py:241-274 | a turn that opens with such a verification sends no request at all |
| OrchestratorProps.SendWithoutAnyEmailAsks | agent/agent_run.py:276-282 | a send with no address, in a session that knows none, asks for the address |
| OrchestratorProps.SendFallsBackToSessionEmail | agent/agent_run.py:276-278 | a send with no address goes out with the session's address, which the session then keeps |
| OrchestratorProps.CalendarNeedsVerification | agent/agent_run.py:284-287 | a calendar call of an unverified session is not executed |
| OrchestratorProps.SendAwaitsCode | agent/agent_run.py:353-355 | a send moves the session to `otp_sent` with the address used; the verified flag is kept |
| OrchestratorProps.VerifyDecides | agent/agent_run.py:356-359 | after a verification, the session is verified exactly when the reply has `ok` and `verified` truthy |
| OrchestratorProps.StepKeepsUnverified | agent/agent_run.py:266-359 | no call but a verification sets the verified flag |
| OrchestratorProps.OnlyVerifyGrantsVerification | agent/agent_run.py:271-359 | the flag becomes true only through a verification proposed while a code was pending and answered with `ok` and `verified` |
| OrchestratorProps.StepSendsNoHeaderUnverified | agent/agent_run.py:206-208 | an unverified session's call never carries the `X-Verified` header |
| OrchestratorProps.CallsWhileUnverified | agent/agent_run.py:266-359 | calls without a verification leave an unverified session unverified and send no header |
| OrchestratorProps.UnverifiedTurnSendsNoHeader | agent/agent_run.py:241-411 | a whole turn without a proposed verification leaves an unverified session unverified, and sends no header |
| OrchestratorProps.StepIsSearch | agent/agent_run.py:290-315 | a verified calendar call naming the search, or whose text asks about availability, becomes the search with the call's duration and padding |
| OrchestratorProps.SearchSends | agent/agent_run.py:303-316 | the search's one request asks for two hours either side of the desired start (tomorrow at 10:00 when none), with the header |
| OrchestratorProps.SearchEnds | agent/agent_run.py:316-332 | the search ends the turn whatever it finds, and leaves the state machine alone |
| OrchestratorProps.OfferSlotEnds | agent/agent_run.py:319-332 | offering ends the turn and changes neither tool messages, requests nor the state machine |
| OrchestratorProps.SearchCachesOnlyCompleteSlots | agent/agent_run.py:319-332 | the cache changes only to a slot with both ends, which is then offered |
| OrchestratorProps.OfferSlotCaches | agent/agent_run.py:319-332 | an object reply with truthy `start` and `end` is cached as exactly that slot and offered; any other reply keeps the cache and answers that no slot was found |
| OrchestratorProps.SearchOffersAnswer | agent/agent_run.py:309-332 | when the calendar server answers the search's one request with a reply, the search offers that reply |
| OrchestratorProps.CreateUsesCachedSlot | agent/agent_run.py:335-348 | with a cached slot the event takes its times and the cache is emptied; summary defaults, title dropped |
| OrchestratorProps.CreateComputesTimes | agent/agent_run.py:340-348 | without one, the event runs from the desired start (tomorrow at 10:00 when none) for the duration |
| OrchestratorProps.ExecuteOther | agent/agent_run.py:350-388 | a call that is neither email tool sends its routed request and leaves the session as it was |
| OrchestratorProps.CreateStep | agent/agent_run.py:334-350 | an event creation is the prepared cache update followed by executing the prepared arguments |
| OrchestratorProps.CreateConsumesCache | agent/agent_run.py:335-350 | a creation after a search sends the cached times and empties the cache, whatever the calendar answers |
| OrchestratorProps.CreateWithoutCache | agent/agent_run.py:340-350 | a creation with an empty cache sends the computed times |
| OrchestratorProps.CreateSendsPrepared | agent/agent_run.py:340-350 | with an empty cache the creation sends its prepared arguments, with the header |
| OrchestratorProps.SecondCreateComputesTimes | agent/agent_run.py:337-346 | a second creation without a new search cannot reuse the slot |
| OrchestratorProps.LastUserIgnoresOtherEntries | agent/agent_run.py:293-296 | appending non-user entries does not change the last user entry |
| OrchestratorProps.UpdateFsmExtends | agent/agent_run.py:361-380 | the state machine appends at most the resume request, which quotes the last user entry, and the defaults reminder |
| OrchestratorProps.ExecuteExtends | agent/agent_run.py:350-388 | executing a call only appends to the history, and only tool messages to the turn's list |
| OrchestratorProps.SearchExtends | agent/agent_run.py:303-332 | the search only appends its offer or its no-slot reply |
| OrchestratorProps.CalendarExtends | agent/agent_run.py:290-350 | the calendar rewrites only append to the history |
| OrchestratorProps.StepExtendsHistory | agent/agent_run.py:266-388 | one call appends only non-user entries, and any resume request quotes the last user entry |
| OrchestratorProps.CallsExtendHistory | agent/agent_run.py:266-388 | so does the whole loop over the calls |
| OrchestratorProps.TurnExtendsHistory | agent/agent_run.py:241-411 | the turn's history extends the intake's, with entries that quote only this turn's text |
| OrchestratorProps.ResumeQuotesThisTurn | agent/agent_run.py:361-373 | the resume request added after verification quotes this turn's text, which stays the last user entry |
| OrchestratorProps.IntakeAppendsUserText | agent/agent_run.py:249-251 | the rules open an empty history and the user's text follows, as the last user entry |
| OrchestratorProps.IntakeRecordsEmail | agent/agent_run.py:243-247 | a found address is remembered and moves only an idle session on; nothing else changes |
| Text.LowerChar | email_otp_server/email-otp-mcp-server.py:30 | folds one character; no contract of its own, stated by `Text.Lower` and `Text.LowerIdempotent` |
| Gateway.Route | agent/agent_run.py:199-208 | `call_tool`'s routing; no contract of its own, stated by `Gateway.RouteHeader`, `Gateway.RouteEmail`, `Gateway.RouteCalendar`, `Gateway.RouteNeedsDot` and `Gateway.RouteOtherNamespace` |
| Gateway.Answer | agent/agent_run.py:212-217 | `raise_for_status` then `data.get("result", data)`; no contract of its own, stated by `Gateway.AnswerUnwrapsEnvelope` |
| Gateway.CallTool | agent/agent_run.py:199-217 | routing then answer; no contract of its own, stated by `OrchestratorProps.CallToolSends` and the routing lemmas |
| Gateway.Schema | agent/agent_run.py:66-94 | one catalogue entry's schema; no contract of its own, stated by `Gateway.QualifiedNameInNamespace`, `Gateway.PropertiesAreFields`, `Gateway.PropertyTypes`, `Gateway.RequiredAreMandatoryFields` and `Gateway.SendEmailOtpSchema` |
| Intent.ParseWhen | agent/agent_run.py:125-141 | `parse_when`; no contract of its own, stated by `Intent.ParseWhenNeedsClockToken`, `Intent.ParseWhenRejectsOutOfRange`, `Intent.ParseWhenIsFuture` and `Intent.ParseWhenRollsOver` |
| Intent.Normalize | agent/agent_run.py:151-197 | `normalize_booking_args` with the zone handed over correctly; no contract of its own, stated by `Intent.NormalizeShape`, `Intent.NormalizeSummary`, `Intent.NormalizeStart` and the two idempotence lemmas |
| Intent.NormalizeAsWritten | agent/agent_run.py:151-197 | `normalize_booking_args` as written; no contract of its own, stated by `Intent.NormalizeAsWrittenRaises` and `Intent.NormalizeAgreesWithAsWritten` |
| OtpLedger.Key | email_otp_server/email-otp-mcp-server.py:30 | `_key`; no contract of its own, stated by `OtpLedger.KeyIgnoresCase` and `OtpLedger.MetaAndBucketKeysDiffer` |
| OtpLedger.NextBucket | email_otp_server/email-otp-mcp-server.py:39-47 | the bucket after one send; no contract of its own, stated by `OtpLedger.BucketWindowRule` |
| OtpLedger.Send | email_otp_server/email-otp-mcp-server.py:50-63 | `_send_email_otp_impl` on the store; no contract of its own, stated by `OtpLedger.SendRefusal`, `OtpLedger.SendReplacesRecord`, `OtpLedger.UnconfiguredSendChangesNothing`, `OtpLedger.SendsWithinHour` and `OtpLedger.OtherAddressesUntouched` |
| OtpLedger.Verify | email_otp_server/email-otp-mcp-server.py:79-94 | `_verify_email_otp_impl` on the store; no contract of its own, stated by `OtpLedger.VerifyWithoutRecord`, `OtpLedger.VerifyAfterExpiry`, `OtpLedger.VerifyCountsAttempt`, `OtpLedger.VerifiedOnlyWithMatchingCode`, `OtpLedger.VerifiedCodeIsConsumed` and `OtpLedger.WrongCodesExhaustAttempts` |
| Scheduler.Walk | MCP_Calendar/calendar_api_server.py:90-94 | the cursor walk; no contract of its own, stated by `Scheduler.CursorNeverDecreases`, `Scheduler.WalkOrdered`, `Scheduler.WalkGapsFree` and `Scheduler.WalkGapsBefore` |
| Scheduler.Gaps | MCP_Calendar/calendar_api_server.py:89-95 | the window's free blocks; no contract of its own, stated by `Scheduler.GapsOrdered`, `Scheduler.GapsStartInWindow` and `Scheduler.GapsOfFreeWindow`, and computed by `Scheduler.CollectGaps` |
| Scheduler.FirstFit | MCP_Calendar/calendar_api_server.py:96-102 | the first-fit scan; no contract of its own, stated by `Scheduler.FirstFitIsEarliest` and `Scheduler.FirstFitInsideGap`, and computed by `Scheduler.ScanFirstFit` |
| Scheduler.FreeSlot | MCP_Calendar/calendar_api_server.py:89-102 | `find_free_slot`'s answer; no contract of its own, stated by `Scheduler.FreeSlotIsFirstFit`, `Scheduler.FreeSlotAvoidsBusy` and `Scheduler.FreeSlotInWindow`, and computed by `Scheduler.FindFreeSlot` |
| Orchestrator.LastUser | agent/agent_run.py:293-296 | the most recent user entry; no contract of its own, stated by `Orchestrator.LastUserIsMostRecent` and `OrchestratorProps.LastUserIgnoresOtherEntries` |
| Orchestrator.WantsAvailability | agent/agent_run.py:300-301 | the availability words; no contract of its own, used by `OrchestratorProps.StepIsSearch` |
| Orchestrator.AfterIntake | agent/agent_run.py:243-251 | the turn's intake; no contract of its own, stated by `OrchestratorProps.IntakeAppendsUserText` and `OrchestratorProps.IntakeRecordsEmail` |
| Orchestrator.UpdateFsm | agent/agent_run.py:353-380 | the state machine update; no contract of its own, stated by `OrchestratorProps.SendAwaitsCode`, `OrchestratorProps.VerifyDecides` and `OrchestratorProps.UpdateFsmExtends` |
| Orchestrator.ExecuteStep | agent/agent_run.py:350-388 | one executed call; no contract of its own, stated by `OrchestratorProps.ExecuteOther` and `OrchestratorProps.ExecuteExtends` |
| Orchestrator.OfferSlot | agent/agent_run.py:319-332 | the search's answer; no contract of its own, stated by `OrchestratorProps.OfferSlotCaches` and `OrchestratorProps.OfferSlotEnds` |
| Orchestrator.SearchStep | agent/agent_run.py:303-332 | the availability rewrite; no contract of its own, stated by `OrchestratorProps.SearchCachesOnlyCompleteSlots` and `OrchestratorProps.SearchExtends`; with its settings read, it is `SearchWith`, stated by `OrchestratorProps.SearchSends`, `OrchestratorProps.SearchOffersAnswer` and `OrchestratorProps.SearchEnds` |
| Orchestrator.PrepareCreate | agent/agent_run.py:335-348 | the creation's arguments; no contract of its own, stated by `OrchestratorProps.CreateUsesCachedSlot` and `OrchestratorProps.CreateComputesTimes` |
| Orchestrator.CalendarStep | agent/agent_run.py:290-350 | a verified calendar call; no contract of its own, stated by `OrchestratorProps.StepIsSearch`, `OrchestratorProps.CreateStep` and `OrchestratorProps.CalendarExtends` |
| Orchestrator.Step | agent/agent_run.py:266-388 | one proposed call; no contract of its own, stated by the guard lemmas, `OrchestratorProps.StepKeepsUnverified`, `OrchestratorProps.OnlyVerifyGrantsVerification` and `OrchestratorProps.StepExtendsHistory` |
| Orchestrator.ProcessCalls | agent/agent_run.py:266-388 | the loop over the calls; no contract of its own, stated by `OrchestratorProps.CallsWhileUnverified` and `OrchestratorProps.CallsExtendHistory` |
| Orchestrator.Turn | agent/agent_run.py:241-411 | `run_turn`; no contract of its own, stated by `OrchestratorProps.EarlyVerifyEndsTurn`, `OrchestratorProps.UnverifiedTurnSendsNoHeader`, `OrchestratorProps.TurnExtendsHistory` and `OrchestratorProps.ResumeQuotesThisTurn` |

## Left out

- The language model's two completions are not modelled. The proposal (text and tool calls) and the closing text are inputs to a turn.
- The JSON decoding of the proposed arguments (`json.loads`) is not modelled; arguments arrive decoded. Neither is the HTTP exchange: each backend is a fixed function from request to reply, so a backend's own state across calls is not captured. JSON floats are not modelled.
- The regular expressions `EMAIL_RE` and `TIME_RE` are inputs: functions returning the first match. The regular-expression engine is not modelled.
- Real time zones, daylight saving time and ISO-8601 text are not modelled. Agent times are wall-clock minutes in the configured zone, and an ISO timestamp string is the value it denotes. `get_zoneinfo`'s fallbacks are not modelled.
- Dispatching the email (`EmailClient`), the 6-digit code generation (`secrets`), and SHA-256 are left out. The code is an argument, and the hash is a function handed to the ledger; injectivity is assumed only where a lemma needs it.
- Sending with missing mail configuration raises `RuntimeError`, which the HTTP facade turns into status 500. The model returns `NotConfigured` instead.
- The FastAPI and FastMCP facades, the `/tools` fetch, `auth_init.py`, and the Google Calendar calls (events, freebusy, OAuth) are not modelled. The busy list is an input to `find_free_slot`.
- `print` logging is not modelled.
- Text.Lower: only ASCII letters are folded. Python's `str.lower` also folds other letters, so addresses that differ in non-ASCII case (such as "É@x.org" and "é@x.org") share one record in the server but get separate records in the model.
- The default duration `DEFAULT_DURATION_MIN` is read from the environment; the model fixes it at its default of 60 minutes.
- The OTP server's clock is fractional (`time.time()` and timezone-aware `datetime`s); the model uses integer seconds, and an expiry stored as ISO text is its value.
- Json.ParseInt: does not accept the surrounding whitespace or digit-group underscores that Python's `int()` tolerates.
- Json.ToInt: Python floats are not modelled, so `int(1.5)` has no counterpart.
- Scheduler.FreeSlotAvoidsBusy: requires busy intervals sorted by start, as freebusy returns them; an unsorted list is not covered.
- Scheduler.FreeSlotInWindow: requires that no busy interval starts after the window end, which holds for freebusy answers clipped to the window.
- Intent.MakeWindowFor: the ISO formatting of the two ends is not modelled; the ends are minutes.
- Gateway.ListTools: a tool entry whose `input` is missing or not a dict is taken as having no fields; the `type: function` wrapper and `additionalProperties` are fixed and left out of the schema value.

## Findings

| source | as written | input that shows it | evidently intended | confidence | as-written member | corrected member |
|---|---|---|---|---|---|---|
| agent/agent_run.py:172 | `normalize_booking_args` passes the time-zone name (a `str`) as `parse_when`'s `tzinfo`, so `datetime.now(tz)` raises `TypeError` | no `start_iso`, last user text "tomorrow at 3pm" | parse the text in the session's zone, giving 15:00–16:00 tomorrow | not executed | Intent.NormalizeAsWrittenRaises | Intent.NormalizeStart |

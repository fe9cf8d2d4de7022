/** Properties of the agent's turn: the guards, the state machine's updates,
    what an unverified session can send, the availability search, the slot
    cache and the history. */
module OrchestratorProps {
  import opened Wrappers
  import opened Text
  import opened Json
  import opened Intent
  import opened Gateway
  import opened Orchestrator

  // ---------------------------------------------------------------------
  // Where the agent's own tool names are routed

  /** A send goes to the email server under its full name, without the header. */
  lemma RouteOfSend(args: map<string, Json>, verified: bool)
    ensures Route(SendOtp, args, verified) == Success(Request(EmailServer, SendOtp, args, false))
  {
    RouteEmail(SendOtp, args, verified);
  }

  /** So does a verification. */
  lemma RouteOfVerify(args: map<string, Json>, verified: bool)
    ensures Route(VerifyOtp, args, verified) == Success(Request(EmailServer, VerifyOtp, args, false))
  {
    RouteEmail(VerifyOtp, args, verified);
  }

  /** The search reaches the calendar server as `find_free_slot`, with the
      header exactly when the session is verified. */
  lemma RouteOfFind(args: map<string, Json>, verified: bool)
    ensures Route(FindFreeSlot, args, verified) == Success(Request(CalendarServer, "find_free_slot", args, verified))
  {
    assert FindFreeSlot == CalendarPrefix + "find_free_slot";
    RouteCalendar("find_free_slot", args, verified);
  }

  /** So does the event creation, as `create_calendar_event`. */
  lemma RouteOfCreate(args: map<string, Json>, verified: bool)
    ensures Route(CreateEvent, args, verified) == Success(Request(CalendarServer, "create_calendar_event", args, verified))
  {
    assert CreateEvent == CalendarPrefix + "create_calendar_event";
    RouteCalendar("create_calendar_event", args, verified);
  }

  /** A `calendar.*` name is neither of the email tools. */
  lemma CalendarNameIsNotEmail(name: string)
    requires StartsWith(name, CalendarPrefix)
    ensures name != SendOtp && name != VerifyOtp && !StartsWith(name, EmailPrefix)
  {
    assert name[0] == 'c';
  }

  // ---------------------------------------------------------------------
  // The guards

  /** A verification proposed while no code is pending is not executed: one
      assistant entry is appended and the turn ends. */
  lemma VerifyNeedsPendingCode(p: Progress, tc: ToolCall, env: Env)
    requires tc.name == VerifyOtp && p.s.phase != OtpSent
    ensures Step(p, tc, env) ==
            StepResult(Progress(p.s.(history := p.s.history + [AssistantMsg(Said(NeedCodeFirst))]), p.toolMsgs, p.sent),
                       Some(Replied(Said(NeedCodeFirst))))
  {
  }

  /** The same for a whole turn whose first call is such a verification: no
      request at all is sent. */
  lemma {:induction false} EarlyVerifyEndsTurn(s: Snapshot, userText: string, proposal: Proposal, finalText: string, env: Env)
    requires s.phase != OtpSent
    requires |proposal.calls| > 0 && proposal.calls[0].name == VerifyOtp
    ensures var s1 := AfterIntake(s, userText, env.findEmail);
      Turn(s, userText, proposal, finalText, env) ==
      TurnResult(s1.(history := s1.history + [AssistantMsg(Said(NeedCodeFirst))]), Replied(Said(NeedCodeFirst)), [])
  {
    var s1 := AfterIntake(s, userText, env.findEmail);
    assert s1.phase != OtpSent;
    var p := Progress(s1, [], []);
    VerifyNeedsPendingCode(p, proposal.calls[0], env);
    assert ProcessCalls(p, proposal.calls, env) == Step(p, proposal.calls[0], env);
  }

  /** A send without an email address, in a session that knows none, asks for
      one instead. */
  lemma SendWithoutAnyEmailAsks(p: Progress, tc: ToolCall, env: Env)
    requires tc.name == SendOtp && !Truthy(Get(tc.arguments, "email")) && !Truthy(p.s.email)
    ensures Step(p, tc, env) == Canned(p, AskForEmail)
  {
  }

  /** A send without an email address goes out with the session's address,
      which it then keeps. */
  lemma SendFallsBackToSessionEmail(p: Progress, tc: ToolCall, env: Env)
    requires tc.name == SendOtp && !Truthy(Get(tc.arguments, "email")) && Truthy(p.s.email)
    ensures var r := Step(p, tc, env);
      r.p.sent == p.sent + [Request(EmailServer, SendOtp, tc.arguments["email" := p.s.email], false)] &&
      (r.stop.None? ==> r.p.s.phase == OtpSent && r.p.s.email == p.s.email)
  {
    var args := tc.arguments["email" := p.s.email];
    assert !StartsWith(SendOtp, CalendarPrefix) by { assert SendOtp[0] == 'e'; }
    assert Step(p, tc, env) == ExecuteStep(p, tc.id, SendOtp, args, env);
    RouteOfSend(args, p.s.verified);
  }

  /** A calendar call of an unverified session is not executed. */
  lemma CalendarNeedsVerification(p: Progress, tc: ToolCall, env: Env)
    requires StartsWith(tc.name, CalendarPrefix) && !p.s.verified
    ensures Step(p, tc, env) == Canned(p, VerifyFirst)
  {
    CalendarNameIsNotEmail(tc.name);
  }

  // ---------------------------------------------------------------------
  // The state machine

  /** An executed send: a code is pending for the address used; the
      verification flag is left as it was, so a session that re-sends after
      verifying is both verified and waiting for a code. */
  lemma SendAwaitsCode(p: Progress, id: string, args: map<string, Json>, env: Env)
    requires ExecuteStep(p, id, SendOtp, args, env).stop.None?
    ensures ExecuteStep(p, id, SendOtp, args, env).p.s ==
            p.s.(phase := OtpSent, email := if "email" in args then args["email"] else p.s.email)
  {
    RouteOfSend(args, p.s.verified);
  }

  /** An executed verification: the session is verified exactly when the
      reply says both `ok` and `verified`, and then waits for nothing more;
      otherwise it still waits for a code. */
  lemma VerifyDecides(p: Progress, id: string, args: map<string, Json>, env: Env)
    requires ExecuteStep(p, id, VerifyOtp, args, env).stop.None?
    ensures var reply := Answer(env.backend(Request(EmailServer, VerifyOtp, args, false)));
      var s1 := ExecuteStep(p, id, VerifyOtp, args, env).p.s;
      reply.Success? && reply.value.JObj? &&
      var ok := Truthy(Get(reply.value.fields, "ok")) && Truthy(Get(reply.value.fields, "verified"));
      s1.verified == ok && s1.phase == (if ok then Verified else OtpSent) &&
      s1.email == p.s.email && s1.proposed == p.s.proposed
  {
    RouteOfVerify(args, p.s.verified);
  }

  /** No call but a verification sets the verification flag. */
  lemma StepKeepsUnverified(p: Progress, tc: ToolCall, env: Env)
    requires !p.s.verified && tc.name != VerifyOtp
    ensures !Step(p, tc, env).p.s.verified
  {
  }

  /** The flag only becomes true through a verification proposed while a code
      was pending, and answered with both `ok` and `verified`. */
  lemma OnlyVerifyGrantsVerification(p: Progress, tc: ToolCall, env: Env)
    requires !p.s.verified && Step(p, tc, env).p.s.verified
    ensures tc.name == VerifyOtp && p.s.phase == OtpSent
    ensures var reply := Answer(env.backend(Request(EmailServer, VerifyOtp, tc.arguments, false)));
      reply.Success? && reply.value.JObj? &&
      Truthy(Get(reply.value.fields, "ok")) && Truthy(Get(reply.value.fields, "verified"))
  {
    if tc.name != VerifyOtp {
      StepKeepsUnverified(p, tc, env);
    }
    RouteOfVerify(tc.arguments, p.s.verified);
  }

  predicate NoHeader(sent: seq<Request>) {
    forall i :: 0 <= i < |sent| ==> !sent[i].xVerified
  }

  predicate NoVerifyCall(calls: seq<ToolCall>) {
    forall i :: 0 <= i < |calls| ==> calls[i].name != VerifyOtp
  }

  /** While unverified, no call sends the header. */
  lemma StepSendsNoHeaderUnverified(p: Progress, tc: ToolCall, env: Env)
    requires !p.s.verified && NoHeader(p.sent)
    ensures NoHeader(Step(p, tc, env).p.sent)
  {
    if !StartsWith(tc.name, CalendarPrefix) {
      var args := if tc.name == SendOtp && !Truthy(Get(tc.arguments, "email")) then tc.arguments["email" := p.s.email] else tc.arguments;
      var call := CallTool(tc.name, args, false, env.backend);
      assert call.sent.Some? ==> !call.sent.value.xVerified;
    }
  }

  /** Calls without a verification leave an unverified session unverified
      and send no header. */
  lemma {:induction false} CallsWhileUnverified(p: Progress, calls: seq<ToolCall>, env: Env)
    requires !p.s.verified && NoHeader(p.sent) && NoVerifyCall(calls)
    ensures !ProcessCalls(p, calls, env).p.s.verified
    ensures NoHeader(ProcessCalls(p, calls, env).p.sent)
    decreases |calls|
  {
    if calls != [] {
      StepKeepsUnverified(p, calls[0], env);
      StepSendsNoHeaderUnverified(p, calls[0], env);
      var r := Step(p, calls[0], env);
      if r.stop.None? {
        assert NoVerifyCall(calls[1..]) by {
          forall i | 0 <= i < |calls[1..]| ensures calls[1..][i].name != VerifyOtp {
            assert calls[1..][i] == calls[i + 1];
          }
        }
        CallsWhileUnverified(r.p, calls[1..], env);
      }
    }
  }

  /** A turn of an unverified session without a proposed verification ends
      unverified, and none of its requests carries the `X-Verified` header. */
  lemma UnverifiedTurnSendsNoHeader(s: Snapshot, userText: string, proposal: Proposal, finalText: string, env: Env)
    requires !s.verified && NoVerifyCall(proposal.calls)
    ensures !Turn(s, userText, proposal, finalText, env).after.verified
    ensures NoHeader(Turn(s, userText, proposal, finalText, env).sent)
  {
    if proposal.calls != [] {
      CallsWhileUnverified(Progress(AfterIntake(s, userText, env.findEmail), [], []), proposal.calls, env);
    }
  }

  // ---------------------------------------------------------------------
  // The availability search

  /** A calendar call of a verified session that names the search, or whose
      user text asks about availability, becomes the search with the call's
      duration and padding around the start the text gives. */
  lemma StepIsSearch(p: Progress, tc: ToolCall, env: Env, desired: Option<int>, duration: int, pad: int)
    requires StartsWith(tc.name, CalendarPrefix) && p.s.verified
    requires ParseWhen(LastUser(p.s.history).GetOr(""), env.now, env.scanClock) == Success(desired)
    requires tc.name == FindFreeSlot || WantsAvailability(LastUser(p.s.history).GetOr(""))
    requires ToInt(Or(Get(tc.arguments, "duration_minutes"), JNum(DefaultDurationMin))) == Success(duration)
    requires ToInt(Or(Get(tc.arguments, "pad_minutes"), JNum(0))) == Success(pad)
    ensures Step(p, tc, env) == SearchWith(p, duration, pad, desired, env)
  {
    CalendarNameIsNotEmail(tc.name);
    assert Step(p, tc, env) == SearchStep(p, tc.arguments, desired, env);
    assert SearchSettings(tc.arguments) == Success((duration, pad));
  }

  /** The search's one request: the two hours either side of the desired
      start, tomorrow at ten when the text gives none. */
  lemma SearchSends(p: Progress, duration: int, pad: int, desired: Option<int>, env: Env, t: int)
    requires p.s.verified && t == desired.GetOr(TomorrowAtTen(env.now))
    ensures SearchWith(p, duration, pad, desired, env).p.sent ==
      p.sent + [Request(CalendarServer, "find_free_slot", SearchQuery(duration, (t - 120, t + 120), pad), true)]
  {
    var query := SearchQuery(duration, MakeWindowFor(t, duration, WindowSpan), pad);
    SearchSendsCall(p, duration, pad, desired, env);
    RouteOfFind(query, true);
    CallToolSends(FindFreeSlot, query, true, env.backend, Request(CalendarServer, "find_free_slot", query, true));
    WindowAround(t, duration);
  }

  /** The agent's window: two hours either side. */
  lemma WindowAround(t: int, duration: int)
    ensures MakeWindowFor(t, duration, WindowSpan) == (t - 120, t + 120)
  {
  }

  /** A call that routes sends exactly the routed request. */
  lemma CallToolSends(name: string, args: map<string, Json>, verified: bool, backend: Backend, req: Request)
    requires Route(name, args, verified) == Success(req)
    ensures SentBy(CallTool(name, args, verified, backend)) == [req]
  {
  }

  /** The search sends what its one gateway call sends. */
  lemma SearchSendsCall(p: Progress, duration: int, pad: int, desired: Option<int>, env: Env)
    ensures var window := MakeWindowFor(desired.GetOr(TomorrowAtTen(env.now)), duration, WindowSpan);
      SearchWith(p, duration, pad, desired, env).p.sent ==
      p.sent + SentBy(CallTool(FindFreeSlot, SearchQuery(duration, window, pad), p.s.verified, env.backend))
  {
    var window := MakeWindowFor(desired.GetOr(TomorrowAtTen(env.now)), duration, WindowSpan);
    var call := CallTool(FindFreeSlot, SearchQuery(duration, window, pad), p.s.verified, env.backend);
    if call.result.Success? {
      OfferSlotEnds(p.(sent := p.sent + SentBy(call)), call.result.value);
    }
  }

  /** The search ends the turn, whatever it finds, and leaves the state
      machine alone. */
  lemma SearchEnds(p: Progress, duration: int, pad: int, desired: Option<int>, env: Env)
    ensures var r := SearchWith(p, duration, pad, desired, env);
      r.stop.Some? && r.p.toolMsgs == p.toolMsgs &&
      r.p.s.phase == p.s.phase && r.p.s.email == p.s.email && r.p.s.verified == p.s.verified
  {
    var window := MakeWindowFor(desired.GetOr(TomorrowAtTen(env.now)), duration, WindowSpan);
    var call := CallTool(FindFreeSlot, SearchQuery(duration, window, pad), p.s.verified, env.backend);
    if call.result.Success? {
      OfferSlotEnds(p.(sent := p.sent + SentBy(call)), call.result.value);
    }
  }

  /** Offering ends the turn and touches neither the tool messages, the
      requests nor the state machine. */
  lemma OfferSlotEnds(p: Progress, result: Json)
    ensures var r := OfferSlot(p, result);
      r.stop.Some? && r.p.toolMsgs == p.toolMsgs && r.p.sent == p.sent &&
      r.p.s.phase == p.s.phase && r.p.s.email == p.s.email && r.p.s.verified == p.s.verified
  {
  }

  /** The search changes the cache only to a slot with both ends, which it
      offers; when it finds none, the previous cache stays. */
  lemma SearchCachesOnlyCompleteSlots(p: Progress, args: map<string, Json>, desired: Option<int>, env: Env)
    ensures var r := SearchStep(p, args, desired, env);
      r.stop.Some? &&
      (r.p.s.proposed == p.s.proposed ||
       (r.p.s.proposed.Some? && Truthy(r.p.s.proposed.value.start) && Truthy(r.p.s.proposed.value.end) &&
        r.stop == Some(Replied(SlotOffer(r.p.s.proposed.value.start, r.p.s.proposed.value.end)))))
  {
  }

  // ---------------------------------------------------------------------
  // The event creation and the slot cache

  /** A reply that is an object with truthy `start` and `end` is cached as
      exactly that slot and offered; any other reply leaves the cache as it
      was and ends the turn with the request to widen the window. */
  lemma OfferSlotCaches(p: Progress, result: Json)
    ensures var r := OfferSlot(p, result);
      var complete := result.JObj? && "start" in result.fields && "end" in result.fields &&
                      Truthy(result.fields["start"]) && Truthy(result.fields["end"]);
      (complete ==>
        r.p.s.proposed == Some(Slot(result.fields["start"], result.fields["end"])) &&
        r.stop == Some(Replied(SlotOffer(result.fields["start"], result.fields["end"]))) &&
        r.p.s.history == p.s.history + [AssistantMsg(SlotOffer(result.fields["start"], result.fields["end"]))]) &&
      (!complete ==>
        r.p.s.proposed == p.s.proposed &&
        r.stop == Some(Replied(Said(NoSlotFound))) &&
        r.p.s.history == p.s.history + [AssistantMsg(Said(NoSlotFound))])
  {
  }

  /** When the calendar server answers the search's request with `result`,
      the search sends that one request and then offers `result`. */
  lemma SearchOffersAnswer(p: Progress, duration: int, pad: int, desired: Option<int>, env: Env, t: int, result: Json)
    requires p.s.verified && t == desired.GetOr(TomorrowAtTen(env.now))
    requires Answer(env.backend(Request(CalendarServer, "find_free_slot", SearchQuery(duration, (t - 120, t + 120), pad), true))) == Success(result)
    ensures SearchWith(p, duration, pad, desired, env) ==
      OfferSlot(p.(sent := p.sent + [Request(CalendarServer, "find_free_slot", SearchQuery(duration, (t - 120, t + 120), pad), true)]), result)
  {
    var req := Request(CalendarServer, "find_free_slot", SearchQuery(duration, (t - 120, t + 120), pad), true);
    WindowAround(t, duration);
    RouteOfFind(SearchQuery(duration, (t - 120, t + 120), pad), true);
    assert CallTool(FindFreeSlot, SearchQuery(duration, (t - 120, t + 120), pad), true, env.backend) == Call(Some(req), Success(result));
  }

  /** With a cached slot the event takes its times, and the cache is emptied. */
  lemma CreateUsesCachedSlot(slot: Slot, args: map<string, Json>, desired: Option<int>, now: int)
    requires Truthy(slot.start) && Truthy(slot.end)
    ensures var r := PrepareCreate(Some(slot), args, desired, now);
      r.Success? && r.value.proposed == None &&
      "start_iso" in r.value.args && r.value.args["start_iso"] == slot.start &&
      "end_iso" in r.value.args && r.value.args["end_iso"] == slot.end &&
      "title" !in r.value.args &&
      "summary" in r.value.args &&
      r.value.args["summary"] == (if "summary" in args then args["summary"] else Or(Get(args, "title"), JStr(DefaultSummary)))
  {
  }

  /** Without one, the event starts at the desired start (tomorrow at ten
      when there is none) and lasts the duration (60 minutes by default). */
  lemma CreateComputesTimes(args: map<string, Json>, desired: Option<int>, now: int, duration: int)
    requires ToInt(Or(Get(args, "duration_minutes"), JNum(DefaultDurationMin))) == Success(duration)
    ensures var r := PrepareCreate(None, args, desired, now);
      var t := desired.GetOr(TomorrowAtTen(now));
      r.Success? && r.value.proposed == None &&
      "start_iso" in r.value.args && r.value.args["start_iso"] == IsoAt(t) &&
      "end_iso" in r.value.args && r.value.args["end_iso"] == IsoAt(t + duration) &&
      "title" !in r.value.args
  {
  }

  /** The conditions under which a calendar call is an event creation. */
  predicate CreatesEvent(p: Progress, tc: ToolCall, env: Env) {
    var text := LastUser(p.s.history).GetOr("");
    tc.name == CreateEvent && p.s.verified &&
    ParseWhen(text, env.now, env.scanClock).Success? && !WantsAvailability(text)
  }

  /** A call that is neither email tool sends its routed request and leaves
      the session as it was. */
  lemma ExecuteOther(p: Progress, id: string, name: string, args: map<string, Json>, env: Env, req: Request)
    requires name != SendOtp && name != VerifyOtp
    requires Route(name, args, p.s.verified) == Success(req)
    ensures ExecuteStep(p, id, name, args, env).p.sent == p.sent + [req]
    ensures ExecuteStep(p, id, name, args, env).p.s == p.s
  {
  }

  /** What a creation does: the cache is replaced as `PrepareCreate` says,
      then the call is executed with the prepared arguments. */
  lemma CreateStep(p: Progress, tc: ToolCall, env: Env)
    requires CreatesEvent(p, tc, env)
    ensures var desired := ParseWhen(LastUser(p.s.history).GetOr(""), env.now, env.scanClock).value;
      var prep := PrepareCreate(p.s.proposed, tc.arguments, desired, env.now);
      prep.Success? ==>
        Step(p, tc, env) == ExecuteStep(p.(s := p.s.(proposed := prep.value.proposed)), tc.id, CreateEvent, prep.value.args, env)
  {
    CalendarNameIsNotEmail(tc.name);
    assert StartsWith(CreateEvent, CalendarPrefix);
  }

  /** A creation after a search uses the cached slot and empties the cache,
      whatever the calendar answers. */
  lemma CreateConsumesCache(p: Progress, tc: ToolCall, env: Env)
    requires CreatesEvent(p, tc, env)
    requires p.s.proposed.Some? && Truthy(p.s.proposed.value.start) && Truthy(p.s.proposed.value.end)
    ensures var r := Step(p, tc, env);
      var a := PrepareCreate(p.s.proposed, tc.arguments, ParseWhen(LastUser(p.s.history).GetOr(""), env.now, env.scanClock).value, env.now).value.args;
      r.p.s == p.s.(proposed := None) &&
      a["start_iso"] == p.s.proposed.value.start && a["end_iso"] == p.s.proposed.value.end &&
      r.p.sent == p.sent + [Request(CalendarServer, "create_calendar_event", a, true)]
  {
    var desired := ParseWhen(LastUser(p.s.history).GetOr(""), env.now, env.scanClock).value;
    CreateUsesCachedSlot(p.s.proposed.value, tc.arguments, desired, env.now);
    var a := PrepareCreate(p.s.proposed, tc.arguments, desired, env.now).value.args;
    CreateStep(p, tc, env);
    var q := p.(s := p.s.(proposed := None));
    RouteOfCreate(a, true);
    ExecuteOther(q, tc.id, CreateEvent, a, env, Request(CalendarServer, "create_calendar_event", a, true));
  }

  /** A creation with an empty cache sends the computed times. */
  lemma CreateWithoutCache(q: Progress, tc: ToolCall, env: Env, desired: Option<int>, duration: int)
    requires CreatesEvent(q, tc, env) && q.s.proposed.None?
    requires ParseWhen(LastUser(q.s.history).GetOr(""), env.now, env.scanClock) == Success(desired)
    requires ToInt(Or(Get(tc.arguments, "duration_minutes"), JNum(DefaultDurationMin))) == Success(duration)
    ensures var t := desired.GetOr(TomorrowAtTen(env.now));
      var prep := PrepareCreate(None, tc.arguments, desired, env.now);
      prep.Success? &&
      Step(q, tc, env).p.sent == q.sent + [Request(CalendarServer, "create_calendar_event", prep.value.args, true)] &&
      "start_iso" in prep.value.args && prep.value.args["start_iso"] == IsoAt(t) &&
      "end_iso" in prep.value.args && prep.value.args["end_iso"] == IsoAt(t + duration)
  {
    var a := PrepareCreate(None, tc.arguments, desired, env.now).value.args;
    CreateSendsPrepared(q, tc, env, desired, a);
    CreateComputesTimes(tc.arguments, desired, env.now, duration);
  }

  /** With an empty cache the creation sends its prepared arguments. */
  lemma CreateSendsPrepared(q: Progress, tc: ToolCall, env: Env, desired: Option<int>, a: map<string, Json>)
    requires CreatesEvent(q, tc, env) && q.s.proposed.None?
    requires ParseWhen(LastUser(q.s.history).GetOr(""), env.now, env.scanClock) == Success(desired)
    requires PrepareCreate(None, tc.arguments, desired, env.now) == Success(Prepared(None, a))
    ensures Step(q, tc, env).p.sent == q.sent + [Request(CalendarServer, "create_calendar_event", a, true)]
  {
    CreateStep(q, tc, env);
    assert q.(s := q.s.(proposed := None)) == q;
    RouteOfCreate(a, true);
    ExecuteOther(q, tc.id, CreateEvent, a, env, Request(CalendarServer, "create_calendar_event", a, true));
  }

  /** A second creation without a new search cannot reuse the slot: its times
      are computed from the text and its duration. */
  lemma SecondCreateComputesTimes(p: Progress, tc1: ToolCall, tc2: ToolCall, env: Env, desired: Option<int>, duration: int)
    requires CreatesEvent(p, tc1, env) && CreatesEvent(p, tc2, env)
    requires ParseWhen(LastUser(p.s.history).GetOr(""), env.now, env.scanClock) == Success(desired)
    requires p.s.proposed.Some? && Truthy(p.s.proposed.value.start) && Truthy(p.s.proposed.value.end)
    requires ToInt(Or(Get(tc2.arguments, "duration_minutes"), JNum(DefaultDurationMin))) == Success(duration)
    ensures var q := Step(p, tc1, env).p;
      var t := desired.GetOr(TomorrowAtTen(env.now));
      var prep := PrepareCreate(None, tc2.arguments, desired, env.now);
      q.s.proposed.None? && prep.Success? &&
      Step(q, tc2, env).p.sent == q.sent + [Request(CalendarServer, "create_calendar_event", prep.value.args, true)] &&
      "start_iso" in prep.value.args && prep.value.args["start_iso"] == IsoAt(t) &&
      "end_iso" in prep.value.args && prep.value.args["end_iso"] == IsoAt(t + duration)
  {
    CreateConsumesCache(p, tc1, env);
    var q := Step(p, tc1, env).p;
    assert q.s.history == p.s.history && q.s.verified && q.s.proposed.None?;
    CreateWithoutCache(q, tc2, env, desired, duration);
  }

  // ---------------------------------------------------------------------
  // The history

  /** New entries that are not user entries and whose resume requests all quote `u`. */
  predicate QuotesOnly(extra: seq<Message>, u: string) {
    forall i :: 0 <= i < |extra| ==>
      !extra[i].UserMsg? && (extra[i].SystemMsg? && extra[i].note.ResumeRequest? ==> extra[i].note.request == u)
  }

  /** `h2` is `h1` with such entries appended. */
  predicate Extends(h2: seq<Message>, h1: seq<Message>, u: string) {
    |h1| <= |h2| && h2[..|h1|] == h1 && QuotesOnly(h2[|h1|..], u)
  }

  predicate AllToolMsgs(msgs: seq<Message>) {
    forall i :: 0 <= i < |msgs| ==> msgs[i].ToolMsg?
  }

  /** Appending non-user entries leaves the last user entry as it was. */
  lemma {:induction false} LastUserIgnoresOtherEntries(h: seq<Message>, extra: seq<Message>)
    requires forall i :: 0 <= i < |extra| ==> !extra[i].UserMsg?
    ensures LastUser(h + extra) == LastUser(h)
    decreases |extra|
  {
    if extra != [] {
      var n := |extra| - 1;
      assert (h + extra)[..|h + extra| - 1] == h + extra[..n];
      LastUserIgnoresOtherEntries(h, extra[..n]);
    } else {
      assert h + extra == h;
    }
  }

  /** Extension is transitive. */
  lemma ExtendsTrans(h3: seq<Message>, h2: seq<Message>, h1: seq<Message>, u: string)
    requires Extends(h3, h2, u) && Extends(h2, h1, u)
    ensures Extends(h3, h1, u)
  {
    assert h3[..|h1|] == h3[..|h2|][..|h1|];
    forall i | 0 <= i < |h3[|h1|..]|
      ensures !h3[|h1|..][i].UserMsg? &&
              (h3[|h1|..][i].SystemMsg? && h3[|h1|..][i].note.ResumeRequest? ==> h3[|h1|..][i].note.request == u)
    {
      if |h1| + i < |h2| {
        assert h3[|h1|..][i] == h2[|h1|..][i];
      } else {
        assert h3[|h1|..][i] == h3[|h2|..][|h1| + i - |h2|];
      }
    }
  }

  /** Appending quoting entries extends a history. */
  lemma ExtendsByAppend(h: seq<Message>, extra: seq<Message>, u: string)
    requires QuotesOnly(extra, u)
    ensures Extends(h + extra, h, u)
  {
    assert (h + extra)[..|h|] == h;
    assert (h + extra)[|h|..] == extra;
  }

  /** A canned reply extends the history. */
  lemma CannedExtends(p: Progress, text: string, u: string)
    ensures Extends(Canned(p, text).p.s.history, p.s.history, u)
    ensures Canned(p, text).p.toolMsgs == p.toolMsgs
  {
    ExtendsByAppend(p.s.history, [AssistantMsg(Said(text))], u);
  }

  /** A history extends itself. */
  lemma UnchangedExtends(h: seq<Message>, u: string)
    ensures Extends(h, h, u)
  {
    ExtendsByAppend(h, [], u);
    assert h + [] == h;
  }

  /** The state machine appends at most the resume request, quoting the last
      user entry, and the defaults reminder. */
  lemma UpdateFsmExtends(s: Snapshot, name: string, args: map<string, Json>, result: Json)
    requires LastUser(s.history).Some?
    requires UpdateFsm(s, name, args, result).Success?
    ensures Extends(UpdateFsm(s, name, args, result).value.history, s.history, LastUser(s.history).value)
  {
    var u := LastUser(s.history).value;
    var h2 := UpdateFsm(s, name, args, result).value.history;
    if h2 == s.history {
      UnchangedExtends(s.history, u);
    } else {
      ExtendsByAppend(s.history, [SystemMsg(ResumeRequest(u)), SystemMsg(OfferDefaults)], u);
    }
  }

  /** Executing a call extends the history and adds only tool messages. */
  lemma ExecuteExtends(p: Progress, id: string, name: string, args: map<string, Json>, env: Env)
    requires LastUser(p.s.history).Some? && AllToolMsgs(p.toolMsgs)
    ensures Extends(ExecuteStep(p, id, name, args, env).p.s.history, p.s.history, LastUser(p.s.history).value)
    ensures AllToolMsgs(ExecuteStep(p, id, name, args, env).p.toolMsgs)
  {
    var call := CallTool(name, args, p.s.verified, env.backend);
    if call.result.Success? && UpdateFsm(p.s, name, args, call.result.value).Success? {
      UpdateFsmExtends(p.s, name, args, call.result.value);
    } else {
      UnchangedExtends(p.s.history, LastUser(p.s.history).value);
    }
  }

  /** The search appends at most its offer or its no-slot reply. */
  lemma SearchExtends(p: Progress, args: map<string, Json>, desired: Option<int>, env: Env)
    ensures Extends(SearchStep(p, args, desired, env).p.s.history, p.s.history, LastUser(p.s.history).GetOr(""))
    ensures SearchStep(p, args, desired, env).p.toolMsgs == p.toolMsgs
  {
    var u := LastUser(p.s.history).GetOr("");
    var h2 := SearchStep(p, args, desired, env).p.s.history;
    if h2 == p.s.history {
      UnchangedExtends(p.s.history, u);
    } else if h2 == p.s.history + [AssistantMsg(Said(NoSlotFound))] {
      ExtendsByAppend(p.s.history, [AssistantMsg(Said(NoSlotFound))], u);
    } else {
      var r := SearchStep(p, args, desired, env);
      var e := r.stop.value.reply;
      assert h2 == p.s.history + [AssistantMsg(e)];
      ExtendsByAppend(p.s.history, [AssistantMsg(e)], u);
    }
  }

  /** So do the calendar rewrites. */
  lemma CalendarExtends(p: Progress, id: string, name: string, args: map<string, Json>, env: Env)
    requires LastUser(p.s.history).Some? && AllToolMsgs(p.toolMsgs)
    ensures Extends(CalendarStep(p, id, name, args, env).p.s.history, p.s.history, LastUser(p.s.history).value)
    ensures AllToolMsgs(CalendarStep(p, id, name, args, env).p.toolMsgs)
  {
    var text := LastUser(p.s.history).GetOr("");
    match ParseWhen(text, env.now, env.scanClock)
    case Failure(_) =>
      UnchangedExtends(p.s.history, text);
    case Success(desired) =>
      if name == FindFreeSlot || WantsAvailability(text) {
        SearchExtends(p, args, desired, env);
      } else if name == CreateEvent {
        match PrepareCreate(p.s.proposed, args, desired, env.now)
        case Failure(_) =>
          UnchangedExtends(p.s.history, text);
        case Success(prep) =>
          ExecuteExtends(p.(s := p.s.(proposed := prep.proposed)), id, name, prep.args, env);
      } else {
        ExecuteExtends(p, id, name, args, env);
      }
  }

  /** One call appends only non-user entries, and any resume request among
      them quotes the last user entry. */
  lemma StepExtendsHistory(p: Progress, tc: ToolCall, env: Env)
    requires LastUser(p.s.history).Some? && AllToolMsgs(p.toolMsgs)
    ensures Extends(Step(p, tc, env).p.s.history, p.s.history, LastUser(p.s.history).value)
    ensures AllToolMsgs(Step(p, tc, env).p.toolMsgs)
  {
    var u := LastUser(p.s.history).value;
    var name := tc.name;
    var missingEmail := !Truthy(Get(tc.arguments, "email"));
    if name == VerifyOtp && p.s.phase != OtpSent {
      CannedExtends(p, NeedCodeFirst, u);
    } else if name == SendOtp && missingEmail && !Truthy(p.s.email) {
      CannedExtends(p, AskForEmail, u);
    } else if StartsWith(name, CalendarPrefix) && !p.s.verified {
      CannedExtends(p, VerifyFirst, u);
    } else {
      var args := if name == SendOtp && missingEmail then tc.arguments["email" := p.s.email] else tc.arguments;
      if StartsWith(name, CalendarPrefix) {
        CalendarExtends(p, tc.id, name, args, env);
      } else {
        ExecuteExtends(p, tc.id, name, args, env);
      }
    }
  }

  lemma {:induction false} CallsExtendHistory(p: Progress, calls: seq<ToolCall>, env: Env)
    requires LastUser(p.s.history).Some? && AllToolMsgs(p.toolMsgs)
    ensures Extends(ProcessCalls(p, calls, env).p.s.history, p.s.history, LastUser(p.s.history).value)
    ensures AllToolMsgs(ProcessCalls(p, calls, env).p.toolMsgs)
    decreases |calls|
  {
    var u := LastUser(p.s.history).value;
    if calls == [] {
      ExtendsByAppend(p.s.history, [], u);
      assert p.s.history + [] == p.s.history;
    } else {
      StepExtendsHistory(p, calls[0], env);
      var r := Step(p, calls[0], env);
      if r.stop.None? {
        var h1 := r.p.s.history;
        var rest := ProcessCalls(r.p, calls[1..], env);
        assert ProcessCalls(p, calls, env) == rest;
        LastUserIgnoresOtherEntries(p.s.history, h1[|p.s.history|..]);
        assert p.s.history + h1[|p.s.history|..] == h1;
        CallsExtendHistory(r.p, calls[1..], env);
        ExtendsTrans(rest.p.s.history, h1, p.s.history, u);
      } else {
        assert ProcessCalls(p, calls, env) == r;
      }
    }
  }

  /** Over a whole turn the history only grows past the user's new entry, which
      stays the last user entry, so every resume request added in the turn
      quotes the user's text of this turn. */
  lemma ResumeQuotesThisTurn(s: Snapshot, userText: string, proposal: Proposal, finalText: string, env: Env)
    ensures var s1 := AfterIntake(s, userText, env.findEmail);
      var after := Turn(s, userText, proposal, finalText, env).after;
      Extends(after.history, s1.history, userText) && LastUser(after.history) == Some(userText)
  {
    var h1 := AfterIntake(s, userText, env.findEmail).history;
    var after := Turn(s, userText, proposal, finalText, env).after;
    TurnExtendsHistory(s, userText, proposal, finalText, env);
    LastUserIgnoresOtherEntries(h1, after.history[|h1|..]);
    assert h1 + after.history[|h1|..] == after.history;
  }

  /** The turn's history extends the one its intake left, with entries that
      quote only the user's text of this turn. */
  lemma TurnExtendsHistory(s: Snapshot, userText: string, proposal: Proposal, finalText: string, env: Env)
    ensures Extends(Turn(s, userText, proposal, finalText, env).after.history, AfterIntake(s, userText, env.findEmail).history, userText)
  {
    var s1 := AfterIntake(s, userText, env.findEmail);
    var h1 := s1.history;
    assert LastUser(h1) == Some(userText);
    var after := Turn(s, userText, proposal, finalText, env).after;
    if proposal.calls == [] {
      var tail := [AssistantMsg(Said(OrNoResponse(proposal.content)))];
      assert after.history == h1 + tail;
      ExtendsByAppend(h1, tail, userText);
    } else {
      var p := Progress(s1, [], []);
      CallsExtendHistory(p, proposal.calls, env);
      var r := ProcessCalls(p, proposal.calls, env);
      if r.stop.None? {
        var tail := [AssistantCalls(proposal.content, proposal.calls)] + r.p.toolMsgs + [AssistantMsg(Said(OrNoResponse(finalText)))];
        assert after.history == r.p.s.history + tail;
        ExtendsByAppend(r.p.s.history, tail, userText);
        ExtendsTrans(after.history, r.p.s.history, h1, userText);
      } else {
        assert after == r.p.s;
      }
    }
  }

  /** The turn's first entries: the rules open an empty history, and the
      user's text follows. */
  lemma IntakeAppendsUserText(s: Snapshot, userText: string, findEmail: string -> Option<string>)
    ensures var h := AfterIntake(s, userText, findEmail).history;
      h == (if s.history == [] then [SystemMsg(Rules)] else s.history) + [UserMsg(userText)] &&
      LastUser(h) == Some(userText)
  {
  }

  /** A found address is remembered, and moves only an idle session on. */
  lemma IntakeRecordsEmail(s: Snapshot, userText: string, findEmail: string -> Option<string>)
    ensures var s1 := AfterIntake(s, userText, findEmail);
      var found := findEmail(userText);
      s1.verified == s.verified && s1.proposed == s.proposed &&
      if found.Some? && found.value != "" then
        s1.email == JStr(found.value) && s1.phase == (if s.phase == Idle then CollectingEmail else s.phase)
      else s1.email == s.email && s1.phase == s.phase
  {
  }
}

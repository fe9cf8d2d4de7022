/** The booking agent's turn: the session's verification state machine, the
    guards in front of every proposed tool call, the calendar rewrites (the
    availability search and the event creation) and the history it keeps.

    The pure functions below define what one turn does to a snapshot of the
    session; the class `Session` holds the session's fields and updates them
    in place, and each of its methods is proved to do what the matching
    function says. The language model's proposal, its closing reply, the
    clock, the two token scanners and the backends are inputs. */
module Orchestrator {
  import opened Wrappers
  import opened Text
  import opened Json
  import opened Intent
  import opened Gateway

  /** The four tools the agent treats specially, by their namespaced names. */
  const SendOtp := EmailPrefix + "send_email_otp"
  const VerifyOtp := EmailPrefix + "verify_email_otp"
  const FindFreeSlot := CalendarPrefix + "find_free_slot"
  const CreateEvent := CalendarPrefix + "create_calendar_event"

  /** The search window around the desired start, in minutes (two hours either side). */
  const WindowSpan := 240

  const NeedCodeFirst := "I need to send you a verification code first. What is your email address?"
  const AskForEmail := "What email address should I send the verification code to?"
  const VerifyFirst := "Please verify your email first. What is your email address?"
  const NoSlotFound := "I couldn't find a free slot in that window. Would you like me to search a wider time range?"
  const NoResponse := "(no response)"

  datatype Phase = Idle | CollectingEmail | OtpSent | Verified

  /** What the assistant says: a fixed or proposed text, or the offer
      "I found a free slot from <start> to <end>. Do you want me to book it?" */
  datatype Utterance = Said(text: string) | SlotOffer(start: Json, end: Json)

  /** The system entries: the conversation rules, the request to resume the
      user's last request after verification, and the reminder to offer defaults. */
  datatype SystemNote = Rules | ResumeRequest(request: string) | OfferDefaults

  datatype ToolCall = ToolCall(id: string, name: string, arguments: map<string, Json>)

  datatype Message =
    | SystemMsg(note: SystemNote)
    | UserMsg(content: string)
    | AssistantMsg(reply: Utterance)
    | AssistantCalls(content: string, calls: seq<ToolCall>)
    | ToolMsg(callId: string, name: string, result: Json)

  /** A slot offered by the availability search and kept for the next booking. */
  datatype Slot = Slot(start: Json, end: Json)

  /** The session's fields. `proposed` holds `proposed_start_iso` and
      `proposed_end_iso`, which are always set and removed together. */
  datatype Snapshot = Snapshot(phase: Phase, email: Json, verified: bool, history: seq<Message>, proposed: Option<Slot>)

  const Initial := Snapshot(Idle, JNull, false, [], None)

  /** The first completion: its text ("" when it has none) and its tool calls. */
  datatype Proposal = Proposal(content: string, calls: seq<ToolCall>)

  /** The world around a turn: the current time in minutes, the email and
      clock token scanners, and the backends. */
  datatype Env = Env(now: int, findEmail: string -> Option<string>, scanClock: ClockScanner, backend: Backend)

  datatype TurnOutcome = Replied(reply: Utterance) | Raised(error: PyError)

  /** The state while the tool calls of a turn are worked through: the session,
      the tool messages collected so far and the requests sent so far. */
  datatype Progress = Progress(s: Snapshot, toolMsgs: seq<Message>, sent: seq<Request>)

  /** After one tool call: the progress, and the turn's outcome if the turn ends there. */
  datatype StepResult = StepResult(p: Progress, stop: Option<TurnOutcome>)

  datatype TurnResult = TurnResult(after: Snapshot, outcome: TurnOutcome, sent: seq<Request>)

  /** A timestamp in the agent's zone. */
  function IsoAt(t: int): Json {
    JTime(Stamp(t, Some(Local)))
  }

  /** The content of the most recent user entry, if there is one. */
  function LastUser(h: seq<Message>): Option<string>
    decreases |h|
  {
    if h == [] then None
    else if h[|h| - 1].UserMsg? then Some(h[|h| - 1].content)
    else LastUser(h[..|h| - 1])
  }

  /** `LastUser` finds the most recent user entry, and none only when the
      history has no user entry. */
  lemma {:induction false} LastUserIsMostRecent(h: seq<Message>)
    ensures LastUser(h).None? <==> forall i :: 0 <= i < |h| ==> !h[i].UserMsg?
    ensures LastUser(h).Some? ==> exists i :: 0 <= i < |h| && h[i] == UserMsg(LastUser(h).value) &&
                                    forall j :: i < j < |h| ==> !h[j].UserMsg?
    decreases |h|
  {
    if h != [] {
      var n := |h| - 1;
      if h[n].UserMsg? {
        assert h[n] == UserMsg(LastUser(h).value);
      } else {
        var prefix := h[..n];
        LastUserIsMostRecent(prefix);
        assert forall i :: 0 <= i < n ==> prefix[i] == h[i];
        if LastUser(h).Some? {
          var i :| 0 <= i < n && prefix[i] == UserMsg(LastUser(h).value) &&
                   forall j :: i < j < n ==> !prefix[j].UserMsg?;
          assert h[i] == UserMsg(LastUser(h).value);
        }
      }
    }
  }

  /** Whether the text asks about availability rather than a booking. */
  predicate WantsAvailability(text: string) {
    var l := Lower(text);
    Contains(l, "free") || Contains(l, "availability") || Contains(l, "available") ||
    Contains(l, "find slot") || Contains(l, "check slot")
  }

  /** The start of the turn: a found email address is remembered (and moves an
      idle session to collecting the email), the rules open an empty history,
      and the user's text is appended. */
  function AfterIntake(s: Snapshot, userText: string, findEmail: string -> Option<string>): Snapshot {
    var found := findEmail(userText);
    var s1 := if found.Some? && found.value != "" then
                s.(email := JStr(found.value), phase := if s.phase == Idle then CollectingEmail else s.phase)
              else s;
    s1.(history := (if s1.history == [] then [SystemMsg(Rules)] else s1.history) + [UserMsg(userText)])
  }

  /** A canned reply that ends the turn. */
  function Canned(p: Progress, text: string): StepResult {
    StepResult(p.(s := p.s.(history := p.s.history + [AssistantMsg(Said(text))])), Some(Replied(Said(text))))
  }

  function SentBy(call: Call): seq<Request> {
    if call.sent.Some? then [call.sent.value] else []
  }

  /** The state machine's reaction to an executed call. */
  function UpdateFsm(s: Snapshot, name: string, args: map<string, Json>, result: Json): Result<Snapshot, PyError> {
    if name == SendOtp then
      Success(s.(phase := OtpSent, email := if "email" in args then args["email"] else s.email))
    else if name == VerifyOtp then
      if !result.JObj? then Failure(AttributeError)
      else
        var ok := Truthy(Get(result.fields, "ok")) && Truthy(Get(result.fields, "verified"));
        var s1 := s.(verified := ok, phase := if ok then Verified else OtpSent);
        var last := LastUser(s1.history);
        if ok && last.Some? && last.value != "" then
          Success(s1.(history := s1.history + [SystemMsg(ResumeRequest(last.value)), SystemMsg(OfferDefaults)]))
        else Success(s1)
    else Success(s)
  }

  /** Sending a call to its backend, then updating the state machine and
      collecting the tool message. */
  function ExecuteStep(p: Progress, id: string, name: string, args: map<string, Json>, env: Env): StepResult {
    var call := CallTool(name, args, p.s.verified, env.backend);
    var q := p.(sent := p.sent + SentBy(call));
    match call.result
    case Failure(e) => StepResult(q, Some(Raised(e)))
    case Success(result) =>
      match UpdateFsm(q.s, name, args, result)
      case Failure(e) => StepResult(q, Some(Raised(e)))
      case Success(s1) => StepResult(q.(s := s1, toolMsgs := q.toolMsgs + [ToolMsg(id, name, result)]), None)
  }

  /** The arguments of the availability search. */
  function SearchQuery(duration: int, window: (int, int), pad: int): map<string, Json> {
    map["duration_minutes" := JNum(duration), "window_start_iso" := IsoAt(window.0),
        "window_end_iso" := IsoAt(window.1), "pad_minutes" := JNum(pad)]
  }

  /** The search's answer ends the turn: a slot with both ends is cached and
      offered, anything else is reported as no slot found. */
  function OfferSlot(p: Progress, result: Json): StepResult {
    var slot := if result.JObj? then result.fields else map[];
    var start, end := Get(slot, "start"), Get(slot, "end");
    if Truthy(start) && Truthy(end) then
      StepResult(p.(s := p.s.(proposed := Some(Slot(start, end)), history := p.s.history + [AssistantMsg(SlotOffer(start, end))])),
                 Some(Replied(SlotOffer(start, end))))
    else Canned(p, NoSlotFound)
  }

  /** The search's duration (60 minutes by default) and padding (none by
      default), read with `int()`. */
  function SearchSettings(args: map<string, Json>): Result<(int, int), PyError> {
    var duration :- ToInt(Or(Get(args, "duration_minutes"), JNum(DefaultDurationMin)));
    var pad :- ToInt(Or(Get(args, "pad_minutes"), JNum(0)));
    Success((duration, pad))
  }

  /** A calendar call turned into an availability search around the desired
      start (tomorrow at ten when there is none). */
  function SearchStep(p: Progress, args: map<string, Json>, desired: Option<int>, env: Env): StepResult {
    match SearchSettings(args)
    case Failure(e) => StepResult(p, Some(Raised(e)))
    case Success(settings) => SearchWith(p, settings.0, settings.1, desired, env)
  }

  function SearchWith(p: Progress, duration: int, pad: int, desired: Option<int>, env: Env): StepResult {
    var window := MakeWindowFor(desired.GetOr(TomorrowAtTen(env.now)), duration, WindowSpan);
    var call := CallTool(FindFreeSlot, SearchQuery(duration, window, pad), p.s.verified, env.backend);
    var q := p.(sent := p.sent + SentBy(call));
    match call.result
    case Failure(e) => StepResult(q, Some(Raised(e)))
    case Success(result) => OfferSlot(q, result)
  }

  /** What the event creation does to the slot cache, and its arguments. */
  datatype Prepared = Prepared(proposed: Option<Slot>, args: map<string, Json>)

  /** The event's times come from the cached slot, which is used up, or else
      from the desired start (tomorrow at ten when there is none) and the
      duration; the summary defaults to the title or "Appointment", and the
      title is dropped. */
  function PrepareCreate(proposed: Option<Slot>, args: map<string, Json>, desired: Option<int>, now: int): Result<Prepared, PyError> {
    var timed :-
      if proposed.Some? && Truthy(proposed.value.start) && Truthy(proposed.value.end) then
        Success(Prepared(None, args["start_iso" := proposed.value.start]["end_iso" := proposed.value.end]))
      else
        var t := desired.GetOr(TomorrowAtTen(now));
        var duration :- ToInt(Or(Get(args, "duration_minutes"), JNum(DefaultDurationMin)));
        Success(Prepared(proposed, args["start_iso" := IsoAt(t)]["end_iso" := IsoAt(t + duration)]));
    var a := timed.args;
    var summarized := if "summary" in a then a else a["summary" := Or(Get(a, "title"), JStr(DefaultSummary))];
    Success(Prepared(timed.proposed, summarized - {"title"}))
  }

  /** A calendar call of a verified session. */
  function CalendarStep(p: Progress, id: string, name: string, args: map<string, Json>, env: Env): StepResult {
    var text := LastUser(p.s.history).GetOr("");
    match ParseWhen(text, env.now, env.scanClock)
    case Failure(e) => StepResult(p, Some(Raised(e)))
    case Success(desired) =>
      if name == FindFreeSlot || WantsAvailability(text) then SearchStep(p, args, desired, env)
      else if name == CreateEvent then
        match PrepareCreate(p.s.proposed, args, desired, env.now)
        case Failure(e) => StepResult(p, Some(Raised(e)))
        case Success(prep) => ExecuteStep(p.(s := p.s.(proposed := prep.proposed)), id, name, prep.args, env)
      else ExecuteStep(p, id, name, args, env)
  }

  /** One proposed tool call: the three guards in order, the email filled in
      from the session, then the calendar rewrites or the plain execution. */
  function Step(p: Progress, tc: ToolCall, env: Env): StepResult {
    var name := tc.name;
    var missingEmail := !Truthy(Get(tc.arguments, "email"));
    if name == VerifyOtp && p.s.phase != OtpSent then Canned(p, NeedCodeFirst)
    else if name == SendOtp && missingEmail && !Truthy(p.s.email) then Canned(p, AskForEmail)
    else if StartsWith(name, CalendarPrefix) && !p.s.verified then Canned(p, VerifyFirst)
    else
      var args := if name == SendOtp && missingEmail then tc.arguments["email" := p.s.email] else tc.arguments;
      if StartsWith(name, CalendarPrefix) then CalendarStep(p, tc.id, name, args, env)
      else ExecuteStep(p, tc.id, name, args, env)
  }

  /** The tool calls in order, up to the first one that ends the turn. */
  function ProcessCalls(p: Progress, calls: seq<ToolCall>, env: Env): StepResult
    decreases |calls|
  {
    if calls == [] then StepResult(p, None)
    else
      var r := Step(p, calls[0], env);
      if r.stop.Some? then r else ProcessCalls(r.p, calls[1..], env)
  }

  function OrNoResponse(text: string): string {
    if text == "" then NoResponse else text
  }

  /** One turn. When every call went through, the assistant's call entry,
      the tool messages and the closing reply are appended. */
  function Turn(s: Snapshot, userText: string, proposal: Proposal, finalText: string, env: Env): TurnResult {
    var s1 := AfterIntake(s, userText, env.findEmail);
    if proposal.calls == [] then
      var text := OrNoResponse(proposal.content);
      TurnResult(s1.(history := s1.history + [AssistantMsg(Said(text))]), Replied(Said(text)), [])
    else
      var r := ProcessCalls(Progress(s1, [], []), proposal.calls, env);
      if r.stop.Some? then TurnResult(r.p.s, r.stop.value, r.p.sent)
      else
        var text := OrNoResponse(finalText);
        var h := r.p.s.history + [AssistantCalls(proposal.content, proposal.calls)] + r.p.toolMsgs + [AssistantMsg(Said(text))];
        TurnResult(r.p.s.(history := h), Replied(Said(text)), r.p.sent)
  }

  /** The agent's session, updated in place turn by turn. */
  class Session {
    var phase: Phase
    var email: Json
    var verified: bool
    var history: seq<Message>
    var proposed: Option<Slot>

    function Contents(): Snapshot
      reads this
    {
      Snapshot(phase, email, verified, history, proposed)
    }

    constructor ()
      ensures Contents() == Initial
    {
      phase, email, verified, history, proposed := Idle, JNull, false, [], None;
    }

    /** Scans the history backwards for the most recent user entry. */
    method LastUserContent() returns (r: Option<string>)
      ensures r == LastUser(history)
    {
      var i := |history|;
      assert history[..i] == history;
      while i > 0
        invariant 0 <= i <= |history|
        invariant LastUser(history[..i]) == LastUser(history)
        decreases i
      {
        assert history[..i][..i - 1] == history[..i - 1];
        if history[i - 1].UserMsg? {
          return Some(history[i - 1].content);
        }
        i := i - 1;
      }
      assert history[..i] == [];
      r := None;
    }

    /** A canned or proposed reply appended to the history. */
    method Say(text: string)
      modifies this
      ensures Contents() == old(Contents()).(history := old(history) + [AssistantMsg(Said(text))])
    {
      history := history + [AssistantMsg(Said(text))];
    }

    /** The start of `run_turn`: remember a found email address, open the
        history with the rules when it is empty, append the user's text. */
    method RecordUserText(userText: string, findEmail: string -> Option<string>)
      modifies this
      ensures Contents() == AfterIntake(old(Contents()), userText, findEmail)
    {
      var found := findEmail(userText);
      if found.Some? && found.value != "" {
        email := JStr(found.value);
        if phase == Idle {
          phase := CollectingEmail;
        }
      }
      if history == [] {
        history := [SystemMsg(Rules)];
      }
      history := history + [UserMsg(userText)];
    }

    /** `call_tool`, then the state machine update and the tool message. */
    method Execute(id: string, name: string, args: map<string, Json>, env: Env, toolMsgs: seq<Message>, sent: seq<Request>)
      returns (stop: Option<TurnOutcome>, toolMsgs': seq<Message>, sent': seq<Request>)
      modifies this
      ensures StepResult(Progress(Contents(), toolMsgs', sent'), stop) == ExecuteStep(Progress(old(Contents()), toolMsgs, sent), id, name, args, env)
    {
      toolMsgs', sent' := toolMsgs, sent;
      var call := CallTool(name, args, verified, env.backend);
      sent' := sent' + SentBy(call);
      if call.result.Failure? {
        return Some(Raised(call.result.error)), toolMsgs', sent';
      }
      var result := call.result.value;
      if name == SendOtp {
        phase := OtpSent;
        if "email" in args {
          email := args["email"];
        }
      } else if name == VerifyOtp {
        if !result.JObj? {
          return Some(Raised(AttributeError)), toolMsgs', sent';
        }
        var ok := Truthy(Get(result.fields, "ok")) && Truthy(Get(result.fields, "verified"));
        verified := ok;
        phase := if ok then Verified else OtpSent;
        if ok {
          var last := LastUserContent();
          if last.Some? && last.value != "" {
            history := history + [SystemMsg(ResumeRequest(last.value)), SystemMsg(OfferDefaults)];
          }
        }
      }
      toolMsgs' := toolMsgs' + [ToolMsg(id, name, result)];
      stop := None;
    }

    /** The availability rewrite: the search arguments built from the call's
        duration and padding, sent to `find_free_slot`, and the answer offered. */
    method Search(args: map<string, Json>, desired: Option<int>, env: Env, toolMsgs: seq<Message>, sent: seq<Request>)
      returns (stop: Option<TurnOutcome>, sent': seq<Request>)
      modifies this
      ensures StepResult(Progress(Contents(), toolMsgs, sent'), stop) == SearchStep(Progress(old(Contents()), toolMsgs, sent), args, desired, env)
    {
      sent' := sent;
      var duration := ToInt(Or(Get(args, "duration_minutes"), JNum(DefaultDurationMin)));
      if duration.Failure? {
        return Some(Raised(duration.error)), sent';
      }
      var target := if desired.Some? then desired.value else TomorrowAtTen(env.now);
      var window := MakeWindowFor(target, duration.value, WindowSpan);
      var pad := ToInt(Or(Get(args, "pad_minutes"), JNum(0)));
      if pad.Failure? {
        return Some(Raised(pad.error)), sent';
      }
      var call := CallTool(FindFreeSlot, SearchQuery(duration.value, window, pad.value), verified, env.backend);
      sent' := sent' + SentBy(call);
      if call.result.Failure? {
        return Some(Raised(call.result.error)), sent';
      }
      stop := Offer(call.result.value);
    }

    /** The slot found is cached and offered; no slot ends the turn with the
        request to widen the window. */
    method Offer(result: Json) returns (stop: Option<TurnOutcome>)
      modifies this
      ensures forall toolMsgs, sent :: StepResult(Progress(Contents(), toolMsgs, sent), stop) == OfferSlot(Progress(old(Contents()), toolMsgs, sent), result)
    {
      var slot := if result.JObj? then result.fields else map[];
      var start, end := Get(slot, "start"), Get(slot, "end");
      if Truthy(start) && Truthy(end) {
        proposed := Some(Slot(start, end));
        history := history + [AssistantMsg(SlotOffer(start, end))];
        stop := Some(Replied(SlotOffer(start, end)));
      } else {
        Say(NoSlotFound);
        stop := Some(Replied(Said(NoSlotFound)));
      }
    }

    /** The event creation's arguments: times from the cached slot, which is
        removed, or from the desired start and duration; summary defaulted,
        title dropped. Only the slot cache changes. */
    method PrepareCreateArgs(args: map<string, Json>, desired: Option<int>, now: int) returns (r: Result<map<string, Json>, PyError>)
      modifies this
      ensures PrepareCreate(old(proposed), args, desired, now).Success? <==> r.Success?
      ensures r.Success? ==> PrepareCreate(old(proposed), args, desired, now) == Success(Prepared(proposed, r.value))
      ensures r.Failure? ==> PrepareCreate(old(proposed), args, desired, now).error == r.error && proposed == old(proposed)
      ensures phase == old(phase) && email == old(email) && verified == old(verified) && history == old(history)
    {
      var a := args;
      if proposed.Some? && Truthy(proposed.value.start) && Truthy(proposed.value.end) {
        a := a["start_iso" := proposed.value.start]["end_iso" := proposed.value.end];
        proposed := None;
      } else {
        var t := if desired.Some? then desired.value else TomorrowAtTen(now);
        var duration := ToInt(Or(Get(a, "duration_minutes"), JNum(DefaultDurationMin)));
        if duration.Failure? {
          return Failure(duration.error);
        }
        a := a["start_iso" := IsoAt(t)]["end_iso" := IsoAt(t + duration.value)];
      }
      if "summary" !in a {
        a := a["summary" := Or(Get(a, "title"), JStr(DefaultSummary))];
      }
      r := Success(a - {"title"});
    }

    /** One proposed tool call: the guards, the email fill-in, the calendar
        rewrites, then the execution. */
    method HandleCall(tc: ToolCall, env: Env, toolMsgs: seq<Message>, sent: seq<Request>)
      returns (stop: Option<TurnOutcome>, toolMsgs': seq<Message>, sent': seq<Request>)
      modifies this
      ensures StepResult(Progress(Contents(), toolMsgs', sent'), stop) == Step(Progress(old(Contents()), toolMsgs, sent), tc, env)
    {
      toolMsgs', sent' := toolMsgs, sent;
      var name := tc.name;
      var args := tc.arguments;
      if name == VerifyOtp && phase != OtpSent {
        Say(NeedCodeFirst);
        return Some(Replied(Said(NeedCodeFirst))), toolMsgs', sent';
      }
      if name == SendOtp && !Truthy(Get(args, "email")) {
        if Truthy(email) {
          args := args["email" := email];
        } else {
          Say(AskForEmail);
          return Some(Replied(Said(AskForEmail))), toolMsgs', sent';
        }
      }
      if StartsWith(name, CalendarPrefix) && !verified {
        Say(VerifyFirst);
        return Some(Replied(Said(VerifyFirst))), toolMsgs', sent';
      }
      if StartsWith(name, CalendarPrefix) {
        var last := LastUserContent();
        var text := if last.Some? then last.value else "";
        var desired := ParseWhen(text, env.now, env.scanClock);
        if desired.Failure? {
          return Some(Raised(desired.error)), toolMsgs', sent';
        }
        if name == FindFreeSlot || WantsAvailability(text) {
          stop, sent' := Search(args, desired.value, env, toolMsgs', sent');
          return;
        }
        if name == CreateEvent {
          var prepared := PrepareCreateArgs(args, desired.value, env.now);
          if prepared.Failure? {
            return Some(Raised(prepared.error)), toolMsgs', sent';
          }
          args := prepared.value;
        }
      }
      stop, toolMsgs', sent' := Execute(tc.id, name, args, env, toolMsgs', sent');
    }

    /** `run_turn`: the user's text, the model's proposal and its closing
        reply in; the reply or the raised error out, with the requests sent. */
    method RunTurn(userText: string, proposal: Proposal, finalText: string, env: Env)
      returns (outcome: TurnOutcome, sent: seq<Request>)
      modifies this
      ensures TurnResult(Contents(), outcome, sent) == Turn(old(Contents()), userText, proposal, finalText, env)
    {
      RecordUserText(userText, env.findEmail);
      sent := [];
      if proposal.calls == [] {
        var text := OrNoResponse(proposal.content);
        Say(text);
        return Replied(Said(text)), sent;
      }
      var toolMsgs: seq<Message> := [];
      ghost var start := Progress(Contents(), toolMsgs, sent);
      for i := 0 to |proposal.calls|
        invariant ProcessCalls(Progress(Contents(), toolMsgs, sent), proposal.calls[i..], env) == ProcessCalls(start, proposal.calls, env)
      {
        var stop;
        stop, toolMsgs, sent := HandleCall(proposal.calls[i], env, toolMsgs, sent);
        if stop.Some? {
          return stop.value, sent;
        }
        assert proposal.calls[i..][1..] == proposal.calls[i + 1..];
      }
      var text := OrNoResponse(finalText);
      history := history + [AssistantCalls(proposal.content, proposal.calls)] + toolMsgs + [AssistantMsg(Said(text))];
      outcome := Replied(Said(text));
    }
  }
}

/** The agent's tool gateway: routing a namespaced tool call to its backend
    (`call_tool`) and turning a backend's tool catalogue into the proposer's
    function schemas (`list_tools`). The HTTP exchange itself is an input. */
module Gateway {
  import opened Wrappers
  import opened Text
  import opened Json

  const EmailPrefix := "email."
  const CalendarPrefix := "calendar."

  datatype Server = EmailServer | CalendarServer

  /** What `call_tool` posts: the server, the payload's tool name, the
      arguments, and whether the `X-Verified: true` header is attached. */
  datatype Request = Request(server: Server, tool: string, arguments: map<string, Json>, xVerified: bool)

  /** What comes back: an HTTP status with its decoded JSON body, or no answer at all. */
  datatype Reply = Response(status: int, body: Json) | Unreachable

  /** The backends, as seen from the agent: the reply each request gets. */
  type Backend = Request -> Reply

  function IndexOf(s: string, c: char): (r: Option<nat>)
    ensures r.Some? ==> r.value < |s| && s[r.value] == c && forall j :: 0 <= j < r.value ==> s[j] != c
    ensures r.None? ==> forall j :: 0 <= j < |s| ==> s[j] != c
  {
    if s == [] then None
    else if s[0] == c then Some(0)
    else match IndexOf(s[1..], c)
      case None => None
      case Some(i) => Some(i + 1)
  }

  /** `name.split(".", 1)[1]`: what follows the first dot; `IndexError` without one. */
  function AfterFirstDot(name: string): Result<string, PyError> {
    match IndexOf(name, '.')
    case None => Failure(IndexError)
    case Some(i) => Success(name[i + 1..])
  }

  /** The routing half of `call_tool`: `email.*` names go unchanged to the
      email server, every other name goes to the calendar server with its
      namespace cut off, and the header is attached to `calendar.*` calls of a
      verified session. */
  function Route(name: string, args: map<string, Json>, verified: bool): Result<Request, PyError> {
    var toEmail := StartsWith(name, EmailPrefix);
    var tool :- if toEmail then Success(name) else AfterFirstDot(name);
    Success(Request(if toEmail then EmailServer else CalendarServer, tool, args,
                    StartsWith(name, CalendarPrefix) && verified))
  }

  /** The answer half of `call_tool`: `raise_for_status`, then `data.get("result", data)`. */
  function Answer(reply: Reply): Result<Json, PyError> {
    match reply
    case Unreachable => Failure(ConnectionError)
    case Response(status, body) =>
      if 400 <= status < 600 then Failure(HttpError(status))
      else if !body.JObj? then Failure(AttributeError)
      else Success(if "result" in body.fields then body.fields["result"] else body)
  }

  /** One gateway call: the request put on the network, if routing got that
      far, and what the call returns or raises. */
  datatype Call = Call(sent: Option<Request>, result: Result<Json, PyError>)

  function CallTool(name: string, args: map<string, Json>, verified: bool, backend: Backend): Call {
    match Route(name, args, verified)
    case Failure(e) => Call(None, Failure(e))
    case Success(req) => Call(Some(req), Answer(backend(req)))
  }

  // ---------------------------------------------------------------------
  // Properties of the routing

  /** The header is attached exactly to `calendar.*` calls of a verified session. */
  lemma RouteHeader(name: string, args: map<string, Json>, verified: bool)
    requires Route(name, args, verified).Success?
    ensures Route(name, args, verified).value.xVerified <==> StartsWith(name, CalendarPrefix) && verified
  {
  }

  /** `email.*` calls reach the email server under their full name, without the header. */
  lemma RouteEmail(name: string, args: map<string, Json>, verified: bool)
    requires StartsWith(name, EmailPrefix)
    ensures Route(name, args, verified) == Success(Request(EmailServer, name, args, false))
  {
    assert name[0] == 'e';
  }

  /** `calendar.<tool>` reaches the calendar server as `<tool>`. */
  lemma RouteCalendar(tool: string, args: map<string, Json>, verified: bool)
    ensures Route(CalendarPrefix + tool, args, verified) == Success(Request(CalendarServer, tool, args, verified))
  {
    var name := CalendarPrefix + tool;
    assert name[..|EmailPrefix|] != EmailPrefix by { assert name[0] == 'c'; }
    assert IndexOf(name, '.') == Some(8) by {
      assert name[8] == '.';
      assert forall j :: 0 <= j < 8 ==> name[j] == CalendarPrefix[j];
    }
    assert name[9..] == tool;
  }

  /** A name without a dot is not sent anywhere: the split raises `IndexError`. */
  lemma RouteNeedsDot(name: string, args: map<string, Json>, verified: bool)
    requires forall j :: 0 <= j < |name| ==> name[j] != '.'
    ensures Route(name, args, verified) == Failure(IndexError)
  {
    if |name| >= |EmailPrefix| {
      assert name[..|EmailPrefix|][5] == name[5] != '.';
    }
  }

  /** A name in any other namespace is still sent to the calendar server, and
      never with the header. */
  lemma RouteOtherNamespace(name: string, args: map<string, Json>, verified: bool)
    requires !StartsWith(name, EmailPrefix) && !StartsWith(name, CalendarPrefix)
    requires Route(name, args, verified).Success?
    ensures Route(name, args, verified).value.server == CalendarServer
    ensures !Route(name, args, verified).value.xVerified
  {
  }

  /** Both servers wrap a handler's value `r` as `{"ok": true, "result": r}`,
      which the gateway unwraps back to `r` for any status below 400; their
      error statuses (400 bad arguments, 404 unknown tool, 500 failure) are
      raised, whatever the body. */
  lemma AnswerUnwrapsEnvelope(status: int, r: Json, body: Json)
    ensures status < 400 ==>
      Answer(Response(status, JObj(map["ok" := JBool(true), "result" := r]))) == Success(r)
    ensures 400 <= status < 600 ==> Answer(Response(status, body)) == Failure(HttpError(status))
    ensures Answer(Unreachable) == Failure(ConnectionError)
  {
  }

  // ---------------------------------------------------------------------
  // list_tools

  /** One entry of a backend's `/tools` answer: its name, its description if
      any, and its input fields with their type strings, in order. */
  datatype ToolDef = ToolDef(name: string, description: Option<string>, input: seq<(string, string)>)

  /** The parts of one proposer function schema that depend on the entry. The
      rest is fixed: type "function", parameters of type "object" that allow
      additional properties. */
  datatype FunctionSchema = FunctionSchema(name: string, description: string, properties: map<string, string>, required: seq<string>)

  /** The name qualified by the namespace unless it already is. */
  function QualifiedName(ns: string, name: string): string {
    if StartsWith(name, ns + ".") then name else ns + "." + name
  }

  predicate IsOptional(typeName: string) {
    EndsWith(typeName, "?")
  }

  /** The type string without its trailing `?`. */
  function BaseType(typeName: string): string {
    if IsOptional(typeName) then typeName[..|typeName| - 1] else typeName
  }

  /** The JSON schema type of a base type; unknown types become "string". */
  function JsonType(base: string): string {
    if base == "int" then "integer"
    else if base == "bool" then "boolean"
    else "string"
  }

  /** The properties map after the fields of `input`, in order (a later
      field of the same name overwrites). */
  function Properties(input: seq<(string, string)>): map<string, string>
    decreases |input|
  {
    if input == [] then map[]
    else
      var last := input[|input| - 1];
      Properties(input[..|input| - 1])[last.0 := JsonType(BaseType(last.1))]
  }

  /** The names of the fields not marked optional, in order. */
  function Required(input: seq<(string, string)>): seq<string>
    decreases |input|
  {
    if input == [] then []
    else
      var last := input[|input| - 1];
      Required(input[..|input| - 1]) + (if IsOptional(last.1) then [] else [last.0])
  }

  function Schema(t: ToolDef, ns: string): FunctionSchema {
    FunctionSchema(QualifiedName(ns, t.name), t.description.GetOr(""), Properties(t.input), Required(t.input))
  }

  /** The conversion of one input schema, field by field. */
  method ConvertInput(input: seq<(string, string)>) returns (props: map<string, string>, required: seq<string>)
    ensures props == Properties(input)
    ensures required == Required(input)
  {
    props, required := map[], [];
    for k := 0 to |input|
      invariant props == Properties(input[..k])
      invariant required == Required(input[..k])
    {
      assert input[..k + 1][..k] == input[..k];
      var (key, v) := input[k];
      var isOptional := EndsWith(v, "?");
      var baseType := if isOptional then v[..|v| - 1] else v;
      props := props[key := JsonType(baseType)];
      if !isOptional {
        required := required + [key];
      }
    }
    assert input[..|input|] == input;
  }

  /** `list_tools` after the HTTP fetch: one schema per tool entry, in order. */
  method ListTools(tools: seq<ToolDef>, ns: string) returns (out: seq<FunctionSchema>)
    ensures |out| == |tools|
    ensures forall i :: 0 <= i < |tools| ==> out[i] == Schema(tools[i], ns)
  {
    out := [];
    for i := 0 to |tools|
      invariant |out| == i
      invariant forall j :: 0 <= j < i ==> out[j] == Schema(tools[j], ns)
    {
      var t := tools[i];
      var name := t.name;
      if !StartsWith(name, ns + ".") {
        name := ns + "." + name;
      }
      var props, required := ConvertInput(t.input);
      out := out + [FunctionSchema(name, t.description.GetOr(""), props, required)];
    }
  }

  // ---------------------------------------------------------------------
  // Properties of the schema conversion

  /** Every schema name is in the namespace; a name already in it is kept. */
  lemma QualifiedNameInNamespace(ns: string, name: string)
    ensures StartsWith(QualifiedName(ns, name), ns + ".")
    ensures StartsWith(name, ns + ".") ==> QualifiedName(ns, name) == name
    ensures QualifiedName(ns, QualifiedName(ns, name)) == QualifiedName(ns, name)
  {
    var p := ns + ".";
    if !StartsWith(name, p) {
      assert (p + name)[..|p|] == p;
    }
  }

  /** The properties are exactly the input fields. */
  lemma {:induction false} PropertiesAreFields(input: seq<(string, string)>, key: string)
    ensures key in Properties(input) <==> exists i :: 0 <= i < |input| && input[i].0 == key
    decreases |input|
  {
    if input != [] {
      var prefix := input[..|input| - 1];
      PropertiesAreFields(prefix, key);
      if exists i :: 0 <= i < |prefix| && prefix[i].0 == key {
        var i :| 0 <= i < |prefix| && prefix[i].0 == key;
        assert input[i] == prefix[i];
      }
      if exists i :: 0 <= i < |input| && input[i].0 == key {
        var i :| 0 <= i < |input| && input[i].0 == key;
        if i < |prefix| { assert prefix[i] == input[i]; }
      }
    }
  }

  /** With distinct field names (as in a JSON object), each property carries
      its field's type: "integer" for int, "boolean" for bool, else "string". */
  lemma {:induction false} PropertyTypes(input: seq<(string, string)>, i: nat)
    requires i < |input|
    requires forall a, b :: 0 <= a < b < |input| ==> input[a].0 != input[b].0
    ensures input[i].0 in Properties(input)
    ensures Properties(input)[input[i].0] == JsonType(BaseType(input[i].1))
    decreases |input|
  {
    var prefix := input[..|input| - 1];
    if i < |prefix| {
      assert prefix[i] == input[i];
      PropertyTypes(prefix, i);
      assert input[i].0 != input[|input| - 1].0;
    }
  }

  /** A field is required exactly when its type is not marked optional. */
  lemma {:induction false} RequiredAreMandatoryFields(input: seq<(string, string)>, key: string)
    ensures key in Required(input) <==> exists i :: 0 <= i < |input| && input[i].0 == key && !IsOptional(input[i].1)
    decreases |input|
  {
    if input != [] {
      var prefix, last := input[..|input| - 1], input[|input| - 1];
      var tail := if IsOptional(last.1) then [] else [last.0];
      assert Required(input) == Required(prefix) + tail;
      assert key in Required(input) <==> key in Required(prefix) || key in tail;
      RequiredAreMandatoryFields(prefix, key);
      if exists i :: 0 <= i < |prefix| && prefix[i].0 == key && !IsOptional(prefix[i].1) {
        var i :| 0 <= i < |prefix| && prefix[i].0 == key && !IsOptional(prefix[i].1);
        assert input[i] == prefix[i];
      }
      if exists i :: 0 <= i < |input| && input[i].0 == key && !IsOptional(input[i].1) {
        var i :| 0 <= i < |input| && input[i].0 == key && !IsOptional(input[i].1);
        if i < |prefix| { assert prefix[i] == input[i]; }
      }
    }
  }

  /** The email server's `send_email_otp` entry: email required, locale optional. */
  lemma SendEmailOtpSchema()
    ensures var s := Schema(ToolDef("email.send_email_otp", Some("Send a verification code to the user's email."),
                                    [("email", "string"), ("locale", "string?")]), "email");
      s.name == "email.send_email_otp" &&
      s.properties == map["email" := "string", "locale" := "string"] &&
      s.required == ["email"]
  {
    var input := [("email", "string"), ("locale", "string?")];
    var first := input[..1];
    assert first == [("email", "string")] && first[..0] == [];
    assert !IsOptional("string") by { assert "string"[5] != '?'; }
    assert IsOptional("string?") && BaseType("string?") == "string";
    assert Properties(first) == map["email" := "string"];
    assert Required(first) == ["email"];
    assert Properties(input) == Properties(first)["locale" := "string"];
    assert Required(input) == Required(first);
    QualifiedNameInNamespace("email", "email.send_email_otp");
    assert StartsWith("email.send_email_otp", "email.");
  }
}

/**
 * The backend's `trigger-action` handler: it turns one incoming trigger into an
 * HTTP request (defaults, headers, authentication, body), performs it, and sends
 * `log`, `error` and `action-response` messages describing what happened.
 *
 * `JSON.parse`, `JSON.stringify`, the clock and `fetch` (with the reading of the
 * response text) are fields of a `Host` value; `btoa` is `Base64.Btoa`.
 */
module Trigger {
  import opened Wrappers
  import opened Js
  import opened Base64
  import opened Boundary

  const DefaultUrl := "https://httpbin.org/post"
  const MissingButtonId := "Missing buttonId in trigger action data"
  const JsonContentType := "application/json"

  /** What a `throw` inside the handler's `try` block carries. */
  datatype Thrown = ErrorObject(message: string) | NonErrorValue

  /** The message of the `InvalidCharacterError` that `btoa` throws. */
  const InvalidCharacter := "Invalid character"
  /** The message of the `TypeError` raised by calling `trim` on a non-string payload. */
  const TrimNotAFunction := "customPayload.trim is not a function"

  /** `error instanceof Error ? error.message : 'Unknown error'` */
  function ErrorText(e: Thrown): string {
    match e
    case ErrorObject(m) => m
    case NonErrorValue => "Unknown error"
  }

  /** The options handed to `fetch`. */
  datatype Request = Request(httpMethod: string, headers: map<string, string>, body: Option<string>)

  /** `fetch` followed by `response.text()`: a response, or the exception either of them raised. */
  datatype FetchOutcome =
    | Responded(status: int, statusText: string, text: string, ok: bool)
    | Rejected(error: Thrown)

  /** The calls the handler makes into code outside the plugin. */
  datatype Host = Host(
    parseHeaders: string -> Option<map<string, string>>, // JSON.parse; None when it throws
    stringify: JsValue -> string,                        // JSON.stringify
    now: string,                                         // new Date().toISOString()
    fetch: (string, Request) -> FetchOutcome)

  /** The trigger's fields after the handler's `||` defaults. */
  datatype TriggerConfig = TriggerConfig(
    buttonId: JsValue,
    url: JsValue,
    labelText: string,
    httpMethod: JsValue,
    authType: JsValue,
    authToken: JsValue,
    customPayload: JsValue,
    customHeaders: JsValue)

  /** `data.payload || data`: the trigger may arrive wrapped in a message envelope or bare. */
  function Unwrap(data: JsValue): JsValue {
    Or(Get(data, "payload"), data)
  }

  /** The handler's defaults: every field that is missing or falsy is replaced by its default. */
  function ReadConfig(p: JsValue): (c: TriggerConfig)
    ensures c.buttonId == Get(p, "buttonId")
    ensures c.url == (if Truthy(Get(p, "url")) then Get(p, "url") else Str(DefaultUrl))
    ensures c.labelText == if Truthy(Get(p, "label")) then ToStr(Get(p, "label"))
                       else "Action " + ToStr(Get(p, "buttonId"))
    ensures c.httpMethod == (if Truthy(Get(p, "method")) then Get(p, "method") else Str("POST"))
    ensures c.authType == (if Truthy(Get(p, "authType")) then Get(p, "authType") else Str("none"))
    ensures c.authToken == (if Truthy(Get(p, "authToken")) then Get(p, "authToken") else Str(""))
    ensures c.customPayload == (if Truthy(Get(p, "customPayload")) then Get(p, "customPayload") else Str(""))
    ensures c.customHeaders == (if Truthy(Get(p, "customHeaders")) then Get(p, "customHeaders") else Str(""))
  {
    var buttonId := Get(p, "buttonId");
    TriggerConfig(
      buttonId,
      Or(Get(p, "url"), Str(DefaultUrl)),
      ToStr(Or(Get(p, "label"), Str("Action " + ToStr(buttonId)))),
      Or(Get(p, "method"), Str("POST")),
      Or(Get(p, "authType"), Str("none")),
      Or(Get(p, "authToken"), Str("")),
      Or(Get(p, "customPayload"), Str("")),
      Or(Get(p, "customHeaders"), Str("")))
  }

  /** A trigger is accepted when the (unwrapped) `buttonId` is truthy. */
  predicate Accepted(data: JsValue) {
    !Nullish(data) && Truthy(ReadConfig(Unwrap(data)).buttonId)
  }

  // ---------------------------------------------------------------- headers

  /** The entries of the custom-headers JSON; nothing when it is empty or does not parse. */
  function CustomHeaders(customHeaders: JsValue, host: Host): map<string, string> {
    if Truthy(customHeaders) then
      match host.parseHeaders(ToStr(customHeaders))
      case Some(m) => m
      case None => map[]
    else map[]
  }

  /** `if (!headers['Content-Type']) headers['Content-Type'] = 'application/json'` */
  function WithContentType(h: map<string, string>): (r: map<string, string>)
    ensures "Content-Type" in r && r["Content-Type"] != ""
    ensures "Content-Type" in h && h["Content-Type"] != "" ==> r == h
    ensures !("Content-Type" in h && h["Content-Type"] != "") ==> r == h["Content-Type" := JsonContentType]
  {
    if "Content-Type" in h && h["Content-Type"] != "" then h else h["Content-Type" := JsonContentType]
  }

  /**
   * The `Authorization` value the handler sets, if any; a `Failure` when `btoa`
   * throws. Basic authentication encodes the token alone, not `user:password`.
   */
  function Authorization(authType: JsValue, authToken: JsValue): (r: Result<Option<string>, Thrown>)
    ensures r.Failure? <==> authType == Str("basic") && Truthy(authToken) && !IsLatin1(ToStr(authToken))
    ensures r == Success(None) <==>
      !(authType == Str("bearer") && Truthy(authToken)) && !(authType == Str("basic") && Truthy(authToken))
  {
    if authType == Str("bearer") && Truthy(authToken) then
      Success(Some("Bearer " + ToStr(authToken)))
    else if authType == Str("basic") && Truthy(authToken) then
      match Btoa(ToStr(authToken))
      case None => Failure(ErrorObject(InvalidCharacter))
      case Some(encoded) => Success(Some("Basic " + encoded))
    else Success(None)
  }

  /** The headers, built in the handler's order: custom JSON, Content-Type default, Authorization. */
  function BuildHeaders(c: TriggerConfig, host: Host): (r: Result<map<string, string>, Thrown>)
    ensures r.Failure? <==> Authorization(c.authType, c.authToken).Failure?
    ensures r.Success? ==> "Content-Type" in r.value && r.value["Content-Type"] != ""
  {
    var base := WithContentType(CustomHeaders(c.customHeaders, host));
    match Authorization(c.authType, c.authToken)
    case Failure(e) => Failure(e)
    case Success(None) => Success(base)
    case Success(Some(a)) => Success(base["Authorization" := a])
  }

  // ------------------------------------------------------------------- body

  /** The object whose JSON is sent when no custom payload is configured. */
  function DefaultBody(labelText: string, buttonId: JsValue, now: string): (v: JsValue)
    ensures Get(v, "buttonId") == buttonId
    ensures Get(v, "message") == Str(labelText + " triggered")
    ensures Get(v, "timestamp") == Str(now)
  {
    Obj(map["message" := Str(labelText + " triggered"), "buttonId" := buttonId, "timestamp" := Str(now)])
  }

  predicate SendsBody(httpMethod: JsValue) {
    httpMethod != Str("GET") && httpMethod != Str("HEAD")
  }

  /** The request body; a `Failure` when a non-string payload has no `trim` to call. */
  function ResolveBody(c: TriggerConfig, host: Host): (r: Result<Option<string>, Thrown>)
    ensures r.Failure? <==> SendsBody(c.httpMethod) && Truthy(c.customPayload) && !c.customPayload.Str?
    ensures r.Success? ==> (r.value.Some? <==> SendsBody(c.httpMethod))
  {
    if !SendsBody(c.httpMethod) then Success(None)
    else if Truthy(c.customPayload) && !c.customPayload.Str? then Failure(ErrorObject(TrimNotAFunction))
    else if Truthy(c.customPayload) && Trim(c.customPayload.s) != "" then Success(Some(c.customPayload.s))
    else Success(Some(host.stringify(DefaultBody(c.labelText, c.buttonId, host.now))))
  }

  /** The request descriptor, or the exception thrown while building it. */
  function Prepare(c: TriggerConfig, host: Host): (r: Result<Request, Thrown>)
    ensures r.Success? <==> BuildHeaders(c, host).Success? && ResolveBody(c, host).Success?
    ensures BuildHeaders(c, host).Failure? ==> r == Failure(BuildHeaders(c, host).error)
    ensures r.Success? ==> r.value.headers == BuildHeaders(c, host).value && r.value.body == ResolveBody(c, host).value
  {
    match BuildHeaders(c, host)
    case Failure(e) => Failure(e)
    case Success(h) =>
      match ResolveBody(c, host)
      case Failure(e) => Failure(e)
      case Success(b) => Success(Request(ToStr(c.httpMethod), h, b))
  }

  // ---------------------------------------------------------------- effects

  /** The `catch` block: an error line, then an action-response with status 0. */
  function FailureMessages(buttonId: JsValue, e: Thrown): (r: seq<Message>)
    ensures |r| == 2 && r[0].Error? && r[1].ActionResponseMsg?
    ensures r[1].outcome.buttonId == buttonId && r[1].outcome.status == 0 && !r[1].outcome.success
  {
    [Error("Failed to execute action: " + ErrorText(e)),
     ActionResponseMsg(ActionResponse(buttonId, 0, "Error", ErrorText(e), false))]
  }

  /** What the handler sends once the request is built: dispatch, then success or failure report. */
  function DispatchMessages(c: TriggerConfig, req: Request, host: Host): (r: seq<Message>)
    ensures |r| == 3 && r[0] == Log("Triggering: " + c.labelText)
    ensures host.fetch(ToStr(c.url), req).Responded? ==> r[1].ActionResponseMsg? && r[2].Log?
    ensures host.fetch(ToStr(c.url), req).Rejected? ==> r[1].Error? && r[2].ActionResponseMsg?
  {
    [Log("Triggering: " + c.labelText)] +
    match host.fetch(ToStr(c.url), req)
    case Responded(status, statusText, text, ok) =>
      [ActionResponseMsg(ActionResponse(c.buttonId, status, statusText, text, ok)),
       Log(c.labelText + " completed - " + IntToDecimal(status))]
    case Rejected(e) => FailureMessages(c.buttonId, e)
  }

  /** Every message the handler sends for one incoming `trigger-action`, in order. */
  function TriggerEffects(data: JsValue, host: Host): (r: seq<Message>)
    ensures Nullish(data) ==> r == []
    ensures Accepted(data) <==> |r| >= 2
    ensures Accepted(data) ==> r[|r| - 2].ActionResponseMsg? || r[|r| - 1].ActionResponseMsg?
  {
    if Nullish(data) then []   // `data.payload` throws before anything is sent
    else
      var c := ReadConfig(Unwrap(data));
      if !Truthy(c.buttonId) then [Error(MissingButtonId)]
      else match Prepare(c, host)
        case Failure(e) => FailureMessages(c.buttonId, e)
        case Success(req) => DispatchMessages(c, req, host)
  }

  // ------------------------------------------------------------ properties

  /** A trigger without a truthy `buttonId` (missing, `0`, `''`, `false`, `null`) yields one error and nothing else. */
  lemma RejectedTrigger(data: JsValue, host: Host)
    requires !Nullish(data) && !Accepted(data)
    ensures TriggerEffects(data, host) == [Error(MissingButtonId)]
    ensures ResponseCount(TriggerEffects(data, host)) == 0
  {
    var s := TriggerEffects(data, host);
    assert s[1..] == [];
  }

  /** A `buttonId` of 0 is rejected, although 0 is a number. */
  lemma ZeroButtonIdRejected(host: Host)
    ensures TriggerEffects(Obj(map["buttonId" := Num(0)]), host) == [Error(MissingButtonId)]
  {
    var data := Obj(map["buttonId" := Num(0)]);
    assert Unwrap(data) == data;
  }

  /** The `catch` block sends exactly one action-response, and it names `buttonId`. */
  lemma FailureMessagesRespond(buttonId: JsValue, e: Thrown)
    ensures ResponseCount(FailureMessages(buttonId, e)) == 1
    ensures forall k :: 0 <= k < |FailureMessages(buttonId, e)| && FailureMessages(buttonId, e)[k].ActionResponseMsg? ==>
      FailureMessages(buttonId, e)[k].outcome.buttonId == buttonId
  {
    var m := FailureMessages(buttonId, e);
    assert m[1..][1..] == [];
    assert ResponseCount(m[1..]) == 1 + ResponseCount(m[1..][1..]);
  }

  /** A dispatched request sends exactly one action-response, and it names the trigger's `buttonId`. */
  lemma DispatchMessagesRespond(c: TriggerConfig, req: Request, host: Host)
    ensures ResponseCount(DispatchMessages(c, req, host)) == 1
    ensures forall k :: 0 <= k < |DispatchMessages(c, req, host)| && DispatchMessages(c, req, host)[k].ActionResponseMsg? ==>
      DispatchMessages(c, req, host)[k].outcome.buttonId == c.buttonId
  {
    var head := [Log("Triggering: " + c.labelText)];
    match host.fetch(ToStr(c.url), req)
    case Responded(status, statusText, text, ok) =>
      var tail := [ActionResponseMsg(ActionResponse(c.buttonId, status, statusText, text, ok)),
                   Log(c.labelText + " completed - " + IntToDecimal(status))];
      assert DispatchMessages(c, req, host) == head + tail;
      assert tail[1..][1..] == [];
      assert ResponseCount(tail[1..]) == ResponseCount(tail[1..][1..]) == 0;
      assert ResponseCount(tail) == 1 + ResponseCount(tail[1..]);
      ResponseCountAppend(head, tail);
    case Rejected(e) =>
      var tail := FailureMessages(c.buttonId, e);
      assert DispatchMessages(c, req, host) == head + tail;
      FailureMessagesRespond(c.buttonId, e);
      ResponseCountAppend(head, tail);
  }

  /** Exactly one action-response is sent for every accepted trigger, whichever path it takes. */
  lemma ExactlyOneResponse(data: JsValue, host: Host)
    requires Accepted(data)
    ensures ResponseCount(TriggerEffects(data, host)) == 1
  {
    var c := ReadConfig(Unwrap(data));
    match Prepare(c, host)
    case Failure(e) => FailureMessagesRespond(c.buttonId, e);
    case Success(req) => DispatchMessagesRespond(c, req, host);
  }

  /** Every action-response the handler sends names the trigger's own `buttonId`. */
  lemma ResponsesCarryButtonId(data: JsValue, host: Host, i: int)
    requires 0 <= i < |TriggerEffects(data, host)|
    requires TriggerEffects(data, host)[i].ActionResponseMsg?
    ensures Accepted(data)
    ensures TriggerEffects(data, host)[i].outcome.buttonId == ReadConfig(Unwrap(data)).buttonId
  {
    var c := ReadConfig(Unwrap(data));
    if !Nullish(data) && Truthy(c.buttonId) {
      match Prepare(c, host)
      case Failure(e) => FailureMessagesRespond(c.buttonId, e);
      case Success(req) => DispatchMessagesRespond(c, req, host);
    }
  }

  /** After building, `Content-Type` is present and non-empty. */
  lemma ContentTypePresent(c: TriggerConfig, host: Host)
    requires BuildHeaders(c, host).Success?
    ensures "Content-Type" in BuildHeaders(c, host).value
    ensures BuildHeaders(c, host).value["Content-Type"] != ""
  {
  }

  /** A non-empty custom `Content-Type` is sent unchanged. */
  lemma CustomContentTypeKept(c: TriggerConfig, host: Host)
    requires BuildHeaders(c, host).Success?
    requires "Content-Type" in CustomHeaders(c.customHeaders, host)
    requires CustomHeaders(c.customHeaders, host)["Content-Type"] != ""
    ensures BuildHeaders(c, host).value["Content-Type"] == CustomHeaders(c.customHeaders, host)["Content-Type"]
  {
  }

  /** Custom headers that do not parse are dropped: the headers are those of an empty custom-headers setting. */
  lemma MalformedCustomHeadersIgnored(c: TriggerConfig, host: Host)
    requires Truthy(c.customHeaders) && host.parseHeaders(ToStr(c.customHeaders)).None?
    ensures BuildHeaders(c, host) == BuildHeaders(c.(customHeaders := Str("")), host)
  {
  }

  /** Without custom headers the dictionary is `Content-Type: application/json` plus any Authorization. */
  lemma HeadersWithoutCustom(c: TriggerConfig, host: Host)
    requires CustomHeaders(c.customHeaders, host) == map[]
    requires BuildHeaders(c, host).Success?
    ensures var h := BuildHeaders(c, host).value;
      && h.Keys <= {"Content-Type", "Authorization"}
      && h["Content-Type"] == JsonContentType
      && ("Authorization" in h <==> Authorization(c.authType, c.authToken) != Success(None))
  {
  }

  /** Bearer authentication with a non-empty token sets `Authorization: Bearer <token>`, overriding a custom one. */
  lemma BearerAuthorization(c: TriggerConfig, host: Host)
    requires c.authType == Str("bearer") && Truthy(c.authToken)
    ensures BuildHeaders(c, host).Success?
    ensures "Authorization" in BuildHeaders(c, host).value
    ensures BuildHeaders(c, host).value["Authorization"] == "Bearer " + ToStr(c.authToken)
  {
  }

  /**
   * Basic authentication base-64-encodes the token itself (not `user:password`
   * as section 2 of RFC 7617 asks), overriding a custom Authorization header.
   */
  lemma BasicAuthorization(c: TriggerConfig, host: Host)
    requires c.authType == Str("basic") && Truthy(c.authToken) && IsLatin1(ToStr(c.authToken))
    ensures BuildHeaders(c, host).Success?
    ensures "Authorization" in BuildHeaders(c, host).value
    ensures BuildHeaders(c, host).value["Authorization"] == "Basic " + Encode(Latin1Bytes(ToStr(c.authToken)))
    ensures Decode(BuildHeaders(c, host).value["Authorization"][6..]) == Some(Latin1Bytes(ToStr(c.authToken)))
  {
    BtoaRoundTrip(ToStr(c.authToken));
    var h := BuildHeaders(c, host).value;
    assert h["Authorization"][6..] == Encode(Latin1Bytes(ToStr(c.authToken)));
  }

  /** A basic-auth token outside Latin-1 makes `btoa` throw: the trigger takes the catch path. */
  lemma BasicAuthorizationThrows(c: TriggerConfig, host: Host)
    requires c.authType == Str("basic") && Truthy(c.authToken) && !IsLatin1(ToStr(c.authToken))
    ensures BuildHeaders(c, host) == Failure(ErrorObject(InvalidCharacter))
    ensures Prepare(c, host) == Failure(ErrorObject(InvalidCharacter))
  {
  }

  /** In every other case Authorization is exactly what the custom headers gave. */
  lemma AuthorizationFromCustomOnly(c: TriggerConfig, host: Host)
    requires !(c.authType == Str("bearer") && Truthy(c.authToken))
    requires !(c.authType == Str("basic") && Truthy(c.authToken))
    ensures BuildHeaders(c, host).Success?
    ensures var h := BuildHeaders(c, host).value; var custom := CustomHeaders(c.customHeaders, host);
      && ("Authorization" in h <==> "Authorization" in custom)
      && ("Authorization" in h ==> h["Authorization"] == custom["Authorization"])
  {
  }

  /** GET and HEAD requests carry no body, whatever the payload setting. */
  lemma NoBodyForGetOrHead(c: TriggerConfig, host: Host)
    requires c.httpMethod == Str("GET") || c.httpMethod == Str("HEAD")
    ensures ResolveBody(c, host) == Success(None)
  {
  }

  /** A payload string with a non-white-space character is sent verbatim. */
  lemma CustomPayloadVerbatim(c: TriggerConfig, host: Host, s: string)
    requires SendsBody(c.httpMethod) && c.customPayload == Str(s) && !AllWhiteSpace(s)
    ensures ResolveBody(c, host) == Success(Some(s))
  {
    TrimEmptyIffBlank(s);
  }

  /** A blank payload string is replaced by the JSON of `{message, buttonId, timestamp}`. */
  lemma BlankPayloadDefaults(c: TriggerConfig, host: Host, s: string)
    requires SendsBody(c.httpMethod) && c.customPayload == Str(s) && AllWhiteSpace(s)
    ensures ResolveBody(c, host) == Success(Some(host.stringify(DefaultBody(c.labelText, c.buttonId, host.now))))
  {
    TrimEmptyIffBlank(s);
  }

  /** On a response the handler sends, in order: the dispatch log, the action-response, the completion log. */
  lemma SuccessMessages(data: JsValue, host: Host, req: Request, status: int, statusText: string, text: string, ok: bool)
    requires Accepted(data)
    requires Prepare(ReadConfig(Unwrap(data)), host) == Success(req)
    requires host.fetch(ToStr(ReadConfig(Unwrap(data)).url), req) == Responded(status, statusText, text, ok)
    ensures var c := ReadConfig(Unwrap(data));
      TriggerEffects(data, host) ==
        [Log("Triggering: " + c.labelText),
         ActionResponseMsg(ActionResponse(c.buttonId, status, statusText, text, ok)),
         Log(c.labelText + " completed - " + IntToDecimal(status))]
  {
  }

  /** When `fetch` throws, the dispatch log is followed by an error line and a status-0 action-response. */
  lemma TransportFailureMessages(data: JsValue, host: Host, req: Request, e: Thrown)
    requires Accepted(data)
    requires Prepare(ReadConfig(Unwrap(data)), host) == Success(req)
    requires host.fetch(ToStr(ReadConfig(Unwrap(data)).url), req) == Rejected(e)
    ensures var c := ReadConfig(Unwrap(data));
      TriggerEffects(data, host) ==
        [Log("Triggering: " + c.labelText),
         Error("Failed to execute action: " + ErrorText(e)),
         ActionResponseMsg(ActionResponse(c.buttonId, 0, "Error", ErrorText(e), false))]
  {
  }

  /** When building the request throws, no request is made and no dispatch log is sent. */
  lemma BuildFailureMessages(data: JsValue, host: Host, e: Thrown)
    requires Accepted(data)
    requires Prepare(ReadConfig(Unwrap(data)), host) == Failure(e)
    ensures var c := ReadConfig(Unwrap(data));
      TriggerEffects(data, host) ==
        [Error("Failed to execute action: " + ErrorText(e)),
         ActionResponseMsg(ActionResponse(c.buttonId, 0, "Error", ErrorText(e), false))]
  {
  }

  /** The backend process, whose outbox records every `DeskThing.send` in order. */
  class Backend {
    var outbox: seq<Message>

    constructor()
      ensures outbox == []
    {
      outbox := [];
    }

    method Send(m: Message)
      modifies this
      ensures outbox == old(outbox) + [m]
    {
      outbox := outbox + [m];
    }

    method SendFailure(buttonId: JsValue, e: Thrown)
      modifies this
      ensures outbox == old(outbox) + FailureMessages(buttonId, e)
    {
      var message := ErrorText(e);
      Send(Error("Failed to execute action: " + message));
      Send(ActionResponseMsg(ActionResponse(buttonId, 0, "Error", message, false)));
    }

    /** The `trigger-action` listener. */
    method OnTriggerAction(data: JsValue, host: Host)
      modifies this
      ensures outbox == old(outbox) + TriggerEffects(data, host)
    {
      if Nullish(data) {
        return;
      }
      var payload := Or(Get(data, "payload"), data);
      var buttonId := Get(payload, "buttonId");
      var url := Or(Get(payload, "url"), Str(DefaultUrl));
      var labelText := ToStr(Or(Get(payload, "label"), Str("Action " + ToStr(buttonId))));
      if !Truthy(buttonId) {
        Send(Error(MissingButtonId));
        return;
      }
      var httpMethod := Or(Get(payload, "method"), Str("POST"));
      var authType := Or(Get(payload, "authType"), Str("none"));
      var authToken := Or(Get(payload, "authToken"), Str(""));
      var customPayload := Or(Get(payload, "customPayload"), Str(""));
      var customHeaders := Or(Get(payload, "customHeaders"), Str(""));
      var c := TriggerConfig(buttonId, url, labelText, httpMethod, authType, authToken, customPayload, customHeaders);
      assert c == ReadConfig(payload);

      var headers, headerError := ComposeHeaders(c, host);
      if headerError.Some? {
        SendFailure(buttonId, headerError.value);
        return;
      }
      var body, bodyError := ComposeBody(c, host);
      if bodyError.Some? {
        SendFailure(buttonId, bodyError.value);
        return;
      }
      var request := Request(ToStr(httpMethod), headers, body);
      assert Prepare(c, host) == Success(request);
      Dispatch(c, request, host);
    }

    /** The header dictionary, built step by step; or the exception `btoa` throws. */
    static method ComposeHeaders(c: TriggerConfig, host: Host) returns (headers: map<string, string>, error: Option<Thrown>)
      ensures BuildHeaders(c, host) == if error.Some? then Failure(error.value) else Success(headers)
    {
      headers := map[];
      error := None;
      if Truthy(c.customHeaders) {
        var parsed := host.parseHeaders(ToStr(c.customHeaders));
        if parsed.Some? {
          headers := headers + parsed.value;
        }
      }
      assert headers == CustomHeaders(c.customHeaders, host);
      if !("Content-Type" in headers && headers["Content-Type"] != "") {
        headers := headers["Content-Type" := JsonContentType];
      }
      if c.authType == Str("bearer") && Truthy(c.authToken) {
        headers := headers["Authorization" := "Bearer " + ToStr(c.authToken)];
      } else if c.authType == Str("basic") && Truthy(c.authToken) {
        var encoded := Btoa(ToStr(c.authToken));
        if encoded.None? {
          error := Some(ErrorObject(InvalidCharacter));
          return;
        }
        headers := headers["Authorization" := "Basic " + encoded.value];
      }
    }

    /** The request body, assigned conditionally; or the exception calling `trim` throws. */
    static method ComposeBody(c: TriggerConfig, host: Host) returns (body: Option<string>, error: Option<Thrown>)
      ensures ResolveBody(c, host) == if error.Some? then Failure(error.value) else Success(body)
    {
      body := None;
      error := None;
      if c.httpMethod != Str("GET") && c.httpMethod != Str("HEAD") {
        if Truthy(c.customPayload) && !c.customPayload.Str? {
          error := Some(ErrorObject(TrimNotAFunction));
          return;
        }
        if Truthy(c.customPayload) && Trim(c.customPayload.s) != "" {
          body := Some(c.customPayload.s);
        } else {
          body := Some(host.stringify(DefaultBody(c.labelText, c.buttonId, host.now)));
        }
      }
    }

    /** Logs the dispatch, performs the request and reports its outcome. */
    method Dispatch(c: TriggerConfig, request: Request, host: Host)
      modifies this
      ensures outbox == old(outbox) + DispatchMessages(c, request, host)
    {
      Send(Log("Triggering: " + c.labelText));
      var response := host.fetch(ToStr(c.url), request);
      match response {
        case Responded(status, statusText, text, ok) =>
          Send(ActionResponseMsg(ActionResponse(c.buttonId, status, statusText, text, ok)));
          Send(Log(c.labelText + " completed - " + IntToDecimal(status)));
        case Rejected(e) =>
          SendFailure(c.buttonId, e);
      }
    }
  }
}

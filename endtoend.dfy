/**
 * The two sides of the event channel together: what the client sends is what
 * the backend reads, and what the backend sends is what the client shows.
 */
module EndToEnd {
  import opened Js
  import opened Boundary
  import opened App
  import Trigger

  /** The fields a trigger payload carries, and that it carries no nested `payload`. */
  lemma PayloadFields(settings: JsValue, id: int, caption: JsValue)
    ensures var p := TriggerPayload(settings, id, caption);
      && p.Obj? && "payload" !in p.fields
      && Get(p, "buttonId") == Num(id)
      && Get(p, "label") == caption
      && Get(p, "url") == Or(SettingValue(settings, SettingKey(id, "Url")), Str(Trigger.DefaultUrl))
      && Get(p, "method") == Or(SettingValue(settings, SettingKey(id, "Method")), Str("POST"))
      && Get(p, "authType") == Or(SettingValue(settings, SettingKey(id, "Auth")), Str("none"))
      && Get(p, "authToken") == Or(SettingValue(settings, SettingKey(id, "Token")), Str(""))
      && Get(p, "customPayload") == Or(SettingValue(settings, SettingKey(id, "Payload")), Str(""))
      && Get(p, "customHeaders") == Or(SettingValue(settings, SettingKey(id, "Headers")), Str(""))
  {
    PayloadKeys(Num(id),
      Or(SettingValue(settings, SettingKey(id, "Url")), Str(Trigger.DefaultUrl)),
      caption,
      Or(SettingValue(settings, SettingKey(id, "Method")), Str("POST")),
      Or(SettingValue(settings, SettingKey(id, "Auth")), Str("none")),
      Or(SettingValue(settings, SettingKey(id, "Token")), Str("")),
      Or(SettingValue(settings, SettingKey(id, "Payload")), Str("")),
      Or(SettingValue(settings, SettingKey(id, "Headers")), Str("")));
  }

  /** Each key of the payload object reads back its own value, whatever the values are. */
  lemma PayloadKeys(a: JsValue, b: JsValue, c: JsValue, d: JsValue, e: JsValue, f: JsValue, g: JsValue, h: JsValue)
    ensures var p := Obj(map["buttonId" := a, "url" := b, "label" := c, "method" := d,
      "authType" := e, "authToken" := f, "customPayload" := g, "customHeaders" := h]);
      && "payload" !in p.fields
      && Get(p, "buttonId") == a && Get(p, "url") == b && Get(p, "label") == c && Get(p, "method") == d
      && Get(p, "authType") == e && Get(p, "authToken") == f
      && Get(p, "customPayload") == g && Get(p, "customHeaders") == h
  {
  }

  /** The backend reads back exactly the fields the client put into a trigger payload. */
  lemma PayloadReadBack(settings: JsValue, id: int, caption: JsValue)
    requires id != 0 && Truthy(caption)
    ensures var p := TriggerPayload(settings, id, caption);
      && Trigger.Unwrap(p) == p
      && Trigger.ReadConfig(p) == Trigger.TriggerConfig(
        Num(id),
        Or(SettingValue(settings, SettingKey(id, "Url")), Str(Trigger.DefaultUrl)),
        ToStr(caption),
        Or(SettingValue(settings, SettingKey(id, "Method")), Str("POST")),
        Or(SettingValue(settings, SettingKey(id, "Auth")), Str("none")),
        Or(SettingValue(settings, SettingKey(id, "Token")), Str("")),
        Or(SettingValue(settings, SettingKey(id, "Payload")), Str("")),
        Or(SettingValue(settings, SettingKey(id, "Headers")), Str("")))
  {
    PayloadFields(settings, id, caption);
    OrIdempotent(SettingValue(settings, SettingKey(id, "Url")), Str(Trigger.DefaultUrl));
    OrIdempotent(SettingValue(settings, SettingKey(id, "Method")), Str("POST"));
    OrIdempotent(SettingValue(settings, SettingKey(id, "Auth")), Str("none"));
    OrIdempotent(SettingValue(settings, SettingKey(id, "Token")), Str(""));
    OrIdempotent(SettingValue(settings, SettingKey(id, "Payload")), Str(""));
    OrIdempotent(SettingValue(settings, SettingKey(id, "Headers")), Str(""));
  }

  /**
   * A trigger sent by the client is accepted by the backend, whether it arrives
   * wrapped in its `{type, payload}` envelope or bare, and the backend reads the
   * pressed button's id, caption and per-button settings from it.
   */
  lemma ClientTriggerReadByServer(settings: JsValue, responses: map<string, JsValue>, id: int, p: JsValue)
    requires TriggerMessages(settings, responses, id) == [TriggerAction(p)]
    ensures Trigger.Accepted(Envelope(TriggerAction(p))) && Trigger.Accepted(p)
    ensures Trigger.Unwrap(Envelope(TriggerAction(p))) == p && Trigger.Unwrap(p) == p
    ensures 1 <= id <= ButtonCount && DeriveButtons(settings, responses)[id - 1].enabled
    ensures var c := Trigger.ReadConfig(p);
      && c.buttonId == Num(id)
      && c.labelText == ToStr(DeriveButtons(settings, responses)[id - 1].caption)
      && c.url == Or(SettingValue(settings, SettingKey(id, "Url")), Str(Trigger.DefaultUrl))
      && c.httpMethod == Or(SettingValue(settings, SettingKey(id, "Method")), Str("POST"))
      && c.authType == Or(SettingValue(settings, SettingKey(id, "Auth")), Str("none"))
      && c.authToken == Or(SettingValue(settings, SettingKey(id, "Token")), Str(""))
      && c.customPayload == Or(SettingValue(settings, SettingKey(id, "Payload")), Str(""))
      && c.customHeaders == Or(SettingValue(settings, SettingKey(id, "Headers")), Str(""))
  {
    FindDerived(settings, responses, id);
    var bs := DeriveButtons(settings, responses);
    assert 1 <= id <= ButtonCount;
    var b := bs[id - 1];
    assert p == TriggerPayload(settings, id, b.caption);
    PayloadReadBack(settings, id, b.caption);
    var e := Envelope(TriggerAction(p));
    assert Get(e, "payload") == p;
  }

  /** Every log and error line in a sequence of sent messages is non-empty. */
  predicate TextsNonEmpty(s: seq<Message>) {
    forall i :: 0 <= i < |s| ==> (s[i].Log? || s[i].Error?) ==> s[i].text != ""
  }

  /** The backend never sends an empty log or error line. */
  lemma EffectsTextsNonEmpty(data: JsValue, host: Trigger.Host)
    ensures TextsNonEmpty(Trigger.TriggerEffects(data, host))
  {
    if !Nullish(data) {
      var c := Trigger.ReadConfig(Trigger.Unwrap(data));
      if Truthy(c.buttonId) {
        match Trigger.Prepare(c, host)
        case Failure(e) => FailureTextsNonEmpty(c.buttonId, e);
        case Success(req) => DispatchTextsNonEmpty(c, req, host);
      }
    }
  }

  /** The `catch` block's error line is never empty. */
  lemma FailureTextsNonEmpty(buttonId: JsValue, e: Trigger.Thrown)
    ensures TextsNonEmpty(Trigger.FailureMessages(buttonId, e))
  {
    var t := "Failed to execute action: " + Trigger.ErrorText(e);
    assert t[0] == 'F';
  }

  /** The dispatch log line and the completion line are never empty. */
  lemma DispatchTextsNonEmpty(c: Trigger.TriggerConfig, req: Trigger.Request, host: Trigger.Host)
    ensures TextsNonEmpty(Trigger.DispatchMessages(c, req, host))
  {
    var first := "Triggering: " + c.labelText;
    assert first[0] == 'T';
    match host.fetch(ToStr(c.url), req)
    case Responded(status, statusText, text, ok) =>
      var last := c.labelText + " completed - " + IntToDecimal(status);
      assert |last| > 0 by { assert |last| >= |" completed - "|; }
    case Rejected(e) =>
      FailureTextsNonEmpty(c.buttonId, e);
  }

  /** Every line the backend logs is shown by the client's log listener verbatim, enveloped or bare. */
  lemma ServerLogsShownVerbatim(data: JsValue, host: Trigger.Host, i: int, stringify: JsValue -> string)
    requires 0 <= i < |Trigger.TriggerEffects(data, host)|
    requires Trigger.TriggerEffects(data, host)[i].Log?
    ensures var t := Trigger.TriggerEffects(data, host)[i].text;
      t != "" && LogMessage(Envelope(Log(t)), stringify) == t && LogMessage(Str(t), stringify) == t
  {
    EffectsTextsNonEmpty(data, host);
    LogLineShownVerbatim(Trigger.TriggerEffects(data, host)[i].text, stringify);
  }

  /** Every error the backend sends is shown by the client's error listener verbatim. */
  lemma ServerErrorsShownVerbatim(data: JsValue, host: Trigger.Host, i: int)
    requires 0 <= i < |Trigger.TriggerEffects(data, host)|
    requires Trigger.TriggerEffects(data, host)[i].Error?
    ensures var t := Trigger.TriggerEffects(data, host)[i].text;
      t != "" && ErrorMessage(Envelope(Error(t))) == t && ErrorMessage(Str(t)) == t
  {
    EffectsTextsNonEmpty(data, host);
    ErrorLineShownVerbatim(Trigger.TriggerEffects(data, host)[i].text);
  }

  /** A non-empty log line reaches the log listener unchanged, enveloped or bare. */
  lemma LogLineShownVerbatim(t: string, stringify: JsValue -> string)
    requires t != ""
    ensures LogMessage(Envelope(Log(t)), stringify) == t && LogMessage(Str(t), stringify) == t
  {
  }

  /** A non-empty error line reaches the error listener unchanged, enveloped or bare. */
  lemma ErrorLineShownVerbatim(t: string)
    requires t != ""
    ensures ErrorMessage(Envelope(Error(t))) == t && ErrorMessage(Str(t)) == t
  {
  }

  /**
   * The backend's action-response for a button, delivered to the client, becomes
   * that button's displayed response and leaves the other entries alone.
   */
  lemma ServerResponseShownOnButton(settings: JsValue, responses: map<string, JsValue>, r: ActionResponse, id: int)
    requires 1 <= id <= ButtonCount && r.buttonId == Num(id)
    ensures var after := ResponsesAfter(responses, Envelope(ActionResponseMsg(r)));
      && after == responses[IntToDecimal(id) := ResponseObject(r)]
      && DeriveButtons(settings, after)[id - 1].response == ResponseObject(r)
  {
    var after := ResponsesAfter(responses, Envelope(ActionResponseMsg(r)));
    assert ToStr(Get(ResponseObject(r), "buttonId")) == IntToDecimal(id);
    assert DeriveButtons(settings, after)[id - 1] == DeriveButton(settings, after, id - 1);
  }
}

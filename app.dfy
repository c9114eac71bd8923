/**
 * The dashboard's client state: the settings snapshot it renders from, the
 * latest action-response per button, the rolling activity log, and the
 * `trigger-action` messages it sends when an enabled button is pressed.
 */
module App {
  import opened Wrappers
  import opened Js
  import opened Boundary
  import Trigger

  const ButtonCount := 6
  const LogCapacity := 20
  const DefaultColors: seq<string> := ["#3b82f6", "#10b981", "#f59e0b", "#ef4444", "#8b5cf6", "#06b6d4"]
  const DefaultBackground := "#1f2937"

  /** One rendered button. `caption` (its label) and `color` are whatever the settings hold, after the fallbacks. */
  datatype Button = Button(id: int, enabled: bool, caption: JsValue, color: JsValue, response: JsValue)

  /** The flat settings key of button `id`, such as `button3Label`. */
  function SettingKey(id: int, field: string): string {
    "button" + IntToDecimal(id) + field
  }

  /** `settings[key]?.value` */
  function SettingValue(settings: JsValue, key: string): JsValue {
    Get(Get(settings, key), "value")
  }

  /** `currentSettings.backgroundColor?.value || '#1f2937'` */
  function BackgroundColor(settings: JsValue): (r: JsValue)
    ensures Truthy(r)
  {
    Or(SettingValue(settings, "backgroundColor"), Str(DefaultBackground))
  }

  function DeriveButton(settings: JsValue, responses: map<string, JsValue>, index: nat): Button
    requires index < ButtonCount
  {
    var id := index + 1;
    Button(
      id,
      SettingValue(settings, SettingKey(id, "Enabled")) == Bool(true),
      Or(SettingValue(settings, SettingKey(id, "Label")), Str("Action " + IntToDecimal(id))),
      Or(SettingValue(settings, SettingKey(id, "Color")), Str(DefaultColors[index])),
      if IntToDecimal(id) in responses then responses[IntToDecimal(id)] else Undefined)
  }

  /** The six buttons derived from the flat settings keys, with their `||` fallbacks. */
  function DeriveButtons(settings: JsValue, responses: map<string, JsValue>): (bs: seq<Button>)
    ensures |bs| == ButtonCount
    ensures forall i :: 0 <= i < ButtonCount ==> bs[i].id == i + 1
    ensures forall i :: 0 <= i < ButtonCount ==>
      (bs[i].enabled <==> SettingValue(settings, SettingKey(i + 1, "Enabled")) == Bool(true))
    ensures forall i :: 0 <= i < ButtonCount ==>
      var v := SettingValue(settings, SettingKey(i + 1, "Label"));
      bs[i].caption == if Truthy(v) then v else Str("Action " + IntToDecimal(i + 1))
    ensures forall i :: 0 <= i < ButtonCount ==>
      var v := SettingValue(settings, SettingKey(i + 1, "Color"));
      bs[i].color == if Truthy(v) then v else Str(DefaultColors[i])
    ensures forall i :: 0 <= i < ButtonCount ==> Truthy(bs[i].caption) && Truthy(bs[i].color)
    ensures forall i :: 0 <= i < ButtonCount ==>
      bs[i].response == if IntToDecimal(i + 1) in responses then responses[IntToDecimal(i + 1)] else Undefined
  {
    seq(ButtonCount, i requires 0 <= i < ButtonCount => DeriveButton(settings, responses, i))
  }

  /** `buttons.filter(b => b.enabled)` */
  function EnabledOnly(bs: seq<Button>): (r: seq<Button>)
    ensures |r| <= |bs|
    ensures forall b :: b in r <==> b in bs && b.enabled
    decreases |bs|
  {
    if bs == [] then []
    else (if bs[0].enabled then [bs[0]] else []) + EnabledOnly(bs[1..])
  }

  predicate IdsIncreasing(bs: seq<Button>) {
    forall i, j :: 0 <= i < j < |bs| ==> bs[i].id < bs[j].id
  }

  /** Filtering keeps the buttons' order: a list sorted by id stays sorted by id. */
  lemma {:induction false} EnabledOnlyKeepsOrder(bs: seq<Button>)
    requires IdsIncreasing(bs)
    ensures IdsIncreasing(EnabledOnly(bs))
    decreases |bs|
  {
    if bs != [] {
      EnabledOnlyKeepsOrder(bs[1..]);
      var rest := EnabledOnly(bs[1..]);
      forall b | b in rest ensures bs[0].id < b.id {
        var k :| 0 <= k < |bs[1..]| && bs[1..][k] == b;
        assert bs[k + 1] == b;
      }
    }
  }

  /**
   * The enabled buttons are exactly the buttons whose setting is `true`, listed
   * in slot order.
   */
  lemma EnabledButtonsAreOrderedSubsequence(settings: JsValue, responses: map<string, JsValue>)
    ensures var r := EnabledOnly(DeriveButtons(settings, responses));
      && IdsIncreasing(r)
      && (forall b :: b in r ==> 1 <= b.id <= ButtonCount && b.enabled)
      && (forall i :: 0 <= i < ButtonCount && DeriveButtons(settings, responses)[i].enabled ==>
            DeriveButtons(settings, responses)[i] in r)
  {
    var bs := DeriveButtons(settings, responses);
    EnabledOnlyKeepsOrder(bs);
    forall b | b in EnabledOnly(bs) ensures 1 <= b.id <= ButtonCount {
      var k :| 0 <= k < |bs| && bs[k] == b;
    }
  }

  /** The button grid's column count: two up to four enabled buttons, three beyond. */
  function GridColumns(enabledCount: nat): (columns: nat)
    ensures columns == 2 <==> enabledCount <= 4
    ensures columns == 3 <==> enabledCount > 4
  {
    if enabledCount <= 2 then 2 else if enabledCount <= 4 then 2 else 3
  }

  // ------------------------------------------------------------------ logs

  /**
   * The text the `log` listener shows for an event: a string as it is, otherwise
   * the object's `payload`, then its `message`, then its JSON.
   */
  function LogMessage(data: JsValue, stringify: JsValue -> string): (r: string)
    ensures data.Str? ==> r == data.s
    ensures !data.Str? && !data.Obj? ==> r == "Unknown log message"
  {
    if data.Str? then data.s
    else if Truthy(data) && data.Obj? then
      if Truthy(Get(data, "payload")) then ToStr(Get(data, "payload"))
      else if Truthy(Get(data, "message")) then ToStr(Get(data, "message"))
      else if Get(data, "type") == Str("log") && Truthy(Get(data, "payload")) then ToStr(Get(data, "payload"))
      else stringify(data)
    else "Unknown log message"
  }

  /** The `type === 'log'` test can never decide the message: a truthy payload was taken first. */
  lemma LogTypeBranchUnreachable(data: JsValue, stringify: JsValue -> string)
    requires data.Obj?
    ensures LogMessage(data, stringify) ==
      if Truthy(Get(data, "payload")) then ToStr(Get(data, "payload"))
      else if Truthy(Get(data, "message")) then ToStr(Get(data, "message"))
      else stringify(data)
  {
  }

  /** The text the `error` listener shows: like LogMessage, but `Unknown error` instead of JSON. */
  function ErrorMessage(data: JsValue): (r: string)
    ensures data.Str? ==> r == data.s
    ensures r == "" ==> data == Str("")
  {
    if data.Str? then data.s
    else if Truthy(data) && data.Obj? then
      if Truthy(Get(data, "payload")) then ToStr(Get(data, "payload"))
      else if Truthy(Get(data, "message")) then ToStr(Get(data, "message"))
      else if Get(data, "type") == Str("error") && Truthy(Get(data, "payload")) then ToStr(Get(data, "payload"))
      else "Unknown error"
    else "Unknown error"
  }

  function LogLine(time: string, message: string): string {
    "[" + time + "] " + message
  }

  function ErrorLine(time: string, message: string): string {
    "[" + time + "] ERROR: " + message
  }

  /** The last `n` elements of `s` (all of them when there are fewer), as `s.slice(-n)`. */
  function Last<T>(s: seq<T>, n: nat): (r: seq<T>)
    ensures |r| == if |s| < n then |s| else n
    ensures forall i :: 0 <= i < |r| ==> r[i] == s[|s| - |r| + i]
  {
    if |s| <= n then s else s[|s| - n..]
  }

  /** `[...prev.slice(-19), line]` */
  function Appended(prev: seq<string>, line: string): (r: seq<string>)
    ensures |r| <= LogCapacity
    ensures |r| > 0 && r[|r| - 1] == line
    ensures r[..|r| - 1] == Last(prev, LogCapacity - 1)
  {
    Last(prev, LogCapacity - 1) + [line]
  }

  /** Until the log is full nothing is dropped; once it is, the oldest line goes first. */
  lemma AppendedDropsOldest(prev: seq<string>, line: string)
    requires |prev| <= LogCapacity
    ensures |prev| < LogCapacity ==> Appended(prev, line) == prev + [line]
    ensures |prev| == LogCapacity ==> Appended(prev, line) == prev[1..] + [line]
  {
  }

  function AppendedAll(prev: seq<string>, lines: seq<string>): seq<string>
    decreases |lines|
  {
    if lines == [] then prev else AppendedAll(Appended(prev, lines[0]), lines[1..])
  }

  /** Appending lines one at a time keeps exactly the 20 most recent lines, in order. */
  lemma {:induction false} AppendedAllKeepsMostRecent(prev: seq<string>, lines: seq<string>)
    requires |prev| <= LogCapacity
    ensures AppendedAll(prev, lines) == Last(prev + lines, LogCapacity)
    decreases |lines|
  {
    if lines == [] {
      assert prev + lines == prev;
    } else {
      var first, rest := prev + [lines[0]], lines[1..];
      var next := Appended(prev, lines[0]);
      assert AppendedAll(prev, lines) == AppendedAll(next, rest);
      AppendedIsLast(prev, lines[0]);
      AppendedAllKeepsMostRecent(next, rest);
      LastOfLastAppend(first, rest);
      SplitFirst(prev, lines);
    }
  }

  lemma SplitFirst<T>(a: seq<T>, b: seq<T>)
    requires b != []
    ensures (a + [b[0]]) + b[1..] == a + b
  {
    assert b == [b[0]] + b[1..];
  }

  /** One append keeps the last 20 of the old lines and the new one. */
  lemma AppendedIsLast(prev: seq<string>, line: string)
    requires |prev| <= LogCapacity
    ensures Appended(prev, line) == Last(prev + [line], LogCapacity)
  {
    var a, b := Appended(prev, line), Last(prev + [line], LogCapacity);
    assert |a| == |b|;
    forall i | 0 <= i < |a| ensures a[i] == b[i] {
    }
  }

  lemma LastOfLastAppend(s: seq<string>, t: seq<string>)
    ensures Last(Last(s, LogCapacity) + t, LogCapacity) == Last(s + t, LogCapacity)
  {
    var a, b := Last(Last(s, LogCapacity) + t, LogCapacity), Last(s + t, LogCapacity);
    assert |a| == |b|;
    forall i | 0 <= i < |a| ensures a[i] == b[i] {
    }
  }

  // -------------------------------------------------------- incoming events

  /** The listener's unwrapping of a settings event: its `payload`, else its `settings`, else itself. */
  function UnwrapSettings(settings: JsValue): (r: JsValue)
    ensures !settings.Obj? ==> r == settings
    ensures r == settings || r == Get(settings, "payload") || r == Get(settings, "settings")
    ensures settings.Obj? && Truthy(Get(settings, "payload")) ==> r == Get(settings, "payload")
  {
    if Truthy(settings) && settings.Obj? then
      if Truthy(Get(settings, "payload")) then Get(settings, "payload")
      else if Truthy(Get(settings, "settings")) then Get(settings, "settings")
      else settings
    else settings
  }

  /** The settings snapshot after a `settings` event: replaced only by an object. */
  function SettingsAfter(current: JsValue, settings: JsValue): (r: JsValue)
    ensures UnwrapSettings(settings).Obj? ==> r == UnwrapSettings(settings)
    ensures !UnwrapSettings(settings).Obj? ==> r == current
  {
    var d := UnwrapSettings(settings);
    if Truthy(d) && d.Obj? then d else current
  }

  /** The response map after an `action-response` event: last write wins, per `buttonId`. */
  function ResponsesAfter(responses: map<string, JsValue>, response: JsValue): (r: map<string, JsValue>)
    ensures var d := if Truthy(response) && Truthy(Get(response, "payload")) then Get(response, "payload") else response;
      && (Truthy(d) && Get(d, "buttonId") != Undefined ==> r == responses[ToStr(Get(d, "buttonId")) := d])
      && (!(Truthy(d) && Get(d, "buttonId") != Undefined) ==> r == responses)
  {
    var d := if Truthy(response) && Truthy(Get(response, "payload")) then Get(response, "payload") else response;
    if Truthy(d) && Get(d, "buttonId") != Undefined then responses[ToStr(Get(d, "buttonId")) := d]
    else responses
  }

  /** A recorded response overwrites only its own button's entry. */
  lemma ResponsesAfterTouchesOneKey(responses: map<string, JsValue>, response: JsValue, k: string)
    requires k in responses
    requires var r := ResponsesAfter(responses, response); k in r ==> r[k] != responses[k]
    ensures var d := if Truthy(response) && Truthy(Get(response, "payload")) then Get(response, "payload") else response;
      Truthy(d) && Get(d, "buttonId") != Undefined && k == ToStr(Get(d, "buttonId"))
  {
  }

  // ------------------------------------------------------------- triggering

  /** The first button with the given id, as `buttons.find`. */
  function Find(bs: seq<Button>, id: int): (r: Option<Button>)
    ensures r.Some? ==> r.value in bs && r.value.id == id
    ensures r.None? ==> forall b :: b in bs ==> b.id != id
    ensures r.Some? ==> exists k :: 0 <= k < |bs| && bs[k] == r.value && forall j :: 0 <= j < k ==> bs[j].id != id
    decreases |bs|
  {
    if bs == [] then None
    else if bs[0].id == id then Some(bs[0])
    else Find(bs[1..], id)
  }

  /** The `trigger-action` payload for button `id`, with the documented defaults. */
  function TriggerPayload(settings: JsValue, id: int, caption: JsValue): JsValue {
    Obj(map[
      "buttonId" := Num(id),
      "url" := Or(SettingValue(settings, SettingKey(id, "Url")), Str(Trigger.DefaultUrl)),
      "label" := caption,
      "method" := Or(SettingValue(settings, SettingKey(id, "Method")), Str("POST")),
      "authType" := Or(SettingValue(settings, SettingKey(id, "Auth")), Str("none")),
      "authToken" := Or(SettingValue(settings, SettingKey(id, "Token")), Str("")),
      "customPayload" := Or(SettingValue(settings, SettingKey(id, "Payload")), Str("")),
      "customHeaders" := Or(SettingValue(settings, SettingKey(id, "Headers")), Str(""))])
  }

  /** What pressing button `id` sends: one trigger when the button exists and is enabled, nothing otherwise. */
  function TriggerMessages(settings: JsValue, responses: map<string, JsValue>, id: int): (r: seq<Message>)
    ensures |r| <= 1
    ensures forall m :: m in r ==> m.TriggerAction?
  {
    match Find(DeriveButtons(settings, responses), id)
    case Some(b) => if b.enabled then [TriggerAction(TriggerPayload(settings, id, b.caption))] else []
    case None => []
  }

  lemma FindDerived(settings: JsValue, responses: map<string, JsValue>, id: int)
    ensures var bs := DeriveButtons(settings, responses);
      Find(bs, id) == if 1 <= id <= ButtonCount then Some(bs[id - 1]) else None
  {
    var bs := DeriveButtons(settings, responses);
    if 1 <= id <= ButtonCount {
      FindFirst(bs, 1, id - 1);
    }
  }

  /** In a list whose ids count up from `base`, the button with id `base + k` is found at position `k`. */
  lemma {:induction false} FindFirst(bs: seq<Button>, base: int, k: nat)
    requires k < |bs| && forall i :: 0 <= i < |bs| ==> bs[i].id == base + i
    ensures Find(bs, base + k) == Some(bs[k])
    decreases k
  {
    if k > 0 {
      FindFirst(bs[1..], base + 1, k - 1);
    }
  }

  /** A trigger is sent exactly when the button exists and its enabled setting is `true`. */
  lemma TriggerSentIffEnabled(settings: JsValue, responses: map<string, JsValue>, id: int)
    ensures |TriggerMessages(settings, responses, id)| <= 1
    ensures |TriggerMessages(settings, responses, id)| == 1 <==>
      1 <= id <= ButtonCount && SettingValue(settings, SettingKey(id, "Enabled")) == Bool(true)
  {
    FindDerived(settings, responses, id);
  }

  // ------------------------------------------------------------------ state

  /** The component's state, and the messages it has sent through the host. */
  class Client {
    var currentSettings: JsValue
    var responses: map<string, JsValue>
    var logs: seq<string>
    var sent: seq<Message>

    ghost predicate Valid()
      reads this
    {
      |logs| <= LogCapacity
    }

    constructor()
      ensures Valid()
      ensures currentSettings == Obj(map[]) && responses == map[] && logs == [] && sent == []
    {
      currentSettings := Obj(map[]);
      responses := map[];
      logs := [];
      sent := [];
    }

    function Buttons(): (bs: seq<Button>)
      reads this
      ensures |bs| == ButtonCount
    {
      DeriveButtons(currentSettings, responses)
    }

    function EnabledButtons(): (bs: seq<Button>)
      reads this
      ensures |bs| <= ButtonCount
    {
      EnabledOnly(Buttons())
    }

    /** The `settings` listener. */
    method OnSettings(settings: JsValue)
      modifies this
      ensures currentSettings == SettingsAfter(old(currentSettings), settings)
      ensures responses == old(responses) && logs == old(logs) && sent == old(sent)
    {
      var settingsData := settings;
      if Truthy(settings) && settings.Obj? {
        if Truthy(Get(settings, "payload")) {
          settingsData := Get(settings, "payload");
        } else if Truthy(Get(settings, "settings")) {
          settingsData := Get(settings, "settings");
        }
      }
      if Truthy(settingsData) && settingsData.Obj? {
        currentSettings := settingsData;
      }
    }

    /** The result of `getSettings()`: any truthy value replaces the snapshot. */
    method OnInitialSettings(settingsData: JsValue)
      modifies this
      ensures currentSettings == if Truthy(settingsData) then settingsData else old(currentSettings)
      ensures responses == old(responses) && logs == old(logs) && sent == old(sent)
    {
      if Truthy(settingsData) {
        currentSettings := settingsData;
      }
    }

    /** The `action-response` listener. */
    method OnActionResponse(response: JsValue)
      modifies this
      ensures responses == ResponsesAfter(old(responses), response)
      ensures currentSettings == old(currentSettings) && logs == old(logs) && sent == old(sent)
    {
      var responseData := response;
      if Truthy(response) && Truthy(Get(response, "payload")) {
        responseData := Get(response, "payload");
      }
      if Truthy(responseData) && Get(responseData, "buttonId") != Undefined {
        responses := responses[ToStr(Get(responseData, "buttonId")) := responseData];
      }
    }

    /** The `log` listener; `time` is `new Date().toLocaleTimeString()`. */
    method OnLog(data: JsValue, time: string, stringify: JsValue -> string)
      requires Valid()
      modifies this
      ensures Valid()
      ensures logs == Appended(old(logs), LogLine(time, LogMessage(data, stringify)))
      ensures currentSettings == old(currentSettings) && responses == old(responses) && sent == old(sent)
    {
      var logMessage := LogMessage(data, stringify);
      logs := Last(logs, LogCapacity - 1) + [LogLine(time, logMessage)];
    }

    /** The `error` listener. */
    method OnError(data: JsValue, time: string)
      requires Valid()
      modifies this
      ensures Valid()
      ensures logs == Appended(old(logs), ErrorLine(time, ErrorMessage(data)))
      ensures currentSettings == old(currentSettings) && responses == old(responses) && sent == old(sent)
    {
      var errorMessage := ErrorMessage(data);
      logs := Last(logs, LogCapacity - 1) + [ErrorLine(time, errorMessage)];
    }

    /** The Clear Logs button. */
    method ClearLogs()
      modifies this
      ensures Valid() && logs == []
      ensures currentSettings == old(currentSettings) && responses == old(responses) && sent == old(sent)
    {
      logs := [];
    }

    /** `handleButtonTrigger(buttonId)` */
    method HandleButtonTrigger(buttonId: int)
      modifies this
      ensures sent == old(sent) + TriggerMessages(old(currentSettings), old(responses), buttonId)
      ensures currentSettings == old(currentSettings) && responses == old(responses) && logs == old(logs)
    {
      var button := Find(Buttons(), buttonId);
      if button.Some? && button.value.enabled {
        var settings := currentSettings;
        var url := Or(SettingValue(settings, SettingKey(buttonId, "Url")), Str(Trigger.DefaultUrl));
        var caption := button.value.caption;
        var httpMethod := Or(SettingValue(settings, SettingKey(buttonId, "Method")), Str("POST"));
        var authType := Or(SettingValue(settings, SettingKey(buttonId, "Auth")), Str("none"));
        var authToken := Or(SettingValue(settings, SettingKey(buttonId, "Token")), Str(""));
        var customPayload := Or(SettingValue(settings, SettingKey(buttonId, "Payload")), Str(""));
        var customHeaders := Or(SettingValue(settings, SettingKey(buttonId, "Headers")), Str(""));
        sent := sent + [TriggerAction(Obj(map[
          "buttonId" := Num(buttonId),
          "url" := url,
          "label" := caption,
          "method" := httpMethod,
          "authType" := authType,
          "authToken" := authToken,
          "customPayload" := customPayload,
          "customHeaders" := customHeaders]))];
      }
    }
  }
}

/**
 * The messages that cross the host's event channel between the plugin's
 * backend and its user interface, each sent as `{type, payload}`.
 */
module Boundary {
  import opened Js

  /** The record the backend reports for one executed trigger. */
  datatype ActionResponse = ActionResponse(
    buttonId: JsValue,
    status: int,
    statusText: string,
    response: string,
    success: bool)

  datatype Message =
    | Log(text: string)                        // type 'log'
    | Error(text: string)                      // type 'error'
    | ActionResponseMsg(outcome: ActionResponse) // type 'action-response'
    | TriggerAction(payload: JsValue)          // type 'trigger-action'

  function TypeName(m: Message): string {
    match m
    case Log(_) => "log"
    case Error(_) => "error"
    case ActionResponseMsg(_) => "action-response"
    case TriggerAction(_) => "trigger-action"
  }

  /** The action-response record as the JavaScript object the receiver sees. */
  function ResponseObject(r: ActionResponse): (v: JsValue)
    ensures v.Obj? && Get(v, "buttonId") == r.buttonId
  {
    Obj(map[
      "buttonId" := r.buttonId,
      "status" := Num(r.status),
      "statusText" := Str(r.statusText),
      "response" := Str(r.response),
      "success" := Bool(r.success)])
  }

  function PayloadOf(m: Message): JsValue {
    match m
    case Log(t) => Str(t)
    case Error(t) => Str(t)
    case ActionResponseMsg(r) => ResponseObject(r)
    case TriggerAction(p) => p
  }

  /** `{type, payload}`: the object handed to the receiving side's listener. */
  function Envelope(m: Message): (v: JsValue)
    ensures Get(v, "type") == Str(TypeName(m)) && Get(v, "payload") == PayloadOf(m)
  {
    Obj(map["type" := Str(TypeName(m)), "payload" := PayloadOf(m)])
  }

  /** How many action-response messages a sequence of sent messages holds. */
  function ResponseCount(s: seq<Message>): nat
    decreases |s|
  {
    if s == [] then 0
    else (if s[0].ActionResponseMsg? then 1 else 0) + ResponseCount(s[1..])
  }

  lemma {:induction false} ResponseCountAppend(a: seq<Message>, b: seq<Message>)
    ensures ResponseCount(a + b) == ResponseCount(a) + ResponseCount(b)
    decreases |a|
  {
    if a == [] {
      assert a + b == b;
    } else {
      assert (a + b)[1..] == a[1..] + b;
      ResponseCountAppend(a[1..], b);
    }
  }
}

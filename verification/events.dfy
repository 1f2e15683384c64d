/**
 * The result event of the router: `setStubEvent` builds one payload map per
 * deploy or invoke call and publishes it under `EVT.IOTCP.INVOKE.RESULT`.
 * Publishing is modelled as appending to an event log; marshalling the payload
 * and the error `SetEvent` may return (which the source discards) are not modelled.
 */
module Events {
  import opened Wrappers

  /** A decoded JSON value, as Go's `interface{}` holds it after `json.Unmarshal`. */
  datatype Json =
    | JNull
    | JBool(b: bool)
    | JNumber(n: int)
    | JString(s: string)
    | JArray(items: seq<Json>)
    | JObject(members: map<string, Json>)

  /** A `map[string]interface{}` event payload. */
  type Payload = map<string, Json>

  const InvokeResultEvent := "EVT.IOTCP.INVOKE.RESULT"
  const StatusKey := "status"
  const MessageKey := "message"

  /** One published chaincode event. */
  datatype Event = Event(name: string, payload: Payload)

  /** The payload reports success. */
  predicate IsOk(p: Payload) {
    StatusKey in p && p[StatusKey] == JString("OK")
  }

  /** The payload reports failure. */
  predicate IsError(p: Payload) {
    StatusKey in p && p[StatusKey] == JString("ERROR")
  }

  /** The payload of a failure reported with nil extra information. */
  function ErrorPayload(message: string): Payload {
    map[StatusKey := JString("ERROR"), MessageKey := JString(message)]
  }

  /** The payload of a success reported with nil extra information. */
  function OkPayload(): Payload {
    map[StatusKey := JString("OK")]
  }

  /** The payload `setStubEvent` builds from an optional error text and an
      optional handler-supplied map (nil maps start from an empty one). */
  function StubEventPayload(err: Option<string>, info: Option<Payload>): (p: Payload)
    ensures IsOk(p) <==> err.None?
    ensures IsError(p) <==> err.Some?
    ensures err.Some? ==> MessageKey in p && p[MessageKey] == JString(err.value)
    ensures p.Keys == info.GetOr(map[]).Keys + {StatusKey} + (if err.Some? then {MessageKey} else {})
    ensures forall k :: k in info.GetOr(map[]) && k != StatusKey && (err.None? || k != MessageKey)
                        ==> p[k] == info.GetOr(map[])[k]
  {
    var base := if info.None? then map[] else info.value;
    if err.None? then base[StatusKey := JString("OK")]
    else base[StatusKey := JString("ERROR")][MessageKey := JString(err.value)]
  }

  /** Every error call site passes nil info, so an error event carries exactly
      `status` and `message`. */
  lemma ErrorEventHasOnlyStatusAndMessage(message: string)
    ensures StubEventPayload(Some(message), None) == ErrorPayload(message)
    ensures StubEventPayload(Some(message), None).Keys == {StatusKey, MessageKey}
  {
  }

  /** A success with nil info carries only `status`. */
  lemma OkEventWithoutInfo()
    ensures StubEventPayload(None, None) == OkPayload()
    ensures StubEventPayload(None, Some(map[])) == OkPayload()
  {
  }

  /** A success with a handler map `{"x": 1}` yields `{"status": "OK", "x": 1}`. */
  lemma OkEventMergesInfo()
    ensures StubEventPayload(None, Some(map["x" := JNumber(1)]))
         == map[StatusKey := JString("OK"), "x" := JNumber(1)]
  {
  }

  /** `setStubEvent`: appends exactly one result event to the log. */
  function SetStubEvent(log: seq<Event>, err: Option<string>, info: Option<Payload>): (r: seq<Event>)
    ensures |r| == |log| + 1 && r[..|log|] == log
    ensures r[|log|].name == InvokeResultEvent
    ensures IsOk(r[|log|].payload) <==> err.None?
    ensures r[|log|].payload == StubEventPayload(err, info)
  {
    log + [Event(InvokeResultEvent, StubEventPayload(err, info))]
  }
}

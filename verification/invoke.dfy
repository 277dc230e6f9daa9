/** What a registered tool's handler returns for one remote call: the
    remote envelope unwrapped, an unknown body passed through verbatim, or
    a failure turned into data. */
module Invoke {
  import opened Wrappers
  import opened JsValue

  /** The request body the handler posts to the call endpoint. */
  function CallBody(toolName: string, args: Value): (r: Value)
    ensures r.Obj? && r.fields.Keys == {"tool_name", "arguments"}
    ensures r.fields["tool_name"] == Str(toolName) && r.fields["arguments"] == args
  {
    Obj(map["tool_name" := Str(toolName), "arguments" := args])
  }

  /** The three ways a call can end, before the handler shapes its payload. */
  datatype CallOutcome =
    | Envelope(code: Value, data: Value, message: Value)
    | Raw(body: Value)
    | Failed(msg: string)

  /** The body carries a truthy `result` field, the remote's envelope. */
  predicate HasEnvelope(body: Value)
  {
    body.Obj? && "result" in body.fields && Truthy(body.fields["result"])
  }

  /** Classifies the outcome of the remote call (`Failure` carries the
      message of the error the request raised). A body with an envelope
      yields its `code`, `data` and `message` fields; a body that is `null`
      fails on the `result` read, and that TypeError is caught like any
      other; every other body passes through. */
  function Interpret(outcome: Result<Value, string>): (r: CallOutcome)
    ensures outcome.Failure? ==> r == Failed(outcome.error)
    ensures outcome.Success? && HasEnvelope(outcome.value) ==>
              var res := outcome.value.fields["result"];
              r == Envelope(Get(res, "code").value, Get(res, "data").value, Get(res, "message").value)
    ensures r.Envelope? ==> outcome.Success? && HasEnvelope(outcome.value)
    ensures r.Raw? <==> outcome.Success? && !HasEnvelope(outcome.value)
                        && !outcome.value.Null? && !outcome.value.Undefined?
    ensures r.Raw? ==> r.body == outcome.value
  {
    match outcome
    case Failure(msg) => Failed(msg)
    case Success(body) =>
      match Get(body, "result")
      case Failure(e) => Failed(e)
      case Success(res) =>
        if Truthy(res) then
          Envelope(Get(res, "code").value, Get(res, "data").value, Get(res, "message").value)
        else Raw(body)
  }

  /** The handler's return value for a classified outcome. */
  function Payload(c: CallOutcome): (r: Value)
    ensures c.Envelope? ==> r.Obj? && r.fields.Keys == {"success", "code", "message", "data"}
    ensures c.Failed? ==> r.Obj? && r.fields.Keys == {"success", "error"}
    ensures c.Raw? ==> r == c.body
  {
    match c
    case Envelope(code, data, message) =>
      Obj(map["success" := Bool(true), "code" := code, "message" := message, "data" := data])
    case Raw(body) => body
    case Failed(msg) =>
      Obj(map["success" := Bool(false), "error" := Str(msg)])
  }

  /** Reads a handler payload back as the outcome it reports: a `success`
      flag of true with the envelope's three fields, or of false with an
      error text. */
  function ReadPayload(p: Value): Option<CallOutcome>
  {
    if p.Obj? && "success" in p.fields && p.fields["success"] == Bool(true)
       && "code" in p.fields && "data" in p.fields && "message" in p.fields
    then Some(Envelope(p.fields["code"], p.fields["data"], p.fields["message"]))
    else if p.Obj? && "success" in p.fields && p.fields["success"] == Bool(false)
       && "error" in p.fields && p.fields["error"].Str?
    then Some(Failed(p.fields["error"].s))
    else None
  }

  /** Unwrapped envelopes and failures lose nothing: reading the payload
      back gives the outcome it was built from. */
  lemma PayloadRoundTrip(c: CallOutcome)
    requires !c.Raw?
    ensures ReadPayload(Payload(c)) == Some(c)
  {
  }

  /** The handler: never raises, whatever the call did. An envelope becomes
      `{success: true, code, message, data}` with the fields copied
      unchanged; a failure becomes `{success: false, error}`; any other body
      is returned verbatim. */
  function Handle(outcome: Result<Value, string>): (r: Value)
    ensures outcome.Success? && HasEnvelope(outcome.value) ==>
              var res := outcome.value.fields["result"];
              ReadPayload(r) == Some(Envelope(Get(res, "code").value, Get(res, "data").value, Get(res, "message").value))
    ensures outcome.Success? && HasEnvelope(outcome.value) ==>
              r.Obj? && r.fields.Keys == {"success", "code", "message", "data"}
    ensures outcome.Failure? ==> ReadPayload(r) == Some(Failed(outcome.error))
    ensures outcome.Failure? || (outcome.Success? && (outcome.value.Null? || outcome.value.Undefined?)) ==>
              r.Obj? && r.fields.Keys == {"success", "error"}
    ensures outcome.Success? && outcome.value.Null? ==> ReadPayload(r) == Some(Failed(ReadError(Null, "result")))
    ensures outcome.Success? && !HasEnvelope(outcome.value) && !outcome.value.Null? && !outcome.value.Undefined?
            ==> r == outcome.value
  {
    var c := Interpret(outcome);
    if c.Raw? then Payload(c)
    else PayloadRoundTrip(c); Payload(c)
  }

  /** The worked example: an envelope with code 200 and message "ok" is
      returned as a success payload carrying the same code, message and
      data. */
  lemma HandleExample(data: Value)
    ensures Handle(Success(Obj(map["result" := Obj(map["code" := Num(200), "data" := data, "message" := Str("ok")])])))
         == Obj(map["success" := Bool(true), "code" := Num(200), "message" := Str("ok"), "data" := data])
  {
  }
}

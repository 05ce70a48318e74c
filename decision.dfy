/** How `push` turns the server's answer into its result. The service wraps
    its verdict twice: the response body is JSON whose `content.result[0]`
    is a string that is itself JSON, and that inner document's `success`
    field decides. Decoding is done by a library, so it is a parameter here:
    any function from text to a JSON value, or to nothing when the text is
    not JSON. */
module Decision {
  import opened Wrappers
  import opened Json

  /** Why a push failed. The client returns every one of these as the same
      boxed error; they are told apart here only to state which step failed. */
  datatype Failure =
    | Transport            // the GET could not be sent or answered
    | BodyNotJson          // the response body did not decode
    | InnerNotJson         // `content.result[0]` did not decode
    | Rejected(message: string)  // the inner `success` was not the string "ok"

  /** The result of a push. `Panicked` is the panic of the `unwrap`
      on `content.result[0].as_str()` when that value is not a string: the
      calling thread unwinds, and the process ends unless the panic is caught. */
  datatype Outcome = Delivered | Failed(failure: Failure) | Panicked

  /** `["content"]["result"][0]` */
  const ResultPath: seq<Step> := [Key("content"), Key("result"), Index(0)]

  /** The message of the error returned when the server says no. */
  const RejectMessage: string := "push error"

  /** The outcome for a response body (`None` when the request failed in
      transport), decoding both layers with `parse`. */
  function Decide(response: Option<string>, parse: string -> Option<Value>): Outcome
  {
    match response
    case None => Failed(Transport)
    case Some(body) =>
      match parse(body)
      case None => Failed(BodyNotJson)
      case Some(outer) =>
        match Walk(outer, ResultPath).AsStr()
        case None => Panicked
        case Some(encoded) =>
          match parse(encoded)
          case None => Failed(InnerNotJson)
          case Some(inner) =>
            if inner.Field("success").EqualsStr("ok") then Delivered
            else Failed(Rejected(RejectMessage))
  }

  /** Once both layers decode, the push succeeds exactly when the inner
      `success` field is the string "ok"; a missing field or any other value
      is a rejection. */
  lemma DeliveredIffOk(body: string, parse: string -> Option<Value>, outer: Value, encoded: string, inner: Value)
    requires parse(body) == Some(outer)
    requires Walk(outer, ResultPath) == Str(encoded)
    requires parse(encoded) == Some(inner)
    ensures Decide(Some(body), parse) == Delivered <==>
            inner.Object? && "success" in inner.fields && inner.fields["success"] == Str("ok")
    ensures Decide(Some(body), parse) != Delivered ==> Decide(Some(body), parse) == Failed(Rejected(RejectMessage))
  {
  }

  /** A push is delivered only when the request was answered, the body is
      JSON, `content.result[0]` is a string holding JSON, and that inner
      document has `success` equal to "ok". */
  lemma DeliveredOnlyOnOk(response: Option<string>, parse: string -> Option<Value>)
    requires Decide(response, parse) == Delivered
    ensures response.Some? && parse(response.value).Some?
    ensures Walk(parse(response.value).value, ResultPath).Str?
    ensures var encoded := Walk(parse(response.value).value, ResultPath).s;
      parse(encoded).Some? && parse(encoded).value.Field("success") == Str("ok")
  {
  }

  /** Each failure names the first step that went wrong. */
  lemma FailureSteps(response: Option<string>, parse: string -> Option<Value>)
    ensures response.None? ==> Decide(response, parse) == Failed(Transport)
    ensures response.Some? && parse(response.value).None? ==>
      Decide(response, parse) == Failed(BodyNotJson)
    ensures response.Some? && parse(response.value).Some? && !Walk(parse(response.value).value, ResultPath).Str? ==>
      Decide(response, parse) == Panicked
    ensures response.Some? && parse(response.value).Some? && Walk(parse(response.value).value, ResultPath).Str? &&
            parse(Walk(parse(response.value).value, ResultPath).s).None? ==>
      Decide(response, parse) == Failed(InnerNotJson)
  {
  }

  /** A body where any prefix of `content.result[0]` is already missing
      reaches the `unwrap` with `Null` and panics. */
  lemma MissingPathPanics(body: string, parse: string -> Option<Value>, outer: Value, k: nat)
    requires parse(body) == Some(outer)
    requires k <= |ResultPath| && Walk(outer, ResultPath[..k]) == Null
    ensures Decide(Some(body), parse) == Panicked
  {
    assert ResultPath[..k] + ResultPath[k..] == ResultPath;
    MissingPrefix(outer, ResultPath[..k], ResultPath[k..]);
  }

  /** A body without `content`, or whose `content` has no `result`, reaches
      the `unwrap` with `Null` and panics. */
  lemma MissingResultPanics(body: string, parse: string -> Option<Value>, outer: Value)
    requires parse(body) == Some(outer)
    requires outer.Field("content") == Null || outer.Field("content").Field("result") == Null
    ensures Decide(Some(body), parse) == Panicked
  {
  }

  /** The inner document `{"success":"ok"}`, double-encoded inside the body. */
  const OkInner: string := "{\"success\":\"ok\"}"
  /** The inner document `{"success":"false"}`. */
  const FalseInner: string := "{\"success\":\"false\"}"

  /** The body `{"content":{"result":[inner]}}`, decoded. */
  function Envelope(inner: string): Value
  {
    Object(map["content" := Object(map["result" := Array([Str(inner)])])])
  }

  /** The service's well-formed answers: "ok" succeeds, "false" is a rejection. */
  lemma WellFormedAnswers(body: string, parse: string -> Option<Value>)
    ensures parse(body) == Some(Envelope(OkInner)) && parse(OkInner) == Some(Object(map["success" := Str("ok")])) ==>
      Decide(Some(body), parse) == Delivered
    ensures parse(body) == Some(Envelope(FalseInner)) && parse(FalseInner) == Some(Object(map["success" := Str("false")])) ==>
      Decide(Some(body), parse) == Failed(Rejected(RejectMessage))
  {
  }
}

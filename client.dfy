/** The PushDeer client: its configuration, the request `push` sends, and
    the five public send operations, which all go through `push`. */
module Client {
  import opened Wrappers
  import opened Json
  import opened Params
  import opened Decision

  /** A GET request: the URL and the query parameters, before URL-encoding. */
  datatype Request = Request(url: string, query: seq<Param>)

  const DefaultServer: string := "https://api2.pushdeer.com"
  const DefaultEndpoint: string := "/message/push"

  /** A client. The network is a parameter of every send: a function from the
      request to the response body, or to nothing when the request fails. */
  class PushDeer {
    var server: string
    var endpoint: string
    var pushKey: string

    /** `PushDeer::new`: the public server and endpoint, and the given key. */
    constructor (pushKey: string)
      ensures server == DefaultServer
      ensures endpoint == DefaultEndpoint
      ensures this.pushKey == pushKey
    {
      server := DefaultServer;
      endpoint := DefaultEndpoint;
      this.pushKey := pushKey;
    }

    /** `set_server`: points the client at another server and hands it back,
        for chaining; endpoint and key stay as they were. */
    method SetServer(server: string) returns (self: PushDeer)
      modifies this
      ensures self == this
      ensures this.server == server
      ensures endpoint == old(endpoint) && pushKey == old(pushKey)
    {
      this.server := server;
      self := this;
    }

    /** The request URL: the server followed directly by the endpoint, with
        no separator added or removed. */
    function Url(): (u: string)
      reads this
      ensures |u| == |server| + |endpoint|
      ensures u[..|server|] == server && u[|server|..] == endpoint
    {
      server + endpoint
    }

    /** The request `push` sends for these arguments. */
    function RequestFor(text: string, desp: Option<string>, textType: string): Request
      reads this
    {
      Request(Url(), Query(pushKey, text, desp, textType))
    }

    /** `push`: builds the parameter list step by step, sends the GET and
        decides the outcome from the answer. */
    method Push(text: string, desp: Option<string>, textType: string,
                net: Request -> Option<string>, parse: string -> Option<Value>)
      returns (r: Outcome)
      ensures r == Decide(net(RequestFor(text, desp, textType)), parse)
    {
      var d := if desp.Some? then desp.value else "";
      var params := [Param("pushkey", pushKey), Param("text", text)];
      if d != "" {
        params := params + [Param("desp", d)];
      }
      assert params == Query(pushKey, text, desp, "text");
      if textType != "text" {
        params := params + [Param("type", textType)];
      }
      assert params == Query(pushKey, text, desp, textType);
      var response := net(Request(server + endpoint, params));
      r := Decide(response, parse);
    }

    /** `send_text`: the query is exactly `pushkey` and `text`. */
    method SendText(body: string, net: Request -> Option<string>, parse: string -> Option<Value>)
      returns (r: Outcome)
      ensures r == Decide(net(Request(Url(), [Param("pushkey", pushKey), Param("text", body)])), parse)
    {
      r := Push(body, None, "text", net, parse);
      assert Query(pushKey, body, None, "text") == [Param("pushkey", pushKey), Param("text", body)];
    }

    /** `send_text_with_desp`: `desp` is added when non-empty, `type` never. */
    method SendTextWithDesp(body: string, desp: string, net: Request -> Option<string>, parse: string -> Option<Value>)
      returns (r: Outcome)
      ensures r == Decide(net(Request(Url(),
        [Param("pushkey", pushKey), Param("text", body)] + (if desp != "" then [Param("desp", desp)] else []))), parse)
    {
      r := Push(body, Some(desp), "text", net, parse);
      assert Query(pushKey, body, Some(desp), "text")
        == [Param("pushkey", pushKey), Param("text", body)] + (if desp != "" then [Param("desp", desp)] else []);
    }

    /** `send_markdown`: no `desp`, and `type=markdown`. */
    method SendMarkdown(body: string, net: Request -> Option<string>, parse: string -> Option<Value>)
      returns (r: Outcome)
      ensures r == Decide(net(Request(Url(),
        [Param("pushkey", pushKey), Param("text", body), Param("type", "markdown")])), parse)
    {
      r := Push(body, None, "markdown", net, parse);
      assert Query(pushKey, body, None, "markdown")
        == [Param("pushkey", pushKey), Param("text", body), Param("type", "markdown")];
    }

    /** `send_markdown_with_desp`: `desp` when non-empty, then `type=markdown`. */
    method SendMarkdownWithDesp(body: string, desp: string, net: Request -> Option<string>, parse: string -> Option<Value>)
      returns (r: Outcome)
      ensures r == Decide(net(Request(Url(),
        [Param("pushkey", pushKey), Param("text", body)]
        + (if desp != "" then [Param("desp", desp)] else [])
        + [Param("type", "markdown")])), parse)
    {
      r := Push(body, Some(desp), "markdown", net, parse);
    }

    /** `send_image`: the body is the image's URL; no `desp`, and `type=image`. */
    method SendImage(body: string, net: Request -> Option<string>, parse: string -> Option<Value>)
      returns (r: Outcome)
      ensures r == Decide(net(Request(Url(),
        [Param("pushkey", pushKey), Param("text", body), Param("type", "image")])), parse)
    {
      r := Push(body, None, "image", net, parse);
      assert Query(pushKey, body, None, "image")
        == [Param("pushkey", pushKey), Param("text", body), Param("type", "image")];
    }
  }

  /** What each public operation sends, read off the list: text sends never
      carry `type`, markdown sends carry `type=markdown`, and image sends
      carry `type=image` and never `desp`. */
  lemma WrapperParams(pushKey: string, body: string, desp: string)
    ensures Lookup(Query(pushKey, body, None, "text"), "type") == None
    ensures Lookup(Query(pushKey, body, Some(desp), "text"), "type") == None
    ensures Lookup(Query(pushKey, body, None, "text"), "desp") == None
    ensures Lookup(Query(pushKey, body, Some(desp), "text"), "desp") == if desp != "" then Some(desp) else None
    ensures Lookup(Query(pushKey, body, None, "markdown"), "type") == Some("markdown")
    ensures Lookup(Query(pushKey, body, Some(desp), "markdown"), "type") == Some("markdown")
    ensures Lookup(Query(pushKey, body, None, "markdown"), "desp") == None
    ensures Lookup(Query(pushKey, body, Some(desp), "markdown"), "desp") == if desp != "" then Some(desp) else None
    ensures Lookup(Query(pushKey, body, None, "image"), "type") == Some("image")
    ensures Lookup(Query(pushKey, body, None, "image"), "desp") == None
  {
    QueryIsSpecified(pushKey, body, None, "text");
    QueryIsSpecified(pushKey, body, Some(desp), "text");
    QueryIsSpecified(pushKey, body, None, "markdown");
    QueryIsSpecified(pushKey, body, Some(desp), "markdown");
    QueryIsSpecified(pushKey, body, None, "image");
  }
}

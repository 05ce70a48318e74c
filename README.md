# PushDeer client, modelled in Dafny

A model of the Rust client for the PushDeer push-notification service. The
client holds a server URL, an endpoint path and a push key. It sends a
message as one HTTP GET whose query carries the key, the message text, an
optional description (`desp`) and a type tag. It then decides success from
the service's doubly encoded JSON answer. The model covers:

- the client value and its builder step `set_server`;
- the query-parameter list that `push` builds, which is proved equal to an
  independent description of it;
- the request URL;
- the decision of the outcome from the response;
- the five public `send_*` operations.

Files:

- `wrappers.dfy`: `Option`.
- `json.dfy`: a JSON value like serde_json's `Value`, with its indexing
  that never panics. A missing key, an index out of range or a value of the
  wrong kind gives `Null`. Paths of indexing steps come with lemmas.
- `params.dfy`: `Query`, the parameter list. `Specified` describes the list
  without building it. `QueryIsSpecified` and `SpecifiedIsQuery` prove the
  two agree in both directions, so `Specified` fixes the list exactly.
- `decision.dfy`: `Decide`, which maps a response body to the outcome of a
  push, with lemmas for the success condition and for every failure step.
- `client.dfy`: the class `PushDeer`:
  - the constructor (`new`);
  - `SetServer`, which updates a field in place;
  - `Url`;
  - `Push`, which builds the list by conditional appends as the source
    does, sends it and decides;
  - the five send operations. Each one's contract gives the exact query it
    sends.

The network and the JSON decoder are parameters. The network is a function
from a `Request` to the response body, or `None` when the request fails in
transport. The decoder is any function from text to a JSON value, or `None`
when the text is not JSON. The same decoder is used for the response body
and for the string nested inside it.

In these points the code does not do what a robust client would. The model
follows the code:

- A response whose `content.result[0]` is missing or not a string panics
  (an `unwrap` in `src/lib.rs:90`): the calling thread unwinds, and the
  process ends unless the panic is caught. It is not a recoverable
  decode error. The model shows this as the outcome `Panicked`.
- A rejected push returns the fixed message "push error". It does not carry
  the server's response.
- The builder step is named `set_server` and takes the client by value.
- The type tag is a plain string. Any tag other than exactly "text"
  (case-sensitive) is sent as `type`.

## Model

| member | source | states |
|---|---|---|
| `Client.PushDeer.constructor` | src/lib.rs:45-52 | a new client has server `https://api2.pushdeer.com`, endpoint `/message/push` and the given push key |
| `Client.PushDeer.SetServer` | src/lib.rs:54-58 | sets the server to the given one, leaves endpoint and push key unchanged, and returns the same client for chaining |
| `Client.PushDeer.Url` | src/lib.rs:83 | the request URL is the server followed directly by the endpoint: its first part is exactly the server, the rest exactly the endpoint, no separator added or removed |
| `Client.PushDeer.Push` | src/lib.rs:60-98 | the outcome of a push is the decision on what the network answers to the request with URL `Url()` and the parameter list `Query` for the key, text, description and type tag |
| `Client.PushDeer.SendText` | src/lib.rs:101-103 | `send_text` sends exactly `[pushkey, text]`: no `desp`, no `type` |
| `Client.PushDeer.SendTextWithDesp` | src/lib.rs:106-112 | `send_text_with_desp` sends `pushkey`, `text`, then `desp` only when the description is non-empty, and never `type` |
| `Client.PushDeer.SendMarkdown` | src/lib.rs:115-117 | `send_markdown` sends exactly `pushkey`, `text`, `type=markdown` |
| `Client.PushDeer.SendMarkdownWithDesp` | src/lib.rs:120-126 | `send_markdown_with_desp` sends `pushkey`, `text`, `desp` when non-empty, then `type=markdown` |
| `Client.PushDeer.SendImage` | src/lib.rs:129-131 | `send_image` sends exactly `pushkey`, `text` (the image URL), `type=image`: never `desp` |
| `Client.WrapperParams` | src/lib.rs:101-131 | read as a server reads a query: text sends carry no `type`, markdown sends carry `type=markdown`, plain `send_text` and `send_markdown` carry no `desp`, image sends carry `type=image` and no `desp`, and a description shows up only when non-empty |
| `Params.QueryIsSpecified` | src/lib.rs:67-80 | the list built by `push` starts with `pushkey`, then `text`; it repeats no name and uses only `pushkey`, `text`, `desp` and `type`; `desp` appears exactly when the description is present and non-empty, with that value; `type` appears exactly when the tag is not "text", with the tag as value; `desp` comes before `type` |
| `Params.SpecifiedIsQuery` | src/lib.rs:74-80 | conversely, any list meeting that description is the list `push` builds, so the description determines the list with its order |
| `Params.SpecifiedShape` | src/lib.rs:74-80 | a list meeting the description has two to four entries, and every entry after the first two is `desp` or `type` |
| `Params.QueryBounds` | src/lib.rs:74-80 | the list has between two and four entries and never repeats a name |
| `Params.AbsentDescriptionIsEmpty` | src/lib.rs:67-71 | an absent description gives the same list as an empty one, and neither sends `desp` |
| `Decision.DeliveredIffOk` | src/lib.rs:91-97 | once both layers decode, the push succeeds exactly when the inner object's `success` is the string "ok"; a missing field or any other value gives the "push error" rejection |
| `Decision.DeliveredOnlyOnOk` | src/lib.rs:82-97 | a push succeeds only if the request was answered, the body decodes, `content.result[0]` is a string that decodes, and its `success` is "ok" |
| `Decision.FailureSteps` | src/lib.rs:85-91 | a transport failure, an undecodable body, a non-string `content.result[0]` (a panic) and an undecodable inner string each give their own outcome |
| `Decision.MissingPathPanics` | src/lib.rs:90 | if any prefix of the path `content`, `result`, `[0]` already indexes to `Null`, the `unwrap` sees `Null` and the push panics |
| `Decision.MissingResultPanics` | src/lib.rs:90 | a body with no `content`, or whose `content` has no `result`, reaches the `unwrap` with `Null` and panics |
| `Decision.WellFormedAnswers` | src/lib.rs:88-97 | the answer `{"content":{"result":["{\"success\":\"ok\"}"]}}` succeeds and the same with `"false"` is rejected |
| `Json.WalkNull` | src/lib.rs:90 | indexing `Null` by any chain of keys and indices gives `Null` |
| `Json.WalkConcat` | src/lib.rs:90 | indexing by a chain split in two is indexing by the whole chain |
| `Json.MissingPrefix` | src/lib.rs:90 | once a prefix of an indexing chain gives `Null`, the whole chain gives `Null` |

## Left out

- The HTTP client is not modelled: `reqwest::blocking::Client`, `.send()`, and the URL-encoding of the query (`src/lib.rs:73`, `82-85`). The model has the request as a URL and a list of unencoded name/value pairs, and the network as a deterministic function parameter. Any answered request, whatever its HTTP status, gives a body that is then decoded, as in the source; the model does not carry the status code itself.
- JSON decoding (`res.json()` and `serde_json::from_str`, `src/lib.rs:88`, `91`) is an opaque parameter. The decoder itself is not modelled, and JSON numbers are integers rather than serde's integers and floats.
- The `debug!` logging (`src/lib.rs:86`, `89`) is left out. It has no effect on behaviour.
- `Push`: the source returns every failure as one boxed error. The model tells the failing steps apart. It also shows the `unwrap` panic as the value `Panicked`, where the real calling thread would unwind.
- `impl Into<String>` conversions of the arguments are not modelled; the model takes strings directly.
- The send operations are methods rather than functions, because they delegate to `Push`, which is a method.
- `examples/simple.rs` makes live network calls and is not part of this model.
- The unit test of `set_server` (`src/lib.rs:138-143`) is covered by the contract of `SetServer`.

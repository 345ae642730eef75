# RequestBuilderForUnity: request assembly and packet extraction

This project models the core of RequestBuilderForUnity, `Runtime/Request.cs`. It covers three parts:

- **`Request.RequestBuilder`**: a mutable builder. It has a fixed base URL, an overwritable path and a header `Dictionary<string, string>`. Its four terminal calls produce `Request` objects with the methods `GET`, `POST`, `PUT` and `DELETE`.
- **`Request`**: a fixed base URL, path and method, plus a *reference* to the builder's own header dictionary. Each `SendAsync` overload picks a body strategy. The text and JSON overloads (and the struct overload, through JSON) write `Content-Type` into that shared dictionary; the body-less and explicit-handler overloads leave it untouched. Every overload builds the URL `baseUrl + "/" + path` and sets every dictionary entry as a request header.
- **`RequestExtensions.GetPacketAsync`**: turns a completed transport outcome into a `Packet`. The packet has a body only on `Success`.

The header dictionary is the `HeaderDictionary` class, an object holding a `map<string, string>`. The builder and every `Request` it builds hold the same object (`const requestHeaders`). The sharing shows in the contracts: each terminal call ensures `r.requestHeaders == requestHeaders`, and each method that writes headers names that one object in its `modifies` clause. A write through the builder, or through a text or JSON send on any of its requests, changes what every one of them sends next. Header names are exact strings, because the source uses the default case-sensitive comparer.

What a send hands to the transport is the value `Outgoing(url, httpMethod, headers, upload)`. Four library calls are function-valued parameters: UTF-8 encoding (`Encoding.UTF8.GetBytes`), `JToken.ToString`, `JToken.FromObject`, and whether `JToken.Parse` accepts a text (`isJson`). `JToken` is a type parameter.

Modules:
- `Wrappers` (`wrappers.dfy`): `Option`, which stands for a C# reference that may be null.
- `Packets` (`packets.dfy`): `Packet`, the completed outcome and `GetPacket`.
- `Requests` (`requests.dfy`): the dictionary, builder, request, send overloads, URL assembly, and the fold of repeated header writes.
- `RequestUsage` (`usage.dfy`): client methods that show aliasing, overwrites and a full build-and-send chain.

The code has three behaviours worth knowing:
- The builder does not copy its dictionary at a terminal call. Requests from one builder share one live map, and a send's `Content-Type` write is visible to its siblings (`RequestUsage.ContentTypeLeaksToSibling`).
- A packet's `error` is copied as-is on every outcome, including `Success`, where the transport's error may be null. It is not replaced by an empty string.
- A builder whose `SetPath` was never called, or was last called with null, has a null path. C# interpolation renders null as empty, so the URL is `baseUrl + "/"`.

## Model

| member | source | states |
|---|---|---|
| `Packets.GetPacket` | Runtime/Request.cs:36-37 | result, response code and error are copied unchanged; the body is present iff the result is `Success`, and then equals the response text |
| `Packets.FailedPacketIgnoresText` | Runtime/Request.cs:36 | on a non-success outcome the packet does not depend on the transport's text (no partial body leaks) |
| `Packets.SuccessPacketIsLossless` | Runtime/Request.cs:37 | on `Success` the completed outcome can be rebuilt exactly from its packet |
| `Packets.ExtractAsWritten` | Runtime/Request.cs:30-44 | as written, the caller gets the exception instead of a packet exactly when the exchange succeeded and the body is neither blank (`string.IsNullOrWhiteSpace`) nor accepted by `JToken.Parse`; in every other case it gets `GetPacket`'s packet |
| `Packets.PlainTextSuccessIsRethrown` | Runtime/Request.cs:119 | a successful exchange with body `OK` that the JSON parser rejects yields no packet as written, while `GetPacket` delivers the body unchanged |
| `Requests.HeaderDictionary.constructor` | Runtime/Request.cs:57 | a new dictionary is empty |
| `Requests.HeaderDictionary.Set` | Runtime/Request.cs:63 | the indexer's setter inserts or overwrites exactly one name |
| `Requests.TargetUrl` | Runtime/Request.cs:107 | the URL is the base URL, then one `/`, then the path (empty when null), with nothing else |
| `Requests.TargetUrlKeepsEverySlash` | Runtime/Request.cs:107 | no slash normalisation: the URL's slash count is the base URL's plus one plus the path's |
| `Requests.TargetUrlDeterminesPath` | Runtime/Request.cs:107 | for a fixed base URL, equal URLs mean equal paths |
| `Requests.AccumulateKeys` | Runtime/Request.cs:61-65 | after a series of header writes (`RequestUsage.AddRequestHeaders` shows `AddRequestHeader` calls produce them), a name is present iff it was present before or was written |
| `Requests.LastWriteWins` | Runtime/Request.cs:61-65 | after a series of `AddRequestHeader` calls, a name holds the value of its last write |
| `Requests.UnwrittenNameUnchanged` | Runtime/Request.cs:61-65 | a name never written keeps its presence and its value |
| `Requests.RequestBuilder.constructor` | Runtime/Request.cs:55-59 | a builder stores the base URL verbatim and starts with a null path and a fresh, empty dictionary |
| `Requests.RequestBuilder.AddRequestHeader` | Runtime/Request.cs:61-65 | the dictionary becomes the old one with `name := value`, nothing else changes, and the builder returns itself |
| `Requests.RequestBuilder.SetPath` | Runtime/Request.cs:67-71 | the path is replaced by the argument, null included, only the path changes (the base URL is a constant), and the builder returns itself |
| `Requests.RequestBuilder.ToGetRequest` | Runtime/Request.cs:73 | a new request with method `GET`, the builder's base URL and current path, and the builder's own dictionary object |
| `Requests.RequestBuilder.ToPostRequest` | Runtime/Request.cs:74 | as above with method `POST` |
| `Requests.RequestBuilder.ToPutRequest` | Runtime/Request.cs:75 | as above with method `PUT` |
| `Requests.RequestBuilder.ToDeleteRequest` | Runtime/Request.cs:76 | as above with method `DELETE` |
| `Requests.Request.constructor` | Runtime/Request.cs:86-92 | stores base URL, path and method, and the given dictionary by reference, not a copy |
| `Requests.Request.Builder` | Runtime/Request.cs:51 | a fresh builder for the base URL with no path and no headers |
| `Requests.Request.SendAsync` | Runtime/Request.cs:94 | sends to the target URL with the request's method, every current dictionary entry and no upload; leaves the dictionary untouched |
| `Requests.Request.SendText` | Runtime/Request.cs:95-99 | sets `Content-Type: text/plain` in the shared dictionary, overwriting any earlier value; sends every entry of the updated dictionary and uploads the UTF-8 bytes of the body |
| `Requests.Request.SendJson` | Runtime/Request.cs:101-105 | sets `Content-Type: application/json` in the shared dictionary; sends every entry of the updated dictionary and uploads the UTF-8 bytes of the token's text |
| `Requests.Request.SendValue` | Runtime/Request.cs:100 | a struct is converted by `JToken.FromObject` and then sent as JSON, with the same header effect |
| `Requests.Request.SendWithHandlers` | Runtime/Request.cs:106-107 | the outgoing request has the target URL, the request's method, exactly the dictionary's entries as headers, and the given upload |
| `Requests.Request.SendPrepared` | Runtime/Request.cs:109-113 | after the header loop the request has every dictionary entry, keeps its other headers, and has no header that came from elsewhere; URL, method and upload are unchanged |
| `RequestUsage.HeaderAddedAfterBuildIsShared` | Runtime/Request.cs:73-90 | a header added to the builder after two terminal calls is visible in both requests |
| `RequestUsage.ContentTypeLeaksToSibling` | Runtime/Request.cs:95-113 | a text send on one request leaves `Content-Type: text/plain`, which a later body-less send on a sibling request carries |
| `RequestUsage.AddRequestHeaders` | Runtime/Request.cs:61-65 | a series of `AddRequestHeader` calls leaves the dictionary equal to `Accumulate` of the earlier contents and the writes |
| `RequestUsage.AddTwiceKeepsLater` | Runtime/Request.cs:61-65 | adding one name twice keeps only the later value |
| `RequestUsage.PathLastWins` | Runtime/Request.cs:67-76 | with the path set twice, a fresh builder's DELETE request goes to `baseUrl + "/" + second`, with no headers and no body |
| `RequestUsage.NullPathResets` | Runtime/Request.cs:67-107 | `SetPath(null)` after a real path makes the request go to `baseUrl + "/"` |
| `RequestUsage.PostJson` | Runtime/Request.cs:51-107 | build, set path, add `Authorization`, POST a JSON token: URL `baseUrl/path`, method `POST`, exactly the two headers, and the UTF-8 bytes of the token's text as body |

## Left out

- Requests.Request.SendWithHandlers: takes no download handler. The caller-supplied `DownloadHandler` of `SendAsync(DownloadHandler, UploadHandler)` belongs to the transport. A caller's upload handler is represented only by the bytes it uploads. A file-backed handler, or a handler's own `contentType`, is not modelled.
- The transport is not modelled: `UnityWebRequest`, `SendWebRequest`, `DownloadHandlerBuffer` and `UploadHandlerRaw`. A send ends by returning the prepared `Outgoing` record. The completed outcome is an input (`Packets.Completed`) to `GetPacket`.
- What `SetRequestHeader` does with names or values Unity rejects is not modelled, because it belongs to the transport. Neither is the default content type that an upload handler supplies when no `Content-Type` header is set.
- The cooperative scheduling is not modelled: the `while (!operation.isDone) await UniTask.Yield()` polling loop, the `UniTask.RunOnThreadPool` hop and the `using` disposal. They are concurrency and resource concerns with no logic of their own.
- The `Debug.Log` output is not modelled. The `JToken.Parse` that line 119 evaluates as a `Debug.Log` argument is modelled, by `Packets.ExtractAsWritten`.
- Packets.GetPacket: models extraction with the diagnostic parse contained. As written, `JToken.Parse` runs on every non-blank success body. A body it rejects throws out of the send, and `GetPacketAsync` rethrows instead of returning a packet. That case is modelled separately by `Packets.ExtractAsWritten` (see Findings). The request left undisposed on that path is not modelled.
- The logging in `GetPacketAsync`'s catch is not modelled. Its rethrow is modelled only as the `Rethrown` outcome of `Packets.ExtractAsWritten`, which covers the parse failure at line 119. Faults of the transport and async layers are left out.
- `Encoding.UTF8.GetBytes`, `JToken.ToString`, `JToken.FromObject` and whether `JToken.Parse` accepts a text (`isJson`) are not defined here. They are function parameters, and no property of the encodings or of the JSON grammar is claimed.
- Null inputs other than the path are not modelled. Base URL, header names and values, and text bodies are non-null strings. A null header name (a dictionary exception) and a null text body (an encoding exception, thrown after `Content-Type` has already been written) are left out.
- The `#if UNITASK_SUPPORT && JSON_SUPPORT` compile guard is not modelled.

## Findings

| source | as written | input that shows it | evidently intended | confidence | as-written member | corrected member |
|---|---|---|---|---|---|---|
| Runtime/Request.cs:119 | after a successful exchange, the diagnostic log parses every non-blank body with `JToken.Parse` outside any handler; a parse failure faults the send, and `GetPacketAsync` (lines 39-43) rethrows it, so no packet is returned | a `Success` exchange with response code 200 whose body is the plain text `OK` | a diagnostic parse failure is contained, and the caller gets `Packet(Success, 200, error, "OK")` | high, not executed | `Packets.ExtractAsWritten` with `Packets.PlainTextSuccessIsRethrown` | `Packets.GetPacket` |

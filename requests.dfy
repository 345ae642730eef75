/**
  Request assembly: `Request.RequestBuilder`, `Request` and its `SendAsync`
  overloads, up to the point where the fully prepared request is handed to
  the transport. What leaves the core is an `Outgoing` record.
 */
module Requests {
  import opened Wrappers

  type Bytes = seq<bv8>

  const ContentType: string := "Content-Type"
  const TextPlain: string := "text/plain"
  const ApplicationJson: string := "application/json"

  /**
    A `Dictionary<string, string>` with the default (ordinal, case-sensitive)
    comparer. It is an object, so every holder of a reference sees every write.
   */
  class HeaderDictionary {
    var entries: map<string, string>

    constructor ()
      ensures entries == map[]
    {
      entries := map[];
    }

    /** The indexer's setter: inserts the name, or overwrites its value. */
    method Set(name: string, value: string)
      modifies this
      ensures entries == old(entries)[name := value]
    {
      entries := entries[name := value];
    }
  }

  /**
    A request as it is handed to the transport: the target URL, the method,
    the headers set on it, and the bytes of its upload handler (null when the
    request has none). The download handler belongs to the transport and is
    not part of this record.
   */
  datatype Outgoing = Outgoing(url: string, httpMethod: string, headers: map<string, string>, upload: Option<Bytes>)

  /** C# string interpolation renders a null string as the empty string. */
  function Interpolated(s: Option<string>): string
  {
    if s.Some? then s.value else ""
  }

  /**
    The target URL `$"{baseUrl}/{path}"`: the base URL, one slash and the
    path, nothing added, removed or normalised.
   */
  function TargetUrl(baseUrl: string, path: Option<string>): (url: string)
    ensures |url| == |baseUrl| + 1 + |Interpolated(path)|
    ensures url[..|baseUrl|] == baseUrl
    ensures url[|baseUrl|] == '/'
    ensures url[|baseUrl| + 1..] == Interpolated(path)
    ensures path.None? ==> url == baseUrl + "/"
  {
    baseUrl + "/" + Interpolated(path)
  }

  /** Number of occurrences of `c` in `s`. */
  function Occurrences(c: char, s: string): nat
  {
    if s == [] then 0 else (if s[0] == c then 1 else 0) + Occurrences(c, s[1..])
  }

  lemma {:induction false} OccurrencesAppend(c: char, a: string, b: string)
    ensures Occurrences(c, a + b) == Occurrences(c, a) + Occurrences(c, b)
  {
    if a != [] {
      assert (a + b)[1..] == a[1..] + b;
      OccurrencesAppend(c, a[1..], b);
    } else {
      assert a + b == b;
    }
  }

  /**
    No slash normalisation: the URL holds every slash of the base URL and of
    the path, plus exactly the one the interpolation puts between them.
   */
  lemma TargetUrlKeepsEverySlash(baseUrl: string, path: Option<string>)
    ensures Occurrences('/', TargetUrl(baseUrl, path))
         == Occurrences('/', baseUrl) + 1 + Occurrences('/', Interpolated(path))
  {
    OccurrencesAppend('/', baseUrl, "/");
    OccurrencesAppend('/', baseUrl + "/", Interpolated(path));
  }

  /** For a fixed base URL, the target URL determines the (interpolated) path. */
  lemma TargetUrlDeterminesPath(baseUrl: string, p: Option<string>, q: Option<string>)
    requires TargetUrl(baseUrl, p) == TargetUrl(baseUrl, q)
    ensures Interpolated(p) == Interpolated(q)
  {
  }

  /**
    The dictionary contents after `AddRequestHeader` has been called with each
    pair of `writes` in turn, starting from `start`.
   */
  ghost function Accumulate(start: map<string, string>, writes: seq<(string, string)>): map<string, string>
  {
    if writes == [] then start
    else Accumulate(start, writes[..|writes| - 1])[writes[|writes| - 1].0 := writes[|writes| - 1].1]
  }

  /** A name is present after a series of writes exactly when it was present before or was written. */
  lemma {:induction false} AccumulateKeys(start: map<string, string>, writes: seq<(string, string)>, name: string)
    ensures name in Accumulate(start, writes) <==>
            name in start || exists i :: 0 <= i < |writes| && writes[i].0 == name
  {
    if writes != [] {
      var n := |writes| - 1;
      AccumulateKeys(start, writes[..n], name);
      if exists i :: 0 <= i < n && writes[..n][i].0 == name {
        var i :| 0 <= i < n && writes[..n][i].0 == name;
        assert writes[i].0 == name;
      }
      if exists i :: 0 <= i < |writes| && writes[i].0 == name {
        var i :| 0 <= i < |writes| && writes[i].0 == name;
        if i < n { assert writes[..n][i].0 == name; }
      }
    }
  }

  /** Last write wins: a name holds the value of the last write to it, whatever came before. */
  lemma {:induction false} LastWriteWins(start: map<string, string>, writes: seq<(string, string)>, i: nat)
    requires i < |writes|
    requires forall j :: i < j < |writes| ==> writes[j].0 != writes[i].0
    ensures writes[i].0 in Accumulate(start, writes)
    ensures Accumulate(start, writes)[writes[i].0] == writes[i].1
  {
    var n := |writes| - 1;
    if i < n {
      assert writes[..n][i] == writes[i];
      LastWriteWins(start, writes[..n], i);
    }
  }

  /** A name never written keeps its presence and its value. */
  lemma {:induction false} UnwrittenNameUnchanged(start: map<string, string>, writes: seq<(string, string)>, name: string)
    requires forall j :: 0 <= j < |writes| ==> writes[j].0 != name
    ensures name in Accumulate(start, writes) <==> name in start
    ensures name in start ==> Accumulate(start, writes)[name] == start[name]
  {
    if writes != [] {
      var n := |writes| - 1;
      assert writes[n].0 != name;
      assert forall j :: 0 <= j < n ==> writes[..n][j] == writes[j];
      UnwrittenNameUnchanged(start, writes[..n], name);
    }
  }

  /**
    `Request.RequestBuilder`: a fixed base URL, an overwritable path (null until
    `SetPath` is called) and the header dictionary it accumulates into. Every
    request it builds is handed that same dictionary object.
   */
  class RequestBuilder {
    const baseUrl: string
    var path: Option<string>
    const requestHeaders: HeaderDictionary

    constructor (baseUrl: string)
      ensures this.baseUrl == baseUrl && path == None
      ensures fresh(requestHeaders) && requestHeaders.entries == map[]
    {
      this.baseUrl := baseUrl;
      path := None;
      requestHeaders := new HeaderDictionary();
    }

    /** Writes one header into the builder's dictionary; only that name changes. */
    method AddRequestHeader(requestHeader: (string, string)) returns (self: RequestBuilder)
      modifies requestHeaders
      ensures self == this
      ensures requestHeaders.entries == old(requestHeaders.entries)[requestHeader.0 := requestHeader.1]
    {
      requestHeaders.Set(requestHeader.0, requestHeader.1);
      self := this;
    }

    /**
      Replaces the path, null included (a null path interpolates as empty);
      the base URL and the headers are untouched.
     */
    method SetPath(path: Option<string>) returns (self: RequestBuilder)
      modifies this`path
      ensures self == this && this.path == path
    {
      this.path := path;
      self := this;
    }

    method ToGetRequest() returns (r: Request)
      ensures fresh(r)
      ensures r.baseUrl == baseUrl && r.path == path && r.httpMethod == "GET"
      ensures r.requestHeaders == requestHeaders
    {
      r := new Request(baseUrl, path, requestHeaders, "GET");
    }

    method ToPostRequest() returns (r: Request)
      ensures fresh(r)
      ensures r.baseUrl == baseUrl && r.path == path && r.httpMethod == "POST"
      ensures r.requestHeaders == requestHeaders
    {
      r := new Request(baseUrl, path, requestHeaders, "POST");
    }

    method ToPutRequest() returns (r: Request)
      ensures fresh(r)
      ensures r.baseUrl == baseUrl && r.path == path && r.httpMethod == "PUT"
      ensures r.requestHeaders == requestHeaders
    {
      r := new Request(baseUrl, path, requestHeaders, "PUT");
    }

    method ToDeleteRequest() returns (r: Request)
      ensures fresh(r)
      ensures r.baseUrl == baseUrl && r.path == path && r.httpMethod == "DELETE"
      ensures r.requestHeaders == requestHeaders
    {
      r := new Request(baseUrl, path, requestHeaders, "DELETE");
    }
  }

  /**
    `Request`: base URL, path and method fixed at construction, and a
    reference to a header dictionary that is not copied, so it stays shared
    with the builder (and its other requests) and is written by the text and
    JSON sends.
   */
  class Request {
    const baseUrl: string
    const path: Option<string>
    const requestHeaders: HeaderDictionary
    const httpMethod: string

    constructor (baseUrl: string, path: Option<string>, requestHeaders: HeaderDictionary, httpMethod: string)
      ensures this.baseUrl == baseUrl && this.path == path && this.httpMethod == httpMethod
      ensures this.requestHeaders == requestHeaders
    {
      this.baseUrl := baseUrl;
      this.path := path;
      this.requestHeaders := requestHeaders;
      this.httpMethod := httpMethod;
    }

    /** `Request.Builder(baseUrl)`: a new builder with no path and no headers. */
    static method Builder(baseUrl: string) returns (b: RequestBuilder)
      ensures fresh(b) && fresh(b.requestHeaders)
      ensures b.baseUrl == baseUrl && b.path == None && b.requestHeaders.entries == map[]
    {
      b := new RequestBuilder(baseUrl);
    }

    /** `SendAsync()`: no upload, and the headers are left as they are. */
    method SendAsync() returns (sent: Outgoing)
      ensures sent.url == TargetUrl(baseUrl, path) && sent.httpMethod == httpMethod
      ensures sent.headers == requestHeaders.entries
      ensures sent.upload == None
    {
      sent := SendWithHandlers(None);
    }

    /**
      `SendAsync(string body)`: sets `Content-Type: text/plain` in the shared
      dictionary, overwriting any earlier value, and uploads the UTF-8 bytes
      of the body.
     */
    method SendText(body: string, utf8: string -> Bytes) returns (sent: Outgoing)
      modifies requestHeaders
      ensures requestHeaders.entries == old(requestHeaders.entries)[ContentType := TextPlain]
      ensures sent.url == TargetUrl(baseUrl, path) && sent.httpMethod == httpMethod
      ensures sent.headers == requestHeaders.entries
      ensures sent.upload == Some(utf8(body))
    {
      requestHeaders.Set(ContentType, TextPlain);
      sent := SendWithHandlers(Some(utf8(body)));
    }

    /**
      `SendAsync(JToken body)`: sets `Content-Type: application/json` in the
      shared dictionary and uploads the UTF-8 bytes of the token's text.
      `J` stands for `JToken` and `toText` for `JToken.ToString`.
     */
    method SendJson<J>(body: J, toText: J -> string, utf8: string -> Bytes) returns (sent: Outgoing)
      modifies requestHeaders
      ensures requestHeaders.entries == old(requestHeaders.entries)[ContentType := ApplicationJson]
      ensures sent.url == TargetUrl(baseUrl, path) && sent.httpMethod == httpMethod
      ensures sent.headers == requestHeaders.entries
      ensures sent.upload == Some(utf8(toText(body)))
    {
      requestHeaders.Set(ContentType, ApplicationJson);
      sent := SendWithHandlers(Some(utf8(toText(body))));
    }

    /**
      `SendAsync<TPacket>(TPacket packet)`: converts the value with
      `JToken.FromObject` (here `fromObject`) and sends it as JSON.
     */
    method SendValue<T, J>(packet: T, fromObject: T -> J, toText: J -> string, utf8: string -> Bytes)
      returns (sent: Outgoing)
      modifies requestHeaders
      ensures requestHeaders.entries == old(requestHeaders.entries)[ContentType := ApplicationJson]
      ensures sent.url == TargetUrl(baseUrl, path) && sent.httpMethod == httpMethod
      ensures sent.headers == requestHeaders.entries
      ensures sent.upload == Some(utf8(toText(fromObject(packet))))
    {
      sent := SendJson(fromObject(packet), toText, utf8);
    }

    /**
      `SendAsync(DownloadHandler, UploadHandler = default)`: a new request to
      the target URL with this request's method and the given upload, whose
      headers are then set from the dictionary.
     */
    method SendWithHandlers(upload: Option<Bytes>) returns (sent: Outgoing)
      ensures sent.url == TargetUrl(baseUrl, path) && sent.httpMethod == httpMethod
      ensures sent.headers == requestHeaders.entries
      ensures sent.upload == upload
    {
      sent := SendPrepared(Outgoing(TargetUrl(baseUrl, path), httpMethod, map[], upload));
    }

    /**
      `SendAsync(UnityWebRequest)` up to the hand-over to the transport: each
      dictionary entry is set on the request with `SetRequestHeader`, one by
      one in no particular order. Afterwards the request carries every entry
      of the dictionary, keeps the headers it already had under other names,
      and has no other header; URL, method and upload are untouched.
     */
    method SendPrepared(request: Outgoing) returns (sent: Outgoing)
      ensures sent.url == request.url && sent.httpMethod == request.httpMethod && sent.upload == request.upload
      ensures sent.headers.Keys == request.headers.Keys + requestHeaders.entries.Keys
      ensures forall name :: name in requestHeaders.entries ==> sent.headers[name] == requestHeaders.entries[name]
      ensures forall name :: name in request.headers && name !in requestHeaders.entries ==>
                sent.headers[name] == request.headers[name]
    {
      var entries := requestHeaders.entries;
      var pending := entries.Keys;
      sent := request;
      while pending != {}
        invariant pending <= entries.Keys
        invariant sent.url == request.url && sent.httpMethod == request.httpMethod && sent.upload == request.upload
        invariant sent.headers.Keys == request.headers.Keys + (entries.Keys - pending)
        invariant forall name :: name in entries && name !in pending ==> sent.headers[name] == entries[name]
        invariant forall name :: name in request.headers && name !in entries.Keys - pending ==>
                    sent.headers[name] == request.headers[name]
        decreases pending
      {
        var name :| name in pending;
        sent := sent.(headers := sent.headers[name := entries[name]]);
        pending := pending - {name};
      }
    }
  }
}

/**
  Clients of the builder and the requests: what a caller can conclude from
  their contracts alone about shared headers, overwrites and the assembled
  outgoing request.
 */
module RequestUsage {
  import opened Wrappers
  import opened Requests

  /**
    Requests built earlier share the builder's dictionary: a header added to
    the builder after two terminal calls is visible in both requests.
   */
  method HeaderAddedAfterBuildIsShared(b: RequestBuilder, header: (string, string))
    returns (get: Request, post: Request)
    modifies b.requestHeaders
    ensures get.requestHeaders == b.requestHeaders && post.requestHeaders == b.requestHeaders
    ensures header.0 in get.requestHeaders.entries && get.requestHeaders.entries[header.0] == header.1
    ensures header.0 in post.requestHeaders.entries && post.requestHeaders.entries[header.0] == header.1
  {
    get := b.ToGetRequest();
    post := b.ToPostRequest();
    var _ := b.AddRequestHeader(header);
  }

  /**
    A text send on one request leaves `Content-Type: text/plain` in the shared
    dictionary, so a later body-less send on a sibling request carries it.
   */
  method ContentTypeLeaksToSibling(b: RequestBuilder, body: string, utf8: string -> Bytes)
    returns (sent: Outgoing)
    modifies b.requestHeaders
    ensures sent.httpMethod == "GET" && sent.upload == None
    ensures ContentType in sent.headers && sent.headers[ContentType] == TextPlain
    ensures b.requestHeaders.entries == old(b.requestHeaders.entries)[ContentType := TextPlain]
  {
    var post := b.ToPostRequest();
    var get := b.ToGetRequest();
    var _ := post.SendText(body, utf8);
    sent := get.SendAsync();
  }

  /**
    Repeated `AddRequestHeader` calls leave the dictionary as `Accumulate`
    describes, so its last-write-wins lemmas apply to the builder.
   */
  method AddRequestHeaders(b: RequestBuilder, writes: seq<(string, string)>)
    modifies b.requestHeaders
    ensures b.requestHeaders.entries == Accumulate(old(b.requestHeaders.entries), writes)
  {
    var i := 0;
    while i < |writes|
      invariant 0 <= i <= |writes|
      invariant b.requestHeaders.entries == Accumulate(old(b.requestHeaders.entries), writes[..i])
    {
      assert writes[..i + 1][..i] == writes[..i];
      var _ := b.AddRequestHeader(writes[i]);
      i := i + 1;
    }
    assert writes[..i] == writes;
  }

  /** Adding the same name twice keeps only the later value. */
  method AddTwiceKeepsLater(b: RequestBuilder, name: string, first: string, second: string)
    modifies b.requestHeaders
    ensures b.requestHeaders.entries == old(b.requestHeaders.entries)[name := second]
  {
    var self := b.AddRequestHeader((name, first));
    self := self.AddRequestHeader((name, second));
  }

  /**
    A fresh builder whose path is set twice: the request goes to the last
    path, under the base URL given at creation, with no header and no body.
   */
  method PathLastWins(baseUrl: string, first: string, second: string) returns (sent: Outgoing)
    ensures sent == Outgoing(baseUrl + "/" + second, "DELETE", map[], None)
  {
    var b := Request.Builder(baseUrl);
    b := b.SetPath(Some(first));
    b := b.SetPath(Some(second));
    var r := b.ToDeleteRequest();
    sent := r.SendAsync();
  }

  /**
    `SetPath(null)` after a real path resets it: the request goes to the base
    URL followed by a single slash.
   */
  method NullPathResets(baseUrl: string, first: string) returns (sent: Outgoing)
    ensures sent.url == baseUrl + "/"
    ensures sent.httpMethod == "PUT" && sent.headers == map[] && sent.upload == None
  {
    var b := Request.Builder(baseUrl);
    b := b.SetPath(Some(first));
    b := b.SetPath(None);
    var r := b.ToPutRequest();
    sent := r.SendAsync();
  }

  /**
    `Builder(baseUrl).SetPath(path).AddRequestHeader(("Authorization", token))
    .ToPostRequest().SendAsync(body)` with a JSON token body: a POST to
    `baseUrl/path` carrying exactly the authorization and JSON content-type
    headers and the UTF-8 bytes of the token's text.
   */
  method PostJson<J>(baseUrl: string, path: string, token: string, body: J,
                     toText: J -> string, utf8: string -> Bytes) returns (sent: Outgoing)
    ensures sent.url == baseUrl + "/" + path
    ensures sent.httpMethod == "POST"
    ensures sent.headers == map["Authorization" := token, ContentType := ApplicationJson]
    ensures sent.upload == Some(utf8(toText(body)))
  {
    var b := Request.Builder(baseUrl);
    b := b.SetPath(Some(path));
    b := b.AddRequestHeader(("Authorization", token));
    var r := b.ToPostRequest();
    sent := r.SendJson(body, toText, utf8);
  }
}

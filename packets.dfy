/**
  The result value handed to callers once an exchange is over: the `Packet`
  struct and the selection logic of `RequestExtensions.GetPacketAsync`.
  The transport (UnityWebRequest) and the thread-pool hop are not modelled:
  the completed transport outcome is an input record.
 */
module Packets {
  import opened Wrappers

  /** C# `long`, the type of `UnityWebRequest.responseCode`. */
  newtype int64 = x: int | -0x8000_0000_0000_0000 <= x < 0x8000_0000_0000_0000

  /** `UnityWebRequest.Result`. */
  datatype WebResult = InProgress | Success | ConnectionError | ProtocolError | DataProcessingError

  /**
    What a finished `UnityWebRequest` exposes: its result, its response code,
    its error text (null when the transport reports none) and the text of its
    download buffer.
   */
  datatype Completed = Completed(result: WebResult, responseCode: int64, error: Option<string>, text: string)

  /** The `Packet` struct; a null `error` or `body` is `None`. */
  datatype Packet = Packet(result: WebResult, responseCode: int64, error: Option<string>, body: Option<string>)

  /**
    The packet `GetPacketAsync` returns for a completed request: result,
    response code and error are copied unchanged, and the body is the
    downloaded text exactly when the result is `Success`, null otherwise.
   */
  function GetPacket(request: Completed): (p: Packet)
    ensures p.result == request.result
    ensures p.responseCode == request.responseCode
    ensures p.error == request.error
    ensures p.body.Some? <==> request.result == Success
    ensures p.body.Some? ==> p.body.value == request.text
  {
    if request.result != Success then
      Packet(request.result, request.responseCode, request.error, None)
    else
      Packet(request.result, request.responseCode, request.error, Some(request.text))
  }

  /** A failed exchange never leaks its partial text: the packet does not depend on it. */
  lemma FailedPacketIgnoresText(a: Completed, b: Completed)
    requires a.result != Success
    requires a.result == b.result && a.responseCode == b.responseCode && a.error == b.error
    ensures GetPacket(a) == GetPacket(b)
  {
  }

  /** A successful exchange loses nothing: the completed outcome can be rebuilt from its packet. */
  lemma SuccessPacketIsLossless(request: Completed)
    requires request.result == Success
    ensures GetPacket(request).body.Some?
    ensures Completed(GetPacket(request).result, GetPacket(request).responseCode,
                      GetPacket(request).error, GetPacket(request).body.value) == request
  {
  }

  /**
    `char.IsWhiteSpace`: the Unicode space, line and paragraph separators and
    the control characters U+0009 to U+000D and U+0085.
   */
  predicate IsWhiteSpace(c: char)
  {
    || '\U{9}' <= c <= '\U{D}' || c == '\U{20}' || c == '\U{85}' || c == '\U{A0}'
    || c == '\U{1680}' || '\U{2000}' <= c <= '\U{200A}' || c == '\U{2028}' || c == '\U{2029}'
    || c == '\U{202F}' || c == '\U{205F}' || c == '\U{3000}'
  }

  /** `string.IsNullOrWhiteSpace` on a non-null string. */
  predicate IsBlank(s: string)
  {
    forall i :: 0 <= i < |s| ==> IsWhiteSpace(s[i])
  }

  /** What a caller of `GetPacketAsync` receives: a packet, or the rethrown exception. */
  datatype Extraction = Delivered(packet: Packet) | Rethrown

  /**
    Extraction as the code is written. After a successful exchange with a
    non-blank body, the send logs `JToken.Parse(text)`. `isJson` says whether
    that parse accepts the text. When it does not, the parse exception faults
    the send, and `GetPacketAsync` logs and rethrows it, so no packet is
    returned. Otherwise the caller gets `GetPacket`'s packet.
   */
  function ExtractAsWritten(request: Completed, isJson: string -> bool): (e: Extraction)
    ensures e.Rethrown? <==>
            request.result == Success && !IsBlank(request.text) && !isJson(request.text)
    ensures e.Delivered? ==> e.packet == GetPacket(request)
  {
    if request.result == Success && !IsBlank(request.text) && !isJson(request.text) then Rethrown
    else Delivered(GetPacket(request))
  }

  /**
    The uncontained diagnostic parse: a successful exchange whose body is the
    plain text `OK` yields no packet under any parser that rejects `OK`.
    `GetPacket` delivers that body unchanged.
   */
  lemma PlainTextSuccessIsRethrown(isJson: string -> bool)
    requires !isJson("OK")
    ensures ExtractAsWritten(Completed(Success, 200, None, "OK"), isJson) == Rethrown
    ensures GetPacket(Completed(Success, 200, None, "OK")) == Packet(Success, 200, None, Some("OK"))
  {
    assert !IsWhiteSpace("OK"[0]);
  }
}

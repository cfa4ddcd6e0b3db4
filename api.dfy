/** The Portal API client: how a response is classified into a result or an error, and the request
    bodies the worker sends. The HTTP transport is an input: each request function takes what
    `request-promise-native` produced (a response, or the error it rejected with). */
module Api {
  import opened Wrappers
  import opened JsValues
  import opened Foreign

  const ConnectPrefix := "Failed to connect to Portal API service: "
  const RequestFailedPrefix := "Portal API request failed: "
  const UndecodableTail := "Cannot decode error message from server"
  const UndecodableMessage := RequestFailedPrefix + UndecodableTail

  /** A response with the body already parsed as JSON (`json: true`). */
  datatype JsonResponse = JsonResponse(statusCode: int, body: Value)
  /** A response whose body is kept as raw bytes (`encoding: null`). */
  datatype BinaryResponse = BinaryResponse(statusCode: int, body: Bytes)

  /** `requestAsync`: the response is passed through; any transport error is replaced by one whose
      message is the original message behind a fixed prefix, so the original is recoverable. */
  function RequestAsync<T>(transport: Result<T, Error>): (r: Result<T, Error>)
    ensures r.Success? <==> transport.Success?
    ensures r.Success? ==> r.value == transport.value
    ensures r.Failure? ==> r.error.name == "Error" && StartsWith(r.error.message, ConnectPrefix) &&
                           r.error.message[|ConnectPrefix|..] == transport.error.message
  {
    match transport
    case Success(resp) => Success(resp)
    case Failure(err) => Failure(Error("Error", ConnectPrefix + err.message))
  }

  /** The error the server reported in a body, as `Portal API request failed: <name>: <msg>`. */
  function ServerError(body: Value, host: Host): Error {
    Error("Error", RequestFailedPrefix + ToJsString(Get(body, "name"), host.utf8) + ": " +
                   ToJsString(Get(body, "msg"), host.utf8))
  }

  /** `requestJsonAsync`. Reading `body.err` throws on a `null` or missing body. */
  function RequestJson(transport: Result<JsonResponse, Error>, host: Host): (r: Result<Value, Error>)
    ensures transport.Failure? ==> r == Failure(RequestAsync(transport).error)
    ensures transport.Success? && (transport.value.body.Null? || transport.value.body.Undefined?) ==>
              r.Failure? && r.error.name == "TypeError"
    ensures transport.Success? && !(transport.value.body.Null? || transport.value.body.Undefined?) ==>
              (r.Success? <==> !Truthy(Get(transport.value.body, "err")))
    ensures r.Success? ==> transport.Success? && r.value == transport.value.body
    ensures transport.Success? && Truthy(Get(transport.value.body, "err")) ==>
              r == Failure(ServerError(transport.value.body, host))
  {
    match RequestAsync(transport)
    case Failure(err) => Failure(err)
    case Success(resp) =>
      match ReadProp(resp.body, "err")
      case Failure(err) => Failure(err)
      case Success(flag) => if Truthy(flag) then Failure(ServerError(resp.body, host)) else Success(resp.body)
  }

  /** `requestBinaryAsync`. A status other than 200 always fails: with the server's error when
      the body is JSON, with a fixed message when it is not. */
  function RequestBinary(transport: Result<BinaryResponse, Error>, host: Host): (r: Result<Bytes, Error>)
    ensures r.Success? <==> transport.Success? && transport.value.statusCode == 200
    ensures r.Success? ==> r.value == transport.value.body
    ensures transport.Failure? ==> r == Failure(RequestAsync(transport).error)
    ensures transport.Success? && transport.value.statusCode != 200 ==>
      match host.parseJson(transport.value.body)
      case None => r == Failure(Error("Error", UndecodableMessage))
      case Some(b) =>
        if b.Null? || b.Undefined? then r.Failure? && r.error.name == "TypeError"
        else r == Failure(ServerError(b, host))
  {
    match RequestAsync(transport)
    case Failure(err) => Failure(err)
    case Success(resp) =>
      if resp.statusCode == 200 then Success(resp.body)
      else match host.parseJson(resp.body)
        case None => Failure(Error("Error", UndecodableMessage))
        case Some(b) =>
          match ReadProp(b, "name")
          case Failure(err) => Failure(err)
          case Success(_) => Failure(ServerError(b, host))
  }

  /** The fixed "cannot decode" message can never be mistaken for an error the server reported:
      a server error always has a colon right after the name, the fixed tail has none. */
  lemma {:induction false} UndecodableIsDistinct(b: Value, host: Host)
    ensures ServerError(b, host).message != UndecodableMessage
  {
    var name := ToJsString(Get(b, "name"), host.utf8);
    var m := ServerError(b, host).message;
    var k := |RequestFailedPrefix| + |name|;
    assert m[k] == ':';
    if |m| == |UndecodableMessage| && |name| < |UndecodableTail| {
      assert UndecodableMessage[k] == UndecodableTail[|name|];
      TailHasNoColon(|name|);
    }
  }

  lemma TailHasNoColon(i: nat)
    requires i < |UndecodableTail|
    ensures UndecodableTail[i] != ':'
  {
    assert UndecodableTail[i] in UndecodableTail;
    assert ':' !in UndecodableTail;
  }

  /** Every error the two request functions produce is tagged: it is a connection error, an error
      the server reported or could not report, or the TypeError of reading a property of a
      missing body. */
  lemma RequestErrorsAreTagged(tj: Result<JsonResponse, Error>, tb: Result<BinaryResponse, Error>, host: Host)
    ensures var rj := RequestJson(tj, host);
      rj.Failure? ==> StartsWith(rj.error.message, ConnectPrefix) ||
                      StartsWith(rj.error.message, RequestFailedPrefix) || rj.error.name == "TypeError"
    ensures var rb := RequestBinary(tb, host);
      rb.Failure? ==> StartsWith(rb.error.message, ConnectPrefix) ||
                      StartsWith(rb.error.message, RequestFailedPrefix) || rb.error.name == "TypeError"
  {
    var rj := RequestJson(tj, host);
    if rj.Failure? && tj.Success? && rj.error.name != "TypeError" {
      assert rj == Failure(ServerError(tj.value.body, host));
      assert ServerError(tj.value.body, host).message[..|RequestFailedPrefix|] == RequestFailedPrefix;
    }
    var rb := RequestBinary(tb, host);
    if rb.Failure? && tb.Success? && rb.error.name != "TypeError" {
      match host.parseJson(tb.value.body)
      case None =>
      case Some(b) =>
        assert ServerError(b, host).message[..|RequestFailedPrefix|] == RequestFailedPrefix;
    }
  }

  /** A multipart file part: the value and its `filename` and `contentType` options. */
  datatype FilePart = FilePart(value: Value, filename: Value, contentType: string)

  /** The form `compileEnd` posts. */
  datatype CompileEndForm = CompileEndForm(id: Value, token: Value, text: Value, success: string, binary: Option<FilePart>)

  /** `api.compileEnd(id, token, text, success, lzmaBuffer)`. */
  function CompileEndBody(id: Value, token: Value, text: Value, success: Value, lzmaBuffer: Value, host: Host): (r: CompileEndForm)
    ensures r.id == id && r.token == token && r.text == text
    ensures r.success == ToJsString(success, host.utf8)
    ensures r.binary.Some? <==> Truthy(success) && Truthy(lzmaBuffer)
    ensures r.binary.Some? ==> r.binary.value == FilePart(lzmaBuffer, id, "application/x-xz")
  {
    var binary := if Truthy(success) && Truthy(lzmaBuffer)
                  then Some(FilePart(lzmaBuffer, id, "application/x-xz")) else None;
    CompileEndForm(id, token, text, ToJsString(success, host.utf8), binary)
  }

  /** For a boolean flag and a buffer, the server reads the flag back from the `success` field,
      and a binary part is attached exactly when the flag is set. */
  lemma CompileEndFlagReadable(success: bool, buffer: Bytes, id: Value, token: Value, text: Value, host: Host)
    ensures var form := CompileEndBody(id, token, text, Bool(success), Buf(buffer), host);
      (form.success == "true" <==> success) && (form.success == "false" <==> !success) &&
      (form.binary.Some? <==> success) &&
      (success ==> form.binary.value.value == Buf(buffer) && form.binary.value.filename == id)
  {
  }

  /** The JSON body `compileBegin` posts. */
  datatype CompileBeginForm = CompileBeginForm(id: Value, token: Value)
  /** The JSON body `compileError` posts. */
  datatype CompileErrorForm = CompileErrorForm(id: Value, token: Value, text: Value)

  /** The form `roundComplete` posts. */
  datatype RoundCompleteForm = RoundCompleteForm(mid: Value, rid: Value, exitCode: string, log: FilePart)

  /** `api.roundComplete(mid, rid, exitCode, logBuffer)`: the log is always attached, named after
      the round. */
  function RoundCompleteBody(mid: Value, rid: Value, exitCode: Value, logBuffer: Value, host: Host): (r: RoundCompleteForm)
    ensures r.mid == mid && r.rid == rid
    ensures r.exitCode == ToJsString(exitCode, host.utf8)
    ensures r.log == FilePart(logBuffer, rid, "text/plain")
  {
    RoundCompleteForm(mid, rid, ToJsString(exitCode, host.utf8), FilePart(logBuffer, rid, "text/plain"))
  }

  /** An integer exit code survives its trip through the form as text. */
  lemma RoundCompleteExitCodeReadable(mid: Value, rid: Value, code: int, logBuffer: Value, host: Host)
    ensures var s := RoundCompleteBody(mid, rid, Num(code), logBuffer, host).exitCode;
      (s != [] && s[0] == '-' ==> forall k :: 1 <= k < |s| ==> IsDigit(s[k])) &&
      (s != [] && s[0] != '-' ==> forall k :: 0 <= k < |s| ==> IsDigit(s[k])) &&
      ParseDecimal(s) == code
  {
    IntToDecimalRoundTrip(code);
  }
}

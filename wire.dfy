/**
 * What BarcoPulseApiClient._send_request puts on the wire and how it reads the
 * answer back: the JSON-RPC 2.0 request object, the redacted copy that goes to the
 * debug log, the HTTP POST framing, the skip to the first `{` of the reply, and the
 * classification of the decoded reply into a result or an error. Each step is a
 * function of its inputs; the client class in api.dfy strings them together.
 */
module ApiWire {
  import opened Wrappers
  import opened Json
  import opened Exceptions
  import opened Py

  /**
   * Why a client call failed: the exception classes of api.py, plus Python
   * built-in exceptions that no handler in api.py catches.
   */
  datatype ClientError =
    | Timeout(rpc: string)               // BarcoPulseTimeoutError
    | Connection                         // BarcoPulseConnectionError
    | Authentication                     // BarcoPulseAuthenticationError
    | Command(message: Json, code: Json) // BarcoPulseCommandError; code is null for None
    | Api                                // BarcoPulseApiError itself
    | Builtin(e: Exc)                    // a built-in exception that propagates

  const JsonRpcVersion := "2.0"

  // ---------------------------------------------------------------------------
  // Request object (JSON-RPC 2.0 Specification, section 4)
  // ---------------------------------------------------------------------------

  /** The request dict: jsonrpc, method and id, then params only when given. */
  function Envelope(rpc: string, params: Option<Fields>, id: int): Fields {
    var base := [("jsonrpc", JStr(JsonRpcVersion)), ("method", JStr(rpc)), ("id", JInt(id))];
    if params.Some? then base + [("params", JObj(params.value))] else base
  }

  /**
   * Every request carries jsonrpc "2.0", its method and its id, in that order, and
   * a params member exactly when params were given.
   */
  lemma EnvelopeShape(rpc: string, params: Option<Fields>, id: int)
    ensures var r := Envelope(rpc, params, id);
      && Keys(r) == (if params.Some? then ["jsonrpc", "method", "id", "params"] else ["jsonrpc", "method", "id"])
      && Get(r, "jsonrpc") == Some(JStr(JsonRpcVersion))
      && Get(r, "method") == Some(JStr(rpc))
      && Get(r, "id") == Some(JInt(id))
      && (Has(r, "params") <==> params.Some?)
      && (params.Some? ==> Get(r, "params") == Some(JObj(params.value)))
  {
    var r := Envelope(rpc, params, id);
    var tail := r[1..][1..][1..];
    if params.Some? {
      assert tail == [("params", JObj(params.value))];
      assert Get(tail[1..], "params") == None;
    } else {
      assert tail == [];
    }
    assert Get(r[1..][1..], "params") == Get(tail, "params");
    assert Get(r[1..], "params") == Get(tail, "params");
    assert Get(r[1..], "method") == Some(JStr(rpc));
    assert Get(r[1..], "id") == Get(r[1..][1..], "id") == Some(JInt(id));
  }

  /**
   * The copy of the request that is logged: for `authenticate` with params, the
   * params' code is replaced by "REDACTED"; every other request is logged as is.
   */
  function LogCopy(rpc: string, request: Fields): (r: Fields)
    ensures Keys(r) == Keys(request)
    ensures forall k :: k != "params" ==> Get(r, k) == Get(request, k)
    ensures rpc != "authenticate" || !Has(request, "params") ==> r == request
  {
    GetFindsKeys(request, "params");
    if rpc == "authenticate" && Has(request, "params") then
      match Get(request, "params").value
      case JObj(p) => Put(request, "params", JObj(Put(p, "code", JStr("REDACTED"))))
      case other => request
    else request
  }

  /**
   * The logged copy of an authentication request shows "REDACTED" where the code
   * was, keeps every other parameter, and the request itself still carries the code.
   */
  lemma AuthenticateRedacted(params: Fields, id: int)
    requires Has(params, "code")
    ensures var request := Envelope("authenticate", Some(params), id);
      && Get(request, "params") == Some(JObj(params))
      && var logged := LogCopy("authenticate", request);
      && Keys(logged) == Keys(request)
      && Get(logged, "params").Some? && Get(logged, "params").value.JObj?
      && var lp := Get(logged, "params").value.fields;
      && Get(lp, "code") == Some(JStr("REDACTED"))
      && Keys(lp) == Keys(params)
      && forall k :: k != "code" ==> Get(lp, k) == Get(params, k)
  {
    EnvelopeShape("authenticate", Some(params), id);
    GetFindsKeys(params, "code");
  }

  /** A request other than `authenticate` is logged exactly as it is sent. */
  lemma OtherRequestsLoggedVerbatim(rpc: string, params: Option<Fields>, id: int)
    requires rpc != "authenticate"
    ensures LogCopy(rpc, Envelope(rpc, params, id)) == Envelope(rpc, params, id)
  {
    EnvelopeShape(rpc, params, id);
  }

  // ---------------------------------------------------------------------------
  // HTTP framing (Content-Length per section 8.6 of RFC 9110)
  // ---------------------------------------------------------------------------

  const CRLF := "\r\n"
  const RequestHead := "POST / HTTP/1.1" + CRLF + "Host: "
  const TypeAndLength := CRLF + "Content-Type: application/json" + CRLF + "Content-Length: "
  const HeaderEnd := CRLF + CRLF

  /** The text written to the socket for a serialised request `body`. */
  function HttpRequest(host: string, body: string): (r: string)
    ensures |RequestHead| + |HeaderEnd| + |body| <= |r|
    ensures r[..|RequestHead|] == RequestHead
    ensures r[|r| - |body| - |HeaderEnd|..|r| - |body|] == HeaderEnd
    ensures r[|r| - |body|..] == body
  {
    var head := RequestHead + host + TypeAndLength + IntToDecimal(|body|) + HeaderEnd;
    head + body
  }

  /** The first position of `c` in `s`, or `|s|` when there is none. */
  function IndexOf(s: string, c: char): (i: nat)
    ensures i <= |s|
    ensures forall k :: 0 <= k < i ==> s[k] != c
    ensures i < |s| ==> s[i] == c
  {
    if |s| == 0 || s[0] == c then 0 else 1 + IndexOf(s[1..], c)
  }

  /** `s` with the prefix `p` removed, when `s` starts with `p`. */
  function StripPrefix(s: string, p: string): (r: Option<string>)
    ensures r.Some? <==> |p| <= |s| && s[..|p|] == p
    ensures r.Some? ==> s == p + r.value
  {
    if |p| <= |s| && s[..|p|] == p then
      assert s == p + s[|p|..];
      Some(s[|p|..])
    else None
  }

  /** `s` cut before the first `c`. */
  function SplitAt(s: string, c: char): (r: (string, string))
    ensures r.0 + r.1 == s
    ensures forall k :: 0 <= k < |r.0| ==> r.0[k] != c
    ensures |r.1| > 0 ==> r.1[0] == c
  {
    var i := IndexOf(s, c);
    assert s == s[..i] + s[i..];
    (s[..i], s[i..])
  }

  lemma StripPrefixOf(p: string, s: string)
    ensures StripPrefix(p + s, p) == Some(s)
  {
    assert (p + s)[..|p|] == p;
  }

  lemma SplitAtOf(a: string, b: string, c: char)
    requires forall k :: 0 <= k < |a| ==> a[k] != c
    requires |b| > 0 && b[0] == c
    ensures SplitAt(a + b, c) == (a, b)
  {
    assert (a + b)[|a|] == c;
    assert forall k :: 0 <= k < |a| ==> (a + b)[k] == a[k];
    var i := IndexOf(a + b, c);
    assert i == |a|;
    assert (a + b)[..|a|] == a;
    assert (a + b)[|a|..] == b;
  }

  /**
   * How an HTTP server reads the message back: the Host header value and a body
   * whose size is the Content-Length header's value.
   */
  function Deframe(text: string): Option<(string, string)> {
    match StripPrefix(text, RequestHead)
    case None => None
    case Some(a) =>
      var (host, b) := SplitAt(a, '\r');
      match StripPrefix(b, TypeAndLength)
      case None => None
      case Some(c) =>
        match DeframeLength(c)
        case None => None
        case Some(body) => Some((host, body))
  }

  /** The Content-Length value, the blank line, then exactly that many characters of body. */
  function DeframeLength(c: string): Option<string> {
    var (digits, d) := SplitAt(c, '\r');
    match StripPrefix(d, HeaderEnd)
    case None => None
    case Some(body) =>
      if ParseIntLiteral(digits) == Some(|body|) then Some(body) else None
  }

  /** A decimal numeral holds no carriage return. */
  lemma DecimalHasNoCR(n: nat)
    ensures forall k :: 0 <= k < |IntToDecimal(n)| ==> IntToDecimal(n)[k] != '\r'
  {
    var d := IntToDecimal(n);
    forall k | 0 <= k < |d| ensures d[k] != '\r' {
      assert IsDigit(d[k]);
    }
  }

  /**
   * The framing is read back exactly: the Host header is the host and the
   * Content-Length header delimits the whole body, for any host without a CR.
   */
  lemma DeframeHttpRequest(host: string, body: string)
    requires forall k :: 0 <= k < |host| ==> host[k] != '\r'
    ensures Deframe(HttpRequest(host, body)) == Some((host, body))
  {
    var c := IntToDecimal(|body|) + HeaderEnd + body;
    var b := TypeAndLength + c;
    var a := host + b;
    Regroup(RequestHead, host, TypeAndLength, IntToDecimal(|body|), HeaderEnd, body);
    assert HttpRequest(host, body) == RequestHead + a;
    StripPrefixOf(RequestHead, a);
    assert b[0] == '\r';
    SplitAtOf(host, b, '\r');
    StripPrefixOf(TypeAndLength, c);
    DeframeLengthOf(body);
  }

  /** Concatenation regrouped from the left to the right. */
  lemma Regroup(p: string, q: string, r: string, t: string, u: string, v: string)
    ensures p + q + r + t + u + v == p + (q + (r + (t + u + v)))
  {
  }

  /** The announced length is read back and delimits the whole body. */
  lemma DeframeLengthOf(body: string)
    ensures DeframeLength(IntToDecimal(|body|) + HeaderEnd + body) == Some(body)
  {
    var digits := IntToDecimal(|body|);
    var d := HeaderEnd + body;
    assert digits + HeaderEnd + body == digits + d;
    DecimalHasNoCR(|body|);
    assert d[0] == '\r';
    SplitAtOf(digits, d, '\r');
    StripPrefixOf(HeaderEnd, body);
    ParseIntLiteralRoundTrip(|body|);
  }

  /** The number of octets `c` takes in UTF-8. */
  function Utf8Width(c: char): (n: nat)
    ensures 1 <= n <= 4
    ensures n == 1 <==> IsAscii(c)
  {
    if (c as int) < 0x80 then 1 else if (c as int) < 0x800 then 2 else if (c as int) < 0x1_0000 then 3 else 4
  }

  predicate IsAscii(c: char) {
    (c as int) < 0x80
  }

  /** `len(s.encode())`. */
  function Utf8Size(s: string): nat {
    if |s| == 0 then 0 else Utf8Width(s[0]) + Utf8Size(s[1..])
  }

  /** The octet count equals the character count exactly when every character is ASCII. */
  lemma {:induction false} Utf8SizeIsLength(s: string)
    ensures Utf8Size(s) >= |s|
    ensures Utf8Size(s) == |s| <==> forall k :: 0 <= k < |s| ==> IsAscii(s[k])
  {
    if |s| > 0 {
      Utf8SizeIsLength(s[1..]);
      if forall k :: 0 <= k < |s| - 1 ==> IsAscii(s[1..][k]) {
        if IsAscii(s[0]) {
          forall k | 0 <= k < |s| ensures IsAscii(s[k]) {
            if k > 0 { assert s[k] == s[1..][k - 1]; }
          }
        }
      } else {
        var k :| 0 <= k < |s| - 1 && !IsAscii(s[1..][k]);
        assert s[k + 1] == s[1..][k];
      }
    }
  }

  /** json.dumps with its default ensure_ascii: every character it writes is ASCII. */
  ghost predicate DumpsAscii(h: Host) {
    forall j :: forall k :: 0 <= k < |h.dumps(j)| ==> IsAscii(h.dumps(j)[k])
  }

  /**
   * The Content-Length the client announces counts characters; since json.dumps
   * writes only ASCII, it is also the number of octets of the encoded body.
   */
  lemma ContentLengthCountsOctets(h: Host, host: string, request: Json)
    requires DumpsAscii(h)
    requires forall k :: 0 <= k < |host| ==> host[k] != '\r'
    ensures var body := h.dumps(request);
      Deframe(HttpRequest(host, body)) == Some((host, body)) && Utf8Size(body) == |body|
  {
    DeframeHttpRequest(host, h.dumps(request));
    Utf8SizeIsLength(h.dumps(request));
  }

  // ---------------------------------------------------------------------------
  // Reading the reply
  // ---------------------------------------------------------------------------

  function Min(a: int, b: int): int {
    if a < b then a else b
  }

  /**
   * Everything before the first `{` is dropped (HTTP headers, if the projector
   * sent any); a reply without `{` is a command error quoting its first 100
   * characters, with no code.
   */
  function ExtractJson(text: string): (r: Result<string, ClientError>)
    ensures r.Err? <==> '{' !in text
    ensures r.Err? ==> r.error == Command(JStr("No JSON in response: " + text[..Min(100, |text|)]), JNull)
    ensures r.Ok? ==> && 0 < |r.value| <= |text| && r.value[0] == '{'
                      && text[|text| - |r.value|..] == r.value
                      && '{' !in text[..|text| - |r.value|]
  {
    var i := IndexOf(text, '{');
    if i == |text| then
      Err(Command(JStr("No JSON in response: " + text[..Min(100, |text|)]), JNull))
    else
      assert '{' in text;
      Ok(text[i..])
  }

  /** Header lines in front of the JSON text are skipped, whatever they say. */
  lemma ExtractSkipsHeaders(headers: string, json: string)
    requires '{' !in headers
    requires |json| > 0 && json[0] == '{'
    ensures ExtractJson(headers + json) == Ok(json)
  {
    assert forall k :: 0 <= k < |headers| ==> headers[k] != '{';
    assert (headers + json)[|headers|] == '{';
    assert forall k :: 0 <= k < |headers| ==> (headers + json)[k] == headers[k];
    assert (headers + json)[|headers|..] == json;
  }

  /**
   * A decoded reply (JSON-RPC 2.0 Specification, sections 5 and 5.1): an `error`
   * member wins over `result`; its message defaults to "Unknown error" and its code
   * to None. An error that is not an object fails on `.get` with AttributeError.
   */
  function Classify(message: Fields): (r: Result<Json, ClientError>)
    ensures r.Ok? <==> !Has(message, "error") && Has(message, "result")
    ensures r.Ok? ==> Get(message, "result") == Some(r.value)
    ensures Has(message, "error") ==>
      match Get(message, "error").value
      case JObj(e) => r == Err(Command(GetOr(e, "message", JStr("Unknown error")), GetOr(e, "code", JNull)))
      case _ => r == Err(Builtin(AttributeError))
    ensures !Has(message, "error") && !Has(message, "result") ==>
      r == Err(Command(JStr("Invalid response: missing result or error"), JNull))
  {
    if Has(message, "error") then
      match Get(message, "error").value
      case JObj(e) => Err(Command(GetOr(e, "message", JStr("Unknown error")), GetOr(e, "code", JNull)))
      case _ => Err(Builtin(AttributeError))
    else if Has(message, "result") then Ok(Get(message, "result").value)
    else Err(Command(JStr("Invalid response: missing result or error"), JNull))
  }

  /** A success response object (JSON-RPC 2.0 Specification, section 5). */
  function SuccessResponse(id: Json, result: Json): Fields {
    [("jsonrpc", JStr(JsonRpcVersion)), ("result", result), ("id", id)]
  }

  /** An error response object (JSON-RPC 2.0 Specification, section 5.1). */
  function ErrorResponse(id: Json, code: int, message: string): Fields {
    [("jsonrpc", JStr(JsonRpcVersion)), ("error", JObj([("code", JInt(code)), ("message", JStr(message))])), ("id", id)]
  }

  /** The client reads a success response as its result and an error response as a command error. */
  lemma ClassifyResponses(id: Json, result: Json, code: int, message: string)
    ensures Classify(SuccessResponse(id, result)) == Ok(result)
    ensures Classify(ErrorResponse(id, code, message)) == Err(Command(JStr(message), JInt(code)))
  {
    var ok := SuccessResponse(id, result);
    assert ok[1..][1..][1..] == [];
    assert Get(ok[1..][1..], "error") == None;
    assert Get(ok[1..], "error") == None;
    assert Get(ok[1..], "result") == Some(result);
    var err := ErrorResponse(id, code, message);
    assert Get(err[1..], "error").Some?;
    var e := [("code", JInt(code)), ("message", JStr(message))];
    assert Get(e[1..], "message") == Some(JStr(message));
  }

  /** What one round trip over the socket gave: a lost connection, undecodable octets, or text. */
  datatype Exchange =
    | Lost(timedOut: bool)   // open, write or read raised TimeoutError (true) or another OSError
    | Undecodable            // the octets read were not UTF-8
    | Reply(text: string)

  /**
   * The value _send_request returns or the exception it raises, given the
   * exchange: a timeout or another OS error becomes the client's own exception,
   * undecodable octets raise UnicodeDecodeError (a ValueError no handler catches),
   * a reply without `{` or one json.loads rejects is a command error, and a
   * decoded reply is classified.
   */
  function Outcome(h: Host, rpc: string, ex: Exchange): (r: Result<Json, ClientError>)
    ensures r.Err? ==> !r.error.Authentication? && !r.error.Api?
    ensures r.Err? && r.error.Timeout? <==> ex.Lost? && ex.timedOut
    ensures r.Err? && r.error.Timeout? ==> r.error.rpc == rpc
    ensures r.Err? && r.error.Connection? <==> ex.Lost? && !ex.timedOut
    ensures ex.Undecodable? ==> r == Err(Builtin(ValueError))
    ensures ex.Reply? && ExtractJson(ex.text).Err? ==> r == Err(ExtractJson(ex.text).error)
    ensures ex.Reply? && ExtractJson(ex.text).Ok? && h.loadsObject(ExtractJson(ex.text).value).None? ==>
      r == Err(Command(JStr(InvalidJson + h.decodeError(ExtractJson(ex.text).value)), JNull))
    ensures ex.Reply? && ExtractJson(ex.text).Ok? && h.loadsObject(ExtractJson(ex.text).value).Some? ==>
      r == Classify(h.loadsObject(ExtractJson(ex.text).value).value)
    ensures r.Ok? ==> && ex.Reply? && ExtractJson(ex.text).Ok?
                      && h.loadsObject(ExtractJson(ex.text).value).Some?
                      && Classify(h.loadsObject(ExtractJson(ex.text).value).value) == r
  {
    match ex
    case Lost(t) => Err(if t then Timeout(rpc) else Connection)
    case Undecodable => Err(Builtin(ValueError))
    case Reply(text) =>
      match ExtractJson(text)
      case Err(e) => Err(e)
      case Ok(jsonText) =>
        match h.loadsObject(jsonText)
        case None => Err(Command(JStr(InvalidJson + h.decodeError(jsonText)), JNull))
        case Some(message) => Classify(message)
  }

  const InvalidJson := "Invalid JSON response: "

  /**
   * A JSON-RPC error response, behind any header lines, makes _send_request raise
   * BarcoPulseCommandError with the error's message and code; a success response
   * makes it return the result.
   */
  lemma RepliesAfterHeaders(h: Host, rpc: string, headers: string, json: string, id: Json, code: int, message: string, result: Json)
    requires '{' !in headers && |json| > 0 && json[0] == '{'
    ensures h.loadsObject(json) == Some(ErrorResponse(id, code, message)) ==>
      Outcome(h, rpc, Reply(headers + json)) == Err(Command(JStr(message), JInt(code)))
    ensures h.loadsObject(json) == Some(SuccessResponse(id, result)) ==>
      Outcome(h, rpc, Reply(headers + json)) == Ok(result)
  {
    ExtractSkipsHeaders(headers, json);
    ClassifyResponses(id, result, code, message);
  }
}

/**
 * The client of api.py talking to the mock projector of mock_projector.py.
 *
 * As written, the two do not talk: the client frames every request as an HTTP POST
 * (HttpRequest), and the mock hands the whole stripped text to json.loads, which
 * rejects text starting with "POST"; the mock then writes nothing, and the client's
 * read waits until its timeout. The first lemmas below state that.
 *
 * The remaining lemmas follow one request object to a peer that reads the JSON body
 * of the request, as the mock's handle_request does once given the object, and the
 * answer back through the client's classification of the response.
 */
module Interop {
  import opened Wrappers
  import opened Json
  import opened Py
  import opened ApiWire
  import opened ApiClient
  import opened MockProjector
  import Coordinator

  /** The characters a text json.loads accepts can start with ("NaN" and "Infinity" included). */
  const JsonStart: set<char> := {'{', '[', '"', '-', '0', '1', '2', '3', '4', '5', '6', '7', '8', '9', 't', 'f', 'n', 'N', 'I'}

  /** json.loads rejects a text whose first character cannot begin a JSON value. */
  ghost predicate LoadsNeedsJsonStart(h: Host) {
    forall t :: |t| > 0 && t[0] !in JsonStart ==> h.loads(t).None?
  }

  /** strip() keeps a first character that is not white space. */
  lemma StripKeepsFirst(s: string)
    requires |s| > 0 && !IsSpace(s[0])
    ensures |Strip(s)| > 0 && Strip(s)[0] == s[0]
  {
    assert StripLeft(s, IsSpace) == s;
  }

  /**
   * What the client reads back from the mock for one request text: the line
   * data_received writes, or, when it writes none, nothing until the client's
   * read times out.
   */
  function MockExchange(h: Host, props: Fields, text: string): (ex: Exchange)
    ensures ex.Lost? ==> ex.timedOut
    ensures ex.Reply? <==> h.loads(Strip(text)).Some? && Handle(h, props, h.loads(Strip(text)).value).Ok?
  {
    match h.loads(Strip(text))
    case None => Lost(true)
    case Some(request) =>
      match Handle(h, props, request)
      case Err(_) => Lost(true)
      case Ok(e) => Reply(h.dumps(JObj(e.response)) + "\n")
  }

  /**
   * The mock cannot parse any request the client sends: the text starts with the
   * request line "POST", so json.loads of its stripped form fails, and data_received
   * writes nothing and changes nothing.
   */
  lemma FramedRequestUnread(h: Host, host: string, q: Request)
    requires LoadsNeedsJsonStart(h)
    ensures h.loads(Strip(Frame(h, host, q))).None?
  {
    RequestLineFirst(host, h.dumps(JObj(Envelope(q.rpc, q.params, q.id))));
    LoadsRefusesRequestLine(h, Frame(h, host, q));
  }

  /** json.loads refuses any stripped text that starts with the P of a request line. */
  lemma LoadsRefusesRequestLine(h: Host, text: string)
    requires LoadsNeedsJsonStart(h) && |text| > 0 && text[0] == 'P'
    ensures h.loads(Strip(text)).None?
  {
    StripKeepsFirst(text);
    assert Strip(text)[0] !in JsonStart;
  }

  /** A framed request starts with the P of "POST". */
  lemma RequestLineFirst(host: string, body: string)
    ensures |HttpRequest(host, body)| > 0 && HttpRequest(host, body)[0] == 'P'
  {
    var head := "POST / HTTP/1.1" + CRLF;
    assert head[0] == 'P';
    assert RequestHead[0] == 'P';
    var rest := host + TypeAndLength + IntToDecimal(|body|) + HeaderEnd + body;
    assert HttpRequest(host, body) == RequestHead + rest;
  }

  /** So every request the client sends to the mock ends in BarcoPulseTimeoutError. */
  lemma ClientTimesOutOnMock(h: Host, props: Fields, host: string, q: Request)
    requires LoadsNeedsJsonStart(h)
    ensures MockExchange(h, props, Frame(h, host, q)) == Lost(true)
    ensures Sent(h, text => MockExchange(h, props, text), host, q) == Err(Timeout(q.rpc))
  {
    FramedRequestUnread(h, host, q);
  }

  /** What handle_request reads from a client's request object: its method, its params ({} when absent) and its id. */
  lemma EnvelopeRead(rpc: string, params: Option<Fields>, id: int)
    ensures var q := Envelope(rpc, params, id);
      && MethodOf(q) == JStr(rpc) && IdOf(q) == JInt(id)
      && ParamsOf(q) == (if params.Some? then JObj(params.value) else JObj([]))
  {
    EnvelopeShape(rpc, params, id);
  }

  /** get_property of one name, read as bare JSON: the mock answers the table's value (null when absent) and the client returns it. */
  lemma GetOneAnswered(h: Host, props: Fields, name: string, id: int)
    ensures var e := Handle(h, props, JObj(Envelope("property.get", Some(GetParams(One(name))), id)));
      && e.Ok? && e.value.props == props && !e.value.authenticates
      && e.value.response == SuccessResponse(JInt(id), GetOr(props, name, JNull))
      && Classify(e.value.response) == Ok(GetOr(props, name, JNull))
  {
    EnvelopeRead("property.get", Some(GetParams(One(name))), id);
    ClassifyResponses(JInt(id), GetOr(props, name, JNull), 0, "");
  }

  /**
   * get_property of a list of names: the client returns a dict with an entry for
   * exactly the names it asked for, each the table's value or null.
   */
  lemma GetManyAnswered(h: Host, props: Fields, names: seq<string>, id: int, key: string)
    ensures var e := Handle(h, props, JObj(Envelope("property.get", Some(GetParams(Many(names))), id)));
      && e.Ok? && e.value.props == props
      && Classify(e.value.response).Ok? && Classify(e.value.response).value.JObj?
      && Get(Classify(e.value.response).value.fields, key) ==
           (if key in names then Some(GetOr(props, key, JNull)) else None)
  {
    EnvelopeRead("property.get", Some(GetParams(Many(names))), id);
    GetManyOfStrings(h, props, names, key);
    var result := GetMany(h, props, Strings(names)).value;
    ClassifyResponses(JInt(id), JObj(result), 0, "");
  }

  /**
   * authenticate with an integer code: the mock authenticates the connection
   * exactly for 10000..99999 and then answers result 0, which the client reads as
   * bool(0), False; any other code is refused with -32602, which the client raises
   * as an authentication error.
   */
  lemma AuthenticateAnswered(h: Host, props: Fields, code: int, id: int)
    ensures var e := Handle(h, props, JObj(Envelope("authenticate", Some([("code", JInt(code))]), id)));
      && e.Ok? && e.value.props == props
      && (e.value.authenticates <==> AuthCodeMin <= code <= AuthCodeMax)
      && AuthResult(Classify(e.value.response)) ==
           (if AuthCodeMin <= code <= AuthCodeMax then Ok(false) else Err(Authentication))
  {
    var params := [("code", JInt(code))];
    EnvelopeRead("authenticate", Some(params), id);
    assert GetOr(params, "code", JNull) == JInt(code);
    ClassifyResponses(JInt(id), JInt(0), InvalidParams, "Invalid authentication code");
  }

  /**
   * power_on and power_off: the mock answers result 0, which the client takes as
   * success, and the state it then reports is active exactly after power_on.
   */
  lemma PowerAnswered(h: Host, props: Fields, on: bool, id: int)
    requires StateKey in Keys(props)
    ensures var e := Handle(h, props, JObj(Envelope(if on then "system.poweron" else "system.poweroff", None, id)));
      && e.Ok? && Classify(e.value.response) == Ok(JInt(0))
      && Keys(e.value.props) == Keys(props)
      && (Coordinator.IsActive(GetOr(e.value.props, StateKey, JNull)) <==> on)
  {
    var q := Envelope(if on then "system.poweron" else "system.poweroff", None, id);
    EnvelopeRead(if on then "system.poweron" else "system.poweroff", None, id);
    PowerSetsState(h, props, q, StateKey);
    ClassifyResponses(JInt(id), JInt(0), 0, "");
  }

  /**
   * A property.set followed by a property.get of the same name returns the value
   * set, when the table had that name; otherwise the table is unchanged and the
   * get returns what it returned before.
   */
  lemma SetThenGet(h: Host, props: Fields, name: string, value: Json, id1: int, id2: int)
    ensures var s := Handle(h, props, JObj(Envelope("property.set", Some(SetParams(name, value)), id1)));
      && s.Ok? && Classify(s.value.response) == Ok(JInt(0))
      && var g := Handle(h, s.value.props, JObj(Envelope("property.get", Some(GetParams(One(name))), id2)));
         && g.Ok?
         && Classify(g.value.response) == Ok(if Has(props, name) then value else GetOr(props, name, JNull))
  {
    var q := Envelope("property.set", Some(SetParams(name, value)), id1);
    EnvelopeRead("property.set", Some(SetParams(name, value)), id1);
    SetOnlyExisting(h, props, q, name, value, name);
    ClassifyResponses(JInt(id1), JInt(0), 0, "");
    var after := Handle(h, props, JObj(q)).value.props;
    GetOneAnswered(h, after, name, id2);
  }

  /** The mock answers image.source.list with -32601, changing nothing. */
  lemma SourceListRefused(h: Host, props: Fields, id: int)
    ensures Handle(h, props, JObj(Envelope("image.source.list", None, id))) ==
      Ok(Effect(ErrorResponse(JInt(id), MethodNotFound, "Method not found: image.source.list"), props, false))
  {
    var q := Envelope("image.source.list", None, id);
    EnvelopeRead("image.source.list", None, id);
    var rpc := JStr("image.source.list");
    assert MethodOf(q) == rpc;
    assert !Known(rpc) by {
      assert rpc != JStr("authenticate") && rpc != JStr("property.get") && rpc != JStr("property.set");
      assert rpc != JStr("system.poweron") && rpc != JStr("system.poweroff");
    }
    UnknownMethod(h, props, q);
    NotFoundMessage(h);
  }

  lemma NotFoundMessage(h: Host)
    ensures "Method not found: " + StrOf(h, JStr("image.source.list")) == "Method not found: image.source.list"
  {
  }

  /** list_sources asks for image.source.list, which the mock does not know: the client raises -32601. */
  lemma SourceListUnanswered(h: Host, props: Fields, id: int)
    ensures var e := Handle(h, props, JObj(Envelope("image.source.list", None, id)));
      && e.Ok? && e.value.props == props
      && Classify(e.value.response) == Err(Command(JStr("Method not found: image.source.list"), JInt(MethodNotFound)))
  {
    SourceListRefused(h, props, id);
    ClassifyResponses(JInt(id), JNull, MethodNotFound, "Method not found: image.source.list");
  }
}

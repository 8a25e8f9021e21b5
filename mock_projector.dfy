/**
 * The mock projector (scripts/mock_projector.py): a JSON-RPC 2.0 server over a
 * property table shared by every connection (`STATE`) and a per-connection
 * `authenticated` flag. Each request is answered from the table; property.set,
 * system.poweron and system.poweroff change it.
 */
module MockProjector {
  import opened Wrappers
  import opened Json
  import opened Exceptions
  import opened Py
  import opened ApiWire

  /** The table the mock starts with. */
  const InitialState: Fields := [
    ("system.serialnumber", JStr("MOCK123456")),
    ("system.modelname", JStr("Barco Pulse (Mock)")),
    ("system.firmwareversion", JStr("1.0.0-mock")),
    ("system.state", JStr("on")),
    ("image.window.main.source", JStr("DisplayPort 1"))]

  const StateKey := "system.state"

  /** Invalid params and Method not found (JSON-RPC 2.0 Specification, section 5.1). */
  const InvalidParams := -32602
  const MethodNotFound := -32601

  const AuthCodeMin := 10000
  const AuthCodeMax := 99999

  lemma InitialStateHasState()
    ensures StateKey in Keys(InitialState)
  {
    assert Keys(InitialState)[3] == StateKey;
  }

  /**
   * `code and 10000 <= code <= 99999`: a falsy code is refused without a
   * comparison; a truthy code that is not a number makes the comparison raise
   * TypeError.
   */
  function CodeAccepted(code: Json): Result<bool, Exc> {
    if !Truthy(code) then Ok(false)
    else
      match code
      case JInt(i) => Ok(AuthCodeMin <= i <= AuthCodeMax)
      case JFloat(r) => Ok(AuthCodeMin as real <= r <= AuthCodeMax as real)
      case JBool(_) => Ok(false)   // True compares as 1
      case _ => Err(TypeError)
  }

  /** Exactly the numbers from 10000 to 99999 are accepted; a non-numeric code either is refused or raises. */
  lemma CodeAcceptedMeaning(code: Json)
    ensures CodeAccepted(code) == Ok(true) <==>
      (code.JInt? && AuthCodeMin <= code.i <= AuthCodeMax) ||
      (code.JFloat? && AuthCodeMin as real <= code.r <= AuthCodeMax as real)
    ensures CodeAccepted(code).Err? <==> Truthy(code) && (code.JStr? || code.JArr? || code.JObj?)
    ensures CodeAccepted(code).Err? ==> CodeAccepted(code).error == TypeError
  {
  }

  /** `STATE.get(name)`: a list or dict name is unhashable; a name that is not a string is never a key. */
  function Lookup(props: Fields, name: Json): Result<Json, Exc> {
    match name
    case JStr(s) => Ok(GetOr(props, s, JNull))
    case JArr(_) => Err(TypeError)
    case JObj(_) => Err(TypeError)
    case _ => Ok(JNull)
  }

  /** `name in STATE`, as the key it names when it is one. */
  function Present(props: Fields, name: Json): Result<Option<string>, Exc> {
    match name
    case JStr(s) => Ok(if Has(props, s) then Some(s) else None)
    case JArr(_) => Err(TypeError)
    case JObj(_) => Err(TypeError)
    case _ => Ok(None)
  }

  /** The text json.dumps writes for a key of the batch result. */
  function KeyText(h: Host, name: Json): string {
    if name.JStr? then name.s else h.dumps(name)
  }

  /** The batch result dict: `result[prop] = STATE.get(prop)` for each name in turn. */
  function GetMany(h: Host, props: Fields, names: seq<Json>): (r: Result<Fields, Exc>)
    ensures r.Err? ==> r.error == TypeError
    decreases |names|
  {
    if |names| == 0 then Ok([])
    else
      match GetMany(h, props, names[..|names| - 1])
      case Err(e) => Err(e)
      case Ok(acc) =>
        match Lookup(props, names[|names| - 1])
        case Err(e) => Err(e)
        case Ok(v) => Ok(Put(acc, KeyText(h, names[|names| - 1]), v))
  }

  predicate Unhashable(name: Json) {
    name.JArr? || name.JObj?
  }

  /** The batch fails exactly when some name is a list or a dict, and then with TypeError. */
  lemma {:induction false} GetManyFails(h: Host, props: Fields, names: seq<Json>)
    ensures GetMany(h, props, names).Err? <==> exists i :: 0 <= i < |names| && Unhashable(names[i])
    ensures GetMany(h, props, names).Err? ==> GetMany(h, props, names).error == TypeError
    decreases |names|
  {
    if |names| > 0 {
      var init := names[..|names| - 1];
      GetManyFails(h, props, init);
      if exists i :: 0 <= i < |init| && Unhashable(init[i]) {
        var i :| 0 <= i < |init| && Unhashable(init[i]);
        assert names[i] == init[i];
      }
      if exists i :: 0 <= i < |names| && Unhashable(names[i]) {
        var i :| 0 <= i < |names| && Unhashable(names[i]);
        if i < |names| - 1 {
          assert init[i] == names[i];
        }
      }
    }
  }

  /**
   * For a list of strings, the result has an entry for every name requested
   * and no other; each is the table's value, or null for a name the table lacks.
   */
  lemma {:induction false} GetManyOfStrings(h: Host, props: Fields, names: seq<string>, key: string)
    ensures var r := GetMany(h, props, Strings(names));
      r.Ok? && Get(r.value, key) == (if key in names then Some(GetOr(props, key, JNull)) else None)
    decreases |names|
  {
    if |names| > 0 {
      var init, last := names[..|names| - 1], names[|names| - 1];
      GetManyOfStrings(h, props, init, key);
      assert names == init + [last];
      GetManyLastString(h, props, init, last);
      assert key in names <==> key in init || key == last;
    }
  }

  /** One more string name adds its entry to the batch result. */
  lemma GetManyLastString(h: Host, props: Fields, init: seq<string>, last: string)
    requires GetMany(h, props, Strings(init)).Ok?
    ensures GetMany(h, props, Strings(init + [last])) ==
      Ok(Put(GetMany(h, props, Strings(init)).value, last, GetOr(props, last, JNull)))
  {
    var js := Strings(init + [last]);
    assert js[..|js| - 1] == Strings(init);
  }

  /** After an entry that raises, the batch raises the same error whatever follows. */
  lemma {:induction false} GetManyAfterError(h: Host, props: Fields, names: seq<Json>, n: nat)
    requires n <= |names| && GetMany(h, props, names[..n]).Err?
    ensures GetMany(h, props, names) == GetMany(h, props, names[..n])
    decreases |names| - n
  {
    if n < |names| {
      assert names[..n + 1][..n] == names[..n];
      GetManyAfterError(h, props, names, n + 1);
    } else {
      assert names[..n] == names;
    }
  }

  /** The request members handle_request reads. */
  function MethodOf(request: Fields): Json {
    GetOr(request, "method", JNull)
  }

  function ParamsOf(request: Fields): Json {
    GetOr(request, "params", JObj([]))
  }

  function IdOf(request: Fields): Json {
    GetOr(request, "id", JNull)
  }

  /** A handled request: the response dict, the table afterwards, and whether the connection authenticated. */
  datatype Effect = Effect(response: Fields, props: Fields, authenticates: bool)

  /**
   * handle_request. `request` is what json.loads gave; a request or params that
   * is not a dict makes `.get` raise AttributeError, which data_received logs
   * without replying.
   */
  function Handle(h: Host, props: Fields, request: Json): Result<Effect, Exc> {
    if !request.JObj? then Err(AttributeError)
    else
      var rpc := MethodOf(request.fields);
      var params := ParamsOf(request.fields);
      var id := IdOf(request.fields);
      if rpc == JStr("authenticate") then
        if !params.JObj? then Err(AttributeError)
        else
          match CodeAccepted(GetOr(params.fields, "code", JNull))
          case Err(e) => Err(e)
          case Ok(accepted) =>
            if accepted then Ok(Effect(SuccessResponse(id, JInt(0)), props, true))
            else Ok(Effect(ErrorResponse(id, InvalidParams, "Invalid authentication code"), props, false))
      else if rpc == JStr("property.get") then
        if !params.JObj? then Err(AttributeError)
        else
          var name := GetOr(params.fields, "property", JNull);
          if name.JArr? then
            match GetMany(h, props, name.items)
            case Err(e) => Err(e)
            case Ok(result) => Ok(Effect(SuccessResponse(id, JObj(result)), props, false))
          else
            match Lookup(props, name)
            case Err(e) => Err(e)
            case Ok(v) => Ok(Effect(SuccessResponse(id, v), props, false))
      else if rpc == JStr("property.set") then
        if !params.JObj? then Err(AttributeError)
        else
          var name := GetOr(params.fields, "property", JNull);
          var value := GetOr(params.fields, "value", JNull);
          match Present(props, name)
          case Err(e) => Err(e)
          case Ok(key) =>
            Ok(Effect(SuccessResponse(id, JInt(0)), if key.Some? then Put(props, key.value, value) else props, false))
      else if rpc == JStr("system.poweron") then
        Ok(Effect(SuccessResponse(id, JInt(0)), Put(props, StateKey, JStr("on")), false))
      else if rpc == JStr("system.poweroff") then
        Ok(Effect(SuccessResponse(id, JInt(0)), Put(props, StateKey, JStr("standby")), false))
      else
        Ok(Effect(ErrorResponse(id, MethodNotFound, "Method not found: " + StrOf(h, rpc)), props, false))
  }

  /** The methods the mock knows. */
  predicate Known(rpc: Json) {
    rpc in [JStr("authenticate"), JStr("property.get"), JStr("property.set"),
            JStr("system.poweron"), JStr("system.poweroff")]
  }

  lemma SuccessShape(id: Json, result: Json)
    ensures var r := SuccessResponse(id, result);
      Get(r, "jsonrpc") == Some(JStr(JsonRpcVersion)) && Get(r, "id") == Some(id)
      && Get(r, "result") == Some(result) && !Has(r, "error")
  {
    var r := SuccessResponse(id, result);
    assert r[1..][1..][1..] == [];
    assert Get(r[1..][1..], "error") == None;
    assert Get(r[1..], "error") == None;
    assert Get(r[1..], "result") == Some(result);
    assert Get(r[1..], "id") == Get(r[1..][1..], "id") == Some(id);
  }

  lemma ErrorShape(id: Json, code: int, message: string)
    ensures var r := ErrorResponse(id, code, message);
      Get(r, "jsonrpc") == Some(JStr(JsonRpcVersion)) && Get(r, "id") == Some(id)
      && Get(r, "error") == Some(JObj([("code", JInt(code)), ("message", JStr(message))]))
      && !Has(r, "result")
  {
    var r := ErrorResponse(id, code, message);
    assert r[1..][1..][1..] == [];
    assert Get(r[1..][1..], "result") == None;
    assert Get(r[1..], "result") == None;
    assert Get(r[1..], "id") == Get(r[1..][1..], "id") == Some(id);
  }

  /**
   * Every reply carries jsonrpc "2.0", echoes the request's id (null when it had
   * none), and holds either a result or an error: error -32602 only for a refused
   * authentication, error -32601 exactly for an unknown method.
   */
  lemma {:induction false} EveryReplyEchoesId(h: Host, props: Fields, request: Json)
    requires Handle(h, props, request).Ok?
    ensures request.JObj?
    ensures var r := Handle(h, props, request).value.response;
      && Get(r, "jsonrpc") == Some(JStr(JsonRpcVersion))
      && Get(r, "id") == Some(IdOf(request.fields))
      && (Has(r, "result") != Has(r, "error"))
      && (Has(r, "error") ==> Get(r, "error") == Some(JObj([
            ("code", JInt(if Known(MethodOf(request.fields)) then InvalidParams else MethodNotFound)),
            ("message", JStr(if Known(MethodOf(request.fields)) then "Invalid authentication code"
                             else "Method not found: " + StrOf(h, MethodOf(request.fields))))])))
  {
    ResponseForms(h, props, request);
    var id := IdOf(request.fields);
    var rpc := MethodOf(request.fields);
    var r := Handle(h, props, request).value.response;
    if !Known(rpc) {
      ErrorShape(id, MethodNotFound, "Method not found: " + StrOf(h, rpc));
    } else if r == ErrorResponse(id, InvalidParams, "Invalid authentication code") {
      ErrorShape(id, InvalidParams, "Invalid authentication code");
    } else {
      SuccessShape(id, r[1].1);
    }
  }

  /** The three reply forms: a success, the refused authentication, the unknown method. */
  lemma ResponseForms(h: Host, props: Fields, request: Json)
    requires Handle(h, props, request).Ok?
    ensures request.JObj?
    ensures var r := Handle(h, props, request).value.response;
      var id := IdOf(request.fields);
      if Known(MethodOf(request.fields)) then
        r == ErrorResponse(id, InvalidParams, "Invalid authentication code")
        || (|r| == 3 && r == SuccessResponse(id, r[1].1))
      else r == ErrorResponse(id, MethodNotFound, "Method not found: " + StrOf(h, MethodOf(request.fields)))
  {
    var rpc := MethodOf(request.fields);
    var id := IdOf(request.fields);
    var r := Handle(h, props, request).value.response;
    if rpc == JStr("authenticate") {
      assert Known(rpc);
    } else if rpc == JStr("property.get") || rpc == JStr("property.set") {
      assert Known(rpc);
      assert r[1].0 == "result";
    } else if rpc == JStr("system.poweron") || rpc == JStr("system.poweroff") {
      assert Known(rpc);
      assert r == SuccessResponse(id, JInt(0));
    } else {
      assert !Known(rpc);
    }
  }

  /**
   * authenticate succeeds, with result 0, and authenticates the connection
   * exactly when the code is accepted; otherwise it answers -32602 and leaves the
   * connection as it was. The table never changes.
   */
  lemma AuthenticateRule(h: Host, props: Fields, request: Fields, params: Fields)
    requires MethodOf(request) == JStr("authenticate") && ParamsOf(request) == JObj(params)
    requires CodeAccepted(GetOr(params, "code", JNull)).Ok?
    ensures var e := Handle(h, props, JObj(request));
      && e.Ok? && e.value.props == props
      && (e.value.authenticates <==> CodeAccepted(GetOr(params, "code", JNull)) == Ok(true))
      && e.value.response == (if e.value.authenticates then SuccessResponse(IdOf(request), JInt(0))
                              else ErrorResponse(IdOf(request), InvalidParams, "Invalid authentication code"))
  {
  }

  /** Only a successful authenticate authenticates; no other request touches the flag. */
  lemma OnlyAuthenticateAuthenticates(h: Host, props: Fields, request: Json)
    requires Handle(h, props, request).Ok? && Handle(h, props, request).value.authenticates
    ensures request.JObj? && MethodOf(request.fields) == JStr("authenticate")
  {
  }

  /**
   * property.set changes the table only when the key is already in it, and then
   * only that key; the key set is never extended. The reply is result 0 either way.
   */
  lemma SetOnlyExisting(h: Host, props: Fields, request: Fields, name: string, value: Json, other: string)
    requires MethodOf(request) == JStr("property.set")
    requires ParamsOf(request).JObj?
    requires GetOr(ParamsOf(request).fields, "property", JNull) == JStr(name)
    requires GetOr(ParamsOf(request).fields, "value", JNull) == value
    ensures var e := Handle(h, props, JObj(request));
      && e.Ok? && e.value.response == SuccessResponse(IdOf(request), JInt(0))
      && Keys(e.value.props) == Keys(props)
      && (Has(props, name) ==> Get(e.value.props, name) == Some(value))
      && (!Has(props, name) ==> e.value.props == props)
      && (other != name ==> Get(e.value.props, other) == Get(props, other))
  {
    GetFindsKeys(props, name);
  }

  /** system.poweron and system.poweroff set system.state to "on" and "standby" and change nothing else. */
  lemma PowerSetsState(h: Host, props: Fields, request: Fields, other: string)
    requires MethodOf(request) == JStr("system.poweron") || MethodOf(request) == JStr("system.poweroff")
    requires StateKey in Keys(props)
    ensures var e := Handle(h, props, JObj(request));
      && e.Ok? && e.value.response == SuccessResponse(IdOf(request), JInt(0))
      && Get(e.value.props, StateKey) == Some(JStr(if MethodOf(request) == JStr("system.poweron") then "on" else "standby"))
      && Keys(e.value.props) == Keys(props)
      && (other != StateKey ==> Get(e.value.props, other) == Get(props, other))
  {
  }

  /** Any method other than the five gets -32601 "Method not found: <method>" and changes nothing. */
  lemma UnknownMethod(h: Host, props: Fields, request: Fields)
    requires !Known(MethodOf(request))
    ensures Handle(h, props, JObj(request)) ==
      Ok(Effect(ErrorResponse(IdOf(request), MethodNotFound, "Method not found: " + StrOf(h, MethodOf(request))), props, false))
  {
  }

  /** No request adds a key to the table or removes one, as long as it has system.state. */
  lemma HandleKeepsKeys(h: Host, props: Fields, request: Json)
    requires StateKey in Keys(props)
    requires Handle(h, props, request).Ok?
    ensures Keys(Handle(h, props, request).value.props) == Keys(props)
  {
    if request.JObj? && MethodOf(request.fields) == JStr("property.set") {
      var params := ParamsOf(request.fields);
      var name := GetOr(params.fields, "property", JNull);
      if name.JStr? {
        GetFindsKeys(props, name.s);
      }
    }
  }

  /** The module-level `STATE` dict, shared by every connection. */
  class Store {
    var props: Fields

    constructor ()
      ensures props == InitialState
    {
      props := InitialState;
    }

    /** The table keeps the keys it started with. */
    predicate Valid()
      reads this
    {
      Keys(props) == Keys(InitialState)
    }
  }

  /** The batch get loop of property.get, over the table `props`. */
  method BatchGet(h: Host, props: Fields, names: seq<Json>) returns (r: Result<Fields, Exc>)
    ensures r == GetMany(h, props, names)
  {
    var result: Fields := [];
    var i := 0;
    while i < |names|
      invariant 0 <= i <= |names|
      invariant GetMany(h, props, names[..i]) == Ok(result)
    {
      assert names[..i + 1][..i] == names[..i];
      var found := Lookup(props, names[i]);
      if found.Err? {
        GetManyAfterError(h, props, names, i + 1);
        return Err(found.error);
      }
      result := Put(result, KeyText(h, names[i]), found.value);
      i := i + 1;
    }
    assert names[..i] == names;
    r := Ok(result);
  }

  /** One connection to the mock: MockProjectorProtocol. */
  class Protocol {
    const store: Store
    var authenticated: bool

    constructor (store: Store)
      ensures this.store == store && !authenticated
    {
      this.store := store;
      authenticated := false;
    }

    /**
     * handle_request: the reply and the new table are Handle's, whatever the
     * `authenticated` flag says; the flag itself is only ever set, by an accepted
     * authenticate. A request that raises changes nothing.
     */
    method HandleRequest(h: Host, request: Json) returns (r: Result<Fields, Exc>)
      requires store.Valid()
      modifies this, store
      ensures store.Valid()
      ensures var e := Handle(h, old(store.props), request);
        && r == (if e.Ok? then Ok(e.value.response) else Err(e.error))
        && store.props == (if e.Ok? then e.value.props else old(store.props))
        && authenticated == (old(authenticated) || (e.Ok? && e.value.authenticates))
    {
      var props := store.props;
      InitialStateHasState();
      ghost var e := Handle(h, props, request);
      if e.Ok? {
        HandleKeepsKeys(h, props, request);
      }
      if !request.JObj? {
        return Err(AttributeError);
      }
      var rpc := MethodOf(request.fields);
      var params := ParamsOf(request.fields);
      var id := IdOf(request.fields);
      if rpc == JStr("authenticate") {
        if !params.JObj? {
          return Err(AttributeError);
        }
        var accepted := CodeAccepted(GetOr(params.fields, "code", JNull));
        if accepted.Err? {
          return Err(accepted.error);
        }
        if accepted.value {
          authenticated := true;
          return Ok(SuccessResponse(id, JInt(0)));
        }
        return Ok(ErrorResponse(id, InvalidParams, "Invalid authentication code"));
      }
      if rpc == JStr("property.get") {
        if !params.JObj? {
          return Err(AttributeError);
        }
        var name := GetOr(params.fields, "property", JNull);
        if name.JArr? {
          var result := BatchGet(h, props, name.items);
          if result.Err? {
            return Err(result.error);
          }
          return Ok(SuccessResponse(id, JObj(result.value)));
        }
        var found := Lookup(props, name);
        if found.Err? {
          return Err(found.error);
        }
        return Ok(SuccessResponse(id, found.value));
      }
      if rpc == JStr("property.set") {
        if !params.JObj? {
          return Err(AttributeError);
        }
        var name := GetOr(params.fields, "property", JNull);
        var value := GetOr(params.fields, "value", JNull);
        var key := Present(props, name);
        if key.Err? {
          return Err(key.error);
        }
        if key.value.Some? {
          store.props := Put(props, key.value.value, value);
        }
        return Ok(SuccessResponse(id, JInt(0)));
      }
      if rpc == JStr("system.poweron") {
        store.props := Put(props, StateKey, JStr("on"));
        return Ok(SuccessResponse(id, JInt(0)));
      }
      if rpc == JStr("system.poweroff") {
        store.props := Put(props, StateKey, JStr("standby"));
        return Ok(SuccessResponse(id, JInt(0)));
      }
      return Ok(ErrorResponse(id, MethodNotFound, "Method not found: " + StrOf(h, rpc)));
    }

    /**
     * data_received over text already decoded: the stripped text is parsed, and
     * a reply is written, followed by a newline, unless parsing or handling
     * raised (which is logged instead).
     */
    method DataReceived(h: Host, text: string) returns (reply: Option<string>)
      requires store.Valid()
      modifies this, store
      ensures store.Valid()
      ensures var parsed := h.loads(Strip(text));
        && (parsed.None? ==> reply.None? && store.props == old(store.props) && authenticated == old(authenticated))
        && (parsed.Some? ==>
              var e := Handle(h, old(store.props), parsed.value);
              && reply == (if e.Ok? then Some(h.dumps(JObj(e.value.response)) + "\n") else None)
              && store.props == (if e.Ok? then e.value.props else old(store.props))
              && authenticated == (old(authenticated) || (e.Ok? && e.value.authenticates)))
    {
      var request := h.loads(Strip(text));
      if request.None? {
        return None;
      }
      var response := HandleRequest(h, request.value);
      if response.Err? {
        return None;
      }
      reply := Some(h.dumps(JObj(response.value)) + "\n");
    }
  }
}

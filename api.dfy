/**
 * BarcoPulseApiClient: one JSON-RPC request per call over a fresh connection.
 * The client keeps a request-id counter and a `validated` flag; the projector at
 * the other end of the socket is a `Transport`, the exchange that sending a given
 * text produces. The result decoders of get_system_state, get_system_info,
 * list_sources, get_active_source and get_laser_power are functions of the value
 * the projector returned.
 */
module ApiClient {
  import opened Wrappers
  import opened Json
  import opened Exceptions
  import opened Py
  import opened ApiWire

  /** The projector as the socket shows it: the exchange that follows sending a text. */
  type Transport = string -> Exchange

  /** The argument of get_property: a single name, or a list of names. */
  datatype PropertyName = One(name: string) | Many(names: seq<string>)

  /** The params of property.get: `{"property": name-or-list}`. */
  function GetParams(p: PropertyName): (r: Fields)
    ensures Keys(r) == ["property"]
    ensures p.One? ==> Get(r, "property") == Some(JStr(p.name))
    ensures p.Many? ==> Get(r, "property") == Some(JArr(Strings(p.names)))
  {
    match p
    case One(name) => [("property", JStr(name))]
    case Many(names) => [("property", JArr(Strings(names)))]
  }

  /** The params of property.set: `{"property": name, "value": value}`. */
  function SetParams(name: string, value: Json): (r: Fields)
    ensures Keys(r) == ["property", "value"]
    ensures Get(r, "property") == Some(JStr(name)) && Get(r, "value") == Some(value)
  {
    [("property", JStr(name)), ("value", value)]
  }

  /** A request as _send_request issues it: method, params and id. */
  datatype Request = Request(rpc: string, params: Option<Fields>, id: int)

  /** The text written to the socket for a request. */
  function Frame(h: Host, host: string, q: Request): string {
    HttpRequest(host, h.dumps(JObj(Envelope(q.rpc, q.params, q.id))))
  }

  /** The request as the debug log shows it. */
  function Logged(q: Request): Fields {
    LogCopy(q.rpc, Envelope(q.rpc, q.params, q.id))
  }

  /** The value _send_request returns, or the error it raises, for a request. */
  function Sent(h: Host, net: Transport, host: string, q: Request): (r: Result<Json, ClientError>)
    ensures r.Err? ==> !r.error.Authentication? && !r.error.Api?
    ensures r.Err? && r.error.Timeout? <==> net(Frame(h, host, q)) == Lost(true)
    ensures r.Err? && r.error.Timeout? ==> r.error.rpc == q.rpc
    ensures r.Err? && r.error.Connection? <==> net(Frame(h, host, q)) == Lost(false)
    ensures r.Ok? ==> net(Frame(h, host, q)).Reply?
  {
    Outcome(h, q.rpc, net(Frame(h, host, q)))
  }

  /** `authenticate`: bool(result); only a command error becomes an authentication error. */
  function AuthResult(sent: Result<Json, ClientError>): (r: Result<bool, ClientError>)
    ensures r.Ok? <==> sent.Ok?
    ensures r.Ok? ==> r.value == Truthy(sent.value)
    ensures sent.Err? && sent.error.Command? ==> r == Err(Authentication)
    ensures sent.Err? && !sent.error.Command? ==> r == Err(sent.error)
  {
    match sent
    case Ok(v) => Ok(Truthy(v))
    case Err(Command(_, _)) => Err(Authentication)
    case Err(e) => Err(e)
  }

  /** An error raised, or None when the call returned normally. */
  function Raised<T>(r: Result<T, ClientError>): (e: Option<ClientError>)
    ensures e.Some? <==> r.Err?
    ensures e.Some? ==> e.value == r.error
  {
    if r.Err? then Some(r.error) else None
  }

  /** A decoder applied to a result; an error passes through unchanged. */
  function Lift<T>(got: Result<Json, ClientError>, decode: Json -> Result<T, ClientError>): (r: Result<T, ClientError>)
    ensures got.Err? ==> r == Err(got.error)
    ensures got.Ok? ==> r == decode(got.value)
  {
    match got
    case Ok(v) => decode(v)
    case Err(e) => Err(e)
  }

  class Client {
    const host: string
    const port: int
    const authCode: Option<int>
    /** The JSON library and float parser the client runs with. */
    const lib: Host
    var requestId: nat
    var validated: bool
    /** Every request sent so far, in order. */
    ghost var requests: seq<Request>

    /** Request ids run 1, 2, 3, … with no gap, repeat or wrap-around. */
    ghost predicate Valid()
      reads this
    {
      |requests| == requestId && forall k :: 0 <= k < |requests| ==> requests[k].id == k + 1
    }

    constructor (host: string, port: int, authCode: Option<int>, lib: Host)
      ensures Valid()
      ensures this.host == host && this.port == port && this.authCode == authCode && this.lib == lib
      ensures requestId == 0 && !validated && requests == []
    {
      this.host := host;
      this.port := port;
      this.authCode := authCode;
      this.lib := lib;
      requestId := 0;
      validated := false;
      requests := [];
    }

    /** _send_request: the next id, the envelope, the framing, and the decoded reply. */
    method SendRequest(net: Transport, rpc: string, params: Option<Fields>)
      returns (r: Result<Json, ClientError>)
      requires Valid()
      modifies this`requestId, this`requests
      ensures Valid()
      ensures requestId == old(requestId) + 1
      ensures requests == old(requests) + [Request(rpc, params, requestId)]
      ensures r == Sent(lib, net, host, Request(rpc, params, requestId))
    {
      requestId := requestId + 1;
      requests := requests + [Request(rpc, params, requestId)];
      r := Sent(lib, net, host, Request(rpc, params, requestId));
    }

    method Authenticate(net: Transport, code: int) returns (r: Result<bool, ClientError>)
      requires Valid()
      modifies this`requestId, this`requests
      ensures Valid()
      ensures requestId == old(requestId) + 1
      ensures requests == old(requests) + [Request("authenticate", Some([("code", JInt(code))]), requestId)]
      ensures r == AuthResult(Sent(lib, net, host, Request("authenticate", Some([("code", JInt(code))]), requestId)))
    {
      var sent := SendRequest(net, "authenticate", Some([("code", JInt(code))]));
      r := AuthResult(sent);
    }

    method GetProperty(net: Transport, p: PropertyName) returns (r: Result<Json, ClientError>)
      requires Valid()
      modifies this`requestId, this`requests
      ensures Valid()
      ensures requestId == old(requestId) + 1
      ensures requests == old(requests) + [Request("property.get", Some(GetParams(p)), requestId)]
      ensures r == Sent(lib, net, host, Request("property.get", Some(GetParams(p)), requestId))
    {
      r := SendRequest(net, "property.get", Some(GetParams(p)));
    }

    method SetProperty(net: Transport, name: string, value: Json) returns (err: Option<ClientError>)
      requires Valid()
      modifies this`requestId, this`requests
      ensures Valid()
      ensures requestId == old(requestId) + 1
      ensures requests == old(requests) + [Request("property.set", Some(SetParams(name, value)), requestId)]
      ensures err == Raised(Sent(lib, net, host, Request("property.set", Some(SetParams(name, value)), requestId)))
    {
      var r := SendRequest(net, "property.set", Some(SetParams(name, value)));
      err := Raised(r);
    }

    /**
     * connect: a get of system.serialnumber, which sets `validated` when it
     * succeeds, then `authenticate` only when an auth code was configured. Errors
     * propagate unchanged, so a failed authentication leaves `validated` set.
     */
    method Connect(net: Transport) returns (err: Option<ClientError>)
      requires Valid()
      modifies this`requestId, this`requests, this`validated
      ensures Valid()
      ensures var probe := Request("property.get", Some(GetParams(One("system.serialnumber"))), old(requestId) + 1);
        var ok := Sent(lib, net, host, probe).Ok?;
        && validated == (old(validated) || ok)
        && (!ok || authCode.None? ==>
              && requests == old(requests) + [probe]
              && err == Raised(Sent(lib, net, host, probe)))
        && (ok && authCode.Some? ==>
              var auth := Request("authenticate", Some([("code", JInt(authCode.value))]), old(requestId) + 2);
              && requests == old(requests) + [probe, auth]
              && err == Raised(AuthResult(Sent(lib, net, host, auth))))
    {
      var probe := GetProperty(net, One("system.serialnumber"));
      if probe.Err? {
        return Some(probe.error);
      }
      validated := true;
      if authCode.Some? {
        var auth := Authenticate(net, authCode.value);
        err := Raised(auth);
      } else {
        err := None;
      }
    }

    /** disconnect: there is no persistent connection; only `validated` is cleared. */
    method Disconnect()
      modifies this`validated
      ensures !validated
    {
      validated := false;
    }

    method PowerOn(net: Transport) returns (err: Option<ClientError>)
      requires Valid()
      modifies this`requestId, this`requests
      ensures Valid()
      ensures requestId == old(requestId) + 1
      ensures requests == old(requests) + [Request("system.poweron", None, requestId)]
      ensures err == Raised(Sent(lib, net, host, Request("system.poweron", None, requestId)))
    {
      var r := SendRequest(net, "system.poweron", None);
      err := Raised(r);
    }

    method PowerOff(net: Transport) returns (err: Option<ClientError>)
      requires Valid()
      modifies this`requestId, this`requests
      ensures Valid()
      ensures requestId == old(requestId) + 1
      ensures requests == old(requests) + [Request("system.poweroff", None, requestId)]
      ensures err == Raised(Sent(lib, net, host, Request("system.poweroff", None, requestId)))
    {
      var r := SendRequest(net, "system.poweroff", None);
      err := Raised(r);
    }

    method GetSystemState(net: Transport) returns (r: Result<string, ClientError>)
      requires Valid()
      modifies this`requestId, this`requests
      ensures Valid()
      ensures requestId == old(requestId) + 1
      ensures requests == old(requests) + [Request("property.get", Some(GetParams(One("system.state"))), requestId)]
      ensures r == Lift(Sent(lib, net, host, Request("property.get", Some(GetParams(One("system.state"))), requestId)), v => Ok(ValueString(lib, v)))
    {
      var got := GetProperty(net, One("system.state"));
      r := Lift(got, v => Ok(ValueString(lib, v)));
    }

    method GetActiveSource(net: Transport) returns (r: Result<string, ClientError>)
      requires Valid()
      modifies this`requestId, this`requests
      ensures Valid()
      ensures requestId == old(requestId) + 1
      ensures requests == old(requests) + [Request("property.get", Some(GetParams(One("image.window.main.source"))), requestId)]
      ensures r == Lift(Sent(lib, net, host, Request("property.get", Some(GetParams(One("image.window.main.source"))), requestId)), v => Ok(ValueString(lib, v)))
    {
      var got := GetProperty(net, One("image.window.main.source"));
      r := Lift(got, v => Ok(ValueString(lib, v)));
    }

    method SetActiveSource(net: Transport, source: string) returns (err: Option<ClientError>)
      requires Valid()
      modifies this`requestId, this`requests
      ensures Valid()
      ensures requestId == old(requestId) + 1
      ensures requests == old(requests) + [Request("property.set", Some(SetParams("image.window.main.source", JStr(source))), requestId)]
      ensures err == Raised(Sent(lib, net, host, Request("property.set", Some(SetParams("image.window.main.source", JStr(source))), requestId)))
    {
      err := SetProperty(net, "image.window.main.source", JStr(source));
    }

    method GetSystemInfo(net: Transport) returns (r: Result<SystemInfo, ClientError>)
      requires Valid()
      modifies this`requestId, this`requests
      ensures Valid()
      ensures requestId == old(requestId) + 1
      ensures requests == old(requests) + [Request("property.get", Some(GetParams(Many(InfoNames))), requestId)]
      ensures r == Lift(Sent(lib, net, host, Request("property.get", Some(GetParams(Many(InfoNames))), requestId)), SystemInfoSpec)
    {
      var got := GetProperty(net, Many(InfoNames));
      if got.Err? {
        return Err(got.error);
      }
      r := SystemInfoOf(got.value);
    }

    method ListSources(net: Transport) returns (r: Result<seq<Json>, ClientError>)
      requires Valid()
      modifies this`requestId, this`requests
      ensures Valid()
      ensures requestId == old(requestId) + 1
      ensures requests == old(requests) + [Request("image.source.list", None, requestId)]
      ensures r == Lift(Sent(lib, net, host, Request("image.source.list", None, requestId)), SourcesOf)
    {
      var got := SendRequest(net, "image.source.list", None);
      r := Lift(got, SourcesOf);
    }

    method GetLaserPower(net: Transport) returns (r: Result<real, ClientError>)
      requires Valid()
      modifies this`requestId, this`requests
      ensures Valid()
      ensures requestId == old(requestId) + 1
      ensures requests == old(requests) + [Request("property.get", Some(GetParams(One("illumination.sources.laser.power"))), requestId)]
      ensures r == Lift(Sent(lib, net, host, Request("property.get", Some(GetParams(One("illumination.sources.laser.power"))), requestId)), v => LaserPowerOf(lib, v))
    {
      var got := GetProperty(net, One("illumination.sources.laser.power"));
      r := Lift(got, v => LaserPowerOf(lib, v));
    }

    method SetLaserPower(net: Transport, power: real) returns (err: Option<ClientError>)
      requires Valid()
      modifies this`requestId, this`requests
      ensures Valid()
      ensures requestId == old(requestId) + 1
      ensures requests == old(requests) + [Request("property.set", Some(SetParams("illumination.sources.laser.power", JFloat(power))), requestId)]
      ensures err == Raised(Sent(lib, net, host, Request("property.set", Some(SetParams("illumination.sources.laser.power", JFloat(power))), requestId)))
    {
      err := SetProperty(net, "illumination.sources.laser.power", JFloat(power));
    }
  }

  // ---------------------------------------------------------------------------
  // Result decoders
  // ---------------------------------------------------------------------------

  /**
   * get_system_state / get_active_source: str(result["value"]) for a dict holding
   * "value", str(result) for anything else.
   */
  function ValueString(h: Host, result: Json): (r: string)
    ensures result.JObj? && Has(result.fields, "value") ==> r == StrOf(h, Get(result.fields, "value").value)
    ensures !(result.JObj? && Has(result.fields, "value")) ==> r == StrOf(h, result)
  {
    match Member(result, "value")
    case Some(v) => StrOf(h, v)
    case None => StrOf(h, result)
  }

  /** A plain string result and a `{"value": s}` dict both read back as `s`. */
  lemma ValueStringOfText(h: Host, s: string, rest: Fields)
    ensures ValueString(h, JStr(s)) == s
    ensures ValueString(h, JObj([("value", JStr(s))] + rest)) == s
  {
    assert Get([("value", JStr(s))] + rest, "value") == Some(JStr(s));
  }

  const InfoNames := ["system.serialnumber", "system.modelname", "system.firmwareversion"]

  /** What get_system_info returns: serial_number, model_name and firmware_version. */
  datatype SystemInfo = SystemInfo(serialNumber: Json, modelName: Json, firmwareVersion: Json)

  /** An element of the list response that get_system_info reads: a dict with property and value. */
  predicate IsItem(item: Json) {
    item.JObj? && Has(item.fields, "property") && Has(item.fields, "value")
  }

  /** Lists and dicts cannot be dict keys. */
  predicate Hashable(key: Json) {
    !key.JArr? && !key.JObj?
  }

  function ItemKey(item: Json): Json
    requires IsItem(item)
  {
    Get(item.fields, "property").value
  }

  function ItemValue(item: Json): Json
    requires IsItem(item)
  {
    Get(item.fields, "value").value
  }

  /**
   * One turn of the loop: `result[item["property"]] = item["value"]` for a
   * well-formed item. Only string keys are kept, since only string keys are read
   * afterwards; an unhashable key raises TypeError.
   */
  function Step(acc: Fields, item: Json): Result<Fields, ClientError> {
    if !IsItem(item) then Ok(acc)
    else if !Hashable(ItemKey(item)) then Err(Builtin(TypeError))
    else if ItemKey(item).JStr? then Ok(Put(acc, ItemKey(item).s, ItemValue(item)))
    else Ok(acc)
  }

  /** The dict the loop has built after the given items. */
  function Harvest(items: seq<Json>): Result<Fields, ClientError> {
    if |items| == 0 then Ok([])
    else match Harvest(items[..|items| - 1])
      case Err(e) => Err(e)
      case Ok(acc) => Step(acc, items[|items| - 1])
  }

  /** The value of the last well-formed item whose property is `key`. */
  function LastValueFor(items: seq<Json>, key: string): (r: Option<Json>) {
    if |items| == 0 then None
    else
      var item := items[|items| - 1];
      if IsItem(item) && ItemKey(item) == JStr(key) then Some(ItemValue(item))
      else LastValueFor(items[..|items| - 1], key)
  }

  /** Some well-formed item carries a list or a dict as its property. */
  predicate HasUnhashableKey(items: seq<Json>) {
    exists k :: 0 <= k < |items| && BadItem(items[k])
  }

  predicate BadItem(item: Json) {
    IsItem(item) && !Hashable(ItemKey(item))
  }

  /** The loop raises TypeError iff some item has an unhashable property. */
  lemma {:induction false} HarvestFails(items: seq<Json>)
    ensures Harvest(items).Err? <==> HasUnhashableKey(items)
    ensures Harvest(items).Err? ==> Harvest(items).error == Builtin(TypeError)
  {
    if |items| > 0 {
      var init := items[..|items| - 1];
      var last := items[|items| - 1];
      HarvestFails(init);
      assert HasUnhashableKey(items) <==> HasUnhashableKey(init) || BadItem(last) by {
        if HasUnhashableKey(items) {
          var k :| 0 <= k < |items| && BadItem(items[k]);
          if k < |items| - 1 {
            assert init[k] == items[k];
          }
        }
        if HasUnhashableKey(init) {
          var k :| 0 <= k < |init| && BadItem(init[k]);
          assert items[k] == init[k];
        }
      }
    }
  }

  /** When the loop completes, every key maps to the value of the last item naming it. */
  lemma {:induction false} HarvestIsLastValue(items: seq<Json>, key: string)
    requires Harvest(items).Ok?
    ensures Get(Harvest(items).value, key) == LastValueFor(items, key)
  {
    if |items| > 0 {
      HarvestIsLastValue(items[..|items| - 1], key);
    }
  }

  /** The three entries of get_system_info's answer, read from a dict, "" when missing. */
  function InfoFrom(result: Fields): SystemInfo {
    SystemInfo(
      GetOr(result, "system.serialnumber", JStr("")),
      GetOr(result, "system.modelname", JStr("")),
      GetOr(result, "system.firmwareversion", JStr("")))
  }

  /** The three entries, each the value of the last list item naming it, "" when none does. */
  function InfoFromItems(items: seq<Json>): SystemInfo {
    SystemInfo(
      LastValueFor(items, "system.serialnumber").GetOr(JStr("")),
      LastValueFor(items, "system.modelname").GetOr(JStr("")),
      LastValueFor(items, "system.firmwareversion").GetOr(JStr("")))
  }

  /**
   * get_system_info's decoding of the property.get reply: a list goes through the
   * loop, a dict is read directly, missing entries become "", and any other value
   * fails on `.get` with AttributeError.
   */
  function SystemInfoSpec(props: Json): (r: Result<SystemInfo, ClientError>)
    ensures r.Err? <==> !props.JObj? && (!props.JArr? || HasUnhashableKey(props.items))
    ensures r.Err? ==> r.error == (if props.JArr? then Builtin(TypeError) else Builtin(AttributeError))
  {
    match props
    case JArr(items) =>
      HarvestFails(items);
      (match Harvest(items)
       case Err(e) => Err(e)
       case Ok(result) => Ok(InfoFrom(result)))
    case JObj(fields) => Ok(InfoFrom(fields))
    case _ => Err(Builtin(AttributeError))
  }

  /**
   * A list reply fails only on an unhashable property; otherwise each entry is the
   * value of the last item reporting it, or "" when no item does.
   */
  lemma SystemInfoOfList(items: seq<Json>)
    ensures SystemInfoSpec(JArr(items)).Err? <==> HasUnhashableKey(items)
    ensures SystemInfoSpec(JArr(items)).Ok? ==> SystemInfoSpec(JArr(items)).value == InfoFromItems(items)
  {
    HarvestFails(items);
    if Harvest(items).Ok? {
      HarvestIsLastValue(items, "system.serialnumber");
      HarvestIsLastValue(items, "system.modelname");
      HarvestIsLastValue(items, "system.firmwareversion");
    }
  }

  /** The decoding loop of get_system_info. */
  method SystemInfoOf(props: Json) returns (r: Result<SystemInfo, ClientError>)
    ensures r == SystemInfoSpec(props)
  {
    if !props.JArr? {
      if props.JObj? {
        return Ok(InfoFrom(props.fields));
      }
      return Err(Builtin(AttributeError));
    }
    var items := props.items;
    var result: Fields := [];
    var i := 0;
    while i < |items|
      invariant 0 <= i <= |items|
      invariant Harvest(items[..i]) == Ok(result)
    {
      var item := items[i];
      assert items[..i + 1][..i] == items[..i];
      if item.JObj? && Has(item.fields, "property") && Has(item.fields, "value") {
        var key := Get(item.fields, "property").value;
        if key.JArr? || key.JObj? {
          HarvestAfterError(items, i + 1);
          return Err(Builtin(TypeError));
        }
        if key.JStr? {
          result := Put(result, key.s, Get(item.fields, "value").value);
        }
      }
      i := i + 1;
    }
    assert items[..i] == items;
    r := Ok(InfoFrom(result));
  }

  /** Once the loop has raised, the items after it change nothing. */
  lemma {:induction false} HarvestAfterError(items: seq<Json>, n: nat)
    requires n <= |items| && Harvest(items[..n]).Err?
    ensures Harvest(items) == Harvest(items[..n])
    decreases |items| - n
  {
    if n < |items| {
      assert items[..n + 1][..n] == items[..n];
      HarvestAfterError(items, n + 1);
    } else {
      assert items[..n] == items;
    }
  }

  function InfoItem(name: string, value: string): Json {
    JObj([("property", JStr(name)), ("value", JStr(value))])
  }

  /** The list reply of tests/test_api.py:352-356 decodes to the three values of lines 361-365. */
  lemma SystemInfoExample()
    ensures SystemInfoSpec(JArr([
      InfoItem("system.serialnumber", "ABC123456"),
      InfoItem("system.modelname", "Barco Pulse"),
      InfoItem("system.firmwareversion", "1.2.3")]))
      == Ok(SystemInfo(JStr("ABC123456"), JStr("Barco Pulse"), JStr("1.2.3")))
  {
    var items := [
      InfoItem("system.serialnumber", "ABC123456"),
      InfoItem("system.modelname", "Barco Pulse"),
      InfoItem("system.firmwareversion", "1.2.3")];
    forall k | 0 <= k < |items| ensures IsItem(items[k]) && ItemKey(items[k]).JStr? {
    }
    assert !HasUnhashableKey(items);
    SystemInfoOfList(items);
    assert items[..2][..1] == items[..1];
    assert items[..3] == items;
    assert LastValueFor(items, "system.serialnumber") == Some(JStr("ABC123456"));
    assert LastValueFor(items, "system.modelname") == Some(JStr("Barco Pulse"));
    assert LastValueFor(items, "system.firmwareversion") == Some(JStr("1.2.3"));
  }

  /** `list(s)` for a str: its characters, each a one-character str. */
  function Characters(s: string): (r: seq<Json>)
    ensures |r| == |s| && forall i :: 0 <= i < |s| ==> r[i] == JStr([s[i]])
  {
    seq(|s|, i requires 0 <= i < |s| => JStr([s[i]]))
  }

  /**
   * list_sources: `list(sources) if sources else []`. A list is returned as is, a
   * string is split into characters, a dict gives its keys, and a truthy number or
   * boolean is not iterable.
   */
  function SourcesOf(sources: Json): (r: Result<seq<Json>, ClientError>)
    ensures !Truthy(sources) ==> r == Ok([])
    ensures r.Err? <==> Truthy(sources) && (sources.JInt? || sources.JFloat? || sources.JBool?)
    ensures r.Err? ==> r.error == Builtin(TypeError)
    ensures sources.JArr? ==> r == Ok(sources.items)
    ensures sources.JStr? ==>
      && r.Ok? && |r.value| == |sources.s|
      && forall i :: 0 <= i < |sources.s| ==> r.value[i] == JStr([sources.s[i]])
    ensures sources.JObj? ==>
      && r.Ok? && |r.value| == |sources.fields|
      && forall i :: 0 <= i < |sources.fields| ==> r.value[i] == JStr(sources.fields[i].0)
  {
    if !Truthy(sources) then Ok([])
    else match sources
      case JArr(items) => Ok(items)
      case JStr(s) => Ok(Characters(s))
      case JObj(fields) => Ok(Strings(Keys(fields)))
      case _ => Err(Builtin(TypeError))
  }

  /**
   * float() of an int, float, str or bool; a bad string raises ValueError and an
   * int beyond the double range OverflowError, and either propagates.
   */
  function Numeric(h: Host, v: Json): (r: Result<real, ClientError>)
    requires v.JInt? || v.JFloat? || v.JStr? || v.JBool?
    ensures r.Err? <==> (v.JStr? && h.parseFloat(v.s).None?) || (v.JInt? && !FitsDouble(v.i))
    ensures r.Err? && v.JStr? ==> r.error == Builtin(ValueError)
    ensures r.Err? && v.JInt? ==> r.error == Builtin(OverflowError)
    ensures v.JInt? && FitsDouble(v.i) ==> r == Ok(v.i as real)
    ensures v.JFloat? ==> r == Ok(v.r)
  {
    match FloatOf(h, v)
    case Ok(x) => Ok(x)
    case Err(e) => Err(Builtin(e))
  }

  /** Accepted by isinstance(value, (int, float, str)); bool is a subclass of int. */
  predicate NumberLike(v: Json) {
    v.JInt? || v.JFloat? || v.JStr? || v.JBool?
  }

  /**
   * get_laser_power: the value under "value" of a dict reply, or the reply itself,
   * must be a number or a string; anything else is a BarcoPulseApiError.
   */
  function LaserPowerOf(h: Host, result: Json): (r: Result<real, ClientError>)
    ensures var v := Member(result, "value").GetOr(result);
      && (r == Err(Api) <==> !NumberLike(v))
      && (NumberLike(v) ==> r == Numeric(h, v))
  {
    match Member(result, "value")
    case Some(v) => if NumberLike(v) then Numeric(h, v) else Err(Api)
    case None => if NumberLike(result) then Numeric(h, result) else Err(Api)
  }

  /** `{"value": 75}` reads as 75.0; a dict without "value" and a null are rejected. */
  lemma LaserPowerExamples(h: Host)
    ensures LaserPowerOf(h, JObj([("value", JInt(75))])) == Ok(75.0)
    ensures LaserPowerOf(h, JFloat(50.5)) == Ok(50.5)
    ensures LaserPowerOf(h, JObj([("power", JInt(75))])) == Err(Api)
    ensures LaserPowerOf(h, JNull) == Err(Api)
  {
    assert Member(JObj([("power", JInt(75))]), "value") == None;
  }
}

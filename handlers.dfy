/** The route handlers of the gateway as pure transition rules. Each rule
    takes the current state (the cached device record and the caller's
    session flag), the request and the outcome of the one call it may make to
    the ESP32, and gives the HTTP response, the new state and whether the
    device was contacted at all. */
module Handlers {
  import opened Values

  const ValidUsername: string := "user"
  const ValidPassword: string := "password"

  /** The record the process starts with. */
  const InitialRecord: map<string, Value> := map[
    "bus_voltage" := JNum(0.0), "shunt_voltage" := JNum(0.0),
    "load_voltage" := JNum(0.0), "current_mA" := JNum(0.0),
    "target_voltage" := JNum(7.0), "target_current" := JNum(500.0),
    "relay_status" := JStr("OFF")]

  /** The keys `/get_esp32_config` reads from the record. */
  const ConfigKeys: set<string> := {"target_voltage", "target_current", "relay_status"}

  datatype State = State(data: map<string, Value>, loggedIn: bool)

  const InitialState: State := State(InitialRecord, false)

  /** What the one HTTP call to the ESP32 gave: a reply with its status code
      and its body as `response.json()` would see it, or one of the
      exceptions `requests` raises. */
  datatype Payload = Decoded(value: Value) | Undecodable
  datatype Outcome =
    | Replied(code: int, payload: Payload)
    | ConnectionFailed   // requests ConnectionError, including a connect timeout (ConnectTimeout)
    | TimedOut           // a read timeout: a requests Timeout that is not also a ConnectionError
    | OtherFailure       // any other exception raised while talking to the device

  /** A request body: not declared as JSON, declared as JSON but not
      decodable (Flask answers 400 itself), or a decoded JSON value. */
  datatype JsonBody = NotJson | Malformed | Json(value: Value)

  /** `/login`: a GET shows the form; a POST carries the two form fields,
      each of which may be absent. */
  datatype LoginRequest = ShowForm | Submit(username: Option<string>, password: Option<string>)

  datatype Route = LoginRoute | DashboardRoute

  /** The error a route reports in its JSON body. */
  datatype ErrorKind =
    | Unauthorized
    | RequestNotJson
    | MissingVoltage
    | InvalidNumber
    | InvalidRelayStatus
    | DeviceStatus(code: int)
    | CannotConnect
    | DeviceTimeout
    | Unexpected
    | InvalidJson

  datatype Ack = ParametersUpdated | RelaySet(state: string) | DataReceived

  datatype Body =
    | LoginPage(invalidCredentials: bool)
    | DashboardPage(data: map<string, Value>)
    | RedirectTo(route: Route)
    | ErrorJson(kind: ErrorKind)
    | AckJson(ack: Ack)
    | RecordJson(record: map<string, Value>)
    | ConfigJson(config: map<string, Value>)
    | BadRequestPage      // Flask's own 400 for a JSON body it cannot decode
    | InternalErrorPage   // Flask's own 500 for an exception the handler lets escape

  datatype Response = Response(status: int, body: Body)

  datatype Step = Step(response: Response, state: State, deviceCalled: bool)

  const UnauthorizedResponse: Response := Response(401, ErrorJson(Unauthorized))

  predicate IsOk(device: Outcome) {
    device.Replied? && device.code == 200
  }

  /** The response of a POST to the device that did not answer 200: a JSON
      error for the cases the handler catches, Flask's 500 page otherwise. */
  function WriteFailure(device: Outcome): (r: Response)
    requires !IsOk(device)
    ensures r.status == 500
    ensures device.Replied? ==> r.body == ErrorJson(DeviceStatus(device.code))
    ensures device.ConnectionFailed? ==> r.body == ErrorJson(CannotConnect)
    ensures device.TimedOut? ==> r.body == ErrorJson(DeviceTimeout)
    ensures device.OtherFailure? ==> r.body == InternalErrorPage
  {
    match device
    case Replied(code, _) => Response(500, ErrorJson(DeviceStatus(code)))
    case ConnectionFailed => Response(500, ErrorJson(CannotConnect))
    case TimedOut => Response(500, ErrorJson(DeviceTimeout))
    case OtherFailure => Response(500, InternalErrorPage)
  }

  /** The decoded object a JSON route reads its fields from, or the response
      that ends the request first. */
  function ReadObject(body: JsonBody): (r: Result<map<string, Value>, Response>)
    ensures r.Success? <==> body.Json? && body.value.JObject?
    ensures r.Failure? ==> r.error.status in {400, 500}
    ensures r.Success? ==> r.value == body.value.fields
    ensures body.NotJson? ==> r == Failure(Response(400, ErrorJson(RequestNotJson)))
    ensures body.Malformed? ==> r == Failure(Response(400, BadRequestPage))
    ensures body.Json? && !body.value.JObject? ==> r == Failure(Response(500, InternalErrorPage))
  {
    match body
    case NotJson => Failure(Response(400, ErrorJson(RequestNotJson)))
    case Malformed => Failure(Response(400, BadRequestPage))
    case Json(v) =>
      // `data.get(...)` on anything but a dict raises AttributeError
      if v.JObject? then Success(v.fields) else Failure(Response(500, InternalErrorPage))
  }

  // ---------------------------------------------------------------- /login

  predicate IsValidLogin(req: LoginRequest) {
    req == Submit(Some(ValidUsername), Some(ValidPassword))
  }

  /** `/login`: only the exact credential pair sets the session flag; a wrong
      or missing field answers 401 and leaves the session as it was. */
  function Login(st: State, req: LoginRequest): (r: Step)
    ensures !r.deviceCalled && r.state.data == st.data
    ensures r.state.loggedIn <==> st.loggedIn || IsValidLogin(req)
    ensures IsValidLogin(req) ==> r.response == Response(302, RedirectTo(DashboardRoute))
    ensures req.Submit? && !IsValidLogin(req) ==> r.response == Response(401, LoginPage(true)) && r.state == st
    ensures req.ShowForm? ==> r.response.status == 200 && r.state == st
  {
    match req
    case ShowForm => Step(Response(200, LoginPage(false)), st, false)
    case Submit(username, password) =>
      if username == Some(ValidUsername) && password == Some(ValidPassword) then
        Step(Response(302, RedirectTo(DashboardRoute)), st.(loggedIn := true), false)
      else
        Step(Response(401, LoginPage(true)), st, false)
  }

  // --------------------------------------------------------------- /logout

  /** `/logout`: the session flag is cleared whatever it was, the record is
      untouched, and the caller is sent to the login page. */
  function Logout(st: State): (r: Step)
    ensures !r.state.loggedIn && r.state.data == st.data && !r.deviceCalled
    ensures r.response == Response(302, RedirectTo(LoginRoute))
  {
    Step(Response(302, RedirectTo(LoginRoute)), st.(loggedIn := false), false)
  }

  // -------------------------------------------------------------------- /

  /** `/`: without a session the caller is redirected to the login page.
      With one, the device is polled once; a dict reply is merged into the
      record, and an unreachable device or a bad reply still renders the page
      from the cached record. */
  function Dashboard(st: State, device: Outcome): (r: Step)
    ensures r.state.loggedIn == st.loggedIn && st.data.Keys <= r.state.data.Keys
    ensures !st.loggedIn ==> r == Step(Response(302, RedirectTo(LoginRoute)), st, false)
    ensures r.deviceCalled <==> st.loggedIn
    ensures r.response.status == 200 ==> r.response.body == DashboardPage(r.state.data)
    ensures st.loggedIn && IsOk(device) && device.payload.Decoded? && device.payload.value.JObject? ==>
              r.response.status == 200 && r.state.data == Merge(st.data, device.payload.value.fields)
    ensures r.response.status == 500 <==>
              st.loggedIn && (device.OtherFailure? ||
                              (IsOk(device) && device.payload.Decoded? && !device.payload.value.JObject?))
    ensures r.response.status != 200 ==> r.state == st
    ensures r.response.status == 500 ==> r.response.body == InternalErrorPage
    ensures st.loggedIn && !device.OtherFailure? && !(IsOk(device) && device.payload.Decoded?) ==>
              r == Step(Response(200, DashboardPage(st.data)), st, true)
  {
    if !st.loggedIn then
      Step(Response(302, RedirectTo(LoginRoute)), st, false)
    else
      match device
      case Replied(code, payload) =>
        if code == 200 && payload.Decoded? then
          (match Absorb(st.data, payload.value)
           case Some(merged) => Step(Response(200, DashboardPage(merged)), st.(data := merged), true)
           // the TypeError of `update` is not among the exceptions caught
           case None => Step(Response(500, InternalErrorPage), st, true))
        else
          Step(Response(200, DashboardPage(st.data)), st, true)
      case ConnectionFailed => Step(Response(200, DashboardPage(st.data)), st, true)
      case TimedOut => Step(Response(200, DashboardPage(st.data)), st, true)
      case OtherFailure => Step(Response(500, InternalErrorPage), st, true)
  }

  // ------------------------------------------------- /update_output_params

  /** The voltage and current an update carries, both converted with
      `float()`, or the response that rejects the request. A voltage that is
      absent or null is reported as missing; a current that is absent or null
      fails the conversion, so it is required as well. */
  function ReadOutputParams(body: JsonBody, parseText: string -> Option<real>): (r: Result<(real, real), Response>)
    ensures r.Success? <==>
              body.Json? && body.value.JObject? &&
              Get(body.value.fields, "voltage") != JNull &&
              ToFloat(Get(body.value.fields, "voltage"), parseText).Some? &&
              ToFloat(Get(body.value.fields, "current"), parseText).Some?
    ensures r.Success? ==>
              r.value.0 == ToFloat(Get(body.value.fields, "voltage"), parseText).value &&
              r.value.1 == ToFloat(Get(body.value.fields, "current"), parseText).value
    ensures r.Failure? ==> r.error.status == 400 || (body.Json? && !body.value.JObject?)
    ensures !(body.Json? && body.value.JObject?) ==> r == Failure(ReadObject(body).error)
    ensures body.Json? && body.value.JObject? && Get(body.value.fields, "voltage") == JNull ==>
              r == Failure(Response(400, ErrorJson(MissingVoltage)))
    ensures body.Json? && body.value.JObject? && Get(body.value.fields, "voltage") != JNull && r.Failure? ==>
              r == Failure(Response(400, ErrorJson(InvalidNumber)))
  {
    match ReadObject(body)
    case Failure(resp) => Failure(resp)
    case Success(fields) =>
      var voltage := Get(fields, "voltage");
      var current := Get(fields, "current");
      if voltage == JNull then
        Failure(Response(400, ErrorJson(MissingVoltage)))
      else
        match (ToFloat(voltage, parseText), ToFloat(current, parseText))
        case (Some(v), Some(c)) => Success((v, c))
        case _ => Failure(Response(400, ErrorJson(InvalidNumber)))
  }

  /** `/update_output_params`: 401 without a session; 400 for a body that is
      not JSON, lacks the voltage or holds a value `float()` refuses, all
      before the device is contacted; after a device 200 exactly the two
      target keys are written; any device failure answers 500 and leaves the
      record as it was. */
  function UpdateOutputParams(st: State, body: JsonBody, device: Outcome,
                              parseText: string -> Option<real>): (r: Step)
    ensures r.state.loggedIn == st.loggedIn && st.data.Keys <= r.state.data.Keys
    ensures !st.loggedIn ==> r == Step(UnauthorizedResponse, st, false)
    ensures r.deviceCalled <==> st.loggedIn && ReadOutputParams(body, parseText).Success?
    ensures st.loggedIn && (body.NotJson? || body.Malformed?) ==> r.response.status == 400
    ensures st.loggedIn && body.Json? && body.value.JObject? &&
            (Get(body.value.fields, "voltage") == JNull ||
             ToFloat(Get(body.value.fields, "voltage"), parseText).None? ||
             ToFloat(Get(body.value.fields, "current"), parseText).None?) ==>
              r.response.status == 400
    ensures st.loggedIn && body.Json? && !body.value.JObject? ==>
              r == Step(Response(500, InternalErrorPage), st, false)
    ensures r.response.status == 400 ==> !r.deviceCalled && r.state == st
    ensures st.loggedIn && r.response.status == 400 ==>
              ReadOutputParams(body, parseText).Failure? && r.response == ReadOutputParams(body, parseText).error
    ensures r.response.status == 200 <==> r.deviceCalled && IsOk(device)
    ensures r.response.status == 200 ==> r.response.body == AckJson(ParametersUpdated)
    ensures r.response.status == 200 ==>
              var (v, c) := ReadOutputParams(body, parseText).value;
              && r.state.data.Keys == st.data.Keys + {"target_voltage", "target_current"}
              && r.state.data["target_voltage"] == JNum(v)
              && r.state.data["target_current"] == JNum(c)
              && forall k :: k in st.data && k != "target_voltage" && k != "target_current" ==>
                               r.state.data[k] == st.data[k]
    ensures r.deviceCalled && !IsOk(device) ==> r.response.status == 500
    ensures r.deviceCalled && !IsOk(device) ==> r.response == WriteFailure(device)
    ensures r.response.status != 200 ==> r.state == st
  {
    if !st.loggedIn then
      Step(UnauthorizedResponse, st, false)
    else
      match ReadOutputParams(body, parseText)
      case Failure(resp) => Step(resp, st, false)
      case Success((v, c)) =>
        if IsOk(device) then
          var data := st.data["target_voltage" := JNum(v)]["target_current" := JNum(c)];
          Step(Response(200, AckJson(ParametersUpdated)), st.(data := data), true)
        else
          Step(WriteFailure(device), st, true)
  }

  // --------------------------------------------------------- /control_relay

  /** The relay command a request carries: the exact strings "on" and "off"
      are accepted, and nothing else (case matters). */
  function ReadRelayCommand(body: JsonBody): (r: Result<string, Response>)
    ensures r.Success? <==>
              body.Json? && body.value.JObject? &&
              Get(body.value.fields, "status") in {JStr("on"), JStr("off")}
    ensures r.Success? ==> r.value in {"on", "off"} && Get(body.value.fields, "status") == JStr(r.value)
    ensures r.Failure? ==> r.error.status == 400 || (body.Json? && !body.value.JObject?)
    ensures !(body.Json? && body.value.JObject?) ==> r == Failure(ReadObject(body).error)
    ensures body.Json? && body.value.JObject? && r.Failure? ==>
              r == Failure(Response(400, ErrorJson(InvalidRelayStatus)))
  {
    match ReadObject(body)
    case Failure(resp) => Failure(resp)
    case Success(fields) =>
      var status := Get(fields, "status");
      if status == JStr("on") || status == JStr("off") then Success(status.s)
      else Failure(Response(400, ErrorJson(InvalidRelayStatus)))
  }

  /** `/control_relay`: 401 without a session; 400 before any device call
      unless the status is exactly "on" or "off"; after a device 200 only
      `relay_status` is written, with the upper-cased command; any device
      failure answers 500 and leaves the record as it was. */
  function ControlRelay(st: State, body: JsonBody, device: Outcome): (r: Step)
    ensures r.state.loggedIn == st.loggedIn && st.data.Keys <= r.state.data.Keys
    ensures !st.loggedIn ==> r == Step(UnauthorizedResponse, st, false)
    ensures r.deviceCalled <==> st.loggedIn && ReadRelayCommand(body).Success?
    ensures st.loggedIn && (body.NotJson? || body.Malformed? ||
                            (body.Json? && body.value.JObject? &&
                             Get(body.value.fields, "status") !in {JStr("on"), JStr("off")})) ==>
              r.response.status == 400
    ensures st.loggedIn && body.Json? && body.value.JObject? &&
            Get(body.value.fields, "status") !in {JStr("on"), JStr("off")} ==>
              r == Step(Response(400, ErrorJson(InvalidRelayStatus)), st, false)
    ensures st.loggedIn && body.Json? && !body.value.JObject? ==>
              r == Step(Response(500, InternalErrorPage), st, false)
    ensures r.response.status == 400 ==> !r.deviceCalled && r.state == st
    ensures st.loggedIn && ReadRelayCommand(body).Failure? ==>
              r == Step(ReadRelayCommand(body).error, st, false)
    ensures r.response.status == 200 <==> r.deviceCalled && IsOk(device)
    ensures r.response.status == 200 ==>
              && r.state.data.Keys == st.data.Keys + {"relay_status"}
              && r.state.data["relay_status"] ==
                   (if Get(body.value.fields, "status") == JStr("on") then JStr("ON") else JStr("OFF"))
              && r.response.body ==
                   AckJson(RelaySet(if Get(body.value.fields, "status") == JStr("on") then "ON" else "OFF"))
              && forall k :: k in st.data && k != "relay_status" ==> r.state.data[k] == st.data[k]
    ensures r.deviceCalled && !IsOk(device) ==> r.response.status == 500
    ensures r.deviceCalled && !IsOk(device) ==> r.response == WriteFailure(device)
    ensures r.response.status != 200 ==> r.state == st
  {
    if !st.loggedIn then
      Step(UnauthorizedResponse, st, false)
    else
      match ReadRelayCommand(body)
      case Failure(resp) => Step(resp, st, false)
      case Success(status) =>
        if IsOk(device) then
          var relay := Upper(status);
          assert relay == if status == "on" then "ON" else "OFF";
          Step(Response(200, AckJson(RelaySet(relay))), st.(data := st.data["relay_status" := JStr(relay)]), true)
        else
          Step(WriteFailure(device), st, true)
  }

  // --------------------------------------------------------- /get_live_data

  /** Transport problems that `/get_live_data` hides behind the cached
      record: no connection, a timeout, or a 200 whose body is not JSON. */
  predicate IsStaleFallback(device: Outcome) {
    device.ConnectionFailed? || device.TimedOut? || (IsOk(device) && device.payload.Undecodable?)
  }

  /** `/get_live_data`: 401 without a session. Otherwise the device is polled
      once: a dict reply is merged into the record (its keys win) and the
      merged record is returned; a transport problem returns the cached
      record unchanged with 200; a non-200 reply or any other error answers
      500 and changes nothing. */
  function GetLiveData(st: State, device: Outcome): (r: Step)
    ensures r.state.loggedIn == st.loggedIn && st.data.Keys <= r.state.data.Keys
    ensures !st.loggedIn ==> r == Step(UnauthorizedResponse, st, false)
    ensures r.deviceCalled <==> st.loggedIn
    ensures r.response.status == 200 ==> r.response.body == RecordJson(r.state.data)
    ensures st.loggedIn && IsOk(device) && device.payload.Decoded? && device.payload.value.JObject? ==>
              r.response.status == 200 && r.state.data == Merge(st.data, device.payload.value.fields)
    ensures st.loggedIn && IsStaleFallback(device) ==> r == Step(Response(200, RecordJson(st.data)), st, true)
    ensures st.loggedIn && device.Replied? && device.code != 200 ==>
              r.response == Response(500, ErrorJson(DeviceStatus(device.code)))
    ensures st.loggedIn && (device.OtherFailure? ||
                            (IsOk(device) && device.payload.Decoded? && !device.payload.value.JObject?)) ==>
              r.response == Response(500, ErrorJson(Unexpected))
    ensures r.response.status != 200 ==> r.state == st
  {
    if !st.loggedIn then
      Step(UnauthorizedResponse, st, false)
    else
      match device
      case Replied(code, payload) =>
        if code != 200 then
          Step(Response(500, ErrorJson(DeviceStatus(code))), st, true)
        else if payload.Undecodable? then
          Step(Response(200, RecordJson(st.data)), st, true)
        else
          (match Absorb(st.data, payload.value)
           case Some(merged) => Step(Response(200, RecordJson(merged)), st.(data := merged), true)
           case None => Step(Response(500, ErrorJson(Unexpected)), st, true))
      case ConnectionFailed => Step(Response(200, RecordJson(st.data)), st, true)
      case TimedOut => Step(Response(200, RecordJson(st.data)), st, true)
      case OtherFailure => Step(Response(500, ErrorJson(Unexpected)), st, true)
  }

  // ------------------------------------------------------ /sensor_data_post

  /** `/sensor_data_post`: the session is not consulted. A JSON dict is
      merged into the record and acknowledged with 200; a body that is not
      declared as JSON answers 400; nothing else changes. */
  function SensorDataPost(st: State, body: JsonBody): (r: Step)
    ensures !r.deviceCalled && r.state.loggedIn == st.loggedIn && st.data.Keys <= r.state.data.Keys
    ensures r.response.status == 200 <==> body.Json? && body.value.JObject?
    ensures r.response.status == 200 ==>
              r.response.body == AckJson(DataReceived) && r.state.data == Merge(st.data, body.value.fields)
    ensures body.NotJson? ==> r == Step(Response(400, ErrorJson(InvalidJson)), st, false)
    ensures body.Malformed? ==> r == Step(Response(400, BadRequestPage), st, false)
    ensures body.Json? && !body.value.JObject? ==> r == Step(Response(500, InternalErrorPage), st, false)
    ensures r.response.status != 200 ==> r.state == st
  {
    match body
    case NotJson => Step(Response(400, ErrorJson(InvalidJson)), st, false)
    case Malformed => Step(Response(400, BadRequestPage), st, false)
    case Json(v) =>
      match Absorb(st.data, v)
      case Some(merged) => Step(Response(200, AckJson(DataReceived)), st.(data := merged), false)
      // `update` raises TypeError, which nothing catches
      case None => Step(Response(500, InternalErrorPage), st, false)
  }

  // ------------------------------------------------------ /get_esp32_config

  /** `/get_esp32_config`: needs no session and reads only the record. When
      the three configuration keys are present it returns their values, the
      relay status under `relay_status_default`; a missing key would raise
      KeyError and answer 500. */
  function GetConfig(data: map<string, Value>): (r: Response)
    ensures r.status == 200 <==> ConfigKeys <= data.Keys
    ensures r.status == 200 ==>
              && r.body.ConfigJson?
              && r.body.config.Keys == {"target_voltage", "target_current", "relay_status_default"}
              && r.body.config["target_voltage"] == data["target_voltage"]
              && r.body.config["target_current"] == data["target_current"]
              && r.body.config["relay_status_default"] == data["relay_status"]
    ensures r.status != 200 ==> r == Response(500, InternalErrorPage)
  {
    if "target_voltage" in data && "target_current" in data && "relay_status" in data then
      Response(200, ConfigJson(map[
        "target_voltage" := data["target_voltage"],
        "target_current" := data["target_current"],
        "relay_status_default" := data["relay_status"]]))
    else
      Response(500, InternalErrorPage)
  }

  // --------------------------------------------------------------- routing

  /** One request to the server, with the outcome of the device call it may
      make. */
  datatype Request =
    | LoginReq(form: LoginRequest)
    | LogoutReq
    | DashboardReq(device: Outcome)
    | UpdateOutputParamsReq(body: JsonBody, device: Outcome)
    | ControlRelayReq(body: JsonBody, device: Outcome)
    | GetLiveDataReq(device: Outcome)
    | SensorDataPostReq(body: JsonBody)
    | GetConfigReq

  /** Routing a request to its handler. No handler removes a key from the
      record; the device is only contacted on behalf of a logged-in session;
      and the session flag only changes through `/login` with the valid pair
      or through `/logout`; without a session only `/sensor_data_post` can
      change the record. */
  function Handle(st: State, req: Request, parseText: string -> Option<real>): (r: Step)
    ensures st.data.Keys <= r.state.data.Keys
    ensures r.deviceCalled ==> st.loggedIn
    ensures r.state.loggedIn != st.loggedIn ==> req.LogoutReq? || (req.LoginReq? && IsValidLogin(req.form))
    ensures !st.loggedIn && !req.SensorDataPostReq? ==> r.state.data == st.data
  {
    match req
    case LoginReq(form) => Login(st, form)
    case LogoutReq => Logout(st)
    case DashboardReq(device) => Dashboard(st, device)
    case UpdateOutputParamsReq(body, device) => UpdateOutputParams(st, body, device, parseText)
    case ControlRelayReq(body, device) => ControlRelay(st, body, device)
    case GetLiveDataReq(device) => GetLiveData(st, device)
    case SensorDataPostReq(body) => SensorDataPost(st, body)
    case GetConfigReq => Step(GetConfig(st.data), st, false)
  }
}

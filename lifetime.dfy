/** The gateway over the lifetime of the process: a sequence of requests
    served one after another from the initial record, and what holds after
    any such sequence. */
module Lifetime {
  import opened Values
  import opened Handlers

  /** The state after serving `reqs` in order, starting from `st`. */
  function Run(st: State, reqs: seq<Request>, parseText: string -> Option<real>): State
    decreases |reqs|
  {
    if reqs == [] then st
    else Run(Handle(st, reqs[0], parseText).state, reqs[1..], parseText)
  }

  /** How many requests `reqs` sends to the ESP32, starting from `st`. */
  function DeviceCalls(st: State, reqs: seq<Request>, parseText: string -> Option<real>): nat
    decreases |reqs|
  {
    if reqs == [] then 0
    else
      var step := Handle(st, reqs[0], parseText);
      (if step.deviceCalled then 1 else 0) + DeviceCalls(step.state, reqs[1..], parseText)
  }

  /** No request removes a key from the record: the key set only grows. */
  lemma {:induction false} KeysOnlyGrow(st: State, reqs: seq<Request>, parseText: string -> Option<real>)
    ensures st.data.Keys <= Run(st, reqs, parseText).data.Keys
    decreases |reqs|
  {
    if reqs != [] {
      KeysOnlyGrow(Handle(st, reqs[0], parseText).state, reqs[1..], parseText);
    }
  }

  /** Whatever requests the process has served, `/get_esp32_config` answers
      200 with the current target voltage, target current and relay status:
      the three keys of the initial record are never lost. */
  lemma {:induction false} ConfigAlwaysServed(reqs: seq<Request>, parseText: string -> Option<real>)
    ensures var data := Run(InitialState, reqs, parseText).data;
            var r := GetConfig(data);
            && r.status == 200
            && r.body.config["target_voltage"] == data["target_voltage"]
            && r.body.config["target_current"] == data["target_current"]
            && r.body.config["relay_status_default"] == data["relay_status"]
  {
    KeysOnlyGrow(InitialState, reqs, parseText);
  }

  /** A session that never submits the valid credentials stays logged out,
      and none of its requests ever reaches the ESP32. */
  lemma {:induction false} NoCredentialsNoDevice(st: State, reqs: seq<Request>, parseText: string -> Option<real>)
    requires !st.loggedIn
    requires forall i :: 0 <= i < |reqs| ==> !(reqs[i].LoginReq? && IsValidLogin(reqs[i].form))
    ensures !Run(st, reqs, parseText).loggedIn
    ensures DeviceCalls(st, reqs, parseText) == 0
    decreases |reqs|
  {
    if reqs != [] {
      NoCredentialsNoDevice(Handle(st, reqs[0], parseText).state, reqs[1..], parseText);
    }
  }

  /** A session that never logs in can change the record only through the
      unauthenticated `/sensor_data_post`. */
  lemma {:induction false} OnlyPushesChangeRecordWithoutLogin(st: State, reqs: seq<Request>,
                                                              parseText: string -> Option<real>)
    requires !st.loggedIn
    requires forall i :: 0 <= i < |reqs| ==> !(reqs[i].LoginReq? && IsValidLogin(reqs[i].form))
    requires forall i :: 0 <= i < |reqs| ==> !reqs[i].SensorDataPostReq?
    ensures Run(st, reqs, parseText).data == st.data
    decreases |reqs|
  {
    if reqs != [] {
      OnlyPushesChangeRecordWithoutLogin(Handle(st, reqs[0], parseText).state, reqs[1..], parseText);
    }
  }

  /** `/logout` may be repeated: the second call changes nothing further. */
  lemma LogoutIdempotent(st: State)
    ensures Logout(Logout(st).state) == Logout(st)
  {
  }

  /** After the device confirms a relay command, the configuration served to
      the device reports the upper-cased command. */
  lemma RelayCommandReachesConfig(st: State, command: string, device: Outcome)
    requires st.loggedIn && IsOk(device) && ConfigKeys <= st.data.Keys
    requires command in {"on", "off"}
    ensures var after := ControlRelay(st, Json(JObject(map["status" := JStr(command)])), device).state;
            GetConfig(after.data).body.config["relay_status_default"] ==
              JStr(if command == "on" then "ON" else "OFF")
  {
  }

  /** After the device confirms new output parameters, the configuration
      served to the device carries them. */
  lemma TargetsReachConfig(st: State, body: JsonBody, device: Outcome, parseText: string -> Option<real>)
    requires st.loggedIn && IsOk(device) && ConfigKeys <= st.data.Keys
    requires ReadOutputParams(body, parseText).Success?
    ensures var (v, c) := ReadOutputParams(body, parseText).value;
            var config := GetConfig(UpdateOutputParams(st, body, device, parseText).state.data).body.config;
            config["target_voltage"] == JNum(v) && config["target_current"] == JNum(c)
  {
  }

  /** The relay command is compared case-sensitively: "ON" is refused with
      400 and the device is not contacted. */
  lemma RelayCommandIsCaseSensitive(st: State, device: Outcome)
    requires st.loggedIn
    ensures var r := ControlRelay(st, Json(JObject(map["status" := JStr("ON")])), device);
            r.response == Response(400, ErrorJson(InvalidRelayStatus)) && !r.deviceCalled && r.state == st
  {
  }

  /** An update that gives a voltage but no current is refused with 400 and
      the device is not contacted. */
  lemma CurrentIsRequired(st: State, voltage: real, device: Outcome, parseText: string -> Option<real>)
    requires st.loggedIn
    ensures var r := UpdateOutputParams(st, Json(JObject(map["voltage" := JNum(voltage)])), device, parseText);
            r.response == Response(400, ErrorJson(InvalidNumber)) && !r.deviceCalled && r.state == st
  {
  }

  /** Neither a pushed record nor a polled one is normalised: a lower-case
      relay status sent by the device is stored and served as it is. */
  lemma PushedRelayStatusIsNotNormalised(st: State)
    requires ConfigKeys <= st.data.Keys
    ensures var after := SensorDataPost(st, Json(JObject(map["relay_status" := JStr("on")]))).state;
            GetConfig(after.data).body.config["relay_status_default"] == JStr("on")
  {
  }
}

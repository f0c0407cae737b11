/** The running gateway: the process-wide record `last_esp32_data` and the
    caller's session flag, updated in place by one method per route. Each
    method's outcome is the one the matching rule in `Handlers` prescribes,
    and the ghost counter `deviceCalls` records every request sent to the
    ESP32. */
module Server {
  import opened Values
  import opened Handlers

  class Gateway {
    var data: map<string, Value>
    var loggedIn: bool
    ghost var deviceCalls: nat
    /** Python's `float()` on a string. */
    const parseText: string -> Option<real>

    function Snapshot(): State
      reads this
    {
      State(data, loggedIn)
    }

    constructor (parseText: string -> Option<real>)
      ensures Snapshot() == InitialState && deviceCalls == 0 && this.parseText == parseText
    {
      data := InitialRecord;
      loggedIn := false;
      deviceCalls := 0;
      this.parseText := parseText;
    }

    /** The new state, the response and the device counter are those of `step`. */
    ghost predicate Took(step: Step, resp: Response, callsBefore: nat)
      reads this
    {
      resp == step.response && Snapshot() == step.state &&
      deviceCalls == callsBefore + (if step.deviceCalled then 1 else 0)
    }

    method Login(form: LoginRequest) returns (resp: Response)
      modifies this`loggedIn
      ensures Took(Handlers.Login(old(Snapshot()), form), resp, deviceCalls)
      ensures loggedIn == (old(loggedIn) || IsValidLogin(form))
    {
      if form.ShowForm? {
        return Response(200, LoginPage(false));
      }
      if form.username == Some(ValidUsername) && form.password == Some(ValidPassword) {
        loggedIn := true;
        resp := Response(302, RedirectTo(DashboardRoute));
      } else {
        resp := Response(401, LoginPage(true));
      }
    }

    method Logout() returns (resp: Response)
      modifies this`loggedIn
      ensures Took(Handlers.Logout(old(Snapshot())), resp, deviceCalls)
      ensures !loggedIn
    {
      loggedIn := false;
      resp := Response(302, RedirectTo(LoginRoute));
    }

    method Dashboard(device: Outcome) returns (resp: Response)
      modifies this`data, this`deviceCalls
      ensures Took(Handlers.Dashboard(old(Snapshot()), device), resp, old(deviceCalls))
    {
      if !loggedIn {
        return Response(302, RedirectTo(LoginRoute));
      }
      deviceCalls := deviceCalls + 1;
      if device.OtherFailure? {
        return Response(500, InternalErrorPage);
      }
      if IsOk(device) && device.payload.Decoded? {
        var reply := device.payload.value;
        if !reply.JObject? {
          return Response(500, InternalErrorPage);
        }
        data := Merge(data, reply.fields);
      }
      resp := Response(200, DashboardPage(data));
    }

    method UpdateOutputParams(body: JsonBody, device: Outcome) returns (resp: Response)
      modifies this`data, this`deviceCalls
      ensures Took(Handlers.UpdateOutputParams(old(Snapshot()), body, device, parseText), resp, old(deviceCalls))
    {
      if !loggedIn {
        return UnauthorizedResponse;
      }
      var params := ReadOutputParams(body, parseText);
      if params.Failure? {
        return params.error;
      }
      var voltage, current := params.value.0, params.value.1;
      deviceCalls := deviceCalls + 1;
      if IsOk(device) {
        data := data["target_voltage" := JNum(voltage)];
        data := data["target_current" := JNum(current)];
        resp := Response(200, AckJson(ParametersUpdated));
      } else {
        resp := WriteFailure(device);
      }
    }

    method ControlRelay(body: JsonBody, device: Outcome) returns (resp: Response)
      modifies this`data, this`deviceCalls
      ensures Took(Handlers.ControlRelay(old(Snapshot()), body, device), resp, old(deviceCalls))
    {
      if !loggedIn {
        return UnauthorizedResponse;
      }
      var command := ReadRelayCommand(body);
      if command.Failure? {
        return command.error;
      }
      var status := command.value;
      deviceCalls := deviceCalls + 1;
      if IsOk(device) {
        data := data["relay_status" := JStr(Upper(status))];
        resp := Response(200, AckJson(RelaySet(Upper(status))));
      } else {
        resp := WriteFailure(device);
      }
    }

    method GetLiveData(device: Outcome) returns (resp: Response)
      modifies this`data, this`deviceCalls
      ensures Took(Handlers.GetLiveData(old(Snapshot()), device), resp, old(deviceCalls))
    {
      if !loggedIn {
        return UnauthorizedResponse;
      }
      deviceCalls := deviceCalls + 1;
      match device {
        case Replied(code, payload) =>
          if code != 200 {
            return Response(500, ErrorJson(DeviceStatus(code)));
          }
          if payload.Decoded? {
            if !payload.value.JObject? {
              return Response(500, ErrorJson(Unexpected));
            }
            data := Merge(data, payload.value.fields);
          }
          resp := Response(200, RecordJson(data));
        case ConnectionFailed =>
          resp := Response(200, RecordJson(data));
        case TimedOut =>
          resp := Response(200, RecordJson(data));
        case OtherFailure =>
          resp := Response(500, ErrorJson(Unexpected));
      }
    }

    method SensorDataPost(body: JsonBody) returns (resp: Response)
      modifies this`data
      ensures Took(Handlers.SensorDataPost(old(Snapshot()), body), resp, deviceCalls)
    {
      match body {
        case NotJson =>
          resp := Response(400, ErrorJson(InvalidJson));
        case Malformed =>
          resp := Response(400, BadRequestPage);
        case Json(v) =>
          if v.JObject? {
            data := Merge(data, v.fields);
            resp := Response(200, AckJson(DataReceived));
          } else {
            resp := Response(500, InternalErrorPage);
          }
      }
    }

    /** Reads the record and changes nothing. */
    method GetConfig() returns (resp: Response)
      ensures resp == Handlers.GetConfig(data)
      ensures ConfigKeys <= data.Keys ==> resp.status == 200 && resp.body.config["relay_status_default"] == data["relay_status"]
    {
      resp := Handlers.GetConfig(data);
    }
  }
}

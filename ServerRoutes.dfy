/** The camera routes of the server entry point: add with a direct `Cam`
    connection, and PTZ control that derives host and port from the stored
    ONVIF address by string splitting. Its update and delete routes are the
    same handlers as the camera router's (modelled there). */
module ServerRoutes {
  import opened Base
  import opened JsText
  import opened Records
  import CameraRoutes

  /** The options passed to `new onvif.Cam`; `port` is `None` when it is NaN. */
  datatype CamOptions = CamOptions(hostname: string, username: Option<string>, password: Option<string>, port: Option<int>)

  /** A connected device: its `xaddrs` and whether it has a PTZ service. */
  datatype CamDevice = CamDevice(xaddrs: seq<string>, hasPtz: bool)

  /** How the `Cam` constructor ends: its callback gets a device or an
      error, or the constructor throws synchronously. */
  datatype Connection = Connected(device: CamDevice) | ConnectFailed(message: string) | ConstructorThrew(message: string)

  /** What the add handler did. */
  datatype AddHandled = AddHandled(response: Response, connectedWith: Option<CamOptions>, inserted: Option<CameraColumns>)

  /** `xaddrs[0]`, which is `undefined` for an empty list. */
  function FirstXaddr(xaddrs: seq<string>): Option<string>
  {
    if |xaddrs| > 0 then Some(xaddrs[0]) else None
  }

  /** `POST /api/cameras`; `streamUri` is the outcome of `getStreamUri`. */
  function AddCamera(req: AddRequest, connection: Connection, streamUri: Result<string>, insert: RunOutcome): (h: AddHandled)
    ensures !Present(req.name) || !Present(req.host) ==>
      h == AddHandled(BadRequest("Name and Host are required."), None, None)
    ensures Present(req.name) && Present(req.host) ==>
      h.connectedWith == Some(CamOptions(req.host.value, req.username, req.password, Some(80)))
    ensures connection.ConstructorThrew? && h.connectedWith.Some? ==>
      h.response == ServerError(connection.message) && h.inserted == None
    ensures connection.ConnectFailed? && h.connectedWith.Some? ==>
      h.response == ServerError("Failed to connect to camera: " + connection.message) && h.inserted == None
    // a connected device is inserted with the reported stream address, or the
    // fallback when getStreamUri fails, and with its first xaddr
    ensures h.inserted.Some? <==> h.connectedWith.Some? && connection.Connected?
    ensures h.inserted.Some? ==>
      h.inserted.value == CameraColumns(
        req.name.value,
        if streamUri.Ok? then streamUri.value else CameraRoutes.FallbackRtspUrl(req.host.value),
        FirstXaddr(connection.device.xaddrs), req.username, req.password)
    ensures h.response.status == 201 <==> h.inserted.Some? && insert.Ran?
    ensures h.response.status == 201 ==> h.response.body == CreatedBody(insert.lastId, h.inserted.value)
    ensures h.inserted.Some? && insert.RunFailed? ==> h.response == ServerError(insert.message)
  {
    if !Present(req.name) || !Present(req.host) then
      AddHandled(BadRequest("Name and Host are required."), None, None)
    else
      var name, host := req.name.value, req.host.value;
      var options := CamOptions(host, req.username, req.password, Some(80));
      match connection
      case ConstructorThrew(m) => AddHandled(ServerError(m), Some(options), None)
      case ConnectFailed(m) => AddHandled(ServerError("Failed to connect to camera: " + m), Some(options), None)
      case Connected(device) =>
        var rtspUrl := match streamUri
          case Ok(uri) => uri
          case Err(_) => CameraRoutes.FallbackRtspUrl(host);
        var columns := CameraColumns(name, rtspUrl, FirstXaddr(device.xaddrs), req.username, req.password);
        var response := match insert
          case RunFailed(m) => ServerError(m)
          case Ran(lastId, _) => Response(201, CreatedBody(lastId, columns));
        AddHandled(response, Some(options), Some(columns))
  }

  // -----------------------------------------------------------------------
  // Host and port of the stored ONVIF address
  // -----------------------------------------------------------------------

  /** `onvifUrl.split('/')[2]`, or `None` when there is no third piece (the
      expression is then `undefined` and the next `.split` throws). */
  function HostSegment(url: string): (r: Option<string>)
    ensures r.None? <==> Occurrences(url, '/') < 2
    ensures r.Some? ==> '/' !in r.value
  {
    var pieces := Split(url, '/');
    if |pieces| < 3 then None else Some(pieces[2])
  }

  /** `segment.split(':')[0]`: the segment up to its first colon. */
  function HostnameOf(segment: string): (h: string)
    ensures ':' !in h
    ensures |h| <= |segment| && h == segment[..|h|]
    ensures |h| < |segment| ==> segment[|h|] == ':'
  {
    FirstPieceIsPrefix(segment, ':');
    Split(segment, ':')[0]
  }

  /** `parseInt(segment.split(':')[1] || '80')`: the text after the first
      colon (up to a second one), or "80" when that is absent or empty. */
  function PortOf(segment: string): (r: Option<int>)
    ensures ':' !in segment ==> r == Some(80)
    ensures |Split(segment, ':')| >= 2 && Split(segment, ':')[1] == "" ==> r == Some(80)
  {
    var parts := Split(segment, ':');
    var text := if |parts| >= 2 && parts[1] != "" then parts[1] else "80";
    ParseDefaultPort();
    if ':' !in segment then
      SplitWithoutSeparator(segment, ':');
      ParseInt(text)
    else
      ParseInt(text)
  }

  /** The default port. */
  lemma ParseDefaultPort()
    ensures ParseInt("80") == Some(80)
  {
    assert DigitChar(8) == '8' && DigitChar(0) == '0';
    assert NatToDecimal(8) == "8";
    assert NatToDecimal(80) == NatToDecimal(8) + [DigitChar(0)];
    assert NatToDecimal(80) == "80";
    ParseIntOfDecimal(80);
  }

  /** A segment without a colon is all hostname, on port 80. */
  lemma SegmentWithoutPort(host: string)
    requires ':' !in host
    ensures HostnameOf(host) == host
    ensures PortOf(host) == Some(80)
  {
    SplitWithoutSeparator(host, ':');
    ParseDefaultPort();
  }

  /** `host:` with nothing after the colon also defaults to port 80. */
  lemma SegmentWithEmptyPort(host: string)
    requires ':' !in host
    ensures HostnameOf(host + ":") == host
    ensures PortOf(host + ":") == Some(80)
  {
    SplitAtFirst(host, ':', "");
    assert host + [':'] + "" == host + ":";
    ParseDefaultPort();
  }

  /** `host:<decimal>` gives the host and that number. */
  lemma {:induction false} SegmentWithPort(host: string, port: nat)
    requires ':' !in host
    ensures HostnameOf(host + ":" + NatToDecimal(port)) == host
    ensures PortOf(host + ":" + NatToDecimal(port)) == Some(port)
  {
    var digits := NatToDecimal(port);
    assert ':' !in digits by {
      forall i | 0 <= i < |digits| ensures digits[i] != ':' { assert IsDecimalDigit(digits[i]); }
    }
    SplitAtFirst(host, ':', digits);
    assert host + [':'] + digits == host + ":" + digits;
    SplitWithoutSeparator(digits, ':');
    ParseIntOfDecimal(port);
  }

  /** For `<scheme>//<authority>` followed by nothing or by a path starting
      with '/', the segment is the authority. */
  lemma {:induction false} HostSegmentOfUrl(scheme: string, authority: string, path: string)
    requires '/' !in scheme && '/' !in authority
    requires path == "" || path[0] == '/'
    ensures HostSegment(scheme + "//" + authority + path) == Some(authority)
  {
    var url := scheme + "//" + authority + path;
    assert url == scheme + ['/'] + (['/'] + authority + path);
    SplitAtFirst(scheme, '/', ['/'] + authority + path);
    assert ['/'] + authority + path == "" + ['/'] + (authority + path);
    SplitAtFirst("", '/', authority + path);
    if path == "" {
      assert authority + path == authority;
      SplitWithoutSeparator(authority, '/');
    } else {
      assert authority + path == authority + ['/'] + path[1..];
      SplitAtFirst(authority, '/', path[1..]);
    }
  }

  // -----------------------------------------------------------------------
  // PTZ control
  // -----------------------------------------------------------------------

  /** The `ptzCommand` object: axes x, y and zoom, each present or absent. */
  datatype PtzCommand = PtzCommand(x: Option<int>, y: Option<int>, zoom: Option<int>)

  /** The `switch (command)` setting `ptzCommand`; `None` is the default branch. */
  function ServerPtzCommand(command: string, speed: int): (r: Option<PtzCommand>)
    ensures r.None? <==> command !in CameraRoutes.MoveCommands && command != "stop"
    ensures command == "stop" ==> r == Some(PtzCommand(Some(0), Some(0), Some(0)))
  {
    match command
    case "moveUp" => Some(PtzCommand(None, Some(speed), None))
    case "moveDown" => Some(PtzCommand(None, Some(-speed), None))
    case "moveLeft" => Some(PtzCommand(Some(-speed), None, None))
    case "moveRight" => Some(PtzCommand(Some(speed), None, None))
    case "zoomIn" => Some(PtzCommand(None, None, Some(speed)))
    case "zoomOut" => Some(PtzCommand(None, None, Some(-speed)))
    case "stop" => Some(PtzCommand(Some(0), Some(0), Some(0)))
    case _ => None
  }

  /** Both route files map every motion command to the same axis and sign:
      the camera router's z axis is this file's zoom. */
  lemma SameSignsAsCameraRouter(command: string, speed: int)
    requires command in CameraRoutes.MoveCommands
    ensures CameraRoutes.PtzSpeed(command, speed).Move?
    ensures var v := CameraRoutes.PtzSpeed(command, speed).speed;
            ServerPtzCommand(command, speed) == Some(PtzCommand(v.x, v.y, v.z))
  {
  }

  /** The device operation the route ends in. */
  datatype Dispatch = PtzStopAll(panTilt: bool, zoom: bool) | ContinuousMove(velocity: PtzCommand)

  /** How the handler ends: with a reply, or with an exception thrown inside
      the database callback, after which no reply is sent. */
  datatype Ending = Replied(response: Response) | Threw

  /** What the control handler did. */
  datatype PtzHandled = PtzHandled(ending: Ending, connectedWith: Option<CamOptions>, dispatch: Option<Dispatch>)

  const MissingControlDetails := "Camera details (ONVIF URL, username, password) are required for control."

  /** `POST /api/onvif/control/:id`: `connection` is the outcome of the
      `Cam` constructor, `outcome` that of the PTZ operation. The constructor
      runs inside the database callback, where nothing catches a throw. */
  function PtzControl(cameraId: string, lookup: RowLookup, command: string, speed: int,
                      connection: Connection, outcome: Result<()>): (h: PtzHandled)
    ensures lookup.LookupFailed? ==> h == PtzHandled(Replied(ServerError(lookup.message)), None, None)
    ensures lookup.NotFound? ==> h == PtzHandled(Replied(CameraNotFound), None, None)
    // all three of address, user name and password are needed
    ensures lookup.Found? && (lookup.row.onvifUrl == "" || lookup.row.username == "" || !Present(lookup.row.password)) ==>
      h == PtzHandled(Replied(BadRequest(MissingControlDetails)), None, None)
    // the connection uses the host and port split out of the stored address
    ensures h.connectedWith.Some? <==>
      lookup.Found? && lookup.row.onvifUrl != "" && lookup.row.username != "" && Present(lookup.row.password) &&
      HostSegment(lookup.row.onvifUrl).Some?
    ensures h.connectedWith.Some? ==>
      lookup.Found? && HostSegment(lookup.row.onvifUrl).Some? &&
      var segment := HostSegment(lookup.row.onvifUrl).value;
      h.connectedWith.value == CamOptions(HostnameOf(segment), Some(lookup.row.username),
                                          lookup.row.password, PortOf(segment))
    // an address without a third '/'-piece throws before any connection, and
    // a throwing constructor ends the handler the same way; neither replies
    ensures h.ending.Threw? <==>
      lookup.Found? && lookup.row.onvifUrl != "" && lookup.row.username != "" && Present(lookup.row.password) &&
      (HostSegment(lookup.row.onvifUrl).None? || connection.ConstructorThrew?)
    ensures h.ending.Threw? ==> h.dispatch == None
    // a dispatch needs a connected device with PTZ and a recognised command
    ensures h.dispatch.Some? <==>
      h.connectedWith.Some? && connection.Connected? && connection.device.hasPtz && ServerPtzCommand(command, speed).Some?
    ensures h.dispatch.Some? ==>
      h.dispatch.value == (if command == "stop" then PtzStopAll(true, true)
                           else ContinuousMove(ServerPtzCommand(command, speed).value))
    ensures h.connectedWith.Some? && connection.Connected? && connection.device.hasPtz && ServerPtzCommand(command, speed).None? ==>
      h.ending == Replied(BadRequest("Invalid PTZ command."))
    // the connection's and the device's failures, and the operation's
    ensures h.connectedWith.Some? && connection.ConnectFailed? ==>
      h.ending == Replied(ServerError("Failed to connect to camera for PTZ control: " + connection.message))
    ensures h.connectedWith.Some? && connection.Connected? && !connection.device.hasPtz ==>
      h.ending == Replied(ServerError("PTZ service not available for this device."))
    ensures h.dispatch.Some? && outcome.Err? ==> h.ending == Replied(ServerError(outcome.message))
    ensures h.ending.Replied? && h.ending.response.status == 200 <==> h.dispatch.Some? && outcome.Ok?
    ensures h.ending.Replied? && h.ending.response.status == 200 ==>
      h.ending.response.body == MessageBody(
        if command == "stop" then "PTZ stop command sent to camera " + cameraId + "."
        else "PTZ " + command + " command sent to camera " + cameraId + ".")
  {
    match lookup
    case LookupFailed(m) => PtzHandled(Replied(ServerError(m)), None, None)
    case NotFound => PtzHandled(Replied(CameraNotFound), None, None)
    case Found(row) =>
      if row.onvifUrl == "" || row.username == "" || !Present(row.password) then
        PtzHandled(Replied(BadRequest(MissingControlDetails)), None, None)
      else
        match HostSegment(row.onvifUrl)
        case None => PtzHandled(Threw, None, None)
        case Some(segment) =>
          var options := CamOptions(HostnameOf(segment), Some(row.username), row.password, PortOf(segment));
          match connection
          case ConstructorThrew(_) => PtzHandled(Threw, Some(options), None)
          case ConnectFailed(m) =>
            PtzHandled(Replied(ServerError("Failed to connect to camera for PTZ control: " + m)), Some(options), None)
          case Connected(device) =>
            if !device.hasPtz then
              PtzHandled(Replied(ServerError("PTZ service not available for this device.")), Some(options), None)
            else
              match ServerPtzCommand(command, speed)
              case None => PtzHandled(Replied(BadRequest("Invalid PTZ command.")), Some(options), None)
              case Some(velocity) =>
                var dispatch := if command == "stop" then PtzStopAll(true, true) else ContinuousMove(velocity);
                var response :=
                  if outcome.Err? then ServerError(outcome.message)
                  else if command == "stop" then Response(200, MessageBody("PTZ stop command sent to camera " + cameraId + "."))
                  else Response(200, MessageBody("PTZ " + command + " command sent to camera " + cameraId + "."));
                PtzHandled(Replied(response), Some(options), Some(dispatch))
  }

  /** `<host>` or `<host>:<port>`. */
  function Authority(host: string, port: Option<nat>): string
  {
    if port.Some? then host + ":" + NatToDecimal(port.value) else host
  }

  /** Neither a host without '/' nor a decimal port brings a '/' in. */
  lemma {:induction false} AuthorityHasNoSlash(host: string, port: Option<nat>)
    requires '/' !in host
    ensures '/' !in Authority(host, port)
  {
    if port.Some? {
      var digits := NatToDecimal(port.value);
      assert '/' !in digits by {
        forall i | 0 <= i < |digits| ensures digits[i] != '/' { assert IsDecimalDigit(digits[i]); }
      }
      assert Authority(host, port) == host + ":" + digits;
    }
  }

  /** The host and port of an authority. */
  lemma {:induction false} AuthorityParts(host: string, port: Option<nat>)
    requires ':' !in host
    ensures HostnameOf(Authority(host, port)) == host
    ensures PortOf(Authority(host, port)) == Some(if port.Some? then port.value else 80)
  {
    if port.Some? {
      SegmentWithPort(host, port.value);
    } else {
      SegmentWithoutPort(host);
    }
  }

  /** For `http://<authority><path>` the third '/'-piece is the authority. */
  lemma HttpAddressSegment(authority: string, path: string)
    requires '/' !in authority
    requires path == "" || path[0] == '/'
    ensures HostSegment("http://" + authority + path) == Some(authority)
  {
    assert "http:" + "//" == "http://";
    assert '/' !in "http:" by {
      forall i | 0 <= i < |"http:"| ensures "http:"[i] != '/' { }
    }
    HostSegmentOfUrl("http:", authority, path);
  }

  /** From an address of the usual form `http://<host>/...` or
      `http://<host>:<port>/...` the split recovers the host and the port,
      80 when none is given. */
  lemma {:induction false} UsualAddressTarget(host: string, port: Option<nat>, path: string)
    requires ':' !in host && '/' !in host
    requires path == "" || path[0] == '/'
    ensures HostSegment("http://" + Authority(host, port) + path) == Some(Authority(host, port))
    ensures HostnameOf(Authority(host, port)) == host
    ensures PortOf(Authority(host, port)) == Some(if port.Some? then port.value else 80)
  {
    AuthorityHasNoSlash(host, port);
    AuthorityParts(host, port);
    HttpAddressSegment(Authority(host, port), path);
  }

  /** The PTZ connection goes to the host and port of a usual stored address. */
  lemma ControlTargetOfUsualAddress(cameraId: string, row: CameraRow, command: string, speed: int,
                                    connection: Connection, outcome: Result<()>,
                                    host: string, port: Option<nat>, path: string)
    requires ':' !in host && '/' !in host
    requires path == "" || path[0] == '/'
    requires row.onvifUrl == "http://" + Authority(host, port) + path
    requires row.username != "" && Present(row.password)
    ensures PtzControl(cameraId, Found(row), command, speed, connection, outcome).connectedWith ==
      Some(CamOptions(host, Some(row.username), row.password, Some(if port.Some? then port.value else 80)))
  {
    UsualAddressTarget(host, port, path);
  }
}

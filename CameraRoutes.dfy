/** The camera router: add, update and delete a camera, and PTZ control
    through a cached ONVIF device. Database calls and the device's own
    operations are steps whose outcomes are given. */
module CameraRoutes {
  import opened Base
  import opened Records
  import opened Onvif

  /** Everything the add handler did: its reply, the device cache afterwards,
      the `getDevice` call it made and the camera it tried to insert. */
  datatype AddHandled = AddHandled(
    response: Response,
    cache: map<string, Session>,
    deviceCall: Option<DeviceRequest>,
    inserted: Option<CameraColumns>)

  /** The device service address for a host: port 8899, the standard
      ONVIF device service path, and the host readable back. */
  function DeviceServiceUrl(host: string): (url: string)
    ensures |url| == |host| + 33
    ensures url[..7] == "http://" && url[7..|url| - 26] == host && url[|url| - 26..] == ":8899/onvif/device_service"
  {
    "http://" + host + ":8899/onvif/device_service"
  }

  /** The cache key a camera's device session is kept under; different
      names give different keys. */
  function CacheKey(name: string): (key: string)
    ensures |key| == |name| + 7 && key[..7] == "camera-" && key[7..] == name
  {
    "camera-" + name
  }

  /** The RTSP address stored when the device does not report one: the
      host on port 554, path `/stream`, so the host can be read back. */
  function FallbackRtspUrl(host: string): (url: string)
    ensures |url| == |host| + 18
    ensures url[..7] == "rtsp://" && url[7..|url| - 11] == host && url[|url| - 11..] == ":554/stream"
  {
    "rtsp://" + host + ":554/stream"
  }

  /** The RTSP address the add handler stores for a device. */
  function DiscoveredRtspUrl(info: DeviceInfo, host: string): (url: string)
    ensures info.profileRtsp.Some? ==> url == info.profileRtsp.value
    ensures info.profileRtsp.None? ==> url == FallbackRtspUrl(host)
  {
    match info.profileRtsp
    case Some(u) => u
    case None => FallbackRtspUrl(host)
  }

  /** `POST /api/cameras`. */
  function AddCamera(cache: map<string, Session>, req: AddRequest, init: InitOutcome, insert: RunOutcome): (h: AddHandled)
    // a missing name or host is refused before the device is contacted
    ensures !Present(req.name) || !Present(req.host) ==>
      h == AddHandled(BadRequest("Name and Host are required."), cache, None, None)
    // otherwise the device is asked for at the fixed service path, under the name's key
    ensures Present(req.name) && Present(req.host) ==>
      h.deviceCall == Some(DeviceRequest(DeviceServiceUrl(req.host.value), req.username, req.password,
                                         CacheKey(req.name.value)))
    // the cache changes only as getDevice changes it
    ensures h.deviceCall.Some? ==> h.cache == FetchDevice(cache, h.deviceCall.value, init).cache
    // a device that cannot be obtained gives 500 and nothing is inserted
    ensures h.deviceCall.Some? && FetchDevice(cache, h.deviceCall.value, init).device.Err? ==>
      h.inserted == None &&
      h.response == ServerError("Failed to connect to camera or initialize: "
                                + FetchDevice(cache, h.deviceCall.value, init).device.message)
    // once the device has been obtained the insert is always attempted
    ensures h.deviceCall.Some? && FetchDevice(cache, h.deviceCall.value, init).device.Ok? ==> h.inserted.Some?
    // what is inserted: the body's fields, the device's RTSP address or the fallback, its PTZ address
    ensures h.inserted.Some? ==>
      h.deviceCall.Some? && FetchDevice(cache, h.deviceCall.value, init).device.Ok? &&
      var info := FetchDevice(cache, h.deviceCall.value, init).device.value.info;
      h.inserted.value == CameraColumns(req.name.value, DiscoveredRtspUrl(info, req.host.value),
                                        info.ptzXaddr, req.username, req.password)
    // 201 exactly when the insert ran; its reply echoes the inserted camera under its new id
    ensures h.response.status == 201 <==> h.inserted.Some? && insert.Ran?
    ensures h.response.status == 201 ==> h.response.body == CreatedBody(insert.lastId, h.inserted.value)
    ensures h.inserted.Some? && insert.RunFailed? ==> h.response == ServerError(insert.message)
  {
    if !Present(req.name) || !Present(req.host) then
      AddHandled(BadRequest("Name and Host are required."), cache, None, None)
    else
      var name, host := req.name.value, req.host.value;
      var call := DeviceRequest(DeviceServiceUrl(host), req.username, req.password, CacheKey(name));
      var f := FetchDevice(cache, call, init);
      match f.device
      case Err(m) =>
        AddHandled(ServerError("Failed to connect to camera or initialize: " + m), f.cache, Some(call), None)
      case Ok(device) =>
        var columns := CameraColumns(name, DiscoveredRtspUrl(device.info, host), device.info.ptzXaddr,
                                     req.username, req.password);
        var response := match insert
          case RunFailed(m) => ServerError(m)
          case Ran(lastId, _) => Response(201, CreatedBody(lastId, columns));
        AddHandled(response, f.cache, Some(call), Some(columns))
  }

  /** A successful add leaves the device cached under `camera-<name>`, so a
      later call for the same camera name reuses it. */
  lemma AddCachesDevice(cache: map<string, Session>, req: AddRequest, init: InitOutcome, insert: RunOutcome)
    requires Present(req.name) && Present(req.host)
    requires AddCamera(cache, req, init, insert).inserted.Some?
    ensures CacheKey(req.name.value) in AddCamera(cache, req, init, insert).cache
  {
  }

  /** What an update or delete handler did: its reply and the columns, if any, it wrote. */
  datatype WriteHandled = WriteHandled(response: Response, written: Option<CameraColumns>)

  /** `PUT` on a camera (the server file's update route is the same handler). */
  function UpdateCamera(id: string, req: UpdateRequest, run: RunOutcome): (h: WriteHandled)
    ensures !Present(req.name) || !Present(req.rtspUrl) ==>
      h == WriteHandled(BadRequest("Name and RTSP URL are required."), None)
    ensures h.written.Some? <==> Present(req.name) && Present(req.rtspUrl)
    ensures h.written.Some? ==>
      h.written.value == CameraColumns(req.name.value, req.rtspUrl.value, req.onvifUrl, req.username, req.password)
    ensures h.written.Some? && run.RunFailed? ==> h.response == ServerError(run.message)
    ensures h.written.Some? && run.Ran? && run.changes == 0 ==> h.response == CameraNotFound
    ensures h.response.status == 200 <==> h.written.Some? && run.Ran? && run.changes > 0
    ensures h.response.status == 200 ==>
      h.response.body == UpdatedBody("Camera " + id + " updated successfully.", id, h.written.value)
  {
    if !Present(req.name) || !Present(req.rtspUrl) then
      WriteHandled(BadRequest("Name and RTSP URL are required."), None)
    else
      var columns := CameraColumns(req.name.value, req.rtspUrl.value, req.onvifUrl, req.username, req.password);
      var response := match run
        case RunFailed(m) => ServerError(m)
        case Ran(_, changes) =>
          if changes == 0 then CameraNotFound
          else Response(200, UpdatedBody("Camera " + id + " updated successfully.", id, columns));
      WriteHandled(response, Some(columns))
  }

  /** `DELETE` on a camera (the server file's delete route is the same handler). */
  function DeleteCamera(id: string, run: RunOutcome): (r: Response)
    ensures run.RunFailed? ==> r == ServerError(run.message)
    ensures r == CameraNotFound <==> run.Ran? && run.changes == 0
    ensures r.status == 200 <==> run.Ran? && run.changes > 0
    ensures r.status == 200 ==> r.body == MessageBody("Camera " + id + " deleted successfully.")
  {
    match run
    case RunFailed(m) => ServerError(m)
    case Ran(_, changes) =>
      if changes == 0 then CameraNotFound
      else Response(200, MessageBody("Camera " + id + " deleted successfully."))
  }

  // -----------------------------------------------------------------------
  // PTZ control
  // -----------------------------------------------------------------------

  /** The `ptzSpeed` object: each axis present or absent. */
  datatype Velocity = Velocity(x: Option<int>, y: Option<int>, z: Option<int>)

  /** What the command switch decides. */
  datatype PtzChoice = Move(speed: Velocity) | StopMotion | UnknownCommand

  /** The device operation a PTZ request ends in. */
  datatype PtzCall = PtzMove(speed: Velocity) | PtzStop

  /** The commands the switch recognises as motion. */
  const MoveCommands: set<string> := {"moveUp", "moveDown", "moveLeft", "moveRight", "zoomIn", "zoomOut"}

  /** The number of axes a velocity sets. */
  function AxisCount(v: Velocity): nat
  {
    (if v.x.Some? then 1 else 0) + (if v.y.Some? then 1 else 0) + (if v.z.Some? then 1 else 0)
  }

  /** Each axis value flipped in sign. */
  function Negated(v: Velocity): Velocity
  {
    Velocity(
      if v.x.Some? then Some(-v.x.value) else None,
      if v.y.Some? then Some(-v.y.value) else None,
      if v.z.Some? then Some(-v.z.value) else None)
  }

  /** The `switch (command)` of the control route. */
  function PtzSpeed(command: string, speed: int): (r: PtzChoice)
    // motion commands are exactly the six move names; each sets one axis to
    // plus or minus the speed; "stop" stops; anything else is unknown
    ensures r.Move? <==> command in MoveCommands
    ensures r == StopMotion <==> command == "stop"
    ensures r == UnknownCommand <==> command !in MoveCommands && command != "stop"
    ensures r.Move? ==>
      AxisCount(r.speed) == 1 &&
      (r.speed.x.Some? ==> r.speed.x.value in {speed, -speed}) &&
      (r.speed.y.Some? ==> r.speed.y.value in {speed, -speed}) &&
      (r.speed.z.Some? ==> r.speed.z.value in {speed, -speed})
  {
    match command
    case "moveUp" => Move(Velocity(None, Some(speed), None))
    case "moveDown" => Move(Velocity(None, Some(-speed), None))
    case "moveLeft" => Move(Velocity(Some(-speed), None, None))
    case "moveRight" => Move(Velocity(Some(speed), None, None))
    case "zoomIn" => Move(Velocity(None, None, Some(speed)))
    case "zoomOut" => Move(Velocity(None, None, Some(-speed)))
    case "stop" => StopMotion
    case _ => UnknownCommand
  }

  /** Opposite commands give negated velocities on the same axis: up/down on
      y, right/left on x, zoom in/out on z, the first of each pair positive. */
  lemma PtzOppositesNegate(speed: int)
    ensures PtzSpeed("moveUp", speed) == Move(Velocity(None, Some(speed), None))
    ensures PtzSpeed("moveRight", speed) == Move(Velocity(Some(speed), None, None))
    ensures PtzSpeed("zoomIn", speed) == Move(Velocity(None, None, Some(speed)))
    ensures PtzSpeed("moveDown", speed) == Move(Negated(PtzSpeed("moveUp", speed).speed))
    ensures PtzSpeed("moveLeft", speed) == Move(Negated(PtzSpeed("moveRight", speed).speed))
    ensures PtzSpeed("zoomOut", speed) == Move(Negated(PtzSpeed("zoomIn", speed).speed))
  {
  }

  /** What the control handler did. */
  datatype PtzHandled = PtzHandled(
    response: Response,
    cache: map<string, Session>,
    deviceCall: Option<DeviceRequest>,
    call: Option<PtzCall>)

  /** `POST /api/onvif/control/:id`: look the camera up, get its device,
      translate the command and issue one device operation, whose outcome is
      `outcome`. */
  function PtzControl(cache: map<string, Session>, cameraId: string, lookup: RowLookup,
                      command: string, speed: int, init: InitOutcome, outcome: Result<()>): (h: PtzHandled)
    // the order of refusals: lookup error, missing camera, missing ONVIF address
    ensures lookup.LookupFailed? ==> h == PtzHandled(ServerError(lookup.message), cache, None, None)
    ensures lookup.NotFound? ==> h == PtzHandled(CameraNotFound, cache, None, None)
    ensures lookup.Found? && lookup.row.onvifUrl == "" ==>
      h == PtzHandled(BadRequest("ONVIF URL is required for control."), cache, None, None)
    // otherwise the device is fetched (before the command is looked at)
    ensures lookup.Found? && lookup.row.onvifUrl != "" ==>
      h.deviceCall == Some(DeviceRequest(lookup.row.onvifUrl, Some(lookup.row.username),
                                         lookup.row.password, CacheKey(lookup.row.name)))
    ensures h.deviceCall.Some? ==> h.cache == FetchDevice(cache, h.deviceCall.value, init).cache
    // a device that cannot be obtained gives 500 and no operation
    ensures h.deviceCall.Some? && FetchDevice(cache, h.deviceCall.value, init).device.Err? ==>
      h.call == None &&
      h.response == ServerError("Failed to send PTZ command: " + FetchDevice(cache, h.deviceCall.value, init).device.message)
    // a device operation happens only with a device and a recognised command, and is the one the switch chose
    ensures h.call.Some? <==>
      h.deviceCall.Some? && FetchDevice(cache, h.deviceCall.value, init).device.Ok? &&
      PtzSpeed(command, speed) != UnknownCommand
    ensures h.call == Some(PtzStop) ==> command == "stop"
    ensures h.call.Some? && h.call.value.PtzMove? ==> PtzSpeed(command, speed) == Move(h.call.value.speed)
    // an unknown command with a device is refused with 400 and no motion
    ensures h.deviceCall.Some? && FetchDevice(cache, h.deviceCall.value, init).device.Ok? &&
            PtzSpeed(command, speed) == UnknownCommand ==>
      h.response == BadRequest("Invalid PTZ command.") && h.call == None
    // success is reported only after the device operation succeeded
    ensures h.response.status == 200 <==> h.call.Some? && outcome.Ok?
    ensures h.call.Some? && outcome.Err? ==> h.response == ServerError("Failed to send PTZ command: " + outcome.message)
    ensures h.response.status == 200 ==>
      h.response.body == MessageBody(
        if h.call == Some(PtzStop) then "PTZ stop command sent to camera " + cameraId + "."
        else "PTZ " + command + " command sent to camera " + cameraId + ".")
  {
    match lookup
    case LookupFailed(m) => PtzHandled(ServerError(m), cache, None, None)
    case NotFound => PtzHandled(CameraNotFound, cache, None, None)
    case Found(row) =>
      if row.onvifUrl == "" then
        PtzHandled(BadRequest("ONVIF URL is required for control."), cache, None, None)
      else
        var deviceCall := DeviceRequest(row.onvifUrl, Some(row.username), row.password, CacheKey(row.name));
        var f := FetchDevice(cache, deviceCall, init);
        if f.device.Err? then
          PtzHandled(ServerError("Failed to send PTZ command: " + f.device.message), f.cache, Some(deviceCall), None)
        else
          match PtzSpeed(command, speed)
          case UnknownCommand =>
            PtzHandled(BadRequest("Invalid PTZ command."), f.cache, Some(deviceCall), None)
          case StopMotion =>
            var response := if outcome.Err? then ServerError("Failed to send PTZ command: " + outcome.message)
                            else Response(200, MessageBody("PTZ stop command sent to camera " + cameraId + "."));
            PtzHandled(response, f.cache, Some(deviceCall), Some(PtzStop))
          case Move(v) =>
            var response := if outcome.Err? then ServerError("Failed to send PTZ command: " + outcome.message)
                            else Response(200, MessageBody("PTZ " + command + " command sent to camera " + cameraId + "."));
            PtzHandled(response, f.cache, Some(deviceCall), Some(PtzMove(v)))
  }

  /** A stop request never moves the camera; an unrecognised command calls
      neither operation. */
  lemma PtzStopNeverMoves(cache: map<string, Session>, cameraId: string, lookup: RowLookup,
                          speed: int, init: InitOutcome, outcome: Result<()>, other: string)
    requires other !in MoveCommands && other != "stop"
    ensures PtzControl(cache, cameraId, lookup, "stop", speed, init, outcome).call in {None, Some(PtzStop)}
    ensures PtzControl(cache, cameraId, lookup, other, speed, init, outcome).call == None
  {
  }
}

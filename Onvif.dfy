/** The ONVIF device cache: a module-level map from a cache key to a device
    session whose `init()` handshake succeeded. The handshake is a step whose
    outcome is given; it either yields what the device reports or throws. */
module Onvif {
  import opened Base

  /** What an initialised device reports: `current_profile.stream.rtsp`
      (`None` when reading it throws) and `services.ptz?.xaddr`. */
  datatype DeviceInfo = DeviceInfo(profileRtsp: Option<string>, ptzXaddr: Option<string>)

  /** A device built from `xaddr`, `user` and `pass` whose `init()` succeeded. */
  datatype Session = Session(xaddr: string, user: string, pass: string, info: DeviceInfo)

  /** The outcome of `init()`. */
  datatype InitOutcome = InitOk(info: DeviceInfo) | InitFailed(message: string)

  /** The arguments of one `getDevice` call; `user` and `pass` may be `undefined`. */
  datatype DeviceRequest = DeviceRequest(
    xaddr: string,
    user: Option<string>,
    pass: Option<string>,
    cacheKey: string)

  /** What a call returns (or throws), the cache after it, and whether a new
      device was constructed and initialised. */
  datatype Fetch = Fetch(device: Result<Session>, cache: map<string, Session>, initialised: bool)

  /** The cache is consulted only under a non-empty key. */
  predicate IsHit(cache: map<string, Session>, key: string)
  {
    key != "" && key in cache
  }

  /** The device a miss constructs: `user` and `pass` default to ''. */
  function NewSession(req: DeviceRequest, info: DeviceInfo): Session
  {
    Session(req.xaddr, OrDefault(req.user, ""), OrDefault(req.pass, ""), info)
  }

  /** `getDevice(xaddr, user, pass, cacheKey)`. */
  function FetchDevice(cache: map<string, Session>, req: DeviceRequest, init: InitOutcome): (f: Fetch)
    // a hit hands back the cached device and does nothing else
    ensures IsHit(cache, req.cacheKey) ==>
      f.device == Ok(cache[req.cacheKey]) && f.cache == cache && !f.initialised
    // on a miss the device is always constructed and initialised
    ensures !IsHit(cache, req.cacheKey) ==> f.initialised
    // a failed init propagates its error and caches nothing
    ensures f.device.Err? ==> init == InitFailed(f.device.message) && f.cache == cache
    // a device returned after init is built from this call's arguments
    ensures f.initialised && f.device.Ok? ==> init.InitOk? && f.device.value == NewSession(req, init.info)
    // nothing is ever cached under the empty key
    ensures req.cacheKey == "" ==> f.cache == cache
    // entries are only added, never overwritten or removed
    ensures forall k :: k in cache ==> k in f.cache && f.cache[k] == cache[k]
    ensures f.cache.Keys <= cache.Keys + {req.cacheKey}
    // after a successful call with a non-empty key, the key holds the device returned
    ensures req.cacheKey != "" && f.device.Ok? ==> req.cacheKey in f.cache && f.cache[req.cacheKey] == f.device.value
  {
    if IsHit(cache, req.cacheKey) then
      Fetch(Ok(cache[req.cacheKey]), cache, false)
    else
      match init
      case InitFailed(m) => Fetch(Err(m), cache, true)
      case InitOk(info) =>
        var s := NewSession(req, info);
        Fetch(Ok(s), if req.cacheKey != "" then cache[req.cacheKey := s] else cache, true)
  }

  /** On a hit only the key matters: two calls with the same key and any
      other arguments or handshake outcomes behave the same. */
  lemma HitIgnoresArguments(cache: map<string, Session>, a: DeviceRequest, b: DeviceRequest,
                            initA: InitOutcome, initB: InitOutcome)
    requires a.cacheKey == b.cacheKey && IsHit(cache, a.cacheKey)
    ensures FetchDevice(cache, a, initA) == FetchDevice(cache, b, initB)
  {
  }

  /** A second call under the non-empty key of a successful first call
      returns the same device without a new handshake, whatever its other
      arguments; under the empty key, every call initialises a new device. */
  lemma {:induction false} SecondCallReusesDevice(cache: map<string, Session>, first: DeviceRequest,
                                                 init1: InitOutcome, second: DeviceRequest, init2: InitOutcome)
    requires first.cacheKey == second.cacheKey
    requires FetchDevice(cache, first, init1).device.Ok?
    ensures var f1 := FetchDevice(cache, first, init1);
            var f2 := FetchDevice(f1.cache, second, init2);
            first.cacheKey != "" ==> f2.device == f1.device && !f2.initialised && f2.cache == f1.cache
    ensures first.cacheKey == "" ==>
            FetchDevice(FetchDevice(cache, first, init1).cache, second, init2).initialised
  {
    var f1 := FetchDevice(cache, first, init1);
    if first.cacheKey != "" {
      assert IsHit(f1.cache, second.cacheKey);
    }
  }

  /** The device cache as the module-level `Map` the source mutates. */
  class DeviceCache {
    var entries: map<string, Session>

    constructor ()
      ensures entries == map[]
    {
      entries := map[];
    }

    /** `getDevice`: hit, or construct, initialise and cache under a non-empty key. */
    method GetDevice(req: DeviceRequest, init: InitOutcome) returns (device: Result<Session>, initialised: bool)
      modifies this
      ensures Fetch(device, entries, initialised) == FetchDevice(old(entries), req, init)
    {
      if req.cacheKey != "" && req.cacheKey in entries {
        device := Ok(entries[req.cacheKey]);
        initialised := false;
      } else {
        initialised := true;
        match init {
          case InitFailed(m) =>
            device := Err(m);
          case InitOk(info) =>
            var s := NewSession(req, info);
            device := Ok(s);
            if req.cacheKey != "" {
              entries := entries[req.cacheKey := s];
            }
        }
      }
    }
  }
}

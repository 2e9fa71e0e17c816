/** The camera stream WebSocket handler: a lookup and validation chain that
    either refuses the viewer or starts ffmpeg on the camera's RTSP address,
    then event handlers that pipe ffmpeg's output to the socket and tie the
    lifetimes of the socket and the ffmpeg process together. */
module StreamWs {
  import opened Base
  import opened Records

  /** The socket's `readyState` once the handler runs. */
  datatype ReadyState = Open | Closing | Closed

  /** The ffmpeg command's process. */
  datatype Ffmpeg = NotStarted | Running | Exited | Killed

  /** What the handler passes to `ws.send`: a JSON `{ error }` object, or a chunk of ffmpeg output. */
  datatype Outgoing = ErrorMessage(error: string) | Chunk(bytes: seq<bv8>)

  /** The observable state of one connection: the socket, every `ws.send`
      made so far in order, and the process. */
  datatype Pipe = Pipe(socket: ReadyState, sent: seq<Outgoing>, ffmpeg: Ffmpeg)

  /** The events the handler subscribes to once ffmpeg is started. */
  datatype Event =
    | Data(chunk: seq<bv8>)        // a chunk on ffmpeg's output stream
    | FfmpegError(message: string) // the command's 'error' event
    | FfmpegEnd                    // the command's 'end' event
    | SocketClose                  // the socket's 'close' event
    | SocketError                  // the socket's 'error' event

  /** What the lookup chain decides. */
  datatype Setup =
    | Refuse(error: string) // send the error, then close
    | Spawn(url: string)    // start ffmpeg on this address
    | UrlThrew              // `new URL(rtspUrl)` threw inside the async callback, which rejects unhandled

  /** The address ffmpeg reads: the stored one, or with the credentials
      embedded by `embed` (the WHATWG URL parser and serialiser, `None` when
      it throws) when both user name and password are non-empty. */
  function StreamUrl(row: CameraRow, embed: (string, string, string) -> Option<string>): (r: Option<string>)
    ensures !(row.username != "" && Present(row.password)) ==> r == Some(row.rtspUrl)
    ensures row.username != "" && Present(row.password) ==> r == embed(row.rtspUrl, row.username, row.password.value)
  {
    if row.username != "" && Present(row.password) then embed(row.rtspUrl, row.username, row.password.value)
    else Some(row.rtspUrl)
  }

  /** The chain before ffmpeg starts: lookup error, missing camera, missing
      RTSP address, each refused with its own message. */
  function StreamSetup(lookup: RowLookup, embed: (string, string, string) -> Option<string>): (s: Setup)
    ensures lookup.LookupFailed? ==> s == Refuse("Failed to fetch camera details.")
    ensures lookup.NotFound? ==> s == Refuse("Camera not found.")
    ensures lookup.Found? && lookup.row.rtspUrl == "" ==> s == Refuse("RTSP URL not available for this camera.")
    ensures s.Spawn? <==> lookup.Found? && lookup.row.rtspUrl != "" && StreamUrl(lookup.row, embed).Some?
    ensures s.Spawn? ==> s.url == StreamUrl(lookup.row, embed).value
    ensures s.UrlThrew? <==> lookup.Found? && lookup.row.rtspUrl != "" && StreamUrl(lookup.row, embed).None?
    ensures s.UrlThrew? ==> lookup.Found? && lookup.row.username != "" && Present(lookup.row.password)
  {
    match lookup
    case LookupFailed(_) => Refuse("Failed to fetch camera details.")
    case NotFound => Refuse("Camera not found.")
    case Found(row) =>
      if row.rtspUrl == "" then Refuse("RTSP URL not available for this camera.")
      else
        match StreamUrl(row, embed)
        case None => UrlThrew
        case Some(url) => Spawn(url)
  }

  /** `ws.close()`: an open socket starts closing; otherwise nothing happens. */
  function CloseSocket(s: ReadyState): ReadyState
  {
    if s == Open then Closing else s
  }

  /** `ffmpegCommand.kill('SIGKILL')`: a running process is killed. */
  function Kill(f: Ffmpeg): Ffmpeg
  {
    if f == Running then Killed else f
  }

  /** The process has stopped on its own ('error' or 'end'). */
  function Finished(f: Ffmpeg): Ffmpeg
  {
    if f == Running then Exited else f
  }

  /** One event handler. */
  function Step(p: Pipe, e: Event): (q: Pipe)
    // only an open socket is ever sent anything
    ensures p.socket != Open ==> q.sent == p.sent
    // a chunk goes out exactly when the socket is open, after everything sent before
    ensures e.Data? ==> q.sent == (if p.socket == Open then p.sent + [Chunk(e.chunk)] else p.sent)
    // an ffmpeg error on an open socket sends the error message, then closes
    ensures e.FfmpegError? && p.socket == Open ==>
      q.sent == p.sent + [ErrorMessage("FFmpeg error: " + e.message)] && q.socket == Closing
    // ffmpeg's end closes the socket only if it is open
    ensures e == FfmpegEnd ==> q.sent == p.sent && q.socket == CloseSocket(p.socket)
    // a socket close or error always leaves no ffmpeg running
    ensures e == SocketClose || e == SocketError ==> q.ffmpeg != Running && q.sent == p.sent
    ensures e == SocketClose ==> q.socket == Closed
    // a chunk changes neither the socket nor the process
    ensures e.Data? ==> q.socket == p.socket && q.ffmpeg == p.ffmpeg
    // ffmpeg's error or end marks a running process as finished
    ensures e.FfmpegError? || e == FfmpegEnd ==> q.ffmpeg == Finished(p.ffmpeg)
    // an error on a socket that is not open sends nothing and leaves the socket as it was
    ensures e.FfmpegError? && p.socket != Open ==> q.sent == p.sent && q.socket == p.socket
    // a socket close or error kills a running process; a socket error leaves the socket as it was
    ensures e == SocketClose || e == SocketError ==> q.ffmpeg == Kill(p.ffmpeg)
    ensures e == SocketError ==> q.socket == p.socket
    // no event starts a process or reopens a socket
    ensures q.ffmpeg == Running ==> p.ffmpeg == Running
    ensures q.socket == Open ==> p.socket == Open
  {
    match e
    case Data(chunk) =>
      if p.socket == Open then p.(sent := p.sent + [Chunk(chunk)]) else p
    case FfmpegError(message) =>
      if p.socket == Open then
        Pipe(CloseSocket(p.socket), p.sent + [ErrorMessage("FFmpeg error: " + message)], Finished(p.ffmpeg))
      else p.(ffmpeg := Finished(p.ffmpeg))
    case FfmpegEnd =>
      Pipe(CloseSocket(p.socket), p.sent, Finished(p.ffmpeg))
    case SocketClose =>
      Pipe(Closed, p.sent, Kill(p.ffmpeg))
    case SocketError =>
      p.(ffmpeg := Kill(p.ffmpeg))
  }

  /** The handlers run over a sequence of events, in order. */
  function Run(p: Pipe, events: seq<Event>): Pipe
    decreases |events|
  {
    if |events| == 0 then p else Run(Step(p, events[0]), events[1..])
  }

  /** Running two stretches of events is running their concatenation. */
  lemma {:induction false} RunAppend(p: Pipe, a: seq<Event>, b: seq<Event>)
    ensures Run(p, a + b) == Run(Run(p, a), b)
    decreases |a|
  {
    if |a| > 0 {
      assert (a + b)[0] == a[0];
      assert (a + b)[1..] == a[1..] + b;
      RunAppend(Step(p, a[0]), a[1..], b);
    } else {
      assert a + b == b;
    }
  }

  /** Once the socket is no longer open it never reopens and nothing more is
      sent on it, whatever events follow. */
  lemma {:induction false} NothingSentAfterOpen(p: Pipe, events: seq<Event>)
    requires p.socket != Open
    ensures Run(p, events).sent == p.sent
    ensures Run(p, events).socket != Open
    decreases |events|
  {
    if |events| > 0 {
      NothingSentAfterOpen(Step(p, events[0]), events[1..]);
    }
  }

  /** Once ffmpeg is not running, no later event makes it run again. */
  lemma {:induction false} StoppedStaysStopped(p: Pipe, events: seq<Event>)
    requires p.ffmpeg != Running
    ensures Run(p, events).ffmpeg != Running
    decreases |events|
  {
    if |events| > 0 {
      StoppedStaysStopped(Step(p, events[0]), events[1..]);
    }
  }

  /** After the socket's 'close' event, ffmpeg is never running again and no
      later chunk or message is sent: everything sent was sent before it. */
  lemma SocketCloseEndsEverything(p: Pipe, before: seq<Event>, after: seq<Event>)
    ensures Run(p, before + [SocketClose] + after).ffmpeg != Running
    ensures Run(p, before + [SocketClose] + after).sent == Run(p, before).sent
  {
    RunAppend(p, before + [SocketClose], after);
    RunAppend(p, before, [SocketClose]);
    var q := Step(Run(p, before), SocketClose);
    assert Run(p, before + [SocketClose]) == q;
    StoppedStaysStopped(q, after);
    NothingSentAfterOpen(q, after);
  }

  /** The chunks of a stretch of data events. */
  function Chunks(events: seq<Event>): seq<Outgoing>
    requires forall i :: 0 <= i < |events| ==> events[i].Data?
  {
    if |events| == 0 then [] else [Chunk(events[0].chunk)] + Chunks(events[1..])
  }

  /** While the socket is open every chunk is forwarded, in arrival order. */
  lemma {:induction false} ChunksForwardedInOrder(p: Pipe, events: seq<Event>)
    requires p.socket == Open
    requires forall i :: 0 <= i < |events| ==> events[i].Data?
    ensures Run(p, events).sent == p.sent + Chunks(events)
    ensures Run(p, events).socket == Open
    decreases |events|
  {
    if |events| > 0 {
      var q := Step(p, events[0]);
      assert q.sent == p.sent + [Chunk(events[0].chunk)];
      ChunksForwardedInOrder(q, events[1..]);
      assert p.sent + [Chunk(events[0].chunk)] + Chunks(events[1..]) == p.sent + Chunks(events);
    }
  }

  /** The handler registers its socket listeners only once the lookup has
      answered. A socket whose 'close' already fired before ffmpeg was
      spawned therefore never kills it: through data and socket-error events
      the process keeps running, and its output is dropped. */
  lemma {:induction false} SpawnAfterCloseKeepsRunning(p: Pipe, events: seq<Event>)
    requires p.socket == Closed && p.ffmpeg == Running
    requires forall i :: 0 <= i < |events| ==> events[i].Data? || events[i] == SocketError
    ensures Run(p, events).ffmpeg == Running || (exists i :: 0 <= i < |events| && events[i] == SocketError)
    ensures Run(p, events).sent == p.sent
    decreases |events|
  {
    NothingSentAfterOpen(p, events);
    if |events| > 0 && events[0].Data? {
      SpawnAfterCloseKeepsRunning(Step(p, events[0]), events[1..]);
      if Run(p, events).ffmpeg != Running {
        var i :| 0 <= i < |events[1..]| && events[1..][i] == SocketError;
        assert events[i + 1] == SocketError;
      }
    }
  }

  /** The connection the handler drives. */
  class StreamHandler {
    var socket: ReadyState
    var sent: seq<Outgoing>
    var ffmpeg: Ffmpeg
    var source: Option<string>

    /** The state the event handlers act on. */
    function Snapshot(): Pipe
      reads this
    {
      Pipe(socket, sent, ffmpeg)
    }

    /** A freshly opened connection. */
    constructor ()
      ensures socket == Open && sent == [] && ffmpeg == NotStarted && source == None
    {
      socket, sent, ffmpeg, source := Open, [], NotStarted, None;
    }

    method Send(message: Outgoing)
      modifies this
      ensures sent == old(sent) + [message]
      ensures socket == old(socket) && ffmpeg == old(ffmpeg) && source == old(source)
    {
      sent := sent + [message];
    }

    method Close()
      modifies this
      ensures socket == CloseSocket(old(socket))
      ensures sent == old(sent) && ffmpeg == old(ffmpeg) && source == old(source)
    {
      if socket == Open {
        socket := Closing;
      }
    }

    /** The database callback: refuse, or start ffmpeg on the stream address. */
    method Start(lookup: RowLookup, embed: (string, string, string) -> Option<string>) returns (setup: Setup)
      modifies this
      ensures setup == StreamSetup(lookup, embed)
      ensures setup.Refuse? ==>
        sent == old(sent) + [ErrorMessage(setup.error)] && socket == CloseSocket(old(socket)) &&
        ffmpeg == old(ffmpeg) && source == old(source)
      ensures setup.Spawn? ==>
        ffmpeg == Running && source == Some(setup.url) && socket == old(socket) && sent == old(sent)
      ensures setup.UrlThrew? ==>
        socket == old(socket) && sent == old(sent) && ffmpeg == old(ffmpeg) && source == old(source)
    {
      match lookup {
        case LookupFailed(_) =>
          setup := Refuse("Failed to fetch camera details.");
        case NotFound =>
          setup := Refuse("Camera not found.");
        case Found(row) =>
          if row.rtspUrl == "" {
            setup := Refuse("RTSP URL not available for this camera.");
          } else {
            var url := Some(row.rtspUrl);
            if row.username != "" && Present(row.password) {
              url := embed(row.rtspUrl, row.username, row.password.value);
            }
            if url.None? {
              return UrlThrew;
            }
            setup := Spawn(url.value);
            ffmpeg := Running;
            source := url;
            return;
          }
      }
      Send(ErrorMessage(setup.error));
      Close();
    }

    method OnData(chunk: seq<bv8>)
      modifies this
      ensures Snapshot() == Step(old(Snapshot()), Data(chunk)) && source == old(source)
    {
      if socket == Open {
        Send(Chunk(chunk));
      }
    }

    method OnFfmpegError(message: string)
      modifies this
      ensures Snapshot() == Step(old(Snapshot()), FfmpegError(message)) && source == old(source)
    {
      if socket == Open {
        Send(ErrorMessage("FFmpeg error: " + message));
        Close();
      }
      ffmpeg := Finished(ffmpeg);
    }

    method OnFfmpegEnd()
      modifies this
      ensures Snapshot() == Step(old(Snapshot()), FfmpegEnd) && source == old(source)
    {
      if socket == Open {
        Close();
      }
      ffmpeg := Finished(ffmpeg);
    }

    method OnSocketClose()
      modifies this
      ensures Snapshot() == Step(old(Snapshot()), SocketClose) && source == old(source)
    {
      socket := Closed;
      ffmpeg := Kill(ffmpeg);
    }

    method OnSocketError()
      modifies this
      ensures Snapshot() == Step(old(Snapshot()), SocketError) && source == old(source)
    {
      ffmpeg := Kill(ffmpeg);
    }
  }
}

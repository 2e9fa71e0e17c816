/** The vision-query route: validate the configured model and the request,
    capture one frame, choose a prompt template, and stream the model's
    answer after the frame. The settings reads, the frame grab and the model
    call are steps whose outcomes are given. */
module OllamaQuery {
  import opened Base

  /** A JSON value of the request body, as far as truthiness and strict
      equality need it. */
  datatype Json = Undefined | Null | Bool(b: bool) | Num(n: int) | Str(s: string) | Object

  /** `!!v`. */
  predicate Truthy(v: Json)
  {
    match v
    case Undefined => false
    case Null => false
    case Bool(b) => b
    case Num(n) => n != 0
    case Str(s) => s != ""
    case Object => true
  }

  /** A destructuring default: applied when the field is `undefined` only. */
  function Defaulted(v: Json, default: Json): Json
  {
    if v.Undefined? then default else v
  }

  /** The request body; the prompt is text when present. */
  datatype QueryBody = QueryBody(prompt: Option<string>, cameraId: Json, responseType: Json, think: Json, isCustom: Json)

  /** The request passed to `generate`. */
  datatype GenerateRequest = GenerateRequest(
    model: string,
    prompt: string,
    format: Option<string>,
    images: seq<string>,
    stream: bool,
    temperature: real,
    numPredict: nat)

  /** One streamed part; only its `response` text is written. */
  datatype Part = Part(response: string, evalCount: int, promptEvalCount: int)

  /** What the model call produced: the parts that arrived, and the error
      that ended the stream early, if any (a failing `generate` call is an
      empty stream with an error). */
  datatype Generation = Generation(parts: seq<Part>, failure: Option<string>)

  /** How the request ends. */
  datatype Reply =
    | Rejected(status: int, text: string) // before any header was written
    | Streamed(request: GenerateRequest, body: string, ended: bool) // 200, chunked

  const ThinkTemplate := "Please analyze this image and provide your reasoning.\nFirst, think step by step about what you see to improve your response, and share your thoughts in a \"thoughts\" key.\nThen, provide the final answer in a \"value\" key.\nThe response should be in JSON format with keys \"thoughts\" and \"value\".\n\n"
  const ArrayTemplate := "Please analyze this image and provide a list of items.\nReturn your response as a JSON object with a \"value\" key containing an array.\n\n"
  const CameraTemplate := "Attached is a single frame from a security camera. Assistant's task is to evaluate and respond to the following query:\n\n"

  /** The first failing check, in the order host, model, prompt, camera id. */
  function Validate(host: Option<string>, model: Option<string>, body: QueryBody): (r: Option<string>)
    ensures !Present(host) ==> r == Some("Ollama Host is not configured.")
    ensures Present(host) && !Present(model) ==> r == Some("Ollama Model is not configured.")
    ensures Present(host) && Present(model) && !Present(body.prompt) ==> r == Some("Prompt is required.")
    ensures Present(host) && Present(model) && Present(body.prompt) && !Truthy(body.cameraId) ==>
      r == Some("Camera ID is required.")
    ensures r.None? <==> Present(host) && Present(model) && Present(body.prompt) && Truthy(body.cameraId)
  {
    if !Present(host) then Some("Ollama Host is not configured.")
    else if !Present(model) then Some("Ollama Model is not configured.")
    else if !Present(body.prompt) then Some("Prompt is required.")
    else if !Truthy(body.cameraId) then Some("Camera ID is required.")
    else None
  }

  /** The template prefix: `think` is tested first, then `responseType === 'array'`. */
  function Template(think: Json, responseType: Json): (t: string)
    ensures Truthy(think) ==> t == ThinkTemplate
    ensures t == ArrayTemplate <==> !Truthy(think) && responseType == Str("array")
    ensures t == CameraTemplate <==> !Truthy(think) && responseType != Str("array")
  {
    if Truthy(think) then ThinkTemplate
    else if responseType == Str("array") then ArrayTemplate
    else CameraTemplate
  }

  /** `s` ends with `t`. */
  predicate EndsWith(s: string, t: string)
  {
    |t| <= |s| && s[|s| - |t|..] == t
  }

  /** `enhancedPrompt`: the chosen template, ending with the user's prompt. */
  function EnhancedPrompt(prompt: string, body: QueryBody): (r: string)
    ensures EndsWith(r, prompt)
    ensures r == Template(Defaulted(body.think, Bool(false)), Defaulted(body.responseType, Str("string"))) + prompt
  {
    var t := Template(Defaulted(body.think, Bool(false)), Defaulted(body.responseType, Str("string")));
    assert (t + prompt)[|t|..] == prompt;
    t + prompt
  }

  /** The first line written: the frame as a JPEG data URL, ended by a
      newline. */
  function ImageLine(frame: string): (line: string)
    ensures |line| == |frame| + 24
    ensures line[..23] == "data:image/jpeg;base64," && line[23..|line| - 1] == frame && line[|line| - 1] == '\n'
  {
    "data:image/jpeg;base64," + frame + "\n"
  }

  /** The `response` texts of the parts, concatenated in order: nothing for
      no parts, and the last part's text at the end. */
  function Responses(parts: seq<Part>): (r: string)
    ensures |parts| == 0 ==> r == ""
    ensures |parts| > 0 ==> EndsWith(r, parts[|parts| - 1].response)
  {
    if |parts| == 0 then "" else Responses(parts[..|parts| - 1]) + parts[|parts| - 1].response
  }

  /** Writing the parts of two consecutive stretches of the stream gives
      the texts of both, in order. */
  lemma {:induction false} ResponsesAppend(a: seq<Part>, b: seq<Part>)
    ensures Responses(a + b) == Responses(a) + Responses(b)
    decreases |b|
  {
    if |b| == 0 {
      assert a + b == a;
    } else {
      var b' := b[..|b| - 1];
      assert (a + b)[..|a + b| - 1] == a + b';
      ResponsesAppend(a, b');
    }
  }

  /** One more part writes one more text. */
  lemma ResponsesOfPrefix(parts: seq<Part>, i: nat)
    requires i < |parts|
    ensures Responses(parts[..i + 1]) == Responses(parts[..i]) + parts[i].response
  {
    assert parts[..i + 1][..i] == parts[..i];
  }

  /** The `for await` loop: write each part's text after what is already
      written, and keep the last part. */
  method WriteParts(written: string, parts: seq<Part>) returns (body: string, lastPart: Option<Part>)
    ensures body == written + Responses(parts)
    ensures lastPart == if |parts| == 0 then None else Some(parts[|parts| - 1])
  {
    body, lastPart := written, None;
    var i := 0;
    while i < |parts|
      invariant 0 <= i <= |parts|
      invariant body == written + Responses(parts[..i])
      invariant lastPart == if i == 0 then None else Some(parts[i - 1])
    {
      ResponsesOfPrefix(parts, i);
      body := body + parts[i].response;
      lastPart := Some(parts[i]);
      i := i + 1;
    }
    assert parts[..i] == parts;
  }

  /** `POST /query`. `host` and `model` are the outcomes of the two settings
      reads, `frame` the outcome the frame grab has when it is made;
      `grabbed` records that call, with the camera id it was made for. */
  method Query(host: Result<Option<string>>, model: Result<Option<string>>, body: QueryBody,
               frame: Result<string>, generation: Generation) returns (reply: Reply, grabbed: Option<Json>)
    // a failing settings read gives 500 with its message
    ensures host.Err? ==> reply == Rejected(500, host.message)
    ensures host.Ok? && model.Err? ==> reply == Rejected(500, model.message)
    // a frame is grabbed, for the request's camera id, exactly when both
    // settings were read and all four checks passed
    ensures grabbed.Some? <==> host.Ok? && model.Ok? && Validate(host.value, model.value, body).None?
    ensures grabbed.Some? ==> grabbed.value == body.cameraId
    // the first failing check gives 400 with its message, before any frame is taken
    ensures host.Ok? && model.Ok? && Validate(host.value, model.value, body).Some? ==>
      reply == Rejected(400, Validate(host.value, model.value, body).value)
    // nothing is streamed unless all four checks pass and a frame was captured
    ensures reply.Streamed? <==>
      host.Ok? && model.Ok? && Validate(host.value, model.value, body).None? && frame.Ok?
    ensures host.Ok? && model.Ok? && Validate(host.value, model.value, body).None? && frame.Err? ==>
      reply == Rejected(500, frame.message)
    // the model gets the enhanced prompt, JSON format unless custom, and exactly the one frame
    ensures reply.Streamed? ==>
      reply.request == GenerateRequest(model.value.value, EnhancedPrompt(body.prompt.value, body),
                                       if Truthy(Defaulted(body.isCustom, Bool(false))) then None else Some("json"),
                                       [frame.value], true, 0.05, 512)
    // the image line comes first, then the parts' texts in order; the reply
    // ends only when the stream did
    ensures reply.Streamed? ==>
      reply.body == ImageLine(frame.value) + Responses(generation.parts) && reply.ended == generation.failure.None?
  {
    grabbed := None;
    if host.Err? {
      return Rejected(500, host.message), grabbed;
    }
    if model.Err? {
      return Rejected(500, model.message), grabbed;
    }
    var invalid := Validate(host.value, model.value, body);
    if invalid.Some? {
      return Rejected(400, invalid.value), grabbed;
    }
    grabbed := Some(body.cameraId);
    if frame.Err? {
      return Rejected(500, frame.message), grabbed;
    }
    var imageBase64 := frame.value;
    var written := ImageLine(imageBase64);
    var prompt := EnhancedPrompt(body.prompt.value, body);
    var format := if Truthy(Defaulted(body.isCustom, Bool(false))) then None else Some("json");
    var request := GenerateRequest(model.value.value, prompt, format, [imageBase64], true, 0.05, 512);
    var lastPart;
    written, lastPart := WriteParts(written, generation.parts);
    // a failure after the headers went out cannot be reported: the 500 reply
    // throws, and the response is never ended
    reply := Streamed(request, written, generation.failure.None?);
  }
}

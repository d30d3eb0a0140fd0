/**
 * One capture session (capturador.py, `capturar_video`): build the output file
 * name, open the stream, read chunks into a sliding byte buffer, cut JPEG
 * payloads out of it, decode them, open the video writer on the first decoded
 * frame, write and count every decoded frame, and turn the way the loop ended
 * into the `(success, filename, message)` triple.
 *
 * HTTP, OpenCV and the clock are inputs: the status code and the chunk
 * sequence stand for the response, a decode function for `cv2.imdecode`, and
 * a tick budget for the `time.time() - start_time < duracion` test.
 */
module Capture {
  import opened Wrappers
  import opened Builtins
  import opened Jpeg
  import opened Config

  /** Frame geometry, `(frame.shape[1], frame.shape[0])`. */
  datatype Size = Size(width: int, height: int)

  /** What the decoder makes of one payload: a frame, nothing (`None`), or an exception. */
  datatype Decoded = Frame(size: Size) | NoFrame | DecodeFailure(error: Exception)

  /** One `response.raw.read(1024)`: the bytes returned, or the exception it raised. */
  datatype Read = Data(bytes: seq<byte>) | ReadFailure(error: Exception)

  /** The result of `session.get(url, stream=True, timeout=10)`. */
  datatype Connection =
    | Connected(status: int, chunks: seq<Read>)   // chunks past the end return no bytes
    | ConnectFailure(error: Exception)

  /** Everything outside the program that one capture depends on. */
  datatype Environment = Environment(
    timestamp: string,               // `datetime.now().strftime("%Y%m%d_%H%M%S")`
    connection: Connection,
    ticks: nat,                      // loop tests that find the deadline not yet passed
    decode: seq<byte> -> Decoded)

  /** `cv2.VideoWriter(output_filename, fourcc, fps, frame_size)`: what the writer was opened with. */
  datatype Writer = Writer(filename: string, fourcc: string, fps: int, size: Size)

  /** `cv2.VideoWriter_fourcc(*'mp4v')`: fixed, whatever video format the registry holds. */
  const Fourcc: string := "mp4v"

  /**
   * The loop's state: the byte buffer, `frame_size`, the writer `out` (None
   * while none exists), the frames handed to `out.write`, and `frames_captured`.
   */
  datatype Session = Session(buffer: seq<byte>, frameSize: Option<Size>, out: Option<Writer>, written: seq<Size>, frames: nat)

  const Initial: Session := Session([], None, None, [], 0)

  /** What the loop is run with: the output file, the camera's fps and the decoder. */
  datatype Setup = Setup(filename: string, fps: int, decode: seq<byte> -> Decoded)

  /** How the capture loop stopped. */
  datatype Exit = StreamEnded | DeadlinePassed | Interrupted(error: Exception)

  datatype LoopEnd = LoopEnd(session: Session, exit: Exit)

  datatype StepResult = Continue(next: Session) | Stop(last: Session, error: Exception)

  /** The triple `capturar_video` returns, or the exception that escapes it. */
  datatype Outcome = Returned(success: bool, filename: string, message: string) | Raised(error: Exception)

  /** A capture's outcome together with the final loop state (what reached the writer). */
  datatype Capture = Capture(outcome: Outcome, session: Session)

  const DefaultFps: int := 20

  const ModuloByZero: Exception := Exception(ZeroDivisionError, "integer modulo by zero")

  /** `camara.get("fps", 20)`. */
  function Fps(c: Camera): (r: int)
    ensures r == 0 <==> c.fps == Some(0)
    ensures c.fps.None? ==> r == DefaultFps
  {
    if c.fps.Some? then c.fps.value else DefaultFps
  }

  /** `generar_nombre_archivo`: the template filled with `id` and `timestamp`, joined to the directory. */
  function FileName(template: string, id: string, timestamp: string, directory: string): (r: Result<string, Exception>)
    ensures r.Failure? ==> r.error.kind == KeyError || r.error.kind == IndexError || r.error.kind == ValueError
  {
    match Render(template, map["id" := id, "timestamp" := timestamp])
    case Success(name) => Success(PathJoin(directory, name))
    case Failure(e) => Failure(e)
  }

  /** The two `except` clauses: request errors and every other exception. */
  function Handled(nombre: string, filename: string, e: Exception): (r: Outcome)
    ensures r.Returned? && !r.success && r.filename == filename
  {
    if e.kind == RequestException then
      Returned(false, filename, "Error de conexión para " + nombre + ": " + e.text)
    else
      Returned(false, filename, "Error durante la captura de " + nombre + ": " + e.text)
  }

  function StatusMessage(nombre: string, status: int): string {
    "Error al conectar a la URL de " + nombre + ": Código " + IntToString(status)
  }

  function CompletedMessage(frames: nat): string {
    "Captura completada: " + NatToString(frames) + " frames"
  }

  function NoWriterMessage(nombre: string): string {
    "No se pudo iniciar la captura de video para " + nombre + ". Verifique la URL."
  }

  /**
   * One pass of the loop body after a non-empty chunk: append, cut at most one
   * payload, decode it, open the writer on the first frame, write and count
   * the frame; `frames_captured % fps` then raises when `fps` is 0.
   */
  function Step(s: Session, chunk: seq<byte>, setup: Setup): StepResult {
    var e := Extract(s.buffer + chunk);
    match e.payload
    case None => Continue(s.(buffer := e.rest))
    case Some(p) => Absorb(s.(buffer := e.rest), p, setup)
  }

  /** The decode-and-write half of a pass, on a payload already cut from the buffer. */
  function Absorb(s: Session, payload: seq<byte>, setup: Setup): StepResult {
    match setup.decode(payload)
    case NoFrame => Continue(s)
    case DecodeFailure(x) => Stop(s, x)
    case Frame(size) =>
      var withWriter := if s.frameSize.None? then s.(frameSize := Some(size), out := Some(Writer(setup.filename, Fourcc, setup.fps, size)))
                        else s;
      var next := withWriter.(written := s.written + [size], frames := s.frames + 1);
      if setup.fps == 0 then Stop(next, ModuloByZero) else Continue(next)
  }

  /** The capture loop from state `s`, with `ticks` deadline tests still passing. */
  function Run(s: Session, chunks: seq<Read>, ticks: nat, setup: Setup): LoopEnd
    decreases ticks
  {
    if ticks == 0 then LoopEnd(s, DeadlinePassed)
    else if chunks == [] then LoopEnd(s, StreamEnded)
    else match chunks[0]
      case ReadFailure(x) => LoopEnd(s, Interrupted(x))
      case Data(chunk) =>
        if chunk == [] then LoopEnd(s, StreamEnded)
        else match Step(s, chunk, setup)
          case Stop(last, x) => LoopEnd(last, Interrupted(x))
          case Continue(next) => Run(next, chunks[1..], ticks - 1, setup)
  }

  /** An empty read is `if not chunk: break`: the loop ends there with the session as it was. */
  lemma EmptyReadEndsLoop(s: Session, chunks: seq<Read>, ticks: nat, setup: Setup)
    requires chunks != [] && chunks[0].Data? && chunks[0].bytes == [] && ticks > 0
    ensures Run(s, chunks, ticks, setup) == LoopEnd(s, StreamEnded)
  {
  }

  /** A failing read raises out of the loop with the session as it was. */
  lemma FailedReadEndsLoop(s: Session, chunks: seq<Read>, ticks: nat, setup: Setup)
    requires chunks != [] && chunks[0].ReadFailure? && ticks > 0
    ensures Run(s, chunks, ticks, setup) == LoopEnd(s, Interrupted(chunks[0].error))
  {
  }

  /** The whole of `capturar_video` for one camera in one environment. */
  function CaptureSpec(cam: Camera, directory: string, template: string, env: Environment): Capture {
    match FileName(template, cam.id, env.timestamp, directory)
    case Failure(e) => Capture(Raised(e), Initial)
    case Success(filename) =>
      match env.connection
      case ConnectFailure(e) => Capture(Handled(cam.nombre, filename, e), Initial)
      case Connected(status, chunks) =>
        if status != 200 then Capture(Returned(false, filename, StatusMessage(cam.nombre, status)), Initial)
        else
          var end := Run(Initial, chunks, env.ticks, Setup(filename, Fps(cam), env.decode));
          if end.exit.Interrupted? then Capture(Handled(cam.nombre, filename, end.exit.error), end.session)
          else if end.session.out.Some? then
            Capture(Returned(true, filename, CompletedMessage(end.session.frames)), end.session)
          else Capture(Returned(false, filename, NoWriterMessage(cam.nombre)), end.session)
  }

  // ---------------------------------------------------------------------------
  // Properties of one step

  /**
   * Exactly one frame is counted and written per payload that decodes, none
   * otherwise; the writer is opened only when none exists, with that frame's
   * size, the output file, the fixed codec and the camera's fps.
   */
  lemma StepEffect(s: Session, chunk: seq<byte>, setup: Setup)
    ensures var e := Extract(s.buffer + chunk);
            var r := Step(s, chunk, setup);
            var n := if r.Continue? then r.next else r.last;
            && n.buffer == e.rest
            && (if e.payload.Some? && setup.decode(e.payload.value).Frame? then
                  var size := setup.decode(e.payload.value).size;
                  && n.frames == s.frames + 1 && n.written == s.written + [size]
                  && (s.frameSize.None? ==> n.frameSize == Some(size)
                                            && n.out == Some(Writer(setup.filename, Fourcc, setup.fps, size)))
                  && (s.frameSize.Some? ==> n.frameSize == s.frameSize && n.out == s.out)
                else n.frames == s.frames && n.written == s.written && n.frameSize == s.frameSize && n.out == s.out)
            && (r.Stop? <==> e.payload.Some? && (setup.decode(e.payload.value).DecodeFailure?
                                                 || (setup.decode(e.payload.value).Frame? && setup.fps == 0)))
  {
  }

  // ---------------------------------------------------------------------------
  // Properties of the loop

  /**
   * The bookkeeping invariant: the counter equals the number of frames
   * written, and `frame_size` and the writer exist exactly when a frame was
   * written, both fixed by the first one.
   */
  predicate Consistent(s: Session, setup: Setup) {
    && s.frames == |s.written|
    && s.frameSize == (if s.written == [] then None else Some(s.written[0]))
    && s.out == (if s.written == [] then None else Some(Writer(setup.filename, Fourcc, setup.fps, s.written[0])))
  }

  /** One pass keeps the bookkeeping invariant, appends at most one frame and keeps an open writer. */
  lemma StepConsistent(s: Session, chunk: seq<byte>, setup: Setup)
    requires Consistent(s, setup)
    ensures var r := Step(s, chunk, setup);
            var n := if r.Continue? then r.next else r.last;
            && Consistent(n, setup) && s.written <= n.written && |n.written| <= |s.written| + 1
            && (s.out.Some? ==> n.out == s.out)
  {
    var r := Step(s, chunk, setup);
    var n := if r.Continue? then r.next else r.last;
    StepEffect(s, chunk, setup);
    if s.written != [] {
      assert n.written[0] == s.written[0];
    }
  }

  /**
   * The loop keeps the bookkeeping invariant, only ever appends to what was
   * written, and never reopens a writer that exists.
   */
  lemma {:induction false} RunConsistent(s: Session, chunks: seq<Read>, ticks: nat, setup: Setup)
    requires Consistent(s, setup)
    ensures var end := Run(s, chunks, ticks, setup);
            && Consistent(end.session, setup) && s.written <= end.session.written
            && |end.session.written| <= |s.written| + ticks
            && (s.out.Some? ==> end.session.out == s.out)
    decreases ticks
  {
    if ticks > 0 && chunks != [] && chunks[0].Data? && chunks[0].bytes != [] {
      RunUnfold(s, chunks, ticks, setup);
      StepConsistent(s, chunks[0].bytes, setup);
      match Step(s, chunks[0].bytes, setup)
      case Stop(last, x) =>
      case Continue(next) =>
        RunConsistent(next, chunks[1..], ticks - 1, setup);
    }
  }

  /** All bytes the stream delivers, up to its first empty read or failure. */
  function StreamBytes(chunks: seq<Read>): seq<byte> {
    if chunks == [] || chunks[0].ReadFailure? || chunks[0].bytes == [] then []
    else chunks[0].bytes + StreamBytes(chunks[1..])
  }

  lemma NoMarkerPrefix(x: seq<byte>, y: seq<byte>, code: byte)
    requires NoMarkerBefore(x + y, |x + y|, code)
    ensures NoMarkerBefore(x, |x|, code)
  {
    assert forall k :: 0 <= k < |x| ==> MarkerAt(x, k, code) ==> MarkerAt(x + y, k, code);
  }

  /** A stream that never carries a start-of-image marker, or never an end-of-image marker, never yields a frame. */
  lemma {:induction false} NoMarkerNoFrames(s: Session, chunks: seq<Read>, ticks: nat, setup: Setup, code: byte)
    requires code == SoiCode || code == EoiCode
    requires NoMarkerBefore(s.buffer + StreamBytes(chunks), |s.buffer + StreamBytes(chunks)|, code)
    ensures var end := Run(s, chunks, ticks, setup);
            && end.session.written == s.written && end.session.frames == s.frames
            && end.session.frameSize == s.frameSize && end.session.out == s.out
    decreases ticks
  {
    if ticks > 0 && chunks != [] && chunks[0].Data? && chunks[0].bytes != [] {
      var c := chunks[0].bytes;
      var buf := s.buffer + c;
      assert s.buffer + StreamBytes(chunks) == buf + StreamBytes(chunks[1..]);
      NoMarkerPrefix(buf, StreamBytes(chunks[1..]), code);
      NoMarkerNoCut(buf, code);
      assert Step(s, c, setup) == Continue(s.(buffer := buf));
      NoMarkerNoFrames(s.(buffer := buf), chunks[1..], ticks - 1, setup, code);
    }
  }

  // ---------------------------------------------------------------------------
  // Properties of the whole capture

  /**
   * Success means exactly that the loop ended normally with a writer open;
   * then at least one frame was captured, the writer was opened on the output
   * file with the fixed `mp4v` codec, the camera's fps and the first frame's
   * size, and the message reports the frame count.
   */
  lemma CaptureSuccess(cam: Camera, directory: string, template: string, env: Environment)
    ensures var c := CaptureSpec(cam, directory, template, env);
            (c.outcome.Returned? && c.outcome.success)
              <==> (FileName(template, cam.id, env.timestamp, directory).Success?
                    && env.connection.Connected? && env.connection.status == 200
                    && !Run(Initial, env.connection.chunks, env.ticks,
                            Setup(FileName(template, cam.id, env.timestamp, directory).value, Fps(cam), env.decode)).exit.Interrupted?
                    && c.session.out.Some?)
    ensures var c := CaptureSpec(cam, directory, template, env);
            c.outcome.Returned? && c.outcome.success ==>
              && c.session.frames >= 1 && c.session.written != []
              && c.session.frameSize == Some(c.session.written[0])
              && c.session.out == Some(Writer(c.outcome.filename, "mp4v", Fps(cam), c.session.written[0]))
              && c.outcome.message == CompletedMessage(c.session.frames)
  {
    var name := FileName(template, cam.id, env.timestamp, directory);
    if name.Success? && env.connection.Connected? {
      RunConsistent(Initial, env.connection.chunks, env.ticks, Setup(name.value, Fps(cam), env.decode));
    }
  }

  /**
   * Only building the file name raises: a failed connection, a bad status, an
   * exception inside the loop and a missing writer all return a triple naming
   * the output file.
   */
  lemma CaptureRaisesOnlyOnName(cam: Camera, directory: string, template: string, env: Environment)
    ensures var c := CaptureSpec(cam, directory, template, env);
            var name := FileName(template, cam.id, env.timestamp, directory);
            && (c.outcome.Raised? <==> name.Failure?)
            && (c.outcome.Raised? ==> c.outcome.error == name.error)
            && (c.outcome.Returned? ==> c.outcome.filename == name.value)
  {
  }

  /** A status other than 200 fails with the status message before any writer exists. */
  lemma CaptureBadStatus(cam: Camera, directory: string, template: string, env: Environment)
    requires FileName(template, cam.id, env.timestamp, directory).Success?
    requires env.connection.Connected? && env.connection.status != 200
    ensures CaptureSpec(cam, directory, template, env)
              == Capture(Returned(false, FileName(template, cam.id, env.timestamp, directory).value,
                                  StatusMessage(cam.nombre, env.connection.status)),
                         Initial)
  {
  }

  /** From the initial state, a stream lacking either marker leaves no frame and no writer. */
  lemma NoMarkerLoop(chunks: seq<Read>, ticks: nat, setup: Setup)
    requires || NoMarkerBefore(StreamBytes(chunks), |StreamBytes(chunks)|, SoiCode)
             || NoMarkerBefore(StreamBytes(chunks), |StreamBytes(chunks)|, EoiCode)
    ensures Run(Initial, chunks, ticks, setup).session.frames == 0
    ensures Run(Initial, chunks, ticks, setup).session.out.None?
  {
    var bytes := StreamBytes(chunks);
    assert Initial.buffer + bytes == bytes;
    if NoMarkerBefore(bytes, |bytes|, SoiCode) {
      NoMarkerNoFrames(Initial, chunks, ticks, setup, SoiCode);
    } else {
      NoMarkerNoFrames(Initial, chunks, ticks, setup, EoiCode);
    }
  }

  /** A stream lacking the start-of-image or the end-of-image marker fails with no frame captured. */
  lemma {:induction false} CaptureWithoutMarkers(cam: Camera, directory: string, template: string, env: Environment)
    requires env.connection.Connected?
    requires || NoMarkerBefore(StreamBytes(env.connection.chunks), |StreamBytes(env.connection.chunks)|, SoiCode)
             || NoMarkerBefore(StreamBytes(env.connection.chunks), |StreamBytes(env.connection.chunks)|, EoiCode)
    ensures var c := CaptureSpec(cam, directory, template, env);
            c.session.frames == 0 && c.session.out.None? && !(c.outcome.Returned? && c.outcome.success)
  {
    var name := FileName(template, cam.id, env.timestamp, directory);
    if name.Success? {
      NoMarkerLoop(env.connection.chunks, env.ticks, Setup(name.value, Fps(cam), env.decode));
    }
  }

  /**
   * The shipped template, written as literal text and fields nested to the
   * right, with brace-free literals and keyword (not positional) field names.
   */
  lemma TemplateParts()
    ensures FileNameTemplate
            == "camara_" + "{" + "id" + "}" + ("_" + "{" + "timestamp" + "}" + ("." + "{" + "ext" + "}" + []))
    ensures NoBraces("camara_") && NoBraces("_") && NoBraces(".")
    ensures NoBraces("id") && NoBraces("timestamp") && NoBraces("ext")
    ensures !IsPositional("id") && !IsPositional("timestamp") && !IsPositional("ext")
  {
    assert !IsDigit("id"[0]) && !IsDigit("timestamp"[0]) && !IsDigit("ext"[0]);
  }

  /** With `id`, `timestamp` and `ext` all supplied, the shipped template yields `camara_<id>_<timestamp>.<ext>`. */
  lemma TemplateWithExtension(id: string, timestamp: string, ext: string)
    ensures Render(FileNameTemplate, map["id" := id, "timestamp" := timestamp, "ext" := ext])
            == Success("camara_" + (id + ("_" + (timestamp + ("." + ext)))))
  {
    var args := map["id" := id, "timestamp" := timestamp, "ext" := ext];
    var t2 := "." + "{" + "ext" + "}" + [];
    var t1 := "_" + "{" + "timestamp" + "}" + t2;
    TemplateParts();
    RenderNoBraces([], args);
    RenderLiteralField(".", "ext", [], args);
    RenderLiteralField("_", "timestamp", t2, args);
    RenderLiteralField("camara_", "id", t1, args);
    assert ext + [] == ext;
  }

  /** The missing key as `KeyError` prints it. */
  lemma ReprExt()
    ensures Repr("ext") == "'ext'"
  {
    ReprPlain("ext");
  }

  /** The shipped template names `ext`, which `generar_nombre_archivo` never supplies. */
  lemma ShippedTemplateKeyError(id: string, timestamp: string)
    ensures Render(FileNameTemplate, map["id" := id, "timestamp" := timestamp])
            == Failure(Exception(KeyError, "'ext'"))
  {
    var args := map["id" := id, "timestamp" := timestamp];
    var t2 := "." + "{" + "ext" + "}" + [];
    var t1 := "_" + "{" + "timestamp" + "}" + t2;
    TemplateParts();
    assert "ext" !in args by {
      assert "ext"[0] != "id"[0] && "ext"[0] != "timestamp"[0];
    }
    ReprExt();
    RenderLiteralField(".", "ext", [], args);
    RenderLiteralField("_", "timestamp", t2, args);
    RenderLiteralField("camara_", "id", t1, args);
  }

  /** So every capture with the shipped template raises KeyError before the stream is opened. */
  lemma ShippedTemplateRaises(cam: Camera, directory: string, env: Environment)
    ensures CaptureSpec(cam, directory, FileNameTemplate, env)
            == Capture(Raised(Exception(KeyError, "'ext'")), Initial)
  {
    ShippedTemplateKeyError(cam.id, env.timestamp);
  }

  // ---------------------------------------------------------------------------
  // The capture loop as the program runs it

  /** One loop pass on a non-empty chunk, as `Run` sees it. */
  lemma RunUnfold(s: Session, chunks: seq<Read>, ticks: nat, setup: Setup)
    requires ticks > 0 && chunks != [] && chunks[0].Data? && chunks[0].bytes != []
    ensures Run(s, chunks, ticks, setup)
            == match Step(s, chunks[0].bytes, setup)
               case Stop(last, x) => LoopEnd(last, Interrupted(x))
               case Continue(next) => Run(next, chunks[1..], ticks - 1, setup)
  {
  }

  /**
   * The two `find` calls and the slices of the loop body: a payload when both
   * markers are present, and the buffer that remains.
   */
  method CutPayload(bytesData: seq<byte>) returns (jpg: Option<seq<byte>>, rest: seq<byte>)
    ensures Extraction(jpg, rest) == Extract(bytesData)
  {
    var a := Find(bytesData, SoiCode);
    var b := Find(bytesData, EoiCode);
    if a.Some? && b.Some? {
      jpg := Some(Slice(bytesData, a.value, b.value + 2));
      rest := bytesData[b.value + 2..];
    } else {
      jpg, rest := None, bytesData;
    }
  }

  /**
   * The body of the `while` loop after a non-empty read: append the chunk, cut
   * out a payload, decode it, open the writer on the first frame, write and
   * count the frame, and evaluate `frames_captured % fps`. `error` is the
   * exception the pass raised, if any.
   */
  method LoopPass(bytesData: seq<byte>, frameSize: Option<Size>, out: Option<Writer>, written: seq<Size>,
                  framesCaptured: nat, chunk: seq<byte>, setup: Setup)
    returns (bytesData': seq<byte>, frameSize': Option<Size>, out': Option<Writer>, written': seq<Size>,
             framesCaptured': nat, error: Option<Exception>)
    ensures var after := Session(bytesData', frameSize', out', written', framesCaptured');
            Step(Session(bytesData, frameSize, out, written, framesCaptured), chunk, setup)
              == if error.Some? then Stop(after, error.value) else Continue(after)
  {
    var jpg;
    jpg, bytesData' := CutPayload(bytesData + chunk);
    if jpg.Some? {
      frameSize', out', written', framesCaptured', error :=
        WriteFrame(frameSize, out, written, framesCaptured, jpg.value, setup, bytesData');
    } else {
      frameSize', out', written', framesCaptured', error := frameSize, out, written, framesCaptured, None;
    }
  }

  /**
   * Decode the payload; on a frame, open the writer if `frame_size` is still
   * unset, write and count the frame, then evaluate `frames_captured % fps`.
   */
  method WriteFrame(frameSize: Option<Size>, out: Option<Writer>, written: seq<Size>, framesCaptured: nat,
                    jpg: seq<byte>, setup: Setup, ghost buffer: seq<byte>)
    returns (frameSize': Option<Size>, out': Option<Writer>, written': seq<Size>, framesCaptured': nat,
             error: Option<Exception>)
    ensures var after := Session(buffer, frameSize', out', written', framesCaptured');
            Absorb(Session(buffer, frameSize, out, written, framesCaptured), jpg, setup)
              == if error.Some? then Stop(after, error.value) else Continue(after)
  {
    frameSize', out', written', framesCaptured', error := frameSize, out, written, framesCaptured, None;
    var frame := setup.decode(jpg);
    if frame.DecodeFailure? {
      error := Some(frame.error);
    } else if frame.Frame? {
      if frameSize'.None? {
        frameSize' := Some(frame.size);
        out' := Some(Writer(setup.filename, Fourcc, setup.fps, frame.size));
      }
      written' := written' + [frame.size];
      framesCaptured' := framesCaptured' + 1;
      if setup.fps == 0 {
        error := Some(ModuloByZero);
      }
    }
  }

  /**
   * One turn of the `while` loop of `capturar_video`: read the next chunk, stop
   * on a failing or empty read, otherwise run the body once. The result is how
   * `Run` moves on: to its end when the turn stops the loop, or to the rest of
   * the stream with one tick fewer.
   */
  method LoopTurn(bytesData: seq<byte>, frameSize: Option<Size>, out: Option<Writer>, written: seq<Size>,
                  framesCaptured: nat, chunks: seq<Read>, ticks: nat, setup: Setup)
    returns (bytesData': seq<byte>, frameSize': Option<Size>, out': Option<Writer>, written': seq<Size>,
             framesCaptured': nat, stop: Option<Exit>)
    requires chunks != [] && ticks > 0
    ensures stop.Some? ==>
              Run(Session(bytesData, frameSize, out, written, framesCaptured), chunks, ticks, setup)
              == LoopEnd(Session(bytesData', frameSize', out', written', framesCaptured'), stop.value)
    ensures stop.None? ==>
              Run(Session(bytesData, frameSize, out, written, framesCaptured), chunks, ticks, setup)
              == Run(Session(bytesData', frameSize', out', written', framesCaptured'), chunks[1..], ticks - 1, setup)
  {
    bytesData', frameSize', out', written', framesCaptured' := bytesData, frameSize, out, written, framesCaptured;
    var before := Session(bytesData, frameSize, out, written, framesCaptured);
    // A failing read raises out of the loop; an empty one is `if not chunk: break`.
    if chunks[0].ReadFailure? {
      FailedReadEndsLoop(before, chunks, ticks, setup);
      return bytesData', frameSize', out', written', framesCaptured', Some(Interrupted(chunks[0].error));
    }
    if chunks[0].bytes == [] {
      EmptyReadEndsLoop(before, chunks, ticks, setup);
      return bytesData', frameSize', out', written', framesCaptured', Some(StreamEnded);
    }
    RunUnfold(before, chunks, ticks, setup);
    var error;
    bytesData', frameSize', out', written', framesCaptured', error :=
      LoopPass(bytesData, frameSize, out, written, framesCaptured, chunks[0].bytes, setup);
    stop := if error.Some? then Some(Interrupted(error.value)) else None;
  }

  /**
   * The `while` loop of `capturar_video`: mutates the byte buffer,
   * `frame_size`, the writer, the written frames and the counter, and ends as
   * `Run` says.
   */
  method CaptureLoop(chunks: seq<Read>, ticks: nat, setup: Setup) returns (end: LoopEnd)
    ensures end == Run(Initial, chunks, ticks, setup)
  {
    var frameSize: Option<Size> := None;
    var out: Option<Writer> := None;
    var written: seq<Size> := [];
    var bytesData: seq<byte> := [];
    var framesCaptured: nat := 0;
    ghost var total := Run(Initial, chunks, ticks, setup);
    // `unread` is what the stream has yet to deliver, `left` the reads the deadline still allows.
    var unread := chunks;
    var left := ticks;
    while left > 0
      invariant Run(Session(bytesData, frameSize, out, written, framesCaptured), unread, left, setup) == total
    {
      if unread == [] {
        return LoopEnd(Session(bytesData, frameSize, out, written, framesCaptured), StreamEnded);
      }
      var stop;
      bytesData, frameSize, out, written, framesCaptured, stop :=
        LoopTurn(bytesData, frameSize, out, written, framesCaptured, unread, left, setup);
      if stop.Some? {
        return LoopEnd(Session(bytesData, frameSize, out, written, framesCaptured), stop.value);
      }
      unread := unread[1..];
      left := left - 1;
    }
    end := LoopEnd(Session(bytesData, frameSize, out, written, framesCaptured), DeadlinePassed);
  }

  /**
   * `capturar_video`: file name, connection, the capture loop, and the triple
   * built from how the loop ended and whether a writer was opened.
   */
  method CaptureVideo(cam: Camera, directory: string, template: string, env: Environment) returns (c: Capture)
    ensures c == CaptureSpec(cam, directory, template, env)
    ensures c.outcome.Returned? && c.outcome.success ==> c.session.frames >= 1 && c.session.out.Some?
  {
    CaptureSuccess(cam, directory, template, env);
    var name := FileName(template, cam.id, env.timestamp, directory);
    if name.Failure? {
      return Capture(Raised(name.error), Initial);
    }
    var filename := name.value;
    if env.connection.ConnectFailure? {
      return Capture(Handled(cam.nombre, filename, env.connection.error), Initial);
    }
    if env.connection.status != 200 {
      return Capture(Returned(false, filename, StatusMessage(cam.nombre, env.connection.status)), Initial);
    }
    var end := CaptureLoop(env.connection.chunks, env.ticks, Setup(filename, Fps(cam), env.decode));
    if end.exit.Interrupted? {
      return Capture(Handled(cam.nombre, filename, end.exit.error), end.session);
    }
    if end.session.out.Some? {
      return Capture(Returned(true, filename, CompletedMessage(end.session.frames)), end.session);
    }
    return Capture(Returned(false, filename, NoWriterMessage(cam.nombre)), end.session);
  }
}

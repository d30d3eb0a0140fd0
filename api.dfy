/**
 * The REST layer (api.py): the partial camera update, the single-camera
 * capture with its guards, the format endpoints, the capture report and its
 * tallies, and the table of background tasks that `POST /capturar` creates
 * and `background_capture_all` moves through its states.
 *
 * Routing, request parsing and response encoding are not modelled; each
 * endpoint is the method or function that computes its response, and an
 * `HTTPException` is a `Failure` carrying its status and detail.
 */
module Api {
  import opened Wrappers
  import opened Builtins
  import opened Config
  import opened Capture
  import opened Orchestrator

  /** How a request fails: an `HTTPException`, a rejected query parameter, or an exception that escapes the handler. */
  datatype ApiError =
    | HttpError(status: int, detail: string)
    | ValidationError(parameter: string)   // FastAPI answers 422
    | Uncaught(error: Exception)           // FastAPI answers 500

  function CameraNotFound(id: string): ApiError {
    HttpError(404, "Cámara con ID " + id + " no encontrada")
  }

  // ---------------------------------------------------------------------------
  // PUT /camaras/{id_camara}

  /**
   * `actualizar_camara`: 404 when no camera has the id; otherwise every field
   * the request supplies overwrites that field of the first camera with the
   * id, in place, and the updated camera is returned.
   */
  method UpdateCamera(reg: Registry, id: string, datos: Patch) returns (r: Result<Camera, ApiError>)
    modifies reg
    ensures r.Failure? <==> FindById(old(reg.cameras), id).None?
    ensures r.Failure? ==> r.error == CameraNotFound(id) && reg.cameras == old(reg.cameras)
    ensures r.Success? ==> r.value == Apply(FindById(old(reg.cameras), id).value, datos)
    ensures reg.cameras == UpdateFirst(old(reg.cameras), id, datos)
    ensures reg.videoFormat == old(reg.videoFormat)
  {
    if FindById(reg.cameras, id).None? {
      return Failure(CameraNotFound(id));
    }
    var i := 0;
    while i < |reg.cameras|
      invariant 0 <= i <= |reg.cameras|
      invariant reg.cameras == old(reg.cameras) && reg.videoFormat == old(reg.videoFormat)
      invariant forall j :: 0 <= j < i ==> reg.cameras[j].id != id
    {
      if reg.cameras[i].id == id {
        assert FirstIndex(reg.cameras, id) == Some(i);
        var c := reg.cameras[i];
        if datos.url.Some? {
          c := c.(url := datos.url.value);
        }
        if datos.nombre.Some? {
          c := c.(nombre := datos.nombre.value);
        }
        if datos.duracion.Some? {
          c := c.(duracion := datos.duracion);
        }
        if datos.fps.Some? {
          c := c.(fps := datos.fps);
        }
        if datos.habilitada.Some? {
          c := c.(habilitada := datos.habilitada);
        }
        reg.cameras := reg.cameras[i := c];
        return Success(c);
      }
      i := i + 1;
    }
    // The search above found the id, so the loop always returns.
    assert false;
    return Failure(HttpError(500, "Error al actualizar la cámara"));
  }

  // ---------------------------------------------------------------------------
  // POST /capturar/{id_camara}

  /** The guards of `capturar_una_camara`: 404 for an unknown id, 400 for a disabled camera. */
  function CheckCapturable(cams: seq<Camera>, id: string): (r: Result<Camera, ApiError>)
    ensures r.Success? <==> FindById(cams, id).Some? && IsEnabled(FindById(cams, id).value)
    ensures r.Success? ==> r.value == FindById(cams, id).value
    ensures FindById(cams, id).None? ==> r == Failure(CameraNotFound(id))
    ensures FindById(cams, id).Some? && !IsEnabled(FindById(cams, id).value)
            ==> r == Failure(HttpError(400, "La cámara " + id + " está deshabilitada"))
  {
    match FindById(cams, id)
    case None => Failure(CameraNotFound(id))
    case Some(c) =>
      if !IsEnabled(c) then Failure(HttpError(400, "La cámara " + id + " está deshabilitada"))
      else Success(c)
  }

  /** The response body of a single capture (the file size in MB is not modelled). */
  datatype SingleCapture = SingleCapture(id: string, nombre: string, exito: bool, archivo: string, mensaje: string)

  /** What `capturar_una_camara` answers, given what the capture meets. */
  function SingleCaptureSpec(cams: seq<Camera>, id: string, env: Environment): (r: Result<SingleCapture, ApiError>)
    ensures r.Success? ==> CheckCapturable(cams, id).Success? && r.value.id == id
    ensures (r.Failure? && r.error.Uncaught?)
            <==> CheckCapturable(cams, id).Success? && FileName(FileNameTemplate, id, env.timestamp, VideoDirectory).Failure?
  {
    match CheckCapturable(cams, id)
    case Failure(e) => Failure(e)
    case Success(cam) =>
      CaptureRaisesOnlyOnName(cam, VideoDirectory, FileNameTemplate, env);
      match CaptureSpec(cam, VideoDirectory, FileNameTemplate, env).outcome
      case Raised(x) => Failure(Uncaught(x))
      case Returned(exito, archivo, mensaje) => Success(SingleCapture(cam.id, cam.nombre, exito, archivo, mensaje))
  }

  /**
   * `capturar_una_camara`: the guards, then one synchronous capture with the
   * configured directory and file-name template.
   */
  method CaptureOneCamera(reg: Registry, id: string, env: Environment) returns (r: Result<SingleCapture, ApiError>)
    ensures r == SingleCaptureSpec(reg.cameras, id, env)
  {
    var checked := CheckCapturable(reg.cameras, id);
    if checked.Failure? {
      return Failure(checked.error);
    }
    var cam := checked.value;
    var c := CaptureVideo(cam, VideoDirectory, FileNameTemplate, env);
    if c.outcome.Raised? {
      return Failure(Uncaught(c.outcome.error));
    }
    r := Success(SingleCapture(cam.id, cam.nombre, c.outcome.success, c.outcome.filename, c.outcome.message));
  }

  /**
   * The guards come first and, with the shipped template, every camera that
   * passes them makes the handler fail with the template's KeyError.
   */
  lemma SingleCaptureOutcomes(cams: seq<Camera>, id: string, env: Environment)
    ensures FindById(cams, id).None? ==> SingleCaptureSpec(cams, id, env) == Failure(CameraNotFound(id))
    ensures FindById(cams, id).Some? && !IsEnabled(FindById(cams, id).value)
            ==> SingleCaptureSpec(cams, id, env) == Failure(HttpError(400, "La cámara " + id + " está deshabilitada"))
    ensures FindById(cams, id).Some? && IsEnabled(FindById(cams, id).value)
            ==> SingleCaptureSpec(cams, id, env) == Failure(Uncaught(Exception(KeyError, "'ext'")))
  {
    var found := FindById(cams, id);
    if found.Some? && IsEnabled(found.value) {
      ShippedTemplateRaises(found.value, VideoDirectory, env);
    }
  }

  // ---------------------------------------------------------------------------
  // GET /formato and PUT /formato/{formato}

  datatype FormatInfo = FormatInfo(formato: string, codec: string, esComprimido: bool)

  /** `obtener_formato`: the extension, its codec, and whether it is the compressed container. */
  function GetFormat(reg: Registry): (r: FormatInfo)
    reads reg
    requires reg.Valid()
    ensures r.formato == reg.videoFormat && r.codec == Codecs[reg.videoFormat]
    ensures r.esComprimido <==> r.codec == "mp4v"
  {
    FormatInfo(reg.Extension(), reg.Codec(), Lower(reg.Extension()) == "mp4")
  }

  datatype FormatChange = FormatChange(mensaje: string, info: FormatInfo)

  const InvalidFormat: ApiError := HttpError(400, "Formato no válido. Use 'mp4' o 'avi'")

  /**
   * `cambiar_formato`: a format that does not lower-case to `mp4` or `avi` is
   * refused with 400 and nothing changes; otherwise the setting becomes its
   * lower-case form and the new setting is reported.
   */
  method ChangeFormatEndpoint(reg: Registry, formato: string) returns (r: Result<FormatChange, ApiError>)
    requires reg.Valid()
    modifies reg
    ensures reg.Valid()
    ensures r.Failure? <==> Lower(formato) != "mp4" && Lower(formato) != "avi"
    ensures r.Failure? ==> r.error == InvalidFormat && reg.videoFormat == old(reg.videoFormat)
    ensures r.Success? ==> reg.videoFormat == Lower(formato)
                           && r.value.mensaje == "Formato cambiado a " + formato
                           && r.value.info == GetFormat(reg)
                           && (r.value.info.esComprimido <==> Lower(formato) == "mp4")
    ensures reg.cameras == old(reg.cameras)
  {
    if Lower(formato) !in ["mp4", "avi"] {
      return Failure(InvalidFormat);
    }
    var _ := reg.ChangeFormat(formato);
    LowerIdempotent(formato);
    r := Success(FormatChange("Formato cambiado a " + formato, GetFormat(reg)));
  }

  /**
   * The spellings the endpoint accepts: three characters that read `mp4` or
   * `avi` once each letter is taken in either case, as `MP4` or `Avi`.
   */
  lemma AcceptedSpellings(formato: string)
    ensures (Lower(formato) == "mp4" || Lower(formato) == "avi")
            <==> |formato| == 3
                 && (|| ((formato[0] == 'm' || formato[0] == 'M') && (formato[1] == 'p' || formato[1] == 'P')
                         && formato[2] == '4')
                     || ((formato[0] == 'a' || formato[0] == 'A') && (formato[1] == 'v' || formato[1] == 'V')
                         && (formato[2] == 'i' || formato[2] == 'I')))
  {
    SpelledMp4(formato);
    SpelledAvi(formato);
  }

  /** `x.lower() == "mp4"` exactly for `mp4`, `MP4`, `Mp4` and `mP4`. */
  lemma SpelledMp4(s: string)
    ensures Lower(s) == "mp4"
            <==> |s| == 3 && (s[0] == 'm' || s[0] == 'M') && (s[1] == 'p' || s[1] == 'P') && s[2] == '4'
  {
    LowerThreeLetters(s, 'm', 'p', '4');
    if |s| == 3 {
      LowerCharIs(s[0], 'm', 'M');
      LowerCharIs(s[1], 'p', 'P');
      LowerCharKeeps(s[2], '4');
    }
  }

  /** `x.lower() == "avi"` exactly when each letter is `a`, `v`, `i` in either case. */
  lemma SpelledAvi(s: string)
    ensures Lower(s) == "avi"
            <==> |s| == 3 && (s[0] == 'a' || s[0] == 'A') && (s[1] == 'v' || s[1] == 'V') && (s[2] == 'i' || s[2] == 'I')
  {
    LowerThreeLetters(s, 'a', 'v', 'i');
    if |s| == 3 {
      LowerCharIs(s[0], 'a', 'A');
      LowerCharIs(s[1], 'v', 'V');
      LowerCharIs(s[2], 'i', 'I');
    }
  }

  // ---------------------------------------------------------------------------
  // The capture report (guardar_resultados)

  datatype Report = Report(
    fecha: string,
    totalCamaras: nat,
    exitosas: nat,
    fallidas: nat,
    formatoVideo: string,
    resultados: seq<Record>)

  /** `sum(1 for r in resultados if r["exito"])`. */
  function CountSuccess(rs: seq<Record>): (n: nat)
    ensures n <= |rs|
  {
    if rs == [] then 0 else (if rs[0].exito then 1 else 0) + CountSuccess(rs[1..])
  }

  /** `sum(1 for r in resultados if not r["exito"])`. */
  function CountFailure(rs: seq<Record>): (n: nat)
    ensures n <= |rs|
  {
    if rs == [] then 0 else (if rs[0].exito then 0 else 1) + CountFailure(rs[1..])
  }

  /** Both tallies add up over concatenated lists, so each entry is counted on its own. */
  lemma {:induction false} TallyAppend(a: seq<Record>, b: seq<Record>)
    ensures CountSuccess(a + b) == CountSuccess(a) + CountSuccess(b)
    ensures CountFailure(a + b) == CountFailure(a) + CountFailure(b)
  {
    if a == [] {
      assert a + b == b;
    } else {
      assert (a + b)[0] == a[0];
      assert (a + b)[1..] == a[1..] + b;
      TallyAppend(a[1..], b);
    }
  }

  /** A single entry is one success or one failure, as its `exito` says. */
  lemma TallyOne(r: Record)
    ensures CountSuccess([r]) == (if r.exito then 1 else 0)
    ensures CountFailure([r]) == (if r.exito then 0 else 1)
  {
    assert [r][1..] == [];
  }

  /** Every record is counted exactly once, as a success or as a failure. */
  lemma {:induction false} TallyPartition(rs: seq<Record>)
    ensures CountSuccess(rs) + CountFailure(rs) == |rs|
    ensures CountSuccess(rs) == |rs| <==> forall i :: 0 <= i < |rs| ==> rs[i].exito
  {
    if rs != [] {
      TallyPartition(rs[1..]);
      assert forall i :: 1 <= i < |rs| ==> rs[i] == rs[1..][i - 1];
    }
  }

  /** The report dictionary for the current format setting. */
  function MakeReport(fecha: string, videoFormat: string, rs: seq<Record>): (r: Report)
    requires videoFormat in Codecs
    ensures r.exitosas + r.fallidas == r.totalCamaras == |r.resultados|
    ensures r.exitosas == CountSuccess(rs) && r.fallidas == CountFailure(rs)
    ensures r.resultados == rs && r.fecha == fecha
    ensures r.formatoVideo == Upper(videoFormat) + " (" + CodecOf(videoFormat) + ")"
  {
    TallyPartition(rs);
    Report(fecha, |rs|, CountSuccess(rs), CountFailure(rs), Upper(videoFormat) + " (" + CodecOf(videoFormat) + ")", rs)
  }

  /** `os.path.join("reportes", f"captura_{timestamp}.json")`. */
  function ReportFile(timestamp: string): (r: string)
    ensures r == "reportes/captura_" + timestamp + ".json"
  {
    PathJoin("reportes", "captura_" + timestamp + ".json")
  }

  /** The clock readings and the disk as one background run meets them. */
  datatype RunWorld = RunWorld(
    world: Camera -> Environment,   // what each capture meets
    timestamp: string,              // strftime("%Y%m%d_%H%M%S") for the report file
    fecha: string,                  // isoformat() for the report
    diskError: Option<Exception>)   // what creating or writing the report raises, if anything

  /** `guardar_resultados`: the report file path and the report, or what writing it raised. */
  function SaveResults(videoFormat: string, rs: seq<Record>, rw: RunWorld): (r: Result<(string, Report), Exception>)
    requires videoFormat in Codecs
    ensures r.Success? <==> rw.diskError.None?
    ensures r.Failure? ==> r.error == rw.diskError.value
    ensures r.Success? ==> && r.value.0 == "reportes/captura_" + rw.timestamp + ".json"
                           && r.value.1.fecha == rw.fecha && r.value.1.resultados == rs
                           && r.value.1.totalCamaras == |rs|
                           && r.value.1.exitosas == CountSuccess(rs) && r.value.1.fallidas == CountFailure(rs)
                           && r.value.1.formatoVideo == Upper(videoFormat) + " (" + CodecOf(videoFormat) + ")"
  {
    if rw.diskError.Some? then Failure(rw.diskError.value)
    else Success((ReportFile(rw.timestamp), MakeReport(rw.fecha, videoFormat, rs)))
  }

  // ---------------------------------------------------------------------------
  // Background tasks

  /** An entry of `tareas_activas`. */
  datatype TaskState =
    | Pending                                      // {"estado": "pendiente"}
    | InProgress(progreso: int)                    // {"estado": "en_progreso", "progreso": 0}
    | Completed(reporte: Report, archivoReporte: string)
    | TaskError(mensaje: string)                   // {"estado": "error", "mensaje": ...}

  const NoEnabledCameras: string := "No hay cámaras habilitadas para capturar."

  /**
   * The states `background_capture_all` writes for its task, in order: the
   * error when no camera is enabled; otherwise `en_progreso`, then the
   * outcome of the capture and the report; when no worker is started the
   * join never returns and nothing follows `en_progreso`.
   */
  function BackgroundWrites(cams: seq<Camera>, videoFormat: string, maxThreads: int, rw: RunWorld): (w: seq<TaskState>)
    requires videoFormat in Codecs
    ensures 1 <= |w| <= 2
  {
    var enabled := Enabled(cams);
    if enabled == [] then [TaskError(NoEnabledCameras)]
    else if ThreadCount(maxThreads, |enabled|) == 0 then [InProgress(0)]
    else [InProgress(0), Finished(videoFormat, Records(enabled, VideoDirectory, FileNameTemplate, rw.world), rw)]
  }

  /** The state a task ends in once the results are in: the saved report, or the error saving it raised. */
  function Finished(videoFormat: string, rs: seq<Record>, rw: RunWorld): (t: TaskState)
    requires videoFormat in Codecs
    ensures t.Completed? <==> rw.diskError.None?
    ensures t.Completed? ==> t == Completed(MakeReport(rw.fecha, videoFormat, rs), ReportFile(rw.timestamp))
    ensures t.TaskError? ==> t.mensaje == rw.diskError.value.text
  {
    match SaveResults(videoFormat, rs, rw)
    case Failure(e) => TaskError(e.text)
    case Success(saved) => Completed(saved.1, saved.0)
  }

  /**
   * The task goes to `error` when no camera is enabled, and otherwise passes
   * through `en_progreso` before ending in `completado` or `error` (it stays
   * in progress only when no worker was started). A completed report has the
   * shipped file name and, since the shipped template makes every capture
   * raise, no results.
   */
  lemma BackgroundLaws(cams: seq<Camera>, videoFormat: string, maxThreads: int, rw: RunWorld)
    requires videoFormat in Codecs
    ensures var w := BackgroundWrites(cams, videoFormat, maxThreads, rw);
            && (Enabled(cams) == [] <==> w == [TaskError(NoEnabledCameras)])
            && (Enabled(cams) != [] ==> w[0] == InProgress(0))
            && (Enabled(cams) != [] && maxThreads >= 1 ==> |w| == 2 && (w[1].Completed? || w[1].TaskError?))
            && (Pending !in w)
    ensures var w := BackgroundWrites(cams, videoFormat, maxThreads, rw);
            w[|w| - 1].Completed? ==>
              && w[|w| - 1].archivoReporte == ReportFile(rw.timestamp)
              && w[|w| - 1].reporte.resultados == []
              && w[|w| - 1].reporte.totalCamaras == 0
  {
    var enabled := Enabled(cams);
    if enabled != [] {
      ShippedTemplateRecordsNothing(enabled, VideoDirectory, rw.world);
    }
  }

  /** What `POST /capturar` answers. */
  datatype Started = Started(message: string, taskId: string)

  /** `tareas_activas`, with a log of every state written to it. */
  class TaskBoard {
    var tasks: map<string, TaskState>
    ghost var log: seq<(string, TaskState)>

    constructor ()
      ensures tasks == map[] && log == []
    {
      tasks := map[];
      log := [];
    }

    /** `obtener_estado_tarea`: the task's entry, or 404. */
    function Status(taskId: string): (r: Result<TaskState, ApiError>)
      reads this
      ensures r.Success? <==> taskId in tasks
      ensures r.Success? ==> r.value == tasks[taskId]
      ensures r.Failure? ==> r.error == HttpError(404, "Tarea con ID " + taskId + " no encontrada")
    {
      if taskId !in tasks then Failure(HttpError(404, "Tarea con ID " + taskId + " no encontrada"))
      else Success(tasks[taskId])
    }

    /**
     * `capturar_todas`: `max_hilos` outside 1..16 is refused before the handler
     * runs; otherwise the task `task_<stamp>` is registered as pending.
     */
    method RequestCaptureAll(maxThreads: int, stamp: string) returns (r: Result<Started, ApiError>)
      modifies this
      ensures r.Failure? <==> maxThreads < 1 || maxThreads > 16
      ensures r.Failure? ==> r.error == ValidationError("max_hilos") && tasks == old(tasks) && log == old(log)
      ensures r.Success? ==> r.value == Started("Captura iniciada en segundo plano", "task_" + stamp)
                             && tasks == old(tasks)["task_" + stamp := Pending]
                             && log == old(log) + [("task_" + stamp, Pending)]
                             && Status(r.value.taskId) == Success(Pending)
    {
      if maxThreads < 1 || maxThreads > 16 {
        return Failure(ValidationError("max_hilos"));
      }
      var taskId := "task_" + stamp;
      tasks := tasks[taskId := Pending];
      log := log + [(taskId, Pending)];
      r := Success(Started("Captura iniciada en segundo plano", taskId));
    }

    /**
     * `background_capture_all`: captures the enabled cameras with the
     * configured directory and template, saves the report and records each
     * state of the task as it goes.
     */
    method BackgroundCaptureAll(reg: Registry, taskId: string, maxThreads: int, rw: RunWorld)
      requires reg.Valid()
      modifies this
      ensures log == old(log) + Tagged(taskId, BackgroundWrites(reg.cameras, reg.videoFormat, maxThreads, rw))
      ensures tasks == old(tasks)[taskId := Last(BackgroundWrites(reg.cameras, reg.videoFormat, maxThreads, rw))]
    {
      var enabled := Enabled(reg.cameras);
      if enabled == [] {
        tasks := tasks[taskId := TaskError(NoEnabledCameras)];
        log := log + [(taskId, TaskError(NoEnabledCameras))];
        return;
      }
      CaptureEnabled(reg, taskId, enabled, maxThreads, rw);
      if ThreadCount(maxThreads, |enabled|) == 0 {
        assert Tagged(taskId, [InProgress(0)]) == [(taskId, InProgress(0))];
      } else {
        ghost var last := Finished(reg.videoFormat, Records(enabled, VideoDirectory, FileNameTemplate, rw.world), rw);
        assert Tagged(taskId, [InProgress(0), last]) == [(taskId, InProgress(0)), (taskId, last)];
      }
    }

    /** The run once some camera is enabled: `en_progreso`, then, when the join returns, the saved outcome. */
    method CaptureEnabled(reg: Registry, taskId: string, enabled: seq<Camera>, maxThreads: int, rw: RunWorld)
      requires reg.Valid() && enabled != []
      modifies this
      ensures ThreadCount(maxThreads, |enabled|) == 0 ==>
                log == old(log) + [(taskId, InProgress(0))] && tasks == old(tasks)[taskId := InProgress(0)]
      ensures ThreadCount(maxThreads, |enabled|) >= 1 ==>
                var last := Finished(reg.videoFormat, Records(enabled, VideoDirectory, FileNameTemplate, rw.world), rw);
                log == old(log) + [(taskId, InProgress(0)), (taskId, last)] && tasks == old(tasks)[taskId := last]
    {
      tasks := tasks[taskId := InProgress(0)];
      log := log + [(taskId, InProgress(0))];
      var g, threads := CaptureAllCameras(enabled, VideoDirectory, FileNameTemplate, maxThreads, rw.world);
      if g.Stalled? {
        // queue.join() never returns: the task stays in progress.
        return;
      }
      Finish(reg, taskId, g.results, rw);
      var final := Finished(reg.videoFormat, g.results, rw);
      AppendTwo(old(log), (taskId, InProgress(0)), (taskId, final));
      UpdateTwice(old(tasks), taskId, InProgress(0), final);
    }

    /** `guardar_resultados` and the last state written for the task: `completado`, or `error` when saving raised. */
    method Finish(reg: Registry, taskId: string, rs: seq<Record>, rw: RunWorld)
      requires reg.Valid()
      modifies this
      ensures tasks == old(tasks)[taskId := Finished(reg.videoFormat, rs, rw)]
      ensures log == old(log) + [(taskId, Finished(reg.videoFormat, rs, rw))]
    {
      var saved := SaveResults(reg.Extension(), rs, rw);
      var final := if saved.Failure? then TaskError(saved.error.text) else Completed(saved.value.1, saved.value.0);
      tasks := tasks[taskId := final];
      log := log + [(taskId, final)];
    }
  }

  /** Two appends in a row add both entries in order. */
  lemma AppendTwo<T>(l: seq<T>, a: T, b: T)
    ensures l + [a] + [b] == l + [a, b]
  {
  }

  /** A second write to the same task replaces the first. */
  lemma UpdateTwice<K, V>(m: map<K, V>, k: K, v: V, w: V)
    ensures m[k := v][k := w] == m[k := w]
  {
  }

  /** The log entries for one task's writes. */
  function Tagged(taskId: string, w: seq<TaskState>): (r: seq<(string, TaskState)>)
    ensures |r| == |w| && forall i :: 0 <= i < |w| ==> r[i] == (taskId, w[i])
  {
    if w == [] then [] else [(taskId, w[0])] + Tagged(taskId, w[1..])
  }

  function Last(w: seq<TaskState>): TaskState
    requires w != []
  {
    w[|w| - 1]
  }
}

# video_taker, modelled in Dafny

video_taker records motion-JPEG streams from networked cameras into local
video files. This project models its core:

- the camera registry and the video-format setting (`config.py`);
- one capture session (`capturar_video`). It builds the output file name, opens
  the stream, reads chunks into a sliding buffer, cuts a JPEG payload out of it
  between the FF D8 and FF D9 markers, decodes it, opens the video writer on
  the first frame, and writes and counts every decoded frame;
- the fan-out over several cameras (`worker_captura`,
  `capturar_todas_las_camaras`): a work queue, up to `max_hilos` workers and a
  shared result list;
- the REST handlers of `api.py` that use them: the partial camera update, the
  single capture, the format endpoints, the report, and the table of
  background tasks.

Files, one module each:

| file | module | models |
|---|---|---|
| wrappers.dfy | Wrappers | `Option` and `Result` |
| builtins.dfy | Builtins | the Python runtime pieces the code relies on: exceptions, ASCII `lower`/`upper`, decimal rendering, `os.path.join`, keyword-only `str.format` |
| jpeg.dfy | Jpeg | marker search (`bytes.find`), slicing, and the cut the capture loop makes |
| config.dfy | Config | camera records, update patches, the registry as a class with in-place updates |
| capture.dfy | Capture | one capture: the loop as a function (`Run`) and as the imperative `while` loop (`CaptureLoop`), and the whole `capturar_video` |
| orchestrator.dfy | Orchestrator | the queue and its worker as a class, and `capturar_todas_las_camaras` |
| api.dfy | Api | the handlers, the report, and the task table as a class |

The world outside the program is passed in as data:

- the HTTP response is a status code and a sequence of reads;
- `cv2.imdecode` is a decode function from bytes to a frame size, `None` or an exception;
- the clock is a count of loop tests that find the deadline not yet passed;
- the timestamps are strings;
- the report file write is an optional exception.

This project reproduces several behaviours of the code as written:

- The shipped file-name template `camara_{id}_{timestamp}.{ext}` names an `ext`
  field that `generar_nombre_archivo` never supplies. So every capture raises
  `KeyError: 'ext'` before the stream is opened, outside the `try` block.
  - The worker drops that camera's entry, so background runs report no results.
  - The single-capture endpoint fails with an uncaught error (HTTP 500).
  - `TemplateWithExtension` shows the name the template gives once `ext` is supplied.
- The capture codec is always `mp4v`, whatever the format setting says.
- A camera with `fps` 0 raises `ZeroDivisionError` at `frames_captured % fps`. This happens after the first frame has been written and counted.
- With `max_hilos` ≤ 0 and a non-empty list, no worker starts and `queue.join()` never returns. The HTTP interface refuses such values of `max_hilos`.
- An end marker that comes before the start marker gives an empty payload, and that empty slice is still handed to the decoder (capturador.py:106). The cut still drops everything up to and including that end marker (capturador.py:103). Bytes between it and the next start marker stay in the buffer until a later cut.
- At most one payload is cut per read (capturador.py:97-103), even when the buffer holds several complete frames; the rest waits for the next read.
- The comment at config.py:42-43 says the extension follows `FORMATO_VIDEO`, but `generar_nombre_archivo` (capturador.py:36) passes only `id` and `timestamp`, so `{ext}` is never filled.
- config.py:33-40 pairs each format with its codec, and the docstring at capturador.py:41 speaks of MP4, but capturador.py:77 always opens the writer with `mp4v`; the format setting is read only by the report and the format endpoints.

## Model

| member | source | states |
|---|---|---|
| Builtins.Lower | config.py:110-115 | `lower()` keeps the length and lower-cases each ASCII letter, position by position |
| Builtins.LowerIdempotent | api.py:253-256 | lower-casing an already lower-cased format changes nothing, so the endpoint's check and the setter's `lower()` agree |
| Builtins.LowerEqualsWord | api.py:253 | a string lower-cases to a lower-case word exactly when it matches the word letter by letter up to ASCII case (both directions) |
| Builtins.LowerThreeLetters | api.py:253 | a string lower-cases to a three-letter lower-case word exactly when it has three characters, each lower-casing to the word's letter |
| Builtins.Upper | api.py:85 | `upper()` keeps the length and upper-cases each ASCII letter |
| Builtins.NatToString | capturador.py:129 | the frame count renders as a non-empty string of digits, with no leading zero unless the count is 0 |
| Builtins.NatToStringRoundTrip | capturador.py:129 | reading back the rendered count gives the count |
| Builtins.IntToString | capturador.py:72 | a status code renders as digits that read back as the code, after a `-` sign when it is negative |
| Builtins.PathJoin | capturador.py:37 | `os.path.join(directory, name)` ends with `name`; an absolute `name` replaces the directory; otherwise the result starts with the directory and continues with `name`, and no `/` is inserted exactly when the directory is empty or already ends in `/` |
| Builtins.NextBrace | capturador.py:36 | the brace found, `{` or `}`, is the first one at or after the position, or there is none |
| Builtins.Render | capturador.py:36 | `format` fails only with `KeyError`, `IndexError` or `ValueError` |
| Builtins.RenderLiteral | capturador.py:36 | brace-free text is copied through by `format`, whatever follows it |
| Builtins.RenderNoBraces | capturador.py:36 | a template with no braces formats to itself |
| Builtins.Repr | capturador.py:36 | `repr` of the missing key as `str(KeyError)` shows it: the same quote at both ends, double quotes exactly when the name holds `'` and no `"` |
| Builtins.ReprPlain | capturador.py:36 | a name with no quote, backslash or control character shows as itself between single quotes |
| Builtins.RenderField | capturador.py:36 | a named field is replaced by its keyword argument, or raises `KeyError` carrying `repr` of the name when that keyword is missing |
| Builtins.RenderLiteralField | capturador.py:36 | text followed by a field formats to the text followed by the argument, or raises the field's `KeyError` |
| Builtins.RenderBraceInName | capturador.py:36 | a `{` inside a non-empty field name, before its closing `}`, raises `ValueError: unexpected '{' in field name` |
| Jpeg.FindFrom | capturador.py:97-98 | the position found holds the marker and no earlier position at or after the start does; none found means no marker there |
| Jpeg.Find | capturador.py:97-98 | `find` returns the first marker position, and -1 exactly when the buffer holds no marker |
| Jpeg.Slice | capturador.py:102 | Python slicing: the sub-sequence for in-range bounds, and empty when the bounds cross |
| Jpeg.Extract | capturador.py:96-103 | no cut unless both markers are present. After a cut, the kept buffer is what follows the first end marker, and the payload fits inside the dropped prefix. A start marker first gives a payload from FF D8 through FF D9 with no earlier FF D9. An end marker first is exactly when the payload is empty |
| Jpeg.CutShape | capturador.py:97-102 | with both markers found, `b + 2` stays within the buffer. The slice `buf[a:b+2]` is empty when FF D9 comes first. Otherwise it is a whole frame of at least four bytes, from FF D8 through FF D9, with no earlier FF D9 |
| Jpeg.ExtractDropsPrefix | capturador.py:102-103 | the bytes a cut drops are a prefix of the buffer ending in FF D9, and the buffer is that prefix plus what is kept |
| Jpeg.ExtractPayload | capturador.py:97-102 | a non-empty payload is the buffer's own bytes from the first FF D8 through the first FF D9 |
| Jpeg.NoMarkerNoCut | capturador.py:97-101 | a buffer lacking FF D8 or lacking FF D9 is never cut |
| Config.IsEnabled | config.py:69 | a camera is disabled only by an explicit `habilitada: False` |
| Config.Enabled | config.py:67-69 | a camera is in the result exactly when it is in the registry and enabled, where a missing `habilitada` counts as enabled |
| Config.EnabledAppend | config.py:67-69 | the filter distributes over concatenation, so registry order is kept |
| Config.EnabledAll | config.py:67-69 | a registry whose cameras are all enabled is returned whole |
| Config.FirstIndex | config.py:72-77 | the index of the first camera with the id, or None exactly when no camera has it |
| Config.FindById | config.py:72-77 | `obtener_camara_por_id`: None exactly when no camera has the id, otherwise the first camera that does |
| Config.Apply | api.py:177-186 | a patch never changes the id |
| Config.ApplyLaws | api.py:177-186 | the empty patch changes nothing, and applying a patch twice is the same as applying it once |
| Config.UpdateFirst | config.py:82-85 | updating keeps the registry's length |
| Config.UpdateFirstEffect | config.py:82-85 | only the first camera with the id changes, to the patched camera; every other entry is unchanged, and a registry without that id is unchanged |
| Config.FirstIndexByIds | config.py:74-76 | the first-match search depends on the ids alone |
| Config.FindAfterUpdate | config.py:80-95 | after the update, looking up the id finds the patched camera, and other ids find what they found before |
| Config.EnableMakesEnabled | config.py:80-86 | after `cambiar_estado_camara(id, True)` the camera is among the enabled cameras |
| Config.CodecOf | config.py:37-40 | the codec is `mp4v` or `I420`, and `mp4v` exactly for `mp4` |
| Config.Registry.constructor | config.py:34-64 | the registry starts with the shipped camera and the `avi` format |
| Config.Registry.PatchFirst | config.py:82-86 | the loop patches the first camera with the id and reports True exactly when one exists; the format is unchanged |
| Config.Registry.SetEnabled | config.py:80-86 | `cambiar_estado_camara`: True exactly when the id exists, and only that camera's `habilitada` changes |
| Config.Registry.UpdateUrl | config.py:89-95 | `actualizar_url_camara`: True exactly when the id exists, and only that camera's `url` changes |
| Config.Registry.ChangeFormat | config.py:98-118 | accepted exactly when the lower-cased format is a codec key; then it is stored lower-cased, otherwise nothing changes; the setting stays a codec key |
| Capture.Fps | capturador.py:56 | the fps is 0 exactly when the record sets it to 0; a missing key gives 20 |
| Capture.FileName | capturador.py:33-37 | building the file name fails only with a `str.format` error (`KeyError`, `IndexError`, `ValueError`) |
| Capture.Handled | capturador.py:135-142 | every caught exception becomes a failure triple naming the output file |
| Capture.CaptureRaisesOnlyOnName | capturador.py:59-142 | `capturar_video` raises exactly when the file name cannot be built, with that error; otherwise it returns a triple naming the built file |
| Capture.StepEffect | capturador.py:94-122 | one pass counts and writes exactly one frame when the payload decodes, and none otherwise. The writer is opened only when none exists, with the file, `mp4v`, the fps and the frame's size. The pass raises exactly on a decode exception, or on a frame when fps is 0 |
| Capture.StepConsistent | capturador.py:106-117 | one pass keeps the counter equal to the frames written, and keeps `frame_size` and the writer fixed by the first frame; it only appends frames and never reopens a writer |
| Capture.RunConsistent | capturador.py:88-122 | the whole loop keeps that bookkeeping invariant, only appends frames, writes at most one frame per read, and never replaces an open writer |
| Capture.NoMarkerNoFrames | capturador.py:88-103 | a stream that never carries FF D8, or never FF D9, leaves frames, counter, frame size and writer as they were |
| Capture.NoMarkerLoop | capturador.py:80-122 | from the start of the loop, such a stream leaves no frame and no writer |
| Capture.CaptureSuccess | capturador.py:66-133 | success holds exactly when the name is built, the status is 200, the loop is not interrupted by an exception and a writer was opened. Then at least one frame was written, the writer has the file, `mp4v`, the camera's fps and the first frame's size, and the message gives the count |
| Capture.CaptureBadStatus | capturador.py:71-74 | a non-200 status returns failure with the status message, before any writer exists |
| Capture.CaptureWithoutMarkers | capturador.py:125-133 | when the stream lacks FF D8 or lacks FF D9, no frame is captured, no writer is opened and the capture does not succeed |
| Capture.TemplateParts | config.py:44 | the shipped template is literal text and the keyword fields `id`, `timestamp`, `ext` |
| Capture.TemplateWithExtension | config.py:42-44 | given `ext`, the template yields `camara_<id>_<timestamp>.<ext>` |
| Capture.ShippedTemplateKeyError | capturador.py:33-37 | filling the shipped template with only `id` and `timestamp` raises `KeyError: 'ext'` |
| Capture.ShippedTemplateRaises | capturador.py:59 | so every capture with the shipped template raises before the `try` block, with nothing written |
| Capture.CutPayload | capturador.py:96-103 | the two `find` calls and two slices compute the cut `Extract` specifies |
| Capture.LoopPass | capturador.py:94-122 | the mutating loop body has the effect of one `Step`, including the exception it raises |
| Capture.WriteFrame | capturador.py:106-120 | decode, open the writer on the first frame, write, count and test `% fps`, as `Absorb` specifies |
| Capture.FailedReadEndsLoop | capturador.py:88-90 | a read that raises ends the loop at once, with the session as it was |
| Capture.EmptyReadEndsLoop | capturador.py:88-92 | an empty read before the deadline is `break`: the loop ends with the session as it was |
| Capture.LoopTurn | capturador.py:88-122 | one turn of the loop either ends it where `Run` ends, or leaves the state from which `Run` continues on the rest of the stream with one tick fewer |
| Capture.CaptureLoop | capturador.py:80-122 | the `while` loop over the mutable buffer, frame size, writer and counter ends in the state and with the exit `Run` gives |
| Capture.CaptureVideo | capturador.py:39-142 | `capturar_video` yields what `CaptureSpec` gives, and a success has written at least one frame through an open writer |
| Orchestrator.RecordOf | capturador.py:148-158 | a worker appends an entry exactly when the capture returns, with the camera's id and name |
| Orchestrator.RecordOfName | capturador.py:146-158 | a camera gets an entry exactly when its file name can be built, and the entry names that file |
| Orchestrator.RecordsAppend | capturador.py:146-160 | draining two queues one after the other yields their entries one after the other |
| Orchestrator.RecordsMembership | capturador.py:144-160 | an entry is in the results exactly when some queued camera's capture returned it |
| Orchestrator.RecordsCount | capturador.py:144-160 | at most one entry per camera, and exactly one per camera exactly when no capture raised |
| Orchestrator.RecordsFull | capturador.py:144-160 | every camera gets an entry exactly when every camera's file name can be built |
| Orchestrator.ShippedTemplateRecordsNothing | capturador.py:147-158 | with the shipped template the result list stays empty |
| Orchestrator.CaptureRun.constructor | capturador.py:183-184 | an empty queue with no open tasks and an empty result list |
| Orchestrator.CaptureRun.Put | capturador.py:187-188 | `queue.put` adds the camera at the back and one more open task |
| Orchestrator.Entry | capturador.py:149-158 | one pass of the worker loop builds exactly the entry `RecordOf` gives for the camera: the returned triple under its id and name, and no entry when the capture raised |
| Orchestrator.CaptureRun.Worker | capturador.py:144-160 | the worker empties the queue, marks every taken task done, and appends exactly the entries of the queued cameras, in order |
| Orchestrator.ThreadCount | capturador.py:191-196 | `min(max_hilos, len(camaras))`: at most each of the two and equal to one of them, and 0 when `max_hilos` is negative, as `range` then starts no thread |
| Orchestrator.CaptureAllCameras | capturador.py:162-205 | an empty list gives an empty list; with no worker the join stalls with every camera pending; otherwise the result is the entries of all cameras in queue order |
| Api.UpdateCamera | api.py:167-190 | 404 exactly when the id is unknown, with nothing changed; otherwise the first matching camera becomes the patched camera in place and is returned |
| Api.CheckCapturable | api.py:209-214 | the capture goes ahead exactly for a known, enabled camera; otherwise 404 for an unknown id and 400 for a disabled camera |
| Api.SingleCaptureSpec | api.py:206-229 | a success answers for the requested id after the guards passed; the handler fails with an uncaught error exactly when the guards pass and the file name cannot be built |
| Api.CaptureOneCamera | api.py:206-231 | the guards, then one capture with the configured directory and template; an escaping exception becomes an uncaught error |
| Api.SingleCaptureOutcomes | api.py:206-217 | 404 for an unknown id, 400 for a disabled camera, and `KeyError: 'ext'` for every enabled camera under the shipped template |
| Api.GetFormat | api.py:241-248 | the stored format, its codec, and compressed exactly when the codec is `mp4v` |
| Api.AcceptedSpellings | api.py:253-254 | the endpoint accepts exactly three-character inputs spelling `mp4` or `avi` with each letter in either case, such as `MP4` or `aVi` |
| Api.SpelledMp4 | api.py:253 | `lower()` gives `mp4` exactly for `m`/`M`, then `p`/`P`, then `4` |
| Api.SpelledAvi | api.py:253 | `lower()` gives `avi` exactly for `a`/`A`, then `v`/`V`, then `i`/`I` |
| Api.ChangeFormatEndpoint | api.py:250-263 | 400 exactly when the format does not lower-case to `mp4` or `avi`, with nothing changed. Otherwise the setting becomes the lower-cased format, the message echoes the input as given, and compressed holds exactly for `mp4` |
| Api.CountSuccess | api.py:92 | at most one success per entry |
| Api.CountFailure | api.py:93 | at most one failure per entry |
| Api.TallyAppend | api.py:92-93 | both tallies add up over concatenated lists |
| Api.TallyOne | api.py:92-93 | one entry counts as one success when `exito`, and as one failure otherwise |
| Api.TallyPartition | api.py:91-93 | successes plus failures is the number of entries, and all succeeded exactly when the success count is that number |
| Api.MakeReport | api.py:84-96 | the report lists the given entries; `exitosas` and `fallidas` are the success and failure tallies and add up to the total; the format reads `<FORMAT> (<codec>)` |
| Api.ReportFile | api.py:76-82 | the report path is `reportes/captura_<timestamp>.json` |
| Api.SaveResults | api.py:73-102 | fails exactly when writing raised, with that exception. Otherwise it gives the path `reportes/captura_<timestamp>.json`, the date, the entries, their total and tallies, and the format with its codec |
| Api.BackgroundWrites | api.py:104-134 | one or two states are written per run; `BackgroundLaws` says which |
| Api.Finished | api.py:124-134 | the task completes exactly when saving succeeds, with the report and file; otherwise it takes the exception's text |
| Api.BackgroundLaws | api.py:104-134 | the single error state exactly when no camera is enabled. Otherwise `en_progreso` comes first, and with `max_hilos` ≥ 1 it is followed by `completado` or `error`. `pendiente` is never written. A completed task has the report path and, under the shipped template, no results |
| Api.TaskBoard.constructor | api.py:70 | the task table starts empty |
| Api.TaskBoard.Status | api.py:233-239 | the task's entry, or 404 exactly when the id is unknown |
| Api.TaskBoard.RequestCaptureAll | api.py:192-204 | `max_hilos` outside 1..16 is refused with nothing changed; otherwise `task_<stamp>` is registered as pending and its status reads pending |
| Api.TaskBoard.BackgroundCaptureAll | api.py:104-134 | the task goes through exactly the states `BackgroundWrites` lists and ends in the last of them; no other task changes |
| Api.TaskBoard.CaptureEnabled | api.py:111-134 | with some camera enabled: `en_progreso`, then, when the join returns, the saved outcome |
| Config.Registry.Extension | config.py:121-123 | the extension is `mp4` or `avi` while the setting is valid |
| Config.Registry.Codec | config.py:126-128 | the codec table's entry for the extension, `mp4v` exactly for `mp4` |
| Api.TaskBoard.Finish | api.py:124-134 | the last state of the task is the saved report or the saving error |

## Left out

- OpenCV is not modelled: `cv2.imdecode` is a decode function passed in and the writer is the record of what it was opened with. The encoded video, `out.write`'s pixel data and `out.release` are not modelled.
- `cv2.VideoWriter`, `out.write` and `out.release` never raise in the model; only the decoder and the reads can. In the program an exception from them is caught at capturador.py:139-142 and becomes a failure triple, as `Handled` builds for the other exceptions.
- Python's `lower()` and `upper()` apply full Unicode case mapping, while `Lower` and `Upper` map ASCII letters only. The format checks are unaffected: no non-ASCII character lower-cases to exactly one of the letters and digits of `mp4` and `avi`, and the stored format is always `mp4` or `avi`, which both mappings treat alike.
- HTTP is not modelled: `requests` is a status code and a sequence of reads (or a connection exception). The 1024-byte read size and the 10 s timeout are not modelled.
- The clock is a tick budget, and timestamps and `isoformat()` are strings passed in. `strftime` formats are not modelled.
- Threads are run one after the other: the first worker drains the queue and the rest find it empty. Interleavings, the order in which parallel workers append, and races on `queue.empty()` are not modelled.
- Each camera meets one environment, fixed per camera for a run.
- Logging (`logger`), `print`, and the progress message every `fps` frames are not modelled, apart from the `% fps` that can raise.
- `os.makedirs`, `configurar_directorios` and `crear_directorio_videos` create directories and are not modelled. An exception they might raise inside `background_capture_all` is not modelled either.
- JSON writing in `guardar_resultados` is modelled only as an optional exception. The JSON text is not modelled.
- `tamano_mb` in the single-capture response is not modelled, because it uses floating point and the file system.
- FastAPI routing, CORS, the root route and the read-only listing routes `listar_camaras` and `obtener_camara` are not modelled. The command-line front end in `main.py` is not part of this model.
- The pydantic 422 response for `max_hilos` outside 1..16 is modelled as `ValidationError("max_hilos")`, without its detail text.
- `str.format` is modelled with plain keyword fields, `{{`/`}}` escapes and its brace errors: a lone `{` or `}`, a field left open, and a `{` inside a field name. Conversions (`!r`), format specs (`:>4`), attribute and index access in field names are not modelled.
- Builtins.Repr: it escapes the quote, `\`, tab, newline, return and the non-printable characters below U+0100 as Python does, but copies every character from U+0100 up unchanged, where Python writes the non-printable ones as `\uXXXX` or `\UXXXXXXXX`, because that needs Unicode's printable table.
- A camera record is a value, so two names for the same dictionary (the aliasing of `CAMARAS[i]` and the returned `camara`) are not modelled. A record missing a required key such as `id` is not modelled either.
- `DURACION_PREDETERMINADA` and `FPS_PREDETERMINADOS` are not used by the code and are not modelled. Likewise `duracion` matters only through the tick budget.
- Capture.CaptureLoop: its contract ties the loop to `Run` only; the bookkeeping invariant is stated for `Run` by `RunConsistent` and used by `CaptureSuccess`.
- Api.BackgroundWrites: it only bounds the number of states written; its meaning is stated by `BackgroundLaws`.
- `Capture.Run`, `Capture.Step`, `Capture.Absorb`, `Capture.CaptureSpec` and `Orchestrator.Records` are specification functions without contracts of their own; `RunConsistent`, `StepEffect`, `CaptureSuccess`, `CaptureRaisesOnlyOnName` and `RecordsCount` state what they mean, and `CaptureLoop`, `LoopPass`, `WriteFrame`, `CaptureVideo` and `Worker` are proved equal to them.

/**
 * Capturing every camera of a list (capturador.py, `worker_captura` and
 * `capturar_todas_las_camaras`): the cameras are put on a work queue, up to
 * `max_hilos` workers drain it, each worker records the triple of every
 * capture that returns and drops the cameras whose capture raised, and the
 * caller waits on `queue.join()` until every queued camera is marked done.
 *
 * The workers are run one after the other: the first drains the whole queue
 * and the rest find it empty. What each capture meets outside the program is
 * given by `world`, one environment per camera.
 */
module Orchestrator {
  import opened Wrappers
  import opened Builtins
  import opened Config
  import opened Capture

  /** One entry of `resultados`. */
  datatype Record = Record(id: string, nombre: string, exito: bool, archivo: string, mensaje: string)

  /** The entry a worker appends for `cam`, or None when the capture raised and the worker only logged it. */
  function RecordOf(cam: Camera, directory: string, template: string, world: Camera -> Environment): (r: Option<Record>)
    ensures r.Some? <==> CaptureSpec(cam, directory, template, world(cam)).outcome.Returned?
    ensures r.Some? ==> r.value.id == cam.id && r.value.nombre == cam.nombre
  {
    match CaptureSpec(cam, directory, template, world(cam)).outcome
    case Raised(_) => None
    case Returned(exito, archivo, mensaje) => Some(Record(cam.id, cam.nombre, exito, archivo, mensaje))
  }

  /**
   * Only building the file name raises, so a camera gets an entry exactly when
   * its name can be built, and the entry names that file.
   */
  lemma RecordOfName(cam: Camera, directory: string, template: string, world: Camera -> Environment)
    ensures var name := FileName(template, cam.id, world(cam).timestamp, directory);
            var r := RecordOf(cam, directory, template, world);
            && (r.Some? <==> name.Success?)
            && (r.Some? ==> r.value.archivo == name.value)
  {
    CaptureRaisesOnlyOnName(cam, directory, template, world(cam));
  }

  /** One pass of the worker's loop body: capture `cam` and build its entry, or none when the capture raised. */
  method Entry(cam: Camera, directory: string, template: string, world: Camera -> Environment)
    returns (e: Option<Record>)
    ensures e == RecordOf(cam, directory, template, world)
  {
    var c := CaptureVideo(cam, directory, template, world(cam));
    if c.outcome.Raised? {
      return None;
    }
    e := Some(Record(cam.id, cam.nombre, c.outcome.success, c.outcome.filename, c.outcome.message));
  }

  /** What one camera adds to `resultados`: its entry, or nothing. */
  function Entries(e: Option<Record>): seq<Record> {
    match e case None => [] case Some(r) => [r]
  }

  /** The entries produced by draining `cams` in queue order. */
  function Records(cams: seq<Camera>, directory: string, template: string, world: Camera -> Environment): seq<Record> {
    if cams == [] then []
    else Entries(RecordOf(cams[0], directory, template, world)) + Records(cams[1..], directory, template, world)
  }

  /** Taking the head of the queue: its entries, then those of the rest. */
  lemma RecordsStep(cams: seq<Camera>, directory: string, template: string, world: Camera -> Environment)
    requires cams != []
    ensures Records(cams, directory, template, world)
            == Entries(RecordOf(cams[0], directory, template, world)) + Records(cams[1..], directory, template, world)
  {
  }

  /** Draining two queues one after the other yields their entries one after the other. */
  lemma {:induction false} RecordsAppend(a: seq<Camera>, b: seq<Camera>, directory: string, template: string,
                                         world: Camera -> Environment)
    ensures Records(a + b, directory, template, world)
            == Records(a, directory, template, world) + Records(b, directory, template, world)
  {
    if a == [] {
      assert a + b == b;
    } else {
      assert (a + b)[0] == a[0];
      assert (a + b)[1..] == a[1..] + b;
      RecordsAppend(a[1..], b, directory, template, world);
    }
  }

  /** An entry is recorded exactly for the cameras whose capture returned. */
  lemma {:induction false} RecordsMembership(cams: seq<Camera>, directory: string, template: string,
                                             world: Camera -> Environment, r: Record)
    ensures r in Records(cams, directory, template, world)
            <==> exists i :: 0 <= i < |cams| && RecordOf(cams[i], directory, template, world) == Some(r)
  {
    if cams != [] {
      RecordsMembership(cams[1..], directory, template, world, r);
      if r in Records(cams[1..], directory, template, world) {
        var i :| 0 <= i < |cams[1..]| && RecordOf(cams[1..][i], directory, template, world) == Some(r);
        assert RecordOf(cams[i + 1], directory, template, world) == Some(r);
      }
      if exists i :: 0 <= i < |cams| && RecordOf(cams[i], directory, template, world) == Some(r) {
        var i :| 0 <= i < |cams| && RecordOf(cams[i], directory, template, world) == Some(r);
        if i > 0 {
          assert RecordOf(cams[1..][i - 1], directory, template, world) == Some(r);
        }
      }
    }
  }

  /** At most one entry per camera, and one for every camera exactly when no capture raised. */
  lemma {:induction false} RecordsCount(cams: seq<Camera>, directory: string, template: string,
                                        world: Camera -> Environment)
    ensures |Records(cams, directory, template, world)| <= |cams|
    ensures |Records(cams, directory, template, world)| == |cams|
            <==> forall i :: 0 <= i < |cams| ==> RecordOf(cams[i], directory, template, world).Some?
  {
    if cams != [] {
      RecordsCount(cams[1..], directory, template, world);
      if forall i :: 0 <= i < |cams[1..]| ==> RecordOf(cams[1..][i], directory, template, world).Some? {
        forall i | 1 <= i < |cams|
          ensures RecordOf(cams[i], directory, template, world).Some?
        {
          assert cams[i] == cams[1..][i - 1];
        }
      } else {
        var i :| 0 <= i < |cams[1..]| && RecordOf(cams[1..][i], directory, template, world).None?;
        assert RecordOf(cams[i + 1], directory, template, world).None?;
      }
    }
  }

  /** Every camera gets an entry exactly when every camera's file name can be built. */
  lemma RecordsFull(cams: seq<Camera>, directory: string, template: string, world: Camera -> Environment)
    ensures |Records(cams, directory, template, world)| == |cams|
            <==> forall i :: 0 <= i < |cams| ==> FileName(template, cams[i].id, world(cams[i]).timestamp, directory).Success?
  {
    RecordsCount(cams, directory, template, world);
    forall i | 0 <= i < |cams|
      ensures RecordOf(cams[i], directory, template, world).Some?
              <==> FileName(template, cams[i].id, world(cams[i]).timestamp, directory).Success?
    {
      RecordOfName(cams[i], directory, template, world);
    }
  }

  /** With the shipped file-name template every capture raises, so nothing is ever recorded. */
  lemma {:induction false} ShippedTemplateRecordsNothing(cams: seq<Camera>, directory: string,
                                                         world: Camera -> Environment)
    ensures Records(cams, directory, FileNameTemplate, world) == []
  {
    if cams != [] {
      ShippedTemplateRaises(cams[0], directory, world(cams[0]));
      ShippedTemplateRecordsNothing(cams[1..], directory, world);
    }
  }

  /** Concatenation regroups freely. */
  lemma AppendAssoc<T>(a: seq<T>, b: seq<T>, c: seq<T>)
    ensures a + (b + c) == a + b + c
  {
  }

  /** What `queue.join()` leads to: the collected list, or a wait that never ends with `pending` tasks open. */
  datatype Gathered = Gathered(results: seq<Record>) | Stalled(pending: nat)

  /** The work queue, its count of unfinished tasks, and the shared `resultados` list. */
  class CaptureRun {
    var queue: seq<Camera>
    var unfinished: nat
    var results: seq<Record>

    constructor ()
      ensures queue == [] && unfinished == 0 && results == []
    {
      queue := [];
      unfinished := 0;
      results := [];
    }

    /** `queue.put(camara)`: one more camera and one more unfinished task. */
    method Put(cam: Camera)
      modifies this
      ensures queue == old(queue) + [cam]
      ensures unfinished == old(unfinished) + 1
      ensures results == old(results)
    {
      queue := queue + [cam];
      unfinished := unfinished + 1;
    }

    /**
     * `worker_captura`: while the queue is not empty, take a camera, capture
     * it, append its entry unless the capture raised, and mark the task done.
     */
    method Worker(directory: string, template: string, world: Camera -> Environment)
      requires |queue| <= unfinished
      modifies this
      ensures queue == []
      ensures unfinished == old(unfinished) - |old(queue)|
      ensures results == old(results) + Records(old(queue), directory, template, world)
    {
      while queue != []
        invariant |queue| <= unfinished
        invariant unfinished - |queue| == old(unfinished) - |old(queue)|
        invariant old(results) + Records(old(queue), directory, template, world)
                  == results + Records(queue, directory, template, world)
        decreases |queue|
      {
        var cam := queue[0];
        RecordsStep(queue, directory, template, world);
        queue := queue[1..];
        var e := Entry(cam, directory, template, world);
        AppendAssoc(results, Entries(e), Records(queue, directory, template, world));
        results := results + Entries(e);
        unfinished := unfinished - 1;
      }
    }
  }

  /** `min(max_hilos, len(camaras))`, floored at zero as `range` does. */
  function ThreadCount(maxThreads: int, cameras: nat): (n: nat)
    ensures n <= cameras && n <= if maxThreads < 0 then 0 else maxThreads
    ensures maxThreads >= 1 && cameras >= 1 ==> n >= 1
    ensures maxThreads >= 0 ==> n == maxThreads || n == cameras
  {
    var m := if maxThreads < cameras then maxThreads else cameras;
    if m < 0 then 0 else m
  }

  /**
   * `capturar_todas_las_camaras`: an empty list returns `[]` at once; otherwise
   * every camera is queued, `min(max_hilos, len(camaras))` workers run, and
   * `queue.join()` returns the collected entries once no task is open. With no
   * worker started the queue is never drained and the join never returns.
   */
  method CaptureAllCameras(cams: seq<Camera>, directory: string, template: string, maxThreads: int,
                           world: Camera -> Environment)
    returns (g: Gathered, threads: nat)
    ensures threads == ThreadCount(maxThreads, |cams|)
    ensures cams == [] ==> g == Gathered([])
    ensures cams != [] && threads == 0 ==> g == Stalled(|cams|)
    ensures threads >= 1 ==> g == Gathered(Records(cams, directory, template, world))
  {
    if cams == [] {
      return Gathered([]), 0;
    }
    var run := new CaptureRun();
    for k := 0 to |cams|
      invariant run.queue == cams[..k] && run.unfinished == k && run.results == []
    {
      run.Put(cams[k]);
      assert cams[..k + 1] == cams[..k] + [cams[k]];
    }
    assert cams[..|cams|] == cams;
    threads := ThreadCount(maxThreads, |cams|);
    for t := 0 to threads
      invariant t == 0 ==> run.queue == cams && run.unfinished == |cams| && run.results == []
      invariant t > 0 ==> run.queue == [] && run.unfinished == 0
                          && run.results == Records(cams, directory, template, world)
    {
      run.Worker(directory, template, world);
    }
    if run.unfinished != 0 {
      return Stalled(run.unfinished), threads;
    }
    g := Gathered(run.results);
  }
}

/**
 * The camera registry and the process-wide video-format setting (config.py).
 * The registry is a list of camera records that enable/disable and URL updates
 * change in place; the format setting is a global that only the validated
 * selector reassigns.
 */
module Config {
  import opened Wrappers
  import opened Builtins

  /**
   * One camera record. `duracion`, `fps` and `habilitada` are optional keys of
   * the record: None stands for a key that is absent.
   */
  datatype Camera = Camera(
    id: string,
    nombre: string,
    url: string,
    duracion: Option<int>,
    fps: Option<int>,
    habilitada: Option<bool>)

  /** The registry shipped with the program (config.py:55-64). */
  const DefaultCameras: seq<Camera> :=
    [Camera("cam1", "Cámara Principal", "http://10.137.140.97:8000/video_feed", Some(30), Some(30), Some(true))]

  /** Directory the videos are written to. */
  const VideoDirectory: string := "videos_capturados"

  /** File-name template; it names an `ext` field that the capture code never supplies. */
  const FileNameTemplate: string := "camara_{id}_{timestamp}.{ext}"

  /** Container name to codec (FOURCC). */
  const Codecs: map<string, string> := map["mp4" := "mp4v", "avi" := "I420"]

  /** Format the process starts with. */
  const InitialFormat: string := "avi"

  /** `camara.get("habilitada", True)`: a camera without the key counts as enabled. */
  predicate IsEnabled(c: Camera)
    ensures IsEnabled(c) <==> c.habilitada != Some(false)
  {
    c.habilitada.None? || c.habilitada.value
  }

  /** The enabled cameras, in registry order. */
  function Enabled(cams: seq<Camera>): (r: seq<Camera>)
    ensures |r| <= |cams|
    ensures forall c :: c in r <==> c in cams && IsEnabled(c)
  {
    if cams == [] then []
    else (if IsEnabled(cams[0]) then [cams[0]] else []) + Enabled(cams[1..])
  }

  /** Filtering distributes over concatenation, so the relative order of the cameras is kept. */
  lemma {:induction false} EnabledAppend(a: seq<Camera>, b: seq<Camera>)
    ensures Enabled(a + b) == Enabled(a) + Enabled(b)
  {
    if a == [] {
      assert a + b == b;
    } else {
      assert (a + b)[0] == a[0];
      assert (a + b)[1..] == a[1..] + b;
      EnabledAppend(a[1..], b);
    }
  }

  /** A registry whose cameras are all enabled is returned whole. */
  lemma {:induction false} EnabledAll(cams: seq<Camera>)
    requires forall i :: 0 <= i < |cams| ==> IsEnabled(cams[i])
    ensures Enabled(cams) == cams
  {
    if cams != [] {
      EnabledAll(cams[1..]);
    }
  }

  /** Position of the first camera whose id is `id`. */
  function FirstIndex(cams: seq<Camera>, id: string): (r: Option<nat>)
    ensures r.Some? ==> r.value < |cams| && cams[r.value].id == id
                        && forall j :: 0 <= j < r.value ==> cams[j].id != id
    ensures r.None? <==> forall j :: 0 <= j < |cams| ==> cams[j].id != id
  {
    if cams == [] then None
    else if cams[0].id == id then Some(0)
    else match FirstIndex(cams[1..], id)
      case None => None
      case Some(k) => Some(k + 1)
  }

  /** `obtener_camara_por_id`: the first camera with the given id, or None. */
  function FindById(cams: seq<Camera>, id: string): (r: Option<Camera>)
    ensures r.None? <==> forall c :: c in cams ==> c.id != id
    ensures r.Some? ==> exists i :: 0 <= i < |cams| && cams[i] == r.value && r.value.id == id
                                    && forall j :: 0 <= j < i ==> cams[j].id != id
  {
    match FirstIndex(cams, id)
    case None => None
    case Some(i) => Some(cams[i])
  }

  /** The optional fields of an update request; None leaves a field as it is. */
  datatype Patch = Patch(
    url: Option<string>,
    nombre: Option<string>,
    duracion: Option<int>,
    fps: Option<int>,
    habilitada: Option<bool>)

  const NoChange: Patch := Patch(None, None, None, None, None)

  function EnablePatch(enable: bool): Patch {
    NoChange.(habilitada := Some(enable))
  }

  function UrlPatch(url: string): Patch {
    NoChange.(url := Some(url))
  }

  function Override<T>(old_: Option<T>, new_: Option<T>): Option<T> {
    if new_.Some? then new_ else old_
  }

  /** Overwrites every field the patch supplies. */
  function Apply(c: Camera, p: Patch): (r: Camera)
    ensures r.id == c.id
  {
    Camera(c.id,
           if p.nombre.Some? then p.nombre.value else c.nombre,
           if p.url.Some? then p.url.value else c.url,
           Override(c.duracion, p.duracion),
           Override(c.fps, p.fps),
           Override(c.habilitada, p.habilitada))
  }

  /** The empty patch changes nothing, and applying a patch twice is applying it once. */
  lemma ApplyLaws(c: Camera, p: Patch)
    ensures Apply(c, NoChange) == c
    ensures Apply(Apply(c, p), p) == Apply(c, p)
  {
  }

  /** The registry after the patch is applied to the first camera with id `id`, if any. */
  function UpdateFirst(cams: seq<Camera>, id: string, p: Patch): (r: seq<Camera>)
    ensures |r| == |cams|
  {
    match FirstIndex(cams, id)
    case None => cams
    case Some(i) => cams[i := Apply(cams[i], p)]
  }

  /**
   * Only the first match changes and it receives exactly the patch; every other
   * position, and a registry without a match, is untouched.
   */
  lemma UpdateFirstEffect(cams: seq<Camera>, id: string, p: Patch)
    ensures FindById(cams, id).None? ==> UpdateFirst(cams, id, p) == cams
    ensures forall i :: 0 <= i < |cams| ==>
              UpdateFirst(cams, id, p)[i]
                == if FirstIndex(cams, id) == Some(i) then Apply(cams[i], p) else cams[i]
  {
  }

  /** The first-match search looks only at ids. */
  lemma {:induction false} FirstIndexByIds(a: seq<Camera>, b: seq<Camera>, id: string)
    requires |a| == |b| && forall j :: 0 <= j < |a| ==> a[j].id == b[j].id
    ensures FirstIndex(a, id) == FirstIndex(b, id)
  {
    if a != [] && a[0].id != id {
      FirstIndexByIds(a[1..], b[1..], id);
    }
  }

  /** After the update, looking the id up finds the patched camera; other ids find what they found before. */
  lemma FindAfterUpdate(cams: seq<Camera>, id: string, p: Patch, other: string)
    requires other != id
    ensures FindById(UpdateFirst(cams, id, p), id)
              == match FindById(cams, id) case None => None case Some(c) => Some(Apply(c, p))
    ensures FindById(UpdateFirst(cams, id, p), other) == FindById(cams, other)
  {
    var r := UpdateFirst(cams, id, p);
    FirstIndexByIds(r, cams, id);
    FirstIndexByIds(r, cams, other);
    match FirstIndex(cams, other)
    case None =>
    case Some(k) =>
      assert FirstIndex(cams, id) != Some(k);
  }

  /** Enabling a camera makes it one of the enabled cameras. */
  lemma EnableMakesEnabled(cams: seq<Camera>, id: string)
    requires FindById(cams, id).Some?
    ensures var r := UpdateFirst(cams, id, EnablePatch(true));
            FindById(r, id).Some? && FindById(r, id).value in Enabled(r)
  {
    var i := FirstIndex(cams, id).value;
    FindAfterUpdate(cams, id, EnablePatch(true), id + "'");
    assert UpdateFirst(cams, id, EnablePatch(true))[i] == Apply(cams[i], EnablePatch(true));
  }

  /** `CODECS[FORMATO_VIDEO]` never fails once the setting is one of the known formats. */
  function CodecOf(format: string): (r: string)
    requires format in Codecs
    ensures r == "mp4v" || r == "I420"
    ensures r == "mp4v" <==> format == "mp4"
  {
    Codecs[format]
  }

  /** The registry and the video-format setting: the module-level globals of config.py. */
  class Registry {
    var cameras: seq<Camera>
    var videoFormat: string

    /** The format setting is always a key of the codec table. */
    ghost predicate Valid()
      reads this
    {
      videoFormat in Codecs
    }

    constructor ()
      ensures Valid()
      ensures cameras == DefaultCameras && videoFormat == InitialFormat
    {
      cameras := DefaultCameras;
      videoFormat := InitialFormat;
    }

    /**
     * Walks the registry and applies `p` to the first camera whose id matches,
     * reporting whether one did.
     */
    method PatchFirst(id: string, p: Patch) returns (found: bool)
      modifies this
      ensures found <==> FindById(old(cameras), id).Some?
      ensures cameras == UpdateFirst(old(cameras), id, p)
      ensures videoFormat == old(videoFormat)
    {
      var i := 0;
      while i < |cameras|
        invariant 0 <= i <= |cameras|
        invariant cameras == old(cameras) && videoFormat == old(videoFormat)
        invariant forall j :: 0 <= j < i ==> cameras[j].id != id
      {
        if cameras[i].id == id {
          assert FirstIndex(cameras, id) == Some(i);
          cameras := cameras[i := Apply(cameras[i], p)];
          return true;
        }
        i := i + 1;
      }
      return false;
    }

    /** `cambiar_estado_camara`: sets `habilitada` on the first camera with the id. */
    method SetEnabled(id: string, enable: bool) returns (found: bool)
      modifies this
      ensures found <==> FindById(old(cameras), id).Some?
      ensures cameras == UpdateFirst(old(cameras), id, EnablePatch(enable))
      ensures videoFormat == old(videoFormat)
    {
      found := PatchFirst(id, EnablePatch(enable));
    }

    /** `actualizar_url_camara`: sets `url` on the first camera with the id. */
    method UpdateUrl(id: string, url: string) returns (found: bool)
      modifies this
      ensures found <==> FindById(old(cameras), id).Some?
      ensures cameras == UpdateFirst(old(cameras), id, UrlPatch(url))
      ensures videoFormat == old(videoFormat)
    {
      found := PatchFirst(id, UrlPatch(url));
    }

    /**
     * `cambiar_formato_video`: accepts a format whose lower-case form is a codec
     * table key and stores that lower-case form; otherwise nothing changes.
     */
    method ChangeFormat(format: string) returns (ok: bool)
      requires Valid()
      modifies this
      ensures Valid()
      ensures ok <==> Lower(format) in Codecs
      ensures videoFormat == if ok then Lower(format) else old(videoFormat)
      ensures cameras == old(cameras)
    {
      if Lower(format) !in Codecs {
        return false;
      }
      videoFormat := Lower(format);
      return true;
    }

    /** `obtener_extension`: the stored format doubles as the file extension. */
    function Extension(): (r: string)
      reads this
      ensures Valid() ==> r == "mp4" || r == "avi"
    {
      videoFormat
    }

    /** `obtener_codec`. */
    function Codec(): (r: string)
      reads this
      requires Valid()
      ensures r == Codecs[Extension()]
      ensures r == "mp4v" <==> Extension() == "mp4"
    {
      CodecOf(videoFormat)
    }
  }
}

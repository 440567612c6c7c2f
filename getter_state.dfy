// The attributes both revisions of ImagesGetter keep, what `reset` and the
// three `__setup_*__` methods do to them (identical in cvutils/imgetter.py
// and imgetter.py), the `_release` closures, and the cursor arithmetic of
// frame skipping.

module GetterState {
  import opened Exceptions
  import opened Sources
  import Text
  import Inner

  /** The constructor arguments, fixed for the life of the object. */
  datatype Config = Config(src: Source, interval: int, scale: real, imgExt: ImgExt, camWarmup: int, autorelease: bool)

  /** The mutable attributes of the object. */
  datatype Attrs = Attrs(
    mode: Mode,
    crtIdx: int,               // crt_idx
    len: Length,               // len
    reader: Reader,            // which reader a camera's _next is
    camPos: nat,               // reads made from the current camera capture
    vidPos: int,               // the video decoder's frame position
    capReleased: bool,         // cap.release() has been called
    outCount: int,             // _out_count
    warnings: seq<Inner.Action>)

  /** How a run of the `__call__` generator ends: suspended at a yield
      because the consumer asked for no more, exhausted, or with an exception. */
  datatype Ending = Suspended | Exhausted | Failed(e: Exc)

  /** The attribute values right after `__init__`'s own assignments. */
  function Initial(): Attrs
  {
    Attrs(Unset, 0, Missing, SteadyRead, 0, 0, false, 0, [])
  }

  ghost predicate ValidState(g: Attrs)
  {
    && (g.mode.Unset? ==> g.len == Missing)
    && (g.mode.Camera? ==> g.len == Infinite)
    && (g.mode.Video? ==> g.len == Finite(FrameCount(g.mode.file)) && g.crtIdx >= 0)
    && (g.mode.Folder? ==> g.len == Finite(|g.mode.imgs|) && g.crtIdx >= 0)
  }

  predicate IsEnd(g: Attrs)
  {
    AtEnd(g.mode, g.crtIdx, g.len)
  }

  /** The camera warm-up made `used` reads and stopped where the loop stops. */
  ghost predicate WarmedUp(dev: CameraDevice, count: int, used: nat)
  {
    && used <= WarmupBudget(count)
    && (forall k :: 1 <= k < used ==> !Stable(dev, 0, k))
    && (used < WarmupBudget(count) ==> Stable(dev, 0, used))
  }

  /** `reset()`: classify the source and run the matching `__setup_*__`;
      `used` is the number of warm-up reads a camera set-up made. An
      unmatched source changes nothing. */
  function ResetState(cfg: Config, g: Attrs, w: World, used: nat): Attrs
  {
    match Classify(cfg.src, w)
    case CameraKind(d) => CamAttrs(cfg, g, w.cameras(d), used)
    case VideoKind(path) => VideoAttrs(cfg, g, w.videos(path), path)
    case ImagesKind(dir) => FolderAttrs(g, dir, ListImages(dir, cfg.imgExt, w))
    case Unmatched => g
  }

  /** `__setup_cam__`. */
  function CamAttrs(cfg: Config, g: Attrs, dev: CameraDevice, used: nat): Attrs
  {
    g.(mode := Camera(dev),
       warnings := g.warnings + (if dev.isOpen then [] else [Warning("Can't open camera device " + IntToStr(cfg.src))]),
       len := Infinite,
       reader := if WarmupBudget(cfg.camWarmup) > 0 then InitRead else SteadyRead,
       camPos := used,
       capReleased := false)
  }

  /** `__setup_video__`. */
  function VideoAttrs(cfg: Config, g: Attrs, f: VideoFile, path: string): Attrs
  {
    g.(mode := Video(f),
       warnings := g.warnings + (if f.isOpen then [] else [Warning("Can't open video file " + path)]),
       crtIdx := 0,
       vidPos := 0,
       len := Finite(FrameCount(f)),
       capReleased := false)
  }

  /** `__setup_images__` with the list of matched paths. */
  function FolderAttrs(g: Attrs, dir: string, imgs: seq<string>): Attrs
  {
    g.(mode := Folder(imgs),
       warnings := g.warnings + (if |imgs| == 0 then [Warning("Can't find any images in " + dir)] else []),
       crtIdx := 0,
       len := Finite(|imgs|))
  }

  /** str(src) for the camera warning. */
  function IntToStr(src: Source): string
  {
    match src
    case IntSource(n) => Text.IntToString(n)
    case StrSource(s) => s
  }


  /** `_release()`: a camera's `cap.release`; for a video `lambda: self.cap.release`,
      which returns the method without calling it; `lambda: None` for a
      folder; before any set-up there is no `_release` attribute. */
  function ReleaseStep(g: Attrs): (r: Result<Attrs>)
    ensures r.Err? <==> g.mode.Unset?
    ensures r.Ok? ==> r.value == g.(capReleased := g.capReleased || g.mode.Camera?)
  {
    match g.mode
    case Unset => Err(AttributeError)
    case Camera(_) => Ok(g.(capReleased := true))
    case Video(_) => Ok(g)
    case Folder(_) => Ok(g)
  }

  /** A camera's steady reader `_next`: 1 + interval reads, returning the
      last frame, or None when that read failed. */
  function SteadyPull(cfg: Config, g: Attrs, dev: CameraDevice): (r: (Result<Pulled>, Attrs))
    ensures r.0 == Ok(PulledOf(CamRead(dev, g.camPos + Skip(cfg.interval))))
    ensures r.1 == g.(camPos := g.camPos + Skip(cfg.interval) + 1)
  {
    var k := Skip(cfg.interval);
    (Ok(PulledOf(CamRead(dev, g.camPos + k))), g.(camPos := g.camPos + k + 1))
  }

  /** A folder's `_next`: skip, load `imgs[crt_idx]`, move one further. The
      skip is not checked against the list, so it can raise IndexError, with
      the cursor already moved. */
  function FolderPull(cfg: Config, g: Attrs, w: World, imgs: seq<string>): (r: (Result<Pulled>, Attrs))
    requires g.crtIdx >= 0
    ensures r.0.Err? <==> g.crtIdx + Skip(cfg.interval) >= |imgs|
    ensures r.0.Err? ==> r == (Err(IndexError), g.(crtIdx := g.crtIdx + Skip(cfg.interval)))
    ensures r.0.Ok? ==>
      && r.1 == g.(crtIdx := g.crtIdx + Skip(cfg.interval) + 1)
      && r.0.value == Loaded(w.imread(imgs[g.crtIdx + Skip(cfg.interval)]))
  {
    var idx := g.crtIdx + Skip(cfg.interval);
    if idx >= |imgs| then (Err(IndexError), g.(crtIdx := idx))
    else (Ok(Loaded(w.imread(imgs[idx]))), g.(crtIdx := idx + 1))
  }

  /** The index of the image the j-th pull of a folder loads when the
      cursor starts at c and each pull skips k images. */
  function Pick(c: int, k: nat, j: nat): int
  {
    Cursor(c, k, j) + k
  }

  /** The cursor before the j-th pull when it starts at c and each pull
      moves it by k + 1. */
  function Cursor(c: int, k: nat, j: nat): (r: int)
    ensures r >= c
  {
    if j == 0 then c else Cursor(c, k, j - 1) + k + 1
  }

  /** The cursor moves in equal strides: after j pulls it is c + j(k + 1). */
  lemma {:induction false} CursorClosedForm(c: int, k: nat, j: nat)
    ensures Cursor(c, k, j) == c + j * (k + 1)
  {
    if j > 0 {
      CursorClosedForm(c, k, j - 1);
      assert j * (k + 1) == (j - 1) * (k + 1) + k + 1;
    }
  }

  /** Starting one stride later is the same as pulling once more. */
  lemma {:induction false} PickNext(c: int, k: nat, j: nat)
    ensures Pick(c + k + 1, k, j) == Pick(c, k, j + 1)
    ensures Cursor(c + k + 1, k, j) == Cursor(c, k, j + 1)
  {
    if j > 0 {
      PickNext(c, k, j - 1);
    } else {
      assert Cursor(c, k, 1) == c + k + 1;
    }
  }

  /** A fresh getter over a source that matches nothing is unavailable. */
  lemma UnmatchedUnavailable(cfg: Config, w: World, used: nat)
    requires Classify(cfg.src, w).Unmatched?
    ensures IsEnd(ResetState(cfg, Initial(), w, used))
  {
  }

  /** A folder without matching images warns, has length 0 and is unavailable
      from the start. */
  lemma EmptyFolder(g: Attrs, dir: string)
    ensures
      var g1 := FolderAttrs(g, dir, []);
      && g1.len == Finite(0) && IsEnd(g1)
      && g1.warnings == g.warnings + [Inner.Warn("[!]" + ("Can't find any images in " + dir))]
  {
    assert Warning("Can't find any images in " + dir) == Inner.Warn("[!]" + ("Can't find any images in " + dir));
  }
}

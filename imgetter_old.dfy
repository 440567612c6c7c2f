// imgetter.py (the older revision of ImagesGetter). `reset` and the three
// `__setup_*__` methods assign the same attributes as in cvutils/imgetter.py
// (module GetterState); the pulls differ: every output goes through the
// `_scale` chosen by the constructor, the camera's initial reader reads
// without switching until something was output and then sleeps `interval`
// seconds, and the video reader does not move its cursor past the frame it
// read. This revision has no `__next__`: it is pulled through the
// `__call__` generator only.

module ImGetterOld {
  import opened Exceptions
  import opened Sources
  import opened GetterState
  import ImGetter
  import Inner

  /** The `_scale` the constructor binds: a cubic resize for |scale| > 1, an
      area resize for 0 < |scale| < 1, the identity otherwise (0 and ±1). */
  function Chooser(scale: real): (r: Option<Interp>)
    ensures r == Some(Cubic) <==> (scale > 1.0 || scale < -1.0)
    ensures r == Some(Area) <==> (scale != 0.0 && -1.0 < scale < 1.0)
    ensures r == None <==> (scale == 0.0 || scale == 1.0 || scale == -1.0)
  {
    var a := if scale < 0.0 then -scale else scale;
    if a > 1.0 then Some(Cubic)
    else if 0.0 < a < 1.0 then Some(Area)
    else None
  }

  /** `self._scale(img)`: the identity, or cv2.resize with fx = fy = scale,
      which raises for a missing frame (None) and for a factor that is not
      positive. */
  function ScaleStep(w: World, scale: real, p: Pulled): (r: Result<Pulled>)
    ensures Chooser(scale).None? ==> r == Ok(p)
    ensures Chooser(scale).Some? && (!p.Got? || scale < 0.0) ==> r == Err(ResizeError)
    ensures Chooser(scale).Some? && r.Ok? ==>
      p.Got? && r.value.Got? && w.resize(p.img, scale, Chooser(scale).value) == Some(r.value.img)
  {
    match Chooser(scale)
    case None => Ok(p)
    case Some(ip) =>
      if !p.Got? || scale <= 0.0 then Err(ResizeError)
      else
        match w.resize(p.img, scale, ip)
        case None => Err(ResizeError)
        case Some(img) => Ok(Got(img))
  }

  /** One call of `self._next(self.interval)`. This revision never produces
      the welcome banner. */
  function PullStep(cfg: Config, g: Attrs, w: World): (r: (Result<Pulled>, Attrs))
    requires ValidState(g) && !IsEnd(g)
    ensures ValidState(r.1)
    ensures r.1.outCount == g.outCount && r.1.mode == g.mode && r.1.capReleased == g.capReleased
    ensures r.0.Ok? ==> r.0.value != Welcome
  {
    match g.mode
    case Camera(dev) => CameraPull(cfg, g, dev)
    case Video(f) => VideoPull(cfg, g, f)
    case Folder(imgs) => FolderPull(cfg, g, w, imgs)
  }

  /** A camera's `_next`. The initial reader `_init_read(waitSec=2)` is called
      as `_next(self.interval)`, so the interval is its wait: before anything
      was output it reads once and stays the reader; afterwards it sleeps
      `interval` seconds (a negative length raises ValueError before any
      read), reads once and rebinds `_next` to the steady reader. Only the
      read count and the reader change. */
  function CameraPull(cfg: Config, g: Attrs, dev: CameraDevice): (r: (Result<Pulled>, Attrs))
    ensures r.1 == g.(camPos := r.1.camPos, reader := r.1.reader)
    ensures r.0.Err? <==> g.reader == InitRead && g.outCount >= 1 && cfg.interval < 0
    ensures r.0.Err? ==> r == (Err(ValueError), g)
  {
    if g.reader == InitRead then
      if g.outCount < 1 then (Ok(PulledOf(CamRead(dev, g.camPos))), g.(camPos := g.camPos + 1))
      else if cfg.interval < 0 then (Err(ValueError), g)
      else (Ok(PulledOf(CamRead(dev, g.camPos))), g.(camPos := g.camPos + 1, reader := SteadyRead))
    else SteadyPull(cfg, g, dev)
  }

  /** A video's `_next`: with a positive interval, add it to the cursor and
      seek there; then read. The cursor is not moved past the frame read. */
  function VideoPull(cfg: Config, g: Attrs, f: VideoFile): (r: (Result<Pulled>, Attrs))
    ensures r.0.Ok? && r.1 == g.(crtIdx := g.crtIdx + Skip(cfg.interval), vidPos := r.1.vidPos)
    ensures cfg.interval > 0 ==> r.0.value == VideoRead(f, g.crtIdx + cfg.interval).0
    ensures cfg.interval <= 0 ==> r.0.value == VideoRead(f, g.vidPos).0
  {
    var idx := g.crtIdx + Skip(cfg.interval);
    var pos := if cfg.interval > 0 then idx else g.vidPos;
    var (p, pos') := VideoRead(f, pos);
    (Ok(p), g.(crtIdx := idx, vidPos := pos'))
  }

  /** One turn of the `__call__` loop (pull, scale, count, yield), or, once
      the source is unavailable, the loop's exit with its optional release. */
  function NextStep(cfg: Config, g: Attrs, w: World): (r: (ImGetter.Next, Attrs))
    requires ValidState(g)
    ensures ValidState(r.1) && r.1.mode == g.mode
    ensures r.0.Yield? ==> !IsEnd(g) && r.1.outCount == g.outCount + 1
    ensures !r.0.Yield? ==> r.1.outCount == g.outCount
  {
    if !IsEnd(g) then
      var (pr, g1) := PullStep(cfg, g, w);
      if pr.Err? then (ImGetter.Raised(pr.error), g1)
      else
        match ScaleStep(w, cfg.scale, pr.value)
        case Err(e) => (ImGetter.Raised(e), g1)
        case Ok(p) => (ImGetter.Yield(p), g1.(outCount := g1.outCount + 1))
    else if cfg.autorelease then
      match ReleaseStep(g)
      case Err(e) => (ImGetter.Raised(e), g)
      case Ok(g1) => (ImGetter.Stop, g1)
    else (ImGetter.Stop, g)
  }

  /** `__call__` run by a consumer that asks for at most `demand` items. */
  function CallSpec(cfg: Config, g: Attrs, w: World, demand: nat): (r: (seq<Pulled>, Ending, Attrs))
    requires ValidState(g)
    ensures ValidState(r.2) && r.2.mode == g.mode
    decreases demand
  {
    if demand == 0 then ([], Suspended, g)
    else
      match NextStep(cfg, g, w)
      case (Yield(p), g1) =>
        var (rest, e, g2) := CallSpec(cfg, g1, w, demand - 1);
        ([p] + rest, e, g2)
      case (Stop, g1) => ([], Exhausted, g1)
      case (Raised(x), g1) => ([], Failed(x), g1)
  }

  /** One step of CallSpec, unfolded. */
  lemma CallUnfold(cfg: Config, g: Attrs, w: World, demand: nat)
    requires ValidState(g) && demand > 0
    ensures CallSpec(cfg, g, w, demand) ==
      match NextStep(cfg, g, w)
      case (Yield(p), g1) =>
        var rest := CallSpec(cfg, g1, w, demand - 1);
        ([p] + rest.0, rest.1, rest.2)
      case (Stop, g1) => ([], Exhausted, g1)
      case (Raised(x), g1) => ([], Failed(x), g1)
  {
  }

  /** A run yields at most `demand` items, stops short of them only by
      exhaustion or an exception, and `_out_count` counts what it yielded. */
  lemma {:induction false} CallCounts(cfg: Config, g: Attrs, w: World, demand: nat)
    requires ValidState(g)
    ensures
      var r := CallSpec(cfg, g, w, demand);
      && |r.0| <= demand
      && (r.1.Suspended? <==> |r.0| == demand)
      && r.2.outCount == g.outCount + |r.0|
    decreases demand
  {
    if demand > 0 {
      var (n, g1) := NextStep(cfg, g, w);
      CallUnfold(cfg, g, w, demand);
      if n.Yield? {
        CallCounts(cfg, g1, w, demand - 1);
      }
    }
  }

  // ----- Where the revisions agree

  /** With the identity scale, a pull of a folder or of a camera on its
      steady reader is the same in both revisions. */
  lemma StepAgrees(cfg: Config, g: Attrs, w: World, elapsed: nat)
    requires ValidState(g) && Chooser(cfg.scale).None?
    requires g.mode.Folder? || (g.mode.Camera? && g.reader == SteadyRead)
    ensures NextStep(cfg, g, w) == ImGetter.NextStep(cfg, g, w, elapsed)
    ensures g.mode.Camera? ==> NextStep(cfg, g, w).1.reader == SteadyRead
  {
  }

  /** With the identity scale, whole runs over a folder or a steady camera
      are the same in both revisions, so what is proved of the latest
      revision's folder and camera runs holds of this one. */
  lemma {:induction false} RunAgrees(cfg: Config, g: Attrs, w: World, clock: nat -> nat, start: nat, demand: nat)
    requires ValidState(g) && Chooser(cfg.scale).None?
    requires g.mode.Folder? || (g.mode.Camera? && g.reader == SteadyRead)
    ensures CallSpec(cfg, g, w, demand) == ImGetter.CallSpec(cfg, g, w, clock, start, demand)
    decreases demand
  {
    if demand > 0 {
      var (n, g1) := NextStep(cfg, g, w);
      StepAgrees(cfg, g, w, clock(start));
      CallUnfold(cfg, g, w, demand);
      ImGetter.CallUnfold(cfg, g, w, clock, start, demand);
      if n.Yield? {
        RunAgrees(cfg, g1, w, clock, start + 1, demand - 1);
      }
    }
  }

  /** With the identity scale and no skipping, a folder whose cursor is at c
      yields its images c, c+1, ... in list order, N - c of them, and then is
      exhausted. */
  lemma FolderInOrder(cfg: Config, g: Attrs, w: World, demand: nat)
    requires ValidState(g) && g.mode.Folder? && cfg.interval <= 0 && Chooser(cfg.scale).None?
    requires g.crtIdx <= |g.mode.imgs| < g.crtIdx + demand
    ensures
      var r := CallSpec(cfg, g, w, demand);
      && |r.0| == |g.mode.imgs| - g.crtIdx
      && (forall j :: 0 <= j < |r.0| ==> r.0[j] == Loaded(w.imread(g.mode.imgs[g.crtIdx + j])))
      && r.1 == Exhausted
      && IsEnd(r.2)
  {
    var clock: nat -> nat := _ => 0;
    RunAgrees(cfg, g, w, clock, 0, demand);
    ImGetter.FolderInOrder(cfg, g, w, clock, 0, demand);
  }

  /** A folder pull, whatever the scale: the cursor moves by interval + 1,
      or the skip overruns the list and IndexError is raised. */
  lemma FolderStep(cfg: Config, g: Attrs, w: World)
    requires ValidState(g) && g.mode.Folder? && !IsEnd(g)
    ensures
      var (n, g1) := NextStep(cfg, g, w);
      var k := Skip(cfg.interval);
      && (g.crtIdx + k >= |g.mode.imgs| ==> n == ImGetter.Raised(IndexError) && g1.crtIdx == g.crtIdx + k)
      && (g.crtIdx + k < |g.mode.imgs| ==> g1.crtIdx == g.crtIdx + k + 1)
  {
  }

  // ----- Video

  /** One video pull: the cursor moves by the skip only, and nothing fails
      with the identity scale. */
  lemma VideoStep(cfg: Config, g: Attrs, w: World)
    requires ValidState(g) && g.mode.Video? && Chooser(cfg.scale).None?
    ensures
      var (n, g1) := NextStep(cfg, g, w);
      && g1.capReleased == g.capReleased
      && (IsEnd(g) <==> g.crtIdx >= FrameCount(g.mode.file))
      && (IsEnd(g) ==> n == ImGetter.Stop && g1.crtIdx == g.crtIdx)
      && (!IsEnd(g) ==> n.Yield? && g1.crtIdx == g.crtIdx + Skip(cfg.interval))
  {
  }

  /** With interval 0 the video cursor never moves: a video with frames
      left never ends, and every demanded item is delivered (past the last
      frame, as None). */
  lemma {:induction false} VideoStalls(cfg: Config, g: Attrs, w: World, demand: nat)
    requires ValidState(g) && g.mode.Video? && cfg.interval <= 0 && Chooser(cfg.scale).None?
    requires g.crtIdx < FrameCount(g.mode.file)
    ensures
      var r := CallSpec(cfg, g, w, demand);
      && r.1 == Suspended && |r.0| == demand
      && r.2.crtIdx == g.crtIdx && !IsEnd(r.2)
    decreases demand
  {
    if demand > 0 {
      var (n, g1) := NextStep(cfg, g, w);
      VideoStep(cfg, g, w);
      CallUnfold(cfg, g, w, demand);
      VideoStalls(cfg, g1, w, demand - 1);
    }
  }

  /** With interval k > 0 each pull moves the video cursor by exactly k (not
      k + 1, as the latest revision does); the run never fails and ends once
      the cursor reaches the frame count. */
  lemma {:induction false} VideoStride(cfg: Config, g: Attrs, w: World, demand: nat)
    requires ValidState(g) && g.mode.Video? && cfg.interval > 0 && Chooser(cfg.scale).None?
    ensures
      var r := CallSpec(cfg, g, w, demand);
      && !r.1.Failed?
      && r.2.crtIdx == Cursor(g.crtIdx, cfg.interval - 1, |r.0|)
      && (r.1.Exhausted? ==> r.2.crtIdx >= FrameCount(g.mode.file))
    decreases demand
  {
    var k := cfg.interval - 1;
    if demand > 0 {
      var (n, g1) := NextStep(cfg, g, w);
      VideoStep(cfg, g, w);
      CallUnfold(cfg, g, w, demand);
      if n.Yield? {
        VideoStride(cfg, g1, w, demand - 1);
        var rest := CallSpec(cfg, g1, w, demand - 1);
        PickNext(g.crtIdx, k, |rest.0|);
      }
    }
  }

  // ----- Camera

  /** A camera set up with a warm-up starts on `_init_read`. With the
      identity scale, its first pull reads once and keeps that reader; the
      second sleeps `interval` seconds, so a negative interval raises
      ValueError there, and otherwise it reads once more and switches to the
      steady reader. */
  lemma InitReadPulls(cfg: Config, g: Attrs, w: World)
    requires ValidState(g) && g.mode.Camera? && g.reader == InitRead && g.outCount == 0
    requires Chooser(cfg.scale).None?
    ensures
      var r := CallSpec(cfg, g, w, 2);
      var dev := g.mode.dev;
      && |r.0| >= 1 && r.0[0] == PulledOf(CamRead(dev, g.camPos))
      && (cfg.interval < 0 ==> |r.0| == 1 && r.1 == Failed(ValueError) && r.2.reader == InitRead)
      && (cfg.interval >= 0 ==>
            && r.0 == [PulledOf(CamRead(dev, g.camPos)), PulledOf(CamRead(dev, g.camPos + 1))]
            && r.1 == Suspended && r.2.reader == SteadyRead && r.2.camPos == g.camPos + 2)
  {
    var (n, g1) := NextStep(cfg, g, w);
    CallUnfold(cfg, g, w, 2);
    assert g1 == g.(camPos := g.camPos + 1, outCount := 1);
    var (n2, g2) := NextStep(cfg, g1, w);
    CallUnfold(cfg, g1, w, 1);
  }

  // ----- Release

  /** The generator releases only at the natural end of its loop and only
      with `autorelease`: the one error a release can raise, AttributeError
      before any set-up, is the only way a run ends with AttributeError. A
      camera never ends and the other releases do nothing to a capture, so
      no run releases one. */
  lemma {:induction false} ReleaseAtEnd(cfg: Config, g: Attrs, w: World, demand: nat)
    requires ValidState(g)
    ensures
      var r := CallSpec(cfg, g, w, demand);
      && (r.1 == Failed(AttributeError) <==> g.mode.Unset? && cfg.autorelease && demand > 0)
      && r.2.capReleased == g.capReleased
    decreases demand
  {
    if demand > 0 {
      var (n, g1) := NextStep(cfg, g, w);
      CallUnfold(cfg, g, w, demand);
      if n.Yield? {
        ReleaseAtEnd(cfg, g1, w, demand - 1);
      }
    }
  }

  class ImagesGetter {
    const cfg: Config

    var mode: Mode
    var crtIdx: int
    var len: Length
    var reader: Reader
    var camPos: nat
    var vidPos: int
    var capReleased: bool
    var outCount: int
    var warnings: seq<Inner.Action>

    function State(): Attrs
      reads this
    {
      Attrs(mode, crtIdx, len, reader, camPos, vidPos, capReleased, outCount, warnings)
    }

    ghost predicate Valid()
      reads this
    {
      ValidState(State())
    }

    /** `isAvailable`. */
    function IsAvailable(): (b: bool)
      reads this
    {
      !IsEnd(State())
    }

    /** `__init__`: the attributes, `reset()`, then the `_scale` of
        Chooser(cfg.scale), which every pull of `__call__` applies. */
    constructor (cfg: Config, w: World)
      ensures this.cfg == cfg && Valid()
      ensures State() == ResetState(cfg, Initial(), w, camPos)
      ensures Classify(cfg.src, w).CameraKind? ==> WarmedUp(mode.dev, cfg.camWarmup, camPos)
    {
      this.cfg := cfg;
      mode, crtIdx, len, reader := Unset, 0, Missing, SteadyRead;
      camPos, vidPos, capReleased, outCount := 0, 0, false, 0;
      warnings := [];
      new;
      Reset(w);
    }

    /** `reset()`. */
    method Reset(w: World)
      requires Valid()
      modifies this
      ensures Valid()
      ensures State() == ResetState(cfg, old(State()), w, camPos)
      ensures Classify(cfg.src, w).CameraKind? ==> WarmedUp(mode.dev, cfg.camWarmup, camPos)
    {
      match Classify(cfg.src, w)
      case CameraKind(d) => SetupCam(w.cameras(d));
      case VideoKind(path) => SetupVideo(w.videos(path), path);
      case ImagesKind(dir) => SetupImages(dir, ListImages(dir, cfg.imgExt, w));
      case Unmatched =>
    }

    /** `__setup_cam__`: open the device, warn if it did not open, warm it up. */
    method SetupCam(dev: CameraDevice)
      modifies this
      ensures Valid()
      ensures State() == CamAttrs(cfg, old(State()), dev, camPos)
      ensures WarmedUp(dev, cfg.camWarmup, camPos)
    {
      if !dev.isOpen {
        warnings := warnings + [Warning("Can't open camera device " + IntToStr(cfg.src))];
      }
      var used := Warmup(dev, 0, cfg.camWarmup);
      camPos := used;
      len := Infinite;
      reader := if WarmupBudget(cfg.camWarmup) > 0 then InitRead else SteadyRead;
      mode := Camera(dev);
      capReleased := false;
    }

    /** `__setup_video__`. */
    method SetupVideo(f: VideoFile, path: string)
      modifies this
      ensures Valid()
      ensures State() == VideoAttrs(cfg, old(State()), f, path)
    {
      if !f.isOpen {
        warnings := warnings + [Warning("Can't open video file " + path)];
      }
      crtIdx, vidPos := 0, 0;
      len := Finite(FrameCount(f));
      mode := Video(f);
      capReleased := false;
    }

    /** `__setup_images__`, given what the globs matched. */
    method SetupImages(dir: string, imgs: seq<string>)
      modifies this
      ensures Valid()
      ensures State() == FolderAttrs(old(State()), dir, imgs)
    {
      if |imgs| == 0 {
        warnings := warnings + [Warning("Can't find any images in " + dir)];
      }
      crtIdx := 0;
      len := Finite(|imgs|);
      mode := Folder(imgs);
    }

    /** `self._next(self.interval)`. */
    method Pull(w: World) returns (r: Result<Pulled>)
      requires Valid() && IsAvailable()
      modifies this
      ensures Valid()
      ensures (r, State()) == PullStep(cfg, old(State()), w)
    {
      match mode
      case Camera(dev) =>
        if reader == InitRead {
          if outCount < 1 {
            var rd := CamRead(dev, camPos);
            camPos := camPos + 1;
            return Ok(PulledOf(rd));
          }
          if cfg.interval < 0 {
            return Err(ValueError);
          }
          var rd := CamRead(dev, camPos);
          camPos := camPos + 1;
          reader := SteadyRead;
          return Ok(PulledOf(rd));
        }
        var pos := camPos;
        var rd := CamRead(dev, pos);
        pos := pos + 1;
        var i := 0;
        while i < cfg.interval
          invariant 0 <= i <= Skip(cfg.interval)
          invariant pos == camPos + i + 1 && rd == CamRead(dev, pos - 1)
        {
          rd := CamRead(dev, pos);
          pos := pos + 1;
          i := i + 1;
        }
        camPos := pos;
        r := Ok(PulledOf(rd));
      case Video(f) =>
        if cfg.interval > 0 {
          crtIdx := crtIdx + cfg.interval;
          vidPos := crtIdx;
        }
        var p, pos' := VideoRead(f, vidPos).0, VideoRead(f, vidPos).1;
        vidPos := pos';
        r := Ok(p);
      case Folder(imgs) =>
        if cfg.interval > 0 {
          crtIdx := crtIdx + cfg.interval;
        }
        if crtIdx >= |imgs| {
          return Err(IndexError);
        }
        r := Ok(Loaded(w.imread(imgs[crtIdx])));
        crtIdx := crtIdx + 1;
    }

    /** `_release()`. */
    method Release() returns (r: Result<()>)
      requires Valid()
      modifies this
      ensures Valid()
      ensures match ReleaseStep(old(State()))
              case Ok(g) => r == Ok(()) && State() == g
              case Err(e) => r == Err(e) && State() == old(State())
    {
      match mode
      case Unset => r := Err(AttributeError);
      case Camera(_) => capReleased := true; r := Ok(());
      case Video(_) => r := Ok(());
      case Folder(_) => r := Ok(());
    }

    /** One turn of the `__call__` loop: pull, scale and count an image, or
        leave the loop and release when `autorelease` is set. */
    method Turn(w: World) returns (r: ImGetter.Next)
      requires Valid()
      modifies this
      ensures Valid()
      ensures (r, State()) == NextStep(cfg, old(State()), w)
    {
      if IsAvailable() {
        var p := Pull(w);
        if p.Err? {
          return ImGetter.Raised(p.error);
        }
        var s := ScaleStep(w, cfg.scale, p.value);
        if s.Err? {
          return ImGetter.Raised(s.error);
        }
        outCount := outCount + 1;
        return ImGetter.Yield(s.value);
      }
      if cfg.autorelease {
        var rel := Release();
        if rel.Err? {
          return ImGetter.Raised(rel.error);
        }
      }
      r := ImGetter.Stop;
    }

    /** The generator `__call__`, driven by a consumer that asks for at most
        `demand` items. */
    method Call(w: World, demand: nat) returns (outs: seq<Pulled>, ending: Ending)
      requires Valid()
      modifies this
      ensures Valid()
      ensures (outs, ending, State()) == CallSpec(cfg, old(State()), w, demand)
    {
      outs := [];
      var left := demand;
      ghost var total := CallSpec(cfg, State(), w, demand);
      assert [] + total.0 == total.0;
      while left > 0
        invariant Valid()
        invariant total == ImGetter.Resume(outs, CallSpec(cfg, State(), w, left))
      {
        ghost var before := State();
        var r := Turn(w);
        ghost var after := State();
        CallAdvance(cfg, before, w, left, outs, total, r, after);
        match r
        case Yield(p) =>
          outs := outs + [p];
          left := left - 1;
        case Stop =>
          return outs, Exhausted;
        case Raised(e) =>
          return outs, Failed(e);
      }
      ImGetter.ResumeEnds(outs, Suspended, State());
      ending := Suspended;
    }
  }

  /** One turn of the `__call__` loop, seen from the whole run `total`. */
  lemma CallAdvance(cfg: Config, g: Attrs, w: World, d: nat,
                    outs: seq<Pulled>, total: (seq<Pulled>, Ending, Attrs), n: ImGetter.Next, g1: Attrs)
    requires ValidState(g) && d > 0
    requires total == ImGetter.Resume(outs, CallSpec(cfg, g, w, d))
    requires (n, g1) == NextStep(cfg, g, w)
    ensures n.Yield? ==> total == ImGetter.Resume(outs + [n.p], CallSpec(cfg, g1, w, d - 1))
    ensures n.Stop? ==> total == (outs, Exhausted, g1)
    ensures n.Raised? ==> total == (outs, Failed(n.e), g1)
  {
    CallUnfold(cfg, g, w, d);
    if n.Yield? {
      ImGetter.ResumeYield(outs, n.p, CallSpec(cfg, g1, w, d - 1));
    } else if n.Stop? {
      ImGetter.ResumeEnds(outs, Exhausted, g1);
    } else {
      ImGetter.ResumeEnds(outs, Failed(n.e), g1);
    }
  }
}

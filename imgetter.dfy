// cvutils/imgetter.py (the latest revision of ImagesGetter): an iterator
// over the frames of a camera, the frames of a video file, or the image
// files of a directory. The closures `_next`, `_is_end`, `_release` and
// `_fps` that `reset` rebinds per mode are the variant Sources.Mode; each
// pull is specified by the pure step functions below and the class's
// methods are proved to perform exactly those steps.

module ImGetter {
  import opened Exceptions
  import opened Sources
  import opened GetterState
  import Inner

  /** The outcome of one `__next__`: an image, StopIteration, or an exception. */
  datatype Next = Yield(p: Pulled) | Stop | Raised(e: Exc)

  /** The constructor appends the resize to `self._adjst`, a misspelling of
      `_adjust`: every scale that asks for a resize raises AttributeError, so
      only |scale| in {0, 1} constructs, and then with no adjustment at all. */
  function ScaleAdjustments(scale: real): (r: Result<seq<Interp>>)
    ensures r.Err? <==> (scale > 1.0 || scale < -1.0 || (scale != 0.0 && -1.0 < scale < 1.0))
    ensures r.Err? ==> r.error == AttributeError
    ensures r.Ok? ==> r.value == []
  {
    var a := if scale < 0.0 then -scale else scale;
    if a > 1.0 then Err(AttributeError)
    else if 0.0 < a < 1.0 then Err(AttributeError)
    else Ok([])
  }

  /** One call of `_next(self.interval)`, with `elapsed` the whole seconds
      since the camera was set up. */
  function PullStep(cfg: Config, g: Attrs, w: World, elapsed: nat): (r: (Result<Pulled>, Attrs))
    requires ValidState(g) && !IsEnd(g)
    ensures ValidState(r.1)
    ensures r.1.outCount == g.outCount && r.1.mode == g.mode && r.1.capReleased == g.capReleased
  {
    match g.mode
    case Camera(dev) => CameraPull(cfg, g, dev, elapsed)
    case Video(f) => VideoPull(cfg, g, f)
    case Folder(imgs) => FolderPull(cfg, g, w, imgs)
  }

  /** A camera's `_next`: the initial reader shows the welcome banner while
      `(now - init).seconds < 0.5`, that is while the whole seconds elapsed
      (mod one day, as a timedelta keeps them) are 0, and otherwise reads once
      and rebinds `_next` to the steady reader; the steady reader reads
      1 + interval frames and returns the last. Only the read count and the
      reader change. */
  function CameraPull(cfg: Config, g: Attrs, dev: CameraDevice, elapsed: nat): (r: (Result<Pulled>, Attrs))
    ensures r.0.Ok? && r.1 == g.(camPos := r.1.camPos, reader := r.1.reader)
    ensures g.reader == SteadyRead ==>
      && r.1.reader == SteadyRead && r.1.camPos == g.camPos + Skip(cfg.interval) + 1
      && r.0.value == PulledOf(CamRead(dev, g.camPos + Skip(cfg.interval)))
    ensures g.reader == InitRead && elapsed % 86400 == 0 ==> r == (Ok(Welcome), g)
    ensures g.reader == InitRead && elapsed % 86400 != 0 ==>
      r.1.reader == SteadyRead && r.1.camPos == g.camPos + 1 && r.0.value == PulledOf(CamRead(dev, g.camPos))
  {
    if g.reader == InitRead then
      if elapsed % 86400 == 0 then (Ok(Welcome), g)
      else (Ok(PulledOf(CamRead(dev, g.camPos))), g.(camPos := g.camPos + 1, reader := SteadyRead))
    else SteadyPull(cfg, g, dev)
  }

  /** A video's `_next`: skip `interval` frames by seeking when it is
      positive, read, and move the cursor one further. */
  function VideoPull(cfg: Config, g: Attrs, f: VideoFile): (r: (Result<Pulled>, Attrs))
    ensures r.0.Ok? && r.1 == g.(crtIdx := g.crtIdx + Skip(cfg.interval) + 1, vidPos := r.1.vidPos)
    ensures cfg.interval > 0 ==> r.0.value == VideoRead(f, g.crtIdx + cfg.interval).0
    ensures cfg.interval <= 0 ==> r.0.value == VideoRead(f, g.vidPos).0
  {
    var idx := g.crtIdx + Skip(cfg.interval);
    var pos := if cfg.interval > 0 then idx else g.vidPos;
    var (p, pos') := VideoRead(f, pos);
    (Ok(p), g.(crtIdx := idx + 1, vidPos := pos'))
  }

  /** `__next__`. */
  function NextStep(cfg: Config, g: Attrs, w: World, elapsed: nat): (r: (Next, Attrs))
    requires ValidState(g)
    ensures ValidState(r.1) && r.1.mode == g.mode
    ensures r.0.Yield? ==> !IsEnd(g) && r.1.outCount == g.outCount + 1
    ensures !r.0.Yield? ==> r.1.outCount == g.outCount
    ensures IsEnd(g) && !cfg.autorelease ==> r == (Stop, g)
    ensures IsEnd(g) && cfg.autorelease ==>
      match ReleaseStep(g)
      case Ok(g1) => r == (Stop, g1)
      case Err(e) => r == (Raised(e), g)
  {
    if !IsEnd(g) then
      var (pr, g1) := PullStep(cfg, g, w, elapsed);
      if pr.Err? then (Raised(pr.error), g1)
      else (Yield(pr.value), g1.(outCount := g1.outCount + 1))
    else if cfg.autorelease then
      match ReleaseStep(g)
      case Err(e) => (Raised(e), g)
      case Ok(g1) => (Stop, g1)
    else (Stop, g)
  }

  /** `__call__` run by a consumer that asks for at most `demand` items; the
      j-th pull happens `clock(start + j)` seconds after the camera set-up. */
  function CallSpec(cfg: Config, g: Attrs, w: World, clock: nat -> nat, start: nat, demand: nat): (r: (seq<Pulled>, Ending, Attrs))
    requires ValidState(g)
    ensures ValidState(r.2) && r.2.mode == g.mode
    decreases demand
  {
    if demand == 0 then ([], Suspended, g)
    else
      match NextStep(cfg, g, w, clock(start))
      case (Yield(p), g1) =>
        var (rest, e, g2) := CallSpec(cfg, g1, w, clock, start + 1, demand - 1);
        ([p] + rest, e, g2)
      case (Stop, g1) => ([], Exhausted, g1)
      case (Raised(x), g1) => ([], Failed(x), g1)
  }

  /** A run yields at most `demand` items, stops short of them only by
      exhaustion or an exception, and `_out_count` counts what it yielded. */
  lemma {:induction false} CallCounts(cfg: Config, g: Attrs, w: World, clock: nat -> nat, start: nat, demand: nat)
    requires ValidState(g)
    ensures
      var r := CallSpec(cfg, g, w, clock, start, demand);
      && |r.0| <= demand
      && (r.1.Suspended? <==> |r.0| == demand)
      && r.2.outCount == g.outCount + |r.0|
    decreases demand
  {
    if demand > 0 {
      var (n, g1) := NextStep(cfg, g, w, clock(start));
      CallUnfold(cfg, g, w, clock, start, demand);
      if n.Yield? {
        CallCounts(cfg, g1, w, clock, start + 1, demand - 1);
      }
    }
  }

  /** One step of CallSpec, unfolded. */
  lemma CallUnfold(cfg: Config, g: Attrs, w: World, clock: nat -> nat, start: nat, demand: nat)
    requires ValidState(g) && demand > 0
    ensures CallSpec(cfg, g, w, clock, start, demand) ==
      match NextStep(cfg, g, w, clock(start))
      case (Yield(p), g1) =>
        var rest := CallSpec(cfg, g1, w, clock, start + 1, demand - 1);
        ([p] + rest.0, rest.1, rest.2)
      case (Stop, g1) => ([], Exhausted, g1)
      case (Raised(x), g1) => ([], Failed(x), g1)
  {
  }

  /** A run over an image folder: the j-th item is the image at Pick(c, k, j). */
  lemma {:induction false} FolderItems(cfg: Config, g: Attrs, w: World, clock: nat -> nat, start: nat, demand: nat)
    requires ValidState(g) && g.mode.Folder?
    ensures
      var r := CallSpec(cfg, g, w, clock, start, demand);
      forall j :: 0 <= j < |r.0| ==>
        0 <= Pick(g.crtIdx, Skip(cfg.interval), j) < |g.mode.imgs| &&
        r.0[j] == Loaded(w.imread(g.mode.imgs[Pick(g.crtIdx, Skip(cfg.interval), j)]))
    decreases demand
  {
    var k := Skip(cfg.interval);
    var imgs := g.mode.imgs;
    if demand > 0 {
      var (n, g1) := NextStep(cfg, g, w, clock(start));
      FolderStep(cfg, g, w, clock(start));
      CallUnfold(cfg, g, w, clock, start, demand);
      if n.Yield? {
        FolderItems(cfg, g1, w, clock, start + 1, demand - 1);
        var rest := CallSpec(cfg, g1, w, clock, start + 1, demand - 1);
        var r := CallSpec(cfg, g, w, clock, start, demand);
        assert r.0 == [n.p] + rest.0;
        forall j | 0 <= j < |r.0|
          ensures 0 <= Pick(g.crtIdx, k, j) < |imgs| && r.0[j] == Loaded(w.imread(imgs[Pick(g.crtIdx, k, j)]))
        {
          if j > 0 {
            PickNext(g.crtIdx, k, j - 1);
            assert r.0[j] == rest.0[j - 1];
          }
        }
      }
    }
  }

  /** Each pull of a folder moves the cursor by k + 1; the run is exhausted
      only once the cursor reaches the number of images, and it fails with
      IndexError exactly when a skip jumps from inside the list past its end. */
  lemma {:induction false} FolderCursor(cfg: Config, g: Attrs, w: World, clock: nat -> nat, start: nat, demand: nat)
    requires ValidState(g) && g.mode.Folder?
    ensures
      var r := CallSpec(cfg, g, w, clock, start, demand);
      var k := Skip(cfg.interval);
      var m := |r.0|;
      && (!r.1.Failed? ==> r.2.crtIdx == Cursor(g.crtIdx, k, m))
      && (r.1.Exhausted? ==> Cursor(g.crtIdx, k, m) >= |g.mode.imgs|)
      && (r.1.Failed? ==> r.1.e == IndexError && Cursor(g.crtIdx, k, m) < |g.mode.imgs| <= Pick(g.crtIdx, k, m) && r.2.crtIdx == Pick(g.crtIdx, k, m))
    decreases demand
  {
    var k := Skip(cfg.interval);
    if demand > 0 {
      var (n, g1) := NextStep(cfg, g, w, clock(start));
      FolderStep(cfg, g, w, clock(start));
      CallUnfold(cfg, g, w, clock, start, demand);
      if n.Yield? {
        FolderCursor(cfg, g1, w, clock, start + 1, demand - 1);
        PickNext(g.crtIdx, k, |CallSpec(cfg, g, w, clock, start, demand).0| - 1);
      }
    }
  }

  /** One folder pull, in the terms FolderRun needs. */
  lemma FolderStep(cfg: Config, g: Attrs, w: World, elapsed: nat)
    requires ValidState(g) && g.mode.Folder?
    ensures
      var (n, g1) := NextStep(cfg, g, w, elapsed);
      var k := Skip(cfg.interval);
      var imgs := g.mode.imgs;
      && (IsEnd(g) ==> n == Stop && g1.crtIdx == g.crtIdx)
      && (!IsEnd(g) && g.crtIdx + k >= |imgs| ==> n == Raised(IndexError) && g1.crtIdx == g.crtIdx + k)
      && (!IsEnd(g) && g.crtIdx + k < |imgs| ==> n == Yield(Loaded(w.imread(imgs[g.crtIdx + k]))) && g1.crtIdx == g.crtIdx + k + 1)
  {
  }

  /** With no skipping, a folder whose cursor is at c yields its images
      c, c+1, ... in list order, N - c of them, and then is exhausted. */
  lemma FolderInOrder(cfg: Config, g: Attrs, w: World, clock: nat -> nat, start: nat, demand: nat)
    requires ValidState(g) && g.mode.Folder? && cfg.interval <= 0
    requires g.crtIdx <= |g.mode.imgs| < g.crtIdx + demand
    ensures
      var r := CallSpec(cfg, g, w, clock, start, demand);
      && |r.0| == |g.mode.imgs| - g.crtIdx
      && (forall j :: 0 <= j < |r.0| ==> r.0[j] == Loaded(w.imread(g.mode.imgs[g.crtIdx + j])))
      && r.1 == Exhausted
      && IsEnd(r.2)
  {
    FolderItems(cfg, g, w, clock, start, demand);
    FolderCursor(cfg, g, w, clock, start, demand);
    CallCounts(cfg, g, w, clock, start, demand);
    var r := CallSpec(cfg, g, w, clock, start, demand);
    var m := |r.0|;
    forall j | 0 <= j < m
      ensures Pick(g.crtIdx, 0, j) == g.crtIdx + j
    {
      CursorClosedForm(g.crtIdx, 0, j);
    }
    assert !r.1.Failed?;
    CursorClosedForm(g.crtIdx, 0, m);
    if m > 0 {
      assert Pick(g.crtIdx, 0, m - 1) < |g.mode.imgs|;
    }
    assert !r.1.Suspended?;
    assert r.2.crtIdx == g.crtIdx + m;
  }

  /** An overrunning skip: inside the list, but the skip lands past its end. */
  lemma FolderOverrun(cfg: Config, g: Attrs, w: World, elapsed: nat)
    requires ValidState(g) && g.mode.Folder?
    requires g.crtIdx < |g.mode.imgs| <= g.crtIdx + Skip(cfg.interval)
    ensures !IsEnd(g)
    ensures NextStep(cfg, g, w, elapsed).0 == Raised(IndexError)
  {
  }

  /** A video run: each pull moves the cursor by k + 1; the run never fails, ends by
      exhaustion only once the cursor reaches the frame count, and leaves
      the capture unreleased, because the video's `_release` does not call
      `cap.release`. */
  lemma {:induction false} VideoCursor(cfg: Config, g: Attrs, w: World, clock: nat -> nat, start: nat, demand: nat)
    requires ValidState(g) && g.mode.Video?
    ensures
      var r := CallSpec(cfg, g, w, clock, start, demand);
      var k := Skip(cfg.interval);
      && r.2.capReleased == g.capReleased
      && !r.1.Failed?
      && r.2.crtIdx == Cursor(g.crtIdx, k, |r.0|)
      && (r.1.Exhausted? ==> r.2.crtIdx >= FrameCount(g.mode.file))
    decreases demand
  {
    var k := Skip(cfg.interval);
    if demand > 0 {
      var (n, g1) := NextStep(cfg, g, w, clock(start));
      VideoStep(cfg, g, w, clock(start));
      CallUnfold(cfg, g, w, clock, start, demand);
      if n.Yield? {
        VideoCursor(cfg, g1, w, clock, start + 1, demand - 1);
        var rest := CallSpec(cfg, g1, w, clock, start + 1, demand - 1);
        var r := CallSpec(cfg, g, w, clock, start, demand);
        PickNext(g.crtIdx, k, |r.0| - 1);
      }
    }
  }

  /** Every pull of a video run started below the frame count: the last one
      did, and the cursor only increases. */
  lemma {:induction false} VideoPullsInRange(cfg: Config, g: Attrs, w: World, clock: nat -> nat, start: nat, demand: nat)
    requires ValidState(g) && g.mode.Video?
    ensures
      var r := CallSpec(cfg, g, w, clock, start, demand);
      |r.0| > 0 ==> Cursor(g.crtIdx, Skip(cfg.interval), |r.0| - 1) < FrameCount(g.mode.file)
    decreases demand
  {
    var k := Skip(cfg.interval);
    if demand > 0 {
      var (n, g1) := NextStep(cfg, g, w, clock(start));
      VideoStep(cfg, g, w, clock(start));
      CallUnfold(cfg, g, w, clock, start, demand);
      if n.Yield? {
        VideoPullsInRange(cfg, g1, w, clock, start + 1, demand - 1);
        var m := |CallSpec(cfg, g1, w, clock, start + 1, demand - 1).0|;
        if m > 0 {
          PickNext(g.crtIdx, k, m - 1);
        }
      }
    }
  }

  /** The items `n` video pulls with a positive interval k yield from cursor
      c when the source stays available: one frame read after seeking to
      c + k per pull, the cursor moving by k + 1. */
  function SeekFrames(f: VideoFile, c: int, k: nat, n: nat): (s: seq<Pulled>)
    ensures |s| == n
    decreases n
  {
    if n == 0 then [] else [VideoRead(f, c + k).0] + SeekFrames(f, c + k + 1, k, n - 1)
  }

  /** The j-th of SeekFrames is the frame read at Pick(c, k, j). */
  lemma {:induction false} SeekFramesAt(f: VideoFile, c: int, k: nat, n: nat, j: nat)
    requires j < n
    ensures SeekFrames(f, c, k, n)[j] == VideoRead(f, Pick(c, k, j)).0
    decreases j
  {
    if j > 0 {
      SeekFramesAt(f, c + k + 1, k, n - 1, j - 1);
      PickNext(c, k, j - 1);
    }
  }

  /** With a positive interval the items of a video run are SeekFrames:
      the j-th is the frame the decoder reads after seeking to Pick(c, k, j). */
  lemma {:induction false} VideoFrames(cfg: Config, g: Attrs, w: World, clock: nat -> nat, start: nat, demand: nat)
    requires ValidState(g) && g.mode.Video? && cfg.interval > 0
    ensures
      var r := CallSpec(cfg, g, w, clock, start, demand);
      r.0 == SeekFrames(g.mode.file, g.crtIdx, cfg.interval, |r.0|)
    decreases demand
  {
    if demand > 0 {
      var (n, g1) := NextStep(cfg, g, w, clock(start));
      VideoStep(cfg, g, w, clock(start));
      CallUnfold(cfg, g, w, clock, start, demand);
      if n.Yield? {
        VideoFrames(cfg, g1, w, clock, start + 1, demand - 1);
      }
    }
  }

  /** One video pull, in the terms the video lemmas need. */
  lemma VideoStep(cfg: Config, g: Attrs, w: World, elapsed: nat)
    requires ValidState(g) && g.mode.Video?
    ensures
      var (n, g1) := NextStep(cfg, g, w, elapsed);
      var k := Skip(cfg.interval);
      && g1.capReleased == g.capReleased
      && (IsEnd(g) <==> g.crtIdx >= FrameCount(g.mode.file))
      && (IsEnd(g) ==> n == Stop && g1.crtIdx == g.crtIdx)
      && (!IsEnd(g) ==> n.Yield? && g1.crtIdx == g.crtIdx + k + 1)
      && (!IsEnd(g) && cfg.interval > 0 ==> n.p == VideoRead(g.mode.file, g.crtIdx + k).0)
  {
  }

  /** One pull of a camera on its steady reader. */
  lemma CameraStep(cfg: Config, g: Attrs, w: World, elapsed: nat)
    requires ValidState(g) && g.mode.Camera? && g.reader == SteadyRead
    ensures
      var (n, g1) := NextStep(cfg, g, w, elapsed);
      var k := Skip(cfg.interval);
      && n == Yield(PulledOf(CamRead(g.mode.dev, g.camPos + k)))
      && g1.camPos == g.camPos + k + 1 && g1.reader == SteadyRead
      && g1.capReleased == g.capReleased
  {
  }

  /** A camera on its steady reader never ends: every demanded item is
      delivered and each pull makes k + 1 reads. */
  lemma {:induction false} CameraCursor(cfg: Config, g: Attrs, w: World, clock: nat -> nat, start: nat, demand: nat)
    requires ValidState(g) && g.mode.Camera? && g.reader == SteadyRead
    ensures
      var r := CallSpec(cfg, g, w, clock, start, demand);
      && r.1 == Suspended && |r.0| == demand
      && r.2.camPos == Cursor(g.camPos, Skip(cfg.interval), demand)
      && r.2.capReleased == g.capReleased
    decreases demand
  {
    if demand > 0 {
      var (n, g1) := NextStep(cfg, g, w, clock(start));
      CameraStep(cfg, g, w, clock(start));
      CallUnfold(cfg, g, w, clock, start, demand);
      CameraCursor(cfg, g1, w, clock, start + 1, demand - 1);
      PickNext(g.camPos, Skip(cfg.interval), demand - 1);
    }
  }

  /** The items `n` steady-reader pulls yield from read number `pos` on:
      each pull makes k + 1 reads and keeps the last. */
  function SteadyFrames(dev: CameraDevice, pos: nat, k: nat, n: nat): (s: seq<Pulled>)
    ensures |s| == n
    decreases n
  {
    if n == 0 then [] else [PulledOf(CamRead(dev, pos + k))] + SteadyFrames(dev, pos + k + 1, k, n - 1)
  }

  /** The j-th of SteadyFrames is the read numbered Pick(pos, k, j). */
  lemma {:induction false} SteadyFramesAt(dev: CameraDevice, pos: nat, k: nat, n: nat, j: nat)
    requires j < n
    ensures Pick(pos, k, j) >= 0
    ensures SteadyFrames(dev, pos, k, n)[j] == PulledOf(CamRead(dev, Pick(pos, k, j)))
    decreases j
  {
    if j > 0 {
      SteadyFramesAt(dev, pos + k + 1, k, n - 1, j - 1);
      PickNext(pos, k, j - 1);
    }
  }

  /** The items a steady camera yields are SteadyFrames. */
  lemma {:induction false} CameraFrames(cfg: Config, g: Attrs, w: World, clock: nat -> nat, start: nat, demand: nat)
    requires ValidState(g) && g.mode.Camera? && g.reader == SteadyRead
    ensures
      var r := CallSpec(cfg, g, w, clock, start, demand);
      r.0 == SteadyFrames(g.mode.dev, g.camPos, Skip(cfg.interval), demand)
    decreases demand
  {
    if demand > 0 {
      var (n, g1) := NextStep(cfg, g, w, clock(start));
      CameraStep(cfg, g, w, clock(start));
      CallUnfold(cfg, g, w, clock, start, demand);
      CameraFrames(cfg, g1, w, clock, start + 1, demand - 1);
    }
  }

  /** A run that has already yielded `outs` and then continues as `rest`. */
  function Resume(outs: seq<Pulled>, rest: (seq<Pulled>, Ending, Attrs)): (seq<Pulled>, Ending, Attrs)
  {
    (outs + rest.0, rest.1, rest.2)
  }

  lemma ResumeYield(outs: seq<Pulled>, p: Pulled, rest: (seq<Pulled>, Ending, Attrs))
    ensures Resume(outs, ([p] + rest.0, rest.1, rest.2)) == Resume(outs + [p], rest)
  {
    assert outs + ([p] + rest.0) == (outs + [p]) + rest.0;
  }

  lemma ResumeEnds(outs: seq<Pulled>, e: Ending, g: Attrs)
    ensures Resume(outs, ([], e, g)) == (outs, e, g)
  {
    assert outs + [] == outs;
  }

  /** One turn of the `__call__` loop, seen from the whole run `total`:
      after a yield the run goes on from the new state; otherwise it ends
      with what was yielded so far. */
  lemma CallAdvance(cfg: Config, g: Attrs, w: World, clock: nat -> nat, j: nat, d: nat,
                    outs: seq<Pulled>, total: (seq<Pulled>, Ending, Attrs), n: Next, g1: Attrs)
    requires ValidState(g) && d > 0
    requires total == Resume(outs, CallSpec(cfg, g, w, clock, j, d))
    requires (n, g1) == NextStep(cfg, g, w, clock(j))
    ensures n.Yield? ==> total == Resume(outs + [n.p], CallSpec(cfg, g1, w, clock, j + 1, d - 1))
    ensures n.Stop? ==> total == (outs, Exhausted, g1)
    ensures n.Raised? ==> total == (outs, Failed(n.e), g1)
  {
    CallUnfold(cfg, g, w, clock, j, d);
    if n.Yield? {
      ResumeYield(outs, n.p, CallSpec(cfg, g1, w, clock, j + 1, d - 1));
    } else if n.Stop? {
      ResumeEnds(outs, Exhausted, g1);
    } else {
      ResumeEnds(outs, Failed(n.e), g1);
    }
  }

  /** FPS_interval: the source's rate divided by a positive interval, the
      rate itself otherwise. */
  function FpsInterval(cfg: Config, fps: real): (rate: real)
    ensures cfg.interval > 0 ==> rate * cfg.interval as real == fps
    ensures cfg.interval <= 0 ==> rate == fps
  {
    if cfg.interval > 0 then fps / cfg.interval as real else fps
  }

  /** frameDelay: the whole milliseconds of one frame at FPS_interval when
      that rate is positive, 33 ms otherwise. */
  function FrameDelay(cfg: Config, g: Attrs): (r: Result<int>)
    ensures g.mode.Unset? <==> r.Err?
    ensures r.Err? ==> r.error == AttributeError
    ensures r.Ok? ==>
      var rate := FpsInterval(cfg, FpsSrc(g).value);
      && (rate > 0.0 ==> 0 <= r.value && r.value as real <= 1000.0 / rate < (r.value + 1) as real)
      && (rate <= 0.0 ==> r.value == 33)
  {
    match FpsSrc(g)
    case Err(e) => Err(e)
    case Ok(fps) =>
      var rate := FpsInterval(cfg, fps);
      if rate > 0.0 then Ok(Trunc(1000.0 / rate)) else Ok(33)
  }

  /** `_fps()`: the device's or the file's CAP_PROP_FPS (0 when it did not
      open), -1 for a folder; no `_fps` before any set-up. */
  function FpsSrc(g: Attrs): (r: Result<real>)
    ensures r.Err? <==> g.mode.Unset?
    ensures g.mode.Folder? ==> r == Ok(-1.0)
  {
    match g.mode
    case Unset => Err(AttributeError)
    case Camera(dev) => Ok(if dev.isOpen then dev.fps else 0.0)
    case Video(f) => Ok(if f.isOpen then f.fps else 0.0)
    case Folder(_) => Ok(-1.0)
  }

  /** A frame count that may be infinite. */
  datatype Count = Fin(c: real) | Inf

  /** frameCount_interval: `len / interval` when the interval is positive,
      `len` otherwise; infinite for a camera. */
  function FrameCountInterval(cfg: Config, g: Attrs): (r: Result<Count>)
    ensures r.Err? <==> g.len.Missing?
    ensures g.len.Infinite? ==> r == Ok(Inf)
    ensures g.len.Finite? && cfg.interval > 0 ==> r == Ok(Fin(g.len.n as real / cfg.interval as real))
    ensures g.len.Finite? && cfg.interval <= 0 ==> r == Ok(Fin(g.len.n as real))
  {
    match g.len
    case Missing => Err(AttributeError)
    case Infinite => Ok(Inf)
    case Finite(n) => Ok(Fin(if cfg.interval > 0 then n as real / cfg.interval as real else n as real))
  }

  /** The number of items a run from a freshly set-up getter yields, when
      the consumer asks for more than the source holds: a video of n frames
      gives ceil(n / (k + 1)) pulls, since each moves the cursor by k + 1; a
      folder of n images gives floor(n / (k + 1)), the last skip either
      landing exactly on the end or raising IndexError. */
  function FrameCountPulled(cfg: Config, g: Attrs): (r: Result<Count>)
    requires ValidState(g)
    ensures r.Err? <==> g.len.Missing?
    ensures g.len.Infinite? ==> r == Ok(Inf)
  {
    var k := Skip(cfg.interval);
    match g.mode
    case Unset => Err(AttributeError)
    case Camera(_) => Ok(Inf)
    case Video(f) => Ok(Fin(((FrameCount(f) + k) / (k + 1)) as real))
    case Folder(imgs) => Ok(Fin((|imgs| / (k + 1)) as real))
  }

  /** m is the ceiling of n / b. */
  lemma CeilDiv(n: nat, b: nat, m: nat)
    requires b > 0 && n <= m * b && (m > 0 ==> (m - 1) * b < n)
    ensures m == (n + b - 1) / b
  {
    var q := (n + b - 1) / b;
    assert q * b <= n + b - 1 < q * b + b;
    assert (m + 1) * b == m * b + b;
    MulMono(q, m + 1, b);
    if m > 0 {
      MulMono(m - 1, q, b);
    }
  }

  /** m is the floor of n / b. */
  lemma FloorDiv(n: nat, b: nat, m: nat)
    requires b > 0 && m * b <= n < m * b + b
    ensures m == n / b
  {
    var q := n / b;
    assert q * b <= n < q * b + b;
    assert (m + 1) * b == m * b + b;
    assert (q + 1) * b == q * b + b;
    MulMono(q, m + 1, b);
    MulMono(m, q + 1, b);
  }

  lemma {:induction false} MulMono(x: nat, y: nat, b: nat)
    ensures x >= y ==> x * b >= y * b
    decreases x
  {
    if x > y {
      MulMono(x - 1, y, b);
      assert x * b == (x - 1) * b + b;
    }
  }

  /** m pulls from c in strides of k + 1, the last starting below n: the
      cursor after them in closed form, and the last start below n. */
  lemma StrideBounds(c: int, k: nat, m: nat, n: int)
    requires m > 0 ==> Cursor(c, k, m - 1) < n
    ensures Cursor(c, k, m) == c + m * (k + 1)
    ensures m > 0 ==> c + (m - 1) * (k + 1) < n && c + m - 1 < n
  {
    CursorClosedForm(c, k, m);
    if m > 0 {
      CursorClosedForm(c, k, m - 1);
      MulLe(1, k + 1, m - 1);
    }
  }

  lemma MulLe(x: nat, y: nat, b: nat)
    requires x <= y
    ensures x * b <= y * b
  {
  }

  /** A video run from cursor c asked for more items than there are frames
      makes exactly the pulls that start below the frame count: it is
      exhausted, and m pulls cover the n - c frames left with the last
      pull starting inside them. */
  lemma VideoRunLength(cfg: Config, g: Attrs, w: World, clock: nat -> nat, start: nat, demand: nat)
    requires ValidState(g) && g.mode.Video? && FrameCount(g.mode.file) < demand
    ensures
      var r := CallSpec(cfg, g, w, clock, start, demand);
      var n := FrameCount(g.mode.file);
      var k := Skip(cfg.interval);
      && r.1 == Exhausted
      && g.crtIdx + |r.0| * (k + 1) >= n
      && (|r.0| > 0 ==> g.crtIdx + (|r.0| - 1) * (k + 1) < n)
  {
    var r := CallSpec(cfg, g, w, clock, start, demand);
    var k := Skip(cfg.interval);
    var m := |r.0|;
    VideoCursor(cfg, g, w, clock, start, demand);
    VideoPullsInRange(cfg, g, w, clock, start, demand);
    CallCounts(cfg, g, w, clock, start, demand);
    StrideBounds(g.crtIdx, k, m, FrameCount(g.mode.file));
  }

  /** A video run from a fresh set-up yields FrameCountPulled items. */
  lemma VideoItemCount(cfg: Config, g: Attrs, w: World, clock: nat -> nat, start: nat, demand: nat)
    requires ValidState(g) && g.mode.Video? && g.crtIdx == 0 && FrameCount(g.mode.file) < demand
    ensures
      var r := CallSpec(cfg, g, w, clock, start, demand);
      r.1 == Exhausted && FrameCountPulled(cfg, g) == Ok(Fin(|r.0| as real))
  {
    var r := CallSpec(cfg, g, w, clock, start, demand);
    var k := Skip(cfg.interval);
    VideoRunLength(cfg, g, w, clock, start, demand);
    CeilDiv(FrameCount(g.mode.file), k + 1, |r.0|);
  }

  /** A folder run from cursor c asked for more items than there are images:
      m pulls fit in the n - c images left with less than one stride to
      spare; the run is exhausted when they fit exactly and otherwise fails
      with IndexError. */
  lemma FolderRunLength(cfg: Config, g: Attrs, w: World, clock: nat -> nat, start: nat, demand: nat)
    requires ValidState(g) && g.mode.Folder? && |g.mode.imgs| < demand
    ensures
      var r := CallSpec(cfg, g, w, clock, start, demand);
      var n := |g.mode.imgs|;
      var k := Skip(cfg.interval);
      var used := g.crtIdx + |r.0| * (k + 1);
      && (g.crtIdx >= n ==> r.0 == [] && r.1 == Exhausted)
      && (g.crtIdx < n ==> used <= n < used + k + 1)
      && (g.crtIdx < n ==> (r.1 == Exhausted <==> used == n))
      && (r.1 != Exhausted ==> r.1 == Failed(IndexError))
  {
    var r := CallSpec(cfg, g, w, clock, start, demand);
    var k := Skip(cfg.interval);
    var m := |r.0|;
    FolderCursor(cfg, g, w, clock, start, demand);
    FolderItems(cfg, g, w, clock, start, demand);
    CallCounts(cfg, g, w, clock, start, demand);
    CursorClosedForm(g.crtIdx, k, m);
    if m > 0 {
      CursorClosedForm(g.crtIdx, k, m - 1);
      assert Pick(g.crtIdx, k, m - 1) < |g.mode.imgs|;
      MulLe(1, k + 1, m - 1);
    }
  }

  /** A folder run from a fresh set-up yields FrameCountPulled items. */
  lemma FolderItemCount(cfg: Config, g: Attrs, w: World, clock: nat -> nat, start: nat, demand: nat)
    requires ValidState(g) && g.mode.Folder? && g.crtIdx == 0 && |g.mode.imgs| < demand
    ensures
      var r := CallSpec(cfg, g, w, clock, start, demand);
      FrameCountPulled(cfg, g) == Ok(Fin(|r.0| as real))
  {
    var r := CallSpec(cfg, g, w, clock, start, demand);
    var k := Skip(cfg.interval);
    FolderRunLength(cfg, g, w, clock, start, demand);
    if |g.mode.imgs| > 0 {
      FloorDiv(|g.mode.imgs|, k + 1, |r.0|);
    }
  }

  /** frameCount_interval counts a freshly set-up video of ten frames with
      interval 1 as 10 items, while the run yields 5. */
  lemma FrameCountIntervalTenFrames(cfg: Config, g: Attrs, w: World, clock: nat -> nat, start: nat, demand: nat)
    requires ValidState(g) && g.mode.Video? && g.crtIdx == 0 && FrameCount(g.mode.file) == 10
    requires cfg.interval == 1 && demand > 10
    ensures FrameCountInterval(cfg, g) == Ok(Fin(10.0))
    ensures |CallSpec(cfg, g, w, clock, start, demand).0| == 5
  {
    VideoItemCount(cfg, g, w, clock, start, demand);
  }

  /** `(self.width, self.height)` of `__setup_cam__`: the scale times what
      CAP_PROP_FRAME_WIDTH and CAP_PROP_FRAME_HEIGHT report, truncated; a
      device that did not open reports 0. */
  function CamFrameSize(cfg: Config, dev: CameraDevice): (r: (int, int))
    ensures !dev.isOpen ==> r == (0, 0)
    ensures cfg.scale >= 0.0 && dev.width >= 0.0 && dev.height >= 0.0 ==> r.0 >= 0 && r.1 >= 0
  {
    var width := if dev.isOpen then dev.width else 0.0;
    var height := if dev.isOpen then dev.height else 0.0;
    (Trunc(cfg.scale * width), Trunc(cfg.scale * height))
  }

  /** `np.zeros((self.height, self.width, 3))` raises ValueError for a
      negative dimension. */
  predicate NegativeFrame(cfg: Config, dev: CameraDevice)
  {
    CamFrameSize(cfg, dev).0 < 0 || CamFrameSize(cfg, dev).1 < 0
  }

  /** Among the scales the constructor accepts, only -1 gives a negative
      frame size (devices report sizes that are not negative), and it does
      so exactly for an opened device that reports a width or a height of
      at least one pixel. */
  lemma NegativeFrameRule(cfg: Config, dev: CameraDevice)
    requires ScaleAdjustments(cfg.scale).Ok? && dev.width >= 0.0 && dev.height >= 0.0
    ensures NegativeFrame(cfg, dev) <==> cfg.scale == -1.0 && dev.isOpen && (dev.width >= 1.0 || dev.height >= 1.0)
  {
    assert cfg.scale == 0.0 || cfg.scale == 1.0 || cfg.scale == -1.0;
    if cfg.scale == -1.0 && dev.isOpen {
      var (fw, fh) := CamFrameSize(cfg, dev);
      assert fw < 0 <==> dev.width >= 1.0;
      assert fh < 0 <==> dev.height >= 1.0;
    }
  }

  /** `reset()` of the latest revision: as ResetState, except that a camera
      set-up raises ValueError on a negative frame size, before it warms up
      or rebinds anything. */
  function ResetResult(cfg: Config, g: Attrs, w: World, used: nat): (r: Result<Attrs>)
    ensures r.Err? <==> Classify(cfg.src, w).CameraKind? && NegativeFrame(cfg, w.cameras(Classify(cfg.src, w).device))
    ensures r.Err? ==> r.error == ValueError
    ensures r.Ok? ==> r.value == ResetState(cfg, g, w, used)
  {
    match Classify(cfg.src, w)
    case CameraKind(d) =>
      if NegativeFrame(cfg, w.cameras(d)) then Err(ValueError) else Ok(ResetState(cfg, g, w, used))
    case _ => Ok(ResetState(cfg, g, w, used))
  }

  class ImagesGetter {
    const cfg: Config

    var mode: Mode
    var crtIdx: int
    var len: Length
    var reader: Reader
    var camPos: nat
    var vidPos: int
    var capReleased: bool
    var outCount: int
    var warnings: seq<Inner.Action>

    function State(): Attrs
      reads this
    {
      Attrs(mode, crtIdx, len, reader, camPos, vidPos, capReleased, outCount, warnings)
    }

    ghost predicate Valid()
      reads this
    {
      ValidState(State())
    }

    /** `isAvailable`. */
    function IsAvailable(): (b: bool)
      reads this
    {
      !IsEnd(State())
    }

    /** `__init__`'s own assignments, before the scale check and `reset()`. */
    constructor (cfg: Config)
      ensures this.cfg == cfg && Valid()
      ensures State() == Initial()
    {
      this.cfg := cfg;
      mode, crtIdx, len, reader := Unset, 0, Missing, SteadyRead;
      camPos, vidPos, capReleased, outCount := 0, 0, false, 0;
      warnings := [];
    }

    /** `reset()`. */
    method Reset(w: World) returns (r: Result<()>)
      requires Valid()
      modifies this
      ensures Valid()
      ensures match ResetResult(cfg, old(State()), w, camPos)
              case Ok(g) => r == Ok(()) && State() == g
              case Err(e) => r == Err(e) && State() == old(State())
      ensures r.Ok? && Classify(cfg.src, w).CameraKind? ==> WarmedUp(mode.dev, cfg.camWarmup, camPos)
    {
      r := Ok(());
      match Classify(cfg.src, w)
      case CameraKind(d) =>
        r := SetupCam(w.cameras(d));
      case VideoKind(path) => SetupVideo(w.videos(path), path);
      case ImagesKind(dir) => SetupImages(dir, ListImages(dir, cfg.imgExt, w));
      case Unmatched =>
    }

    /** `__setup_cam__`: open the device, warn if it did not open, size the
        banner (ValueError for a negative size), warm the device up. */
    method SetupCam(dev: CameraDevice) returns (r: Result<()>)
      modifies this
      ensures r == if NegativeFrame(cfg, dev) then Err(ValueError) else Ok(())
      ensures r.Err? ==> State() == old(State())
      ensures r.Ok? ==> Valid() && State() == CamAttrs(cfg, old(State()), dev, camPos)
      ensures r.Ok? ==> WarmedUp(dev, cfg.camWarmup, camPos)
    {
      if !dev.isOpen {
        warnings := warnings + [Warning("Can't open camera device " + IntToStr(cfg.src))];
      }
      var (width, height) := CamFrameSize(cfg, dev);
      if width < 0 || height < 0 {
        return Err(ValueError);
      }
      var used := Warmup(dev, 0, cfg.camWarmup);
      camPos := used;
      len := Infinite;
      reader := if WarmupBudget(cfg.camWarmup) > 0 then InitRead else SteadyRead;
      mode := Camera(dev);
      capReleased := false;
      r := Ok(());
    }

    /** `__setup_video__`. */
    method SetupVideo(f: VideoFile, path: string)
      modifies this
      ensures Valid()
      ensures State() == VideoAttrs(cfg, old(State()), f, path)
    {
      if !f.isOpen {
        warnings := warnings + [Warning("Can't open video file " + path)];
      }
      crtIdx, vidPos := 0, 0;
      len := Finite(FrameCount(f));
      mode := Video(f);
      capReleased := false;
    }

    /** `__setup_images__`, given what the globs matched. */
    method SetupImages(dir: string, imgs: seq<string>)
      modifies this
      ensures Valid()
      ensures State() == FolderAttrs(old(State()), dir, imgs)
    {
      if |imgs| == 0 {
        warnings := warnings + [Warning("Can't find any images in " + dir)];
      }
      crtIdx := 0;
      len := Finite(|imgs|);
      mode := Folder(imgs);
    }

    /** `self._next(self.interval)`. */
    method Pull(w: World, elapsed: nat) returns (r: Result<Pulled>)
      requires Valid() && IsAvailable()
      modifies this
      ensures Valid()
      ensures (r, State()) == PullStep(cfg, old(State()), w, elapsed)
    {
      match mode
      case Camera(dev) =>
        if reader == InitRead {
          if elapsed % 86400 == 0 {
            return Ok(Welcome);
          }
          var rd := CamRead(dev, camPos);
          camPos := camPos + 1;
          reader := SteadyRead;
          return Ok(PulledOf(rd));
        }
        var pos := camPos;
        var rd := CamRead(dev, pos);
        pos := pos + 1;
        var i := 0;
        while i < cfg.interval
          invariant 0 <= i <= Skip(cfg.interval)
          invariant pos == camPos + i + 1 && rd == CamRead(dev, pos - 1)
        {
          rd := CamRead(dev, pos);
          pos := pos + 1;
          i := i + 1;
        }
        camPos := pos;
        r := Ok(PulledOf(rd));
      case Video(f) =>
        if cfg.interval > 0 {
          crtIdx := crtIdx + cfg.interval;
          vidPos := crtIdx;
        }
        var p, pos' := VideoRead(f, vidPos).0, VideoRead(f, vidPos).1;
        vidPos := pos';
        crtIdx := crtIdx + 1;
        r := Ok(p);
      case Folder(imgs) =>
        if cfg.interval > 0 {
          crtIdx := crtIdx + cfg.interval;
        }
        if crtIdx >= |imgs| {
          return Err(IndexError);
        }
        r := Ok(Loaded(w.imread(imgs[crtIdx])));
        crtIdx := crtIdx + 1;
    }

    /** `_release()`. */
    method Release() returns (r: Result<()>)
      requires Valid()
      modifies this
      ensures Valid()
      ensures match ReleaseStep(old(State()))
              case Ok(g) => r == Ok(()) && State() == g
              case Err(e) => r == Err(e) && State() == old(State())
    {
      match mode
      case Unset => r := Err(AttributeError);
      case Camera(_) => capReleased := true; r := Ok(());
      case Video(_) => r := Ok(());
      case Folder(_) => r := Ok(());
    }

    /** `__next__`. */
    method Next(w: World, elapsed: nat) returns (r: Next)
      requires Valid()
      modifies this
      ensures Valid()
      ensures (r, State()) == NextStep(cfg, old(State()), w, elapsed)
    {
      if IsAvailable() {
        var p := Pull(w, elapsed);
        if p.Err? {
          return Raised(p.error);
        }
        outCount := outCount + 1;
        return Yield(p.value);
      }
      if cfg.autorelease {
        var rel := Release();
        if rel.Err? {
          return Raised(rel.error);
        }
      }
      r := Stop;
    }

    /** The generator `__call__`, driven by a consumer that asks for at most
        `demand` items: it pulls while the source is available, and releases
        only when its loop ends because the source is exhausted. */
    method Call(w: World, clock: nat -> nat, demand: nat) returns (outs: seq<Pulled>, ending: Ending)
      requires Valid()
      modifies this
      ensures Valid()
      ensures (outs, ending, State()) == CallSpec(cfg, old(State()), w, clock, 0, demand)
    {
      outs := [];
      var j, left := 0, demand;
      ghost var total := CallSpec(cfg, State(), w, clock, 0, demand);
      assert [] + total.0 == total.0;
      while left > 0
        invariant Valid() && j == |outs| && j + left == demand
        invariant total == Resume(outs, CallSpec(cfg, State(), w, clock, j, left))
      {
        ghost var before := State();
        var r := Next(w, clock(j));
        ghost var after := State();
        CallAdvance(cfg, before, w, clock, j, left, outs, total, r, after);
        match r
        case Yield(p) =>
          outs := outs + [p];
          j, left := j + 1, left - 1;
        case Stop =>
          return outs, Exhausted;
        case Raised(e) =>
          return outs, Failed(e);
      }
      ResumeEnds(outs, Suspended, State());
      ending := Suspended;
    }
  }

  /** `ImagesGetter(src, interval, scale, img_ext, cam_warmup, autorelease)`:
      fails with AttributeError for every scale that asks for a resize, and
      with the ValueError of `reset()` for a negative camera frame size. */
  method NewImagesGetter(cfg: Config, w: World) returns (r: Result<ImagesGetter>)
    ensures r.Err? <==> ScaleAdjustments(cfg.scale).Err? || ResetResult(cfg, Initial(), w, 0).Err?
    ensures ScaleAdjustments(cfg.scale).Err? ==> r == Err(AttributeError)
    ensures ScaleAdjustments(cfg.scale).Ok? && r.Err? ==> r.error == ValueError
    ensures r.Ok? ==> fresh(r.value) && r.value.cfg == cfg && r.value.Valid()
    ensures r.Ok? ==> r.value.State() == ResetState(cfg, Initial(), w, r.value.camPos)
    ensures r.Ok? && Classify(cfg.src, w).CameraKind? ==> WarmedUp(r.value.mode.dev, cfg.camWarmup, r.value.camPos)
  {
    if ScaleAdjustments(cfg.scale).Err? {
      return Err(AttributeError);
    }
    var g := new ImagesGetter(cfg);
    var reset := g.Reset(w);
    if reset.Err? {
      return Err(reset.error);
    }
    r := Ok(g);
  }
}

// What the two revisions of ImagesGetter (cvutils/imgetter.py and
// imgetter.py) share: the images and reads they handle, the outside world
// they consult (file system, capture devices, decoders, image files), the
// classification of a source, and the camera warm-up loop.

module Sources {
  import opened Exceptions
  import Text
  import Inner

  /** A decoded picture: its size and its pixel values. */
  datatype Image = Image(width: int, height: int, pixels: seq<int>)

  /** numpy's `frame.any()`: some pixel is non-zero. */
  predicate NonBlank(img: Image)
  {
    exists i :: 0 <= i < |img.pixels| && img.pixels[i] != 0
  }

  /** The result of one `cap.read()`: the success flag and the frame. */
  datatype Read = Read(ok: bool, frame: Option<Image>)

  /** A capture device as `cv2.VideoCapture(index)` sees it: whether it opens,
      what it reports for frame rate and frame size, and the result of its
      n-th read. */
  datatype CameraDevice = CameraDevice(isOpen: bool, fps: real, width: real, height: real, feed: nat -> Read)

  /** A video file as `cv2.VideoCapture(path)` sees it. */
  datatype VideoFile = VideoFile(isOpen: bool, fps: real, width: real, height: real, frames: seq<Image>)

  /** The `img_ext` argument: one extension, a tuple or list of them, or a
      value of some other type. */
  datatype ImgExt = ExtStr(ext: string) | ExtList(exts: seq<string>) | ExtOther

  /** Everything the getter asks of its environment, as oracles:
      os.path.isfile / isdir, the capture devices, the video decoder,
      glob.glob(os.path.join(dir, '*' + ext)), cv2.imread, and
      cv2.resize by a factor (None when OpenCV rejects the call). */
  datatype World = World(
    files: set<string>,
    dirs: set<string>,
    cameras: int -> CameraDevice,
    videos: string -> VideoFile,
    glob: (string, string) -> seq<string>,
    imread: string -> Option<Image>,
    resize: (Image, real, Interp) -> Option<Image>)

  /** The `src` argument: an int, or a string. */
  datatype Source = IntSource(n: int) | StrSource(s: string)

  /** The mode `reset` selects. */
  datatype Kind = CameraKind(device: int) | VideoKind(path: string) | ImagesKind(dir: string) | Unmatched

  /** `reset`'s chain: an int or an all-digit string is a camera index;
      otherwise an existing file is a video; otherwise an existing directory
      is an image folder; otherwise nothing is set up. */
  function Classify(src: Source, w: World): (k: Kind)
    ensures src.IntSource? ==> k == CameraKind(src.n)
    ensures src.StrSource? && Text.MatchesDigitsToEnd(src.s) ==> k.CameraKind?
    ensures src.StrSource? && !Text.MatchesDigitsToEnd(src.s) ==>
      k == (if src.s in w.files then VideoKind(src.s)
            else if src.s in w.dirs then ImagesKind(src.s)
            else Unmatched)
    ensures k.Unmatched? <==> src.StrSource? && !Text.MatchesDigitsToEnd(src.s) && src.s !in w.files && src.s !in w.dirs
  {
    match src
    case IntSource(n) => CameraKind(n)
    case StrSource(s) =>
      if Text.MatchesDigitsToEnd(s) then CameraKind(Text.ParseDevice(s))
      else if s in w.files then VideoKind(s)
      else if s in w.dirs then ImagesKind(s)
      else Unmatched
  }

  /** The list `__setup_images__` builds: one glob for a string extension,
      the globs concatenated in order for a tuple or list, nothing otherwise. */
  function ListImages(dir: string, ext: ImgExt, w: World): (imgs: seq<string>)
    ensures ext.ExtOther? ==> imgs == []
    ensures ext.ExtStr? ==> imgs == w.glob(dir, ext.ext)
  {
    match ext
    case ExtStr(e) => w.glob(dir, e)
    case ExtList(es) => GlobAll(dir, es, w)
    case ExtOther => []
  }

  function GlobAll(dir: string, exts: seq<string>, w: World): (imgs: seq<string>)
    ensures exts != [] ==> imgs == w.glob(dir, exts[0]) + GlobAll(dir, exts[1..], w)
  {
    if exts == [] then [] else w.glob(dir, exts[0]) + GlobAll(dir, exts[1..], w)
  }

  /** The interpolations `cv2.resize` is asked for. */
  datatype Interp = Cubic | Area

  /** The n-th read of a device; a device that did not open never delivers. */
  function CamRead(dev: CameraDevice, n: nat): Read
  {
    if dev.isOpen then dev.feed(n) else Read(false, None)
  }

  /** The warm-up's filter: `ret and frame is not None`. */
  predicate Delivered(r: Read)
  {
    r.ok && r.frame.Some?
  }

  /** The non-blank flags of the delivered frames among the k reads from
      read number `start` on, in order. */
  ghost function Flags(dev: CameraDevice, start: nat, k: nat): (f: seq<bool>)
    ensures |f| <= k
  {
    if k == 0 then []
    else
      var r := CamRead(dev, start + k - 1);
      if Delivered(r) then Flags(dev, start, k - 1) + [NonBlank(r.frame.value)]
      else Flags(dev, start, k - 1)
  }

  /** The last min(n, |f|) elements of f. */
  function Last(f: seq<bool>, n: nat): (r: seq<bool>)
    ensures |r| <= n && |r| <= |f|
  {
    if |f| <= n then f else f[|f| - n..]
  }

  /** After k reads the loop breaks: read k delivered a frame and the last six
      delivered frames are all non-blank. */
  ghost predicate Stable(dev: CameraDevice, start: nat, k: nat)
  {
    var f := Flags(dev, start, k);
    && k >= 1
    && Delivered(CamRead(dev, start + k - 1))
    && |f| >= 6
    && forall j :: |f| - 6 <= j < |f| ==> f[j]
  }

  /** The number of warm-up reads asked for: -1 (any negative) means 1000. */
  function WarmupBudget(count: int): (n: nat)
    ensures count < 0 ==> n == 1000
    ensures count >= 0 ==> n == count
  {
    if count < 0 then 1000 else count
  }

  /** The warm-up loop of `__setup_cam__`: up to WarmupBudget(count) reads
      from read number `start` on, keeping a sliding list of the non-blank
      flags of delivered frames; stops early once six buffered flags are all
      true. Returns how many reads it made. */
  method Warmup(dev: CameraDevice, start: nat, count: int) returns (used: nat)
    ensures used <= WarmupBudget(count)
    ensures forall k :: 1 <= k < used ==> !Stable(dev, start, k)
    ensures used < WarmupBudget(count) ==> Stable(dev, start, used)
  {
    var n := WarmupBudget(count);
    var testPics: seq<bool> := [];
    var i := 0;
    used := 0;
    while i < n
      invariant 0 <= i <= n && used == i
      invariant testPics == Last(Flags(dev, start, i), 5)
      invariant forall k :: 1 <= k <= i ==> !Stable(dev, start, k)
    {
      var r := CamRead(dev, start + i);
      WindowStep(dev, start, i, testPics);
      i := i + 1;
      used := i;
      if Delivered(r) {
        testPics := testPics + [NonBlank(r.frame.value)];
        if |testPics| > 5 {
          if forall j :: 0 <= j < |testPics| ==> testPics[j] {
            return;
          }
          testPics := testPics[1..];
        }
      }
    }
  }

  /** One turn of the warm-up loop, on the window of the last five flags:
      the read is stable exactly when it delivered, and appending its flag
      gives six flags that are all true; otherwise the window moves on. */
  lemma WindowStep(dev: CameraDevice, start: nat, i: nat, w: seq<bool>)
    requires w == Last(Flags(dev, start, i), 5)
    ensures
      var r := CamRead(dev, start + i);
      var w1 := if Delivered(r) then w + [NonBlank(r.frame.value)] else w;
      && (Stable(dev, start, i + 1) <==> Delivered(r) && |w1| > 5 && forall j :: 0 <= j < |w1| ==> w1[j])
      && (|w1| <= 5 ==> w1 == Last(Flags(dev, start, i + 1), 5))
      && (|w1| > 5 ==> w1[1..] == Last(Flags(dev, start, i + 1), 5))
  {
    var r := CamRead(dev, start + i);
    var f := Flags(dev, start, i + 1);
    if Delivered(r) {
      var w1 := w + [NonBlank(r.frame.value)];
      assert f == Flags(dev, start, i) + [NonBlank(r.frame.value)];
      assert w1 == Last(f, 6);
      if |w1| > 5 {
        assert |f| >= 6;
        if forall j :: 0 <= j < |w1| ==> w1[j] {
          forall j | |f| - 6 <= j < |f|
            ensures f[j]
          {
            assert f[j] == w1[j - (|f| - 6)];
          }
        } else {
          var j :| 0 <= j < |w1| && !w1[j];
          assert !f[|f| - 6 + j];
        }
      }
    }
  }

  // ----- The per-mode machinery both revisions bind to `_next`, `_is_end`,
  // ----- `_release` and `_fps`, as one closed variant.

  /** What `reset` has set up: nothing yet, a camera, a video, or a folder
      with its list of image paths. */
  datatype Mode = Unset | Camera(dev: CameraDevice) | Video(file: VideoFile) | Folder(imgs: seq<string>)

  /** Which reader a camera's `_next` is bound to. */
  datatype Reader = InitRead | SteadyRead

  /** The `len` attribute: not assigned yet, a frame count, or infinity. */
  datatype Length = Missing | Finite(n: int) | Infinite

  /** One pulled item: None, an image, or the "Initiling Camera..." banner. */
  datatype Pulled = NoImage | Got(img: Image) | Welcome

  /** `frame if ret else None`. */
  function PulledOf(r: Read): (p: Pulled)
    ensures p.Got? <==> r.ok && r.frame.Some?
    ensures p.Got? ==> p.img == r.frame.value
  {
    if r.ok && r.frame.Some? then Got(r.frame.value) else NoImage
  }

  /** An image file as cv2.imread returns it (None when it cannot be read). */
  function Loaded(img: Option<Image>): (p: Pulled)
    ensures p.Got? <==> img.Some?
    ensures p != Welcome
  {
    if img.Some? then Got(img.value) else NoImage
  }

  /** CAP_PROP_FRAME_COUNT: 0 for a file the decoder could not open. */
  function FrameCount(f: VideoFile): nat
  {
    if f.isOpen then |f.frames| else 0
  }

  /** One `cap.read()` of a video with the decoder at position `pos`: the
      frame and the new position. Past the last frame the read fails. */
  function VideoRead(f: VideoFile, pos: int): (r: (Pulled, int))
    ensures r.0.Got? ==> 0 <= pos < |f.frames| && r.0.img == f.frames[pos] && r.1 == pos + 1
    ensures !r.0.Got? ==> r.1 == pos
  {
    if f.isOpen && 0 <= pos < |f.frames| then (Got(f.frames[pos]), pos + 1) else (NoImage, pos)
  }

  /** The frames to discard before a pull: `interval` when positive, none otherwise
      (`if interval > 0`, and `range(interval)` is empty for interval <= 0). */
  function Skip(interval: int): (k: nat)
    ensures interval > 0 ==> k == interval
    ensures interval <= 0 ==> k == 0
  {
    if interval > 0 then interval else 0
  }

  /** `not isAvailable`: `_is_end()` of the mode (lambda: True before any
      set-up, False for a camera, crt_idx >= len otherwise). */
  predicate AtEnd(mode: Mode, crtIdx: int, len: Length)
  {
    match mode
    case Unset => true
    case Camera(_) => false
    case Video(_) => len.Finite? ==> crtIdx >= len.n
    case Folder(_) => len.Finite? ==> crtIdx >= len.n
  }

  /** The warnings `__setup_*__` reports through `report(WARNING, ...)`,
      with ERROR_LEVEL_ADJ unset. */
  function Warning(msg: string): Inner.Action
  {
    Inner.Report(Inner.WARNING, msg, None, None)
  }

  /** Python's int() on a float: truncation toward zero. */
  function Trunc(x: real): (n: int)
    ensures x >= 0.0 ==> n as real <= x < n as real + 1.0
    ensures x < 0.0 ==> n as real - 1.0 < x <= n as real
  {
    if x >= 0.0 then x.Floor else -((-x).Floor)
  }
}

// qxtoolkit/cam_record.py: the frame-geometry rule `adjustSize`, the CODEC
// table, the camera switch of `VideoCapture`, the size guard of
// `VideoWriter.write`, and the decisions `cam_record` takes on its settings,
// its save path and each key press.

module CamRecord {
  import opened Exceptions
  import Text
  import Inner
  import Sources

  // ----- adjustSize

  /** One OpenCV call adjustSize makes on the image. */
  datatype Op =
    | Rotate                                   // cv2.rotate(img, ROTATE_90_COUNTERCLOCKWISE)
    | Resize(w: int, h: int)                   // cv2.resize(img, (w, h))
    | Border(t: int, b: int, l: int, r: int)   // cv2.copyMakeBorder(img, t, b, l, r, ...)

  /** The size (width, height) of an image after one call, or None when
      OpenCV rejects the call (a target size that is not positive, an empty
      source to resize, a negative border). */
  function Apply(size: (int, int), op: Op): (r: Option<(int, int)>)
  {
    match op
    case Rotate => Some((size.1, size.0))
    case Resize(w, h) => if w > 0 && h > 0 && size.0 > 0 && size.1 > 0 then Some((w, h)) else None
    case Border(t, b, l, r) =>
      if t >= 0 && b >= 0 && l >= 0 && r >= 0 then Some((size.0 + l + r, size.1 + t + b)) else None
  }

  /** The size of an image after a sequence of calls, or None if one of them
      is rejected. */
  function Run(size: (int, int), ops: seq<Op>): (r: Option<(int, int)>)
    decreases |ops|
  {
    if ops == [] then Some(size)
    else
      match Apply(size, ops[0])
      case None => None
      case Some(s) => Run(s, ops[1..])
  }

  /** `adjType` with 'auto' read as 'padding'. */
  function Normal(adjType: string): (s: string)
  {
    if adjType == "auto" then "padding" else adjType
  }

  /** Source and destination have opposite orientations:
      (sratio - 1)(dratio - 1) < 0. */
  predicate Opposed(dw: int, dh: int, sw: int, sh: int)
    requires dh != 0 && sh != 0
  {
    (sw as real / sh as real - 1.0) * (dw as real / dh as real - 1.0) < 0.0
  }

  /** The padding branch: the size (w, h) to resize to, then the borders. */
  datatype Padding = Padding(w: int, h: int, t: int, b: int, l: int, r: int)

  /** The size of the image after the resize to (w, h) and the borders. */
  function Outer(p: Padding): (int, int)
  {
    (p.w + p.l + p.r, p.h + p.t + p.b)
  }

  /** The padding branch's arithmetic. A source relatively narrower than the
      destination is scaled to the destination height and padded left and
      right; otherwise it is scaled to the destination width and padded top
      and bottom, which divides by sratio and so fails for a zero width. */
  function Pad(dw: int, dh: int, sw: int, sh: int): (r: Result<Padding>)
    requires dh != 0 && sh != 0
    ensures r.Err? <==> sw == 0 && !(0.0 < dw as real / dh as real)
    ensures r.Err? ==> r.error == ZeroDivisionError
    ensures r.Ok? ==> r.value.t == r.value.b && r.value.l == r.value.r
  {
    var dratio := dw as real / dh as real;
    var sratio := sw as real / sh as real;
    if sratio < dratio then
      var dwr := Sources.Trunc(dh as real * sratio);
      var l := (dw - dwr) / 2;
      Ok(Padding(dwr, dh, 0, 0, l, l))
    else if sw == 0 then Err(ZeroDivisionError)
    else
      var dhr := Sources.Trunc(dw as real / sratio + 0.5);
      var t := (dh - dhr) / 2;
      Ok(Padding(dw, dhr, t, t, 0, 0))
  }

  /** Removing a keyword of at least six letters shortens the normalised
      adjType, so the recursion of adjustSize ends. */
  lemma NormalShrinks(adj: string, p: string)
    requires |p| >= 6 && Text.Contains(adj, p)
    ensures |Normal(Text.RemoveAll(adj, p))| < |adj|
  {
  }

  lemma RunRotated(size: (int, int), ops: seq<Op>)
    ensures Run(size, [Rotate] + ops) == Run((size.1, size.0), ops)
  {
    assert ([Rotate] + ops)[1..] == ops;
  }

  lemma RunPadded(size: (int, int), p: Padding, ops: seq<Op>)
    requires size.0 > 0 && size.1 > 0 && p.w > 0 && p.h > 0 && p.t == p.b >= 0 && p.l == p.r >= 0
    ensures Run(size, [Resize(p.w, p.h), Border(p.t, p.b, p.l, p.r)] + ops)
         == Run(Outer(p), ops)
  {
    var all := [Resize(p.w, p.h), Border(p.t, p.b, p.l, p.r)] + ops;
    assert all[1..][1..] == ops;
  }

  /** What one level of adjustSize does before it recurses: fail
      (ZeroDivisionError, or OpenCV rejecting a size or a border), rotate and
      go on with 'rotate' dropped, resize and border and go on with 'padding'
      dropped, or make the final resize to (dw, dh). */
  datatype Step =
    | Fail(e: Exc)
    | Turn(rest: string)
    | Padded(p: Padding, rest: string)
    | Fit

  /** One level of adjustSize: 'auto' read as 'padding', then rotation when
      asked for and the orientations differ, else padding when asked for,
      else the final resize. */
  function Decide(dw: int, dh: int, sw: int, sh: int, adjType: string): (st: Step)
    ensures (dh == 0 || sh == 0) ==> st == Fail(ZeroDivisionError)
    ensures st.Turn? || st.Padded? ==> |Normal(st.rest)| < |Normal(adjType)|
    ensures st.Padded? ==> sw > 0 && sh > 0 && st.p.w > 0 && st.p.h > 0 && st.p.t == st.p.b >= 0 && st.p.l == st.p.r >= 0
    ensures st.Fit? ==> dw > 0 && dh > 0 && sw > 0 && sh > 0
  {
    if dh == 0 || sh == 0 then Fail(ZeroDivisionError)
    else
      var adj := Normal(adjType);
      if Text.Contains(adj, "rotate") && Opposed(dw, dh, sw, sh) then
        NormalShrinks(adj, "rotate");
        Turn(Text.RemoveAll(adj, "rotate"))
      else if Text.Contains(adj, "padding") then
        match Pad(dw, dh, sw, sh)
        case Err(e) => Fail(e)
        case Ok(p) =>
          if sw <= 0 || sh <= 0 || p.w <= 0 || p.h <= 0 || p.t < 0 || p.l < 0 then Fail(ResizeError)
          else
            NormalShrinks(adj, "padding");
            Padded(p, Text.RemoveAll(adj, "padding"))
      else if dw <= 0 || dh <= 0 || sw <= 0 || sh <= 0 then Fail(ResizeError)
      else Fit
  }

  /** adjustSize(img, dw, dh, sw, sh, adjType) as the calls it makes on the
      image: a rotation when asked for and the orientations differ, a resize
      and a border when padding is asked for, then the final resize to
      (dw, dh). Each rotation or padding step drops its keyword from adjType.
      Carried out from the source size, the calls end at exactly (dw, dh):
      each step hands the recursion the size the image really has, and every
      successful path ends in that final resize. An empty source (a side of
      0) always fails, since OpenCV refuses to resize it. */
  function AdjustSize(dw: int, dh: int, sw: int, sh: int, adjType: string): (r: Result<seq<Op>>)
    ensures (dh == 0 || sh == 0) ==> r == Err(ZeroDivisionError)
    ensures r.Ok? ==> Run((sw, sh), r.value) == Some((dw, dh))
    ensures r.Ok? ==> r.value != [] && r.value[|r.value| - 1] == Resize(dw, dh)
    ensures r.Ok? ==> sw > 0 && sh > 0
    decreases |Normal(adjType)|
  {
    match Decide(dw, dh, sw, sh, adjType)
    case Fail(e) => Err(e)
    case Fit => Ok([Resize(dw, dh)])
    case Turn(rest) =>
      (match AdjustSize(dw, dh, sh, sw, rest)
       case Err(e) => Err(e)
       case Ok(ops) =>
         RunRotated((sw, sh), ops);
         Ok([Rotate] + ops))
    case Padded(p, rest) =>
      match AdjustSize(dw, dh, Outer(p).0, Outer(p).1, rest)
      case Err(e) => Err(e)
      case Ok(ops) =>
        RunPadded((sw, sh), p, ops);
        Ok([Resize(p.w, p.h), Border(p.t, p.b, p.l, p.r)] + ops)
  }

  /** adjustSize rotates first exactly when adjType (with 'auto' read as
      'padding') asks for 'rotate' and the orientations differ; the rotation
      then continues with the source's width and height swapped and 'rotate'
      removed from adjType. */
  lemma RotatesFirst(dw: int, dh: int, sw: int, sh: int, adjType: string)
    requires dh != 0 && sh != 0
    ensures var r := AdjustSize(dw, dh, sw, sh, adjType);
      r.Ok? ==> (r.value[0] == Rotate <==> Text.Contains(Normal(adjType), "rotate") && Opposed(dw, dh, sw, sh))
    ensures Text.Contains(Normal(adjType), "rotate") && Opposed(dw, dh, sw, sh) ==>
      var rest := AdjustSize(dw, dh, sh, sw, Text.RemoveAll(Normal(adjType), "rotate"));
      AdjustSize(dw, dh, sw, sh, adjType) == (if rest.Ok? then Ok([Rotate] + rest.value) else rest)
  {
  }

  /** sratio < dratio, for positive sizes, as exact cross-multiplication. */
  lemma RatioOrder(dw: int, dh: int, sw: int, sh: int)
    requires dw > 0 && dh > 0 && sw > 0 && sh > 0
    ensures sw as real / sh as real < dw as real / dh as real <==> sw * dh < dw * sh
  {
    var sr := sw as real / sh as real;
    var dr := dw as real / dh as real;
    assert sr * sh as real == sw as real;
    assert dr * dh as real == dw as real;
    var k := sh as real * dh as real;
    assert k > 0.0;
    assert sr * k == (sw * dh) as real;
    assert dr * k == (dw * sh) as real;
    if sr < dr {
      assert sr * k < dr * k;
    } else {
      assert sr * k >= dr * k;
    }
  }

  /** With positive sizes the padding branch succeeds and its box fits the
      destination: borders are symmetric and non-negative, the padded image
      is at most one pixel short of (dw, dh) on either axis, and a source
      relatively narrower than the destination keeps the full height, any
      other source the full width. */
  lemma PadFits(dw: int, dh: int, sw: int, sh: int)
    requires dw > 0 && dh > 0 && sw > 0 && sh > 0
    ensures Pad(dw, dh, sw, sh).Ok?
    ensures var p := Pad(dw, dh, sw, sh).value;
      && p.t == p.b >= 0 && p.l == p.r >= 0
      && dw - 1 <= p.w + p.l + p.r <= dw
      && dh - 1 <= p.h + p.t + p.b <= dh
      && (sw * dh < dw * sh ==> p.h == dh && p.t == 0)
      && (sw * dh >= dw * sh ==> p.w == dw && p.l == 0)
  {
    RatioOrder(dw, dh, sw, sh);
    var dratio := dw as real / dh as real;
    var sratio := sw as real / sh as real;
    assert dratio * dh as real == dw as real;
    if sratio < dratio {
      var x := dh as real * sratio;
      assert x < dh as real * dratio;
      var dwr := Sources.Trunc(x);
      assert dwr < dw;
    } else {
      var y := dw as real / sratio;
      assert y * sratio == dw as real;
      assert dh as real * sratio >= dh as real * dratio;
      assert y <= dh as real;
      var dhr := Sources.Trunc(y + 0.5);
      assert dhr <= dh;
    }
  }

  /** 'auto' is 'padding'. With positive sizes, adjustSize resizes into the
      padded box, adds the borders and resizes to (dw, dh); it fails only when
      the box is empty (a source so thin that int() rounds it to zero). */
  lemma AutoPads(dw: int, dh: int, sw: int, sh: int)
    requires dw > 0 && dh > 0 && sw > 0 && sh > 0
    ensures var r := AdjustSize(dw, dh, sw, sh, "auto");
      var p := Pad(dw, dh, sw, sh).value;
      && r == AdjustSize(dw, dh, sw, sh, "padding")
      && (r.Ok? <==> p.w > 0 && p.h > 0)
      && (r.Ok? ==> r.value == [Resize(p.w, p.h), Border(p.t, p.b, p.l, p.r), Resize(dw, dh)])
  {
    PadFits(dw, dh, sw, sh);
    var p := Pad(dw, dh, sw, sh).value;
    assert Text.At("padding", "padding", 0);
    assert !Text.Contains("padding", "rotate") by {
      forall i | 0 <= i <= 1
        ensures !Text.At("padding", "rotate", i)
      {
        assert "padding"[i] != "rotate"[0];
      }
    }
    assert Text.RemoveAll("padding", "padding") == "";
    Text.NoRoomNoMatch("", "rotate");
    Text.NoRoomNoMatch("", "padding");
  }

  // ----- VideoWriter.write

  /** The calls VideoWriter.write makes on a frame of size (w, h) before
      encoding it: none when it already has the writer's size, otherwise
      adjustSize to that size with 'auto'. */
  function WritePlan(frame: (int, int), size: (int, int)): (r: Result<seq<Op>>)
  {
    if size != frame then AdjustSize(size.0, size.1, frame.0, frame.1, "auto") else Ok([])
  }

  /** Every frame the writer encodes has the writer's size. */
  lemma WrittenSize(frame: (int, int), size: (int, int))
    ensures var r := WritePlan(frame, size);
      r.Ok? ==> Run(frame, r.value) == Some(size)
  {
    if size != frame {
      var r := AdjustSize(size.0, size.1, frame.0, frame.1, "auto");
    }
  }

  // ----- CODEC

  /** The CODEC table: quality name to (fourcc, file suffix). */
  function Codec(quality: string): (r: Option<(string, string)>)
    ensures r.Some? <==> quality in {"small", "normal", "lossless"}
    ensures r.Some? ==> |r.value.0| == 4
  {
    if quality == "small" then Some(("mp4v", ".mp4"))
    else if quality == "normal" then Some(("DIVX", ".avi"))
    else if quality == "lossless" then Some(("HFYU", ".avi"))
    else None
  }

  /** Every suffix in the table is a dot and three letters, none of them a
      dot or a path separator; and the table is the same as the library's
      FOURCC_CODEC. */
  lemma CodecSuffix(quality: string)
    ensures var r := Codec(quality);
      r.Some? ==> (&& |r.value.1| == 4 && r.value.1[0] == '.'
                   && forall i :: 1 <= i < 4 ==> r.value.1[i] != '.' && r.value.1[i] != '/')
    ensures Codec(quality) == Inner.FourccCodec(quality)
  {
  }

  // ----- VideoCapture

  /** What a VideoCapture holds: nothing until __setup__ first succeeds, then
      the open device, its ID, and the FPS, width and height it reported. */
  datatype CapState =
    | Unset
    | Cap(dev: Sources.CameraDevice, id: int, fps: real, width: int, height: int)

  /** __setup__(cam_id): a device that opens replaces everything (width and
      height through int()); one that does not leaves everything as it was. */
  function SetupStep(s: CapState, dev: Sources.CameraDevice, camId: int): (r: (bool, CapState))
    ensures r.0 <==> dev.isOpen
    ensures r.0 ==> r.1.Cap? && r.1.dev == dev && r.1.id == camId
    ensures !r.0 ==> r.1 == s
  {
    if dev.isOpen then (true, Cap(dev, camId, dev.fps, Sources.Trunc(dev.width), Sources.Trunc(dev.height)))
    else (false, s)
  }

  /** changeCamera(cam_id): AttributeError when no device was ever set up
      (self.ID was never assigned); True with no change for the current ID;
      otherwise whatever __setup__ gives. */
  function ChangeStep(s: CapState, cameras: int -> Sources.CameraDevice, camId: int): (r: (Result<bool>, CapState))
  {
    match s
    case Unset => (Err(AttributeError), s)
    case Cap(_, id, _, _, _) =>
      if camId == id then (Ok(true), s)
      else
        var (ok, s1) := SetupStep(s, cameras(camId), camId);
        (Ok(ok), s1)
  }

  /** changeCamera either switches to the requested device, or leaves cam,
      ID, FPS, width and height as they were; it reports True exactly when
      the capture is afterwards on the requested ID. */
  lemma ChangeCameraRule(s: CapState, cameras: int -> Sources.CameraDevice, camId: int)
    ensures var (r, s1) := ChangeStep(s, cameras, camId);
      && (r.Ok? <==> s.Cap?)
      && (r == Ok(true) <==> s.Cap? && (camId == s.id || cameras(camId).isOpen))
      && (r == Ok(true) ==> s1.Cap? && s1.id == camId)
      && (r == Ok(true) && camId != s.id ==> s1.dev == cameras(camId))
      && (r != Ok(true) ==> s1 == s)
  {
  }

  /** The capture wrapper: `cam`, `ID`, `FPS`, `width` and `height` exist
      only once `__setup__` has succeeded (`isSet`). */
  class VideoCapture {
    var isSet: bool
    var cam: Sources.CameraDevice
    var id: int
    var fps: real
    var width: int
    var height: int

    ghost function State(): CapState
      reads this
    {
      if isSet then Cap(cam, id, fps, width, height) else Unset
    }

    /** __init__: try the device once (a failure only warns). */
    constructor(cameras: int -> Sources.CameraDevice, camId: int)
      ensures State() == SetupStep(Unset, cameras(camId), camId).1
    {
      isSet := false;
      cam := cameras(camId);
      id := camId;
      new;
      var _ := Setup(cameras, camId);
    }

    /** __setup__. */
    method Setup(cameras: int -> Sources.CameraDevice, camId: int) returns (ok: bool)
      modifies this
      ensures (ok, State()) == SetupStep(old(State()), cameras(camId), camId)
    {
      var dev := cameras(camId);
      if dev.isOpen {
        isSet, cam, id, fps := true, dev, camId, dev.fps;
        width, height := Sources.Trunc(dev.width), Sources.Trunc(dev.height);
        ok := true;
      } else {
        ok := false;
      }
    }

    /** changeCamera. */
    method ChangeCamera(cameras: int -> Sources.CameraDevice, camId: int) returns (r: Result<bool>)
      modifies this
      ensures (r, State()) == ChangeStep(old(State()), cameras, camId)
    {
      if !isSet {
        return Err(AttributeError);
      }
      if camId == id {
        return Ok(true);
      }
      var ok := Setup(cameras, camId);
      r := Ok(ok);
    }

    /** isOpened: AttributeError before any successful set-up; a device that
        was set up is one that opened. */
    function IsOpened(): (r: Result<bool>)
      reads this
      ensures r.Ok? <==> State().Cap?
      ensures r.Ok? ==> r.value == State().dev.isOpen
    {
      if isSet then Ok(cam.isOpen) else Err(AttributeError)
    }

    /** shape: (width, height), AttributeError before any successful set-up. */
    function Shape(): (r: Result<(int, int)>)
      reads this
      ensures r.Ok? <==> State().Cap?
      ensures r.Ok? ==> r.value == (State().width, State().height)
    {
      if isSet then Ok((width, height)) else Err(AttributeError)
    }
  }

  // ----- The save path

  /** The last component of a path: what follows its last '/'. */
  function Name(p: string): (n: string)
    ensures |n| <= |p| && n == p[|p| - |n|..]
    ensures forall i :: 0 <= i < |n| ==> n[i] != '/'
  {
    p[Text.RFind(p, '/') + 1..]
  }

  /** pathlib's `suffix`: the name from its last '.' on, when that dot is
      neither the first nor the last character of the name; '' otherwise. */
  function Suffix(p: string): (s: string)
    ensures |s| <= |p| && s == p[|p| - |s|..]
    ensures s != [] ==> s[0] == '.' && |s| >= 2
  {
    var n := Name(p);
    var i := Text.RFind(n, '.');
    if 0 < i < |n| - 1 then n[i..] else ""
  }

  /** pathlib's `with_suffix(s)`: the path with its suffix replaced by s. */
  function WithSuffix(p: string, s: string): string
  {
    p[..|p| - |Suffix(p)|] + s
  }

  /** `Path(dir) / name`, for a directory written without a trailing '/'
      (an empty one is the current directory). */
  function Join(dir: string, name: string): string
  {
    if dir == "" then name else dir + "/" + name
  }

  /** The file name made up for a directory, VID_cam{ID}_{stamp}{suffix},
      before its suffix. */
  function VideoStem(camId: int, stamp: string): string
  {
    "VID_cam" + Text.IntToString(camId) + "_" + stamp
  }

  /** The recording path: a path without a suffix is a directory and gets a
      made-up file name; a path with another suffix gets the codec's suffix
      instead (with a warning); a path with the codec's suffix is kept. */
  function SavePath(saveto: string, suffix: string, camId: int, stamp: string): string
  {
    var sx := Suffix(saveto);
    if sx == "" then Join(saveto, VideoStem(camId, stamp) + suffix)
    else if sx != suffix then WithSuffix(saveto, suffix)
    else saveto
  }

  /** A string with neither a '.' nor a '/' in it. */
  predicate Plain(s: string)
  {
    forall i :: 0 <= i < |s| ==> s[i] != '.' && s[i] != '/'
  }

  /** A suffix as the CODEC table has them: a dot and three plain letters. */
  predicate CodecLike(suffix: string)
  {
    |suffix| == 4 && suffix[0] == '.' && Plain(suffix[1..])
  }

  /** The index RFind must return, pinned down by its three properties. */
  lemma LastIs(s: string, c: char, i: int)
    requires -1 <= i < |s| && (i >= 0 ==> s[i] == c)
    requires forall j :: i < j < |s| ==> s[j] != c
    ensures Text.RFind(s, c) == i
  {
  }

  /** The name of a path whose directory part ends in '/' is what follows. */
  lemma NameAfter(head: string, n: string)
    requires head == "" || head[|head| - 1] == '/'
    requires forall i :: 0 <= i < |n| ==> n[i] != '/'
    ensures Name(head + n) == n
  {
    var p := head + n;
    forall j | |head| - 1 < j < |p|
      ensures p[j] != '/'
    {
      assert p[j] == n[j - |head|];
    }
    LastIs(p, '/', |head| - 1);
  }

  /** The last dot of a stem followed by a codec suffix is the suffix's. */
  lemma DotStartsSuffix(stem: string, suffix: string)
    requires CodecLike(suffix)
    ensures Text.RFind(stem + suffix, '.') == |stem|
  {
    var n := stem + suffix;
    forall j | |stem| < j < |n|
      ensures n[j] != '.'
    {
      assert n[j] == suffix[1..][j - |stem| - 1];
    }
    LastIs(n, '.', |stem|);
  }

  /** A codec suffix has no '/'. */
  lemma NoSlash(stem: string, suffix: string)
    requires forall i :: 0 <= i < |stem| ==> stem[i] != '/'
    requires CodecLike(suffix)
    ensures forall j :: 0 <= j < |stem + suffix| ==> (stem + suffix)[j] != '/'
  {
    forall j | |stem| < j < |stem + suffix|
      ensures (stem + suffix)[j] != '/'
    {
      assert (stem + suffix)[j] == suffix[1..][j - |stem| - 1];
    }
  }

  /** A path made of a directory part ending in '/', a non-empty stem
      without '/', and a codec suffix has that suffix. */
  lemma SuffixAfter(head: string, stem: string, suffix: string)
    requires head == "" || head[|head| - 1] == '/'
    requires stem != [] && forall i :: 0 <= i < |stem| ==> stem[i] != '/'
    requires CodecLike(suffix)
    ensures Suffix(head + stem + suffix) == suffix
  {
    var n := stem + suffix;
    NoSlash(stem, suffix);
    assert head + stem + suffix == head + n;
    NameAfter(head, n);
    DotStartsSuffix(stem, suffix);
    assert n[|stem|..] == suffix;
  }

  /** Python's str() of an int has neither '.' nor '/'. */
  lemma IntToStringPlain(n: int)
    ensures Plain(Text.IntToString(n))
  {
    var d := Text.NatToString(if n < 0 then -n else n);
    assert forall i :: 0 <= i < |d| ==> Text.IsDigit(d[i]);
  }

  /** The made-up stem has no '/' when the time stamp has none. */
  lemma VideoStemPlain(camId: int, stamp: string)
    requires Plain(stamp)
    ensures VideoStem(camId, stamp) != []
    ensures forall i :: 0 <= i < |VideoStem(camId, stamp)| ==> VideoStem(camId, stamp)[i] != '/'
  {
    var d := Text.IntToString(camId);
    var pre := VideoStem(camId, stamp);
    IntToStringPlain(camId);
    forall i | 0 <= i < |pre|
      ensures pre[i] != '/'
    {
      if 7 <= i < 7 + |d| {
        assert pre[i] == d[i - 7];
      } else if 8 + |d| <= i {
        assert pre[i] == stamp[i - 8 - |d|];
      }
    }
  }

  /** A directory gets the made-up name, with the codec's suffix. */
  lemma DirectorySuffix(saveto: string, suffix: string, camId: int, stamp: string)
    requires CodecLike(suffix) && Plain(stamp)
    ensures var p := Join(saveto, VideoStem(camId, stamp) + suffix);
      Suffix(p) == suffix && |saveto| <= |p| && p[..|saveto|] == saveto
  {
    var pre := VideoStem(camId, stamp);
    VideoStemPlain(camId, stamp);
    if saveto == "" {
      assert Join(saveto, pre + suffix) == "" + pre + suffix;
      SuffixAfter("", pre, suffix);
    } else {
      var head := saveto + "/";
      assert Join(saveto, pre + suffix) == head + pre + suffix;
      SuffixAfter(head, pre, suffix);
      assert (head + pre + suffix)[..|saveto|] == saveto;
    }
  }

  /** A path with a suffix is a directory part ending in '/' (or empty),
      then a non-empty stem without '/', then the suffix. */
  lemma SplitSuffixed(p: string) returns (head: string, stem: string)
    requires Suffix(p) != []
    ensures head == "" || head[|head| - 1] == '/'
    ensures stem != [] && forall i :: 0 <= i < |stem| ==> stem[i] != '/'
    ensures p[..|p| - |Suffix(p)|] == head + stem
  {
    var l := Text.RFind(p, '/');
    var n := Name(p);
    var i := Text.RFind(n, '.');
    assert 0 < i < |n| - 1 && Suffix(p) == n[i..];
    head := p[..l + 1];
    stem := n[..i];
    Slices(p, l + 1, i);
  }

  /** Cutting a sequence at a, then the rest at b. */
  lemma Slices<T>(p: seq<T>, a: nat, b: nat)
    requires a + b <= |p|
    ensures p[a..][..b] == p[a..a + b]
    ensures p[..a + b] == p[..a] + p[a..a + b]
  {
  }

  /** A path with another suffix keeps its stem and gets the codec's suffix. */
  lemma ReplacedSuffix(saveto: string, suffix: string)
    requires Suffix(saveto) != [] && CodecLike(suffix)
    ensures Suffix(WithSuffix(saveto, suffix)) == suffix
  {
    var head, stem := SplitSuffixed(saveto);
    assert WithSuffix(saveto, suffix) == head + stem + suffix;
    SuffixAfter(head, stem, suffix);
  }

  /** Whatever path it is given, the recorder writes to a file whose suffix
      is the codec's; a path that had a suffix keeps everything before it,
      and a directory keeps its path in front of the made-up name. */
  lemma SavePathSuffix(saveto: string, suffix: string, camId: int, stamp: string)
    requires CodecLike(suffix) && Plain(stamp)
    ensures Suffix(SavePath(saveto, suffix, camId, stamp)) == suffix
    ensures var k := |saveto| - |Suffix(saveto)|;
      var p := SavePath(saveto, suffix, camId, stamp);
      k <= |p| && p[..k] == saveto[..k]
  {
    if Suffix(saveto) == "" {
      DirectorySuffix(saveto, suffix, camId, stamp);
    } else if Suffix(saveto) != suffix {
      ReplacedSuffix(saveto, suffix);
    }
  }

  // ----- cam_record's set-up

  /** What cam_record settles on before its loop: the capture, the writer's
      frame rate and frame size, the waitKey delay in milliseconds, and when
      recording the fourcc and the save path. */
  datatype Settings = Settings(
    cap: CapState, fps: real, size: (int, int), itval: int,
    fourcc: Option<string>, path: Option<string>)

  /** The message of the RuntimeError for a camera that does not open. */
  function OpenFailure(camId: int): string
  {
    "Can't open camera, device id: " + Text.IntToString(camId)
  }

  /** The set-up once the capture is open: fps is the device's when no
      interval is given and 1000/interval otherwise; recording looks the
      quality up in CODEC (KeyError for an unknown one), picks the save path
      and waits 1 ms per frame; otherwise the delay is the interval, or
      int(1000/fps) without one (ZeroDivisionError for a device reporting
      0 FPS). `stamp` is the time stamp strftime gives. */
  function Configure(cap: CapState, record: bool, saveto: string, quality: string, interval: int, stamp: string): (r: Result<Settings>)
    requires cap.Cap?
  {
    var fps := if interval == 0 then cap.fps else 1000.0 / interval as real;
    var size := (cap.width, cap.height);
    if record then
      match Codec(quality)
      case None => Err(KeyError)
      case Some((fourcc, suffix)) =>
        Ok(Settings(cap, fps, size, 1, Some(fourcc), Some(SavePath(saveto, suffix, cap.id, stamp))))
    else if interval == 0 && fps == 0.0 then Err(ZeroDivisionError)
    else
      var wait := if interval == 0 then Sources.Trunc(1000.0 / fps) else interval;
      Ok(Settings(cap, fps, size, wait, None, None))
  }

  /** cam_record up to its loop, as written: no camera is a RuntimeError;
      then the first one is opened and isOpened() is asked, which raises
      AttributeError when the set-up failed, because `cam` was never
      assigned. */
  function StartAsWritten(camIds: seq<int>, cameras: int -> Sources.CameraDevice, record: bool,
                          saveto: string, quality: string, interval: int, stamp: string): (r: Result<Settings>)
  {
    if camIds == [] then Err(RuntimeError("Can't find any available cameras."))
    else
      var cap := SetupStep(Unset, cameras(camIds[0]), camIds[0]).1;
      match cap
      case Unset => Err(AttributeError)
      case Cap(dev, _, _, _, _) =>
        if !dev.isOpen then Err(RuntimeError(OpenFailure(camIds[0])))
        else Configure(cap, record, saveto, quality, interval, stamp)
  }

  /** The "can't open camera" RuntimeError is never raised as written: a
      camera that does not open makes isOpened() fail with AttributeError. */
  lemma OpenCheckUnreachable(camIds: seq<int>, cameras: int -> Sources.CameraDevice, record: bool,
                             saveto: string, quality: string, interval: int, stamp: string)
    requires camIds != [] && !cameras(camIds[0]).isOpen
    ensures StartAsWritten(camIds, cameras, record, saveto, quality, interval, stamp) == Err(AttributeError)
  {
  }

  /** cam_record up to its loop, with a camera that does not open reported
      by the RuntimeError the code means to raise. */
  function Start(camIds: seq<int>, cameras: int -> Sources.CameraDevice, record: bool,
                 saveto: string, quality: string, interval: int, stamp: string): (r: Result<Settings>)
  {
    if camIds == [] then Err(RuntimeError("Can't find any available cameras."))
    else
      var cap := SetupStep(Unset, cameras(camIds[0]), camIds[0]).1;
      if cap.Unset? then Err(RuntimeError(OpenFailure(camIds[0])))
      else Configure(cap, record, saveto, quality, interval, stamp)
  }

  /** What the set-up promises: the failures and their exceptions, the
      first camera in use, the writer's frame rate and size, a 1 ms wait and
      a save path with the codec's suffix when recording, and otherwise the
      interval or the device's frame time as the wait. */
  lemma StartRule(camIds: seq<int>, cameras: int -> Sources.CameraDevice, record: bool,
                  saveto: string, quality: string, interval: int, stamp: string)
    requires Plain(stamp)
    ensures var r := Start(camIds, cameras, record, saveto, quality, interval, stamp);
      && (camIds == [] ==> r == Err(RuntimeError("Can't find any available cameras.")))
      && (camIds != [] && !cameras(camIds[0]).isOpen ==> r == Err(RuntimeError(OpenFailure(camIds[0]))))
      && (camIds != [] && cameras(camIds[0]).isOpen ==>
            var dev := cameras(camIds[0]);
            && (record ==> (r.Err? <==> Codec(quality).None?))
            && (!record ==> (r.Err? <==> interval == 0 && dev.fps == 0.0))
            && (r.Err? ==> r.error == (if record then KeyError else ZeroDivisionError)))
      && (r.Ok? ==>
            var s := r.value;
            var dev := cameras(camIds[0]);
            && s.cap.Cap? && s.cap.id == camIds[0] && s.cap.dev == dev
            && s.size == (Sources.Trunc(dev.width), Sources.Trunc(dev.height))
            && s.fps == (if interval == 0 then dev.fps else 1000.0 / interval as real)
            && (record ==> s.itval == 1 && s.fourcc == Some(Codec(quality).value.0)
                           && s.path.Some? && Suffix(s.path.value) == Codec(quality).value.1)
            && (!record ==> s.itval == (if interval == 0 then Sources.Trunc(1000.0 / dev.fps) else interval)
                            && s.path.None?))
  {
    var r := Start(camIds, cameras, record, saveto, quality, interval, stamp);
    if r.Ok? && record {
      var cap := r.value.cap;
      var suffix := Codec(quality).value.1;
      CodecSuffix(quality);
      assert CodecLike(suffix);
      SavePathSuffix(saveto, suffix, cap.id, stamp);
    }
  }

  // ----- Keys

  function Min(a: int, b: int): int
  {
    if a <= b then a else b
  }

  /** The branch of the key chain a waitKey code takes. */
  datatype Key = QuitKey | DigitKey(d: nat) | KeepKey | HelpKey | SaveKey | OtherKey

  /** The key chain with n cameras: 'q' first, then a digit below
      min(10, n), then 'k', 'h' and 's'. */
  function KeyOf(pressed: int, n: int): (k: Key)
    ensures k.DigitKey? ==> k.d < n && k.d < 10
  {
    if pressed == 113 then QuitKey
    else if 0 <= pressed - 48 < Min(10, n) then DigitKey(pressed - 48)
    else if pressed == 107 then KeepKey
    else if pressed == 104 then HelpKey
    else if pressed == 115 then SaveKey
    else OtherKey
  }

  /** Digit d selects cam_ids[d] exactly when 0 <= d < min(10, n); every
      other code, 'q', 'k', 'h' and 's' included, selects nothing. */
  lemma DigitSelection(pressed: int, n: int)
    ensures KeyOf(pressed, n).DigitKey? <==> 48 <= pressed && pressed - 48 < Min(10, n)
    ensures forall d :: 0 <= d < Min(10, n) ==> KeyOf(48 + d, n) == DigitKey(d)
  {
  }

  // ----- The help message

  /** CamCount in the help message, as written: min(9, n). */
  function HelpCountAsWritten(n: int): int
  {
    Min(9, n)
  }

  /** With three cameras the help offers keys 0 to 3, but key 3 selects
      nothing. */
  lemma HelpOffersDeadKey()
    ensures HelpCountAsWritten(3) == 3 && KeyOf(48 + 3, 3) == OtherKey
  {
  }

  /** CamCount as the last key that selects a camera: min(10, n) - 1. */
  function HelpCount(n: int): int
  {
    Min(10, n) - 1
  }

  /** With at least one camera, the help's range 0~CamCount is exactly the
      digit keys that select one. */
  lemma HelpCountRule(n: int)
    requires n >= 1
    ensures forall d :: 0 <= d <= HelpCount(n) ==> KeyOf(48 + d, n) == DigitKey(d)
    ensures 0 <= HelpCount(n) <= 9
    ensures !KeyOf(48 + HelpCount(n) + 1, n).DigitKey?
  {
  }

  // ----- The photo name

  /** The photo file name after camera `camId`: IMG_cam{id}{stamp}.jpg. */
  function PhotoName(camId: int, stamp: string): string
  {
    "IMG_cam" + Text.IntToString(camId) + (stamp + ".jpg")
  }

  /** The photo name as written: after `cam_id`, which is cam_ids[0], the
      camera the session started with, whatever camera is in use. */
  function PhotoNameAsWritten(camIds: seq<int>, stamp: string): string
    requires |camIds| > 0
  {
    PhotoName(camIds[0], stamp)
  }

  /** Once the session has switched away from the first camera, the name as
      written is not the name of the camera in use. */
  lemma PhotoNamesFirstCamera(camIds: seq<int>, s: Session, stamp: string)
    requires |camIds| > 0 && s.cap.Cap? && camIds[0] >= 0 && s.cap.id >= 0
    requires s.cap.id != camIds[0]
    ensures PhotoNameAsWritten(camIds, stamp) != PhotoName(s.cap.id, stamp)
  {
    if PhotoNameAsWritten(camIds, stamp) == PhotoName(s.cap.id, stamp) {
      PhotoNameDeterminesCamera(camIds[0], s.cap.id, stamp);
    }
  }

  /** str() of a natural number determines it. */
  lemma NatToStringInjective(a: nat, b: nat)
    requires Text.NatToString(a) == Text.NatToString(b)
    ensures a == b
  {
    assert Text.DigitsValue(Text.NatToString(a)) == a;
  }

  /** Equal sequences with the same first and last parts have the same middle. */
  lemma MiddleEqual(p: string, x: string, y: string, q: string)
    requires p + x + q == p + y + q
    ensures x == y
  {
    assert |x| == |y|;
    assert (p + x + q)[|p|..|p| + |x|] == x;
  }

  /** A photo's name determines the camera that took it: photos taken in
      the same second by different cameras get different names. */
  lemma PhotoNameDeterminesCamera(a: nat, b: nat, stamp: string)
    requires PhotoName(a, stamp) == PhotoName(b, stamp)
    ensures a == b
  {
    MiddleEqual("IMG_cam", Text.IntToString(a), Text.IntToString(b), stamp + ".jpg");
    NatToStringInjective(a, b);
  }

  // ----- The recorder loop's state

  /** What a key press can change: the capture, KeepResol and (cam_w, cam_h). */
  datatype Session = Session(cap: CapState, keep: bool, camW: int, camH: int)

  /** What the window shows in answer to a key. */
  datatype Feedback =
    | Quit
    | AlreadyOn(id: int)
    | ChangedTo(id: int)
    | ChangeFailed(id: int)
    | KeepOn(w: int, h: int)
    | KeepOff(w: int, h: int)
    | Help(camCount: int, keep: bool)
    | Photo(name: string)
    | Silent

  /** One key press in the recorder loop. A digit for the current camera
      only says so; another one asks changeCamera; 'k' toggles KeepResol and,
      turning it on, takes the current camera's size as (cam_w, cam_h); 'h'
      shows the help; 's' names a photo. */
  function KeyStep(s: Session, camIds: seq<int>, pressed: int, cameras: int -> Sources.CameraDevice, stamp: string): (r: (Feedback, Session))
    requires s.cap.Cap?
  {
    match KeyOf(pressed, |camIds|)
    case QuitKey => (Quit, s)
    case DigitKey(d) =>
      var newId := camIds[d];
      if newId == s.cap.id then (AlreadyOn(newId), s)
      else
        var (ok, c) := ChangeStep(s.cap, cameras, newId);
        if ok == Ok(true) then (ChangedTo(c.id), s.(cap := c))
        else (ChangeFailed(newId), s.(cap := c))
    case KeepKey =>
      if s.keep then (KeepOff(s.cap.width, s.cap.height), s.(keep := false))
      else (KeepOn(s.cap.width, s.cap.height), s.(keep := true, camW := s.cap.width, camH := s.cap.height))
    case HelpKey => (Help(HelpCount(|camIds|), s.keep), s)
    case SaveKey => (Photo(PhotoName(s.cap.id, stamp)), s)
    case OtherKey => (Silent, s)
  }

  /** What a key press does to the loop's state: only 'q' quits; a digit
      either leaves the capture on cam_ids[d] or, when the switch fails,
      changes nothing; 'k' flips KeepResol and, turning it on, takes the
      current size; every other key changes nothing; the capture stays set. */
  lemma KeyRules(s: Session, camIds: seq<int>, pressed: int, cameras: int -> Sources.CameraDevice, stamp: string)
    requires s.cap.Cap?
    ensures var (f, s1) := KeyStep(s, camIds, pressed, cameras, stamp);
      var k := KeyOf(pressed, |camIds|);
      && s1.cap.Cap?
      && (f == Quit <==> pressed == 113)
      && (k.DigitKey? ==>
            && s1.keep == s.keep && s1.camW == s.camW && s1.camH == s.camH
            && (f.ChangeFailed? <==> camIds[k.d] != s.cap.id && !cameras(camIds[k.d]).isOpen)
            && (f.ChangeFailed? ==> s1 == s)
            && (!f.ChangeFailed? ==> s1.cap.id == camIds[k.d]))
      && (k.KeepKey? ==>
            && s1.cap == s.cap && s1.keep == !s.keep
            && (s1.keep ==> (s1.camW, s1.camH) == (s.cap.width, s.cap.height))
            && (!s1.keep ==> (s1.camW, s1.camH) == (s.camW, s.camH)))
      && (!k.DigitKey? && !k.KeepKey? ==> s1 == s)
  {
    var k := KeyOf(pressed, |camIds|);
    if k.DigitKey? && camIds[k.d] != s.cap.id {
      ChangeCameraRule(s.cap, cameras, camIds[k.d]);
    }
  }

  /** The recorder loop's mutable state around its capture. */
  class Recorder {
    const cap: VideoCapture
    const camIds: seq<int>
    var keepResol: bool
    var camW: int
    var camH: int

    ghost function State(): Session
      reads this, cap
    {
      Session(cap.State(), keepResol, camW, camH)
    }

    ghost predicate Valid()
      reads this, cap
    {
      cap.State().Cap?
    }

    /** KeepResol starts off and (cam_w, cam_h) is the camera's shape. */
    constructor(cap: VideoCapture, camIds: seq<int>)
      requires cap.State().Cap?
      ensures Valid() && this.cap == cap && this.camIds == camIds
      ensures State() == Session(cap.State(), false, cap.State().width, cap.State().height)
    {
      this.cap := cap;
      this.camIds := camIds;
      keepResol := false;
      camW := cap.width;
      camH := cap.height;
    }

    /** One key press. */
    method OnKey(pressed: int, cameras: int -> Sources.CameraDevice, stamp: string) returns (f: Feedback)
      requires Valid()
      modifies this, cap
      ensures Valid()
      ensures (f, State()) == KeyStep(old(State()), camIds, pressed, cameras, stamp)
    {
      var k := KeyOf(pressed, |camIds|);
      match k
      case QuitKey => f := Quit;
      case DigitKey(d) =>
        var newId := camIds[d];
        if newId == cap.id {
          f := AlreadyOn(newId);
        } else {
          var ok := cap.ChangeCamera(cameras, newId);
          if ok == Ok(true) {
            f := ChangedTo(cap.id);
          } else {
            f := ChangeFailed(newId);
          }
        }
      case KeepKey =>
        keepResol := !keepResol;
        if keepResol {
          camW, camH := cap.width, cap.height;
          f := KeepOn(camW, camH);
        } else {
          f := KeepOff(cap.width, cap.height);
        }
      case HelpKey => f := Help(HelpCount(|camIds|), keepResol);
      case SaveKey => f := Photo(PhotoName(cap.id, stamp));
      case OtherKey => f := Silent;
    }
  }
}

# qxtoolkit / cvutils core in Dafny

This project models the small pieces of sequential logic that sit under the
OpenCV glue of qxtoolkit and cvutils. It proves properties of each piece:

- **ImagesGetter**, the image-source iterator, in two revisions.
  - `cvutils/imgetter.py`, the latest revision: module `ImGetter`, with the
    shared state in `GetterState` and `Sources`.
  - `imgetter.py`, the older revision: module `ImGetterOld`.
  - A getter classifies its source as a camera index, a video file, an image
    folder or nothing. It warms a camera up with a sliding window of
    non-blank flags. It keeps a cursor `crt_idx` that moves with the frame
    skip `interval`, and it decides the end of the stream. Once the source
    is exhausted it can release it.
  - Each class is a Dafny `class` with the getter's attributes as fields.
    Each pull, `__next__` and `__call__` is a method proved to perform
    exactly the pure step functions of its module. The run-level
    properties are lemmas about those functions.
- **Job / schedule** (`schedule.py`, module `Schedule`).
  - A Job is built as `after(t)` or `withInterval(t)` followed by a
    time-unit property. It then counts down `_repeat` on each due
    `update`.
  - `schedule.update` removes finished jobs from the list it is walking,
    so the job right after a removed one is passed over in that pass.
  - Time is an integer number of microseconds passed in as `now`.
- **The recorder's rules** (`qxtoolkit/cam_record.py`, module `CamRecord`):
  - `adjustSize` as the list of OpenCV calls it makes on an image;
  - the CODEC table and the save-path/suffix decision;
  - `VideoCapture.__setup__`/`changeCamera`;
  - the size guard of `VideoWriter.write`;
  - the set-up and the key dispatch of `cam_record`.
- **The error-level dispatcher `report`** and the FOURCC_CODEC table
  (`cvutils/_inner.py`, module `Inner`).
- **The calibration-pattern generators** (`cvutils/gen_samples.py`, module
  `GenSamples`).
  - Each generator fills one integer array in place between yields. A yield
    is modelled as a snapshot of the array.
  - Frame counts, frame sizes and pixel values are proved for every frame.

Modules `Exceptions` (the Python exceptions and a Result type) and `Text`
(Python's `in`, `str.replace`, `str.rfind`, `str(int)` and the regular
expression `[0-9]+$`) are shared.

**Outside effects are parameters.** OpenCV calls, the file system and
devices become the `World`, `CameraDevice` and `VideoFile` oracles. The
clock becomes `now`, `elapsed` or `clock` parameters, and the time stamp
becomes a `stamp` string.

**Floats are exact reals.** Python floats are modelled as exact reals, and
`int()` of a float as truncation toward zero.

## Model

| member | source | states |
|---|---|---|
| Inner.EffectiveLevel | cvutils/_inner.py:40-44 | the level is err + err_level_adj when an adjustment is given; err when none is given and ERROR_LEVEL_ADJ is unset; TypeError when the variable is set (a string added to an int) |
| Inner.DispatchBySeverity | cvutils/_inner.py:45-55 | level 4 raises SystemError with "[!!!]" + msg, 3 raises RuntimeError(msg), 2 warns "[!]" + msg, 1 prints "[i]" + msg; 0 and every level outside 0..4 do nothing; only 3 and 4 raise |
| Inner.ReportAdjustment | cvutils/_inner.py:40-55 | with an adjustment the outcome depends only on err + adj; without one an unset variable leaves the level unchanged and a set one always raises TypeError |
| Inner.FourccCodec | cvutils/_inner.py:10-14 | exactly the three quality names are keys; each fourcc has four characters and each suffix is .mp4 or .avi |
| Text.RemoveAll | qxtoolkit/cam_record.py:88 | `str.replace(p, '')` never lengthens the string, shortens it by at least \|p\| when p occurs, and leaves it unchanged when p does not occur |
| Text.NatToString | qxtoolkit/cam_record.py:346 | `str(n)` is a non-empty run of digits whose decimal value is n |
| Text.RFind | qxtoolkit/cam_record.py:280 | the result is -1 or an index holding c, with no c after it |
| Sources.Classify | cvutils/imgetter.py:128-135 | an int, or a string matching `[0-9]+$`, is a camera; otherwise an existing file is a video; otherwise an existing directory is a folder; otherwise nothing, exactly when none of these holds |
| Sources.ListImages | cvutils/imgetter.py:212-217 | a string extension gives one glob; any other type gives no images |
| Sources.WarmupBudget | cvutils/imgetter.py:166 | a negative warm-up count means 1000 reads, any other count itself |
| Sources.Warmup | cvutils/imgetter.py:166-176 | at most the budget of reads; the loop breaks at the first read after which the window is stable, and exhausts the budget only when no earlier read made it stable |
| Sources.WindowStep | cvutils/imgetter.py:169-175 | only delivered frames enter the window; a read is stable exactly when it delivered and its flag makes six buffered non-blank flags; otherwise the window of the last five moves on |
| Sources.VideoRead | cvutils/imgetter.py:189 | a read that returns a frame returns the frame at the decoder position and advances it; a failed read leaves the position |
| Sources.Trunc | cvutils/imgetter.py:72 | Python's int() of a float truncates toward zero |
| GetterState.ReleaseStep | cvutils/imgetter.py:182-203 | `_release` fails with AttributeError before any set-up; it releases only a camera, because the video's lambda returns `cap.release` without calling it |
| GetterState.SteadyPull | cvutils/imgetter.py:138-142 | the steady camera reader makes 1 + interval reads and returns the last frame, or None when that read failed |
| GetterState.FolderPull | cvutils/imgetter.py:206-211 | a folder pull skips interval images and loads the image at the cursor, then moves one further; a skip past the end raises IndexError with the cursor already moved |
| GetterState.CursorClosedForm | cvutils/imgetter.py:206-211 | after j pulls each moving the cursor by k + 1, it stands at c + j(k + 1) |
| GetterState.UnmatchedUnavailable | cvutils/imgetter.py:128-135 | a source that matches nothing leaves the getter unavailable |
| GetterState.EmptyFolder | cvutils/imgetter.py:218-226 | a folder without matching images reports the WARNING, has length 0 and is unavailable at once |
| ImGetter.ScaleAdjustments | cvutils/imgetter.py:54-61 | every scale with 0 < \|scale\| < 1 or \|scale\| > 1 fails with AttributeError (`_adjst` is not `_adjust`); the others construct with no adjustment |
| ImGetter.PullStep | cvutils/imgetter.py:114 | one `_next(self.interval)` keeps the state valid and changes neither the mode, nor `_out_count`, nor the released flag |
| ImGetter.CameraPull | cvutils/imgetter.py:138-149 | the initial reader returns the welcome banner with nothing changed while `.seconds` of the elapsed time is 0 (less than 0.5), and otherwise reads once and switches to the steady reader; the steady reader reads 1 + interval frames and returns the last |
| ImGetter.VideoPull | cvutils/imgetter.py:185-191 | a video pull seeks to crt_idx + interval when interval > 0, reads, and moves the cursor one further |
| ImGetter.NextStep | cvutils/imgetter.py:112-121 | `__next__` yields only while the source is available, and then adds 1 to `_out_count`; once unavailable it releases when autorelease is set and stops |
| ImGetter.CallSpec | cvutils/imgetter.py:99-107 | `__call__` keeps the getter's state valid and its mode unchanged |
| ImGetter.CallCounts | cvutils/imgetter.py:99-107 | a run yields at most the demanded items, stops short only by exhaustion or an exception, and `_out_count` grows by the number of items |
| ImGetter.FolderItems | cvutils/imgetter.py:206-211 | the j-th item of a folder run is the image at Pick(c, k, j), always inside the list |
| ImGetter.FolderCursor | cvutils/imgetter.py:206-226 | each folder pull moves the cursor by k + 1; the run is exhausted only once the cursor reaches the list length, and it fails with IndexError exactly when a skip jumps from inside the list past its end |
| ImGetter.FolderStep | cvutils/imgetter.py:206-211 | one folder pull stops at the end, raises IndexError on an overrunning skip, or yields the image after the skip and moves the cursor by k + 1 |
| ImGetter.FolderInOrder | cvutils/imgetter.py:206-226 | with no skip, a folder yields its N - c remaining images in list order and is then exhausted and unavailable |
| ImGetter.FolderOverrun | cvutils/imgetter.py:207-209 | with crt_idx < len but crt_idx + k >= len, the pull indexes past the list and raises IndexError |
| ImGetter.VideoCursor | cvutils/imgetter.py:185-203 | a video run moves the cursor by k + 1 per pull, never fails, ends only once the cursor reaches the frame count, and never releases the capture |
| ImGetter.VideoPullsInRange | cvutils/imgetter.py:202 | every pull of a video run started below the frame count |
| ImGetter.VideoFrames | cvutils/imgetter.py:186-189 | with interval k > 0, the items of a video run are the frames read after seeking to Pick(c, k, j) |
| ImGetter.VideoStep | cvutils/imgetter.py:185-202 | one video pull: unavailable exactly when crt_idx >= frame count; otherwise it yields and moves the cursor by k + 1 |
| ImGetter.CameraStep | cvutils/imgetter.py:138-142 | one steady camera pull yields read camPos + k and consumes k + 1 reads |
| ImGetter.CameraCursor | cvutils/imgetter.py:177-181 | a camera never ends: every demanded item is delivered, each pull makes k + 1 reads, and nothing is released |
| ImGetter.CameraFrames | cvutils/imgetter.py:138-142 | the items of a steady camera run are the reads at Pick(pos, k, j) |
| ImGetter.FpsInterval | cvutils/imgetter.py:75-79 | FPS_interval is the rate r with r * interval = fps for a positive interval, and fps otherwise |
| ImGetter.FrameDelay | cvutils/imgetter.py:69-79 | frameDelay fails with AttributeError exactly before any set-up; for a positive FPS_interval r it is int(1000 / r), the d with 0 <= d <= 1000 / r < d + 1, and otherwise 33 |
| ImGetter.FpsSrc | cvutils/imgetter.py:82-85 | `_fps()` is missing before any set-up and is -1 for a folder |
| ImGetter.FrameCountInterval | cvutils/imgetter.py:88-91 | as written: len / interval for a positive interval, len otherwise, infinite for a camera, missing before any set-up |
| ImGetter.FrameCountPulled | cvutils/imgetter.py:88-91 | the count frameCount_interval evidently means: missing exactly when the length is, infinite for a camera, otherwise the number of items a run yields |
| ImGetter.VideoRunLength | cvutils/imgetter.py:185-203 | a video run asked for more items than frames is exhausted after m pulls, with c + m(k + 1) >= n and, for m > 0, c + (m - 1)(k + 1) < n |
| ImGetter.VideoItemCount | cvutils/imgetter.py:88-91 | from the start, a video run yields exactly the count FrameCountPulled gives, ceil(n / (k + 1)), and is then exhausted |
| ImGetter.FolderRunLength | cvutils/imgetter.py:205-227 | a folder run uses images up to the list length: exhausted exactly when it used them all, ending on IndexError otherwise; with the cursor at or past the end it yields nothing |
| ImGetter.FolderItemCount | cvutils/imgetter.py:88-91 | from the start, a folder run yields exactly the count FrameCountPulled gives, floor(n / (k + 1)), whether it ends exhausted or on IndexError |
| ImGetter.FrameCountIntervalTenFrames | cvutils/imgetter.py:88-91 | a 10-frame video with interval 1: frameCount_interval is 10.0, yet a run yields 5 items |
| ImGetter.ImagesGetter.constructor | cvutils/imgetter.py:47-53 | the attributes as given, with the state of a getter not yet set up |
| ImGetter.CamFrameSize | cvutils/imgetter.py:152-153 | the welcome frame's size is int(scale * reported size), (0, 0) for a device that did not open, and not negative for a non-negative scale |
| ImGetter.NegativeFrameRule | cvutils/imgetter.py:152-156 | among accepted scales, the welcome frame has a negative side exactly for scale -1 and an opened device reporting a side of at least one pixel |
| ImGetter.ResetResult | cvutils/imgetter.py:128-156 | `reset()` fails with ValueError exactly for a camera source whose welcome frame has a negative side; otherwise it is ResetState |
| ImGetter.ImagesGetter.Reset | cvutils/imgetter.py:128-135 | `reset()` as ResetResult: the mode Classify picks, nothing changed for an unmatched source, and the ValueError with the state kept |
| ImGetter.ImagesGetter.SetupCam | cvutils/imgetter.py:137-182 | opens the device (warning if it did not open); ValueError when the welcome frame has a negative side; otherwise warms it up, makes the length infinite, and starts on the initial reader when the warm-up budget is positive |
| ImGetter.ImagesGetter.SetupVideo | cvutils/imgetter.py:184-203 | warns for a file that did not open, sets the cursor to 0 and the length to the frame count |
| ImGetter.ImagesGetter.SetupImages | cvutils/imgetter.py:205-227 | warns for an empty match, sets the cursor to 0 and the length to the number of images |
| ImGetter.ImagesGetter.Pull | cvutils/imgetter.py:138-211 | the mode's `_next`, exactly as PullStep |
| ImGetter.ImagesGetter.Release | cvutils/imgetter.py:182-227 | `_release()`, exactly as ReleaseStep, with nothing changed on failure |
| ImGetter.ImagesGetter.Next | cvutils/imgetter.py:112-121 | `__next__`, exactly as NextStep |
| ImGetter.ImagesGetter.Call | cvutils/imgetter.py:99-107 | the `__call__` loop, exactly as CallSpec |
| ImGetter.NewImagesGetter | cvutils/imgetter.py:47-62 | construction fails exactly when the scale asks for a resize (AttributeError) or `reset()` fails (ValueError); otherwise the getter is reset and a camera warmed up |
| ImGetterOld.Chooser | imgetter.py:48-55 | cubic resize exactly for \|scale\| > 1, area resize exactly for 0 < \|scale\| < 1, identity exactly for 0 and ±1 |
| ImGetterOld.ScaleStep | imgetter.py:48-55 | the identity passes every item; a resize rejects a missing frame or a negative factor, and otherwise gives the resized image |
| ImGetterOld.PullStep | imgetter.py:94 | one `_next(self.interval)` keeps the state valid, changes neither mode nor `_out_count`, and never produces a banner |
| ImGetterOld.CameraPull | imgetter.py:116-129 | before anything was output the initial reader reads and stays; afterwards it sleeps `interval` seconds (ValueError when negative, and nothing changes), reads and switches to the steady reader |
| ImGetterOld.VideoPull | imgetter.py:154-159 | a positive interval moves the cursor by exactly the interval and seeks there; otherwise the read is at the decoder's position; the cursor never moves past the frame read |
| ImGetterOld.NextStep | imgetter.py:92-99 | one turn of `__call__` yields only while the source is available, and then adds 1 to `_out_count` |
| ImGetterOld.CallCounts | imgetter.py:92-99 | a run yields at most the demanded items, stops short only by exhaustion or an exception, and `_out_count` counts the items |
| ImGetterOld.StepAgrees | imgetter.py:171-176 | with the identity scale, a folder pull or a steady camera pull is the same in both revisions |
| ImGetterOld.RunAgrees | imgetter.py:92-99 | with the identity scale, whole folder runs and steady camera runs are the same in both revisions |
| ImGetterOld.FolderInOrder | imgetter.py:170-189 | with no skip, a folder yields its N - c remaining images in list order, then is exhausted |
| ImGetterOld.FolderStep | imgetter.py:171-176 | a folder pull moves the cursor by interval + 1, or raises IndexError when the skip overruns the list |
| ImGetterOld.VideoStep | imgetter.py:154-167 | one video pull moves the cursor by the skip only, and ends exactly when crt_idx >= frame count |
| ImGetterOld.VideoStalls | imgetter.py:154-167 | with interval 0 the cursor never moves, so a video with frames left never ends and every demanded item is delivered |
| ImGetterOld.VideoStride | imgetter.py:155-158 | with interval k > 0 each pull moves the cursor by exactly k; the run never fails and ends only once the cursor reaches the frame count |
| ImGetterOld.InitReadPulls | imgetter.py:122-129 | the first pull reads without switching readers; the second sleeps `interval` (ValueError when negative), reads, and switches to the steady reader |
| ImGetterOld.ReleaseAtEnd | imgetter.py:92-99 | a run ends with AttributeError exactly when autorelease is set on a getter that set nothing up; no run releases a capture |
| ImGetterOld.ImagesGetter.constructor | imgetter.py:23-55 | the attributes, then `reset()`; a camera source is warmed up |
| ImGetterOld.ImagesGetter.Reset | imgetter.py:106-113 | `reset()` sets up the mode Classify picks |
| ImGetterOld.ImagesGetter.SetupCam | imgetter.py:115-151 | opens and warms up the device and starts on `_init_read` when the warm-up budget is positive |
| ImGetterOld.ImagesGetter.SetupVideo | imgetter.py:153-168 | warns for a file that did not open, sets the cursor to 0 and the length to the frame count |
| ImGetterOld.ImagesGetter.SetupImages | imgetter.py:170-190 | warns for an empty match, sets the cursor to 0 and the length to the number of images |
| ImGetterOld.ImagesGetter.Pull | imgetter.py:116-176 | the mode's `_next`, exactly as PullStep |
| ImGetterOld.ImagesGetter.Release | imgetter.py:151-190 | `_release()`, exactly as ReleaseStep, with nothing changed on failure |
| ImGetterOld.ImagesGetter.Turn | imgetter.py:93-99 | one turn of the `__call__` loop, exactly as NextStep |
| ImGetterOld.ImagesGetter.Call | imgetter.py:92-99 | the `__call__` generator, exactly as CallSpec |
| Schedule.Delta | schedule.py:64-82 | `timedelta(<unit>=t)` is t units in microseconds, or OverflowError when its days leave ±999999999 |
| Schedule.SetTime | schedule.py:52-62 | after `after`, sets the wait, then the call time now + delta, and clears the selector, or raises OverflowError past the last datetime with the wait already set and the selector kept; after `withInterval`, sets the interval and clears the selector; RuntimeError once cleared, AttributeError before any selector |
| Schedule.NotDue | schedule.py:40 | before the call time an update changes nothing and calls nothing |
| Schedule.Due | schedule.py:39-46 | a due update raises OverflowError exactly when a repetition is left and now + interval is past the last datetime, having used the repetition up; otherwise it calls the callback once, with repetitions left uses one and sets the call time to now + interval, and the job is finished exactly when no repetition is left |
| Schedule.Updates | schedule.py:39-46 | updates in order up to the first that raises: at most one callback per update, and the exception that ended them is OverflowError |
| Schedule.RepeatCountdown | schedule.py:39-46 | `repeat(n)` with n >= 0 counts down once per due update, one that raises included, and finishes after max(n, 1) callback calls; a negative count never raises or finishes |
| Schedule.AfterThenUnit | schedule.py:52-55 | `after(t)` then a unit sets the wait to t units; the call time becomes now plus that and the selector is cleared exactly when that is within datetime's range, and otherwise OverflowError leaves the call time and the `after` selector |
| Schedule.IntervalThenUnit | schedule.py:56-57 | `withInterval(t)` then a unit sets the interval to t units and clears the selector |
| Schedule.UnitNeedsSelector | schedule.py:58-61 | a second unit after one that completed, without a new selector, raises RuntimeError; a unit on a fresh job raises AttributeError |
| Schedule.Job.constructor | schedule.py:12-20 | a new job: no value, no repetition, no wait, call time now, no interval, not finished, no selector |
| Schedule.Job.SetAfter | schedule.py:22-25 | stores the value and selects `after`; returns the job |
| Schedule.Job.SetRepeat | schedule.py:27-29 | stores the repeat count; returns the job |
| Schedule.Job.SetWithInterval | schedule.py:31-34 | stores the value and selects `withInterval`; returns the job |
| Schedule.Job.SelectUnit | schedule.py:64-82 | a unit property: the job, or the exception, with the attributes UnitStep leaves |
| Schedule.AddTime | schedule.py:43 | `datetime + timedelta` is the sum within datetime's range and OverflowError outside it |
| Schedule.Job.Update | schedule.py:39-46 | `update()`, exactly as UpdateStep: whether the callback was called, or OverflowError |
| Schedule.Job.IsFinished | schedule.py:48-50 | `isFinished` is `_finished` |
| Schedule.Visits | schedule.py:103-107 | the pass yields one flag per job |
| Schedule.VisitRule | schedule.py:104-107 | the first job is updated; a job right after a removed one is not; a job after any other is |
| Schedule.PassAt | schedule.py:104-107 | a job is removed exactly when it is visited and its update finishes it; it is updated exactly when visited |
| Schedule.SkipAfterRemoval | schedule.py:104-107 | the job after a removed one is not updated in that pass; no two jobs in a row are passed over |
| Schedule.NoneFinish | schedule.py:104-107 | when no update finishes a job, every job is updated and none removed |
| Schedule.PassFollowsRules | schedule.py:103-107 | Visits, Removed and AfterPass follow the local rules of the pass |
| Schedule.PassRulesUnique | schedule.py:103-107 | the local rules determine the pass |
| Schedule.StopIndex | schedule.py:103-107 | the pass stops at the first visited job whose update raises, or runs to the end of the list |
| Schedule.Scheduler.constructor | schedule.py:87-89 | both job lists start empty |
| Schedule.Scheduler.IWillDo | schedule.py:91-94 | appends exactly one fresh job and returns it; the other list is unchanged |
| Schedule.Scheduler.CallMeToDo | schedule.py:96-101 | always NotImplementedError, before anything is created or appended |
| Schedule.Scheduler.RemainJobNum | schedule.py:113-115 | the length of the job list |
| Schedule.Scheduler.IsFinishedAll | schedule.py:109-111 | true exactly when the job list is empty |
| Schedule.Scheduler.Update | schedule.py:103-107 | the pass up to where it stops: OverflowError exactly when a visited job's update raises; the list keeps the jobs before that point the pass does not remove, then every job from that point on; jobs up to that point have the attributes AfterPass gives, later ones keep theirs |
| Schedule.Scheduler.Turn | schedule.py:105-107 | one turn: the job at the current position is the next visited job of the original list and its update changes only its own attributes; the update raises exactly at the stopping position, leaving the list; otherwise the job leaves the list exactly when that update finished it, after which the loop goes on one or two jobs further along the original list |
| Schedule.Scheduler.Sweep | schedule.py:104-107 | the loop over the list, which shifts when a job is removed, against the local rules of the pass, ending early with OverflowError at the stopping position |
| Schedule.Scheduler.UpdateListed | schedule.py:105 | `job.update()` on one listed job gives UpdateStep's outcome and changes only that job's attributes |
| CamRecord.Pad | qxtoolkit/cam_record.py:89-99 | the padding branch has symmetric borders; it fails with ZeroDivisionError only for a zero source width when dratio is not positive |
| CamRecord.Decide | qxtoolkit/cam_record.py:81-104 | one level of adjustSize: a zero height is ZeroDivisionError; rotating or padding strictly shortens adjType; the padding box is positive with symmetric non-negative borders; padding and the final resize need a non-empty source |
| CamRecord.AdjustSize | qxtoolkit/cam_record.py:72-105 | carried out on the source size, the calls adjustSize makes end at exactly (dw, dh), and every successful path ends in the resize to (dw, dh); an empty source always fails; a zero height is ZeroDivisionError; the recursion ends because each level drops a keyword |
| CamRecord.RotatesFirst | qxtoolkit/cam_record.py:86-88 | the first call is a rotation exactly when adjType asks for 'rotate' and the orientations differ; it continues with the sizes swapped and 'rotate' dropped |
| CamRecord.PadFits | qxtoolkit/cam_record.py:89-101 | for positive sizes padding succeeds; borders are symmetric and non-negative; the box is at most one pixel short of (dw, dh); a relatively narrower source keeps the full height, any other the full width |
| CamRecord.AutoPads | qxtoolkit/cam_record.py:83-85 | 'auto' is 'padding': resize into the padded box, add the borders, resize to (dw, dh); it fails only when the box is empty |
| CamRecord.WrittenSize | qxtoolkit/cam_record.py:176-180 | every frame the writer encodes has the writer's size |
| CamRecord.Codec | qxtoolkit/cam_record.py:26-30 | exactly the three quality names are keys; each fourcc has four characters |
| CamRecord.CodecSuffix | qxtoolkit/cam_record.py:26-30 | each suffix is a dot and three letters; the table equals the library's FOURCC_CODEC |
| CamRecord.SetupStep | qxtoolkit/cam_record.py:123-136 | `__setup__` succeeds exactly when the device opens, and then takes its ID; a failure leaves everything as it was |
| CamRecord.ChangeCameraRule | qxtoolkit/cam_record.py:138-144 | changeCamera reports True exactly when the capture is afterwards on the requested ID; otherwise cam, ID, FPS, width and height are unchanged; AttributeError when nothing was ever set up |
| CamRecord.VideoCapture.constructor | qxtoolkit/cam_record.py:109-111 | one `__setup__` of the device |
| CamRecord.VideoCapture.Setup | qxtoolkit/cam_record.py:123-136 | `__setup__`, exactly as SetupStep |
| CamRecord.VideoCapture.ChangeCamera | qxtoolkit/cam_record.py:138-144 | changeCamera, exactly as ChangeStep |
| CamRecord.VideoCapture.IsOpened | qxtoolkit/cam_record.py:113-114 | AttributeError before a successful set-up; afterwards whether the device is open |
| CamRecord.VideoCapture.Shape | qxtoolkit/cam_record.py:119-121 | (width, height), AttributeError before a successful set-up |
| CamRecord.Name | qxtoolkit/cam_record.py:280 | the last path component is a suffix of the path with no '/' in it |
| CamRecord.Suffix | qxtoolkit/cam_record.py:280-283 | pathlib's suffix is a tail of the path that is empty or starts with a dot followed by at least one character |
| CamRecord.DirectorySuffix | qxtoolkit/cam_record.py:280-282 | a path without a suffix gets the made-up name under it, and that name has the codec's suffix |
| CamRecord.ReplacedSuffix | qxtoolkit/cam_record.py:283-286 | a path with another suffix gets the codec's suffix |
| CamRecord.SavePathSuffix | qxtoolkit/cam_record.py:277-287 | whatever path is given, the recording file has the codec's suffix and keeps everything before the old suffix |
| CamRecord.StartRule | qxtoolkit/cam_record.py:266-292 | the set-up's failures and exceptions; the first camera in use; fps and frame size; a 1 ms wait and a path with the codec's suffix when recording; otherwise the interval or int(1000/fps) |
| CamRecord.KeyOf | qxtoolkit/cam_record.py:313-344 | a digit key always names a camera in the list and below 10 |
| CamRecord.DigitSelection | qxtoolkit/cam_record.py:315-316 | digit d selects cam_ids[d] exactly when 0 <= d < min(10, len(cam_ids)) |
| CamRecord.OpenCheckUnreachable | qxtoolkit/cam_record.py:271-273 | as written, a camera that does not open raises AttributeError, never the intended RuntimeError |
| CamRecord.HelpOffersDeadKey | qxtoolkit/cam_record.py:340-342 | as written, three cameras give the range 0~3, but key 3 selects nothing |
| CamRecord.HelpCountRule | qxtoolkit/cam_record.py:340-342 | with the count min(10, n) - 1, the range 0~CamCount is exactly the digit keys that select a camera |
| CamRecord.PhotoNamesFirstCamera | qxtoolkit/cam_record.py:344-346 | as written, after a switch away from the first camera the photo's name differs from the name of the camera in use |
| CamRecord.PhotoNameDeterminesCamera | qxtoolkit/cam_record.py:344-346 | named after the camera in use, a photo's name determines the camera |
| CamRecord.KeyRules | qxtoolkit/cam_record.py:313-348 | only 'q' quits; a digit leaves the capture on cam_ids[d] or, when the switch fails, changes nothing; 'k' flips KeepResol and, turning it on, takes the current size; every other key changes nothing |
| CamRecord.Recorder.constructor | qxtoolkit/cam_record.py:275-276 | KeepResol starts off, and (cam_w, cam_h) is the camera's shape |
| CamRecord.Recorder.OnKey | qxtoolkit/cam_record.py:313-348 | one key press, exactly as KeyStep, which uses the corrected help count and photo name of the Findings |
| GenSamples.Pow2 | cvutils/gen_samples.py:23 | maxval = 1 << bits is at least 1 |
| GenSamples.MaxVals | cvutils/gen_samples.py:23 | maxval is 256 for 8 bits and 65536 for 16 |
| GenSamples.Apply | cvutils/gen_samples.py:35 | one slice statement changes each element as its coordinates say (`+= 1` wrapping at maxval inside the slice, assignment on the line), in place |
| GenSamples.Updates | cvutils/gen_samples.py:32-56 | each buffered phase runs one or two slice statements after each yield |
| GenSamples.PhaseStep | cvutils/gen_samples.py:32-56 | the update after yield i turns the frame of yield i into the frame of yield i + 1 |
| GenSamples.Advance | cvutils/gen_samples.py:35 | the update after a yield, in place |
| GenSamples.RunPhase | cvutils/gen_samples.py:29-56 | a phase yields maxval frames, or maxval // 2 for stripes, and frame i is the phase's closed form at i |
| GenSamples.GrayPass | cvutils/gen_samples.py:29-56 | one phase of the gray generator |
| GenSamples.ChannelPasses | cvutils/gen_samples.py:66-101 | `for c in (0, 1, 2)` around one RGB phase: one pass per channel |
| GenSamples.GrayFrames | cvutils/gen_samples.py:22-56 | a negative bits is ValueError; bits other than 8 or 16 is NameError (unbound dtype); otherwise the seven gray phases' frames in order |
| GenSamples.RgbFrames | cvutils/gen_samples.py:59-101 | the same failures; otherwise the seven RGB phases, each once per channel |
| GenSamples.FrameOf | cvutils/gen_samples.py:22-101 | the frame at the offset of phase p, pass c and yield i is that pass's frame i |
| GenSamples.FramesLength | cvutils/gen_samples.py:22-101 | the number of frames is the sum of the phases' frame counts |
| GenSamples.FrameCounts | cvutils/gen_samples.py:29-101 | the gray generator yields 4·maxval + 3·(maxval/2) frames, the RGB one three times that |
| GenSamples.FrameSizes | cvutils/gen_samples.py:24 | every frame has maxval × maxval × channels elements |
| GenSamples.GrayFill | cvutils/gen_samples.py:29-31 | gray frame i < maxval is filled entirely with i |
| GenSamples.LevelCounts | cvutils/gen_samples.py:32-43 | a sweep's value at yield i is the number of updates that have reached that line |
| GenSamples.SweepShape | cvutils/gen_samples.py:32-43 | yield 1 is all ones (`-0:` is the whole axis); the last line holds i at yield i; the first maxval - i lines hold 1 |
| GenSamples.GrayColumnSweep | cvutils/gen_samples.py:32-35 | frame maxval + i of the gray generator holds, at column x, the number of updates that reached x |
| GenSamples.StripeRule | cvutils/gen_samples.py:44-56 | a line is lit at yield i exactly when it is maxval - 2j - 1 for some j < i |
| GenSamples.GrayColumnStripes | cvutils/gen_samples.py:44-47 | frame 4·maxval + i holds maxval - 1 exactly on columns maxval - 1, maxval - 3, ..., maxval - 2i + 1, and 0 elsewhere |
| GenSamples.ValuesFit | cvutils/gen_samples.py:25-28 | every yielded value is below maxval, so nothing wraps around in the unsigned dtype |
| GenSamples.RgbChannelOnly | cvutils/gen_samples.py:66-101 | in an RGB pass on channel c, the other two channels stay 0 and channel c holds the phase's value |

## Left out

- GUI and keyboard plumbing is not modelled: `init_window`, `imshow`, `waitKey`, trackbars, overlays, the status bar and the window-close check of `cam_record`. The feedback a key press shows is a tag only. Example/selector.py is not part of this model.
- `get_media_folder` (user-dirs file, Windows registry), `get_camera_ids` (device probing) and `get_proper_size` (screen size through tkinter) are not modelled. The camera list is a parameter, and photo and video folders are plain strings.
- Encoding and drawing are not modelled. This covers the `VideoWriter` constructor (directory creation, fourcc packing, the writer itself), `cv2.flip`, `cv2.imwrite` and the welcome banner's pixels. OpenCV's resize, rotate, copyMakeBorder, imread, read and seek are oracles over sizes and opaque frames.
- The `cam_record` loop's frame reading and its "No responding" retry are not modelled. Only the set-up and the key dispatch are.
- Path normalisation by pathlib (`.`/`..`, repeated or trailing '/') is not modelled. `Path(dir) / name` is modelled as joining with one '/'.
- Floats are exact reals. `int()` is truncation of the exact value, so adjustSize's box, frameDelay and the waitKey delay may differ by 1 from float rounding. The recorder's `interval` argument is an int.
- Warning texts go through `report` with ERROR_LEVEL_ADJ unset. The variable is modelled only in Inner.EffectiveLevel.
- ImGetter.CameraPull: the initial reader's wait is modelled as the whole seconds elapsed (mod one day) being 0. The datetime arithmetic and the time `datetime.now` returns are parameters.
- ImGetterOld.CameraPull: `sleep(interval)` is modelled only as its ValueError for a negative length. How long it sleeps is not modelled.
- `get()` in both getter revisions only prints and returns `self()`, so it is not modelled. The properties frameCount_src and isAvailable are direct reads of the modelled state.
- `withParam` and the callbacks' arguments are not modelled. A callback is observed only as the fact that it was called.
- Schedule.Delta: time values are whole numbers of units. A float value and timedelta's rounding to microseconds are not modelled.
- `schedule.update` walks the live list while `remove` shifts it. It is modelled on a local list assigned back when the pass ends or raises, which gives the same result for lists of distinct jobs.
- Schedule.Job.Update: `update()` reads the clock twice, at schedule.py:40 and 43. The model uses one time `now` for both reads, and one `now` for every job of a pass, so the next call time is computed from the time of the due check.
- CamRecord.KeyStep: the key loop the model proves things about uses the corrected help count (min(10, n) - 1) and names photos after the camera in use. The code as written (min(9, n), cam_ids[0]) is modelled only in HelpCountAsWritten and PhotoNameAsWritten, under Findings.
- ImGetter.ImagesGetter.Reset: when `__setup_cam__` raises ValueError, `self.cap` already holds the new capture, which the `_next` closures of an earlier set-up go on reading. The model keeps the whole earlier state.
- chronograph (chronograph.py and cvutils/_inner.py), cvutils/camera_recorder.py, camera-recorder.py, graffiti.py, cvutils/graffiti.py, static_decorator.py, statemng.py, setup.py and the package entry points are not part of this model.
- The gen_samples generators yield the same array they then change, so a consumer that keeps a reference sees it change. The model yields a snapshot of the buffer at each yield and does not capture that aliasing.
- GenSamples.GrayFrames: the frames are produced all at once rather than lazily. A 16-bit run's size (65536² elements per frame) and the memory it needs are not modelled. The NameError for other bits is raised before any frame, where Python raises it on the first frame.

## Findings

| source | as written | input that shows it | evidently intended | confidence | as-written member | corrected member |
|---|---|---|---|---|---|---|
| qxtoolkit/cam_record.py:271-273 | a camera that does not open leaves `cam.cam` unassigned, so `cam.isOpened()` raises AttributeError | cam_ids = [0] with device 0 not opening | raise RuntimeError("Can't open camera, device id: 0") | high, not executed | CamRecord.StartAsWritten, CamRecord.OpenCheckUnreachable | CamRecord.Start, CamRecord.StartRule |
| qxtoolkit/cam_record.py:340-342 | the help's CamCount is min(9, len(cam_ids)), one more than the last digit that selects a camera | three cameras: the help offers 0~3, key '3' selects nothing | CamCount = min(10, len(cam_ids)) - 1 | medium, not executed | CamRecord.HelpCountAsWritten, CamRecord.HelpOffersDeadKey | CamRecord.HelpCount, CamRecord.HelpCountRule |
| qxtoolkit/cam_record.py:344-346 | photos are named after `cam_id`, the first camera, not the camera in use | start on camera 0, press '1', press 's': the name says cam0 | name the photo after `cam.ID` | medium, not executed | CamRecord.PhotoNameAsWritten, CamRecord.PhotoNamesFirstCamera | CamRecord.PhotoName, CamRecord.PhotoNameDeterminesCamera |
| cvutils/imgetter.py:88-91 | frameCount_interval is len / interval | a 10-frame video with interval 1 is counted as 10.0 frames, but a run yields 5 items | the number of items a run yields: ceil(n / (k + 1)) for a video, floor(n / (k + 1)) for a folder, k the frames skipped per item | medium, not executed | ImGetter.FrameCountInterval, ImGetter.FrameCountIntervalTenFrames | ImGetter.FrameCountPulled, ImGetter.VideoItemCount, ImGetter.FolderItemCount |

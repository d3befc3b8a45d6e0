/**
 * The document-upload screen (`VerifyDocument`): accepting a file, the
 * simulated upload progress, zoom, drag highlighting, removal and download.
 *
 * The component's state is the `Screen` value below; every handler is a
 * transition `Apply(s, e)` on it, and the class `UploadScreen` holds the
 * same state in mutable fields whose methods are proved to perform exactly
 * those transitions.  Timers and the file reader are explicit events: a
 * `ProgressTimer` event is one firing of the 200 ms interval, a
 * `ReaderLoaded` event is one `FileReader` load completing.
 */
module VerifyDocument {
  import opened Wrappers

  /** The parts of a browser `File` the screen looks at. */
  datatype FileInfo = FileInfo(name: string, mime: string, size: nat)

  const ValidTypes: seq<string> := ["application/pdf", "image/png", "image/jpeg"]
  const MaxSize: nat := 10 * 1024 * 1024
  const TypeMessage: string := "Invalid file type. Please upload PDF, PNG, or JPG"
  const SizeMessage: string := "File is too large. Maximum size is 10MB"

  const InitialZoom: int := 100
  const MinZoom: int := 50
  const MaxZoom: int := 200
  const ZoomStep: int := 10

  const ProgressStep: int := 5
  const ProgressDone: int := 100

  /** Outcome of the acceptance test in `handleFile`. */
  datatype Verdict = Accept | Reject(message: string)

  /** The type whitelist is tested first, then the size limit. */
  function Check(f: FileInfo): (r: Verdict)
    ensures r == Accept <==> f.mime in ValidTypes && f.size <= MaxSize
    ensures f.mime !in ValidTypes ==> r == Reject(TypeMessage)
    ensures f.mime in ValidTypes && f.size > MaxSize ==> r == Reject(SizeMessage)
  {
    if f.mime !in ValidTypes then Reject(TypeMessage)
    else if f.size > MaxSize then Reject(SizeMessage)
    else Accept
  }

  // ---------------------------------------------------------------- zoom

  /** Zoom levels the screen can show: multiples of 10 between 50 and 200. */
  predicate ZoomOk(z: int) {
    MinZoom <= z <= MaxZoom && z % ZoomStep == 0
  }

  /** One click on zoom-in or zoom-out, clamped to the allowed range. */
  function ZoomNext(prev: int, zoomIn: bool): (r: int)
    ensures ZoomOk(prev) ==> ZoomOk(r)
    ensures zoomIn ==> r == Min(prev + ZoomStep, MaxZoom)
    ensures !zoomIn ==> r == Max(prev - ZoomStep, MinZoom)
  {
    if zoomIn then Min(prev + ZoomStep, MaxZoom) else Max(prev - ZoomStep, MinZoom)
  }

  /** The zoom level after a sequence of clicks (true = zoom in). */
  function ZoomClicks(z: int, clicks: seq<bool>): int
    decreases |clicks|
  {
    if clicks == [] then z else ZoomClicks(ZoomNext(z, clicks[0]), clicks[1..])
  }

  function Repeat(b: bool, k: nat): (r: seq<bool>)
    ensures |r| == k
  {
    if k == 0 then [] else [b] + Repeat(b, k - 1)
  }

  /** No sequence of clicks leaves the lattice of allowed zoom levels. */
  lemma {:induction false} ZoomClicksStayOk(z: int, clicks: seq<bool>)
    requires ZoomOk(z)
    ensures ZoomOk(ZoomClicks(z, clicks))
    decreases |clicks|
  {
    if clicks != [] {
      ZoomClicksStayOk(ZoomNext(z, clicks[0]), clicks[1..]);
    }
  }

  /** k zoom-in clicks add 10 per click until the level reaches 200. */
  lemma {:induction false} ZoomInRepeated(z: int, k: nat)
    requires ZoomOk(z)
    ensures ZoomClicks(z, Repeat(true, k)) == Min(z + ZoomStep * k, MaxZoom)
    decreases k
  {
    if k > 0 {
      assert Repeat(true, k)[1..] == Repeat(true, k - 1);
      ZoomInRepeated(ZoomNext(z, true), k - 1);
    }
  }

  /** k zoom-out clicks take 10 per click until the level reaches 50. */
  lemma {:induction false} ZoomOutRepeated(z: int, k: nat)
    requires ZoomOk(z)
    ensures ZoomClicks(z, Repeat(false, k)) == Max(z - ZoomStep * k, MinZoom)
    decreases k
  {
    if k > 0 {
      assert Repeat(false, k)[1..] == Repeat(false, k - 1);
      ZoomOutRepeated(ZoomNext(z, false), k - 1);
    }
  }

  /** Every allowed zoom level is reached from the initial 100 by some clicks. */
  lemma ZoomOkReachable(z: int)
    requires ZoomOk(z)
    ensures exists clicks :: ZoomClicks(InitialZoom, clicks) == z
  {
    if z >= InitialZoom {
      var k := (z - InitialZoom) / ZoomStep;
      assert ZoomStep * k == z - InitialZoom;
      ZoomInRepeated(InitialZoom, k);
      assert ZoomClicks(InitialZoom, Repeat(true, k)) == z;
    } else {
      var k := (InitialZoom - z) / ZoomStep;
      assert ZoomStep * k == InitialZoom - z;
      ZoomOutRepeated(InitialZoom, k);
      assert ZoomClicks(InitialZoom, Repeat(false, k)) == z;
    }
  }

  /** Zooming in and then out (or out and then in) away from a bound is undone. */
  lemma ZoomRoundTrip(z: int)
    requires ZoomOk(z)
    ensures z < MaxZoom ==> ZoomNext(ZoomNext(z, true), false) == z
    ensures z > MinZoom ==> ZoomNext(ZoomNext(z, false), true) == z
  {
  }

  // ------------------------------------------------------------ progress

  /** Progress values the bar can show: multiples of 5 between 0 and 100. */
  predicate ProgressOk(p: int) {
    0 <= p <= ProgressDone && p % ProgressStep == 0
  }

  /** One firing of the upload interval. */
  function ProgressTick(prev: int): (r: int)
    ensures prev >= ProgressDone ==> r == ProgressDone
    ensures prev < ProgressDone ==> r == prev + ProgressStep
    ensures ProgressOk(prev) ==> ProgressOk(r) && prev <= r
  {
    if prev >= ProgressDone then ProgressDone else prev + ProgressStep
  }

  /** The progress after k firings of the interval. */
  function Ticks(p: int, k: nat): int
    decreases k
  {
    if k == 0 then p else Ticks(ProgressTick(p), k - 1)
  }

  /** From an allowed value, k firings add 5 each until 100 is reached. */
  lemma {:induction false} TicksClosedForm(p: int, k: nat)
    requires ProgressOk(p)
    ensures Ticks(p, k) == Min(p + ProgressStep * k, ProgressDone)
    decreases k
  {
    if k > 0 {
      TicksClosedForm(ProgressTick(p), k - 1);
    }
  }

  /** Starting from 0 the progress never decreases and never passes 100. */
  lemma ProgressMonotone(k1: nat, k2: nat)
    requires k1 <= k2
    ensures Ticks(0, k1) <= Ticks(0, k2) <= ProgressDone
    ensures ProgressOk(Ticks(0, k2))
  {
    TicksClosedForm(0, k1);
    TicksClosedForm(0, k2);
  }

  /** Every allowed progress value is shown after some number of firings. */
  lemma ProgressOkReachable(p: int)
    requires ProgressOk(p)
    ensures Ticks(0, p / ProgressStep) == p
  {
    TicksClosedForm(0, p / ProgressStep);
  }

  // ---------------------------------------------------------------- drag

  /** `handleDrag`: the highlight follows enter/over/leave, other types keep it. */
  function DragActiveAfter(eventType: string, prev: bool): (r: bool)
    ensures eventType == "dragenter" || eventType == "dragover" ==> r
    ensures eventType == "dragleave" ==> !r
    ensures eventType != "dragenter" && eventType != "dragover" && eventType != "dragleave" ==> r == prev
  {
    if eventType == "dragenter" || eventType == "dragover" then true
    else if eventType == "dragleave" then false
    else prev
  }

  // ------------------------------------------------------------- screen

  /** The component state that the handlers read and write. */
  datatype Screen = Screen(
    file: Option<FileInfo>,
    error: string,
    uploadProgress: int,
    zoomLevel: int,
    dragActive: bool,
    preview: string,
    pendingReads: nat   // FileReader loads started and not yet completed
  )

  function Initial(): Screen {
    Screen(None, "", 0, InitialZoom, false, "", 0)
  }

  /** What every reachable state satisfies. */
  predicate Inv(s: Screen) {
    && ProgressOk(s.uploadProgress)
    && ZoomOk(s.zoomLevel)
    && (s.file.None? ==> s.uploadProgress == 0)
    && (s.file.Some? ==> Check(s.file.value) == Accept)
    && (s.error == "" || s.error == TypeMessage || s.error == SizeMessage)
  }

  datatype Event =
    | FileGiven(f: FileInfo)          // handleFile
    | Drag(eventType: string)         // handleDrag
    | Drop(files: seq<FileInfo>)      // handleDrop
    | Change(files: seq<FileInfo>)    // handleChange (the file input)
    | RemoveClicked                   // the Remove button
    | ProgressTimer                   // one firing of the upload interval
    | ZoomClicked(zoomIn: bool)       // handleZoom
    | ReaderLoaded(data: string)      // a FileReader load completes

  /**
   * Events that can occur in `s`: the interval runs only while a file is
   * held (its effect is cleaned up when `file` changes), and a reader load
   * completes only if one was started.
   */
  function Enabled(s: Screen, e: Event): (b: bool)
    ensures e.ProgressTimer? ==> (b <==> s.file.Some?)
    ensures e.ReaderLoaded? ==> (b <==> s.pendingReads > 0)
    ensures !e.ProgressTimer? && !e.ReaderLoaded? ==> b
  {
    match e
    case ProgressTimer => s.file.Some?
    case ReaderLoaded(_) => s.pendingReads > 0
    case _ => true
  }

  /**
   * `handleFile`.  A rejected file changes only the error message; an
   * accepted one clears the error, becomes the file, restarts the progress
   * at 0 and starts a reader.
   */
  function AfterFile(s: Screen, f: FileInfo): (r: Screen)
    ensures Check(f).Reject? ==> r == s.(error := Check(f).message)
    ensures Check(f) == Accept ==>
      r.file == Some(f) && r.error == "" && r.uploadProgress == 0 && r.pendingReads == s.pendingReads + 1
    ensures r.preview == s.preview && r.zoomLevel == s.zoomLevel && r.dragActive == s.dragActive
  {
    match Check(f)
    case Reject(message) => s.(error := message)
    case Accept => s.(error := "", file := Some(f), uploadProgress := 0, pendingReads := s.pendingReads + 1)
  }

  /** The effect of one event; every event keeps the invariant. */
  function Apply(s: Screen, e: Event): (r: Screen)
    requires Enabled(s, e)
    ensures Inv(s) ==> Inv(r)
  {
    match e
    case FileGiven(f) => AfterFile(s, f)
    case Drag(t) => s.(dragActive := DragActiveAfter(t, s.dragActive))
    case Drop(files) =>
      var s1 := s.(dragActive := false);
      if |files| > 0 then AfterFile(s1, files[0]) else s1
    case Change(files) => if |files| > 0 then AfterFile(s, files[0]) else s
    case RemoveClicked => s.(file := None, preview := "", uploadProgress := 0)
    case ProgressTimer => s.(uploadProgress := ProgressTick(s.uploadProgress))
    case ZoomClicked(zoomIn) => s.(zoomLevel := ZoomNext(s.zoomLevel, zoomIn))
    case ReaderLoaded(data) => s.(preview := data, pendingReads := s.pendingReads - 1)
  }

  /**
   * The timer guard is what keeps "no file, no progress": a tick that fired
   * with no file held would move the progress of a valid state off 0.
   */
  lemma TimerGuardNeeded()
    ensures Inv(Initial()) && !Enabled(Initial(), ProgressTimer)
    ensures !Inv(Initial().(uploadProgress := ProgressTick(Initial().uploadProgress)))
  {
  }

  /** The state after a run of events, or None if some event was not enabled. */
  function Run(s: Screen, events: seq<Event>): Option<Screen>
    decreases |events|
  {
    if events == [] then Some(s)
    else if !Enabled(s, events[0]) then None
    else Run(Apply(s, events[0]), events[1..])
  }

  /** Every state reachable from the initial one satisfies the invariant. */
  lemma {:induction false} RunKeepsInv(s: Screen, events: seq<Event>)
    requires Inv(s)
    ensures Run(s, events).Some? ==> Inv(Run(s, events).value)
    decreases |events|
  {
    if events != [] && Enabled(s, events[0]) {
      RunKeepsInv(Apply(s, events[0]), events[1..]);
    }
  }

  /** A rejected file, however it arrives, changes nothing but the error. */
  lemma RejectChangesOnlyError(s: Screen, f: FileInfo)
    requires Check(f).Reject?
    ensures Apply(s, FileGiven(f)) == s.(error := Check(f).message)
    ensures Apply(s, Change([f])) == s.(error := Check(f).message)
    ensures Apply(s, Drop([f])) == s.(dragActive := false, error := Check(f).message)
  {
  }

  /** A file of a listed type is accepted up to and including exactly 10 MiB. */
  lemma SizeBoundary(name: string, mime: string)
    requires mime in ValidTypes
    ensures Check(FileInfo(name, mime, MaxSize)) == Accept
    ensures Check(FileInfo(name, mime, MaxSize + 1)) == Reject(SizeMessage)
  {
  }

  /** The type test comes first: a wrong-type file over the limit reports the type. */
  lemma TypeBeforeSize(f: FileInfo)
    requires f.mime !in ValidTypes && f.size > MaxSize
    ensures Check(f) == Reject(TypeMessage)
  {
  }

  /** The type whitelist is exact: near misses and other spellings are rejected. */
  lemma TypeIsExact(name: string, size: nat)
    ensures Check(FileInfo(name, "image/jpg", size)) == Reject(TypeMessage)
    ensures Check(FileInfo(name, "IMAGE/PNG", size)) == Reject(TypeMessage)
    ensures Check(FileInfo(name, "", size)) == Reject(TypeMessage)
  {
    assert "image/jpg" != ValidTypes[0] && "image/jpg" != ValidTypes[1] && "image/jpg" != ValidTypes[2] by {
      assert "image/jpg"[6] != ValidTypes[1][6];
      assert |"image/jpg"| != |ValidTypes[2]|;
    }
    assert "IMAGE/PNG"[0] != ValidTypes[1][0];
  }

  // ------------------------------------------------------------ download

  datatype DownloadOutcome = Skipped | Saved(fileName: string) | Crash

  /**
   * `handleDownload` as written: nothing without a preview, otherwise the
   * download name is `file.name || 'document'`, which throws when `file`
   * is null.
   */
  function DownloadAsWritten(s: Screen): (r: DownloadOutcome)
    ensures r == Skipped <==> s.preview == ""
    ensures r == Crash <==> s.preview != "" && s.file.None?
    ensures r.Saved? ==> r.fileName == DownloadName(s.file)
  {
    if s.preview == "" then Skipped
    else if s.file.None? then Crash
    else Saved(if s.file.value.name != "" then s.file.value.name else "document")
  }

  /**
   * A reader load that completes after Remove leaves a preview without a
   * file (the reader effect has no cleanup), and Download then throws.
   */
  lemma StaleReadCrashesDownload(f: FileInfo, data: string)
    requires Check(f) == Accept && data != ""
    ensures var r := Run(Initial(), [FileGiven(f), RemoveClicked, ReaderLoaded(data)]);
      r.Some? && DownloadAsWritten(r.value) == Crash
  {
    var s1 := Apply(Initial(), FileGiven(f));
    var s2 := Apply(s1, RemoveClicked);
    var s3 := Apply(s2, ReaderLoaded(data));
    assert Run(s3, []) == Some(s3);
    assert Run(s2, [ReaderLoaded(data)]) == Some(s3);
    assert Run(s1, [RemoveClicked, ReaderLoaded(data)]) == Some(s3);
  }

  /** The download name with a null-safe fallback: `file?.name || 'document'`. */
  function DownloadName(file: Option<FileInfo>): (r: string)
    ensures r != ""
    ensures file.Some? && file.value.name != "" ==> r == file.value.name
    ensures file.None? || file.value.name == "" ==> r == "document"
  {
    if file.Some? && file.value.name != "" then file.value.name else "document"
  }

  /** The corrected download agrees with the original wherever the original does not throw. */
  lemma DownloadNameAgrees(s: Screen)
    requires DownloadAsWritten(s) != Crash
    ensures DownloadAsWritten(s) == if s.preview == "" then Skipped else Saved(DownloadName(s.file))
  {
  }

  // -------------------------------------------------------------- class

  /** The screen's state held in mutable fields, one field per `useState`. */
  class UploadScreen {
    var file: Option<FileInfo>
    var error: string
    var uploadProgress: int
    var zoomLevel: int
    var dragActive: bool
    var preview: string
    var pendingReads: nat

    function State(): Screen
      reads this
    {
      Screen(file, error, uploadProgress, zoomLevel, dragActive, preview, pendingReads)
    }

    ghost predicate Valid()
      reads this
    {
      Inv(State())
    }

    constructor ()
      ensures Valid() && State() == Initial()
    {
      file, error, uploadProgress, zoomLevel := None, "", 0, InitialZoom;
      dragActive, preview, pendingReads := false, "", 0;
    }

    method HandleFile(f: FileInfo)
      requires Valid()
      modifies this
      ensures Valid() && State() == Apply(old(State()), FileGiven(f))
    {
      if f.mime !in ValidTypes {
        error := TypeMessage;
        return;
      }
      if f.size > MaxSize {
        error := SizeMessage;
        return;
      }
      error := "";
      file := Some(f);
      uploadProgress := 0;
      pendingReads := pendingReads + 1;   // the reader effect starts a load
    }

    method HandleDrag(eventType: string)
      requires Valid()
      modifies this`dragActive
      ensures Valid() && State() == Apply(old(State()), Drag(eventType))
    {
      if eventType == "dragenter" || eventType == "dragover" {
        dragActive := true;
      } else if eventType == "dragleave" {
        dragActive := false;
      }
    }

    method HandleDrop(files: seq<FileInfo>)
      requires Valid()
      modifies this
      ensures Valid() && State() == Apply(old(State()), Drop(files))
    {
      dragActive := false;
      if |files| > 0 {
        HandleFile(files[0]);
      }
    }

    method HandleChange(files: seq<FileInfo>)
      requires Valid()
      modifies this
      ensures Valid() && State() == Apply(old(State()), Change(files))
    {
      if |files| > 0 {
        HandleFile(files[0]);
      }
    }

    method Remove()
      requires Valid()
      modifies this
      ensures Valid() && State() == Apply(old(State()), RemoveClicked)
    {
      file := None;
      preview := "";
      uploadProgress := 0;
    }

    method TickProgress()
      requires Valid() && file.Some?
      modifies this`uploadProgress
      ensures Valid() && State() == Apply(old(State()), ProgressTimer)
    {
      if uploadProgress >= ProgressDone {
        uploadProgress := ProgressDone;
      } else {
        uploadProgress := uploadProgress + ProgressStep;
      }
    }

    method HandleZoom(zoomIn: bool)
      requires Valid()
      modifies this`zoomLevel
      ensures Valid() && State() == Apply(old(State()), ZoomClicked(zoomIn))
    {
      if zoomIn {
        zoomLevel := Min(zoomLevel + ZoomStep, MaxZoom);
      } else {
        zoomLevel := Max(zoomLevel - ZoomStep, MinZoom);
      }
    }

    method PreviewLoaded(data: string)
      requires Valid() && pendingReads > 0
      modifies this
      ensures Valid() && State() == Apply(old(State()), ReaderLoaded(data))
    {
      preview := data;
      pendingReads := pendingReads - 1;
    }

    /** The download with the null-safe name; None when there is no preview. */
    method HandleDownload() returns (r: Option<string>)
      ensures r.None? <==> preview == ""
      ensures r.Some? ==> r.value == DownloadName(file) && r.value != ""
    {
      if preview == "" {
        return None;
      }
      r := Some(DownloadName(file));
    }
  }
}

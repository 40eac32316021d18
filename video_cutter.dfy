/**
 * The video cutter of app.py with the file system replaced by two folder
 * listings: the age-based sweep (`cleanup_old_files`), the `/cleanup` route
 * and the decisions of `process_video` (which upload is accepted, which trim
 * request is rejected, how the end time is clamped, and what is written
 * where). The transcoder itself is a parameter: whether it succeeds and, on
 * the moviepy path, the duration it reports.
 */
module VideoCutter {
  import opened Wrappers
  import opened UploadNames

  /** `MAX_FILE_AGE`, in seconds (app.py line 18). */
  const MaxFileAge: real := 3600.0

  /**
   * One name in a folder listing: whether it is a regular file, and its
   * `os.path.getctime` reading (on Unix the inode-change time, not the birth time).
   */
  datatype DirEntry = DirEntry(name: string, isFile: bool, ctime: real)

  /** The sweep's test (app.py lines 47-49): a regular file older than `MaxFileAge`. */
  predicate Expired(e: DirEntry, now: real): (expired: bool)
    ensures expired ==> e.isFile
    ensures e.ctime >= now - MaxFileAge ==> !expired
  {
    e.isFile && now - e.ctime > MaxFileAge
  }

  /** A file that is old enough to be removed stays so at every later time. */
  lemma ExpiredStaysExpired(e: DirEntry, t1: real, t2: real)
    requires t1 <= t2 && Expired(e, t1)
    ensures Expired(e, t2)
  {
  }

  /** What a sweep at time `now` leaves of a listing, in listing order. */
  function Survivors(listing: seq<DirEntry>, now: real): (r: seq<DirEntry>)
    ensures |r| <= |listing|
    ensures forall i :: 0 <= i < |r| ==> !Expired(r[i], now)
    decreases |listing|
  {
    if listing == [] then []
    else
      var last := listing[|listing| - 1];
      var rest := Survivors(listing[..|listing| - 1], now);
      if Expired(last, now) then rest else rest + [last]
  }

  /** The sweep removes exactly the expired files and keeps everything else. */
  lemma {:induction false} SurvivorsExact(listing: seq<DirEntry>, now: real)
    ensures forall e :: e in Survivors(listing, now) <==> e in listing && !Expired(e, now)
    ensures |Survivors(listing, now)| <= |listing|
    decreases |listing|
  {
    if listing != [] {
      var init := listing[..|listing| - 1];
      SurvivorsExact(init, now);
      assert listing == init + [listing[|listing| - 1]];
    }
  }

  /**
   * A later sweep subsumes an earlier one: sweeping at `t1` and then at `t2 >= t1`
   * leaves what one sweep at `t2` leaves; with `t1 == t2` the sweep is idempotent.
   */
  lemma {:induction false} SweepAgain(listing: seq<DirEntry>, t1: real, t2: real)
    requires t1 <= t2
    ensures Survivors(Survivors(listing, t1), t2) == Survivors(listing, t2)
    decreases |listing|
  {
    if listing != [] {
      var init := listing[..|listing| - 1];
      var last := listing[|listing| - 1];
      SweepAgain(init, t1, t2);
      if !Expired(last, t1) {
        var s := Survivors(init, t1) + [last];
        assert s[..|s| - 1] == Survivors(init, t1);
      }
    }
  }

  /** The inner loop of `cleanup_old_files` over one folder's listing. */
  method Sweep(listing: seq<DirEntry>, now: real) returns (kept: seq<DirEntry>)
    ensures kept == Survivors(listing, now)
  {
    kept := [];
    var i := 0;
    while i < |listing|
      invariant 0 <= i <= |listing|
      invariant kept == Survivors(listing[..i], now)
    {
      assert listing[..i + 1][..i] == listing[..i];
      if !Expired(listing[i], now) {
        kept := kept + [listing[i]];
      }
      i := i + 1;
    }
    assert listing[..i] == listing;
  }

  /** The listing without the entry called `name`. */
  function Without(listing: seq<DirEntry>, name: string): (r: seq<DirEntry>)
    ensures forall e :: e in r <==> e in listing && e.name != name
    decreases |listing|
  {
    if listing == [] then []
    else
      var rest := Without(listing[1..], name);
      assert listing == [listing[0]] + listing[1..];
      if listing[0].name == name then rest else [listing[0]] + rest
  }

  /** Saving a file into a folder: an earlier file of the same name is replaced. */
  function Store(listing: seq<DirEntry>, e: DirEntry): (r: seq<DirEntry>)
    ensures forall x :: x in r <==> x == e || (x in listing && x.name != e.name)
  {
    Without(listing, e.name) + [e]
  }

  /** What the file loop of the `/cleanup` route leaves: everything that is not a regular file. */
  function Directories(listing: seq<DirEntry>): (r: seq<DirEntry>)
    ensures forall e :: e in r <==> e in listing && !e.isFile
    decreases |listing|
  {
    if listing == [] then []
    else
      var last := listing[|listing| - 1];
      var rest := Directories(listing[..|listing| - 1]);
      assert listing == listing[..|listing| - 1] + [last];
      if last.isFile then rest else rest + [last]
  }

  /** The file loop of the `/cleanup` route over one folder (app.py lines 179-182). */
  method RemoveFiles(listing: seq<DirEntry>) returns (rest: seq<DirEntry>)
    ensures rest == Directories(listing)
  {
    rest := [];
    var i := 0;
    while i < |listing|
      invariant 0 <= i <= |listing|
      invariant rest == Directories(listing[..i])
    {
      assert listing[..i + 1][..i] == listing[..i];
      if !listing[i].isFile {
        rest := rest + [listing[i]];
      }
      i := i + 1;
    }
    assert listing[..i] == listing;
  }

  /** Why `process_video` answered with an error page. */
  datatype Rejection =
    | NoFile            // no 'video' part in the request
    | EmptyName         // the part has an empty file name
    | WrongType         // allowed_file refused the name
    | NegativeTime      // a start or end time below zero
    | EndNotAfterStart  // start time not before end time
    | ProcessingError   // the transcoder raised
    | SystemError       // a time field is missing or not a number

  /** The uploaded part: the name the client sent and what `secure_filename` made of it. */
  datatype Upload = Upload(filename: string, secureName: string)

  /** The trimming path: moviepy, which reports the clip's duration, or the ffmpeg fallback. */
  datatype Backend = MoviePy(duration: real) | Ffmpeg

  /** The page `process_video` renders: an error, or the name of the trimmed clip and its window. */
  datatype Response = Rejected(reason: Rejection) | Trimmed(output: string, start: real, end: real)

  /** The checks made before anything is written (app.py lines 70-87). */
  function CheckUpload(upload: Option<Upload>): (r: Option<Rejection>)
    ensures r == None <==> upload.Some? && upload.value.filename != "" && AllowedFile(upload.value.filename)
    ensures upload.None? ==> r == Some(NoFile)
    ensures upload.Some? && upload.value.filename == "" ==> r == Some(EmptyName)
    ensures upload.Some? && upload.value.filename != "" && !AllowedFile(upload.value.filename) ==> r == Some(WrongType)
  {
    if upload.None? then Some(NoFile)
    else if upload.value.filename == "" then Some(EmptyName)
    else if !AllowedFile(upload.value.filename) then Some(WrongType)
    else None
  }

  /** The time validation (app.py lines 101-109). */
  function CheckTimes(start: real, end: real): (r: Option<Rejection>)
    ensures r == None <==> 0.0 <= start < end
    ensures r == Some(NegativeTime) <==> start < 0.0 || end < 0.0
    ensures r != None ==> r.value in {NegativeTime, EndNotAfterStart}
  {
    if start < 0.0 || end < 0.0 then Some(NegativeTime)
    else if start >= end then Some(EndNotAfterStart)
    else None
  }

  /** The end time actually used for the cut (app.py lines 121-122). */
  function EffectiveEnd(end: real, backend: Backend): (e: real)
    ensures backend.MoviePy? ==> e <= end && e <= backend.duration && (e == end || e == backend.duration)
    ensures backend.Ffmpeg? ==> e == end
  {
    match backend
    case MoviePy(duration) => if end > duration then duration else end
    case Ffmpeg => end
  }

  /** A window that starts inside the clip stays non-empty after clamping. */
  lemma ClampKeepsWindow(start: real, end: real, backend: Backend)
    requires CheckTimes(start, end) == None
    requires backend.MoviePy? ==> start < backend.duration
    ensures 0.0 <= start < EffectiveEnd(end, backend)
  {
  }

  /**
   * Validation happens before clamping, so a request that starts after the
   * end of the clip passes validation and then has an inverted window (which
   * moviepy's subclip refuses, ending in a processing error).
   */
  lemma ClampCanInvertWindow()
    ensures CheckTimes(100.0, 200.0) == None
    ensures EffectiveEnd(200.0, MoviePy(50.0)) < 100.0
  {
  }

  /**
   * The page the trimming part of `process_video` (app.py lines 96-148)
   * renders for the stored upload `filename`. The times are the results of
   * `float(...)` on the two form fields: `None` when a field is missing or does
   * not parse, which the outer handler answers with the system error.
   */
  function Trim(filename: string, start: Option<real>, end: Option<real>,
                backend: Backend, transcodeOk: bool): (r: Response)
    ensures r.Trimmed? <==>
      start.Some? && end.Some? && CheckTimes(start.value, end.value) == None && transcodeOk
    ensures r.Trimmed? ==>
      r.output == OutputName(filename) && r.start == start.value && r.end == EffectiveEnd(end.value, backend)
    ensures start.None? || end.None? ==> r == Rejected(SystemError)
    ensures start.Some? && end.Some? && CheckTimes(start.value, end.value) != None ==>
      r == Rejected(CheckTimes(start.value, end.value).value)
    ensures (start.Some? && end.Some? && CheckTimes(start.value, end.value) == None && !transcodeOk) ==>
      r == Rejected(ProcessingError)
  {
    if start.None? || end.None? then Rejected(SystemError)
    else
      match CheckTimes(start.value, end.value)
      case Some(why) => Rejected(why)
      case None =>
        if transcodeOk
        then Trimmed(OutputName(filename), start.value, EffectiveEnd(end.value, backend))
        else Rejected(ProcessingError)
  }

  /** The page `process_video` renders, given the transcoder's behaviour. */
  function Respond(upload: Option<Upload>, token: string, start: Option<real>, end: Option<real>,
                   backend: Backend, transcodeOk: bool): (r: Response)
    ensures r.Trimmed? <==>
      && CheckUpload(upload) == None && start.Some? && end.Some?
      && CheckTimes(start.value, end.value) == None && transcodeOk
    ensures r.Trimmed? ==>
      && r.output == OutputName(UploadName(token, upload.value.secureName))
      && r.start == start.value && r.end == EffectiveEnd(end.value, backend)
    ensures CheckUpload(upload) != None ==> r == Rejected(CheckUpload(upload).value)
    ensures CheckUpload(upload) == None && (start.None? || end.None?) ==> r == Rejected(SystemError)
    ensures CheckUpload(upload) == None && start.Some? && end.Some? && CheckTimes(start.value, end.value) != None ==>
      r == Rejected(CheckTimes(start.value, end.value).value)
    ensures (CheckUpload(upload) == None && start.Some? && end.Some? && CheckTimes(start.value, end.value) == None &&
             !transcodeOk) ==> r == Rejected(ProcessingError)
  {
    match CheckUpload(upload)
    case Some(why) => Rejected(why)
    case None => Trim(UploadName(token, upload.value.secureName), start, end, backend, transcodeOk)
  }

  /** The two folders of the application: uploads and processed clips. */
  class Storage {
    var uploads: seq<DirEntry>
    var processed: seq<DirEntry>

    /** Start-up: `os.makedirs(..., exist_ok=True)` keeps whatever the folders already hold. */
    constructor (uploads: seq<DirEntry>, processed: seq<DirEntry>)
      ensures this.uploads == uploads && this.processed == processed
    {
      this.uploads := uploads;
      this.processed := processed;
    }

    /** `cleanup_old_files` (app.py lines 41-53): sweep both folders at time `now`. */
    method CleanupOldFiles(now: real)
      modifies this
      ensures uploads == Survivors(old(uploads), now)
      ensures processed == Survivors(old(processed), now)
    {
      uploads := Sweep(uploads, now);
      processed := Sweep(processed, now);
    }

    /** The `/cleanup` route (app.py lines 175-190): both folders end up empty. */
    method Cleanup()
      modifies this
      ensures uploads == [] && processed == []
    {
      uploads := RemoveFiles(uploads);
      processed := RemoveFiles(processed);
      assert forall e :: e in uploads || e in processed ==> !e.isFile;
      // shutil.rmtree removes the remaining sub-folders, os.makedirs recreates both folders empty
      uploads, processed := [], [];
    }

    /**
     * The trimming part of `process_video` (app.py lines 96-148) for the
     * stored upload `filename`: check the times, then cut into the processed
     * folder.
     */
    method Cut(filename: string, start: Option<real>, end: Option<real>,
               backend: Backend, transcodeOk: bool, now: real) returns (r: Response)
      modifies this`processed
      ensures r == Trim(filename, start, end, backend, transcodeOk)
      ensures processed == if r.Trimmed? then Store(old(processed), DirEntry(r.output, true, now)) else old(processed)
    {
      if start.None? || end.None? {
        return Rejected(SystemError);
      }
      var startTime, endTime := start.value, end.value;
      if startTime < 0.0 || endTime < 0.0 {
        return Rejected(NegativeTime);
      }
      if startTime >= endTime {
        return Rejected(EndNotAfterStart);
      }
      var outputName := OutputName(filename);
      if !transcodeOk {
        return Rejected(ProcessingError);
      }
      if backend.MoviePy? && endTime > backend.duration {
        endTime := backend.duration;
      }
      processed := Store(processed, DirEntry(outputName, true, now));
      r := Trimmed(outputName, startTime, endTime);
    }

    /**
     * `process_video` (app.py lines 66-154) at time `now`: sweep, check the
     * upload, save it, then trim it.
     */
    method ProcessVideo(upload: Option<Upload>, token: string, start: Option<real>, end: Option<real>,
                        backend: Backend, transcodeOk: bool, now: real) returns (r: Response)
      modifies this
      ensures r == Respond(upload, token, start, end, backend, transcodeOk)
      ensures uploads ==
        if CheckUpload(upload) == None
        then Store(Survivors(old(uploads), now), DirEntry(UploadName(token, upload.value.secureName), true, now))
        else Survivors(old(uploads), now)
      ensures processed ==
        if r.Trimmed?
        then Store(Survivors(old(processed), now), DirEntry(r.output, true, now))
        else Survivors(old(processed), now)
    {
      CleanupOldFiles(now);
      if upload.None? {
        return Rejected(NoFile);
      }
      if upload.value.filename == "" {
        return Rejected(EmptyName);
      }
      if !AllowedFile(upload.value.filename) {
        return Rejected(WrongType);
      }
      var filename := UploadName(token, upload.value.secureName);
      uploads := Store(uploads, DirEntry(filename, true, now));
      r := Cut(filename, start, end, backend, transcodeOk, now);
    }
  }
}

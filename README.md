# VIKAS video editor and video cutter, modelled in Dafny

This project models the two core files of the VIKAS video tools.

- `vikas_editor_real.py`, the editor. Six feature classes each check their
  argument against a fixed catalogue (edit operations, stickers, sound
  effects, filters, background methods) and answer true or false.
  The editor keeps them in a registry: a dictionary from feature name to
  feature object, held in insertion order. It routes `execute_feature`
  and `configure_feature` calls by name. It also keeps a project record
  whose timeline is created the first time an asset is added.
- `app.py`, the Flask video cutter. It covers:
  - the allow-list check on upload names (`allowed_file`);
  - the age-based sweep of the upload and output folders (`cleanup_old_files`);
  - the `/cleanup` route;
  - the decisions of `process_video`: the order of its checks, which upload
    is saved under which name, when the end time is clamped, and which output
    name a successful cut gets.

Files:

- `wrappers.dfy`: the `Option` type.
- `upload_names.dfy` (module `UploadNames`): `allowed_file` and the two file
  name formats.
- `video_cutter.dfy` (module `VideoCutter`): the folder model, the sweep,
  `/cleanup` and `process_video`. The class `Storage` holds both folder
  listings and updates them in place.
- `editor.dfy` (module `VikasEditor`): the features and the editor.
  - `Feature` is a class with a mutable `config`.
  - `Editor` is a class whose `features` map is reassigned as it changes. A
    separate `order` sequence records, like the Python dict, the order in
    which keys were first inserted.
  - `Registry` is the invariant linking the two: every key is listed once, and
    every feature is filed under its own name.

Modelling choices:

- Time is a `real` number of seconds passed in as `now`. Folder contents are
  sequences of `DirEntry` values: name, regular file or not, and the `os.path.getctime` reading (on Unix the inode-change time, not the birth time).
- The uuid token and the result of `secure_filename` are parameters.
- The transcoder is also a parameter: whether it succeeds, and which back end
  ran. Only moviepy reports a duration.
- Python's `str.lower()` is modelled on ASCII letters plus the KELVIN SIGN.
  That sign is the one non-ASCII character that lower-cases to an ASCII
  letter, so no other character can change whether a name is allowed.

## Model

| member | source | states |
|---|---|---|
| UploadNames.LowerChar | app.py:38 | lower-casing keeps dots as dots and yields a small ASCII letter exactly for ASCII letters and the Kelvin sign |
| UploadNames.Lower | app.py:38 | the model's lower-casing maps each character by `LowerChar`, keeps every dot and adds none, and leaves no ASCII capital or Kelvin sign |
| UploadNames.LowerConcat | app.py:38 | lower-casing a join is joining the lower-cased parts |
| UploadNames.LowerIdempotent | app.py:38 | lower-casing twice is lower-casing once |
| UploadNames.LastIndex | app.py:38 | the result is -1 exactly when the character is absent; otherwise it is an occurrence with no later occurrence |
| UploadNames.RSplitOnce | app.py:38 | `rsplit(sep, 1)` gives the whole string when `sep` is absent; otherwise it gives a head and a tail that rebuild the string around `sep`, and the tail has no `sep` |
| UploadNames.AllowedFile | app.py:36-38 | `allowed_file` itself; an accepted name has a dot and at least four characters |
| UploadNames.AllowedFileIff | app.py:36-38 | a name is allowed exactly when some dot has no dot after it and the lower-cased text after it is one of mp4, mov, avi, mkv, webm |
| UploadNames.NoDotRejected | app.py:37 | a name without a dot is refused |
| UploadNames.LastExtensionDecides | app.py:38 | whatever precedes the last dot, the verdict depends only on the last extension |
| UploadNames.HiddenExtensionRejected | app.py:36-38 | "x.mp4.exe" is refused: an earlier extension does not count |
| UploadNames.UpperCaseExtensionAccepted | app.py:36-38 | "x.exe.MP4" is accepted: the comparison ignores case |
| UploadNames.CaseInsensitive | app.py:38 | two names that lower-case alike get the same verdict |
| UploadNames.UploadName | app.py:92 | the stored name starts with "vikas_", ends with the secure name, and is one character longer than prefix, token and name together |
| UploadNames.OutputName | app.py:112 | the output name is "vikas_trimmed_" followed by the stored upload name |
| UploadNames.OutputNameRoundTrip | app.py:92-112 | from `vikas_trimmed_vikas_<token>_<name>` with a 32-character token, the token and the original name are recovered (by `ParseOutputName`, which accepts only names it can rebuild exactly) |
| UploadNames.DistinctTokensDistinctOutputs | app.py:92-112 | uploads with different uuid tokens never share an upload name or an output name |
| UploadNames.UnequalTokenLengthsCollide | app.py:92 | the fixed token length is what keeps names apart: tokens "a" and "a_b" give the same name |
| VideoCutter.Expired | app.py:47-49 | only a regular file can expire, and a file whose ctime reading is at most 3600 seconds back (or in the future) never does |
| VideoCutter.ExpiredStaysExpired | app.py:47-49 | a file old enough to remove stays so at every later time |
| VideoCutter.Survivors | app.py:45-50 | a sweep never lengthens a listing and leaves no expired file |
| VideoCutter.SurvivorsExact | app.py:41-53 | a sweep removes exactly the regular files older than 3600 seconds and keeps everything else |
| VideoCutter.SweepAgain | app.py:41-53 | sweeping at t1 and then at a later t2 leaves what one sweep at t2 leaves, so a repeated sweep changes nothing |
| VideoCutter.Sweep | app.py:45-51 | the loop over one folder keeps exactly the sweep's survivors, in listing order |
| VideoCutter.Without | app.py:94 | removing a name keeps exactly the entries with other names |
| VideoCutter.Store | app.py:94 | saving a file leaves the new entry plus every entry with a different name |
| VideoCutter.Directories | app.py:179-182 | the `/cleanup` file loop leaves exactly the entries that are not regular files |
| VideoCutter.RemoveFiles | app.py:179-182 | the loop over one folder leaves exactly `Directories` of its listing |
| VideoCutter.CheckUpload | app.py:70-87 | an upload passes exactly when the video part exists, has a non-empty name and `allowed_file` accepts it; a missing part is NoFile, an empty name EmptyName, and a name `allowed_file` refuses WrongType |
| VideoCutter.CheckTimes | app.py:101-109 | times pass exactly when 0 <= start < end; a negative time is reported whenever either time is negative |
| VideoCutter.EffectiveEnd | app.py:121-122 | on moviepy the end is the smaller of the requested end and the duration; on the ffmpeg fallback it is unchanged |
| VideoCutter.ClampKeepsWindow | app.py:101-122 | a validated window that starts inside the clip stays non-empty after clamping |
| VideoCutter.ClampCanInvertWindow | app.py:101-122 | validation comes before clamping, so start 100 and end 200 pass the checks and then end at 50 on a 50-second clip |
| VideoCutter.Trim | app.py:96-148 | the trimming part yields a clip exactly when both times parse and validate and the transcoder succeeds, named `vikas_trimmed_` plus the stored name, with the clamped window; an unparsable time is the system error, a failed time check its own error, a transcoder failure the processing error |
| VideoCutter.Respond | app.py:66-154 | the request yields a trimmed clip exactly when the upload is accepted, both times parse and validate, and the transcoder succeeds. The clip is named `vikas_trimmed_vikas_<token>_<secure name>` and has the clamped window. Otherwise the first failing check gives its error: upload error, system error, time error, then processing error |
| VideoCutter.Storage.constructor | app.py:21-22 | start-up keeps what both folders already hold |
| VideoCutter.Storage.CleanupOldFiles | app.py:41-53 | both folders become their sweep survivors |
| VideoCutter.Storage.Cleanup | app.py:175-190 | both folders end up empty |
| VideoCutter.Storage.Cut | app.py:96-148 | the response is `Trim`, and the processed folder gains the output file exactly when a clip is trimmed |
| VideoCutter.Storage.ProcessVideo | app.py:66-154 | the response is `Respond`. Both folders are swept first. An accepted upload is saved even when a later check fails. An output is written only for a trimmed clip |
| VikasEditor.Label | vikas_editor_real.py:43-165 | each class passes its own non-empty label to the base constructor, so every feature name has text after the prefix |
| VikasEditor.FeatureName | vikas_editor_real.py:24 | every feature name starts with "VIKAS " and has a label after it |
| VikasEditor.FeatureNameInjective | vikas_editor_real.py:23-25 | different classes get different names |
| VikasEditor.CoreNamesDistinct | vikas_editor_real.py:184-192 | the six core names are pairwise different, and every feature class has one |
| VikasEditor.CoreNamesGrow | vikas_editor_real.py:184-192 | each core name is new when it is registered, so registering it appends it to the order |
| VikasEditor.EditExecute | vikas_editor_real.py:46-55 | an edit succeeds exactly for trim, merge and split |
| VikasEditor.StickerExecute | vikas_editor_real.py:89-104 | a sticker succeeds exactly for the three library stickers |
| VikasEditor.ApplyEffect | vikas_editor_real.py:127-133 | an effect succeeds exactly when one of the four sound effects is given |
| VikasEditor.SoundExecute | vikas_editor_real.py:112-121 | apply_effect succeeds exactly when the effect check does; otherwise only add_music and extract_audio succeed |
| VikasEditor.EffectsExecute | vikas_editor_real.py:145-160 | a filter succeeds exactly for the four catalogued filters |
| VikasEditor.BackgroundExecute | vikas_editor_real.py:166-174 | a background change succeeds exactly for the three methods, including the default "AI Segmentation" |
| VikasEditor.Merge | vikas_editor_real.py:31-33 | `dict.update`: the new keys are the union, changed keys take the new values and the rest keep theirs |
| VikasEditor.MergeTwice | vikas_editor_real.py:31-33 | configuring twice equals configuring once with the second settings laid over the first; repeating the same settings changes nothing |
| VikasEditor.Feature.constructor | vikas_editor_real.py:23-25 | a new feature is named "VIKAS " plus its class label and has empty settings |
| VikasEditor.Feature.Configure | vikas_editor_real.py:31-33 | the settings become the old settings updated with the changes |
| VikasEditor.Feature.Execute | vikas_editor_real.py:46-174 | a feature succeeds exactly for a call of its own class that passes that class's catalogue check; a text overlay succeeds for every text call |
| VikasEditor.Enlist | vikas_editor_real.py:199 | dict insertion keeps the keys distinct, adds exactly the new name, keeps the old order as a prefix, and grows by one exactly for a new name |
| VikasEditor.Editor.constructor | vikas_editor_real.py:178-182 | the registry is valid and lists the six core names in registration order. Each is a new feature object of the matching class with empty settings. The project is "Untitled" with the creation time only |
| VikasEditor.Editor.RegisterFeature | vikas_editor_real.py:194-200 | the feature is filed under its name. A new name goes to the end of the order, a known name keeps its place. The registry stays valid |
| VikasEditor.Editor.InitializeCoreFeatures | vikas_editor_real.py:184-192 | from an empty registry, the six core features are registered in order; every registered feature is new with empty settings, and each core name holds its class |
| VikasEditor.Editor.ExecuteFeature | vikas_editor_real.py:202-208 | an unknown name fails; a known name answers what that feature's `execute` answers |
| VikasEditor.Editor.ConfigureFeature | vikas_editor_real.py:210-217 | success exactly for a registered name. That feature's settings are merged, and every other feature keeps its settings |
| VikasEditor.Editor.ListFeatures | vikas_editor_real.py:219-224 | the names come back in registration order, each registered name exactly once |
| VikasEditor.Editor.CreateProject | vikas_editor_real.py:226-234 | the project is replaced by a fresh one with that name, created and modified now, no features used, and no timeline |
| VikasEditor.Editor.AddToTimeline | vikas_editor_real.py:252-261 | the timeline grows by exactly one entry (the asset and its time), and the earlier entries are kept in front |

## Left out

- HTTP and Flask plumbing: templates, error-page texts, `MAX_CONTENT_LENGTH`, the download route and the `index` route. `index` runs the same sweep as `Storage.CleanupOldFiles`.
- The transcoder is not modelled. moviepy and ffmpeg are reduced to the `Backend` and `transcodeOk` parameters. A partial output left by a failed transcode is not modelled.
- The file system is modelled as two sequences of folder entries. Exceptions raised by `os` calls during the sweep or `/cleanup` are not modelled, and so are not their partial effects or the 500 answer.
- VideoCutter.Storage.ProcessVideo: a failing `video_file.save` (app.py line 94, answered by the system error at lines 150-154) is not modelled; `ProcessVideo` and `Respond` always store an accepted upload.
- `secure_filename`, `uuid.uuid4()` and `datetime.now()` are parameters. `create_project` reads the clock twice; the model uses one reading for both.
- VideoCutter.Respond: a parsed time is any real. NaN and infinities from `float()` are not modelled.
- Logging, `print`, the logo, `save_project`, `load_project`, `get_project_info` and both `__main__` blocks are not modelled. They are I/O or only echo state.
- The `TypeError` that `register_feature` raises for a non-feature is not modelled: `RegisterFeature` accepts only `Feature` objects.
- Custom feature subclasses are not modelled; the registry holds only the six `Kind`s of feature.
- `execute` arguments are reduced to the one argument each class inspects (the `Call` datatype). A call shaped for another class answers false. Python would raise for missing arguments or pass the wrong argument positionally; that is not modelled.
- Arguments that are only logged are not modelled: paths, positions, text, style, duration, intensity and the background. The unused `timeline` of `EditFeature` and `fonts` of `TextFeature` are not modelled either.
- VikasEditor.Editor.InitializeCoreFeatures: the six `register_feature` statements are one loop over `CoreKinds`, in the same order. It requires an empty registry, which is the only state in which `__init__` calls it.
- UploadNames.LowerChar: only ASCII letters and the Kelvin sign are lower-cased. Other scripts are left unchanged, which cannot change any verdict against the ASCII allow-list.
- Aliasing of feature objects outside the editor is not modelled. `ConfigureFeature` changes only the named feature's settings.

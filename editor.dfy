/**
 * The editor of vikas_editor_real.py: features that validate their argument
 * against a fixed catalogue, a registry from feature name to feature kept in
 * registration order, per-feature settings merged in place, and a project
 * record with a lazily created timeline. The media work itself is not part
 * of the source either: every feature only logs and answers true or false.
 */
module VikasEditor {
  import opened Wrappers

  /** The six feature classes of the editor. */
  datatype Kind = Edit | Text | Sticker | Sound | Effects | Background

  /** The name each feature class passes to the base constructor. */
  function Label(k: Kind): (r: string)
    ensures 0 < |r|
  {
    match k
    case Edit => "Edit Core"
    case Text => "Text Overlay"
    case Sticker => "Sticker Animation"
    case Sound => "Audio Processing"
    case Effects => "Visual Effects"
    case Background => "Background Changer"
  }

  /** The prefix the base constructor puts before every feature name. */
  const NamePrefix: string := "VIKAS "

  /** `f"VIKAS {name}"` (vikas_editor_real.py line 24). */
  function FeatureName(k: Kind): (r: string)
    ensures |r| > |NamePrefix| && NamePrefix <= r
  {
    NamePrefix + Label(k)
  }

  /** Different feature classes get different names. */
  lemma FeatureNameInjective(k1: Kind, k2: Kind)
    ensures FeatureName(k1) == FeatureName(k2) ==> k1 == k2
  {
  }

  /** The order in which `_initialize_core_features` registers the six features. */
  const CoreKinds: seq<Kind> := [Edit, Text, Sticker, Sound, Effects, Background]

  /** Their names, in the same order. */
  const CoreNames: seq<string> := [
    FeatureName(Edit), FeatureName(Text), FeatureName(Sticker),
    FeatureName(Sound), FeatureName(Effects), FeatureName(Background)]

  /** No name occurs twice in a sequence. */
  predicate Distinct(s: seq<string>)
  {
    forall i, j :: 0 <= i < j < |s| ==> s[i] != s[j]
  }

  /** The six core names are pairwise different, and every feature class has one. */
  lemma CoreNamesDistinct()
    ensures Distinct(CoreNames) && |CoreNames| == 6
    ensures forall k: Kind :: FeatureName(k) in CoreNames
  {
  }

  /** Registering the core names one by one appends each in turn. */
  lemma CoreNamesGrow(i: nat)
    requires i < |CoreKinds|
    ensures CoreNames[i] == FeatureName(CoreKinds[i])
    ensures CoreNames[i] !in CoreNames[..i]
    ensures forall j :: 0 <= j < i ==> CoreNames[j] != CoreNames[i]
    ensures Enlist(CoreNames[..i], CoreNames[i]) == CoreNames[..i + 1]
  {
    CoreNamesDistinct();
    assert CoreNames[..i + 1] == CoreNames[..i] + [CoreNames[i]];
  }

  // The catalogues each feature validates against.

  /** `sticker_library` (vikas_editor_real.py lines 90-94). */
  const StickerLibrary: map<string, string> := map[
    "VIKAS Logo" := "stickers/vikas_logo.png",
    "Celebration" := "stickers/celebration.gif",
    "Emoji Pack" := "stickers/emoji_collection"]

  /** `effects` of the sound feature (vikas_editor_real.py line 110). */
  const SoundEffects: seq<string> := ["Echo", "Reverb", "Pitch Shift", "VIKAS Signature"]

  /** `filters` with their processing points (vikas_editor_real.py lines 146-151). */
  const Filters: map<string, int> := map[
    "VIKAS Filter" := 200,
    "VIKAS Pro Filter" := 400,
    "VIKAS Zoom Effect" := 100,
    "VIKAS Background" := 1500]

  /** `methods` of the background feature (vikas_editor_real.py line 166). */
  const BackgroundMethods: seq<string> := ["Chroma Key", "AI Segmentation", "Manual Masking"]

  /** The default `method` argument of the background feature (vikas_editor_real.py line 168). */
  const DefaultBackgroundMethod: string := "AI Segmentation"

  /** `EditFeature.execute` (vikas_editor_real.py lines 46-55). */
  function EditExecute(operation: string): (ok: bool)
    ensures ok <==> operation in {"trim", "merge", "split"}
  {
    if operation == "trim" then true
    else if operation == "merge" then true
    else if operation == "split" then true
    else false
  }

  /** `StickerFeature.execute` (vikas_editor_real.py lines 96-104). */
  function StickerExecute(stickerName: string): (ok: bool)
    ensures ok <==> stickerName in {"VIKAS Logo", "Celebration", "Emoji Pack"}
  {
    stickerName in StickerLibrary
  }

  /** `SoundFeature._apply_effect` (vikas_editor_real.py lines 127-133); no effect given is not an effect. */
  function ApplyEffect(effect: Option<string>): (ok: bool)
    ensures ok <==> effect.Some? && effect.value in {"Echo", "Reverb", "Pitch Shift", "VIKAS Signature"}
  {
    match effect
    case None => false
    case Some(e) => e in SoundEffects
  }

  /** `SoundFeature.execute` (vikas_editor_real.py lines 112-121). */
  function SoundExecute(operation: string, params: Option<string>): (ok: bool)
    ensures operation == "apply_effect" ==> (ok <==> ApplyEffect(params))
    ensures operation != "apply_effect" ==> (ok <==> operation in {"add_music", "extract_audio"})
  {
    if operation == "add_music" then true
    else if operation == "apply_effect" then ApplyEffect(params)
    else if operation == "extract_audio" then true
    else false
  }

  /** `EffectsFeature.execute` (vikas_editor_real.py lines 153-160). */
  function EffectsExecute(filterName: string): (ok: bool)
    ensures ok <==> filterName in {"VIKAS Filter", "VIKAS Pro Filter", "VIKAS Zoom Effect", "VIKAS Background"}
  {
    filterName in Filters
  }

  /** `BackgroundFeature.execute` (vikas_editor_real.py lines 168-174). */
  function BackgroundExecute(technique: string): (ok: bool)
    ensures ok <==> technique in {"Chroma Key", "AI Segmentation", "Manual Masking"}
    ensures technique == DefaultBackgroundMethod ==> ok
  {
    technique in BackgroundMethods
  }

  /**
   * The arguments of one `execute` call, reduced to the one argument each
   * feature inspects (paths, positions, durations and styles are only logged).
   */
  datatype Call =
    | EditCall(operation: string)
    | TextCall
    | StickerCall(stickerName: string)
    | SoundCall(operation: string, params: Option<string>)
    | EffectsCall(filterName: string)
    | BackgroundCall(technique: string)

  /** A configuration value passed to `configure`. */
  datatype Setting = Flag(b: bool) | Number(x: real) | Word(s: string)

  /** `dict.update`: keys of `changes` take the new values, every other key keeps its value. */
  function Merge(current: map<string, Setting>, changes: map<string, Setting>): (r: map<string, Setting>)
    ensures r.Keys == current.Keys + changes.Keys
    ensures forall k :: k in changes ==> r[k] == changes[k]
    ensures forall k :: k in current && k !in changes ==> r[k] == current[k]
  {
    current + changes
  }

  /**
   * Configuring twice is configuring once with the second settings laid over
   * the first; in particular repeating the same settings changes nothing.
   */
  lemma MergeTwice(current: map<string, Setting>, first: map<string, Setting>, second: map<string, Setting>)
    ensures Merge(Merge(current, first), second) == Merge(current, Merge(first, second))
    ensures Merge(Merge(current, first), first) == Merge(current, first)
  {
  }

  /** A feature object: its class, its registered name and its settings. */
  class Feature {
    const kind: Kind
    const name: string
    var config: map<string, Setting>

    /** `VikasFeature.__init__` as reached from each subclass (vikas_editor_real.py lines 23-25). */
    constructor (kind: Kind)
      ensures this.kind == kind && name == FeatureName(kind) && config == map[]
    {
      this.kind := kind;
      name := NamePrefix + Label(kind);
      config := map[];
    }

    /** `configure` (vikas_editor_real.py lines 31-33): merge the settings in place. */
    method Configure(changes: map<string, Setting>)
      modifies this
      ensures config == Merge(old(config), changes)
    {
      config := config + changes;
    }

    /**
     * `execute` of this feature's class. A call shaped for another class
     * is refused (see the README on argument binding).
     */
    function Execute(call: Call): (ok: bool)
      ensures ok <==> match call
        case EditCall(op) => kind == Edit && EditExecute(op)
        case TextCall => kind == Text
        case StickerCall(s) => kind == Sticker && StickerExecute(s)
        case SoundCall(op, p) => kind == Sound && SoundExecute(op, p)
        case EffectsCall(f) => kind == Effects && EffectsExecute(f)
        case BackgroundCall(t) => kind == Background && BackgroundExecute(t)
    {
      match (kind, call)
      case (Edit, EditCall(op)) => EditExecute(op)
      case (Text, TextCall) => true
      case (Sticker, StickerCall(s)) => StickerExecute(s)
      case (Sound, SoundCall(op, p)) => SoundExecute(op, p)
      case (Effects, EffectsCall(f)) => EffectsExecute(f)
      case (Background, BackgroundCall(t)) => BackgroundExecute(t)
      case _ => false
    }
  }

  /** Python dict insertion: a new key goes to the end, a known key keeps its place. */
  function Enlist(order: seq<string>, name: string): (r: seq<string>)
    ensures Distinct(order) ==> Distinct(r)
    ensures forall n :: n in r <==> n in order || n == name
    ensures order <= r && |r| == if name in order then |order| else |order| + 1
  {
    if name in order then order else order + [name]
  }

  /**
   * The invariant of the registry: each feature is filed under its own name,
   * and `order` lists every key exactly once.
   */
  ghost predicate Registry(features: map<string, Feature>, order: seq<string>)
  {
    && Distinct(order)
    && (forall n :: n in features <==> n in order)
    && (forall n :: n in features ==> features[n].name == n)
  }

  /** One entry of a project timeline. */
  datatype TimelineEntry = TimelineEntry(asset: string, timestamp: real)

  /**
   * The project record. Keys that a project record may lack are options:
   * the initial project has no "modified" or "features_used", and no project
   * has a "timeline" before the first asset is added.
   */
  datatype Project = Project(
    name: string,
    created: real,
    modified: Option<real>,
    featuresUsed: Option<seq<string>>,
    timeline: Option<seq<TimelineEntry>>)

  /** The timeline of a project, empty while it has none. */
  function TimelineOf(p: Project): (t: seq<TimelineEntry>)
  {
    match p.timeline
    case None => []
    case Some(t) => t
  }

  /** The editor: the feature registry and the current project. */
  class Editor {
    var features: map<string, Feature>
    /** The keys of `features` in insertion order, which Python's dict keeps. */
    var order: seq<string>
    var project: Project

    /** The registry invariant holds of this editor's fields. */
    ghost predicate Valid()
      reads this
    {
      Registry(features, order)
    }

    /** `VikasEditor.__init__` (vikas_editor_real.py lines 178-182) at clock reading `now`. */
    constructor (now: real)
      ensures Valid() && order == CoreNames
      ensures forall n :: n in features ==> fresh(features[n])
      ensures forall i :: 0 <= i < |CoreKinds| ==>
        features[CoreNames[i]].kind == CoreKinds[i] && features[CoreNames[i]].config == map[]
      ensures project == Project("Untitled", now, None, None, None)
    {
      features := map[];
      order := [];
      project := Project("Untitled", now, None, None, None);
      new;
      InitializeCoreFeatures();
    }

    /** `register_feature` (vikas_editor_real.py lines 194-200): file or re-file a feature under its name. */
    method RegisterFeature(feature: Feature)
      requires Valid()
      modifies this`features, this`order
      ensures Valid()
      ensures features == old(features)[feature.name := feature]
      ensures order == Enlist(old(order), feature.name)
    {
      features := features[feature.name := feature];
      order := Enlist(order, feature.name);
    }

    /**
     * `_initialize_core_features` (vikas_editor_real.py lines 184-192): create
     * and register one new object of each feature class, in `CoreKinds` order.
     */
    method InitializeCoreFeatures()
      requires features == map[] && order == []
      modifies this`features, this`order
      ensures Valid() && order == CoreNames
      ensures forall n :: n in features ==> fresh(features[n]) && features[n].config == map[]
      ensures forall i :: 0 <= i < |CoreKinds| ==> features[CoreNames[i]].kind == CoreKinds[i]
    {
      for i := 0 to |CoreKinds|
        invariant Valid() && order == CoreNames[..i]
        invariant forall n :: n in features ==>
          fresh(features[n]) && features[n].config == map[] && features[n].name == FeatureName(features[n].kind)
      {
        var feature := new Feature(CoreKinds[i]);
        CoreNamesGrow(i);
        RegisterFeature(feature);
      }
      forall i | 0 <= i < |CoreKinds| ensures features[CoreNames[i]].kind == CoreKinds[i] {
        CoreNamesGrow(i);
        FeatureNameInjective(features[CoreNames[i]].kind, CoreKinds[i]);
      }
    }

    /** `execute_feature` (vikas_editor_real.py lines 202-208): false for an unknown name. */
    method ExecuteFeature(name: string, call: Call) returns (ok: bool)
      ensures name !in features ==> !ok
      ensures name in features ==> ok == features[name].Execute(call)
    {
      if name !in features {
        return false;
      }
      ok := features[name].Execute(call);
    }

    /**
     * `configure_feature` (vikas_editor_real.py lines 210-217): merge the
     * settings into the named feature; false, and nothing changed, for an
     * unknown name. No other registered feature is touched.
     */
    method ConfigureFeature(name: string, changes: map<string, Setting>) returns (ok: bool)
      requires Valid()
      modifies features.Values
      ensures ok <==> name in features
      ensures ok ==> features[name].config == Merge(old(features[name].config), changes)
      ensures forall n :: n in features && n != name ==> features[n].config == old(features[n].config)
    {
      if name !in features {
        return false;
      }
      features[name].Configure(changes);
      ok := true;
    }

    /** `list_features` (vikas_editor_real.py lines 219-224): the names in registration order. */
    method ListFeatures() returns (names: seq<string>)
      requires Valid()
      ensures names == order
      ensures Distinct(names) && forall n :: n in names <==> n in features
    {
      names := [];
      var i := 0;
      while i < |order|
        invariant 0 <= i <= |order|
        invariant names == order[..i]
      {
        names := names + [order[i]];
        i := i + 1;
      }
    }

    /** `create_project` (vikas_editor_real.py lines 226-234) at clock reading `now`. */
    method CreateProject(name: string, now: real)
      modifies this`project
      ensures project == Project(name, now, Some(now), Some([]), None)
      ensures TimelineOf(project) == []
    {
      project := Project(name, now, Some(now), Some([]), None);
    }

    /**
     * `add_to_timeline` (vikas_editor_real.py lines 252-261): create the
     * timeline if the project has none, then append one entry.
     */
    method AddToTimeline(asset: string, now: real)
      modifies this`project
      ensures project == old(project).(timeline := Some(TimelineOf(old(project)) + [TimelineEntry(asset, now)]))
      ensures |TimelineOf(project)| == |TimelineOf(old(project))| + 1
      ensures TimelineOf(project)[..|TimelineOf(old(project))|] == TimelineOf(old(project))
    {
      if project.timeline.None? {
        project := project.(timeline := Some([]));
      }
      project := project.(timeline := Some(project.timeline.value + [TimelineEntry(asset, now)]));
    }
  }
}

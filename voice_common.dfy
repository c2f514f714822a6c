/**
 * What the two XFE-based voice services share: the file system they probe
 * for the XFE licence and the Vosk model, the licence search, the callbacks
 * they post to the main thread, the speech states the XFE voice-activity
 * detector reports, and one turn of the recording loop.
 */
module VoiceCommon {
  import opened Pcm
  import opened Wrappers

  // ---------------------------------------------------------------------------
  // The file system
  // ---------------------------------------------------------------------------

  /** What the Vosk library makes of a directory. */
  datatype ModelLoad =
    | ModelFails       // `Model(path)` throws
    | RecognizerFails  // the model loads, `Recognizer(model, 16000f)` throws
    | ModelLoads

  datatype FileNode =
    | RegularFile(data: seq<Byte>, readable: bool)
    | Directory(load: ModelLoad)

  datatype FileSystem = FileSystem(nodes: map<string, FileNode>)

  predicate IsFile(fs: FileSystem, path: string)
  {
    path in fs.nodes && fs.nodes[path].RegularFile?
  }

  predicate IsDirectory(fs: FileSystem, path: string)
  {
    path in fs.nodes && fs.nodes[path].Directory?
  }

  // ---------------------------------------------------------------------------
  // The licence search (`getLicenseData`)
  // ---------------------------------------------------------------------------

  const MaxLicenseBytes := 1024

  const LicensePaths: seq<string> := [
    "/mnt/sdcard/thinklet/xfe-license.dat",
    "/storage/emulated/0/thinklet/xfe-license.dat",
    "/sdcard/thinklet/xfe-license.dat"
  ]

  /** A file at `path` whose contents are returned: at most 1024 bytes and readable. */
  predicate Usable(fs: FileSystem, path: string)
  {
    IsFile(fs, path) && |fs.nodes[path].data| <= MaxLicenseBytes && fs.nodes[path].readable
  }

  /**
   * The licence found along `paths`: the contents of the first usable file.
   * A usable but empty file ends the search like any other.
   */
  function LicenseFrom(fs: FileSystem, paths: seq<string>): (license: seq<Byte>)
    ensures license != [] ==>
              exists i :: 0 <= i < |paths| && Usable(fs, paths[i]) && fs.nodes[paths[i]].data == license
    ensures (forall i :: 0 <= i < |paths| ==> !Usable(fs, paths[i])) ==> license == []
  {
    if |paths| == 0 then []
    else if Usable(fs, paths[0]) then fs.nodes[paths[0]].data
    else LicenseFrom(fs, paths[1..])
  }

  /** The first usable file decides, whatever follows it. */
  lemma {:induction false} FirstUsableWins(fs: FileSystem, paths: seq<string>, i: nat)
    requires i < |paths| && Usable(fs, paths[i])
    requires forall j :: 0 <= j < i ==> !Usable(fs, paths[j])
    ensures LicenseFrom(fs, paths) == fs.nodes[paths[i]].data
  {
    if i > 0 {
      assert paths[1..][i - 1] == paths[i];
      FirstUsableWins(fs, paths[1..], i - 1);
    }
  }

  /** A licence over 1024 bytes is passed over, and the search goes on. */
  lemma OversizedSkipped(fs: FileSystem, paths: seq<string>)
    requires |paths| > 0 && IsFile(fs, paths[0]) && |fs.nodes[paths[0]].data| > MaxLicenseBytes
    ensures LicenseFrom(fs, paths) == LicenseFrom(fs, paths[1..])
  {
  }

  /** An empty file at the first path hides a good licence at the second. */
  lemma EmptyLicenseStopsSearch(fs: FileSystem)
    requires IsFile(fs, LicensePaths[0]) && fs.nodes[LicensePaths[0]].data == [] && fs.nodes[LicensePaths[0]].readable
    ensures LicenseFrom(fs, LicensePaths) == []
  {
    FirstUsableWins(fs, LicensePaths, 0);
  }

  /** `getLicenseData`: try the three paths in order. */
  method GetLicenseData(fs: FileSystem) returns (license: seq<Byte>)
    ensures license == LicenseFrom(fs, LicensePaths)
  {
    var i := 0;
    while i < |LicensePaths|
      invariant 0 <= i <= |LicensePaths|
      invariant LicenseFrom(fs, LicensePaths[i..]) == LicenseFrom(fs, LicensePaths)
    {
      var path := LicensePaths[i];
      assert LicensePaths[i..][1..] == LicensePaths[i + 1..];
      if path in fs.nodes && fs.nodes[path].RegularFile? {
        var file := fs.nodes[path];
        if |file.data| > MaxLicenseBytes {
          i := i + 1;
          continue;
        }
        if !file.readable {
          i := i + 1;
          continue;
        }
        return file.data;
      }
      i := i + 1;
    }
    return [];
  }

  // ---------------------------------------------------------------------------
  // The model search (`loadVoskModel`)
  // ---------------------------------------------------------------------------

  const ModelPaths: seq<string> := [
    "/mnt/sdcard/thinklet/vosk-model-ja-0.22",
    "/storage/emulated/0/thinklet/vosk-model-ja-0.22",
    "/sdcard/thinklet/vosk-model-ja-0.22",
    "/mnt/sdcard/thinklet/vosk-model-small-ja-0.22",
    "/storage/emulated/0/thinklet/vosk-model-small-ja-0.22",
    "/sdcard/thinklet/vosk-model-small-ja-0.22"
  ]

  predicate Loadable(fs: FileSystem, path: string)
  {
    IsDirectory(fs, path) && fs.nodes[path].load == ModelLoads
  }

  /**
   * How a search ends: with a model and recognizer over `path`, or with no
   * recognizer and `model` left as the last directory whose model loaded.
   */
  datatype LoadOutcome = Loaded(path: string) | NotLoaded(model: Option<string>)

  /** The model search along `paths`, starting from the model field `model`. */
  function LoadFrom(fs: FileSystem, paths: seq<string>, model: Option<string>): (r: LoadOutcome)
    ensures r.Loaded? ==> exists i :: 0 <= i < |paths| && paths[i] == r.path && Loadable(fs, paths[i])
    ensures r.NotLoaded? <==> forall i :: 0 <= i < |paths| ==> !Loadable(fs, paths[i])
    ensures r.NotLoaded? && r.model.Some? && r.model != model ==>
              exists i :: 0 <= i < |paths| && paths[i] == r.model.value && IsDirectory(fs, paths[i]) &&
                          fs.nodes[paths[i]].load == RecognizerFails
  {
    if |paths| == 0 then NotLoaded(model)
    else if !IsDirectory(fs, paths[0]) then LoadFrom(fs, paths[1..], model)
    else match fs.nodes[paths[0]].load
      case ModelLoads => Loaded(paths[0])
      case RecognizerFails => LoadFrom(fs, paths[1..], Some(paths[0]))
      case ModelFails => LoadFrom(fs, paths[1..], model)
  }

  /** The first loadable directory wins. */
  lemma {:induction false} FirstLoadableWins(fs: FileSystem, paths: seq<string>, model: Option<string>, i: nat)
    requires i < |paths| && Loadable(fs, paths[i])
    requires forall j :: 0 <= j < i ==> !Loadable(fs, paths[j])
    ensures LoadFrom(fs, paths, model) == Loaded(paths[i])
  {
    if i > 0 {
      assert paths[1..][i - 1] == paths[i];
      var next := if IsDirectory(fs, paths[0]) && fs.nodes[paths[0]].load == RecognizerFails then Some(paths[0]) else model;
      FirstLoadableWins(fs, paths[1..], next, i - 1);
    }
  }

  /** A directory whose model loads but whose recognizer cannot be built. */
  predicate RecognizerFailsIn(fs: FileSystem, path: string)
  {
    IsDirectory(fs, path) && fs.nodes[path].load == RecognizerFails
  }

  /** With nothing loadable and no recognizer failure along `paths`, the model field is left as it was. */
  lemma {:induction false} NoRecognizerFailureKeepsModel(fs: FileSystem, paths: seq<string>, model: Option<string>)
    requires forall j :: 0 <= j < |paths| ==> !Loadable(fs, paths[j]) && !RecognizerFailsIn(fs, paths[j])
    ensures LoadFrom(fs, paths, model) == NotLoaded(model)
    decreases |paths|
  {
    if |paths| > 0 {
      forall j | 0 <= j < |paths| - 1
        ensures !Loadable(fs, paths[1..][j]) && !RecognizerFailsIn(fs, paths[1..][j])
      {
        assert paths[1..][j] == paths[j + 1];
      }
      NoRecognizerFailureKeepsModel(fs, paths[1..], model);
    }
  }

  /**
   * With nothing loadable, the model field ends as the LAST directory
   * whose recognizer failed: a later failure overwrites an earlier one.
   */
  lemma {:induction false} LastRecognizerFailureKept(fs: FileSystem, paths: seq<string>, model: Option<string>, i: nat)
    requires i < |paths| && RecognizerFailsIn(fs, paths[i])
    requires forall j :: 0 <= j < |paths| ==> !Loadable(fs, paths[j])
    requires forall j :: i < j < |paths| ==> !RecognizerFailsIn(fs, paths[j])
    ensures LoadFrom(fs, paths, model) == NotLoaded(Some(paths[i]))
    decreases |paths|
  {
    forall j | 0 <= j < |paths| - 1
      ensures paths[1..][j] == paths[j + 1]
    {
    }
    if i == 0 {
      NoRecognizerFailureKeepsModel(fs, paths[1..], Some(paths[0]));
    } else {
      var next := if RecognizerFailsIn(fs, paths[0]) then Some(paths[0]) else model;
      LastRecognizerFailureKept(fs, paths[1..], next, i - 1);
    }
  }

  // ---------------------------------------------------------------------------
  // Callbacks, speech states, the recording loop
  // ---------------------------------------------------------------------------

  /** A callback posted to the main thread's handler. */
  datatype Post = ResultPosted(text: string) | ErrorPosted(message: string)

  /** `TLXFEData.SpeechState` as the callbacks tell them apart. */
  datatype SpeechState = SpeechStart | InSpeech | SpeechEnd | OtherState

  /** The XFE preprocessor: the licence it was given and whether it is processing. */
  datatype Xfe = Xfe(license: seq<Byte>, processing: bool)

  /** What building and starting the `AudioRecord` does. */
  datatype RecorderStart = RecorderStarts | RecorderThrows(message: string)

  /** What `audioRecorder.read` does. */
  datatype ReadOutcome = ReadBytes(count: int) | ReadThrows

  const XfeSetupError := "XFE VADの初期化に失敗しました"
  const XfeStartError := "XFE処理の開始に失敗しました"
  const RecordingErrorPrefix := "録音の開始に失敗しました: "

  /** The bytes of one read that go to XFE: only the part filled, and nothing for an empty read. */
  function Chunk(count: int, buffer: seq<Byte>): (chunk: Option<seq<Byte>>)
    ensures chunk.Some? <==> count > 0
    ensures chunk.Some? && count < |buffer| ==> chunk.value == buffer[..count]
    ensures chunk.Some? && count >= |buffer| ==> chunk.value == buffer
  {
    if count <= 0 then None
    else if count < |buffer| then Some(buffer[..count])
    else Some(buffer)
  }

  /** The loop carries on after a read unless the read failed or threw. */
  function LoopGoesOn(read: ReadOutcome): (goOn: bool)
    ensures goOn <==> read.ReadBytes? && read.count >= 0
  {
    match read
    case ReadThrows => false
    case ReadBytes(count) => count >= 0
  }

  /** A chunk is never longer than the buffer it came from. */
  lemma ChunkFits(count: int, buffer: seq<Byte>)
    requires Chunk(count, buffer).Some?
    ensures |Chunk(count, buffer).value| <= |buffer| && |Chunk(count, buffer).value| <= count
  {
  }
}

/**
 * `VoskVoiceService`: on-device recognition. XFE's voice-activity detector
 * cuts the 48 kHz microphone stream into utterances and hands 16 kHz audio
 * to the callback, which feeds a Vosk recogniser and posts the final text.
 *
 * XFE, Vosk and `AudioRecord` are abstract: `xfe` is the preprocessor's
 * licence and processing flag, `model` and `recognizer` name the directory
 * they were built from, and what the recogniser was fed, what went to XFE
 * and what was posted to the main thread are ghost logs.
 */
module VoskService {
  import opened Pcm
  import opened Wrappers
  import opened VoiceCommon

  const ModelMissingError := "Voskモデルが初期化されていません"
  const ParseError := "音声認識の解析に失敗しました"

  /** `recognizer.finalResult`: null or empty, text that is not JSON, or a JSON object. */
  datatype FinalResult = NoFinal | Malformed | FinalJson(fields: map<string, string>)

  /** `json.optString("text", "")`. */
  function FinalText(fields: map<string, string>): (text: string)
  {
    if "text" in fields then fields["text"] else ""
  }

  /** What `SpeechEnd` posts for a final result: a result for non-empty text, an error for a malformed one. */
  function FinalPosts(final: FinalResult): (posts: seq<Post>)
    ensures |posts| <= 1
    ensures final.NoFinal? ==> posts == []
    ensures final.Malformed? ==> posts == [ErrorPosted(ParseError)]
    ensures final.FinalJson? ==> (posts != [] <==> FinalText(final.fields) != "")
    ensures posts != [] && final.FinalJson? ==> posts == [ResultPosted(FinalText(final.fields))]
  {
    match final
    case NoFinal => []
    case Malformed => [ErrorPosted(ParseError)]
    case FinalJson(fields) => if FinalText(fields) != "" then [ResultPosted(FinalText(fields))] else []
  }

  class VoskVoiceService {
    var isRecording: bool
    var isSpeechActive: bool
    var model: Option<string>
    var recognizer: Option<string>
    var xfe: Option<Xfe>
    var hasRecorder: bool
    var debugStream: bool
    /** Whether the last `startListening` was given an error callback. */
    var hasErrorCallback: bool
    /** The audio the recogniser was fed since its last reset. */
    ghost var fed: seq<seq<Byte>>
    ghost var resets: nat
    ghost var enqueued: seq<seq<Byte>>
    ghost var posted: seq<Post>

    /** The recogniser is built over the loaded model, and recording needs both, a recorder and a running XFE. */
    ghost predicate Valid()
      reads this
    {
      (recognizer.Some? ==> recognizer == model) &&
      (isRecording ==> recognizer.Some? && hasRecorder && xfe.Some? && xfe.value.processing)
    }

    constructor ()
      ensures Valid()
      ensures !isRecording && !isSpeechActive && model.None? && recognizer.None? && xfe.None?
      ensures !hasRecorder && !debugStream && !hasErrorCallback
      ensures fed == [] && resets == 0 && enqueued == [] && posted == []
    {
      isRecording := false;
      isSpeechActive := false;
      model := None;
      recognizer := None;
      xfe := None;
      hasRecorder := false;
      debugStream := false;
      hasErrorCallback := false;
      fed := [];
      resets := 0;
      enqueued := [];
      posted := [];
    }

    /**
     * `loadVoskModel`: nothing to do when both are loaded; otherwise the
     * directories are tried in order until one yields a recogniser.
     */
    method LoadVoskModel(fs: FileSystem) returns (ok: bool)
      requires Valid()
      modifies this`model, this`recognizer
      ensures Valid()
      ensures old(model).Some? && old(recognizer).Some? ==>
                ok && model == old(model) && recognizer == old(recognizer)
      ensures !(old(model).Some? && old(recognizer).Some?) ==>
                match LoadFrom(fs, ModelPaths, old(model))
                case Loaded(path) => ok && model == Some(path) && recognizer == Some(path)
                case NotLoaded(m) => !ok && model == m && recognizer.None?
    {
      if model.Some? && recognizer.Some? {
        return true;
      }
      ghost var start := model;
      var i := 0;
      while i < |ModelPaths|
        invariant 0 <= i <= |ModelPaths|
        invariant recognizer.None? && !isRecording
        invariant LoadFrom(fs, ModelPaths[i..], model) == LoadFrom(fs, ModelPaths, start)
      {
        var path := ModelPaths[i];
        assert ModelPaths[i..][1..] == ModelPaths[i + 1..];
        if path in fs.nodes && fs.nodes[path].Directory? {
          match fs.nodes[path].load {
            case ModelFails =>
            case RecognizerFails =>
              model := Some(path);
            case ModelLoads =>
              model := Some(path);
              recognizer := Some(path);
              return true;
          }
        }
        i := i + 1;
      }
      return false;
    }

    /**
     * `startListening`: ignored while recording. Otherwise the callbacks
     * are taken, and each step (a loaded model, an XFE licence, XFE
     * processing, the recorder) must succeed before the next is tried; the
     * first failure posts its error.
     */
    method StartListening(fs: FileSystem, errorCallback: bool, xfeStartCode: int, recorder: RecorderStart)
      requires Valid()
      modifies this`isRecording, this`isSpeechActive, this`xfe, this`hasRecorder, this`hasErrorCallback, this`posted
      ensures Valid()
      ensures old(isRecording) ==>
                isRecording && isSpeechActive == old(isSpeechActive) && xfe == old(xfe) &&
                hasRecorder == old(hasRecorder) && hasErrorCallback == old(hasErrorCallback) && posted == old(posted)
      ensures !old(isRecording) ==> hasErrorCallback == errorCallback
      ensures !old(isRecording) && (model.None? || recognizer.None?) ==>
                posted == old(posted) + [ErrorPosted(ModelMissingError)] && !isRecording && xfe == old(xfe)
      ensures !old(isRecording) && model.Some? && recognizer.Some? ==>
                var license := LicenseFrom(fs, LicensePaths);
                if license == [] then
                  posted == old(posted) + [ErrorPosted(XfeSetupError)] && xfe.None? && !isRecording
                else if xfeStartCode < 0 then
                  posted == old(posted) + [ErrorPosted(XfeStartError)] && xfe == Some(Xfe(license, false)) && !isRecording
                else
                  xfe == Some(Xfe(license, true)) &&
                  match recorder
                  case RecorderStarts =>
                    isRecording && !isSpeechActive && hasRecorder && posted == old(posted)
                  case RecorderThrows(message) =>
                    !isRecording && posted == old(posted) + [ErrorPosted(RecordingErrorPrefix + message)]
      // every branch that ends without recording leaves the speech flag and the recorder alone
      ensures !old(isRecording) && !isRecording ==>
                isSpeechActive == old(isSpeechActive) && hasRecorder == old(hasRecorder)
    {
      if isRecording {
        return;
      }
      hasErrorCallback := errorCallback;
      if model.None? || recognizer.None? {
        posted := posted + [ErrorPosted(ModelMissingError)];
        return;
      }
      // `setupXfe` cleans up the previous preprocessor first.
      xfe := None;
      var license := GetLicenseData(fs);
      if license == [] {
        posted := posted + [ErrorPosted(XfeSetupError)];
        return;
      }
      xfe := Some(Xfe(license, false));
      if xfeStartCode < 0 {
        posted := posted + [ErrorPosted(XfeStartError)];
        return;
      }
      xfe := Some(Xfe(license, true));
      match recorder {
        case RecorderStarts =>
          hasRecorder := true;
          isRecording := true;
          isSpeechActive := false;
        case RecorderThrows(message) =>
          isRecording := false;
          posted := posted + [ErrorPosted(RecordingErrorPrefix + message)];
      }
    }

    /**
     * The VAD callback. `SpeechStart` activates, resets the recogniser and
     * feeds it; `InSpeech` feeds it only while active; `SpeechEnd`
     * deactivates, closes the debug stream and posts what the final result
     * holds. `debugOpens` says whether the debug file could be created, and
     * `final` is what the recogniser answers.
     */
    method OnData(buffer: seq<Byte>, state: SpeechState, debugOpens: bool, final: FinalResult)
      requires Valid()
      modifies this`isSpeechActive, this`debugStream, this`fed, this`resets, this`posted
      ensures Valid()
      ensures state == SpeechStart ==>
                isSpeechActive && debugStream == debugOpens && posted == old(posted) &&
                (recognizer.Some? ==> resets == old(resets) + 1 && fed == (if |buffer| > 0 then [buffer] else [])) &&
                (recognizer.None? ==> resets == old(resets) && fed == old(fed))
      ensures state == InSpeech ==>
                isSpeechActive == old(isSpeechActive) && debugStream == old(debugStream) && posted == old(posted) &&
                resets == old(resets) &&
                fed == old(fed) + (if old(isSpeechActive) && |buffer| > 0 && recognizer.Some? then [buffer] else [])
      ensures state == SpeechEnd ==>
                !isSpeechActive && !debugStream && fed == old(fed) && resets == old(resets) &&
                posted == old(posted) + (if recognizer.Some? then FinalPosts(final) else [])
      ensures state == OtherState ==>
                isSpeechActive == old(isSpeechActive) && debugStream == old(debugStream) &&
                fed == old(fed) && resets == old(resets) && posted == old(posted)
    {
      match state {
        case SpeechStart =>
          isSpeechActive := true;
          if recognizer.Some? {
            fed := [];
            resets := resets + 1;
          }
          debugStream := debugOpens;
          if |buffer| > 0 && recognizer.Some? {
            fed := fed + [buffer];
          }
        case InSpeech =>
          if isSpeechActive && |buffer| > 0 && recognizer.Some? {
            fed := fed + [buffer];
          }
        case SpeechEnd =>
          isSpeechActive := false;
          debugStream := false;
          if recognizer.Some? {
            match final {
              case NoFinal =>
              case Malformed =>
                posted := posted + [ErrorPosted(ParseError)];
              case FinalJson(fields) =>
                var text := FinalText(fields);
                if text != "" {
                  posted := posted + [ResultPosted(text)];
                }
            }
          }
        case OtherState =>
      }
    }

    /**
     * One turn of `recordAudioLoop`: the bytes read go to XFE, a failed or
     * thrown read ends the loop, and so does a cleared `isRecording`.
     */
    method RecordStep(read: ReadOutcome, buffer: seq<Byte>) returns (goOn: bool)
      modifies this`enqueued
      ensures var outcome := if hasRecorder then read else ReadBytes(-1);
        goOn == (LoopGoesOn(outcome) && isRecording) &&
        enqueued == old(enqueued) +
                    (if outcome.ReadBytes? && Chunk(outcome.count, buffer).Some? && xfe.Some?
                     then [Chunk(outcome.count, buffer).value] else [])
    {
      var outcome := if hasRecorder then read else ReadBytes(-1);
      match outcome {
        case ReadThrows =>
          return false;
        case ReadBytes(count) =>
          if count > 0 {
            var chunk := if count < |buffer| then buffer[..count] else buffer;
            if xfe.Some? {
              enqueued := enqueued + [chunk];
            }
          } else if count < 0 {
            return false;
          }
      }
      return isRecording;
    }

    /** `stopRecording`: only while recording; XFE stops processing and the recorder and debug stream go. */
    method StopRecording()
      requires Valid()
      modifies this`isRecording, this`isSpeechActive, this`xfe, this`hasRecorder, this`debugStream
      ensures Valid() && !isRecording
      ensures !old(isRecording) ==>
                isSpeechActive == old(isSpeechActive) && xfe == old(xfe) && hasRecorder == old(hasRecorder) &&
                debugStream == old(debugStream)
      ensures old(isRecording) ==>
                !isSpeechActive && !hasRecorder && !debugStream && xfe == Some(old(xfe).value.(processing := false))
    {
      if !isRecording {
        return;
      }
      isRecording := false;
      isSpeechActive := false;
      xfe := Some(xfe.value.(processing := false));
      hasRecorder := false;
      debugStream := false;
    }

    /** `shutdown`: stop, then release XFE, the recogniser and the model. */
    method Shutdown()
      requires Valid()
      modifies this`isRecording, this`isSpeechActive, this`xfe, this`hasRecorder, this`debugStream,
               this`recognizer, this`model
      ensures Valid()
      ensures !isRecording && xfe.None? && recognizer.None? && model.None?
      ensures old(isRecording) ==> !isSpeechActive && !hasRecorder && !debugStream
      ensures !old(isRecording) ==>
                isSpeechActive == old(isSpeechActive) && hasRecorder == old(hasRecorder) &&
                debugStream == old(debugStream)
    {
      StopRecording();
      xfe := None;
      recognizer := None;
      model := None;
    }
  }
}

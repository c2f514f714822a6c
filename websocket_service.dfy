/**
 * `WebSocketVoiceService`: server-side recognition. XFE's voice-activity
 * detector cuts the microphone stream into utterances; each utterance is
 * streamed over a WebSocket opened at its start, and the server's `final`
 * or `error` message closes the socket and is handed to the callbacks.
 *
 * The socket, XFE and `AudioRecord` are abstract: the model records the
 * URLs connected to, the audio sent, the close frames and the posted
 * callbacks as ghost logs.
 */
module WebSocketService {
  import opened Pcm
  import opened Wrappers
  import opened Text
  import opened VoiceCommon

  // ---------------------------------------------------------------------------
  // The socket URL
  // ---------------------------------------------------------------------------

  /** `UserPreferences.getServerUrl()` when nothing was saved. */
  const DefaultServerUrl := "http://192.168.3.8:8000"
  const SpeechPath := "/ws/speech"

  /** Kotlin's `String.replace`: every occurrence, left to right, none overlapping. */
  function ReplaceAll(s: string, from: string, to: string): (r: string)
    requires |from| > 0
    ensures !Contains(s, from) ==> r == s
    decreases |s|
  {
    if |s| < |from| then s
    else if s[..|from|] == from then to + ReplaceAll(s[|from|..], from, to)
    else [s[0]] + ReplaceAll(s[1..], from, to)
  }

  /** A character that differs from the needle's rules out an occurrence there. */
  lemma MismatchAt(s: string, needle: string, i: nat, k: nat)
    requires k < |needle| && i + k < |s| && s[i + k] != needle[k]
    ensures !OccursAt(s, needle, i)
  {
    if i + |needle| <= |s| {
      assert s[i..i + |needle|][k] == s[i + k];
    }
  }

  /** A string without the needle's first character does not contain the needle. */
  lemma WithoutFirstChar(s: string, needle: string)
    requires |needle| > 0 && forall i :: 0 <= i < |s| ==> s[i] != needle[0]
    ensures !Contains(s, needle)
  {
    forall i | 0 <= i < |s|
      ensures !OccursAt(s, needle, i)
    {
      MismatchAt(s, needle, i, 0);
    }
    ContainsIffOccurs(s, needle);
  }

  /** A prefix of `n` characters in which no occurrence starts is copied unchanged. */
  lemma {:induction false} ReplaceAfter(s: string, n: nat, from: string, to: string)
    requires |from| > 0 && n <= |s|
    requires forall i :: 0 <= i < n ==> !OccursAt(s, from, i)
    ensures ReplaceAll(s, from, to) == s[..n] + ReplaceAll(s[n..], from, to)
    decreases n
  {
    if n == 0 {
      assert s[..0] + ReplaceAll(s[0..], from, to) == ReplaceAll(s, from, to);
    } else if |s| >= |from| {
      NoOccurrenceInTail(s, n, from);
      ReplaceAfter(s[1..], n - 1, from, to);
      ReplaceAfterStep(s, n, from, to);
    } else {
      assert ReplaceAll(s[n..], from, to) == s[n..];
      assert s[..n] + s[n..] == s;
    }
  }

  /** The inductive step of `ReplaceAfter`: the head is copied, and the tail's copied prefix follows it. */
  lemma ReplaceAfterStep(s: string, n: nat, from: string, to: string)
    requires 0 < n <= |s| && 0 < |from| <= |s| && !OccursAt(s, from, 0)
    requires ReplaceAll(s[1..], from, to) == s[1..][..n - 1] + ReplaceAll(s[1..][n - 1..], from, to)
    ensures ReplaceAll(s, from, to) == s[..n] + ReplaceAll(s[n..], from, to)
  {
    ReplaceSkipsHead(s, from, to);
    assert s[1..][n - 1..] == s[n..];
    HeadThenPrefix(s, n, ReplaceAll(s[n..], from, to));
  }

  lemma HeadThenPrefix(s: string, n: nat, rest: string)
    requires 0 < n <= |s|
    ensures [s[0]] + (s[1..][..n - 1] + rest) == s[..n] + rest
  {
    assert s[..n] == [s[0]] + s[1..][..n - 1];
  }

  /** Without an occurrence at the front, the first character is copied and the scan moves on. */
  lemma ReplaceSkipsHead(s: string, from: string, to: string)
    requires 0 < |from| <= |s| && !OccursAt(s, from, 0)
    ensures ReplaceAll(s, from, to) == [s[0]] + ReplaceAll(s[1..], from, to)
  {
    assert s[0..|from|] == s[..|from|];
  }

  /** No occurrence starting in the first `n` characters means none in the first `n - 1` after the head. */
  lemma NoOccurrenceInTail(s: string, n: nat, from: string)
    requires 0 < n <= |s|
    requires forall i :: 0 <= i < n ==> !OccursAt(s, from, i)
    ensures forall i :: 0 <= i < n - 1 ==> !OccursAt(s[1..], from, i)
  {
    forall i | 0 <= i < n - 1
      ensures !OccursAt(s[1..], from, i)
    {
      assert !OccursAt(s, from, i + 1);
      if i + |from| <= |s[1..]| {
        assert s[1..][i..i + |from|] == s[i + 1..i + 1 + |from|];
      }
    }
  }

  /** An occurrence at the front is replaced and the scan continues behind it. */
  lemma ReplaceFront(from: string, b: string, to: string)
    requires |from| > 0
    ensures ReplaceAll(from + b, from, to) == to + ReplaceAll(b, from, to)
  {
    assert (from + b)[..|from|] == from;
    assert (from + b)[|from|..] == b;
  }

  /** `connectWebSocket`'s URL: the HTTP scheme becomes WebSocket's, then the speech endpoint. */
  function WsUrl(serverUrl: string): (url: string)
    ensures |url| >= |SpeechPath| && url[|url| - |SpeechPath|..] == SpeechPath
  {
    ReplaceAll(ReplaceAll(serverUrl, "http://", "ws://"), "https://", "wss://") + SpeechPath
  }

  /** `http://host` is reached at `ws://host/ws/speech` (the `ws` scheme of section 3 of RFC 6455). */
  lemma HttpBecomesWs(host: string)
    requires !Contains(host, "http://") && !Contains(host, "https://")
    ensures WsUrl("http://" + host) == "ws://" + host + SpeechPath
  {
    ReplaceFront("http://", host, "ws://");
    forall i | 0 <= i < 5
      ensures !OccursAt("ws://" + host, "https://", i)
    {
      MismatchAt("ws://" + host, "https://", i, 0);
    }
    var s := "ws://" + host;
    ReplaceAfter(s, 5, "https://", "wss://");
    assert s[..5] == "ws://" && s[5..] == host;
  }

  /** `https://host` is reached at `wss://host/ws/speech` (the `wss` scheme of section 3 of RFC 6455). */
  lemma HttpsBecomesWss(host: string)
    requires !Contains(host, "http://") && !Contains(host, "https://")
    ensures WsUrl("https://" + host) == "wss://" + host + SpeechPath
  {
    var s := "https://" + host;
    MismatchAt(s, "http://", 0, 4);
    forall i | 1 <= i < 8
      ensures !OccursAt(s, "http://", i)
    {
      MismatchAt(s, "http://", i, 0);
    }
    ReplaceAfter(s, 8, "http://", "ws://");
    assert s[..8] == "https://" && s[8..] == host;
    ReplaceFront("https://", host, "wss://");
  }

  /** A URL with neither scheme is used as it is. */
  lemma OtherSchemeKept(serverUrl: string)
    requires !Contains(serverUrl, "http://") && !Contains(serverUrl, "https://")
    ensures WsUrl(serverUrl) == serverUrl + SpeechPath
  {
  }

  /** The default server, `http://` followed by this host, is reached at `ws://192.168.3.8:8000/ws/speech`. */
  lemma DefaultSocketUrl(host: string)
    requires host == "192.168.3.8:8000"
    ensures WsUrl("http://" + host) == "ws://192.168.3.8:8000/ws/speech"
  {
    DefaultHostBecomesWs(host);
    DefaultUrlSpelled(host);
  }

  lemma DefaultHostBecomesWs(host: string)
    requires host == "192.168.3.8:8000"
    ensures WsUrl("http://" + host) == "ws://" + host + SpeechPath
  {
    DefaultHostWithoutH(host);
    WithoutFirstChar(host, "http://");
    WithoutFirstChar(host, "https://");
    HttpBecomesWs(host);
  }

  lemma DefaultUrlSpelled(host: string)
    requires host == "192.168.3.8:8000"
    ensures "ws://" + host + SpeechPath == "ws://192.168.3.8:8000/ws/speech"
  {
  }

  /** The default host has no `h`, so neither scheme can occur in it. */
  lemma DefaultHostWithoutH(host: string)
    requires host == "192.168.3.8:8000"
    ensures forall i :: 0 <= i < |host| ==> host[i] != 'h'
  {
  }

  /** The URL starts with `scheme`, in any letter case. */
  predicate HasScheme(url: string, scheme: string)
  {
    |url| >= |scheme| && Lower(url[..|scheme|]) == scheme
  }

  /**
   * The scheme test of OkHttp's `Request.Builder.url`: `ws:` and `wss:` are
   * taken as `http:` and `https:`, and any other scheme is refused with an
   * `IllegalArgumentException`.
   */
  predicate SchemeAccepted(url: string)
  {
    HasScheme(url, "ws:") || HasScheme(url, "wss:") || HasScheme(url, "http:") || HasScheme(url, "https:")
  }

  /**
   * Whether `Request.Builder.url` takes the URL: its scheme is one of the four,
   * and `restParses` (the rest of OkHttp's URL grammar: host, port, path)
   * holds.
   */
  predicate UrlAccepted(url: string, restParses: bool)
  {
    SchemeAccepted(url) && restParses
  }

  /** A saved `http://` server gives a `ws:` URL, which passes the scheme test. */
  lemma HttpSchemeAccepted(host: string)
    requires !Contains(host, "http://") && !Contains(host, "https://")
    ensures SchemeAccepted(WsUrl("http://" + host))
  {
    HttpBecomesWs(host);
    var url := "ws://" + host + SpeechPath;
    assert url[..3] == "ws:";
    assert Lower(url[..3]) == "ws:";
  }

  /** A URL whose first character is a digit has none of the four schemes, in any case. */
  lemma LeadingDigitNoScheme(url: string)
    requires |url| > 0 && '0' <= url[0] <= '9'
    ensures !SchemeAccepted(url)
  {
    NotScheme(url, "ws:");
    NotScheme(url, "wss:");
    NotScheme(url, "http:");
    NotScheme(url, "https:");
  }

  lemma NotScheme(url: string, scheme: string)
    requires |url| > 0 && '0' <= url[0] <= '9' && |scheme| > 0 && !('0' <= scheme[0] <= '9')
    ensures !HasScheme(url, scheme)
  {
    if |url| >= |scheme| {
      assert Lower(url[..|scheme|])[0] == LowerChar(url[0]);
    }
  }

  /** A saved address starting with a digit and naming neither scheme gives a URL whose scheme test fails. */
  lemma BareHostRejected(serverUrl: string)
    requires |serverUrl| > 0 && '0' <= serverUrl[0] <= '9'
    requires !Contains(serverUrl, "http://") && !Contains(serverUrl, "https://")
    ensures !SchemeAccepted(WsUrl(serverUrl))
  {
    OtherSchemeKept(serverUrl);
    assert (serverUrl + SpeechPath)[0] == serverUrl[0];
    LeadingDigitNoScheme(WsUrl(serverUrl));
  }

  /** The default host saved without its scheme, as the settings screen allows, is refused. */
  lemma DefaultHostAloneRejected(host: string)
    requires host == "192.168.3.8:8000"
    ensures !SchemeAccepted(WsUrl(host))
  {
    DefaultHostWithoutH(host);
    WithoutFirstChar(host, "http://");
    WithoutFirstChar(host, "https://");
    BareHostRejected(host);
  }

  // ---------------------------------------------------------------------------
  // Server messages
  // ---------------------------------------------------------------------------

  /** Status code 1000, normal closure (section 7.4.1 of RFC 6455). */
  const NormalClosure := 1000
  const ConnectionFailed := "WebSocket connection failed"

  /** A text frame from the server: not a JSON object, or one with string fields. */
  datatype ServerMessage = Unparsable | Json(fields: map<string, string>)

  datatype MessageAction = Ignore | Finish(text: string) | Fail(error: string)

  /** `onMessage`'s `when`: `partial` first, then `final`, then `error`; anything else is ignored. */
  function Dispatch(message: ServerMessage): (action: MessageAction)
    ensures action.Finish? <==> message.Json? && "partial" !in message.fields && "final" in message.fields
    ensures action.Fail? <==>
              message.Json? && "partial" !in message.fields && "final" !in message.fields && "error" in message.fields
    ensures action.Finish? ==> action.text == message.fields["final"]
    ensures action.Fail? ==> action.error == message.fields["error"]
  {
    match message
    case Unparsable => Ignore
    case Json(fields) =>
      if "partial" in fields then Ignore
      else if "final" in fields then Finish(fields["final"])
      else if "error" in fields then Fail(fields["error"])
      else Ignore
  }

  /** A partial result, however it is accompanied, is never delivered. */
  lemma PartialIgnored(fields: map<string, string>)
    requires "partial" in fields
    ensures Dispatch(Json(fields)) == Ignore
  {
  }

  // ---------------------------------------------------------------------------
  // The service
  // ---------------------------------------------------------------------------

  /** An open socket, by the URL it was opened at. */
  datatype Socket = Socket(url: string)

  class WebSocketVoiceService {
    var webSocket: Option<Socket>
    var isRecording: bool
    var isSpeechActive: bool
    var xfe: Option<Xfe>
    var hasRecorder: bool
    var hasErrorCallback: bool
    ghost var connected: seq<string>
    ghost var sent: seq<seq<Byte>>
    /** Close frames sent: status code and reason. */
    ghost var closes: seq<(int, string)>
    ghost var enqueued: seq<seq<Byte>>
    ghost var posted: seq<Post>

    /** Recording needs a recorder and a running XFE. */
    ghost predicate Valid()
      reads this
    {
      isRecording ==> hasRecorder && xfe.Some? && xfe.value.processing
    }

    constructor ()
      ensures Valid()
      ensures webSocket.None? && !isRecording && !isSpeechActive && xfe.None? && !hasRecorder && !hasErrorCallback
      ensures connected == [] && sent == [] && closes == [] && enqueued == [] && posted == []
    {
      webSocket := None;
      isRecording := false;
      isSpeechActive := false;
      xfe := None;
      hasRecorder := false;
      hasErrorCallback := false;
      connected := [];
      sent := [];
      closes := [];
      enqueued := [];
      posted := [];
    }

    /**
     * `connectWebSocket`: nothing when a socket exists, else open one at the
     * derived URL. When `Request.Builder.url` refuses the URL, the exception
     * leaves the call (`thrown`) before any socket is opened.
     */
    method ConnectWebSocket(serverUrl: string, restParses: bool) returns (thrown: bool)
      modifies this`webSocket, this`connected
      ensures thrown <==> old(webSocket).None? && !UrlAccepted(WsUrl(serverUrl), restParses)
      ensures old(webSocket).Some? || thrown ==> webSocket == old(webSocket) && connected == old(connected)
      ensures old(webSocket).None? && !thrown ==>
                webSocket == Some(Socket(WsUrl(serverUrl))) && connected == old(connected) + [WsUrl(serverUrl)]
    {
      if webSocket.Some? {
        return false;
      }
      var url := WsUrl(serverUrl);
      if !UrlAccepted(url, restParses) {
        return true;
      }
      webSocket := Some(Socket(url));
      connected := connected + [url];
      return false;
    }

    /** Send a non-empty buffer over the socket, if there is one. */
    method Send(buffer: seq<Byte>)
      modifies this`sent
      ensures sent == old(sent) + (if |buffer| > 0 && webSocket.Some? then [buffer] else [])
    {
      if |buffer| > 0 && webSocket.Some? {
        sent := sent + [buffer];
      }
    }

    /**
     * The VAD callback. `SpeechStart` activates, connects when there is no
     * socket and sends; `InSpeech` sends only while active; `SpeechEnd`
     * deactivates and sends the last buffer but keeps the socket open for
     * the answer. `serverUrl` is the saved server URL at that moment and
     * `restParses` whether OkHttp parses the rest of the derived URL; a
     * refused URL throws out of the callback before anything is sent.
     */
    method OnData(buffer: seq<Byte>, state: SpeechState, serverUrl: string, restParses: bool)
      requires Valid()
      modifies this`isSpeechActive, this`webSocket, this`connected, this`sent
      ensures Valid()
      ensures state == SpeechStart && old(webSocket).Some? ==>
                isSpeechActive && webSocket == old(webSocket) && connected == old(connected) &&
                sent == old(sent) + (if |buffer| > 0 then [buffer] else [])
      ensures state == SpeechStart && old(webSocket).None? && UrlAccepted(WsUrl(serverUrl), restParses) ==>
                isSpeechActive &&
                webSocket == Some(Socket(WsUrl(serverUrl))) && connected == old(connected) + [WsUrl(serverUrl)] &&
                sent == old(sent) + (if |buffer| > 0 then [buffer] else [])
      ensures state == SpeechStart && old(webSocket).None? && !UrlAccepted(WsUrl(serverUrl), restParses) ==>
                isSpeechActive && webSocket.None? && connected == old(connected) && sent == old(sent)
      ensures state == InSpeech ==>
                isSpeechActive == old(isSpeechActive) && webSocket == old(webSocket) && connected == old(connected) &&
                sent == old(sent) + (if old(isSpeechActive) && |buffer| > 0 && webSocket.Some? then [buffer] else [])
      ensures state == SpeechEnd ==>
                !isSpeechActive && webSocket == old(webSocket) && connected == old(connected) &&
                sent == old(sent) + (if |buffer| > 0 && webSocket.Some? then [buffer] else [])
      ensures state == OtherState ==>
                isSpeechActive == old(isSpeechActive) && webSocket == old(webSocket) && connected == old(connected) &&
                sent == old(sent)
    {
      match state {
        case SpeechStart =>
          isSpeechActive := true;
          if webSocket.None? {
            var thrown := ConnectWebSocket(serverUrl, restParses);
            if thrown {
              return;
            }
          }
          Send(buffer);
        case InSpeech =>
          if isSpeechActive && |buffer| > 0 && webSocket.Some? {
            Send(buffer);
          }
        case SpeechEnd =>
          isSpeechActive := false;
          Send(buffer);
        case OtherState =>
      }
    }

    /** Close the current socket, if any, with a normal closure, and forget it. */
    method CloseSocket(reason: string)
      modifies this`webSocket, this`closes
      ensures webSocket.None?
      ensures closes == old(closes) + (if old(webSocket).Some? then [(NormalClosure, reason)] else [])
    {
      if webSocket.Some? {
        closes := closes + [(NormalClosure, reason)];
      }
      webSocket := None;
    }

    /**
     * `onMessage`: a final result or a server error closes the current
     * socket and is posted; everything else is only logged. Recording
     * carries on either way.
     */
    method OnMessage(message: ServerMessage)
      requires Valid()
      modifies this`webSocket, this`closes, this`posted
      ensures Valid()
      ensures Dispatch(message).Ignore? ==>
                webSocket == old(webSocket) && closes == old(closes) && posted == old(posted)
      ensures Dispatch(message).Finish? ==>
                webSocket.None? && posted == old(posted) + [ResultPosted(Dispatch(message).text)] &&
                closes == old(closes) + (if old(webSocket).Some? then [(NormalClosure, "Recognition complete")] else [])
      ensures Dispatch(message).Fail? ==>
                webSocket.None? && posted == old(posted) + [ErrorPosted(Dispatch(message).error)] &&
                closes == old(closes) + (if old(webSocket).Some? then [(NormalClosure, "Error")] else [])
    {
      match message {
        case Unparsable =>
        case Json(fields) =>
          if "partial" in fields {
          } else if "final" in fields {
            var text := fields["final"];
            CloseSocket("Recognition complete");
            posted := posted + [ResultPosted(text)];
          } else if "error" in fields {
            var error := fields["error"];
            CloseSocket("Error");
            posted := posted + [ErrorPosted(error)];
          }
      }
    }

    /** `onFailure`: the socket is dropped without a close frame and the failure is posted. */
    method OnFailure(message: Option<string>)
      modifies this`webSocket, this`posted
      ensures webSocket.None?
      ensures posted == old(posted) + [ErrorPosted(message.GetOr(ConnectionFailed))]
    {
      webSocket := None;
      posted := posted + [ErrorPosted(message.GetOr(ConnectionFailed))];
    }

    /**
     * `startListening`: ignored while recording. Otherwise the callbacks
     * are taken, then the XFE licence, XFE processing and the recorder
     * must each succeed; the first failure posts its error. Unlike the
     * on-device service there is no model to check and the previous
     * preprocessor is not cleaned up first.
     */
    method StartListening(fs: FileSystem, errorCallback: bool, xfeStartCode: int, recorder: RecorderStart)
      requires Valid()
      modifies this`isRecording, this`isSpeechActive, this`xfe, this`hasRecorder, this`hasErrorCallback, this`posted
      ensures Valid()
      ensures old(isRecording) ==>
                isRecording && isSpeechActive == old(isSpeechActive) && xfe == old(xfe) &&
                hasRecorder == old(hasRecorder) && hasErrorCallback == old(hasErrorCallback) && posted == old(posted)
      ensures !old(isRecording) ==>
                hasErrorCallback == errorCallback &&
                var license := LicenseFrom(fs, LicensePaths);
                if license == [] then
                  posted == old(posted) + [ErrorPosted(XfeSetupError)] && xfe == old(xfe) && !isRecording
                else if xfeStartCode < 0 then
                  posted == old(posted) + [ErrorPosted(XfeStartError)] && xfe == Some(Xfe(license, false)) && !isRecording
                else
                  xfe == Some(Xfe(license, true)) &&
                  match recorder
                  case RecorderStarts =>
                    isRecording && !isSpeechActive && hasRecorder && posted == old(posted)
                  case RecorderThrows(message) =>
                    !isRecording && posted == old(posted) + [ErrorPosted(RecordingErrorPrefix + message)]
      // every branch that ends without recording leaves the speech flag and the recorder alone
      ensures !old(isRecording) && !isRecording ==>
                isSpeechActive == old(isSpeechActive) && hasRecorder == old(hasRecorder)
    {
      if isRecording {
        return;
      }
      hasErrorCallback := errorCallback;
      var license := GetLicenseData(fs);
      if license == [] {
        posted := posted + [ErrorPosted(XfeSetupError)];
        return;
      }
      xfe := Some(Xfe(license, false));
      if xfeStartCode < 0 {
        posted := posted + [ErrorPosted(XfeStartError)];
        return;
      }
      xfe := Some(Xfe(license, true));
      match recorder {
        case RecorderStarts =>
          hasRecorder := true;
          isRecording := true;
          isSpeechActive := false;
        case RecorderThrows(message) =>
          isRecording := false;
          posted := posted + [ErrorPosted(RecordingErrorPrefix + message)];
      }
    }

    /** One turn of `recordAudioLoop`, as in the on-device service. */
    method RecordStep(read: ReadOutcome, buffer: seq<Byte>) returns (goOn: bool)
      modifies this`enqueued
      ensures var outcome := if hasRecorder then read else ReadBytes(-1);
        goOn == (LoopGoesOn(outcome) && isRecording) &&
        enqueued == old(enqueued) +
                    (if outcome.ReadBytes? && Chunk(outcome.count, buffer).Some? && xfe.Some?
                     then [Chunk(outcome.count, buffer).value] else [])
    {
      var outcome := if hasRecorder then read else ReadBytes(-1);
      match outcome {
        case ReadThrows =>
          return false;
        case ReadBytes(count) =>
          if count > 0 {
            var chunk := if count < |buffer| then buffer[..count] else buffer;
            if xfe.Some? {
              enqueued := enqueued + [chunk];
            }
          } else if count < 0 {
            return false;
          }
      }
      return isRecording;
    }

    /** `stopRecording`: only while recording; XFE stops, the recorder goes and the socket is closed. */
    method StopRecording()
      requires Valid()
      modifies this`isRecording, this`isSpeechActive, this`xfe, this`hasRecorder, this`webSocket, this`closes
      ensures Valid() && !isRecording
      ensures !old(isRecording) ==>
                isSpeechActive == old(isSpeechActive) && xfe == old(xfe) && hasRecorder == old(hasRecorder) &&
                webSocket == old(webSocket) && closes == old(closes)
      ensures old(isRecording) ==>
                !isSpeechActive && !hasRecorder && webSocket.None? && xfe == Some(old(xfe).value.(processing := false)) &&
                closes == old(closes) + (if old(webSocket).Some? then [(NormalClosure, "Recording stopped")] else [])
    {
      if !isRecording {
        return;
      }
      isRecording := false;
      isSpeechActive := false;
      xfe := Some(xfe.value.(processing := false));
      hasRecorder := false;
      CloseSocket("Recording stopped");
    }

    /** `shutdown`: stop, then release XFE. */
    method Shutdown()
      requires Valid()
      modifies this`isRecording, this`isSpeechActive, this`xfe, this`hasRecorder, this`webSocket, this`closes
      ensures Valid() && !isRecording && xfe.None?
      ensures old(isRecording) ==>
                !isSpeechActive && !hasRecorder && webSocket.None? &&
                closes == old(closes) + (if old(webSocket).Some? then [(NormalClosure, "Recording stopped")] else [])
      ensures !old(isRecording) ==>
                isSpeechActive == old(isSpeechActive) && hasRecorder == old(hasRecorder) &&
                webSocket == old(webSocket) && closes == old(closes)
    {
      StopRecording();
      xfe := None;
    }
  }
}

/**
 * `VoiceAssistant`: the keyword classifier that turns recognised speech
 * into a `VoiceCommand`, and the `isListening` flag that the platform
 * recogniser's listener and the start/stop calls maintain.
 */
module VoiceAssistant {
  import opened Text
  import opened Models
  import opened Wrappers

  /** The three `RECORD_MEAL` alternatives, on normalised text `n`. */
  predicate RecordRule(n: string)
  {
    (Contains(n, "ご飯") && (Contains(n, "記録") || Contains(n, "撮") || Contains(n, "写真"))) ||
    (Contains(n, "食事") && (Contains(n, "記録") || Contains(n, "撮"))) ||
    Contains(n, "記録して") || Contains(n, "撮影して")
  }

  predicate HistoryRule(n: string)
  {
    Contains(n, "履歴") || (Contains(n, "今日") && Contains(n, "食事"))
  }

  predicate AdviceRule(n: string)
  {
    Contains(n, "アドバイス") || Contains(n, "助言")
  }

  predicate MenuRule(n: string)
  {
    Contains(n, "献立") || Contains(n, "メニュー") || Contains(n, "おすすめ")
  }

  predicate YesRule(n: string)
  {
    Contains(n, "はい") || Contains(n, "うん") || Contains(n, "そう") || Contains(n, "おねがい")
  }

  predicate NoRule(n: string)
  {
    Contains(n, "いいえ") || Contains(n, "違") || Contains(n, "ちがう")
  }

  predicate CancelRule(n: string)
  {
    Contains(n, "キャンセル") || Contains(n, "やめ") || Contains(n, "中止")
  }

  /**
   * `parseCommand`: normalise, then try the rules in order; the first rule
   * that fires decides, and text no rule fires on is `UNKNOWN`.
   */
  function ParseCommand(text: string): (c: VoiceCommand)
    ensures var n := Normalize(text);
      (c == RecordMeal <==> RecordRule(n)) &&
      (c == ViewHistory <==> !RecordRule(n) && HistoryRule(n)) &&
      (c == GetAdvice <==> !RecordRule(n) && !HistoryRule(n) && AdviceRule(n)) &&
      (c == SuggestMenu <==> !RecordRule(n) && !HistoryRule(n) && !AdviceRule(n) && MenuRule(n)) &&
      (c == ConfirmYes <==> !RecordRule(n) && !HistoryRule(n) && !AdviceRule(n) && !MenuRule(n) && YesRule(n)) &&
      (c == ConfirmNo <==> !RecordRule(n) && !HistoryRule(n) && !AdviceRule(n) && !MenuRule(n) && !YesRule(n) &&
                           NoRule(n)) &&
      (c == Cancel <==> !RecordRule(n) && !HistoryRule(n) && !AdviceRule(n) && !MenuRule(n) && !YesRule(n) &&
                        !NoRule(n) && CancelRule(n))
  {
    var n := Normalize(text);
    if RecordRule(n) then RecordMeal
    else if HistoryRule(n) then ViewHistory
    else if AdviceRule(n) then GetAdvice
    else if MenuRule(n) then SuggestMenu
    else if YesRule(n) then ConfirmYes
    else if NoRule(n) then ConfirmNo
    else if CancelRule(n) then Cancel
    else Unknown
  }

  /** Text no rule fires on is `UNKNOWN`, and only such text. */
  lemma UnknownIffNoRule(text: string)
    ensures var n := Normalize(text);
      ParseCommand(text) == Unknown <==>
        !RecordRule(n) && !HistoryRule(n) && !AdviceRule(n) && !MenuRule(n) &&
        !YesRule(n) && !NoRule(n) && !CancelRule(n)
  {
  }

  /** Whitespace inserted anywhere never changes the command. */
  lemma ParseIgnoresWhitespace(a: string, w: string, b: string)
    requires AllRegexSpace(w)
    ensures ParseCommand(a + w + b) == ParseCommand(a + b)
  {
    NormalizeIgnoresSpaces(a, w, b);
  }

  /**
   * An ideographic space from a Japanese input method inside a record request
   * is ignored: "記録\u3000して" records a meal, as "記録して" does.
   */
  lemma IdeographicSpaceRecords(a: string, b: string)
    requires Contains(a + b, "記録して")
    ensures ParseCommand(a + "\U{3000}" + b) == RecordMeal
  {
    assert AllRegexSpace("\U{3000}");
    ParseIgnoresWhitespace(a, "\U{3000}", b);
    RecordRequestWins(a + b);
  }

  /** Lowercasing first never changes the command. */
  lemma ParseIgnoresCase(text: string)
    ensures ParseCommand(Lower(text)) == ParseCommand(text)
  {
    LowerFixes(text);
  }

  /** "記録して" anywhere in the text records a meal, whatever else is said ("はい" included). */
  lemma RecordRequestWins(text: string)
    requires Contains(text, "記録して")
    ensures ParseCommand(text) == RecordMeal
  {
    KeywordSurvives(text, "記録して");
  }

  /** "ご飯" together with any of 記録/撮/写真 records a meal. */
  lemma GohanRecords(text: string, k: string)
    requires k == "記録" || k == "撮" || k == "写真"
    requires Contains(text, "ご飯") && Contains(text, k)
    ensures ParseCommand(text) == RecordMeal
  {
    KeywordSurvives(text, "ご飯");
    KeywordSurvives(text, k);
  }

  /** "履歴", or "今日" with "食事", asks for the history unless a meal-recording rule came first. */
  lemma HistoryUnlessRecord(text: string)
    requires Contains(text, "履歴") || (Contains(text, "今日") && Contains(text, "食事"))
    ensures ParseCommand(text) == ViewHistory <==> !RecordRule(Normalize(text))
  {
    if Contains(text, "履歴") {
      KeywordSurvives(text, "履歴");
    } else {
      KeywordSurvives(text, "今日");
      KeywordSurvives(text, "食事");
    }
  }

  /** A menu keyword asks for a suggestion exactly when no earlier rule fired. */
  lemma MenuUnlessEarlier(text: string, k: string)
    requires k == "献立" || k == "メニュー" || k == "おすすめ"
    requires Contains(text, k)
    ensures var n := Normalize(text);
      ParseCommand(text) == SuggestMenu <==> !RecordRule(n) && !HistoryRule(n) && !AdviceRule(n)
  {
    KeywordSurvives(text, k);
  }

  /** `SpeechRecognizer` error codes. */
  const ErrorNetworkTimeout := 1
  const ErrorNetwork := 2
  const ErrorAudio := 3
  const ErrorNoMatch := 7
  const ErrorRecognizerBusy := 8
  const ErrorInsufficientPermissions := 9

  predicate KnownError(code: int)
  {
    code in {ErrorNetworkTimeout, ErrorNetwork, ErrorAudio, ErrorNoMatch, ErrorRecognizerBusy,
             ErrorInsufficientPermissions}
  }

  /** The message `handleError` speaks for a recogniser error code: a specific one exactly for the six known codes. */
  function ErrorMessage(code: int): (m: string)
    ensures m == "不明なエラー" <==> !KnownError(code)
    ensures code == ErrorAudio ==> m == "音声入力エラー"
    ensures code == ErrorNetwork ==> m == "ネットワークエラー"
    ensures code == ErrorNetworkTimeout ==> m == "ネットワークタイムアウト"
    ensures code == ErrorNoMatch ==> m == "認識できませんでした"
    ensures code == ErrorRecognizerBusy ==> m == "音声認識が使用中です"
    ensures code == ErrorInsufficientPermissions ==> m == "権限が不足しています"
  {
    if code == ErrorAudio then "音声入力エラー"
    else if code == ErrorNetwork then "ネットワークエラー"
    else if code == ErrorNetworkTimeout then "ネットワークタイムアウト"
    else if code == ErrorNoMatch then "認識できませんでした"
    else if code == ErrorRecognizerBusy then "音声認識が使用中です"
    else if code == ErrorInsufficientPermissions then "権限が不足しています"
    else "不明なエラー"
  }

  /** What the assistant asks of the platform recogniser. */
  datatype RecognizerCall = StartRecognition | StopRecognition

  class VoiceAssistant {
    var isListening: bool
    /** `speechRecognizer` is non-null: recognition was available when the assistant was created. */
    const hasRecognizer: bool
    ghost var calls: seq<RecognizerCall>
    /** The `(command, text)` pairs handed to `onCommandReceived`. */
    ghost var delivered: seq<(VoiceCommand, string)>
    ghost var spoken: seq<string>

    constructor (recognitionAvailable: bool)
      ensures !isListening && hasRecognizer == recognitionAvailable
      ensures calls == [] && delivered == [] && spoken == []
    {
      isListening := false;
      hasRecognizer := recognitionAvailable;
      calls := [];
      delivered := [];
      spoken := [];
    }

    /**
     * `startListening`: nothing while listening; otherwise the recogniser
     * (when there is one) is asked to start. The flag is left to `onReadyForSpeech`.
     */
    method StartListening()
      modifies this`calls
      ensures isListening == old(isListening)
      ensures old(isListening) ==> calls == old(calls)
      ensures !old(isListening) ==> calls == old(calls) + (if hasRecognizer then [StartRecognition] else [])
    {
      if isListening {
        return;
      }
      if hasRecognizer {
        calls := calls + [StartRecognition];
      }
    }

    /** `stopListening`: acts, and clears the flag, only while listening. */
    method StopListening()
      modifies this`isListening, this`calls
      ensures !isListening
      ensures !old(isListening) ==> calls == old(calls)
      ensures old(isListening) ==> calls == old(calls) + (if hasRecognizer then [StopRecognition] else [])
    {
      if isListening {
        if hasRecognizer {
          calls := calls + [StopRecognition];
        }
        isListening := false;
      }
    }

    method OnReadyForSpeech()
      modifies this`isListening
      ensures isListening
    {
      isListening := true;
    }

    method OnEndOfSpeech()
      modifies this`isListening
      ensures !isListening
    {
      isListening := false;
    }

    /** `onError`: stop listening and apologise; the restart follows when the apology is spoken. */
    method OnError(code: int)
      modifies this`isListening, this`spoken
      ensures !isListening
      ensures spoken == old(spoken) + ["すみません、" + ErrorMessage(code) + "。もう一度お願いします。"]
    {
      isListening := false;
      spoken := spoken + ["すみません、" + ErrorMessage(code) + "。もう一度お願いします。"];
    }

    /** The apology has been spoken: listen again. */
    method OnApologySpoken()
      modifies this`calls
      ensures isListening == old(isListening)
      ensures !old(isListening) && hasRecognizer ==> calls == old(calls) + [StartRecognition]
      ensures old(isListening) || !hasRecognizer ==> calls == old(calls)
    {
      StartListening();
    }

    /**
     * `onResults`: the best match, when there is one, is classified and
     * delivered; listening stops either way.
     */
    method OnResults(matches: Option<seq<string>>)
      modifies this`isListening, this`delivered
      ensures !isListening
      ensures matches.Some? && |matches.value| > 0 ==>
                delivered == old(delivered) + [(ParseCommand(matches.value[0]), matches.value[0])]
      ensures matches.None? || |matches.value| == 0 ==> delivered == old(delivered)
    {
      if matches.Some? && |matches.value| > 0 {
        var text := matches.value[0];
        delivered := delivered + [(ParseCommand(text), text)];
      }
      isListening := false;
    }
  }
}

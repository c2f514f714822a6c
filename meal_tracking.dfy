/**
 * `MealTrackingService`: the voice-driven service that moves the app
 * through its `AppState`s. Each voice command is handled synchronously;
 * what the camera, the analyzer and the server report later arrives as a
 * separate event (`OnPhotoTaken`, `OnAnalysisResult`, `OnHistory`,
 * `OnAdvice`). What the service says is kept in a ghost log of utterances
 * and what it asks of other components in a ghost log of requests.
 */
module MealTracking {
  import opened Models
  import opened Wrappers

  /** `voiceAssistant.speak(text)` or `voiceAssistant.speakAndListen(text)`. */
  datatype Utterance = Speak(text: string) | SpeakAndListen(text: string)

  /** Work handed to another component, whose outcome arrives as a later event. */
  datatype Request =
    | PhotoAfterCountdown
    | Analyze(photo: string, userId: string)
    | History(userId: string, limit: nat)
    | Advice(userId: string, context: string)

  const Greeting := "こんにちは。食事を記録しますか？"
  const UnknownReply := "すみません、もう一度お願いします。「ご飯を記録して」「アドバイスちょうだい」などと言ってください。"
  const BusyReply := "今は処理中です。少しお待ちください。"
  const CountdownReply := "写真を撮ります。3、2、1"
  const PhotoFailedReply := "撮影に失敗しました。もう一度やり直しますか？"
  const AnalyzingReply := "解析中です..."
  const AnalysisFailedReply := "解析に失敗しました。もう一度試しますか？"
  const WhatToConfirmReply := "何を確認しますか？"
  const CorrectOrCancelReply := "内容を修正しますか？それともキャンセルしますか？"
  const UnderstoodReply := "分かりました。他にできることはありますか？"
  const CancelledReply := "キャンセルしました。他にできることはありますか？"
  const AnythingElse := " 他にできることはありますか？"
  const AdviceFailedReply := "アドバイスの取得に失敗しました。"
  const NoHistoryReply := "まだ食事の記録がありません。"
  const HistoryFailedReply := "履歴の取得に失敗しました。"
  const HistoryHeader := "直近の食事記録です。"
  const HistoryFooter := "以上です。"
  const HistoryLimit: nat := 5
  const SummaryLimit: nat := 3

  /** Each description followed by `、`, in order. */
  function Listing(descriptions: seq<string>): (listing: string)
  {
    if |descriptions| == 0 then "" else descriptions[0] + "、" + Listing(descriptions[1..])
  }

  /** `take(n)`: the first `n` elements, or all of them when there are fewer. */
  function Take<T>(xs: seq<T>, n: nat): (ys: seq<T>)
    ensures |ys| <= n && |ys| <= |xs| && ys == xs[..|ys|]
    ensures |ys| == n || ys == xs
  {
    if |xs| <= n then xs else xs[..n]
  }

  /** The history summary: header, the first three descriptions, footer. */
  function HistorySummary(descriptions: seq<string>): (summary: string)
  {
    HistoryHeader + Listing(Take(descriptions, SummaryLimit)) + HistoryFooter
  }

  /** What `handleViewHistory` says for a server reply (`None`: the call failed). */
  function HistoryReply(meals: Option<seq<string>>): (text: string)
    ensures meals.None? ==> text == HistoryFailedReply
    ensures meals == Some([]) ==> text == NoHistoryReply
    ensures meals.Some? && meals.value != [] ==> text == HistorySummary(meals.value)
  {
    match meals
    case None => HistoryFailedReply
    case Some(ms) => if ms == [] then NoHistoryReply else HistorySummary(ms)
  }

  /** Meals after the third never reach the summary. */
  lemma HistoryIgnoresLaterMeals(descriptions: seq<string>, later: seq<string>)
    requires |descriptions| >= SummaryLimit
    ensures HistorySummary(descriptions + later) == HistorySummary(descriptions)
  {
    assert (descriptions + later)[..SummaryLimit] == descriptions[..SummaryLimit];
  }

  /** With three or more meals the summary lists exactly the first three, in order. */
  lemma {:induction false} HistoryOfThree(descriptions: seq<string>)
    requires |descriptions| >= 3
    ensures HistorySummary(descriptions) ==
              HistoryHeader + descriptions[0] + "、" + descriptions[1] + "、" +
              descriptions[2] + "、" + HistoryFooter
  {
    var firstThree := descriptions[..3];
    assert Take(descriptions, SummaryLimit) == firstThree;
    assert firstThree[1..][1..][1..] == [];
    assert Listing(firstThree[1..][1..]) == descriptions[2] + "、" + Listing([]);
    assert Listing(firstThree[1..]) == descriptions[1] + "、" + (descriptions[2] + "、");
    assert Listing(firstThree) == descriptions[0] + "、" + (descriptions[1] + "、" + (descriptions[2] + "、"));
  }

  /** With fewer than three meals the summary lists every one of them. */
  lemma ShortHistory(descriptions: seq<string>)
    requires |descriptions| < SummaryLimit
    ensures HistorySummary(descriptions) == HistoryHeader + Listing(descriptions) + HistoryFooter
  {
  }

  class MealTrackingService {
    var currentState: AppState
    const currentUserId: string
    /** Every state `currentState` was set to, in order, starting with the initial `Idle`. */
    ghost var visited: seq<AppState>
    ghost var speech: seq<Utterance>
    ghost var requests: seq<Request>

    /** The last state entered is the current one. */
    ghost predicate Valid()
      reads this
    {
      |visited| > 0 && visited[|visited| - 1] == currentState
    }

    /** The field initialisers and `onCreate`: start `Idle` and greet the user. */
    constructor ()
      ensures Valid() && currentState == Idle && currentUserId == "default_user"
      ensures visited == [Idle] && speech == [SpeakAndListen(Greeting)] && requests == []
    {
      currentState := Idle;
      currentUserId := "default_user";
      visited := [Idle];
      speech := [SpeakAndListen(Greeting)];
      requests := [];
    }

    method SetState(s: AppState)
      requires Valid()
      modifies this`currentState, this`visited
      ensures Valid() && currentState == s && visited == old(visited) + [s]
    {
      currentState := s;
      visited := visited + [s];
    }

    method Say(u: Utterance)
      modifies this`speech
      ensures speech == old(speech) + [u]
    {
      speech := speech + [u];
    }

    method Ask(r: Request)
      modifies this`requests
      ensures requests == old(requests) + [r]
    {
      requests := requests + [r];
    }

    /** `handleVoiceCommand`: the dispatch on the recognised command. */
    method HandleVoiceCommand(command: VoiceCommand, text: string)
      requires Valid()
      modifies this`currentState, this`visited, this`speech, this`requests
      ensures Valid()
      ensures command == RecordMeal && old(currentState) == Idle ==>
                currentState == TakingPhoto && visited == old(visited) + [TakingPhoto] &&
                speech == old(speech) + [Speak(CountdownReply)] && requests == old(requests) + [PhotoAfterCountdown]
      ensures command == RecordMeal && old(currentState) != Idle ==>
                currentState == old(currentState) && visited == old(visited) &&
                speech == old(speech) + [Speak(BusyReply)] && requests == old(requests)
      ensures command == ViewHistory ==>
                currentState == old(currentState) && visited == old(visited) && speech == old(speech) &&
                requests == old(requests) + [History(currentUserId, HistoryLimit)]
      ensures command == GetAdvice || command == SuggestMenu ==>
                currentState == ShowingAdvice("") && visited == old(visited) + [ShowingAdvice("")] &&
                speech == old(speech) && requests == old(requests) + [Advice(currentUserId, text)]
      ensures command == ConfirmYes && old(currentState).ConfirmingMeal? ==>
                currentState == Idle && visited == old(visited) + [Idle] && requests == old(requests) &&
                speech == old(speech) + [SpeakAndListen("記録しました。" + old(currentState).result.advice + AnythingElse)]
      ensures command == ConfirmYes && !old(currentState).ConfirmingMeal? ==>
                currentState == old(currentState) && visited == old(visited) && requests == old(requests) &&
                speech == old(speech) + [SpeakAndListen(WhatToConfirmReply)]
      ensures command == ConfirmNo && old(currentState).ConfirmingMeal? ==>
                currentState == old(currentState) && visited == old(visited) && requests == old(requests) &&
                speech == old(speech) + [SpeakAndListen(CorrectOrCancelReply)]
      ensures command == ConfirmNo && !old(currentState).ConfirmingMeal? ==>
                currentState == Idle && visited == old(visited) + [Idle] && requests == old(requests) &&
                speech == old(speech) + [SpeakAndListen(UnderstoodReply)]
      ensures command == Cancel ==>
                currentState == Idle && visited == old(visited) + [Idle] && requests == old(requests) &&
                speech == old(speech) + [SpeakAndListen(CancelledReply)]
      ensures command == Unknown ==>
                currentState == old(currentState) && visited == old(visited) && requests == old(requests) &&
                speech == old(speech) + [SpeakAndListen(UnknownReply)]
    {
      match command
      case RecordMeal => HandleRecordMeal();
      case ViewHistory => HandleViewHistory();
      case GetAdvice => HandleGetAdvice(text);
      case SuggestMenu => HandleGetAdvice(text);
      case ConfirmYes => HandleConfirmYes();
      case ConfirmNo => HandleConfirmNo();
      case Cancel => HandleCancel();
      case Unknown => Say(SpeakAndListen(UnknownReply));
    }

    /** `handleRecordMeal`: only an idle service starts the photo countdown. */
    method HandleRecordMeal()
      requires Valid()
      modifies this`currentState, this`visited, this`speech, this`requests
      ensures Valid()
      ensures old(currentState) != Idle ==>
                currentState == old(currentState) && visited == old(visited) &&
                speech == old(speech) + [Speak(BusyReply)] && requests == old(requests)
      ensures old(currentState) == Idle ==>
                currentState == TakingPhoto && visited == old(visited) + [TakingPhoto] &&
                speech == old(speech) + [Speak(CountdownReply)] && requests == old(requests) + [PhotoAfterCountdown]
    {
      if currentState != Idle {
        Say(Speak(BusyReply));
        return;
      }
      SetState(TakingPhoto);
      Say(Speak(CountdownReply));
      Ask(PhotoAfterCountdown);
    }

    /**
     * The countdown's completion: a photo (its path) starts `analyzeMeal`,
     * a capture failure (`None`) returns to `Idle`.
     */
    method OnPhotoTaken(photo: Option<string>)
      requires Valid()
      modifies this`currentState, this`visited, this`speech, this`requests
      ensures Valid()
      ensures visited == old(visited) + [if photo.Some? then Analyzing(QuickStage) else Idle]
      ensures photo.Some? ==>
                currentState == Analyzing(QuickStage) && speech == old(speech) + [Speak(AnalyzingReply)] &&
                requests == old(requests) + [Analyze(photo.value, currentUserId)]
      ensures photo.None? ==>
                currentState == Idle && speech == old(speech) + [SpeakAndListen(PhotoFailedReply)] &&
                requests == old(requests)
    {
      match photo
      case Some(path) => AnalyzeMeal(path);
      case None =>
        Say(SpeakAndListen(PhotoFailedReply));
        SetState(Idle);
    }

    /** `analyzeMeal`: enter the quick analysis stage and start the analyzer. */
    method AnalyzeMeal(photo: string)
      requires Valid()
      modifies this`currentState, this`visited, this`speech, this`requests
      ensures Valid() && currentState == Analyzing(QuickStage)
      ensures visited == old(visited) + [Analyzing(QuickStage)]
      ensures speech == old(speech) + [Speak(AnalyzingReply)]
      ensures requests == old(requests) + [Analyze(photo, currentUserId)]
    {
      SetState(Analyzing(QuickStage));
      Say(Speak(AnalyzingReply));
      Ask(Analyze(photo, currentUserId));
    }

    /** One result collected from the analyzer's flow. */
    method OnAnalysisResult(result: AnalysisResult)
      requires Valid()
      modifies this`currentState, this`visited, this`speech
      ensures Valid() && visited == old(visited) + [currentState]
      ensures result.Quick? ==>
                currentState == Analyzing(DetailedStage) &&
                speech == old(speech) + [Speak(result.category + "が写っています。詳しく確認中...")]
      ensures result.Full? ==>
                currentState == ConfirmingMeal(result.detailed) &&
                speech == old(speech) + [SpeakAndListen(result.detailed.description + " これで記録しますか？")]
      ensures result.Error? ==>
                currentState == Idle && speech == old(speech) + [SpeakAndListen(result.message + " もう一度試しますか？")]
    {
      match result
      case Quick(category, _) =>
        Say(Speak(category + "が写っています。詳しく確認中..."));
        SetState(Analyzing(DetailedStage));
      case Full(d) =>
        SetState(ConfirmingMeal(d));
        Say(SpeakAndListen(d.description + " これで記録しますか？"));
      case Error(message) =>
        Say(SpeakAndListen(message + " もう一度試しますか？"));
        SetState(Idle);
    }

    /** The analyzer's flow failed with an exception. */
    method OnAnalysisFailed()
      requires Valid()
      modifies this`currentState, this`visited, this`speech
      ensures Valid() && currentState == Idle && visited == old(visited) + [Idle]
      ensures speech == old(speech) + [SpeakAndListen(AnalysisFailedReply)]
    {
      Say(SpeakAndListen(AnalysisFailedReply));
      SetState(Idle);
    }

    /** `handleConfirmYes`: a meal awaiting confirmation is recorded and the service returns to `Idle`. */
    method HandleConfirmYes()
      requires Valid()
      modifies this`currentState, this`visited, this`speech
      ensures Valid()
      ensures old(currentState).ConfirmingMeal? ==>
                currentState == Idle && visited == old(visited) + [Idle] &&
                speech == old(speech) + [SpeakAndListen("記録しました。" + old(currentState).result.advice + AnythingElse)]
      ensures !old(currentState).ConfirmingMeal? ==>
                currentState == old(currentState) && visited == old(visited) &&
                speech == old(speech) + [SpeakAndListen(WhatToConfirmReply)]
    {
      match currentState
      case ConfirmingMeal(result) =>
        Say(SpeakAndListen("記録しました。" + result.advice + AnythingElse));
        SetState(Idle);
      case _ =>
        Say(SpeakAndListen(WhatToConfirmReply));
    }

    /** `handleConfirmNo`: a meal awaiting confirmation stays; anything else is abandoned. */
    method HandleConfirmNo()
      requires Valid()
      modifies this`currentState, this`visited, this`speech
      ensures Valid()
      ensures old(currentState).ConfirmingMeal? ==>
                currentState == old(currentState) && visited == old(visited) &&
                speech == old(speech) + [SpeakAndListen(CorrectOrCancelReply)]
      ensures !old(currentState).ConfirmingMeal? ==>
                currentState == Idle && visited == old(visited) + [Idle] &&
                speech == old(speech) + [SpeakAndListen(UnderstoodReply)]
    {
      match currentState
      case ConfirmingMeal(_) =>
        Say(SpeakAndListen(CorrectOrCancelReply));
      case _ =>
        Say(SpeakAndListen(UnderstoodReply));
        SetState(Idle);
    }

    /** `handleCancel`: always back to `Idle`. */
    method HandleCancel()
      requires Valid()
      modifies this`currentState, this`visited, this`speech
      ensures Valid() && currentState == Idle && visited == old(visited) + [Idle]
      ensures speech == old(speech) + [SpeakAndListen(CancelledReply)]
    {
      SetState(Idle);
      Say(SpeakAndListen(CancelledReply));
    }

    /** `handleViewHistory`: ask the server for the last five meals; the state is not touched. */
    method HandleViewHistory()
      modifies this`requests
      ensures requests == old(requests) + [History(currentUserId, HistoryLimit)]
    {
      Ask(History(currentUserId, HistoryLimit));
    }

    /** The history reply: the descriptions of the meals, or `None` when the call failed. */
    method OnHistory(meals: Option<seq<string>>)
      modifies this`speech
      ensures speech == old(speech) + [SpeakAndListen(HistoryReply(meals))]
    {
      Say(SpeakAndListen(HistoryReply(meals)));
    }

    /** `handleGetAdvice`: show empty advice while the server is asked. */
    method HandleGetAdvice(context: string)
      requires Valid()
      modifies this`currentState, this`visited, this`requests
      ensures Valid() && currentState == ShowingAdvice("") && visited == old(visited) + [ShowingAdvice("")]
      ensures requests == old(requests) + [Advice(currentUserId, context)]
    {
      SetState(ShowingAdvice(""));
      Ask(Advice(currentUserId, context));
    }

    /**
     * The advice reply (`None`: the call failed). Success shows the advice
     * first; either way the `finally` block returns the service to `Idle`.
     */
    method OnAdvice(reply: Option<string>)
      requires Valid()
      modifies this`currentState, this`visited, this`speech
      ensures Valid() && currentState == Idle
      ensures reply.Some? ==>
                visited == old(visited) + [ShowingAdvice(reply.value), Idle] &&
                speech == old(speech) + [SpeakAndListen(reply.value + AnythingElse)]
      ensures reply.None? ==>
                visited == old(visited) + [Idle] && speech == old(speech) + [SpeakAndListen(AdviceFailedReply)]
    {
      match reply {
        case Some(advice) =>
          SetState(ShowingAdvice(advice));
          Say(SpeakAndListen(advice + AnythingElse));
        case None =>
          Say(SpeakAndListen(AdviceFailedReply));
      }
      SetState(Idle);
    }
  }
}

/**
 * `MainActivity`: the meal-type and preference rules of the meal
 * suggestion dialogue, the hour-of-day meal type, and the physical-button
 * state machine through which the user confirms or corrects an analysis
 * result and chooses between a photo (short press) and a suggestion
 * (long press) with the centre button. The settings dialog's user-ID
 * check is the shared `UserId.CheckUserId`.
 */
module MainActivity {
  import opened Wrappers
  import opened Text
  import opened UserId

  /** `getCurrentMealType` for `Calendar.HOUR_OF_DAY`. */
  function MealTypeForHour(hour: int): (t: string)
    ensures t in {"breakfast", "lunch", "snack", "dinner"}
    ensures MealTypeName(t) in {"朝食", "昼食", "夕食", "おやつ"}
    ensures t == "breakfast" <==> 6 <= hour <= 9
    ensures t == "lunch" <==> 10 <= hour <= 14
    ensures t == "dinner" <==> 18 <= hour <= 22
    ensures t == "snack" <==> !(6 <= hour <= 14) && !(18 <= hour <= 22)
  {
    if 6 <= hour <= 9 then "breakfast"
    else if 10 <= hour <= 14 then "lunch"
    else if 15 <= hour <= 17 then "snack"
    else if 18 <= hour <= 22 then "dinner"
    else "snack"
  }

  /** `getMealTypeName`: the Japanese name of a meal-type code, `食事` for any other string. */
  function MealTypeName(mealType: string): (name: string)
    ensures mealType !in {"breakfast", "lunch", "dinner", "snack"} ==> name == "食事"
    ensures mealType == "breakfast" ==> name == "朝食"
    ensures mealType == "lunch" ==> name == "昼食"
    ensures mealType == "dinner" ==> name == "夕食"
    ensures mealType == "snack" ==> name == "おやつ"
  {
    if mealType == "breakfast" then "朝食"
    else if mealType == "lunch" then "昼食"
    else if mealType == "dinner" then "夕食"
    else if mealType == "snack" then "おやつ"
    else "食事"
  }

  predicate SaysBreakfast(reply: string)
  {
    Contains(reply, "朝食") || Contains(reply, "朝ごはん")
  }

  predicate SaysLunch(reply: string)
  {
    Contains(reply, "昼食") || Contains(reply, "昼ごはん") || Contains(reply, "ランチ")
  }

  predicate SaysDinner(reply: string)
  {
    Contains(reply, "夕食") || Contains(reply, "夜ごはん") || Contains(reply, "晩ごはん") || Contains(reply, "ディナー")
  }

  predicate SaysSnack(reply: string)
  {
    Contains(reply, "おやつ") || Contains(reply, "間食") || Contains(reply, "スナック")
  }

  /**
   * The meal type the user's reply settles on, the rules tried in order.
   * An affirmative reply and a reply naming no meal both keep `detected`.
   */
  function MealTypeFromReply(reply: string, detected: string): (t: string)
    ensures t == "breakfast" || t == "lunch" || t == "dinner" || t == "snack" || t == detected
    ensures SaysBreakfast(reply) ==> t == "breakfast"
    ensures !SaysBreakfast(reply) && SaysLunch(reply) ==> t == "lunch"
    ensures !SaysBreakfast(reply) && !SaysLunch(reply) && SaysDinner(reply) ==> t == "dinner"
    ensures !SaysBreakfast(reply) && !SaysLunch(reply) && !SaysDinner(reply) && SaysSnack(reply) ==> t == "snack"
    ensures !SaysBreakfast(reply) && !SaysLunch(reply) && !SaysDinner(reply) && !SaysSnack(reply) ==> t == detected
  {
    if SaysBreakfast(reply) then "breakfast"
    else if SaysLunch(reply) then "lunch"
    else if SaysDinner(reply) then "dinner"
    else if SaysSnack(reply) then "snack"
    else if Contains(reply, "はい") || Contains(reply, "そのまま") || Contains(reply, "お願い") then detected
    else detected
  }

  /** A named meal wins over an affirmative word in the same reply. */
  lemma NamedMealBeatsYes(reply: string, meal: string)
    requires meal in {"朝食", "昼食", "夕食", "おやつ"}
    requires Contains(reply, meal) && Contains(reply, "はい")
    ensures MealTypeFromReply(reply, "auto") != "auto"
  {
  }

  /** The preferences reply: "no preference" answers become `None`, anything else passes through. */
  function PreferencesFromReply(reply: string): (p: Option<string>)
    ensures p.None? <==> Contains(reply, "お任せ") || Contains(reply, "特になし") || Contains(reply, "ない")
    ensures p.Some? ==> p.value == reply
  {
    if Contains(reply, "お任せ") || Contains(reply, "特になし") || Contains(reply, "ない") then None
    else Some(reply)
  }

  /** "ない" is itself a keyword, so any reply containing it (for example "わからない") means no preference. */
  lemma NaiSwallows(prefix: string, suffix: string)
    ensures PreferencesFromReply(prefix + "ない" + suffix).None?
  {
    ContainsInfix(prefix, "ない", suffix);
  }

  /** `android.view.KeyEvent` key codes. */
  const KeyDpadLeft := 21
  const KeyDpadRight := 22
  const KeyDpadCenter := 23
  const KeyVolumeUp := 24
  const KeyVolumeDown := 25
  const KeyCamera := 27
  const KeyEnter := 66

  const LongPressThreshold := 500

  predicate IsCenterKey(k: int)
  {
    k == KeyCamera || k == KeyDpadCenter || k == KeyEnter
  }

  predicate IsYesKey(k: int)
  {
    k == KeyDpadLeft || k == KeyVolumeUp
  }

  predicate IsNoKey(k: int)
  {
    k == KeyDpadRight || k == KeyVolumeDown
  }

  datatype ConfirmationMode = NoConfirmation | AnalyzeResultMode | CorrectionMode

  /** The server's analysis of a photo, as far as the confirmation buttons are concerned. */
  datatype AnalyzeResponse = AnalyzeResponse(mealId: Option<string>, description: Option<string>, advice: Option<string>)

  /** What a key event sets in motion. */
  datatype Action =
    | SaveAnalysis(result: AnalyzeResponse)
    | AskForCorrection(result: AnalyzeResponse)
    | SaveCorrection(text: string, result: AnalyzeResponse)
    | SuggestMeal
    | TakePhotoAndAnalyze

  /** `true` from the activity's own handling, or the event passed on to `super`. */
  datatype KeyResult = Consumed | PassedOn

  const EmptyIdToast := "ユーザーIDを入力してください"
  const ShortIdToast := "ユーザーIDは3文字以上で入力してください"
  const SavedToast := "設定を保存しました"

  class MainScreen {
    var userId: string
    var pendingAnalyzeResult: Option<AnalyzeResponse>
    var pendingCorrectionText: Option<string>
    var confirmationMode: ConfirmationMode
    var centerButtonDownTime: int
    /** `UserPreferences`' stored user ID and debug-recording flag. */
    var savedUserId: Option<string>
    var debugRecording: bool
    ghost var actions: seq<Action>

    /** A confirmation mode always has the result it asks about, and a correction its text. */
    ghost predicate Valid()
      reads this
    {
      (confirmationMode != NoConfirmation ==> pendingAnalyzeResult.Some?) &&
      (confirmationMode == CorrectionMode ==> pendingCorrectionText.Some?)
    }

    constructor (stored: Option<string>, debug: bool)
      ensures Valid() && userId == "" && confirmationMode == NoConfirmation
      ensures pendingAnalyzeResult.None? && pendingCorrectionText.None? && centerButtonDownTime == 0
      ensures savedUserId == stored && debugRecording == debug && actions == []
    {
      userId := "";
      pendingAnalyzeResult := None;
      pendingCorrectionText := None;
      confirmationMode := NoConfirmation;
      centerButtonDownTime := 0;
      savedUserId := stored;
      debugRecording := debug;
      actions := [];
    }

    /** `showConfirmButtons`: wait for yes/no on an analysis result. */
    method ShowConfirmButtons(result: AnalyzeResponse)
      modifies this`pendingAnalyzeResult, this`confirmationMode
      ensures Valid() && pendingAnalyzeResult == Some(result) && confirmationMode == AnalyzeResultMode
    {
      pendingAnalyzeResult := Some(result);
      confirmationMode := AnalyzeResultMode;
    }

    /** `showCorrectionConfirmButtons`: wait for yes/no on a spoken correction. */
    method ShowCorrectionConfirmButtons(text: string, result: AnalyzeResponse)
      modifies this`pendingCorrectionText, this`pendingAnalyzeResult, this`confirmationMode
      ensures Valid() && pendingCorrectionText == Some(text) && pendingAnalyzeResult == Some(result)
      ensures confirmationMode == CorrectionMode
    {
      pendingCorrectionText := Some(text);
      pendingAnalyzeResult := Some(result);
      confirmationMode := CorrectionMode;
    }

    /**
     * `onKeyDown`. In `NONE` mode the centre key records the press time.
     * In `ANALYZE_RESULT` mode yes/no act on the pending result; in
     * `CORRECTION` mode yes needs the text and the result, no only the
     * result. An action clears the pending fields and returns to `NONE`.
     */
    method OnKeyDown(keyCode: int, now: int) returns (r: KeyResult)
      modifies this`centerButtonDownTime, this`confirmationMode, this`pendingAnalyzeResult,
               this`pendingCorrectionText, this`actions
      ensures old(Valid()) ==> Valid()
      ensures IsCenterKey(keyCode) && old(confirmationMode) == NoConfirmation ==>
                r == Consumed && centerButtonDownTime == now && actions == old(actions) &&
                confirmationMode == NoConfirmation &&
                pendingAnalyzeResult == old(pendingAnalyzeResult) && pendingCorrectionText == old(pendingCorrectionText)
      ensures !(IsCenterKey(keyCode) && old(confirmationMode) == NoConfirmation) ==>
                centerButtonDownTime == old(centerButtonDownTime)
      ensures old(confirmationMode) == AnalyzeResultMode && (IsYesKey(keyCode) || IsNoKey(keyCode)) ==>
                r == Consumed && pendingCorrectionText == old(pendingCorrectionText) &&
                if old(pendingAnalyzeResult).Some? then
                  confirmationMode == NoConfirmation && pendingAnalyzeResult.None? &&
                  actions == old(actions) + [if IsYesKey(keyCode) then SaveAnalysis(old(pendingAnalyzeResult).value)
                                             else AskForCorrection(old(pendingAnalyzeResult).value)]
                else
                  confirmationMode == old(confirmationMode) && pendingAnalyzeResult.None? && actions == old(actions)
      ensures old(confirmationMode) == CorrectionMode && IsYesKey(keyCode) ==>
                r == Consumed &&
                if old(pendingCorrectionText).Some? && old(pendingAnalyzeResult).Some? then
                  confirmationMode == NoConfirmation && pendingAnalyzeResult.None? && pendingCorrectionText.None? &&
                  actions == old(actions) + [SaveCorrection(old(pendingCorrectionText).value, old(pendingAnalyzeResult).value)]
                else
                  confirmationMode == old(confirmationMode) && actions == old(actions) &&
                  pendingAnalyzeResult == old(pendingAnalyzeResult) && pendingCorrectionText == old(pendingCorrectionText)
      ensures old(confirmationMode) == CorrectionMode && IsNoKey(keyCode) ==>
                r == Consumed &&
                if old(pendingAnalyzeResult).Some? then
                  confirmationMode == NoConfirmation && pendingAnalyzeResult.None? && pendingCorrectionText.None? &&
                  actions == old(actions) + [AskForCorrection(old(pendingAnalyzeResult).value)]
                else
                  confirmationMode == old(confirmationMode) && actions == old(actions) &&
                  pendingAnalyzeResult == old(pendingAnalyzeResult) && pendingCorrectionText == old(pendingCorrectionText)
      ensures (old(confirmationMode) == NoConfirmation && !IsCenterKey(keyCode)) ||
              (old(confirmationMode) != NoConfirmation && !IsYesKey(keyCode) && !IsNoKey(keyCode)) ==>
                r == PassedOn && confirmationMode == old(confirmationMode) && actions == old(actions) &&
                pendingAnalyzeResult == old(pendingAnalyzeResult) && pendingCorrectionText == old(pendingCorrectionText)
    {
      if IsCenterKey(keyCode) && confirmationMode == NoConfirmation {
        centerButtonDownTime := now;
        return Consumed;
      }
      match confirmationMode {
        case AnalyzeResultMode =>
          if IsYesKey(keyCode) || IsNoKey(keyCode) {
            if pendingAnalyzeResult.Some? {
              var result := pendingAnalyzeResult.value;
              confirmationMode := NoConfirmation;
              actions := actions + [if IsYesKey(keyCode) then SaveAnalysis(result) else AskForCorrection(result)];
              pendingAnalyzeResult := None;
            }
            return Consumed;
          }
        case CorrectionMode =>
          if IsYesKey(keyCode) {
            if pendingCorrectionText.Some? && pendingAnalyzeResult.Some? {
              confirmationMode := NoConfirmation;
              actions := actions + [SaveCorrection(pendingCorrectionText.value, pendingAnalyzeResult.value)];
              pendingCorrectionText := None;
              pendingAnalyzeResult := None;
            }
            return Consumed;
          } else if IsNoKey(keyCode) {
            if pendingAnalyzeResult.Some? {
              confirmationMode := NoConfirmation;
              actions := actions + [AskForCorrection(pendingAnalyzeResult.value)];
              pendingCorrectionText := None;
              pendingAnalyzeResult := None;
            }
            return Consumed;
          }
        case NoConfirmation =>
      }
      return PassedOn;
    }

    /**
     * `onKeyUp`: releasing the centre key in `NONE` mode after a recorded
     * press clears the press time and takes a photo, or suggests a meal
     * when the press lasted at least 500 ms.
     */
    method OnKeyUp(keyCode: int, now: int) returns (r: KeyResult)
      modifies this`centerButtonDownTime, this`actions
      ensures IsCenterKey(keyCode) && confirmationMode == NoConfirmation && old(centerButtonDownTime) > 0 ==>
                r == Consumed && centerButtonDownTime == 0 &&
                actions == old(actions) + [if now - old(centerButtonDownTime) >= LongPressThreshold then SuggestMeal
                                           else TakePhotoAndAnalyze]
      ensures !(IsCenterKey(keyCode) && confirmationMode == NoConfirmation && old(centerButtonDownTime) > 0) ==>
                r == PassedOn && centerButtonDownTime == old(centerButtonDownTime) && actions == old(actions)
    {
      if IsCenterKey(keyCode) && confirmationMode == NoConfirmation && centerButtonDownTime > 0 {
        var pressDuration := now - centerButtonDownTime;
        centerButtonDownTime := 0;
        if pressDuration >= LongPressThreshold {
          actions := actions + [SuggestMeal];
        } else {
          actions := actions + [TakePhotoAndAnalyze];
        }
        return Consumed;
      }
      return PassedOn;
    }

    /**
     * The settings dialog's save button: the trimmed ID is refused when
     * empty or shorter than three units; otherwise it is stored, becomes
     * `userId`, and the debug-recording box is stored with it.
     */
    method SaveSettings(input: string, debugChecked: bool) returns (toast: string)
      modifies this`savedUserId, this`userId, this`debugRecording
      ensures CheckUserId(input) == MissingId ==>
                toast == EmptyIdToast && savedUserId == old(savedUserId) && userId == old(userId) &&
                debugRecording == old(debugRecording)
      ensures CheckUserId(input) == TooShortId ==>
                toast == ShortIdToast && savedUserId == old(savedUserId) && userId == old(userId) &&
                debugRecording == old(debugRecording)
      ensures CheckUserId(input).AcceptedId? ==>
                toast == SavedToast && savedUserId == Some(CheckUserId(input).id) &&
                userId == CheckUserId(input).id && debugRecording == debugChecked
    {
      match CheckUserId(input)
      case MissingId =>
        toast := EmptyIdToast;
      case TooShortId =>
        toast := ShortIdToast;
      case AcceptedId(id) =>
        savedUserId := Some(id);
        userId := id;
        debugRecording := debugChecked;
        toast := SavedToast;
    }
  }
}

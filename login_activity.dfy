/**
 * `LoginActivity`: a user already logged in goes straight to the main
 * screen; otherwise the typed ID is checked and, when accepted, saved
 * before navigating. The stored preference is the field `savedUserId`.
 */
module LoginActivity {
  import opened Wrappers
  import opened UserId

  const EmptyIdError := "ログインIDを入力してください"
  const ShortIdError := "ログインIDは3文字以上で入力してください"

  class LoginActivity {
    /** `UserPreferences.getUserId()`: logged in exactly when it is present. */
    var savedUserId: Option<string>
    var errorText: Option<string>
    var navigatedToMain: bool
    var listenersSet: bool

    constructor (stored: Option<string>)
      ensures savedUserId == stored && errorText.None? && !navigatedToMain && !listenersSet
    {
      savedUserId := stored;
      errorText := None;
      navigatedToMain := false;
      listenersSet := false;
    }

    /** `onCreate`: the logged-in shortcut skips setting up the listeners. */
    method OnCreate()
      modifies this`navigatedToMain, this`listenersSet
      ensures old(savedUserId).Some? ==> navigatedToMain && listenersSet == old(listenersSet)
      ensures old(savedUserId).None? ==> listenersSet && navigatedToMain == old(navigatedToMain)
    {
      if savedUserId.Some? {
        navigatedToMain := true;
        return;
      }
      listenersSet := true;
    }

    /** `login`: refuse a missing or short ID with its message, or save the trimmed ID and navigate. */
    method Login(input: string)
      modifies this`savedUserId, this`errorText, this`navigatedToMain
      ensures CheckUserId(input) == MissingId ==>
                errorText == Some(EmptyIdError) && savedUserId == old(savedUserId) && navigatedToMain == old(navigatedToMain)
      ensures CheckUserId(input) == TooShortId ==>
                errorText == Some(ShortIdError) && savedUserId == old(savedUserId) && navigatedToMain == old(navigatedToMain)
      ensures CheckUserId(input).AcceptedId? ==>
                savedUserId == Some(CheckUserId(input).id) && navigatedToMain && errorText == old(errorText)
    {
      match CheckUserId(input)
      case MissingId =>
        errorText := Some(EmptyIdError);
      case TooShortId =>
        errorText := Some(ShortIdError);
      case AcceptedId(id) =>
        savedUserId := Some(id);
        navigatedToMain := true;
    }
  }
}

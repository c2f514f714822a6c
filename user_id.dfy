/**
 * The user-ID check shared by the login screen and the settings dialog:
 * the input is trimmed, an empty ID and an ID shorter than three UTF-16
 * units are refused, anything else is accepted as the trimmed text.
 */
module UserId {
  import opened Text

  datatype IdCheck = MissingId | TooShortId | AcceptedId(id: string)

  const MinLength: nat := 3

  function CheckUserId(input: string): (r: IdCheck)
    ensures r == MissingId <==> Trim(input) == []
    ensures r == TooShortId <==> Trim(input) != [] && Utf16Length(Trim(input)) < MinLength
    ensures r.AcceptedId? <==> Utf16Length(Trim(input)) >= MinLength
    ensures r.AcceptedId? ==> r.id == Trim(input)
  {
    var id := Trim(input);
    if |id| == 0 then MissingId
    else if Utf16Length(id) < MinLength then TooShortId
    else AcceptedId(id)
  }

  /** An accepted ID has no whitespace at either end and holds at least two characters. */
  lemma AcceptedIsTrimmed(input: string)
    requires CheckUserId(input).AcceptedId?
    ensures var id := CheckUserId(input).id;
      Trim(id) == id && |id| >= 2 && !IsWhitespace(id[0]) && !IsWhitespace(id[|id| - 1])
  {
    TrimIdempotent(input);
  }

  /** Whitespace around the typed ID never changes the outcome. */
  lemma CheckIgnoresSurroundingWhitespace(w1: string, input: string, w2: string)
    requires AllWhitespace(w1) && AllWhitespace(w2)
    ensures CheckUserId(w1 + input + w2) == CheckUserId(input)
  {
    TrimIgnoresSurrounding(w1, input, w2);
  }

  /** A check of an already accepted ID accepts it again unchanged. */
  lemma CheckIdempotent(input: string)
    requires CheckUserId(input).AcceptedId?
    ensures CheckUserId(CheckUserId(input).id) == CheckUserId(input)
  {
    TrimIdempotent(input);
  }
}

/** The name validator: playlist and song names are non-empty and made only of
    ASCII letters, ASCII digits and spaces. */
module Names {

  /** Size of the C name buffers; a name read with `fgets` holds at most
      MAX_LEN - 1 characters. */
  const MAX_LEN: nat := 50

  /** `isalnum` in the "C" locale: an ASCII letter or digit. */
  predicate IsAlnum(c: char) {
    ('a' <= c <= 'z') || ('A' <= c <= 'Z') || ('0' <= c <= '9')
  }

  /** A character the validator lets through. */
  predicate NameChar(c: char) {
    IsAlnum(c) || c == ' '
  }

  /** The names the program accepts. */
  predicate ValidName(s: string) {
    |s| > 0 && forall i :: 0 <= i < |s| ==> NameChar(s[i])
  }

  /** `is_valid_string`: reject the empty string, then scan every character
      and reject at the first one that is neither alphanumeric nor a space. */
  method IsValidString(s: string) returns (ok: bool)
    ensures ok <==> ValidName(s)
    ensures !ok <==> |s| == 0 || exists i :: 0 <= i < |s| && !NameChar(s[i])
  {
    if |s| == 0 {
      return false;
    }
    for i := 0 to |s|
      invariant forall k :: 0 <= k < i ==> NameChar(s[k])
    {
      if !IsAlnum(s[i]) && s[i] != ' ' {
        return false;
      }
    }
    return true;
  }

  /** The boundary cases of the validator: an ampersand is refused, a space
      is allowed, the empty string is refused. */
  lemma ValidNameExamples()
    ensures !ValidName("Rock & Roll")
    ensures ValidName("Rock Roll")
    ensures !ValidName("")
  {
    assert !NameChar("Rock & Roll"[5]);
  }
}

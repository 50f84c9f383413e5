/**
 * ASCII letter classes. The rule judges the first character of a title by
 * comparing it with its lower-case form; only the ASCII letters 'A'..'Z' have
 * a lower-case form different from themselves in this model.
 */
module Ascii {

  predicate IsUpper(c: char) {
    'A' <= c <= 'Z'
  }

  predicate IsLower(c: char) {
    'a' <= c <= 'z'
  }

  /** The lower-case form of `c`: a letter 'A'..'Z' moves to 'a'..'z', anything else is kept. */
  function ToLower(c: char): (r: char)
    ensures IsUpper(c) ==> IsLower(r) && r as int - c as int == 'a' as int - 'A' as int
    ensures !IsUpper(c) ==> r == c
    ensures !IsUpper(r)
  {
    if IsUpper(c) then (c as int + ('a' as int - 'A' as int)) as char else c
  }

  /** A character already equal to its lower-case form is exactly one that is not upper-case. */
  lemma FixedPointsOfToLower(c: char)
    ensures ToLower(c) == c <==> !IsUpper(c)
  {
  }
}

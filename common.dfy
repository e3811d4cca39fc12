/** Values shared by the client and the server: the failure-compatible
    wrappers, the two kinds of field value a profile carries, and the
    ASCII case folding that both sides use (`str.lower()`). */
module Common {

  datatype Option<+T> = None | Some(value: T)

  datatype Result<+R, +E> = Success(value: R) | Failure(error: E)

  /** A field value as the client builds it and as JSON carries it:
      a number (Python `float`) or a string (a gender marker). */
  datatype Value = Num(x: real) | Str(s: string)

  /** `str.lower()` restricted to ASCII: upper-case letters map to their
      lower-case counterparts, every other character is unchanged. */
  function LowerChar(c: char): (r: char)
    ensures 'A' <= c <= 'Z' ==> 'a' <= r <= 'z' && r as int - c as int == 32
    ensures !('A' <= c <= 'Z') ==> r == c
  {
    if 'A' <= c <= 'Z' then (c as int + 32) as char else c
  }

  function Lower(s: string): (r: string)
    ensures |r| == |s|
    ensures forall i :: 0 <= i < |s| ==> r[i] == LowerChar(s[i])
  {
    seq(|s|, i requires 0 <= i < |s| => LowerChar(s[i]))
  }

  /** The one-character strings whose lower-case form is `[c]`, for a
      lower-case ASCII letter `c`, are exactly `[c]` and its capital. */
  lemma LowerSingleLetter(s: string, c: char)
    requires 'a' <= c <= 'z'
    ensures Lower(s) == [c] <==> s == [c] || s == [(c as int - 32) as char]
  {
  }
}

/**
 * The parts of Python's runtime that the chatbot's logic depends on:
 * exceptions, `str.lower`, the character classes of `re`, substring
 * search (`in`), `str(int)` and `str.join`.
 *
 * Only the ASCII behaviour of `lower`, `\w` and `\d` is modelled; `\s`
 * is the full set of characters for which `str.isspace` holds.
 */
module Python {

  /** The exceptions the modelled code can raise. `detail` is `str(e)`. */
  datatype PyError =
    | KeyError(detail: string)
    | IndexError(detail: string)
    | TypeError
    | AttributeError
  {
    /** The ones named by `except (KeyError, IndexError)` in the API layer. */
    predicate Caught() {
      KeyError? || IndexError?
    }

    function Detail(): string {
      match this
      case KeyError(d) => d
      case IndexError(d) => d
      case TypeError => ""
      case AttributeError => ""
    }
  }

  /** A Python evaluation: a value, or a raised exception. */
  datatype PyResult<+T> = Ok(value: T) | Raise(error: PyError) {

    predicate IsFailure() {
      Raise?
    }

    function PropagateFailure<U>(): PyResult<U>
      requires Raise?
    {
      Raise(error)
    }

    function Extract(): T
      requires Ok?
    {
      value
    }
  }

  // ---- characters ---------------------------------------------------------

  predicate IsUpper(c: char) {
    'A' <= c <= 'Z'
  }

  predicate IsLowerLetter(c: char) {
    'a' <= c <= 'z'
  }

  predicate IsDigit(c: char) {
    '0' <= c <= '9'
  }

  /** `\w`: letters, digits and the underscore. */
  predicate IsWordChar(c: char) {
    IsLowerLetter(c) || IsUpper(c) || IsDigit(c) || c == '_'
  }

  /** `\s` and `str.isspace`. */
  predicate IsSpace(c: char) {
    var n := c as int;
    (9 <= n <= 13) || (28 <= n <= 32) || n == 0x85 || n == 0xA0 || n == 0x1680
    || (0x2000 <= n <= 0x200A) || n == 0x2028 || n == 0x2029 || n == 0x202F
    || n == 0x205F || n == 0x3000
  }

  function LowerChar(c: char): (r: char)
    ensures !IsUpper(r)
    ensures IsUpper(c) ==> r as int == c as int + 32
    ensures !IsUpper(c) ==> r == c
  {
    if IsUpper(c) then (c as int + 32) as char else c
  }

  /** `s.lower()`. */
  function Lower(s: string): string {
    seq(|s|, i requires 0 <= i < |s| => LowerChar(s[i]))
  }

  predicate IsLowerCase(s: string) {
    forall i :: 0 <= i < |s| ==> !IsUpper(s[i])
  }

  lemma LowerOfLowerCase(s: string)
    requires IsLowerCase(s)
    ensures Lower(s) == s
  {
  }

  // ---- substrings ---------------------------------------------------------

  predicate StartsWith(t: string, k: string) {
    |k| <= |t| && t[..|k|] == k
  }

  /** `k` occurs in `t` starting at offset `i`. */
  predicate OccursAt(t: string, k: string, i: int) {
    0 <= i && i + |k| <= |t| && t[i..i + |k|] == k
  }

  /** `k in t` for strings. */
  predicate Contains(t: string, k: string) {
    exists i | 0 <= i <= |t| - |k| :: OccursAt(t, k, i)
  }

  /** A non-empty `k` whose first character never occurs where `k` could start is absent. */
  lemma NotContainedByFirstChar(t: string, k: string)
    requires k != []
    requires forall i :: 0 <= i <= |t| - |k| ==> t[i] != k[0]
    ensures !Contains(t, k)
  {
    forall i | 0 <= i <= |t| - |k| ensures !OccursAt(t, k, i) {
      assert t[i..i + |k|][0] == t[i];
    }
  }

  lemma ContainsItself(t: string)
    ensures Contains(t, t)
  {
    assert OccursAt(t, t, 0);
  }

  /** A substring is never longer than the text, and one as long as the text is the text. */
  lemma ContainedLength(t: string, k: string)
    requires Contains(t, k)
    ensures |k| <= |t|
    ensures |k| == |t| ==> k == t
  {
    var i :| 0 <= i <= |t| - |k| && OccursAt(t, k, i);
  }

  // ---- numbers and joins --------------------------------------------------

  function DigitChar(d: nat): char
    requires d < 10
  {
    ('0' as int + d) as char
  }

  function NatToString(n: nat): (r: string)
    ensures |r| > 0
    ensures forall i :: 0 <= i < |r| ==> IsDigit(r[i])
  {
    if n < 10 then [DigitChar(n)] else NatToString(n / 10) + [DigitChar(n % 10)]
  }

  /** `str(n)` for an `int`. */
  function IntToString(n: int): string {
    if n < 0 then "-" + NatToString(-n) else NatToString(n)
  }

  /** `sep.join(parts)`. */
  function Join(sep: string, parts: seq<string>): string {
    if parts == [] then ""
    else if |parts| == 1 then parts[0]
    else parts[0] + sep + Join(sep, parts[1..])
  }
}

/**
 * `clean_text` of `utils.py`: lower-case the sentence, delete every
 * character outside `[a-z\s]`, tokenise, and lemmatise each token. The
 * NLTK tokeniser and lemmatiser are foreign code and enter the model as
 * the two uninterpreted functions of an `Nlp` value.
 */
module Normalizer {
  import opened Python

  /** The characters the class `[a-z\s]` matches, i.e. those `re.sub` keeps. */
  predicate Kept(c: char) {
    IsLowerLetter(c) || IsSpace(c)
  }

  /** `re.sub(r'[^a-z\s]', "", s)`: the kept characters of `s`, in order. */
  function Strip(s: string): (r: string)
    ensures |r| <= |s|
    ensures forall i :: 0 <= i < |r| ==> Kept(r[i])
    ensures forall c :: Kept(c) ==> multiset(r)[c] == multiset(s)[c]
  {
    if s == [] then []
    else
      assert s == [s[0]] + s[1..];
      (if Kept(s[0]) then [s[0]] else []) + Strip(s[1..])
  }

  /** Deleting characters distributes over concatenation: the order of the kept characters is their order in the input. */
  lemma {:induction false} StripAppend(a: string, b: string)
    ensures Strip(a + b) == Strip(a) + Strip(b)
  {
    if a == [] {
      assert a + b == b;
    } else {
      assert (a + b)[1..] == a[1..] + b;
      assert (a + b)[0] == a[0];
      StripAppend(a[1..], b);
    }
  }

  /** A string made only of kept characters passes unchanged. */
  lemma {:induction false} StripKeepsKept(s: string)
    requires forall i :: 0 <= i < |s| ==> Kept(s[i])
    ensures Strip(s) == s
  {
    if s != [] {
      StripKeepsKept(s[1..]);
    }
  }

  /** The first two statements of `clean_text`: `sentence.lower()` then the `re.sub`. */
  function LowerAndStrip(s: string): (r: string)
    ensures forall i :: 0 <= i < |r| ==> IsLowerLetter(r[i]) || IsSpace(r[i])
    ensures forall i :: 0 <= i < |r| ==> !IsDigit(r[i])
  {
    Strip(Lower(s))
  }

  /** Lower-casing and stripping a second time changes nothing. */
  lemma LowerAndStripIdempotent(s: string)
    ensures LowerAndStrip(LowerAndStrip(s)) == LowerAndStrip(s)
  {
    var r := LowerAndStrip(s);
    assert IsLowerCase(r) by {
      forall i | 0 <= i < |r| ensures !IsUpper(r[i]) {
        assert Kept(r[i]);
      }
    }
    LowerOfLowerCase(r);
    StripKeepsKept(r);
  }

  /** Every lower-case ASCII letter of the input survives, as often as it occurs. */
  lemma LowerAndStripKeepsLetters(s: string, c: char)
    requires IsLowerLetter(c)
    ensures multiset(LowerAndStrip(s))[c] == multiset(Lower(s))[c]
  {
  }

  /** The two NLTK functions `clean_text` calls. */
  datatype Nlp = Nlp(tokenize: string -> seq<string>, lemmatize: string -> string)

  predicate AllSpace(s: string) {
    forall i :: 0 <= i < |s| ==> IsSpace(s[i])
  }

  /** `clean_text(sentence)`. */
  function CleanText(sentence: string, nlp: Nlp): seq<string> {
    var tokens := nlp.tokenize(LowerAndStrip(sentence));
    seq(|tokens|, i requires 0 <= i < |tokens| => nlp.lemmatize(tokens[i]))
  }

  /**
   * A sentence with no ASCII letter yields no words, for a tokeniser that
   * (like `word_tokenize`) returns no tokens for a blank string.
   */
  lemma NoLettersNoWords(sentence: string, nlp: Nlp)
    requires forall i :: 0 <= i < |sentence| ==> !IsLowerLetter(LowerChar(sentence[i]))
    requires forall w :: AllSpace(w) ==> nlp.tokenize(w) == []
    ensures CleanText(sentence, nlp) == []
  {
    var r := LowerAndStrip(sentence);
    forall i | 0 <= i < |r| ensures IsSpace(r[i]) {
      assert r[i] in multiset(r);
    }
    assert AllSpace(r);
  }
}

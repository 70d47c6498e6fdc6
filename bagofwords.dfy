/**
 * The bag-of-words encoding shared by training and prediction: one entry
 * per vocabulary word, 1 when the word is among the sentence's words and
 * 0 otherwise (the comprehension in `predict`, the `bag.append` loop in
 * the training script).
 */
module BagOfWords {

  /** `[1 if word in tokens else 0 for word in vocab]`. */
  function Bag(vocab: seq<string>, tokens: seq<string>): (bag: seq<int>)
    ensures |bag| == |vocab|
    ensures forall i :: 0 <= i < |bag| ==> bag[i] == 0 || bag[i] == 1
  {
    seq(|vocab|, i requires 0 <= i < |vocab| => if vocab[i] in tokens then 1 else 0)
  }

  /** Entry `i` is set exactly when `vocab[i]` is one of the sentence's words. */
  lemma BagEntry(vocab: seq<string>, tokens: seq<string>, i: nat)
    requires i < |vocab|
    ensures Bag(vocab, tokens)[i] == 1 <==> vocab[i] in tokens
  {
  }

  /** A word outside the vocabulary leaves the bag unchanged, wherever it occurs. */
  lemma UnknownWordIgnored(vocab: seq<string>, before: seq<string>, w: string, after: seq<string>)
    requires w !in vocab
    ensures Bag(vocab, before + [w] + after) == Bag(vocab, before + after)
  {
    var a := Bag(vocab, before + [w] + after);
    var b := Bag(vocab, before + after);
    forall i | 0 <= i < |vocab| ensures a[i] == b[i] {
      assert vocab[i] != w;
      assert vocab[i] in before + [w] + after <==> vocab[i] in before + after;
    }
  }

  /** Two sentences get the same bag exactly when they agree on which vocabulary words they contain. */
  lemma SameBagIff(vocab: seq<string>, t1: seq<string>, t2: seq<string>)
    ensures Bag(vocab, t1) == Bag(vocab, t2) <==> forall i :: 0 <= i < |vocab| ==> (vocab[i] in t1 <==> vocab[i] in t2)
  {
    if Bag(vocab, t1) == Bag(vocab, t2) {
      forall i | 0 <= i < |vocab| ensures vocab[i] in t1 <==> vocab[i] in t2 {
        assert Bag(vocab, t1)[i] == Bag(vocab, t2)[i];
      }
    }
  }
}

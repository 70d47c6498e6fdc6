/**
 * The data-preparation half of `train.py`: the nested loops that collect
 * the vocabulary, the class list and one document per training sentence,
 * the `sorted(set(...))` passes, and the encoding of each document as a
 * bag-of-words row and a one-hot target row.
 */
module Training {
  import opened Python
  import opened Normalizer
  import opened BagOfWords
  import opened StrOrder
  import opened Intents

  /** A `(wordlist, tag)` pair of `documents`. */
  datatype Document = Document(words: seq<string>, tag: string)

  // ---- the reference definitions ------------------------------------------

  /** The documents of one intent, one per pattern in order. */
  function PatternDocs(tag: string, patterns: seq<string>, nlp: Nlp): (r: seq<Document>)
    ensures |r| == |patterns|
  {
    if patterns == [] then []
    else PatternDocs(tag, patterns[..|patterns| - 1], nlp) + [Document(CleanText(patterns[|patterns| - 1], nlp), tag)]
  }

  /** Document `j` of an intent is its `j`-th pattern, cleaned, with the intent's tag. */
  lemma {:induction false} PatternDocsIndex(tag: string, patterns: seq<string>, nlp: Nlp, j: nat)
    requires j < |patterns|
    ensures PatternDocs(tag, patterns, nlp)[j] == Document(CleanText(patterns[j], nlp), tag)
  {
    if j < |patterns| - 1 {
      PatternDocsIndex(tag, patterns[..|patterns| - 1], nlp, j);
    }
  }

  /** All documents, intents first and patterns second. */
  function Documents(intents: seq<IntentDef>, nlp: Nlp): seq<Document> {
    if intents == [] then []
    else
      var last := intents[|intents| - 1];
      Documents(intents[..|intents| - 1], nlp) + PatternDocs(last.tag, last.patterns, nlp)
  }

  /** The words of all documents in order, repetitions included (`words.extend`). */
  function Vocabulary(docs: seq<Document>): seq<string> {
    if docs == [] then [] else Vocabulary(docs[..|docs| - 1]) + docs[|docs| - 1].words
  }

  /** The tag of each document. */
  function Tags(docs: seq<Document>): seq<string> {
    if docs == [] then [] else Tags(docs[..|docs| - 1]) + [docs[|docs| - 1].tag]
  }

  /** The distinct elements in order of first occurrence. */
  function Dedup(xs: seq<string>): seq<string> {
    if xs == [] then []
    else
      var r := Dedup(xs[..|xs| - 1]);
      if xs[|xs| - 1] in r then r else r + [xs[|xs| - 1]]
  }

  /** Removing repetitions keeps every element. */
  lemma {:induction false} DedupSameMembers(xs: seq<string>)
    ensures forall y :: y in Dedup(xs) <==> y in xs
  {
    if xs != [] {
      DedupSameMembers(xs[..|xs| - 1]);
      assert xs == xs[..|xs| - 1] + [xs[|xs| - 1]];
    }
  }

  // ---- the collection loops ------------------------------------------------

  /**
   * Lines 18-31 of `train.py`: the loop over intents and patterns, then
   * the two `sorted(set(...))`.
   */
  method PrepareData(intents: seq<IntentDef>, nlp: Nlp)
    returns (words: seq<string>, classes: seq<string>, documents: seq<Document>)
    ensures documents == Documents(intents, nlp)
    ensures words == SortedSet(Vocabulary(documents))
    ensures classes == SortedSet(Tags(documents))
  {
    words, classes, documents := [], [], [];
    for i := 0 to |intents|
      invariant documents == Documents(intents[..i], nlp)
      invariant words == Vocabulary(documents)
      invariant classes == Dedup(Tags(documents))
    {
      words, classes, documents := CollectPatterns(intents[i], nlp, words, classes, documents);
      DocumentsStep(intents, i, nlp);
    }
    assert intents[..|intents|] == intents;
    words := SortedSet(words);
    SortedSetOfDedup(Tags(documents));
    classes := SortedSet(classes);
  }

  /** The inner loop of lines 23-28, over the patterns of one intent. */
  method CollectPatterns(intent: IntentDef, nlp: Nlp, words0: seq<string>, classes0: seq<string>, documents0: seq<Document>)
    returns (words: seq<string>, classes: seq<string>, documents: seq<Document>)
    requires words0 == Vocabulary(documents0) && classes0 == Dedup(Tags(documents0))
    ensures documents == documents0 + PatternDocs(intent.tag, intent.patterns, nlp)
    ensures words == Vocabulary(documents) && classes == Dedup(Tags(documents))
  {
    words, classes, documents := words0, classes0, documents0;
    ghost var added: seq<Document> := [];
    for j := 0 to |intent.patterns|
      invariant added == PatternDocs(intent.tag, intent.patterns[..j], nlp)
      invariant documents == documents0 + added
      invariant words == Vocabulary(documents)
      invariant classes == Dedup(Tags(documents))
    {
      var wordlist := CleanText(intent.patterns[j], nlp);
      CollectStep(documents, words, classes, Document(wordlist, intent.tag));
      PatternDocsStep(intent.tag, intent.patterns, j, nlp);
      AppendAssoc(documents0, added, Document(wordlist, intent.tag));
      words := words + wordlist;
      documents := documents + [Document(wordlist, intent.tag)];
      if intent.tag !in classes {
        classes := classes + [intent.tag];
      }
      added := added + [Document(wordlist, intent.tag)];
    }
    assert intent.patterns[..|intent.patterns|] == intent.patterns;
  }

  lemma AppendAssoc(a: seq<Document>, b: seq<Document>, d: Document)
    ensures (a + b) + [d] == a + (b + [d])
  {
  }

  /** One more document extends the word list and the tag list by its own. */
  lemma AppendDocument(docs: seq<Document>, d: Document)
    ensures Vocabulary(docs + [d]) == Vocabulary(docs) + d.words
    ensures Tags(docs + [d]) == Tags(docs) + [d.tag]
  {
    assert (docs + [d])[..|docs|] == docs;
  }

  /**
   * One pass of the inner loop body: `words.extend` and the guarded
   * `classes.append` keep the word list and the class list in step with
   * the documents.
   */
  lemma CollectStep(documents: seq<Document>, words: seq<string>, classes: seq<string>, d: Document)
    requires words == Vocabulary(documents) && classes == Dedup(Tags(documents))
    ensures words + d.words == Vocabulary(documents + [d])
    ensures (if d.tag !in classes then classes + [d.tag] else classes) == Dedup(Tags(documents + [d]))
  {
    AppendDocument(documents, d);
    assert (Tags(documents) + [d.tag])[..|Tags(documents)|] == Tags(documents);
  }

  lemma PatternDocsStep(tag: string, patterns: seq<string>, j: nat, nlp: Nlp)
    requires j < |patterns|
    ensures PatternDocs(tag, patterns[..j + 1], nlp)
         == PatternDocs(tag, patterns[..j], nlp) + [Document(CleanText(patterns[j], nlp), tag)]
  {
    assert patterns[..j + 1][..j] == patterns[..j];
  }

  lemma DocumentsStep(intents: seq<IntentDef>, i: nat, nlp: Nlp)
    requires i < |intents|
    ensures Documents(intents[..i + 1], nlp) == Documents(intents[..i], nlp) + PatternDocs(intents[i].tag, intents[i].patterns, nlp)
  {
    assert intents[..i + 1][..i] == intents[..i];
  }

  /** Removing duplicates first does not change `sorted(set(...))`. */
  lemma SortedSetOfDedup(xs: seq<string>)
    ensures SortedSet(Dedup(xs)) == SortedSet(xs)
  {
    DedupSameMembers(xs);
    StrictlyIncreasingUnique(SortedSet(Dedup(xs)), SortedSet(xs));
  }

  // ---- what the prepared data satisfies ------------------------------------

  /** There is one document per training sentence. */
  lemma {:induction false} DocumentCount(intents: seq<IntentDef>, nlp: Nlp)
    ensures |Documents(intents, nlp)| == PatternCount(intents)
  {
    if intents != [] {
      DocumentCount(intents[..|intents| - 1], nlp);
    }
  }

  /** Each training sentence contributes its cleaned words, paired with its intent's tag. */
  lemma {:induction false} DocumentOfEachPattern(intents: seq<IntentDef>, nlp: Nlp, k: nat, j: nat)
    requires k < |intents| && j < |intents[k].patterns|
    ensures Document(CleanText(intents[k].patterns[j], nlp), intents[k].tag) in Documents(intents, nlp)
  {
    var front := intents[..|intents| - 1];
    if k < |intents| - 1 {
      assert front[k] == intents[k];
      DocumentOfEachPattern(front, nlp, k, j);
    } else {
      var last := intents[|intents| - 1];
      PatternDocsIndex(last.tag, last.patterns, nlp, j);
    }
  }

  /** Some intent with at least one pattern has the tag `t`. */
  predicate TaggedWithPatterns(intents: seq<IntentDef>, t: string) {
    exists k :: 0 <= k < |intents| && intents[k].tag == t && intents[k].patterns != []
  }

  lemma TaggedWithPatternsSplit(intents: seq<IntentDef>, t: string)
    requires intents != []
    ensures var front, last := intents[..|intents| - 1], intents[|intents| - 1];
            TaggedWithPatterns(intents, t) <==> TaggedWithPatterns(front, t) || (last.tag == t && last.patterns != [])
  {
    var front := intents[..|intents| - 1];
    if TaggedWithPatterns(front, t) {
      var k :| 0 <= k < |front| && front[k].tag == t && front[k].patterns != [];
      assert intents[k] == front[k];
    }
    if TaggedWithPatterns(intents, t) {
      var k :| 0 <= k < |intents| && intents[k].tag == t && intents[k].patterns != [];
      if k < |front| {
        assert front[k] == intents[k];
      }
    }
  }

  /** The documents of one intent carry its tag, and there is one when it has a pattern. */
  lemma {:induction false} TagsOfPatternDocs(tag: string, patterns: seq<string>, nlp: Nlp, t: string)
    ensures t in Tags(PatternDocs(tag, patterns, nlp)) <==> t == tag && patterns != []
  {
    if patterns != [] {
      var front := patterns[..|patterns| - 1];
      TagsOfPatternDocs(tag, front, nlp, t);
      AppendDocument(PatternDocs(tag, front, nlp), Document(CleanText(patterns[|patterns| - 1], nlp), tag));
    }
  }

  /** A tag is a class exactly when its intent has at least one pattern. */
  lemma {:induction false} TagsOfDocuments(intents: seq<IntentDef>, nlp: Nlp, t: string)
    ensures t in Tags(Documents(intents, nlp)) <==> TaggedWithPatterns(intents, t)
  {
    if intents != [] {
      var front, last := intents[..|intents| - 1], intents[|intents| - 1];
      TagsOfDocuments(front, nlp, t);
      TagsAppend(Documents(front, nlp), PatternDocs(last.tag, last.patterns, nlp));
      TagsOfPatternDocs(last.tag, last.patterns, nlp, t);
      TaggedWithPatternsSplit(intents, t);
    }
  }

  lemma {:induction false} TagsAppend(a: seq<Document>, b: seq<Document>)
    ensures Tags(a + b) == Tags(a) + Tags(b)
  {
    if b != [] {
      assert (a + b)[..|a + b| - 1] == a + b[..|b| - 1];
      TagsAppend(a, b[..|b| - 1]);
    } else {
      assert a + b == a;
    }
  }

  /** Every word of every document is in the vocabulary. */
  lemma {:induction false} VocabularyCovers(docs: seq<Document>, d: Document, w: string)
    requires d in docs && w in d.words
    ensures w in Vocabulary(docs)
  {
    if d != docs[|docs| - 1] {
      VocabularyCovers(docs[..|docs| - 1], d, w);
    }
  }

  /**
   * The class list is sorted, duplicate-free and holds exactly the tags of
   * the intents with at least one pattern; the vocabulary is sorted,
   * duplicate-free and holds every word of every training sentence.
   */
  lemma PreparedLists(intents: seq<IntentDef>, nlp: Nlp)
    ensures var docs := Documents(intents, nlp);
            && StrictlyIncreasing(SortedSet(Tags(docs)))
            && (forall t :: t in SortedSet(Tags(docs)) <==> TaggedWithPatterns(intents, t))
            && StrictlyIncreasing(SortedSet(Vocabulary(docs)))
            && (forall k, j, w ::
                  0 <= k < |intents| && 0 <= j < |intents[k].patterns| && w in CleanText(intents[k].patterns[j], nlp)
                  ==> w in SortedSet(Vocabulary(docs)))
  {
    var docs := Documents(intents, nlp);
    forall t ensures t in SortedSet(Tags(docs)) <==> TaggedWithPatterns(intents, t) {
      TagsOfDocuments(intents, nlp, t);
    }
    forall k, j, w | 0 <= k < |intents| && 0 <= j < |intents[k].patterns| && w in CleanText(intents[k].patterns[j], nlp)
      ensures w in SortedSet(Vocabulary(docs))
    {
      DocumentOfEachPattern(intents, nlp, k, j);
      VocabularyCovers(docs, Document(CleanText(intents[k].patterns[j], nlp), intents[k].tag), w);
    }
  }

  // ---- the encoding loop -------------------------------------------------

  /** The position of the first occurrence of `x` (`list.index`). */
  function IndexOf(s: seq<string>, x: string): (k: nat)
    requires x in s
    ensures k < |s| && s[k] == x
    ensures forall i :: 0 <= i < k ==> s[i] != x
  {
    if s[0] == x then 0 else 1 + IndexOf(s[1..], x)
  }

  /** `list(output)` with entry `k` set to 1. */
  function OneHot(n: nat, k: nat): seq<int> {
    seq(n, i requires 0 <= i < n => if i == k then 1 else 0)
  }

  /** `np.argmax(row)`: the first position of the largest entry. */
  function ArgMax(row: seq<int>): (k: nat)
    requires row != []
    ensures k < |row|
    ensures forall i :: 0 <= i < |row| ==> row[i] <= row[k]
    ensures forall i :: 0 <= i < k ==> row[i] < row[k]
  {
    if |row| == 1 then 0
    else
      var k := ArgMax(row[..|row| - 1]);
      if row[|row| - 1] > row[k] then |row| - 1 else k
  }

  /** A one-hot row has a single 1, at `k`, and its `argmax` is `k`. */
  lemma OneHotArgMax(n: nat, k: nat)
    requires k < n
    ensures forall i :: 0 <= i < n ==> (OneHot(n, k)[i] == 1 <==> i == k)
    ensures forall i :: 0 <= i < n ==> OneHot(n, k)[i] == 0 || OneHot(n, k)[i] == 1
    ensures ArgMax(OneHot(n, k)) == k
  {
    var row := OneHot(n, k);
    var m := ArgMax(row);
    assert row[k] == 1 <= row[m];
  }

  /** Lines 38-43: the bag of one document, built by `bag.append`. */
  method BuildBag(words: seq<string>, patternWords: seq<string>) returns (bag: seq<int>)
    ensures bag == Bag(words, patternWords)
  {
    bag := [];
    for i := 0 to |words|
      invariant |bag| == i
      invariant forall k :: 0 <= k < i ==> bag[k] == if words[k] in patternWords then 1 else 0
    {
      if words[i] in patternWords {
        bag := bag + [1];
      } else {
        bag := bag + [0];
      }
    }
  }

  /** Every document's tag is a class, as the collection loop guarantees. */
  predicate TagsKnown(documents: seq<Document>, classes: seq<string>) {
    forall k :: 0 <= k < |documents| ==> documents[k].tag in classes
  }

  /** Lines 33-46: one `(bag, row_output)` pair per document, in document order. */
  method BuildTraining(documents: seq<Document>, words: seq<string>, classes: seq<string>)
    returns (training: seq<(seq<int>, seq<int>)>)
    requires TagsKnown(documents, classes)
    ensures |training| == |documents|
    ensures forall k :: 0 <= k < |documents| ==>
              training[k] == (Bag(words, documents[k].words), OneHot(|classes|, IndexOf(classes, documents[k].tag)))
  {
    training := [];
    for k := 0 to |documents|
      invariant |training| == k
      invariant forall m :: 0 <= m < k ==>
                  training[m] == (Bag(words, documents[m].words), OneHot(|classes|, IndexOf(classes, documents[m].tag)))
    {
      var document := documents[k];
      var bag := BuildBag(words, document.words);
      var rowOutput := new int[|classes|](_ => 0);
      var index := IndexOf(classes, document.tag);
      rowOutput[index] := 1;
      assert rowOutput[..] == OneHot(|classes|, index);
      training := training + [(bag, rowOutput[..])];
    }
  }

  /** The tags the collection loop records are all classes. */
  lemma PreparedTagsKnown(intents: seq<IntentDef>, nlp: Nlp)
    ensures TagsKnown(Documents(intents, nlp), SortedSet(Tags(Documents(intents, nlp))))
  {
    var docs := Documents(intents, nlp);
    forall k | 0 <= k < |docs| ensures docs[k].tag in Tags(docs) {
      TagsIndex(docs, k);
    }
  }

  lemma {:induction false} TagsIndex(docs: seq<Document>, k: nat)
    requires k < |docs|
    ensures |Tags(docs)| == |docs| && Tags(docs)[k] == docs[k].tag
  {
    if k < |docs| - 1 {
      TagsIndex(docs[..|docs| - 1], k);
    } else if |docs| > 1 {
      TagsIndex(docs[..|docs| - 1], 0);
    }
  }

  /** `X`: the bag of each training pair. */
  function Inputs(training: seq<(seq<int>, seq<int>)>): seq<seq<int>> {
    seq(|training|, k requires 0 <= k < |training| => training[k].0)
  }

  /** `y`: the `argmax` of each target row. */
  function Labels(training: seq<(seq<int>, seq<int>)>): seq<nat>
    requires forall k :: 0 <= k < |training| ==> training[k].1 != []
  {
    seq(|training|, k requires 0 <= k < |training| => ArgMax(training[k].1))
  }

  /**
   * Row `k` of `X` is the bag of document `k`, and label `k` of `y` is the
   * position of its tag among the classes.
   */
  lemma EncodedRows(training: seq<(seq<int>, seq<int>)>, documents: seq<Document>, words: seq<string>,
                    classes: seq<string>)
    requires TagsKnown(documents, classes) && |training| == |documents|
    requires forall k :: 0 <= k < |documents| ==>
               training[k] == (Bag(words, documents[k].words), OneHot(|classes|, IndexOf(classes, documents[k].tag)))
    ensures forall k :: 0 <= k < |training| ==> training[k].1 != []
    ensures |Inputs(training)| == |training| && |Labels(training)| == |training|
    ensures forall k :: 0 <= k < |training| ==> Inputs(training)[k] == Bag(words, documents[k].words)
    ensures forall k :: 0 <= k < |training| ==>
              Labels(training)[k] < |classes| && classes[Labels(training)[k]] == documents[k].tag
  {
    TargetRows(training, documents, classes);
    forall k | 0 <= k < |training|
      ensures Labels(training)[k] < |classes| && classes[Labels(training)[k]] == documents[k].tag
    {
      assert Labels(training)[k] == IndexOf(classes, documents[k].tag);
    }
  }

  /** The `argmax` of target row `k` is the position of document `k`'s tag. */
  lemma TargetRows(training: seq<(seq<int>, seq<int>)>, documents: seq<Document>, classes: seq<string>)
    requires TagsKnown(documents, classes) && |training| == |documents|
    requires forall k :: 0 <= k < |documents| ==> training[k].1 == OneHot(|classes|, IndexOf(classes, documents[k].tag))
    ensures forall k :: 0 <= k < |training| ==>
              training[k].1 != [] && ArgMax(training[k].1) == IndexOf(classes, documents[k].tag)
  {
    forall k | 0 <= k < |training|
      ensures training[k].1 != [] && ArgMax(training[k].1) == IndexOf(classes, documents[k].tag)
    {
      OneHotArgMax(|classes|, IndexOf(classes, documents[k].tag));
    }
  }

  /** The `data` dict saved with the trained weights. */
  datatype Bundle = Bundle(inputSize: nat, outputSize: nat, words: seq<string>, classes: seq<string>)

  /**
   * The script from loading the intents to saving the bundle, without the
   * network: the training matrix `X`, the label vector `y` and the sizes
   * the network is built with (lines 18-51 and 61-62). The shuffle of
   * line 48 is left out, so the rows stay in document order.
   */
  method Prepare(intents: seq<IntentDef>, nlp: Nlp) returns (x: seq<seq<int>>, y: seq<nat>, bundle: Bundle)
    ensures var docs := Documents(intents, nlp);
            && bundle == Bundle(|SortedSet(Vocabulary(docs))|, |SortedSet(Tags(docs))|,
                                SortedSet(Vocabulary(docs)), SortedSet(Tags(docs)))
            && |x| == |y| == |docs|
            && (forall k :: 0 <= k < |x| ==> x[k] == Bag(bundle.words, docs[k].words))
            && (forall k :: 0 <= k < |y| ==> y[k] < bundle.outputSize && bundle.classes[y[k]] == docs[k].tag)
  {
    var words, classes, documents := PrepareData(intents, nlp);
    PreparedTagsKnown(intents, nlp);
    var training := BuildTraining(documents, words, classes);
    EncodedRows(training, documents, words, classes);
    x := Inputs(training);
    y := Labels(training);
    bundle := Bundle(|words|, |classes|, words, classes);
  }

  /** A training bag has a 1 at every vocabulary word of its own sentence. */
  lemma TrainingBagMarksOwnWords(intents: seq<IntentDef>, nlp: Nlp, k: nat, w: string)
    requires k < |Documents(intents, nlp)| && w in Documents(intents, nlp)[k].words
    ensures var docs := Documents(intents, nlp);
            var words := SortedSet(Vocabulary(docs));
            w in words && Bag(words, docs[k].words)[IndexOf(words, w)] == 1
  {
    var docs := Documents(intents, nlp);
    VocabularyCovers(docs, docs[k], w);
  }
}

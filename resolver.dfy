/**
 * The entity resolver and the intent predictor of `chatbot.py`: the three
 * `*_hybrid` wrappers, which fall back on the spaCy tagger when the alias
 * table has no hit, `predict`, and `predict_with_entities`.
 *
 * The spaCy pipeline enters as a `Tagger` (text to entity spans) and the
 * trained network as a `Network` (bag to predicted class index and
 * confidence): the weights and the floating-point arithmetic behind them
 * are not part of this model.
 */
module Resolver {
  import opened Wrappers
  import opened Python
  import opened Tables
  import opened Normalizer
  import opened BagOfWords
  import opened Gazetteer
  import opened Patterns
  import opened Ner

  type Tagger = string -> seq<Span>

  /** The forward pass, softmax and `argmax`: the class index and its probability. */
  type Network = seq<int> -> (nat, real)

  /** `if x:` on a value that is either a string or `None`. */
  predicate Given(o: Option<string>) {
    o.Some? && o.value != ""
  }

  // ---- the hybrids -------------------------------------------------------

  /** The tagger's result bucket: only consulted once the table has missed. */
  function FirstOf(bucket: seq<string>): Option<string> {
    if bucket != [] then Some(bucket[0]) else None
  }

  /** `extract_driver_hybrid`. */
  function DriverHybrid(text: string, tagger: Tagger): Option<string> {
    var driver := ExtractDriver(text);
    if Given(driver) then driver else FirstOf(Bucketed(tagger(text)).person)
  }

  /** `extract_team_hybrid`. */
  function TeamHybrid(text: string, tagger: Tagger): Option<string> {
    var team := ExtractTeam(text);
    if Given(team) then team else FirstOf(Bucketed(tagger(text)).org)
  }

  /** `extract_race_hybrid`. */
  function RaceHybrid(text: string, tagger: Tagger): Option<string> {
    var race := ExtractRace(text);
    if Given(race) then race else FirstOf(Bucketed(tagger(text)).location)
  }

  /** A driver-table hit is returned unchanged and the tagger is never consulted. */
  lemma DriverHitIgnoresTagger(text: string, t1: Tagger, t2: Tagger)
    requires ExtractDriver(text).Some?
    ensures DriverHybrid(text, t1) == ExtractDriver(text)
    ensures DriverHybrid(text, t2) == DriverHybrid(text, t1)
  {
    AliasMatchFromOccurringKey(Drivers, text);
    CanonicalNamesNonEmpty();
  }

  /** A team-table hit is returned unchanged and the tagger is never consulted. */
  lemma TeamHitIgnoresTagger(text: string, t1: Tagger, t2: Tagger)
    requires ExtractTeam(text).Some?
    ensures TeamHybrid(text, t1) == ExtractTeam(text)
    ensures TeamHybrid(text, t2) == TeamHybrid(text, t1)
  {
    AliasMatchFromOccurringKey(Teams, text);
    CanonicalNamesNonEmpty();
  }

  /** A race-table hit is returned unchanged and the tagger is never consulted. */
  lemma RaceHitIgnoresTagger(text: string, t1: Tagger, t2: Tagger)
    requires ExtractRace(text).Some?
    ensures RaceHybrid(text, t1) == ExtractRace(text)
    ensures RaceHybrid(text, t2) == RaceHybrid(text, t1)
  {
    AliasMatchFromOccurringKey(Races, text);
    CanonicalNamesNonEmpty();
  }

  /** On a table miss the driver is the text of the first PERSON span, if any. */
  lemma DriverMissUsesTagger(text: string, tagger: Tagger)
    requires ExtractDriver(text).None?
    ensures var people := Labelled(tagger(text), "PERSON");
            DriverHybrid(text, tagger) == if people == [] then None else Some(people[0])
  {
    BucketedByLabel(tagger(text));
  }

  /** On a table miss the team is the text of the first ORG span, if any. */
  lemma TeamMissUsesTagger(text: string, tagger: Tagger)
    requires ExtractTeam(text).None?
    ensures var orgs := Labelled(tagger(text), "ORG");
            TeamHybrid(text, tagger) == if orgs == [] then None else Some(orgs[0])
  {
    BucketedByLabel(tagger(text));
  }

  /** On a table miss the race is the text of the first GPE span, if any. */
  lemma RaceMissUsesTagger(text: string, tagger: Tagger)
    requires ExtractRace(text).None?
    ensures var places := Labelled(tagger(text), "GPE");
            RaceHybrid(text, tagger) == if places == [] then None else Some(places[0])
  {
    BucketedByLabel(tagger(text));
  }

  // ---- predict -----------------------------------------------------------

  /**
   * `predict`: the bag of the cleaned sentence over the vocabulary goes
   * through the network, and the predicted index selects the tag.
   */
  function Predict(sentence: string, nlp: Nlp, words: seq<string>, classes: seq<string>, net: Network)
    : (r: PyResult<(string, real)>)
    ensures r.Ok? ==> r.value.0 in classes
    ensures r.Raise? <==> net(Bag(words, CleanText(sentence, nlp))).0 >= |classes|
  {
    var out := net(Bag(words, CleanText(sentence, nlp)));
    if out.0 < |classes| then Ok((classes[out.0], out.1))
    else Raise(IndexError("list index out of range"))
  }

  /**
   * The prediction sees the sentence only through the vocabulary words it
   * contains: two sentences that agree on them get the same intent and
   * confidence.
   */
  lemma SameVocabularySamePrediction(s1: string, s2: string, nlp: Nlp, words: seq<string>, classes: seq<string>, net: Network)
    requires forall i :: 0 <= i < |words| ==> (words[i] in CleanText(s1, nlp) <==> words[i] in CleanText(s2, nlp))
    ensures Predict(s1, nlp, words, classes, net) == Predict(s2, nlp, words, classes, net)
  {
    SameBagIff(words, CleanText(s1, nlp), CleanText(s2, nlp));
  }

  // ---- predict_with_entities ---------------------------------------------

  /** The `entities` dict. */
  datatype Entities = Entities(driver: Option<string>, team: Option<string>, year: Option<string>,
                               race: Option<string>, round: Option<string>)

  /** The dict `predict_with_entities` returns. */
  datatype Prediction = Prediction(intent: string, confidence: real, entities: Entities)

  /** The entities of a sentence, one extractor per key. */
  function EntitiesOf(sentence: string, tagger: Tagger): Entities {
    Entities(DriverHybrid(sentence, tagger), TeamHybrid(sentence, tagger), ExtractYear(sentence),
             RaceHybrid(sentence, tagger), ExtractRound(sentence))
  }

  function PredictWithEntities(sentence: string, nlp: Nlp, words: seq<string>, classes: seq<string>,
                               net: Network, tagger: Tagger): (r: PyResult<Prediction>)
    ensures r.Ok? ==> r.value.intent in classes
  {
    var p :- Predict(sentence, nlp, words, classes, net);
    Ok(Prediction(p.0, p.1, EntitiesOf(sentence, tagger)))
  }

  /**
   * The entities never depend on the network or the vocabulary, and a
   * year entity is always a four-digit year from 2000 to 2029.
   */
  lemma EntitiesIndependentOfPrediction(sentence: string, nlp: Nlp, words: seq<string>, classes: seq<string>,
                                        net: Network, tagger: Tagger)
    requires PredictWithEntities(sentence, nlp, words, classes, net, tagger).Ok?
    ensures var e := PredictWithEntities(sentence, nlp, words, classes, net, tagger).value.entities;
            && e == EntitiesOf(sentence, tagger)
            && (e.year.Some? ==> |e.year.value| == 4 && 2000 <= YearValue(e.year.value) <= 2029)
  {
    ExtractYearSpec(sentence);
  }
}

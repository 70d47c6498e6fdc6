/**
 * The contents of `intents.json`: a list of intents, each with a tag, the
 * example sentences the classifier is trained on, and the canned replies.
 */
module Intents {

  datatype IntentDef = IntentDef(tag: string, patterns: seq<string>, responses: seq<string>)

  /** The number of training sentences across all intents. */
  function PatternCount(intents: seq<IntentDef>): nat {
    if intents == [] then 0
    else PatternCount(intents[..|intents| - 1]) + |intents[|intents| - 1].patterns|
  }
}

# F1 chatbot: a verified model of its text-to-reply path

This project models the deterministic core of a small Formula 1 chat assistant written in Python. It covers:

- **The entity resolver.** Alias tables map driver, team and race names to canonical names. A spaCy fallback is bucketed by entity label. Two regular-expression scanners pick out a year and a round number.
- **The intent predictor's bag-of-words encoding.**
- **`generate_response`.** This covers the confidence gate, the fixed replies, the API-backed branches and their gates, and the canned-reply fallback.
- **The parsing half of the seven Ergast API functions.** Each turns a decoded JSON body into a record or an `{"error": ...}` record.
- **The data-preparation half of the training script.** This builds the vocabulary, the class list, one document per training sentence, and the bag and one-hot rows encoded from them.

The foreign pieces enter as parameters:

- the NLTK tokeniser and lemmatiser (`Normalizer.Nlp`);
- the spaCy tagger (`Resolver.Tagger`);
- the trained network (`Resolver.Network`);
- the HTTP request (`Api.Fetch`, a URL to `Option<Json>`);
- `random.choice` (a `pick` index).

Python's exceptions are modelled explicitly (`Python.PyResult`). The `KeyError` and `IndexError` named by the API layer's `except` clauses become error records. Other exceptions (`TypeError`, `AttributeError`) escape from the function, as they do in the source.

Modules: `Wrappers`, `Python`, `Json`, `Tables`, `Normalizer`, `BagOfWords`, `StrOrder`, `Intents`, `Gazetteer`, `Patterns`, `Ner`, `Resolver`, `Api`, `Dispatcher` and `Training`, one per file.

## Model

| member | source | states |
|---|---|---|
| Python.LowerChar | utils.py:137 | `lower()` on one character maps exactly the ASCII capitals 32 code points down and leaves every other character alone; the result is never a capital |
| Json.Lookup | api_functions.py:40 | a dict lookup finds nothing exactly when no member has the key, and what it finds is bound to that key in the object |
| Json.Key | api_functions.py:40-41 | `x[k]` succeeds exactly on a dict holding `k`; a dict without it raises `KeyError('k')`, anything else raises `TypeError` |
| Json.GetOr | api_functions.py:86 | `x.get(k, default)` on a dict yields the bound value or the default; on anything else it raises `AttributeError` |
| Tables.Keys | chatbot.py:47 | `d.keys()` lists one key per entry, in insertion order |
| Tables.Get | chatbot.py:250 | `d.get(k)` is `None` exactly when no entry has key `k`, and otherwise a value bound to `k` |
| Tables.GetEntry | utils.py:22-131 | in a table without repeated keys, looking up an entry's key yields that entry's value |
| Tables.DriverKeysLowerCase | utils.py:22-68 | every driver alias is already lower-case, as the match against lower-cased text requires |
| Tables.TeamKeysLowerCase | utils.py:84-105 | every team alias is already lower-case |
| Tables.RaceKeysLowerCase | utils.py:107-131 | every race alias is already lower-case |
| Tables.DriverKeysDistinct | utils.py:22-68 | no driver alias is listed twice |
| Tables.TeamKeysDistinct | utils.py:84-105 | no team alias is listed twice |
| Tables.RaceKeysDistinct | utils.py:107-131 | no race alias is listed twice |
| Tables.CanonicalNamesNonEmpty | utils.py:22-131 | every canonical name in the three alias tables is non-empty, so a table hit is truthy |
| Tables.ApiIdsNameDrivers | utils.py:22-81 | every driver with an API id is a canonical name of the driver table |
| Tables.RetiredDriversHaveNoApiId | utils.py:61-81 | Michael Schumacher and Sebastian Vettel are canonical driver names without an API id |
| Tables.LongNamesUnlisted | utils.py:71-81 | no name of 16 characters or more has an API id |
| Normalizer.Strip | utils.py:138 | `re.sub(r'[^a-z\s]', "", s)` keeps only lower-case ASCII letters and whitespace, every occurrence of each such character, and never lengthens the text |
| Normalizer.StripAppend | utils.py:138 | the deletion works character by character, so the kept characters stay in input order |
| Normalizer.LowerAndStrip | utils.py:137-138 | after lower-casing and filtering, only `a`-`z` and whitespace remain, so no digit or punctuation survives |
| Normalizer.LowerAndStripIdempotent | utils.py:137-138 | lower-casing and filtering a second time changes nothing |
| Normalizer.LowerAndStripKeepsLetters | utils.py:137-138 | every letter of the lower-cased sentence survives the filter as often as it occurs |
| Normalizer.NoLettersNoWords | utils.py:136-141 | a sentence without ASCII letters cleans to no words, for a tokeniser that yields no tokens on blank text |
| BagOfWords.Bag | chatbot.py:139 | the bag has one entry per vocabulary word, each 0 or 1 |
| BagOfWords.BagEntry | chatbot.py:139 | entry `i` is 1 exactly when vocabulary word `i` is among the sentence's words |
| BagOfWords.UnknownWordIgnored | chatbot.py:139 | a word outside the vocabulary leaves the bag unchanged wherever it occurs |
| BagOfWords.SameBagIff | chatbot.py:139 | two sentences get the same bag exactly when they agree on which vocabulary words they contain |
| StrOrder.LessTransitive | train.py:30-31 | Python's string `<` is transitive |
| StrOrder.LessTotal | train.py:30-31 | any two distinct strings are ordered one way or the other |
| StrOrder.InsertSorted | train.py:30-31 | adding a string to a strictly increasing list keeps it strictly increasing and adds exactly that string |
| StrOrder.SortedSet | train.py:30-31 | `sorted(set(xs))` is strictly increasing and holds exactly the elements of `xs` |
| StrOrder.StrictlyIncreasingUnique | train.py:30-31 | two strictly increasing lists with the same elements are equal, so `sorted(set(...))` is determined by the set |
| StrOrder.SortedSetIdempotent | train.py:30-31 | sorting and deduplicating a second time changes nothing |
| Gazetteer.SortByLength | chatbot.py:47 | `sorted(keys, key=len, reverse=True)` is a permutation of the keys in non-increasing length |
| Gazetteer.FirstMatch | chatbot.py:48-51 | the scan returns a key the text contains, and nothing exactly when no key occurs |
| Gazetteer.SortedScanIsBest | chatbot.py:47-51 | scanning the sorted keys picks the reference key: longest occurring key, earlier table entry among equal lengths (the sort is stable) |
| Gazetteer.BestMatchPreferred | chatbot.py:47-51 | the reference key is absent exactly when no key occurs, and otherwise is the preferred key: no occurring key is longer, and none of equal length comes earlier |
| Gazetteer.PreferredUnique | chatbot.py:47-51 | at most one key is preferred for a text |
| Gazetteer.ExtractAlias | chatbot.py:45-51 | the loop over sorted keys with early return computes the extractor's answer |
| Gazetteer.AliasMatchSpec | chatbot.py:45-51 | the extractor returns `None` exactly when no alias occurs in the lower-cased text, and otherwise the value of the preferred alias |
| Gazetteer.AliasMatchFromOccurringKey | chatbot.py:71-80 | a found name is always the value of some alias the lower-cased text contains |
| Gazetteer.LongerAliasWins | chatbot.py:74-78 | whenever an alias occurs, the chosen alias is at least as long (so "max verstappen" beats "max") |
| Gazetteer.DriverAliasSelfHit | chatbot.py:71-80 | every driver alias, in any letter case, yields its own canonical name |
| Gazetteer.TeamAliasSelfHit | chatbot.py:97-105 | every team alias, in any letter case, yields its own canonical name |
| Gazetteer.RaceAliasSelfHit | chatbot.py:45-51 | every race alias, in any letter case, yields its own canonical name |
| Patterns.FindYear | chatbot.py:121 | `re.search(r'\b(20[0-2][0-9])\b')` finds the leftmost word-bounded match, or reports that none exists |
| Patterns.ExtractYearSpec | chatbot.py:118-130 | the year is the leftmost word-bounded 2000-2029 in the original text; only without one does "last year" give 2024, else "this year" or "current" give 2025, else `None` |
| Patterns.SpaceEnd | chatbot.py:64 | `\s*` consumes the whole whitespace run |
| Patterns.DigitEnd | chatbot.py:64 | `\d+` is greedy: it consumes the whole digit run |
| Patterns.FindRound | chatbot.py:64 | the search returns the capture of the leftmost position where the round pattern matches, and `None` exactly when it matches nowhere |
| Patterns.ExtractRoundSpec | chatbot.py:63-67 | the round is the whole digit run after the leftmost "round"/"race" (optional whitespace between) that is followed by digits in the lower-cased text; `None` exactly when there is no such match |
| Patterns.RoundFiveExample | chatbot.py:63-67 | "round 5" yields "5" |
| Patterns.RaceTwelveExample | chatbot.py:63-67 | "race 12" yields the whole run "12" |
| Patterns.RaceAloneExample | chatbot.py:63-67 | "race" with no digits yields `None` |
| Patterns.NumericYearExample | chatbot.py:121-123 | "2021 results?" yields "2021" |
| Patterns.LastYearExample | chatbot.py:125-126 | "last year" yields "2024" |
| Patterns.NoYearExample | chatbot.py:118-130 | a text with neither a year nor a phrase yields `None` |
| Ner.Labelled | advanced_ner.py:20-30 | a bucket never holds more texts than there are spans |
| Ner.BucketedByLabel | advanced_ner.py:11-32 | with every test on `label_` (the corrected code), each bucket holds the texts of the spans of its label (PERSON, DATE, GPE, CARDINAL, ORG), in document order |
| Ner.AtMostOneBucket | advanced_ner.py:21-30 | a span lands in at most one bucket |
| Ner.ExtractEntities | advanced_ner.py:11-32 | the loop that appends in place computes the corrected bucketing |
| Ner.AsWrittenDropsPersonDateOrg | advanced_ner.py:21-30 | as written, the person, date and org buckets always stay empty and no `KeyError` is raised; only GPE and CARDINAL spans are kept |
| Ner.PersonLostAsWritten | advanced_ner.py:21-22 | a PERSON span ("Antonio Giovinazzi") is lost as written and kept by the corrected code |
| Resolver.DriverHitIgnoresTagger | chatbot.py:83-91 | a driver-table hit is returned unchanged, whatever the tagger says |
| Resolver.TeamHitIgnoresTagger | chatbot.py:108-110 | a team-table hit is returned unchanged, whatever the tagger says |
| Resolver.RaceHitIgnoresTagger | chatbot.py:54-56 | a race-table hit is returned unchanged, whatever the tagger says |
| Resolver.DriverMissUsesTagger | chatbot.py:92-94 | on a table miss the driver is the first PERSON span, or `None` when there is none |
| Resolver.TeamMissUsesTagger | chatbot.py:112-115 | on a table miss the team is the first ORG span, or `None` |
| Resolver.RaceMissUsesTagger | chatbot.py:58-61 | on a table miss the race is the first GPE span, or `None` |
| Resolver.Predict | chatbot.py:135-150 | a prediction is always one of the classes, and it raises exactly when the network's index is out of range |
| Resolver.SameVocabularySamePrediction | chatbot.py:138-150 | two sentences that agree on the vocabulary words they contain get the same intent and confidence |
| Resolver.PredictWithEntities | chatbot.py:153-170 | the predicted intent is always one of the classes |
| Resolver.EntitiesIndependentOfPrediction | chatbot.py:153-170 | the entities do not depend on the network or the vocabulary, and a year entity is always a four-digit year from 2000 to 2029 |
| Api.Catch | api_functions.py:60-61 | a success is kept as the record; a `KeyError` or `IndexError` becomes an error record naming the exception after the prefix; any other exception escapes |
| Api.MapRowsSpec | api_functions.py:232-240 | a finished append loop has one record per element, each built from that element |
| Api.MapRowsRaises | api_functions.py:232-240 | the loop stops with the exception of the first element whose record cannot be built |
| Api.CollectRows | api_functions.py:117-125 | the `for` loop with `append` computes the row sequence or the first exception |
| Api.RangeRowsSpec | api_functions.py:44-51 | a finished loop over `range(lo, hi)` has one record per index, each built from it |
| Api.ReadLastRace | api_functions.py:39-59 | the `top_3` loop with the record after it computes the last-race parse |
| Api.GetLastRaceResults | api_functions.py:26-61 | `get_last_race_results` is the fetch, the no-data check and the caught parse |
| Api.LastRacePodium | api_functions.py:44-58 | the podium is the first `min(3, len(results))` results in order; the winner is the first podium driver, or "Unknown" when there is none |
| Api.LastRaceRecordKeeps | api_functions.py:53-58 | the record keeps the podium rows and names the first as the winner |
| Api.NextRaceTime | api_functions.py:86 | a race without `time` gets "TBA"; otherwise its own time is kept |
| Api.ReadDriverStandings | api_functions.py:113-130 | the loop over `standings[:10]` computes the standings parse |
| Api.GetDriverStandings | api_functions.py:97-132 | `get_driver_standings` is the fetch of the year's URL, the no-data check and the caught parse |
| Api.DriverStandingsTopTen | api_functions.py:118-125 | only the first `min(10, n)` standings are kept, in order, each from its own entry |
| Api.ReadConstructorStandings | api_functions.py:154-171 | the loop over all standings computes the constructor standings parse |
| Api.GetConstructorStandings | api_functions.py:138-173 | `get_constructor_standings` is the fetch, the no-data check and the caught parse |
| Api.ConstructorStandingsAll | api_functions.py:159-166 | every constructor standing is kept, in order, each from its own entry |
| Api.DriverInfoDefaults | api_functions.py:199-201 | the name is "givenName familyName", and a missing code or permanent number reads "N/A" |
| Api.ReadSchedule | api_functions.py:229-246 | the loop over the races computes the schedule parse |
| Api.GetRaceSchedule | api_functions.py:213-248 | `get_race_schedule` is the fetch, the no-data check and the caught parse |
| Api.ScheduleShape | api_functions.py:232-246 | one record per race, in order; the total is the number of races and the season is the `year` argument |
| Api.NoDataErrorRecords | api_functions.py:36-37 | for each of the seven functions, no body or a falsy one yields that function's fixed error record |
| Api.MissingRootErrorRecords | api_functions.py:60-61 | a truthy object without `MRData` yields the race-table parsers' error records, naming the key `'MRData'` where the message includes the exception |
| Api.MissingRootStandingsErrorRecords | api_functions.py:131-132 | the same for the standings and driver-info parsers |
| Api.EmptyRaceListErrorRecords | api_functions.py:90-91 | an empty race list is an `IndexError` error record for every function that takes race 0 |
| Api.EmptyRaceListSchedule | api_functions.py:229-246 | an empty race list is an empty schedule, not an error |
| Api.NonObjectEscapes | api_functions.py:39-61 | a truthy body that is not an object escapes every function as a `TypeError`, since the `except` clauses do not name it |
| Dispatcher.FirstFive | chatbot.py:272 | `races[:5]` is a prefix of at most five races, all of them when there are no more than five |
| Dispatcher.FirstTagged | chatbot.py:295-296 | the scan stops at the first intent with the tag, or finds none |
| Dispatcher.LowConfidenceFallback | chatbot.py:187-188 | below confidence 0.6 the reply is the fixed rephrase request, whatever the intent, entities and data |
| Dispatcher.FixedReplies | chatbot.py:192-199 | greeting, goodbye and thanks get their fixed replies |
| Dispatcher.RaceErrorRecordsApologise | chatbot.py:201-213 | an error record from the next-race or last-race function yields that branch's apology |
| Dispatcher.StandingsErrorRecordsApologise | chatbot.py:222-237 | an error record from either standings function, for the year entity or 'current', yields that branch's apology |
| Dispatcher.ScheduleErrorRecordApologises | chatbot.py:265-269 | an error record from the schedule function yields the schedule apology |
| Dispatcher.RaceWinnerErrorRecordApologises | chatbot.py:278-286 | with a round given, an error record from the race-winner function, for the year or 2024, yields "Sorry , couldn't find that race" |
| Dispatcher.DriverInfoErrorRecordApologises | chatbot.py:254-256 | for a driver with an API id, an error record from the driver-info function yields the apology naming the driver |
| Dispatcher.NoDataApologies | chatbot.py:201-276 | when the request brings back nothing usable, each of the five season and race branches apologises |
| Dispatcher.SeasonBranchesReadOneUrl | chatbot.py:222-276 | the standings and schedule replies depend only on the body at the one URL built from the year entity, or 'current' when there is none |
| Dispatcher.RaceWinnerGates | chatbot.py:278-286 | without a round the reply asks for the round (naming the race when one is given) or the race, with no request made; with a round it depends only on that round's results URL, for the year or 2024 |
| Dispatcher.DriverInfoGates | chatbot.py:244-256 | without a driver, or for a driver without an API id, the reply is the fixed clarification with no request made; otherwise it depends only on that driver's URL |
| Dispatcher.RetiredDriverApology | chatbot.py:250-252 | Michael Schumacher gets "I don't have detailed info" without any request |
| Dispatcher.ScheduleShowsFirstFive | chatbot.py:271-275 | races after the fifth never change the schedule reply |
| Dispatcher.CannedReplies | chatbot.py:293-299 | an unhandled tag gets a member of the first matching intent's responses, an `IndexError` if that list is empty, and the fixed "not sure how to help" when no intent has the tag |
| Dispatcher.AppendLines | chatbot.py:218-219 | the `response +=` loop appends one line per element, in order |
| Dispatcher.FormatLastRace | chatbot.py:215-220 | the last-race reply is the header and one podium line per entry |
| Dispatcher.FormatDriverStandings | chatbot.py:228-231 | the driver standings reply is the header and one line per standing |
| Dispatcher.FormatConstructorStandings | chatbot.py:239-242 | the constructor standings reply is the header and one line per team |
| Dispatcher.FormatSchedule | chatbot.py:271-276 | the schedule reply is the header, two lines for each of the first five races, and the count of the rest |
| Dispatcher.PickFallback | chatbot.py:295-299 | the scan over intents computes the fallback reply |
| Dispatcher.Dispatch | chatbot.py:186-299 | the branch chain computes the reply specification that the lemmas above characterise |
| Dispatcher.GenerateResponse | chatbot.py:174-299 | `generate_response` is the prediction with entities followed by the dispatch |
| Training.PatternDocs | train.py:23-26 | an intent contributes exactly one document per pattern |
| Training.PatternDocsIndex | train.py:23-26 | document `j` of an intent is its `j`-th pattern, cleaned, paired with the intent's tag |
| Training.DedupSameMembers | train.py:27-28 | the `not in classes` append keeps exactly the elements it has seen |
| Training.PrepareData | train.py:18-31 | the nested collection loops and the two `sorted(set(...))` passes produce every document in order, the sorted vocabulary and the sorted class list |
| Training.CollectPatterns | train.py:23-28 | the inner loop appends the intent's documents, one per pattern, and keeps the word list and class list in step with them |
| Training.CollectStep | train.py:24-28 | one iteration extends the word list by the document's words and adds its tag only when new |
| Training.SortedSetOfDedup | train.py:31 | deduplicating before `sorted(set(...))` changes nothing |
| Training.DocumentCount | train.py:22-26 | there is one document per training sentence |
| Training.DocumentOfEachPattern | train.py:22-26 | every training sentence contributes its cleaned words paired with its intent's tag |
| Training.TagsOfPatternDocs | train.py:23-28 | an intent's documents carry its tag, and carry it at all only when it has a pattern |
| Training.TagsOfDocuments | train.py:22-28 | a tag is among the documents' tags exactly when some intent with that tag has a pattern |
| Training.VocabularyCovers | train.py:25 | every word of every document is in the collected word list |
| Training.PreparedLists | train.py:22-31 | the class list is strictly increasing and holds exactly the tags with at least one pattern; the vocabulary is strictly increasing and holds every word of every training sentence |
| Training.IndexOf | train.py:45 | `list.index` finds the first occurrence |
| Training.ArgMax | train.py:51 | `np.argmax` is the first position of the largest entry |
| Training.OneHotArgMax | train.py:44-45 | a one-hot row has a single 1, at `k`, and its argmax is `k` |
| Training.BuildBag | train.py:38-43 | the `bag.append` loop computes the bag-of-words of the document |
| Training.BuildTraining | train.py:33-46 | one pair per document in order: its bag, and a target row of class-list length with a single 1 at the index of its tag |
| Training.PreparedTagsKnown | train.py:22-31 | every document's tag is in the class list, so `classes.index` never raises |
| Training.EncodedRows | train.py:49-51 | `X` is each document's bag and `y[k]` is the position of document `k`'s tag in the class list |
| Training.TargetRows | train.py:44-51 | the argmax of target row `k` is the index of document `k`'s tag |
| Training.Prepare | train.py:18-62 | `X`, `y` and the saved sizes: one row per document, each its bag, each label the index of its tag, input size the vocabulary length, output size the class count |
| Training.TrainingBagMarksOwnWords | train.py:25-43 | a training bag has a 1 at every vocabulary word of its own sentence |

## Left out

- The neural network, the softmax, the argmax and the confidence in `predict` are floating-point numerics over trained weights. They are the `Network` parameter, which yields an index and a confidence.
- The training loop, the optimiser, the `DataLoader`, `torch.save` and `torch.load` are numerics and file I/O.
- `random.shuffle(training)` in `train.py` is left out, so the rows stay in document order. Every row property holds per row, so the shuffle would only permute them.
- `get_json_response` (HTTP, timeout, printing) is network I/O. It is the `Fetch` parameter, which yields the decoded body or `None`.
- The NLTK tokeniser and lemmatiser, and the spaCy pipeline, are foreign libraries. They enter as uninterpreted functions (`Nlp`, `Tagger`).
- Loading `intents.json` is I/O, and the intents are passed as a value. Intents are assumed well-formed (a tag, patterns and responses each); a malformed file would raise before any modelled code runs.
- The `chat()` console loop, with its exit words and its catch-all `except`, is console I/O. `GenerateResponse` returns the exception the loop would print.
- `random.choice` is the `pick` parameter, and the reply is entry `pick % len(responses)`. The properties only use membership in the list.
- `Python.LowerChar`: only the ASCII behaviour of `str.lower` is modelled. Likewise `\w` and `\d` are ASCII-only; `\s` is the full `str.isspace` set.
- `Json.Repr`: `str()` of a container uses a simplified `repr`. JSON numbers are integers only, with no floats.
- `Training.BuildTraining` requires every document's tag to be in the class list. That is the case the `ValueError` of `classes.index` would cover; `Training.PreparedTagsKnown` proves the collection loop always meets it.
- `Dispatcher.AppendLines` models the four `response +=` loops of `generate_response` once, with the line format as a parameter. `Dispatcher.FormatSchedule` passes the two-line entry of each race as one line.
- `Resolver.DriverHybrid` / `TeamHybrid` / `RaceHybrid` use the corrected span bucketing (see Findings). As written, the PERSON and ORG buckets are always empty, so a table miss on driver or team always gives `None`.
- The schedule footer is computed as written, `total_races - 5`. It is negative for seasons of fewer than five races.

## Findings

| source | as written | input that shows it | evidently intended | confidence | as-written member | corrected member |
|---|---|---|---|---|---|---|
| advanced_ner.py:21-26 | the PERSON, DATE and ORG tests compare `ent.label` (the integer label id) with a string, which is never equal, and the DATE branch appends to a key `'data'` the dict does not have | a span labelled PERSON, e.g. `Span(380, "PERSON", "Antonio Giovinazzi")`, leaves the person bucket empty, so `extract_driver_hybrid` can never fall back on spaCy for a person | test `label_` in every branch, like the GPE and CARDINAL branches, and append DATE spans to `'date'` | not executed | Ner.AsWrittenDropsPersonDateOrg, Ner.PersonLostAsWritten | Ner.BucketedByLabel, Ner.ExtractEntities |

/**
 * `generate_response` of `chatbot.py`: a confidence gate, the fixed
 * replies, one branch per API-backed intent (error check, then the reply
 * text built line by line), the two gates that ask for a missing driver or
 * round, and the fallback to the canned replies of `intents.json`.
 *
 * `random.choice` enters as the `pick` parameter: the reply chosen is
 * entry `pick % len(responses)`.
 */
module Dispatcher {
  import opened Wrappers
  import opened Python
  import opened Json
  import opened Tables
  import opened Normalizer
  import opened Api
  import opened Intents
  import opened Resolver

  const Threshold: real := 0.6

  const NotUnderstood := "I'm not sure I understood. Can you rephrase?"
  const GreetingReply := "Hello! How can I help you with Formula 1 today?"
  const GoodbyeReply := "Goodbye! Enjoy the race weekend."
  const ThanksReply := "You're welcome!"
  const NoHelpReply := "I'm not sure how to help with that."

  /** `x if x else default` on a string entity. */
  function OrDefault(o: Option<string>, default: string): string {
    if Given(o) then o.value else default
  }

  // ---- the reply texts -----------------------------------------------------

  /** The lines one `for` loop appends, in order. */
  function Lines<T>(xs: seq<T>, line: T -> string): string {
    if xs == [] then "" else Lines(xs[..|xs| - 1], line) + line(xs[|xs| - 1])
  }

  /** One more iteration appends one more line. */
  lemma LinesStep<T>(xs: seq<T>, i: nat, line: T -> string)
    requires i < |xs|
    ensures Lines(xs[..i + 1], line) == Lines(xs[..i], line) + line(xs[i])
  {
    assert xs[..i + 1][..i] == xs[..i];
  }

  function NextRaceText(r: NextRace): string {
    " Next Race: " + Str(r.raceName) + "\n"
    + " Circuit: " + Str(r.circuit) + ", " + Str(r.country) + "\n"
    + " Date: " + Str(r.date) + "\n"
    + " Time: " + Str(r.time)
  }

  function LastRaceHeader(r: LastRace): string {
    " " + Str(r.raceName) + " (" + Str(r.date) + ")\n" + " " + Str(r.circuit) + "\n\n" + " Podium:\n"
  }

  function PodiumLine(p: PodiumEntry): string {
    "  " + Str(p.position) + ". " + p.driver + " (" + Str(p.team) + ")\n"
  }

  function LastRaceText(r: LastRace): string {
    LastRaceHeader(r) + Lines(r.top3, PodiumLine)
  }

  function DriverStandingsHeader(s: DriverStandings): string {
    " " + Str(s.season) + " Driver Standings (Top 10):\n\n"
  }

  function StandingLine(d: StandingRow): string {
    Str(d.position) + ". " + d.driver + " - " + Str(d.points) + " pts (" + Str(d.wins) + " wins)  Team: " + Str(d.team) + "\n"
  }

  function DriverStandingsText(s: DriverStandings): string {
    DriverStandingsHeader(s) + Lines(s.standings, StandingLine)
  }

  function ConstructorStandingsHeader(s: ConstructorStandings): string {
    " " + Str(s.season) + " Constructor Standings:\n\n"
  }

  function ConstructorLine(t: ConstructorRow): string {
    Str(t.position) + ". " + Str(t.team) + " - " + Str(t.points) + " pts (" + Str(t.wins) + " wins)\n"
  }

  function ConstructorStandingsText(s: ConstructorStandings): string {
    ConstructorStandingsHeader(s) + Lines(s.standings, ConstructorLine)
  }

  function DriverInfoText(d: DriverInfo): string {
    " " + d.fullName + "\n"
    + " Code: " + Str(d.code) + "\n"
    + " Number: " + Str(d.number) + "\n"
    + " Nationality: " + Str(d.nationality) + "\n"
    + " Born: " + Str(d.birthDay) + "\n"
    + " More info: " + Str(d.url)
  }

  function ScheduleHeader(s: Schedule): string {
    " " + s.season + " F1 Calendar (" + NatToString(s.totalRaces) + " races):\n\n"
  }

  function ScheduleLine(r: ScheduleRow): string {
    "Round " + Str(r.round) + ": " + Str(r.raceName) + " (" + Str(r.date) + ")\n"
    + "   " + Str(r.circuit) + ", " + Str(r.country) + "\n"
  }

  /** `races[:5]`. */
  function FirstFive<T>(xs: seq<T>): (r: seq<T>)
    ensures |r| <= 5 && r <= xs
    ensures |xs| >= 5 ==> |r| == 5
    ensures |xs| <= 5 ==> r == xs
  {
    if |xs| <= 5 then xs else xs[..5]
  }

  function ScheduleFooter(s: Schedule): string {
    "\n... and " + IntToString(s.totalRaces - 5) + " more races!"
  }

  function ScheduleText(s: Schedule): string {
    ScheduleHeader(s) + Lines(FirstFive(s.races), ScheduleLine) + ScheduleFooter(s)
  }

  function RaceWinnerText(w: RaceWinner): string {
    " race name :" + Str(w.raceName) + " \n"
    + "winner : " + w.winner + "\n"
    + "Team: " + Str(w.team) + "\n"
    + "Date : " + Str(w.date)
  }

  // ---- the branches --------------------------------------------------------

  /**
   * `if "error" in data: return apology`, otherwise the record's text. An
   * exception the API function let through propagates.
   */
  function Answer<T>(o: Outcome<T>, apology: string, text: T -> string): PyResult<string> {
    match o
    case Record(v) => Ok(text(v))
    case ErrorRecord(_) => Ok(apology)
    case Escaped(e) => Raise(e)
  }

  const DriverInfoApology := "Sorry, I couldn't find information about "

  function DriverInfoReply(driver: Option<string>, fetch: Fetch): PyResult<string> {
    if !Given(driver) then Ok("Please specify which driver you'd like to know about.")
    else
      var apiId := Get(DriverApiIds, driver.value);
      if !Given(apiId) then Ok("Sorry, I don't have detailed info for " + driver.value + " yet.")
      else Answer(DriverInfoFor(fetch, apiId.value), DriverInfoApology + driver.value + ".", DriverInfoText)
  }

  function RaceWinnerReply(e: Entities, fetch: Fetch): PyResult<string> {
    if !Given(e.round) && Given(e.race) then Ok("Which round was " + e.race.value + "? Please specify the round number.")
    else if !Given(e.round) then Ok("Please specify which race")
    else Answer(RaceWinnerFor(fetch, OrDefault(e.year, "2024"), e.round.value), "Sorry , couldn't find that race", RaceWinnerText)
  }

  /** The position of the first intent whose tag is `tag`, or `|intents|` when there is none. */
  function FirstTagged(intents: seq<IntentDef>, tag: string): (k: nat)
    ensures k <= |intents|
    ensures forall j :: 0 <= j < k ==> intents[j].tag != tag
    ensures k < |intents| ==> intents[k].tag == tag
  {
    if intents == [] || intents[0].tag == tag then 0 else 1 + FirstTagged(intents[1..], tag)
  }

  /** The responses of the first intent whose tag is `tag`. */
  function ResponsesFor(intents: seq<IntentDef>, tag: string): Option<seq<string>> {
    var k := FirstTagged(intents, tag);
    if k < |intents| then Some(intents[k].responses) else None
  }

  /** `random.choice(responses)`, with the random index supplied. */
  function Choice(responses: seq<string>, pick: nat): PyResult<string> {
    if responses == [] then Raise(IndexError("Cannot choose from an empty sequence"))
    else Ok(responses[pick % |responses|])
  }

  function Fallback(intents: seq<IntentDef>, tag: string, pick: nat): PyResult<string> {
    match ResponsesFor(intents, tag)
    case None => Ok(NoHelpReply)
    case Some(responses) => Choice(responses, pick)
  }

  /** Everything `generate_response` does after `predict_with_entities`. */
  function Respond(intent: string, confidence: real, e: Entities, fetch: Fetch, intents: seq<IntentDef>, pick: nat)
    : PyResult<string>
  {
    if confidence < Threshold then Ok(NotUnderstood)
    else if intent == "greeting" then Ok(GreetingReply)
    else if intent == "goodbye" then Ok(GoodbyeReply)
    else if intent == "thanks" then Ok(ThanksReply)
    else if intent == "next_race" then
      Answer(NextRaceInfo(fetch), "Sorry, I couldn't fetch the next race information.", NextRaceText)
    else if intent == "last_race" then
      Answer(LastRaceResults(fetch), "Sorry, I couldn't fetch the last race results.", LastRaceText)
    else if intent == "driver_standings" then
      Answer(DriverStandingsInfo(fetch, OrDefault(e.year, "current")), "Sorry, I couldn't fetch the driver standings.",
             DriverStandingsText)
    else if intent == "constructor_standings" then
      Answer(ConstructorStandingsInfo(fetch, OrDefault(e.year, "current")),
             "Sorry, I couldn't fetch the constructor standings.", ConstructorStandingsText)
    else if intent == "driver_info" then DriverInfoReply(e.driver, fetch)
    else if intent == "race_schedule" then
      Answer(ScheduleFor(fetch, OrDefault(e.year, "current")), "Sorry, I couldn't fetch the race schedule.", ScheduleText)
    else if intent == "race_winner" then RaceWinnerReply(e, fetch)
    else Fallback(intents, intent, pick)
  }

  /** The intents with a branch of their own. */
  predicate Handled(intent: string) {
    intent in ["greeting", "goodbye", "thanks", "next_race", "last_race", "driver_standings",
               "constructor_standings", "driver_info", "race_schedule", "race_winner"]
  }

  /** `generate_response(user_input)`, from the sentence to the reply. */
  function ResponseTo(userInput: string, nlp: Nlp, words: seq<string>, classes: seq<string>, net: Network,
                      tagger: Tagger, fetch: Fetch, intents: seq<IntentDef>, pick: nat): PyResult<string>
  {
    var p :- PredictWithEntities(userInput, nlp, words, classes, net, tagger);
    Respond(p.intent, p.confidence, p.entities, fetch, intents, pick)
  }

  // ---- what the replies satisfy ---------------------------------------------

  /** Below the confidence threshold the reply is fixed, whatever the intent, entities and data. */
  lemma LowConfidenceFallback(intent: string, confidence: real, e: Entities, fetch: Fetch, intents: seq<IntentDef>, pick: nat)
    requires confidence < Threshold
    ensures Respond(intent, confidence, e, fetch, intents, pick) == Ok(NotUnderstood)
  {
  }

  /** Greeting, goodbye and thanks have fixed replies that need no data. */
  lemma FixedReplies(confidence: real, e: Entities, fetch: Fetch, intents: seq<IntentDef>, pick: nat)
    requires confidence >= Threshold
    ensures Respond("greeting", confidence, e, fetch, intents, pick) == Ok(GreetingReply)
    ensures Respond("goodbye", confidence, e, fetch, intents, pick) == Ok(GoodbyeReply)
    ensures Respond("thanks", confidence, e, fetch, intents, pick) == Ok(ThanksReply)
  {
  }

  /** An error record from the API layer turns into the branch's fixed apology: the two race branches. */
  lemma RaceErrorRecordsApologise(confidence: real, e: Entities, fetch: Fetch, intents: seq<IntentDef>, pick: nat)
    requires confidence >= Threshold
    ensures NextRaceInfo(fetch).ErrorRecord? ==>
              Respond("next_race", confidence, e, fetch, intents, pick) == Ok("Sorry, I couldn't fetch the next race information.")
    ensures LastRaceResults(fetch).ErrorRecord? ==>
              Respond("last_race", confidence, e, fetch, intents, pick) == Ok("Sorry, I couldn't fetch the last race results.")
  {
  }

  /** The same for the two standings branches. */
  lemma StandingsErrorRecordsApologise(confidence: real, e: Entities, fetch: Fetch, intents: seq<IntentDef>, pick: nat)
    requires confidence >= Threshold
    ensures DriverStandingsInfo(fetch, OrDefault(e.year, "current")).ErrorRecord? ==>
              Respond("driver_standings", confidence, e, fetch, intents, pick) == Ok("Sorry, I couldn't fetch the driver standings.")
    ensures ConstructorStandingsInfo(fetch, OrDefault(e.year, "current")).ErrorRecord? ==>
              Respond("constructor_standings", confidence, e, fetch, intents, pick)
              == Ok("Sorry, I couldn't fetch the constructor standings.")
  {
  }

  /** The same for the schedule branch. */
  lemma ScheduleErrorRecordApologises(confidence: real, e: Entities, fetch: Fetch, intents: seq<IntentDef>, pick: nat)
    requires confidence >= Threshold
    ensures ScheduleFor(fetch, OrDefault(e.year, "current")).ErrorRecord? ==>
              Respond("race_schedule", confidence, e, fetch, intents, pick) == Ok("Sorry, I couldn't fetch the race schedule.")
  {
  }

  /** The same for `race_winner`, once a round is given. */
  lemma RaceWinnerErrorRecordApologises(confidence: real, e: Entities, fetch: Fetch, intents: seq<IntentDef>, pick: nat)
    requires confidence >= Threshold
    ensures Given(e.round) && RaceWinnerFor(fetch, OrDefault(e.year, "2024"), e.round.value).ErrorRecord? ==>
              Respond("race_winner", confidence, e, fetch, intents, pick) == Ok("Sorry , couldn't find that race")
  {
  }

  /** The same for `driver_info`, once the driver and its API id are known. */
  lemma DriverInfoErrorRecordApologises(confidence: real, e: Entities, fetch: Fetch, intents: seq<IntentDef>, pick: nat)
    requires confidence >= Threshold
    ensures Given(e.driver) && Given(Get(DriverApiIds, e.driver.value))
            && DriverInfoFor(fetch, Get(DriverApiIds, e.driver.value).value).ErrorRecord? ==>
              Respond("driver_info", confidence, e, fetch, intents, pick) == Ok(DriverInfoApology + e.driver.value + ".")
  {
    DriverInfoBranch(confidence, e, fetch, intents, pick);
  }

  /** In particular, when the request brings back nothing usable, every API-backed branch apologises. */
  lemma NoDataApologies(confidence: real, e: Entities, fetch: Fetch, intents: seq<IntentDef>, pick: nat)
    requires confidence >= Threshold
    ensures !Fetched(fetch(NextRaceUrl)) ==>
              Respond("next_race", confidence, e, fetch, intents, pick) == Ok("Sorry, I couldn't fetch the next race information.")
    ensures !Fetched(fetch(LastRaceUrl)) ==>
              Respond("last_race", confidence, e, fetch, intents, pick) == Ok("Sorry, I couldn't fetch the last race results.")
    ensures !Fetched(fetch(DriverStandingsUrl(OrDefault(e.year, "current")))) ==>
              Respond("driver_standings", confidence, e, fetch, intents, pick) == Ok("Sorry, I couldn't fetch the driver standings.")
    ensures !Fetched(fetch(ConstructorStandingsUrl(OrDefault(e.year, "current")))) ==>
              Respond("constructor_standings", confidence, e, fetch, intents, pick)
              == Ok("Sorry, I couldn't fetch the constructor standings.")
    ensures !Fetched(fetch(ScheduleUrl(OrDefault(e.year, "current")))) ==>
              Respond("race_schedule", confidence, e, fetch, intents, pick) == Ok("Sorry, I couldn't fetch the race schedule.")
  {
    NoDataErrorRecords(fetch, OrDefault(e.year, "current"), "", "");
    RaceErrorRecordsApologise(confidence, e, fetch, intents, pick);
    StandingsErrorRecordsApologise(confidence, e, fetch, intents, pick);
    ScheduleErrorRecordApologises(confidence, e, fetch, intents, pick);
  }

  /**
   * The standings and schedule branches fetch exactly one URL, built from
   * the year entity or 'current': two fetchers that agree on it give the
   * same reply.
   */
  lemma SeasonBranchesReadOneUrl(confidence: real, e: Entities, f1: Fetch, f2: Fetch, intents: seq<IntentDef>, pick: nat)
    requires confidence >= Threshold
    ensures var year := OrDefault(e.year, "current");
            f1(DriverStandingsUrl(year)) == f2(DriverStandingsUrl(year)) ==>
              Respond("driver_standings", confidence, e, f1, intents, pick) == Respond("driver_standings", confidence, e, f2, intents, pick)
    ensures var year := OrDefault(e.year, "current");
            f1(ConstructorStandingsUrl(year)) == f2(ConstructorStandingsUrl(year)) ==>
              Respond("constructor_standings", confidence, e, f1, intents, pick)
              == Respond("constructor_standings", confidence, e, f2, intents, pick)
    ensures var year := OrDefault(e.year, "current");
            f1(ScheduleUrl(year)) == f2(ScheduleUrl(year)) ==>
              Respond("race_schedule", confidence, e, f1, intents, pick) == Respond("race_schedule", confidence, e, f2, intents, pick)
    ensures !Given(e.year) ==> OrDefault(e.year, "current") == "current"
  {
  }

  /**
   * Without a round, `race_winner` asks for one and calls nothing; with a
   * round it reads only the results of that round, in the given year or
   * in 2024.
   */
  lemma RaceWinnerGates(confidence: real, e: Entities, f1: Fetch, f2: Fetch, intents: seq<IntentDef>, pick: nat)
    requires confidence >= Threshold
    ensures !Given(e.round) ==>
              Respond("race_winner", confidence, e, f1, intents, pick) == Respond("race_winner", confidence, e, f2, intents, pick)
              == Ok(if Given(e.race) then "Which round was " + e.race.value + "? Please specify the round number."
                    else "Please specify which race")
    ensures Given(e.round) && f1(RaceWinnerUrl(OrDefault(e.year, "2024"), e.round.value))
                              == f2(RaceWinnerUrl(OrDefault(e.year, "2024"), e.round.value)) ==>
              Respond("race_winner", confidence, e, f1, intents, pick) == Respond("race_winner", confidence, e, f2, intents, pick)
  {
  }

  /**
   * Without a driver, or for a driver with no API id, `driver_info` asks
   * or apologises and calls nothing; otherwise it reads only that driver's
   * page.
   */
  lemma DriverInfoGates(confidence: real, e: Entities, f1: Fetch, f2: Fetch, intents: seq<IntentDef>, pick: nat)
    requires confidence >= Threshold
    ensures !Given(e.driver) ==>
              Respond("driver_info", confidence, e, f1, intents, pick) == Respond("driver_info", confidence, e, f2, intents, pick)
              == Ok("Please specify which driver you'd like to know about.")
    ensures Given(e.driver) && Get(DriverApiIds, e.driver.value).None? ==>
              Respond("driver_info", confidence, e, f1, intents, pick) == Respond("driver_info", confidence, e, f2, intents, pick)
              == Ok("Sorry, I don't have detailed info for " + e.driver.value + " yet.")
    ensures Given(e.driver) && Given(Get(DriverApiIds, e.driver.value))
            && f1(DriverInfoUrl(Get(DriverApiIds, e.driver.value).value)) == f2(DriverInfoUrl(Get(DriverApiIds, e.driver.value).value)) ==>
              Respond("driver_info", confidence, e, f1, intents, pick) == Respond("driver_info", confidence, e, f2, intents, pick)
  {
    DriverInfoBranch(confidence, e, f1, intents, pick);
    DriverInfoBranch(confidence, e, f2, intents, pick);
  }

  /** Above the threshold, `driver_info` is answered by its gate alone. */
  lemma DriverInfoBranch(confidence: real, e: Entities, fetch: Fetch, intents: seq<IntentDef>, pick: nat)
    requires confidence >= Threshold
    ensures Respond("driver_info", confidence, e, fetch, intents, pick) == DriverInfoReply(e.driver, fetch)
  {
  }

  /** A driver in the alias table without an API id gets the apology, with no request made. */
  lemma RetiredDriverApology(confidence: real, e: Entities, fetch: Fetch, intents: seq<IntentDef>, pick: nat)
    requires confidence >= Threshold && e.driver == Some("Michael Schumacher")
    ensures Respond("driver_info", confidence, e, fetch, intents, pick)
            == Ok("Sorry, I don't have detailed info for " + "Michael Schumacher" + " yet.")
  {
    RetiredDriversHaveNoApiId();
    DriverInfoGates(confidence, e, fetch, fetch, intents, pick);
  }

  /** The schedule reply lists at most five races: whatever follows the fifth never shows. */
  lemma ScheduleShowsFirstFive(s: Schedule, more: seq<ScheduleRow>)
    requires |s.races| >= 5
    ensures ScheduleText(s.(races := s.races[..5] + more)) == ScheduleText(s)
    ensures |FirstFive(s.races)| == 5
  {
    var t := s.(races := s.races[..5] + more);
    assert (s.races[..5] + more)[..5] == s.races[..5];
    assert FirstFive(t.races) == s.races[..5];
    assert |s.races| == 5 ==> s.races[..5] == s.races;
    assert FirstFive(s.races) == s.races[..5];
  }

  /**
   * An intent without a branch of its own gets one of the canned replies
   * of the first intent with that tag, an `IndexError` when that list is
   * empty, and a fixed reply when no intent has the tag.
   */
  lemma CannedReplies(intent: string, confidence: real, e: Entities, fetch: Fetch, intents: seq<IntentDef>, pick: nat)
    requires confidence >= Threshold && !Handled(intent)
    ensures (forall i :: 0 <= i < |intents| ==> intents[i].tag != intent) ==>
              Respond(intent, confidence, e, fetch, intents, pick) == Ok(NoHelpReply)
    ensures forall i :: 0 <= i < |intents| && intents[i].tag == intent && (forall j :: 0 <= j < i ==> intents[j].tag != intent) ==>
              var r := Respond(intent, confidence, e, fetch, intents, pick);
              && (intents[i].responses != [] ==> r.Ok? && r.value in intents[i].responses)
              && (intents[i].responses == [] ==> r == Raise(IndexError("Cannot choose from an empty sequence")))
  {
    var k := FirstTagged(intents, intent);
    if k < |intents| && intents[k].responses != [] {
      assert intents[k].responses[pick % |intents[k].responses|] in intents[k].responses;
    }
  }

  // ---- the methods ---------------------------------------------------------

  /** `for x in xs: response += line(x)`. */
  method AppendLines<T>(response: string, xs: seq<T>, line: T -> string) returns (r: string)
    ensures r == response + Lines(xs, line)
  {
    r := response;
    assert xs[..0] == [];
    for i := 0 to |xs|
      invariant r == response + Lines(xs[..i], line)
    {
      LinesStep(xs, i, line);
      r := r + line(xs[i]);
    }
    assert xs[..|xs|] == xs;
  }

  /** The `last_race` reply text, one line per podium entry. */
  method FormatLastRace(race: LastRace) returns (response: string)
    ensures response == LastRaceText(race)
  {
    response := " " + Str(race.raceName) + " (" + Str(race.date) + ")\n";
    response := response + " " + Str(race.circuit) + "\n\n";
    response := response + " Podium:\n";
    response := AppendLines(response, race.top3, PodiumLine);
  }

  /** The `driver_standings` reply text, one line per standing. */
  method FormatDriverStandings(standings: DriverStandings) returns (response: string)
    ensures response == DriverStandingsText(standings)
  {
    response := " " + Str(standings.season) + " Driver Standings (Top 10):\n\n";
    response := AppendLines(response, standings.standings, StandingLine);
  }

  /** The `constructor_standings` reply text, one line per team. */
  method FormatConstructorStandings(standings: ConstructorStandings) returns (response: string)
    ensures response == ConstructorStandingsText(standings)
  {
    response := " " + Str(standings.season) + " Constructor Standings:\n\n";
    response := AppendLines(response, standings.standings, ConstructorLine);
  }

  /** The `race_schedule` reply text: two lines for each of the first five races, then the count of the rest. */
  method FormatSchedule(schedule: Schedule) returns (response: string)
    ensures response == ScheduleText(schedule)
  {
    response := " " + schedule.season + " F1 Calendar (" + NatToString(schedule.totalRaces) + " races):\n\n";
    response := AppendLines(response, FirstFive(schedule.races), ScheduleLine);
    response := response + "\n... and " + IntToString(schedule.totalRaces - 5) + " more races!";
  }

  /** The `for intent_data in intents['intents']` scan of the final `else`. */
  method PickFallback(intents: seq<IntentDef>, intent: string, pick: nat) returns (r: PyResult<string>)
    ensures r == Fallback(intents, intent, pick)
  {
    for i := 0 to |intents|
      invariant forall j :: 0 <= j < i ==> intents[j].tag != intent
    {
      if intents[i].tag == intent {
        return Choice(intents[i].responses, pick);
      }
    }
    return Ok(NoHelpReply);
  }

  /** The branches of `generate_response` after the confidence gate. */
  method Dispatch(intent: string, confidence: real, entities: Entities, fetch: Fetch, intents: seq<IntentDef>, pick: nat)
    returns (r: PyResult<string>)
    ensures r == Respond(intent, confidence, entities, fetch, intents, pick)
  {
    if confidence < Threshold {
      return Ok(NotUnderstood);
    }
    if intent == "greeting" {
      return Ok(GreetingReply);
    } else if intent == "goodbye" {
      return Ok(GoodbyeReply);
    } else if intent == "thanks" {
      return Ok(ThanksReply);
    } else if intent == "next_race" {
      var raceData := NextRaceInfo(fetch);
      if raceData.Escaped? {
        return Raise(raceData.error);
      } else if raceData.ErrorRecord? {
        return Ok("Sorry, I couldn't fetch the next race information.");
      }
      return Ok(NextRaceText(raceData.value));
    } else if intent == "last_race" {
      var raceData := GetLastRaceResults(fetch);
      if raceData.Escaped? {
        return Raise(raceData.error);
      } else if raceData.ErrorRecord? {
        return Ok("Sorry, I couldn't fetch the last race results.");
      }
      var response := FormatLastRace(raceData.value);
      return Ok(response);
    } else if intent == "driver_standings" {
      var standingsData := GetDriverStandings(fetch, OrDefault(entities.year, "current"));
      if standingsData.Escaped? {
        return Raise(standingsData.error);
      } else if standingsData.ErrorRecord? {
        return Ok("Sorry, I couldn't fetch the driver standings.");
      }
      var response := FormatDriverStandings(standingsData.value);
      return Ok(response);
    } else if intent == "constructor_standings" {
      var standingsData := GetConstructorStandings(fetch, OrDefault(entities.year, "current"));
      if standingsData.Escaped? {
        return Raise(standingsData.error);
      } else if standingsData.ErrorRecord? {
        return Ok("Sorry, I couldn't fetch the constructor standings.");
      }
      var response := FormatConstructorStandings(standingsData.value);
      return Ok(response);
    } else if intent == "driver_info" {
      return DriverInfoReply(entities.driver, fetch);
    } else if intent == "race_schedule" {
      var scheduleData := GetRaceSchedule(fetch, OrDefault(entities.year, "current"));
      if scheduleData.Escaped? {
        return Raise(scheduleData.error);
      } else if scheduleData.ErrorRecord? {
        return Ok("Sorry, I couldn't fetch the race schedule.");
      }
      var response := FormatSchedule(scheduleData.value);
      return Ok(response);
    } else if intent == "race_winner" {
      return RaceWinnerReply(entities, fetch);
    }
    r := PickFallback(intents, intent, pick);
  }

  /** `generate_response(user_input)`. */
  method GenerateResponse(userInput: string, nlp: Nlp, words: seq<string>, classes: seq<string>, net: Network,
                          tagger: Tagger, fetch: Fetch, intents: seq<IntentDef>, pick: nat)
    returns (r: PyResult<string>)
    ensures r == ResponseTo(userInput, nlp, words, classes, net, tagger, fetch, intents, pick)
  {
    var result :- PredictWithEntities(userInput, nlp, words, classes, net, tagger);
    r := Dispatch(result.intent, result.confidence, result.entities, fetch, intents, pick);
  }
}

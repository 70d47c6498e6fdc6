/**
 * The parsing half of `api_functions.py`: the seven `get_*` functions
 * after the HTTP request. The request itself (`get_json_response`) is the
 * `Fetch` parameter, which maps a URL to the decoded body or `None`.
 *
 * Each function builds a record from the JSON inside
 * `try ... except (KeyError, IndexError)`. A `KeyError` or `IndexError`
 * becomes an error record; any other exception (a `TypeError` from
 * subscripting a value of the wrong kind, an `AttributeError` from `.get`
 * on a non-dict) leaves the function, which `Escaped` records.
 */
module Api {
  import opened Wrappers
  import opened Python
  import opened Json

  type Fetch = string -> Option<Json>

  const BaseUrl := "http://ergast.com/api/f1/"

  /** What a `get_*` function returns or raises. */
  datatype Outcome<+T> = Record(value: T) | ErrorRecord(message: string) | Escaped(error: PyError)

  /** `except (KeyError, IndexError) as e: return {"error": f"{prefix}{e}"}`. */
  function Catch<T>(r: PyResult<T>, prefix: string): (o: Outcome<T>)
    ensures r.Ok? ==> o == Record(r.value)
    ensures r.Raise? && r.error.Caught() ==> o == ErrorRecord(prefix + r.error.Detail())
    ensures r.Raise? && !r.error.Caught() ==> o == Escaped(r.error)
  {
    match r
    case Ok(v) => Record(v)
    case Raise(e) => if e.Caught() then ErrorRecord(prefix + e.Detail()) else Escaped(e)
  }

  /** `except (KeyError, IndexError): return {"error": message}`. */
  function CatchFixed<T>(r: PyResult<T>, message: string): Outcome<T> {
    match r
    case Ok(v) => Record(v)
    case Raise(e) => if e.Caught() then ErrorRecord(message) else Escaped(e)
  }

  /** `if not data` is false: a body arrived and it is truthy. */
  predicate Fetched(data: Option<Json>) {
    data.Some? && Truthy(data.value)
  }

  /** `j[k0][k1]...`. */
  function Path(j: Json, keys: seq<string>): PyResult<Json> {
    if keys == [] then Ok(j)
    else
      var v :- Key(j, keys[0]);
      Path(v, keys[1..])
  }

  /** `f"{d['givenName']} {d['familyName']}"`. */
  function FullName(d: Json): PyResult<string> {
    var given :- Key(d, "givenName");
    var family :- Key(d, "familyName");
    Ok(Str(given) + " " + Str(family))
  }

  /** `data['MRData']['RaceTable']['Races'][0]`. */
  function FirstRace(data: Json): PyResult<Json> {
    var races :- Path(data, ["MRData", "RaceTable", "Races"]);
    At(races, 0)
  }

  // ---- the loops: one record per element, stopping at the first exception --

  /** Prepends the rows already collected to the rows still to come. */
  function Prepended<T>(done: seq<T>, rest: PyResult<seq<T>>): PyResult<seq<T>> {
    match rest
    case Ok(rows) => Ok(done + rows)
    case Raise(e) => Raise(e)
  }

  /** `for x in xs: rows.append(row(x))`. */
  function MapRows<T>(xs: seq<Json>, row: Json -> PyResult<T>): PyResult<seq<T>> {
    if xs == [] then Ok([])
    else
      var first :- row(xs[0]);
      var rest :- MapRows(xs[1..], row);
      Ok([first] + rest)
  }

  /** A finished loop has one record per element, each built from that element. */
  lemma {:induction false} MapRowsSpec<T>(xs: seq<Json>, row: Json -> PyResult<T>)
    requires MapRows(xs, row).Ok?
    ensures |MapRows(xs, row).value| == |xs|
    ensures forall k :: 0 <= k < |xs| ==> row(xs[k]) == Ok(MapRows(xs, row).value[k])
  {
    if xs != [] {
      MapRowsSpec(xs[1..], row);
      forall k | 0 < k < |xs| ensures row(xs[k]) == Ok(MapRows(xs, row).value[k]) {
        assert xs[1..][k - 1] == xs[k];
      }
    }
  }

  /** The loop stops at the first element whose record cannot be built. */
  lemma {:induction false} MapRowsRaises<T>(xs: seq<Json>, row: Json -> PyResult<T>, k: nat)
    requires k < |xs| && row(xs[k]).Raise?
    requires forall m :: 0 <= m < k ==> row(xs[m]).Ok?
    ensures MapRows(xs, row) == Raise(row(xs[k]).error)
  {
    if k > 0 {
      MapRowsRaises(xs[1..], row, k - 1);
    }
  }

  /** One more iteration of the loop: the next element's record, or its exception. */
  lemma MapRowsStep<T>(xs: seq<Json>, row: Json -> PyResult<T>, i: nat, done: seq<T>)
    requires i < |xs|
    ensures Prepended(done, MapRows(xs[i..], row)) ==
            match row(xs[i])
            case Raise(e) => Raise(e)
            case Ok(v) => Prepended(done + [v], MapRows(xs[i + 1..], row))
  {
    assert xs[i..][0] == xs[i];
    assert xs[i..][1..] == xs[i + 1..];
    if row(xs[i]).Ok? && MapRows(xs[i + 1..], row).Ok? {
      var v, rest := row(xs[i]).value, MapRows(xs[i + 1..], row).value;
      assert done + ([v] + rest) == (done + [v]) + rest;
    }
  }

  /** The `for` loop with `append`, in place on a local list. */
  method CollectRows<T>(xs: seq<Json>, row: Json -> PyResult<T>) returns (r: PyResult<seq<T>>)
    ensures r == MapRows(xs, row)
  {
    var rows: seq<T> := [];
    var i := 0;
    assert xs[0..] == xs;
    assert Prepended(rows, MapRows(xs, row)) == MapRows(xs, row) by {
      if MapRows(xs, row).Ok? {
        assert [] + MapRows(xs, row).value == MapRows(xs, row).value;
      }
    }
    while i < |xs|
      invariant 0 <= i <= |xs|
      invariant MapRows(xs, row) == Prepended(rows, MapRows(xs[i..], row))
    {
      MapRowsStep(xs, row, i, rows);
      var next :- row(xs[i]);
      rows := rows + [next];
      i := i + 1;
    }
    assert xs[i..] == [];
    assert rows + [] == rows;
    return Ok(rows);
  }

  // ---- 1. get_last_race_results --------------------------------------------

  datatype PodiumEntry = PodiumEntry(position: Json, driver: string, team: Json)

  datatype LastRace = LastRace(raceName: Json, date: Json, circuit: Json, winner: string, top3: seq<PodiumEntry>)

  const LastRaceUrl := BaseUrl + "current/last/results.json"

  /** One iteration of the podium loop, in the order Python evaluates it. */
  function PodiumRow(results: Json, i: nat): PyResult<PodiumEntry> {
    var result :- At(results, i);
    var driver :- Key(result, "Driver");
    var position :- Key(result, "position");
    var name :- FullName(driver);
    var maker :- Key(result, "Constructor");
    var team :- Key(maker, "name");
    Ok(PodiumEntry(position, name, team))
  }

  /** `for i in range(lo, hi): rows.append(row(src, i))`. */
  function RangeRows<T>(lo: nat, hi: nat, src: Json, row: (Json, nat) -> PyResult<T>): PyResult<seq<T>>
    decreases hi - lo
  {
    if lo >= hi then Ok([])
    else
      var first :- row(src, lo);
      var rest :- RangeRows(lo + 1, hi, src, row);
      Ok([first] + rest)
  }

  /** A finished loop has one record per index, each built from that index. */
  lemma {:induction false} RangeRowsSpec<T>(lo: nat, hi: nat, src: Json, row: (Json, nat) -> PyResult<T>)
    requires lo <= hi && RangeRows(lo, hi, src, row).Ok?
    ensures |RangeRows(lo, hi, src, row).value| == hi - lo
    ensures forall k :: lo <= k < hi ==> row(src, k) == Ok(RangeRows(lo, hi, src, row).value[k - lo])
    decreases hi - lo
  {
    if lo < hi {
      RangeRowsSpec(lo + 1, hi, src, row);
      var rows := RangeRows(lo, hi, src, row).value;
      var rest := RangeRows(lo + 1, hi, src, row).value;
      assert rows == [row(src, lo).value] + rest;
      forall k | lo <= k < hi ensures row(src, k) == Ok(rows[k - lo]) {
        if k > lo {
          assert rows[k - lo] == rest[k - lo - 1];
        }
      }
    }
  }

  /** One more iteration of the loop over indices. */
  lemma RangeRowsStep<T>(i: nat, hi: nat, src: Json, row: (Json, nat) -> PyResult<T>, done: seq<T>)
    requires i < hi
    ensures Prepended(done, RangeRows(i, hi, src, row)) ==
            match row(src, i)
            case Raise(e) => Raise(e)
            case Ok(v) => Prepended(done + [v], RangeRows(i + 1, hi, src, row))
  {
    if row(src, i).Ok? && RangeRows(i + 1, hi, src, row).Ok? {
      var v, rest := row(src, i).value, RangeRows(i + 1, hi, src, row).value;
      assert done + ([v] + rest) == (done + [v]) + rest;
    }
  }

  function Min(a: nat, b: nat): nat {
    if a < b then a else b
  }

  /** The returned dict of `get_last_race_results`, built after the loop. */
  function LastRaceRecord(race: Json, top3: seq<PodiumEntry>): PyResult<LastRace> {
    var raceName :- Key(race, "raceName");
    var date :- Key(race, "date");
    var circuit :- Key(race, "Circuit");
    var circuitName :- Key(circuit, "circuitName");
    Ok(LastRace(raceName, date, circuitName, if top3 != [] then top3[0].driver else "Unknown", top3))
  }

  /** The `try` block of `get_last_race_results`. */
  function ParseLastRace(data: Json): PyResult<LastRace> {
    var race :- FirstRace(data);
    var results :- Key(race, "Results");
    var n :- Len(results);
    var top3 :- RangeRows(0, Min(3, n), results, PodiumRow);
    LastRaceRecord(race, top3)
  }

  function LastRaceResults(fetch: Fetch): Outcome<LastRace> {
    var data := fetch(LastRaceUrl);
    if !Fetched(data) then ErrorRecord("Could not fetch race data")
    else Catch(ParseLastRace(data.value), "Failed to parse race data: ")
  }

  /** `get_last_race_results` with its `top_3` loop. */
  method ReadLastRace(data: Json) returns (r: PyResult<LastRace>)
    ensures r == ParseLastRace(data)
  {
    var race :- FirstRace(data);
    var results :- Key(race, "Results");
    var n :- Len(results);
    var m := Min(3, n);
    var top3: seq<PodiumEntry> := [];
    var i := 0;
    assert Prepended(top3, RangeRows(0, m, results, PodiumRow)) == RangeRows(0, m, results, PodiumRow) by {
      if RangeRows(0, m, results, PodiumRow).Ok? {
        assert [] + RangeRows(0, m, results, PodiumRow).value == RangeRows(0, m, results, PodiumRow).value;
      }
    }
    while i < m
      invariant 0 <= i <= m
      invariant RangeRows(0, m, results, PodiumRow) == Prepended(top3, RangeRows(i, m, results, PodiumRow))
      decreases m - i
    {
      RangeRowsStep(i, m, results, PodiumRow, top3);
      var row :- PodiumRow(results, i);
      top3 := top3 + [row];
      i := i + 1;
    }
    assert top3 + [] == top3;
    r := LastRaceRecord(race, top3);
  }

  method GetLastRaceResults(fetch: Fetch) returns (o: Outcome<LastRace>)
    ensures o == LastRaceResults(fetch)
  {
    var data := fetch(LastRaceUrl);
    if !Fetched(data) {
      return ErrorRecord("Could not fetch race data");
    }
    var parsed := ReadLastRace(data.value);
    return Catch(parsed, "Failed to parse race data: ");
  }

  /**
   * The podium is the first `min(3, len(results))` results in order, and
   * the winner is the first of them, or "Unknown" when there is none.
   */
  lemma LastRacePodium(data: Json, race: Json, items: seq<Json>)
    requires FirstRace(data) == Ok(race) && Key(race, "Results") == Ok(JArr(items))
    requires ParseLastRace(data).Ok?
    ensures var v := ParseLastRace(data).value;
            && |v.top3| == Min(3, |items|)
            && (forall k :: 0 <= k < |v.top3| ==> PodiumRow(JArr(items), k) == Ok(v.top3[k]))
            && v.winner == (if items == [] then "Unknown" else v.top3[0].driver)
  {
    var m := Min(3, |items|);
    assert Len(JArr(items)) == Ok(|items|);
    var rows := RangeRows(0, m, JArr(items), PodiumRow);
    assert rows.Ok? && ParseLastRace(data) == LastRaceRecord(race, rows.value);
    RangeRowsSpec(0, m, JArr(items), PodiumRow);
    LastRaceRecordKeeps(race, rows.value);
  }

  /** The record keeps the rows it is given and names the first as the winner. */
  lemma LastRaceRecordKeeps(race: Json, top3: seq<PodiumEntry>)
    requires LastRaceRecord(race, top3).Ok?
    ensures LastRaceRecord(race, top3).value.top3 == top3
    ensures LastRaceRecord(race, top3).value.winner == if top3 == [] then "Unknown" else top3[0].driver
  {
  }

  // ---- 2. get_next_race ----------------------------------------------------

  datatype NextRace = NextRace(raceName: Json, date: Json, time: Json, circuit: Json, country: Json)

  const NextRaceUrl := BaseUrl + "current/next.json"

  function ParseNextRace(data: Json): PyResult<NextRace> {
    var race :- FirstRace(data);
    var raceName :- Key(race, "raceName");
    var date :- Key(race, "date");
    var time :- GetOr(race, "time", JStr("TBA"));
    var circuit :- Path(race, ["Circuit", "circuitName"]);
    var country :- Path(race, ["Circuit", "Location", "country"]);
    Ok(NextRace(raceName, date, time, circuit, country))
  }

  function NextRaceInfo(fetch: Fetch): Outcome<NextRace> {
    var data := fetch(NextRaceUrl);
    if !Fetched(data) then ErrorRecord("Could not fetch next race data")
    else Catch(ParseNextRace(data.value), "Failed to parse next race data: ")
  }

  /** A race without a `time` member is given the time "TBA"; otherwise its own time is kept. */
  lemma NextRaceTime(data: Json, race: Json)
    requires FirstRace(data) == Ok(race) && ParseNextRace(data).Ok?
    ensures Lookup(race.members, "time").None? ==> ParseNextRace(data).value.time == JStr("TBA")
    ensures Lookup(race.members, "time").Some? ==> ParseNextRace(data).value.time == Lookup(race.members, "time").value
  {
    assert Key(race, "raceName").Ok?;
  }

  // ---- 3. get_driver_standings ---------------------------------------------

  datatype StandingRow = StandingRow(position: Json, driver: string, team: Json, points: Json, wins: Json)

  datatype DriverStandings = DriverStandings(season: Json, standings: seq<StandingRow>)

  function DriverStandingsUrl(year: string): string {
    BaseUrl + year + "/driverStandings.json"
  }

  /** `data['MRData']['StandingsTable']['StandingsLists'][0]`. */
  function FirstStandingsList(data: Json): PyResult<Json> {
    var lists :- Path(data, ["MRData", "StandingsTable", "StandingsLists"]);
    At(lists, 0)
  }

  function DriverStandingRow(d: Json): PyResult<StandingRow> {
    var position :- Key(d, "position");
    var driver :- Key(d, "Driver");
    var name :- FullName(driver);
    var constructors :- Key(d, "Constructors");
    var first :- At(constructors, 0);
    var team :- Key(first, "name");
    var points :- Key(d, "points");
    var wins :- Key(d, "wins");
    Ok(StandingRow(position, name, team, points, wins))
  }

  function ParseDriverStandings(data: Json): PyResult<DriverStandings> {
    var list :- FirstStandingsList(data);
    var standings :- Key(list, "DriverStandings");
    var top10 :- Prefix(standings, 10);
    var xs :- Iterate(top10);
    var rows :- MapRows(xs, DriverStandingRow);
    var season :- Key(list, "season");
    Ok(DriverStandings(season, rows))
  }

  function DriverStandingsInfo(fetch: Fetch, year: string): Outcome<DriverStandings> {
    var data := fetch(DriverStandingsUrl(year));
    if !Fetched(data) then ErrorRecord("Could not fetch standings")
    else Catch(ParseDriverStandings(data.value), "Failed to parse standings: ")
  }

  /** `get_driver_standings` with its loop over `standings[:10]`. */
  method ReadDriverStandings(data: Json) returns (r: PyResult<DriverStandings>)
    ensures r == ParseDriverStandings(data)
  {
    var list :- FirstStandingsList(data);
    var standings :- Key(list, "DriverStandings");
    var top10 :- Prefix(standings, 10);
    var xs :- Iterate(top10);
    var rows :- CollectRows(xs, DriverStandingRow);
    var season :- Key(list, "season");
    return Ok(DriverStandings(season, rows));
  }

  method GetDriverStandings(fetch: Fetch, year: string) returns (o: Outcome<DriverStandings>)
    ensures o == DriverStandingsInfo(fetch, year)
  {
    var data := fetch(DriverStandingsUrl(year));
    if !Fetched(data) {
      return ErrorRecord("Could not fetch standings");
    }
    var parsed := ReadDriverStandings(data.value);
    return Catch(parsed, "Failed to parse standings: ");
  }

  /** Only the first ten standings are kept, in order, each from its own entry. */
  lemma DriverStandingsTopTen(data: Json, list: Json, items: seq<Json>)
    requires FirstStandingsList(data) == Ok(list) && Key(list, "DriverStandings") == Ok(JArr(items))
    requires ParseDriverStandings(data).Ok?
    ensures var rows := ParseDriverStandings(data).value.standings;
            && |rows| == Min(10, |items|)
            && forall k :: 0 <= k < |rows| ==> DriverStandingRow(items[k]) == Ok(rows[k])
  {
    var top := if 10 < |items| then items[..10] else items;
    assert Prefix(JArr(items), 10) == Ok(JArr(top));
    MapRowsSpec(top, DriverStandingRow);
  }

  // ---- 4. get_constructor_standings ----------------------------------------

  datatype ConstructorRow = ConstructorRow(position: Json, team: Json, nationality: Json, points: Json, wins: Json)

  datatype ConstructorStandings = ConstructorStandings(season: Json, standings: seq<ConstructorRow>)

  function ConstructorStandingsUrl(year: string): string {
    BaseUrl + year + "/constructorStandings.json"
  }

  function ConstructorStandingRow(t: Json): PyResult<ConstructorRow> {
    var position :- Key(t, "position");
    var team :- Path(t, ["Constructor", "name"]);
    var nationality :- Path(t, ["Constructor", "nationality"]);
    var points :- Key(t, "points");
    var wins :- Key(t, "wins");
    Ok(ConstructorRow(position, team, nationality, points, wins))
  }

  function ParseConstructorStandings(data: Json): PyResult<ConstructorStandings> {
    var list :- FirstStandingsList(data);
    var standings :- Key(list, "ConstructorStandings");
    var xs :- Iterate(standings);
    var rows :- MapRows(xs, ConstructorStandingRow);
    var season :- Key(list, "season");
    Ok(ConstructorStandings(season, rows))
  }

  function ConstructorStandingsInfo(fetch: Fetch, year: string): Outcome<ConstructorStandings> {
    var data := fetch(ConstructorStandingsUrl(year));
    if !Fetched(data) then ErrorRecord("Could not fetch constructor standings")
    else Catch(ParseConstructorStandings(data.value), "Failed to parse constructor standings: ")
  }

  /** `get_constructor_standings` with its loop over all standings. */
  method ReadConstructorStandings(data: Json) returns (r: PyResult<ConstructorStandings>)
    ensures r == ParseConstructorStandings(data)
  {
    var list :- FirstStandingsList(data);
    var standings :- Key(list, "ConstructorStandings");
    var xs :- Iterate(standings);
    var rows :- CollectRows(xs, ConstructorStandingRow);
    var season :- Key(list, "season");
    return Ok(ConstructorStandings(season, rows));
  }

  method GetConstructorStandings(fetch: Fetch, year: string) returns (o: Outcome<ConstructorStandings>)
    ensures o == ConstructorStandingsInfo(fetch, year)
  {
    var data := fetch(ConstructorStandingsUrl(year));
    if !Fetched(data) {
      return ErrorRecord("Could not fetch constructor standings");
    }
    var parsed := ReadConstructorStandings(data.value);
    return Catch(parsed, "Failed to parse constructor standings: ");
  }

  /** Every constructor standing is kept, in order, each from its own entry. */
  lemma ConstructorStandingsAll(data: Json, list: Json, items: seq<Json>)
    requires FirstStandingsList(data) == Ok(list) && Key(list, "ConstructorStandings") == Ok(JArr(items))
    requires ParseConstructorStandings(data).Ok?
    ensures var rows := ParseConstructorStandings(data).value.standings;
            && |rows| == |items|
            && forall k :: 0 <= k < |rows| ==> ConstructorStandingRow(items[k]) == Ok(rows[k])
  {
    MapRowsSpec(items, ConstructorStandingRow);
  }

  // ---- 5. get_driver_info ----------------------------------------------------

  datatype DriverInfo = DriverInfo(fullName: string, code: Json, number: Json, nationality: Json, birthDay: Json, url: Json)

  function DriverInfoUrl(driverId: string): string {
    BaseUrl + "drivers/" + driverId + ".json"
  }

  /** `data['MRData']['DriverTable']['Drivers'][0]`. */
  function FirstDriver(data: Json): PyResult<Json> {
    var drivers :- Path(data, ["MRData", "DriverTable", "Drivers"]);
    At(drivers, 0)
  }

  function ParseDriverInfo(data: Json): PyResult<DriverInfo> {
    var driver :- FirstDriver(data);
    var fullName :- FullName(driver);
    var code :- GetOr(driver, "code", JStr("N/A"));
    var number :- GetOr(driver, "permanentNumber", JStr("N/A"));
    var nationality :- Key(driver, "nationality");
    var birthDay :- Key(driver, "dateOfBirth");
    var url :- Key(driver, "url");
    Ok(DriverInfo(fullName, code, number, nationality, birthDay, url))
  }

  function DriverInfoFor(fetch: Fetch, driverId: string): Outcome<DriverInfo> {
    var data := fetch(DriverInfoUrl(driverId));
    if !Fetched(data) then ErrorRecord("Could not fetch driver info")
    else CatchFixed(ParseDriverInfo(data.value), "Driver not found")
  }

  /** The name is "givenName familyName"; a missing code or permanent number reads "N/A". */
  lemma DriverInfoDefaults(data: Json, driver: Json)
    requires FirstDriver(data) == Ok(driver) && ParseDriverInfo(data).Ok?
    ensures var v := ParseDriverInfo(data).value;
            && v.fullName == Str(Key(driver, "givenName").value) + " " + Str(Key(driver, "familyName").value)
            && (Lookup(driver.members, "code").None? ==> v.code == JStr("N/A"))
            && (Lookup(driver.members, "permanentNumber").None? ==> v.number == JStr("N/A"))
  {
    assert FullName(driver).Ok?;
  }

  // ---- 6. get_race_schedule --------------------------------------------------

  datatype ScheduleRow = ScheduleRow(round: Json, raceName: Json, date: Json, circuit: Json, country: Json)

  datatype Schedule = Schedule(season: string, totalRaces: nat, races: seq<ScheduleRow>)

  function ScheduleUrl(year: string): string {
    BaseUrl + year + ".json"
  }

  function ScheduleEntry(race: Json): PyResult<ScheduleRow> {
    var round :- Key(race, "round");
    var raceName :- Key(race, "raceName");
    var date :- Key(race, "date");
    var circuit :- Path(race, ["Circuit", "circuitName"]);
    var country :- Path(race, ["Circuit", "Location", "country"]);
    Ok(ScheduleRow(round, raceName, date, circuit, country))
  }

  function ParseSchedule(data: Json, year: string): PyResult<Schedule> {
    var races :- Path(data, ["MRData", "RaceTable", "Races"]);
    var xs :- Iterate(races);
    var rows :- MapRows(xs, ScheduleEntry);
    Ok(Schedule(year, |rows|, rows))
  }

  function ScheduleFor(fetch: Fetch, year: string): Outcome<Schedule> {
    var data := fetch(ScheduleUrl(year));
    if !Fetched(data) then ErrorRecord("Could not fetch race schedule")
    else Catch(ParseSchedule(data.value, year), "Failed to parse schedule: ")
  }

  /** `get_race_schedule` with its loop over the races. */
  method ReadSchedule(data: Json, year: string) returns (r: PyResult<Schedule>)
    ensures r == ParseSchedule(data, year)
  {
    var races :- Path(data, ["MRData", "RaceTable", "Races"]);
    var xs :- Iterate(races);
    var rows :- CollectRows(xs, ScheduleEntry);
    return Ok(Schedule(year, |rows|, rows));
  }

  method GetRaceSchedule(fetch: Fetch, year: string) returns (o: Outcome<Schedule>)
    ensures o == ScheduleFor(fetch, year)
  {
    var data := fetch(ScheduleUrl(year));
    if !Fetched(data) {
      return ErrorRecord("Could not fetch race schedule");
    }
    var parsed := ReadSchedule(data.value, year);
    return Catch(parsed, "Failed to parse schedule: ");
  }

  /** One record per race, in order; the count is the number of races and the season is the argument. */
  lemma ScheduleShape(data: Json, year: string, items: seq<Json>)
    requires Path(data, ["MRData", "RaceTable", "Races"]) == Ok(JArr(items))
    requires ParseSchedule(data, year).Ok?
    ensures var s := ParseSchedule(data, year).value;
            && s.season == year
            && s.totalRaces == |s.races| == |items|
            && forall k :: 0 <= k < |items| ==> ScheduleEntry(items[k]) == Ok(s.races[k])
  {
    MapRowsSpec(items, ScheduleEntry);
  }

  // ---- 7. get_race_winner ----------------------------------------------------

  datatype RaceWinner = RaceWinner(raceName: Json, date: Json, winner: string, team: Json)

  function RaceWinnerUrl(year: string, round: string): string {
    BaseUrl + year + "/" + round + "/results.json"
  }

  function ParseRaceWinner(data: Json): PyResult<RaceWinner> {
    var race :- FirstRace(data);
    var results :- Key(race, "Results");
    var winner :- At(results, 0);
    var driver :- Key(winner, "Driver");
    var raceName :- Key(race, "raceName");
    var date :- Key(race, "date");
    var name :- FullName(driver);
    var team :- Path(winner, ["Constructor", "name"]);
    Ok(RaceWinner(raceName, date, name, team))
  }

  function RaceWinnerFor(fetch: Fetch, year: string, round: string): Outcome<RaceWinner> {
    var data := fetch(RaceWinnerUrl(year, round));
    if !Fetched(data) then ErrorRecord("Could not fetch race results")
    else CatchFixed(ParseRaceWinner(data.value), "Race not found or not completed yet")
  }

  // ---- the error paths, for all seven ---------------------------------------

  /** No body, or a falsy one, yields each function's fixed error record. */
  lemma NoDataErrorRecords(fetch: Fetch, year: string, round: string, driverId: string)
    ensures !Fetched(fetch(LastRaceUrl)) ==> LastRaceResults(fetch) == ErrorRecord("Could not fetch race data")
    ensures !Fetched(fetch(NextRaceUrl)) ==> NextRaceInfo(fetch) == ErrorRecord("Could not fetch next race data")
    ensures !Fetched(fetch(DriverStandingsUrl(year))) ==>
              DriverStandingsInfo(fetch, year) == ErrorRecord("Could not fetch standings")
    ensures !Fetched(fetch(ConstructorStandingsUrl(year))) ==>
              ConstructorStandingsInfo(fetch, year) == ErrorRecord("Could not fetch constructor standings")
    ensures !Fetched(fetch(DriverInfoUrl(driverId))) ==>
              DriverInfoFor(fetch, driverId) == ErrorRecord("Could not fetch driver info")
    ensures !Fetched(fetch(ScheduleUrl(year))) ==> ScheduleFor(fetch, year) == ErrorRecord("Could not fetch race schedule")
    ensures !Fetched(fetch(RaceWinnerUrl(year, round))) ==>
              RaceWinnerFor(fetch, year, round) == ErrorRecord("Could not fetch race results")
  {
  }

  /** A truthy object without `MRData` is a `KeyError`, reported as an error record by the race-table parsers. */
  lemma MissingRootErrorRecords(data: Json, year: string)
    requires data.JObj? && data.members != [] && Lookup(data.members, "MRData").None?
    ensures Catch(ParseLastRace(data), "Failed to parse race data: ") == ErrorRecord("Failed to parse race data: 'MRData'")
    ensures Catch(ParseNextRace(data), "Failed to parse next race data: ") == ErrorRecord("Failed to parse next race data: 'MRData'")
    ensures Catch(ParseSchedule(data, year), "Failed to parse schedule: ") == ErrorRecord("Failed to parse schedule: 'MRData'")
    ensures CatchFixed(ParseRaceWinner(data), "Race not found or not completed yet")
            == ErrorRecord("Race not found or not completed yet")
  {
    assert QuoteKey("MRData") == "'MRData'";
    assert Key(data, "MRData") == Raise(KeyError("'MRData'"));
  }

  /** The same key error for the standings and driver parsers. */
  lemma MissingRootStandingsErrorRecords(data: Json)
    requires data.JObj? && data.members != [] && Lookup(data.members, "MRData").None?
    ensures Catch(ParseDriverStandings(data), "Failed to parse standings: ") == ErrorRecord("Failed to parse standings: 'MRData'")
    ensures Catch(ParseConstructorStandings(data), "Failed to parse constructor standings: ")
            == ErrorRecord("Failed to parse constructor standings: 'MRData'")
    ensures CatchFixed(ParseDriverInfo(data), "Driver not found") == ErrorRecord("Driver not found")
  {
    assert QuoteKey("MRData") == "'MRData'";
    assert Key(data, "MRData") == Raise(KeyError("'MRData'"));
  }

  /** An empty race list is an `IndexError` for the functions that take race 0, and an empty schedule. */
  lemma EmptyRaceListErrorRecords(data: Json)
    requires Path(data, ["MRData", "RaceTable", "Races"]) == Ok(JArr([]))
    ensures Catch(ParseLastRace(data), "Failed to parse race data: ")
            == ErrorRecord("Failed to parse race data: " + "list index out of range")
    ensures Catch(ParseNextRace(data), "Failed to parse next race data: ")
            == ErrorRecord("Failed to parse next race data: " + "list index out of range")
    ensures CatchFixed(ParseRaceWinner(data), "Race not found or not completed yet")
            == ErrorRecord("Race not found or not completed yet")
  {
    assert FirstRace(data) == Raise(IndexError("list index out of range"));
    assert ParseLastRace(data) == Raise(IndexError("list index out of range"));
    assert ParseNextRace(data) == Raise(IndexError("list index out of range"));
    assert ParseRaceWinner(data) == Raise(IndexError("list index out of range"));
  }

  /** An empty race list is an empty schedule. */
  lemma EmptyRaceListSchedule(data: Json, year: string)
    requires Path(data, ["MRData", "RaceTable", "Races"]) == Ok(JArr([]))
    ensures ParseSchedule(data, year) == Ok(Schedule(year, 0, []))
  {
    assert Iterate(JArr([])) == Ok([]);
  }

  /** A truthy body that is not an object escapes as a `TypeError` from every function. */
  lemma NonObjectEscapes(data: Json, year: string)
    requires !data.JObj?
    ensures Catch(ParseLastRace(data), "Failed to parse race data: ") == Escaped(TypeError)
    ensures Catch(ParseNextRace(data), "Failed to parse next race data: ") == Escaped(TypeError)
    ensures Catch(ParseDriverStandings(data), "Failed to parse standings: ") == Escaped(TypeError)
    ensures Catch(ParseConstructorStandings(data), "Failed to parse constructor standings: ") == Escaped(TypeError)
    ensures CatchFixed(ParseDriverInfo(data), "Driver not found") == Escaped(TypeError)
    ensures Catch(ParseSchedule(data, year), "Failed to parse schedule: ") == Escaped(TypeError)
    ensures CatchFixed(ParseRaceWinner(data), "Race not found or not completed yet") == Escaped(TypeError)
  {
    assert Key(data, "MRData") == Raise(TypeError);
  }
}

/**
 * The static lookup tables of `utils.py`: the driver, team and race alias
 * tables (alias -> canonical name) and the driver API identifiers
 * (canonical name -> Ergast driver id). A Python dict is modelled as the
 * sequence of its entries in insertion order; `Get` is `dict.get`.
 */
module Tables {
  import opened Wrappers
  import opened Python

  type Table = seq<(string, string)>

  /** `F1_DRIVERS`, one block per driver as the source groups them. */
  const Drivers: Table :=
    VerstappenAliases
    + HamiltonAliases
    + LeclercAliases
    + NorrisAliases
    + SainzAliases
    + PerezAliases
    + AlonsoAliases
    + RussellAliases
    + PiastriAliases
    + SchumacherAliases
    + VettelAliases

  const VerstappenAliases: Table := [
    ("verstappen", "Max Verstappen"),
    ("max verstappen", "Max Verstappen"),
    ("max", "Max Verstappen")
  ]
  const HamiltonAliases: Table := [
    ("hamilton", "Lewis Hamilton"),
    ("lewis hamilton", "Lewis Hamilton"),
    ("lewis", "Lewis Hamilton")
  ]
  const LeclercAliases: Table := [
    ("leclerc", "Charles Leclerc"),
    ("charles leclerc", "Charles Leclerc"),
    ("charles", "Charles Leclerc")
  ]
  const NorrisAliases: Table := [
    ("norris", "Lando Norris"),
    ("lando norris", "Lando Norris"),
    ("lando", "Lando Norris")
  ]
  const SainzAliases: Table := [
    ("sainz", "Carlos Sainz"),
    ("carlos sainz", "Carlos Sainz"),
    ("carlos", "Carlos Sainz")
  ]
  const PerezAliases: Table := [
    ("perez", "Sergio Perez"),
    ("sergio perez", "Sergio Perez"),
    ("sergio", "Sergio Perez"),
    ("checo", "Sergio Perez")
  ]
  const AlonsoAliases: Table := [
    ("alonso", "Fernando Alonso"),
    ("fernando alonso", "Fernando Alonso"),
    ("fernando", "Fernando Alonso")
  ]
  const RussellAliases: Table := [
    ("russell", "George Russell"),
    ("george russell", "George Russell"),
    ("george", "George Russell")
  ]
  const PiastriAliases: Table := [
    ("piastri", "Oscar Piastri"),
    ("oscar piastri", "Oscar Piastri"),
    ("oscar", "Oscar Piastri")
  ]
  const SchumacherAliases: Table := [
    ("schumacher", "Michael Schumacher"),
    ("michael schumacher", "Michael Schumacher"),
    ("michael", "Michael Schumacher")
  ]
  const VettelAliases: Table := [
    ("vettel", "Sebastian Vettel"),
    ("sebastian vettel", "Sebastian Vettel"),
    ("sebastian", "Sebastian Vettel")
  ]

  /** `DRIVER_API_IDS`. */
  const DriverApiIds: Table := [
    ("Max Verstappen", "max_verstappen"),
    ("Lewis Hamilton", "hamilton"),
    ("Charles Leclerc", "leclerc"),
    ("Lando Norris", "norris"),
    ("Carlos Sainz", "sainz"),
    ("Sergio Perez", "perez"),
    ("Fernando Alonso", "alonso"),
    ("George Russell", "russell"),
    ("Oscar Piastri", "piastri")
  ]

  /** `F1_TEAMS`. */
  const Teams: Table := [
    ("red bull", "Red Bull Racing"),
    ("redbull", "Red Bull Racing"),
    ("rb", "Red Bull Racing"),
    ("ferrari", "Scuderia Ferrari"),
    ("mercedes", "Mercedes-AMG Petronas"),
    ("merc", "Mercedes-AMG Petronas"),
    ("mclaren", "McLaren F1 Team"),
    ("aston martin", "Aston Martin F1 Team"),
    ("aston", "Aston Martin F1 Team"),
    ("alpine", "BWT Alpine F1 Team"),
    ("williams", "Williams Racing"),
    ("alfa romeo", "Alfa Romeo F1 Team Stake"),
    ("alfa", "Alfa Romeo F1 Team Stake")
  ]

  /** `F1_RACES`. */
  const Races: Table := [
    ("monaco", "Monaco"),
    ("silverstone", "Silverstone"),
    ("spa", "Spa"),
    ("monza", "Monza"),
    ("suzuka", "Suzuka"),
    ("austin", "Austin"),
    ("singapore", "Singapore"),
    ("bahrain", "Bahrain"),
    ("jeddah", "Jeddah"),
    ("melbourne", "Melbourne"),
    ("imola", "Imola"),
    ("miami", "Miami"),
    ("barcelona", "Barcelona"),
    ("montreal", "Montreal"),
    ("austria", "Austria"),
    ("hungary", "Hungary"),
    ("zandvoort", "Zandvoort"),
    ("baku", "Baku"),
    ("qatar", "Qatar"),
    ("mexico", "Mexico"),
    ("brazil", "Brazil"),
    ("las vegas", "Las Vegas"),
    ("abu dhabi", "Abu Dhabi")
  ]

  /** The keys of a table, in insertion order (`d.keys()`). */
  function Keys(t: Table): (ks: seq<string>)
    ensures |ks| == |t|
    ensures forall i :: 0 <= i < |t| ==> ks[i] == t[i].0
  {
    seq(|t|, i requires 0 <= i < |t| => t[i].0)
  }

  /** A dict never holds a key twice. */
  predicate DistinctKeys(t: Table) {
    forall i, j :: 0 <= i < j < |t| ==> t[i].0 != t[j].0
  }

  /** Every key is already lower-case. */
  predicate LowerCaseKeys(t: Table) {
    forall i :: 0 <= i < |t| ==> IsLowerCase(t[i].0)
  }

  /** `d.get(k)`. */
  function Get(t: Table, k: string): (r: Option<string>)
    ensures r.None? <==> forall i :: 0 <= i < |t| ==> t[i].0 != k
    ensures r.Some? ==> exists i :: 0 <= i < |t| && t[i] == (k, r.value)
  {
    if t == [] then None
    else if t[0].0 == k then Some(t[0].1)
    else Get(t[1..], k)
  }

  lemma {:induction false} GetEntry(t: Table, i: nat)
    requires DistinctKeys(t)
    requires i < |t|
    ensures Get(t, t[i].0) == Some(t[i].1)
  {
    if i > 0 {
      assert DistinctKeys(t[1..]);
      GetEntry(t[1..], i - 1);
    }
  }

  lemma LowerCaseKeysAppend(a: Table, b: Table)
    requires LowerCaseKeys(a) && LowerCaseKeys(b)
    ensures LowerCaseKeys(a + b)
  {
    forall i | 0 <= i < |a + b| ensures IsLowerCase((a + b)[i].0) {
      if i >= |a| {
        assert (a + b)[i] == b[i - |a|];
      }
    }
  }

  lemma VerstappenKeysLowerCase()
    ensures LowerCaseKeys(VerstappenAliases)
  {
  }

  lemma HamiltonKeysLowerCase()
    ensures LowerCaseKeys(HamiltonAliases)
  {
  }

  lemma LeclercKeysLowerCase()
    ensures LowerCaseKeys(LeclercAliases)
  {
  }

  lemma NorrisKeysLowerCase()
    ensures LowerCaseKeys(NorrisAliases)
  {
  }

  lemma SainzKeysLowerCase()
    ensures LowerCaseKeys(SainzAliases)
  {
  }

  lemma PerezKeysLowerCase()
    ensures LowerCaseKeys(PerezAliases)
  {
  }

  lemma AlonsoKeysLowerCase()
    ensures LowerCaseKeys(AlonsoAliases)
  {
  }

  lemma RussellKeysLowerCase()
    ensures LowerCaseKeys(RussellAliases)
  {
  }

  lemma PiastriKeysLowerCase()
    ensures LowerCaseKeys(PiastriAliases)
  {
  }

  lemma SchumacherKeysLowerCase()
    ensures LowerCaseKeys(SchumacherAliases)
  {
  }

  lemma VettelKeysLowerCase()
    ensures LowerCaseKeys(VettelAliases)
  {
  }

  /** Every alias key is already lower-case, as the substring match against
      the lower-cased text needs. */
  lemma DriverKeysLowerCase()
    ensures LowerCaseKeys(Drivers)
  {
    VerstappenKeysLowerCase();
    HamiltonKeysLowerCase();
    LowerCaseKeysAppend(VerstappenAliases, HamiltonAliases);
    LeclercKeysLowerCase();
    LowerCaseKeysAppend(VerstappenAliases + HamiltonAliases, LeclercAliases);
    NorrisKeysLowerCase();
    LowerCaseKeysAppend(VerstappenAliases + HamiltonAliases + LeclercAliases, NorrisAliases);
    SainzKeysLowerCase();
    LowerCaseKeysAppend(VerstappenAliases + HamiltonAliases + LeclercAliases + NorrisAliases, SainzAliases);
    PerezKeysLowerCase();
    LowerCaseKeysAppend(VerstappenAliases + HamiltonAliases + LeclercAliases + NorrisAliases + SainzAliases, PerezAliases);
    AlonsoKeysLowerCase();
    LowerCaseKeysAppend(VerstappenAliases + HamiltonAliases + LeclercAliases + NorrisAliases + SainzAliases + PerezAliases, AlonsoAliases);
    RussellKeysLowerCase();
    LowerCaseKeysAppend(VerstappenAliases + HamiltonAliases + LeclercAliases + NorrisAliases + SainzAliases + PerezAliases + AlonsoAliases, RussellAliases);
    PiastriKeysLowerCase();
    LowerCaseKeysAppend(VerstappenAliases + HamiltonAliases + LeclercAliases + NorrisAliases + SainzAliases + PerezAliases + AlonsoAliases + RussellAliases, PiastriAliases);
    SchumacherKeysLowerCase();
    LowerCaseKeysAppend(VerstappenAliases + HamiltonAliases + LeclercAliases + NorrisAliases + SainzAliases + PerezAliases + AlonsoAliases + RussellAliases + PiastriAliases, SchumacherAliases);
    VettelKeysLowerCase();
    LowerCaseKeysAppend(VerstappenAliases + HamiltonAliases + LeclercAliases + NorrisAliases + SainzAliases + PerezAliases + AlonsoAliases + RussellAliases + PiastriAliases + SchumacherAliases, VettelAliases);
  }

  lemma TeamKeysLowerCase()
    ensures LowerCaseKeys(Teams)
  {
  }

  lemma RaceKeysLowerCase()
    ensures LowerCaseKeys(Races)
  {
    RaceKeysLowerCaseBelow12();
    RaceKeysLowerCaseFrom12();
  }

  lemma RaceKeysLowerCaseBelow12()
    ensures forall i :: 0 <= i < 12 ==> IsLowerCase(Races[i].0)
  {
  }

  lemma RaceKeysLowerCaseFrom12()
    ensures forall i :: 12 <= i < |Races| ==> IsLowerCase(Races[i].0)
  {
  }

  /** No alias of the driver table is listed twice. */
  lemma DriverKeysDistinct()
    ensures DistinctKeys(Drivers)
  {
    DriverKeysDistinctFrom0();
    DriverKeysDistinctFrom3();
    DriverKeysDistinctFrom7();
    DriverKeysDistinctFrom11();
    DriverKeysDistinctFrom16();
    DriverKeysDistinctFrom22();
  }

  // The pairs of driver keys, in six groups by the position of the first key.

  lemma DriverKeysDistinctFrom0()
    ensures forall i, j :: 0 <= i < 3 && i < j < |Drivers| ==> Drivers[i].0 != Drivers[j].0
  {
  }

  lemma DriverKeysDistinctFrom3()
    ensures forall i, j :: 3 <= i < 7 && i < j < |Drivers| ==> Drivers[i].0 != Drivers[j].0
  {
  }

  lemma DriverKeysDistinctFrom7()
    ensures forall i, j :: 7 <= i < 11 && i < j < |Drivers| ==> Drivers[i].0 != Drivers[j].0
  {
  }

  lemma DriverKeysDistinctFrom11()
    ensures forall i, j :: 11 <= i < 16 && i < j < |Drivers| ==> Drivers[i].0 != Drivers[j].0
  {
  }

  lemma DriverKeysDistinctFrom16()
    ensures forall i, j :: 16 <= i < 22 && i < j < |Drivers| ==> Drivers[i].0 != Drivers[j].0
  {
  }

  lemma DriverKeysDistinctFrom22()
    ensures forall i, j :: 22 <= i && i < j < |Drivers| ==> Drivers[i].0 != Drivers[j].0
  {
  }

  lemma TeamKeysDistinct()
    ensures DistinctKeys(Teams)
  {
  }

  lemma RaceKeysDistinct()
    ensures DistinctKeys(Races)
  {
    RaceKeysDistinctBelow8();
    RaceKeysDistinctBelow16();
    RaceKeysDistinctFrom16();
  }

  // The pairs of race keys, in three groups by the position of the first key.

  lemma RaceKeysDistinctBelow8()
    ensures forall i, j :: 0 <= i < 8 && i < j < |Races| ==> Races[i].0 != Races[j].0
  {
  }

  lemma RaceKeysDistinctBelow16()
    ensures forall i, j :: 8 <= i < 16 && i < j < |Races| ==> Races[i].0 != Races[j].0
  {
  }

  lemma RaceKeysDistinctFrom16()
    ensures forall i, j :: 16 <= i && i < j < |Races| ==> Races[i].0 != Races[j].0
  {
  }

  /** Every canonical name is a non-empty string, so a table hit is always truthy. */
  lemma CanonicalNamesNonEmpty()
    ensures forall i :: 0 <= i < |Drivers| ==> Drivers[i].1 != ""
    ensures forall i :: 0 <= i < |Teams| ==> Teams[i].1 != ""
    ensures forall i :: 0 <= i < |Races| ==> Races[i].1 != ""
  {
  }

  /** The names the API id table covers. */
  const ApiIdNames := ["Max Verstappen", "Lewis Hamilton", "Charles Leclerc", "Lando Norris",
                       "Carlos Sainz", "Sergio Perez", "Fernando Alonso", "George Russell", "Oscar Piastri"]

  lemma ApiIdKeys()
    ensures Keys(DriverApiIds) == ApiIdNames
  {
  }

  /** `name` is the canonical name some alias of the driver table maps to. */
  ghost predicate DriverName(name: string) {
    exists k :: (k, name) in Drivers
  }

  lemma ApiIdNamesAreDrivers()
    ensures forall name :: name in ApiIdNames ==> DriverName(name)
  {
    forall name | name in ApiIdNames ensures DriverName(name) {
      if name == "Max Verstappen" {
        assert ("verstappen", name) in VerstappenAliases;
      } else if name == "Lewis Hamilton" {
        assert ("hamilton", name) in HamiltonAliases;
      } else if name == "Charles Leclerc" {
        assert ("leclerc", name) in LeclercAliases;
      } else if name == "Lando Norris" {
        assert ("norris", name) in NorrisAliases;
      } else if name == "Carlos Sainz" {
        assert ("sainz", name) in SainzAliases;
      } else if name == "Sergio Perez" {
        assert ("perez", name) in PerezAliases;
      } else if name == "Fernando Alonso" {
        assert ("alonso", name) in AlonsoAliases;
      } else if name == "George Russell" {
        assert ("russell", name) in RussellAliases;
      } else {
        assert ("piastri", name) in PiastriAliases;
      }
    }
  }

  /** Every driver with an API id is a canonical name of the driver table. */
  lemma ApiIdsNameDrivers()
    ensures forall i :: 0 <= i < |DriverApiIds| ==> DriverName(DriverApiIds[i].0)
  {
    ApiIdKeys();
    ApiIdNamesAreDrivers();
    forall i | 0 <= i < |DriverApiIds| ensures DriverName(DriverApiIds[i].0) {
      assert DriverApiIds[i].0 == ApiIdNames[i];
    }
  }

  /** Two drivers of the alias table have no API id. */
  lemma RetiredDriversHaveNoApiId()
    ensures DriverName("Michael Schumacher") && Get(DriverApiIds, "Michael Schumacher") == None
    ensures DriverName("Sebastian Vettel") && Get(DriverApiIds, "Sebastian Vettel") == None
  {
    RetiredDriversAreDrivers();
    LongNamesUnlisted("Michael Schumacher");
    LongNamesUnlisted("Sebastian Vettel");
  }

  lemma RetiredDriversAreDrivers()
    ensures DriverName("Michael Schumacher") && DriverName("Sebastian Vettel")
  {
    assert ("schumacher", "Michael Schumacher") in SchumacherAliases;
    assert ("vettel", "Sebastian Vettel") in VettelAliases;
  }

  /** Every driver with an API id has a name shorter than 16 characters. */
  lemma LongNamesUnlisted(name: string)
    requires |name| >= 16
    ensures Get(DriverApiIds, name) == None
  {
    forall i | 0 <= i < |DriverApiIds| ensures |DriverApiIds[i].0| < 16 {
      if i < 3 {
      } else if i < 6 {
      } else {
      }
    }
  }
}

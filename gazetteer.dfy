/**
 * The dictionary extractors of `chatbot.py` (`extract_driver`,
 * `extract_team`, `extract_race`): sort the alias keys by descending
 * length (stably, so keys of equal length keep table order), scan them,
 * and return the canonical name of the first key that is a substring of
 * the lower-cased text.
 */
module Gazetteer {
  import opened Wrappers
  import opened Python
  import opened Tables

  // ---- sorted(keys, key=len, reverse=True) -------------------------------

  predicate NonIncreasing(s: seq<string>) {
    forall i, j :: 0 <= i < j < |s| ==> |s[i]| >= |s[j]|
  }

  /** Puts `k` in front of the first key no longer than it. */
  function Insert(k: string, s: seq<string>): (r: seq<string>)
    ensures multiset(r) == multiset(s) + multiset{k}
  {
    if s == [] || |s[0]| <= |k| then [k] + s
    else
      assert s == [s[0]] + s[1..];
      [s[0]] + Insert(k, s[1..])
  }

  lemma {:induction false} InsertNonIncreasing(k: string, s: seq<string>)
    requires NonIncreasing(s)
    ensures NonIncreasing(Insert(k, s))
  {
    if s != [] && |s[0]| > |k| {
      InsertNonIncreasing(k, s[1..]);
      var t := Insert(k, s[1..]);
      forall i | 0 <= i < |t| ensures |t[i]| <= |s[0]| {
        assert t[i] in multiset(t);
        if t[i] != k {
          assert t[i] in s[1..];
        }
      }
    }
  }

  /**
   * Python's stable descending sort by length. Each key is inserted in
   * front of the later keys of the same length, so ties keep table order.
   */
  function SortByLength(ks: seq<string>): (r: seq<string>)
    ensures multiset(r) == multiset(ks)
    ensures NonIncreasing(r)
  {
    if ks == [] then []
    else
      assert ks == [ks[0]] + ks[1..];
      InsertNonIncreasing(ks[0], SortByLength(ks[1..]));
      Insert(ks[0], SortByLength(ks[1..]))
  }

  // ---- the scan -----------------------------------------------------------

  /** The first key of `s` that occurs in `low`. */
  function FirstMatch(s: seq<string>, low: string): (r: Option<string>)
    ensures r.Some? ==> r.value in s && Contains(low, r.value)
    ensures r.None? <==> forall i :: 0 <= i < |s| ==> !Contains(low, s[i])
  {
    if s == [] then None
    else if Contains(low, s[0]) then Some(s[0])
    else FirstMatch(s[1..], low)
  }

  /**
   * Reference definition of the key the scan picks, on the unsorted keys:
   * an occurring key beats every shorter one, and of two occurring keys of
   * the same length the earlier one in the table wins.
   */
  function BestMatch(ks: seq<string>, low: string): Option<string> {
    if ks == [] then None
    else
      var rest := BestMatch(ks[1..], low);
      if Contains(low, ks[0]) && (rest.None? || |rest.value| <= |ks[0]|) then Some(ks[0]) else rest
  }

  /** Scanning after inserting one key: the inserted key wins exactly as in `BestMatch`. */
  lemma {:induction false} InsertFirstMatch(k: string, s: seq<string>, low: string)
    requires NonIncreasing(s)
    ensures FirstMatch(Insert(k, s), low) ==
            var rest := FirstMatch(s, low);
            if Contains(low, k) && (rest.None? || |rest.value| <= |k|) then Some(k) else rest
  {
    if s == [] || |s[0]| <= |k| {
      var rest := FirstMatch(s, low);
      if rest.Some? {
        var j :| 0 <= j < |s| && s[j] == rest.value;
        assert |s[j]| <= |s[0]|;
      }
    } else {
      assert NonIncreasing(s[1..]);
      InsertFirstMatch(k, s[1..], low);
      var rest := FirstMatch(s[1..], low);
      if rest.Some? {
        var j :| 0 <= j < |s[1..]| && s[1..][j] == rest.value;
        assert |s[1..][j]| <= |s[0]|;
      }
    }
  }

  /** The scan over the sorted keys picks the reference key. */
  lemma {:induction false} SortedScanIsBest(ks: seq<string>, low: string)
    ensures FirstMatch(SortByLength(ks), low) == BestMatch(ks, low)
  {
    if ks != [] {
      SortedScanIsBest(ks[1..], low);
      InsertFirstMatch(ks[0], SortByLength(ks[1..]), low);
    }
  }

  /** Key `i` is the one the extractor should choose for the lower-cased text `low`. */
  predicate Preferred(ks: seq<string>, low: string, i: int) {
    && 0 <= i < |ks|
    && Contains(low, ks[i])
    && forall j :: 0 <= j < |ks| && Contains(low, ks[j]) ==>
         |ks[j]| < |ks[i]| || (|ks[j]| == |ks[i]| && i <= j)
  }

  /** The reference key is the preferred one: the longest occurring key, earliest among equals. */
  lemma {:induction false} BestMatchPreferred(ks: seq<string>, low: string)
    ensures BestMatch(ks, low).None? <==> forall j :: 0 <= j < |ks| ==> !Contains(low, ks[j])
    ensures BestMatch(ks, low).Some? ==> exists i :: Preferred(ks, low, i) && ks[i] == BestMatch(ks, low).value
  {
    if ks != [] {
      BestMatchPreferred(ks[1..], low);
      var rest := BestMatch(ks[1..], low);
      if Contains(low, ks[0]) && (rest.None? || |rest.value| <= |ks[0]|) {
        assert Preferred(ks, low, 0) by {
          forall j | 0 <= j < |ks| && Contains(low, ks[j])
            ensures |ks[j]| < |ks[0]| || (|ks[j]| == |ks[0]| && 0 <= j)
          {
            if j > 0 {
              assert ks[1..][j - 1] == ks[j];
              var i :| Preferred(ks[1..], low, i) && ks[1..][i] == rest.value;
            }
          }
        }
      } else if rest.Some? {
        var i :| Preferred(ks[1..], low, i) && ks[1..][i] == rest.value;
        assert Preferred(ks, low, i + 1) by {
          forall j | 0 <= j < |ks| && Contains(low, ks[j])
            ensures |ks[j]| < |ks[i + 1]| || (|ks[j]| == |ks[i + 1]| && i + 1 <= j)
          {
            if j > 0 {
              assert ks[1..][j - 1] == ks[j];
            }
          }
        }
      } else {
        forall j | 0 <= j < |ks| ensures !Contains(low, ks[j]) {
          if j > 0 {
            assert ks[1..][j - 1] == ks[j];
          }
        }
      }
    }
  }

  /** At most one key is preferred. */
  lemma PreferredUnique(ks: seq<string>, low: string, i: int, j: int)
    requires Preferred(ks, low, i) && Preferred(ks, low, j)
    ensures i == j
  {
  }

  // ---- the extractors ----------------------------------------------------

  /** What `extract_driver` / `extract_team` / `extract_race` return for `table`. */
  function AliasMatch(table: Table, text: string): Option<string> {
    match FirstMatch(SortByLength(Keys(table)), Lower(text))
    case None => None
    case Some(k) => Get(table, k)
  }

  /**
   * The body of the three extractors: the `for` loop over the sorted keys
   * with its early `return table[key]`.
   */
  method ExtractAlias(table: Table, text: string) returns (r: Option<string>)
    ensures r == AliasMatch(table, text)
  {
    var low := Lower(text);
    var sorted := SortByLength(Keys(table));
    var i := 0;
    while i < |sorted|
      invariant 0 <= i <= |sorted|
      invariant FirstMatch(sorted[i..], low) == FirstMatch(sorted, low)
    {
      assert sorted[i..][1..] == sorted[i + 1..];
      if Contains(low, sorted[i]) {
        return Get(table, sorted[i]);
      }
      i := i + 1;
    }
    assert sorted[i..] == [];
    return None;
  }

  /**
   * The extractor's answer: nothing when no key occurs in the lower-cased
   * text, and otherwise the entry of the longest occurring key, the
   * earliest in the table among keys of that length.
   */
  lemma AliasMatchSpec(table: Table, text: string)
    ensures AliasMatch(table, text).None? <==> forall j :: 0 <= j < |table| ==> !Contains(Lower(text), table[j].0)
    ensures AliasMatch(table, text).Some? ==>
              exists i :: Preferred(Keys(table), Lower(text), i) && AliasMatch(table, text) == Get(table, table[i].0)
  {
    var ks := Keys(table);
    SortedScanIsBest(ks, Lower(text));
    BestMatchPreferred(ks, Lower(text));
    var m := FirstMatch(SortByLength(ks), Lower(text));
    if m.Some? {
      assert m.value in multiset(ks);
      assert m.value in ks;
    }
  }

  /** The found name always comes from an alias the lower-cased text contains. */
  lemma {:induction false} AliasMatchFromOccurringKey(table: Table, text: string)
    requires AliasMatch(table, text).Some?
    ensures exists i :: 0 <= i < |table| && Contains(Lower(text), table[i].0) && AliasMatch(table, text) == Some(table[i].1)
  {
    AliasMatchSpec(table, text);
    var i :| Preferred(Keys(table), Lower(text), i) && AliasMatch(table, text) == Get(table, table[i].0);
    var v := AliasMatch(table, text).value;
    var j :| 0 <= j < |table| && table[j].0 == table[i].0 && table[j].1 == v;
  }

  /** A longer occurring alias always beats a shorter one. */
  lemma LongerAliasWins(table: Table, text: string, short: nat)
    requires short < |table| && Contains(Lower(text), table[short].0)
    ensures exists i :: Preferred(Keys(table), Lower(text), i) && |table[i].0| >= |table[short].0|
                        && AliasMatch(table, text) == Get(table, table[i].0)
  {
    AliasMatchSpec(table, text);
    assert Keys(table)[short] == table[short].0;
  }

  /** An alias written in any letter case finds its own entry. */
  lemma AliasSelfHit(table: Table, text: string, i: nat)
    requires i < |table|
    requires IsLowerCase(table[i].0)
    requires Lower(text) == Lower(table[i].0)
    ensures AliasMatch(table, text) == Get(table, table[i].0)
  {
    var key := table[i].0;
    LowerOfLowerCase(key);
    ContainsItself(key);
    AliasMatchSpec(table, text);
    assert Keys(table)[i] == key;
    var p :| Preferred(Keys(table), Lower(text), p) && AliasMatch(table, text) == Get(table, table[p].0);
    ContainedLength(key, table[p].0);
  }

  function ExtractDriver(text: string): Option<string> {
    AliasMatch(Drivers, text)
  }

  function ExtractTeam(text: string): Option<string> {
    AliasMatch(Teams, text)
  }

  function ExtractRace(text: string): Option<string> {
    AliasMatch(Races, text)
  }

  /** Every driver alias, in any letter case, yields its own canonical name. */
  lemma DriverAliasSelfHit(text: string, i: nat)
    requires i < |Drivers| && Lower(text) == Lower(Drivers[i].0)
    ensures ExtractDriver(text) == Some(Drivers[i].1)
  {
    DriverKeysLowerCase();
    DriverKeysDistinct();
    AliasSelfHit(Drivers, text, i);
    GetEntry(Drivers, i);
  }

  /** Every team alias, in any letter case, yields its own canonical name. */
  lemma TeamAliasSelfHit(text: string, i: nat)
    requires i < |Teams| && Lower(text) == Lower(Teams[i].0)
    ensures ExtractTeam(text) == Some(Teams[i].1)
  {
    TeamKeysLowerCase();
    TeamKeysDistinct();
    AliasSelfHit(Teams, text, i);
    GetEntry(Teams, i);
  }

  /** Every race alias, in any letter case, yields its own canonical name. */
  lemma RaceAliasSelfHit(text: string, i: nat)
    requires i < |Races| && Lower(text) == Lower(Races[i].0)
    ensures ExtractRace(text) == Some(Races[i].1)
  {
    RaceKeysLowerCase();
    RaceKeysDistinct();
    AliasSelfHit(Races, text, i);
    GetEntry(Races, i);
  }
}

/**
 * `extract_entities_spacy` of `advanced_ner.py`: the spaCy tagger (an
 * input here) yields a sequence of entity spans, and the function sorts
 * their texts into five buckets.
 *
 * As written, the PERSON, DATE and ORG tests compare `ent.label`, the
 * integer label id, with a string, which is always false in Python, and
 * the DATE branch names a key `'data'` the result does not have.
 * `BucketedAsWritten` models that code; `Bucketed` is the evidently
 * intended version (every test on `label_`, DATE spans into `'date'`),
 * and it is the one the rest of the model uses.
 */
module Ner {
  import opened Python

  /** A spaCy entity: `ent.label` (an integer id), `ent.label_` and `ent.text`. */
  datatype Span = Span(labelId: int, labelName: string, text: string)

  /** The result dictionary, one field per key. */
  datatype Buckets = Buckets(person: seq<string>, date: seq<string>, location: seq<string>,
                             number: seq<string>, org: seq<string>)

  const Empty := Buckets([], [], [], [], [])

  /** The texts of the spans whose `label_` is `lbl`, in document order. */
  function Labelled(ents: seq<Span>, lbl: string): (r: seq<string>)
    ensures |r| <= |ents|
  {
    if ents == [] then []
    else Labelled(ents[..|ents| - 1], lbl) + (if ents[|ents| - 1].labelName == lbl then [ents[|ents| - 1].text] else [])
  }

  // ---- the intended bucketing --------------------------------------------

  /** One iteration of the loop body, with every test on `label_`. */
  function Add(b: Buckets, e: Span): Buckets {
    var b := if e.labelName == "PERSON" then b.(person := b.person + [e.text]) else b;
    var b := if e.labelName == "DATE" then b.(date := b.date + [e.text]) else b;
    if e.labelName == "ORG" then b.(org := b.org + [e.text])
    else if e.labelName == "GPE" then b.(location := b.location + [e.text])
    else if e.labelName == "CARDINAL" then b.(number := b.number + [e.text])
    else b
  }

  function Bucketed(ents: seq<Span>): Buckets {
    if ents == [] then Empty else Add(Bucketed(ents[..|ents| - 1]), ents[|ents| - 1])
  }

  /** Every bucket holds the texts of the spans of its label, in document order. */
  lemma {:induction false} BucketedByLabel(ents: seq<Span>)
    ensures Bucketed(ents) == Buckets(Labelled(ents, "PERSON"), Labelled(ents, "DATE"), Labelled(ents, "GPE"),
                                      Labelled(ents, "CARDINAL"), Labelled(ents, "ORG"))
  {
    if ents != [] {
      BucketedByLabel(ents[..|ents| - 1]);
    }
  }

  /** A span lands in at most one bucket. */
  lemma AtMostOneBucket(e: Span)
    ensures var b := Bucketed([e]);
            |b.person| + |b.date| + |b.location| + |b.number| + |b.org| <= 1
  {
    assert [e][..0] == [];
  }

  /** The `for ent in doc.ents` loop, appending to the lists in place. */
  method ExtractEntities(ents: seq<Span>) returns (b: Buckets)
    ensures b == Bucketed(ents)
  {
    var person, date, location, number, org := [], [], [], [], [];
    var i := 0;
    while i < |ents|
      invariant 0 <= i <= |ents|
      invariant Buckets(person, date, location, number, org) == Bucketed(ents[..i])
    {
      var ent := ents[i];
      assert ents[..i + 1][..i] == ents[..i];
      if ent.labelName == "PERSON" {
        person := person + [ent.text];
      }
      if ent.labelName == "DATE" {
        date := date + [ent.text];
      }
      if ent.labelName == "ORG" {
        org := org + [ent.text];
      } else if ent.labelName == "GPE" {
        location := location + [ent.text];
      } else if ent.labelName == "CARDINAL" {
        number := number + [ent.text];
      }
      i := i + 1;
    }
    assert ents[..i] == ents;
    b := Buckets(person, date, location, number, org);
  }

  // ---- the code as written -----------------------------------------------

  /** Python's `==` between an `int` and a `str`: never equal, never an error. */
  predicate IntEqualsStr(n: int, s: string) {
    false
  }

  /** One iteration of the loop body as written. */
  function AddAsWritten(b: Buckets, e: Span): PyResult<Buckets> {
    var b := if IntEqualsStr(e.labelId, "PERSON") then b.(person := b.person + [e.text]) else b;
    if IntEqualsStr(e.labelId, "DATE") then Raise(KeyError("'data'"))
    else if IntEqualsStr(e.labelId, "ORG") then Ok(b.(org := b.org + [e.text]))
    else if e.labelName == "GPE" then Ok(b.(location := b.location + [e.text]))
    else if e.labelName == "CARDINAL" then Ok(b.(number := b.number + [e.text]))
    else Ok(b)
  }

  function BucketedAsWritten(ents: seq<Span>): PyResult<Buckets> {
    if ents == [] then Ok(Empty)
    else
      var b :- BucketedAsWritten(ents[..|ents| - 1]);
      AddAsWritten(b, ents[|ents| - 1])
  }

  /** As written, the person, date and org buckets always stay empty. */
  lemma {:induction false} AsWrittenDropsPersonDateOrg(ents: seq<Span>)
    ensures BucketedAsWritten(ents) == Ok(Buckets([], [], Labelled(ents, "GPE"), Labelled(ents, "CARDINAL"), []))
  {
    if ents == [] {
      assert Labelled(ents, "GPE") == [];
      assert Labelled(ents, "CARDINAL") == [];
    } else {
      var front, e := ents[..|ents| - 1], ents[|ents| - 1];
      AsWrittenDropsPersonDateOrg(front);
      var b := Buckets([], [], Labelled(front, "GPE"), Labelled(front, "CARDINAL"), []);
      assert BucketedAsWritten(ents) == AddAsWritten(b, e);
      assert Labelled(ents, "GPE") == Labelled(front, "GPE") + (if e.labelName == "GPE" then [e.text] else []);
      assert Labelled(ents, "CARDINAL") == Labelled(front, "CARDINAL") + (if e.labelName == "CARDINAL" then [e.text] else []);
      if e.labelName == "GPE" {
        assert Labelled(ents, "CARDINAL") == Labelled(front, "CARDINAL");
      } else if e.labelName == "CARDINAL" {
        assert Labelled(ents, "GPE") == Labelled(front, "GPE");
        assert AddAsWritten(b, e) == Ok(b.(number := b.number + [e.text]));
      } else {
        assert Labelled(ents, "GPE") == Labelled(front, "GPE");
        assert Labelled(ents, "CARDINAL") == Labelled(front, "CARDINAL");
      }
    }
  }

  /** A person the tagger finds is lost as written and kept by the intended code. */
  lemma PersonLostAsWritten()
    ensures BucketedAsWritten([Span(380, "PERSON", "Antonio Giovinazzi")]).value.person == []
    ensures Bucketed([Span(380, "PERSON", "Antonio Giovinazzi")]).person == ["Antonio Giovinazzi"]
  {
    var ents := [Span(380, "PERSON", "Antonio Giovinazzi")];
    assert ents[..0] == [];
    AsWrittenDropsPersonDateOrg(ents);
  }
}

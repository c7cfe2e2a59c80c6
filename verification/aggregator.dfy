/**
  The classification pass of `main`: one walk over the fetched records that
  builds the three identifier lists in discovery order, each without
  duplicates.
 */
module Aggregator {

  import opened Wrappers
  import opened RiskRules

  /** The fields of a patient record that the classification reads. */
  datatype Patient = Patient(id: string, age: NumInput, bloodPressure: BpInput, temperature: NumInput)

  /** The three per-field outcomes of one record. */
  datatype Assessment = Assessment(bp: Risk, fever: Risk, age: Risk)

  /** The score at or above which a record is high risk. */
  const HighRiskScore: nat := 4

  function Assess(p: Patient): Assessment {
    Assessment(AssessBloodPressure(p.bloodPressure), AssessFever(p.temperature), AssessAgeRisk(p.age))
  }

  predicate HasBadData(p: Patient) {
    var a := Assess(p);
    a.bp == BadData || a.fever == BadData || a.age == BadData
  }

  /**
    The combined score of a record: its three levels added up, a bad-data
    field adding nothing. A record with bad data still gets a score.
   */
  function Score(p: Patient): (s: nat)
    ensures var a := Assess(p); s == Contribution(a.bp) + Contribution(a.fever) + Contribution(a.age)
    ensures s <= StageTwo + HighFever + OverSixtyFive
  {
    var a := Assess(p);
    CombineThree(p.bloodPressure, p.temperature, p.age);
    CombineRisks([a.bp, a.fever, a.age])
  }

  predicate IsHighRisk(p: Patient) {
    Score(p) >= HighRiskScore
  }

  /** A fever field that is bad data does not count as a fever. */
  predicate HasFever(p: Patient) {
    var f := Assess(p).fever;
    f.Level? && f.n >= LowFever
  }

  /** The three output lists. */
  datatype Category = HighRisk | Fever | DataQuality

  predicate Selects(c: Category, p: Patient) {
    match c
    case HighRisk => IsHighRisk(p)
    case Fever => HasFever(p)
    case DataQuality => HasBadData(p)
  }

  /** Entry `entry` of the input is a record with identifier `id` that belongs in list `c`. */
  predicate Qualifies(entry: Option<Patient>, c: Category, id: string) {
    entry.Some? && entry.value.id == id && Selects(c, entry.value)
  }

  datatype Lists = Lists(highRisk: seq<string>, fever: seq<string>, dataQuality: seq<string>) {
    function Get(c: Category): seq<string> {
      match c
      case HighRisk => highRisk
      case Fever => fever
      case DataQuality => dataQuality
    }
  }

  const NoLists := Lists([], [], [])

  predicate NoDuplicates(xs: seq<string>) {
    forall i, j :: 0 <= i < j < |xs| ==> xs[i] != xs[j]
  }

  /** The `includes` check before a `push`. */
  function AddOnce(xs: seq<string>, x: string): seq<string> {
    if x in xs then xs else xs + [x]
  }

  /**
    One guarded `push`: when `add` holds, `x` is appended unless already
    present. The list keeps its elements in place and stays duplicate-free.
   */
  function AddIf(xs: seq<string>, add: bool, x: string): (r: seq<string>)
    ensures xs <= r && |r| <= |xs| + 1
    ensures forall y :: y in r <==> y in xs || (add && y == x)
    ensures NoDuplicates(xs) ==> NoDuplicates(r)
  {
    if add then AddOnce(xs, x) else xs
  }

  /**
    One iteration of the loop; a null entry is skipped. Every list keeps
    what it had, in place, gains at most the record's identifier, and only
    when the record belongs there, and stays free of duplicates.
   */
  function Step(acc: Lists, entry: Option<Patient>): (r: Lists)
    ensures forall c :: acc.Get(c) <= r.Get(c) && |r.Get(c)| <= |acc.Get(c)| + 1
    ensures forall c, id :: id in r.Get(c) <==> id in acc.Get(c) || Qualifies(entry, c, id)
    ensures forall c :: NoDuplicates(acc.Get(c)) ==> NoDuplicates(r.Get(c))
  {
    match entry
    case None => acc
    case Some(p) =>
      var dataQuality := AddIf(acc.dataQuality, HasBadData(p), p.id);
      var highRisk := AddIf(acc.highRisk, IsHighRisk(p), p.id);
      var fever := AddIf(acc.fever, HasFever(p), p.id);
      var r := Lists(highRisk, fever, dataQuality);
      forall c ensures r.Get(c) == AddIf(acc.Get(c), Selects(c, p), p.id) {
        if c == HighRisk {
          assert r.Get(c) == highRisk;
        } else if c == Fever {
          assert r.Get(c) == fever;
        } else {
          assert r.Get(c) == dataQuality;
        }
      }
      r
  }

  /**
    The loop from some point on, carrying the lists built so far: the lists
    only grow at their ends and never acquire a duplicate.
   */
  function ClassifyFrom(acc: Lists, entries: seq<Option<Patient>>): (r: Lists)
    ensures forall c :: acc.Get(c) <= r.Get(c)
    ensures forall c :: NoDuplicates(acc.Get(c)) ==> NoDuplicates(r.Get(c))
    decreases |entries|
  {
    if |entries| == 0 then acc else ClassifyFrom(Step(acc, entries[0]), entries[1..])
  }

  /**
    The whole loop. Every list is the deduplicated list of the identifiers
    selected for it, in the order they were first found, as if each list had
    its own pass; `ClassifyMembership` says which identifiers those are.
   */
  function Classify(entries: seq<Option<Patient>>): (r: Lists)
    ensures forall c :: r.Get(c) == Dedup(SelectedIds(entries, c))
    ensures forall c :: NoDuplicates(r.Get(c))
  {
    var r := ClassifyFrom(NoLists, entries);
    forall c ensures r.Get(c) == Dedup(SelectedIds(entries, c)) {
      ClassifyFromIsDedup(NoLists, entries, c);
    }
    r
  }

  /** An identifier is in a list exactly when some record with that identifier belongs there. */
  lemma ClassifyMembership(entries: seq<Option<Patient>>, c: Category, id: string)
    ensures id in Classify(entries).Get(c) <==> exists i :: 0 <= i < |entries| && Qualifies(entries[i], c, id)
  {
    assert Classify(entries).Get(c) == Dedup(SelectedIds(entries, c));
  }

  /** `main`'s guard: no lists at all when there are no records or the first entry is null. */
  function Report(entries: seq<Option<Patient>>): (r: Option<Lists>)
    ensures r.None? <==> |entries| == 0 || entries[0].None?
    ensures r.Some? ==> r.value == Classify(entries)
  {
    if |entries| == 0 || entries[0].None? then None else Some(Classify(entries))
  }

  /** The identifiers of the records selected for list `c`, in input order, repeats kept. */
  function SelectedIds(entries: seq<Option<Patient>>, c: Category): (ids: seq<string>)
    ensures forall id :: id in ids <==> exists i :: 0 <= i < |entries| && Qualifies(entries[i], c, id)
    decreases |entries|
  {
    if |entries| == 0 then []
    else
      var rest := SelectedIds(entries[1..], c);
      assert forall i :: 0 <= i < |entries[1..]| ==> entries[1..][i] == entries[i + 1];
      OwnId(entries[0], c) + rest
  }

  /** What one entry adds to `SelectedIds`. */
  function OwnId(entry: Option<Patient>, c: Category): seq<string> {
    if entry.Some? && Selects(c, entry.value) then [entry.value.id] else []
  }

  /** Keeps the first occurrence of every element, appending after `acc`. */
  function DedupFrom(acc: seq<string>, xs: seq<string>): (r: seq<string>)
    ensures forall x :: x in r <==> x in acc || x in xs
    ensures NoDuplicates(acc) ==> NoDuplicates(r)
    ensures |acc| <= |r| && r[..|acc|] == acc
    decreases |xs|
  {
    if |xs| == 0 then acc else DedupFrom(AddOnce(acc, xs[0]), xs[1..])
  }

  function Dedup(xs: seq<string>): (r: seq<string>)
    ensures forall x :: x in r <==> x in xs
    ensures NoDuplicates(r)
  {
    DedupFrom([], xs)
  }

  /** One step of the loop adds to list `c` exactly what the entry contributes to `SelectedIds`. */
  lemma StepGet(acc: Lists, entry: Option<Patient>, c: Category)
    ensures Step(acc, entry).Get(c)
         == if entry.Some? && Selects(c, entry.value) then AddOnce(acc.Get(c), entry.value.id) else acc.Get(c)
  {
  }

  /** The single interleaved pass builds each list as a pass of its own would. */
  lemma {:induction false} ClassifyFromIsDedup(acc: Lists, entries: seq<Option<Patient>>, c: Category)
    ensures ClassifyFrom(acc, entries).Get(c) == DedupFrom(acc.Get(c), SelectedIds(entries, c))
    decreases |entries|
  {
    if |entries| > 0 {
      var e := entries[0];
      ClassifyFromIsDedup(Step(acc, e), entries[1..], c);
      StepGet(acc, e, c);
      var rest := SelectedIds(entries[1..], c);
      if e.Some? && Selects(c, e.value) {
        assert SelectedIds(entries, c) == [e.value.id] + rest;
        assert ([e.value.id] + rest)[1..] == rest;
      } else {
        assert SelectedIds(entries, c) == rest;
      }
    }
  }

  /** Running the loop over two batches is running it over the first, then carrying on with the second. */
  lemma {:induction false} ClassifyFromAppend(acc: Lists, a: seq<Option<Patient>>, b: seq<Option<Patient>>)
    ensures ClassifyFrom(acc, a + b) == ClassifyFrom(ClassifyFrom(acc, a), b)
    decreases |a|
  {
    if |a| == 0 {
      assert a + b == b;
    } else {
      assert (a + b)[0] == a[0];
      assert (a + b)[1..] == a[1..] + b;
      ClassifyFromAppend(Step(acc, a[0]), a[1..], b);
    }
  }

  /** Every list already names every record of `entries` that belongs in it. */
  predicate Covers(acc: Lists, entries: seq<Option<Patient>>) {
    forall j, c :: 0 <= j < |entries| && entries[j].Some? && Selects(c, entries[j].value) ==> entries[j].value.id in acc.Get(c)
  }

  /** A record already listed wherever it belongs leaves the lists as they are. */
  lemma StepUnchanged(acc: Lists, p: Patient)
    requires forall c :: Selects(c, p) ==> p.id in acc.Get(c)
    ensures Step(acc, Some(p)) == acc
  {
    var n := Step(acc, Some(p));
    StepGet(acc, Some(p), HighRisk);
    StepGet(acc, Some(p), Fever);
    StepGet(acc, Some(p), DataQuality);
    assert n.highRisk == n.Get(HighRisk) && n.fever == n.Get(Fever) && n.dataQuality == n.Get(DataQuality);
  }

  /** Records whose identifiers are already listed where they belong change nothing. */
  lemma {:induction false} ClassifyFromAbsorbs(acc: Lists, entries: seq<Option<Patient>>)
    requires Covers(acc, entries)
    ensures ClassifyFrom(acc, entries) == acc
    decreases |entries|
  {
    if |entries| > 0 {
      if entries[0].Some? {
        StepUnchanged(acc, entries[0].value);
      }
      assert Covers(acc, entries[1..]) by {
        forall j, c | 0 <= j < |entries[1..]| && entries[1..][j].Some? && Selects(c, entries[1..][j].value)
          ensures entries[1..][j].value.id in acc.Get(c)
        {
          assert entries[1..][j] == entries[j + 1];
        }
      }
      ClassifyFromAbsorbs(acc, entries[1..]);
    }
  }

  /**
    Feeding the loop records it has already seen changes none of the lists:
    repeating a record, or a whole page, is harmless.
   */
  lemma ClassifyReplay(a: seq<Option<Patient>>, b: seq<Option<Patient>>)
    requires forall j :: 0 <= j < |b| && b[j].Some? ==> b[j] in a
    ensures Classify(a + b) == Classify(a)
  {
    var acc := ClassifyFrom(NoLists, a);
    ClassifyFromAppend(NoLists, a, b);
    forall j, c | 0 <= j < |b| && b[j].Some? && Selects(c, b[j].value)
      ensures b[j].value.id in acc.Get(c)
    {
      var i :| 0 <= i < |a| && a[i] == b[j];
      assert Qualifies(a[i], c, b[j].value.id);
      ClassifyMembership(a, c, b[j].value.id);
    }
    ClassifyFromAbsorbs(acc, b);
  }

  /**
    A record with a missing blood pressure, a high fever and an age over 65
    scores 0 + 2 + 2 = 4: it is listed as a data-quality issue and also as
    high risk and as a fever patient.
   */
  lemma BadDataPatientCanBeHighRisk(id: string, temperature: real, age: real)
    requires temperature > 100.9 && age > 65.0
    ensures var p := Patient(id, Num(age), NoReading, Num(temperature));
      Classify([Some(p)]) == Lists([id], [id], [id])
  {
    var p := Patient(id, Num(age), NoReading, Num(temperature));
    assert HasBadData(p) && IsHighRisk(p) && HasFever(p);
    assert AddOnce([], id) == [id];
    assert Step(NoLists, Some(p)) == Lists([id], [id], [id]);
    assert [Some(p)][1..] == [];
    assert ClassifyFrom(NoLists, [Some(p)]) == ClassifyFrom(Step(NoLists, Some(p)), []);
  }

  /** A record whose temperature is bad data is never a fever patient. */
  lemma BadFeverIsNoFever(entries: seq<Option<Patient>>, i: nat)
    requires i < |entries| && entries[i].Some?
    requires !entries[i].value.temperature.Num?
    requires forall j :: 0 <= j < |entries| && entries[j].Some? && entries[j].value.id == entries[i].value.id ==> j == i
    ensures entries[i].value.id !in Classify(entries).fever
    ensures entries[i].value.id in Classify(entries).dataQuality
  {
    var id := entries[i].value.id;
    ClassifyMembership(entries, Fever, id);
    ClassifyMembership(entries, DataQuality, id);
    assert Classify(entries).Get(Fever) == Classify(entries).fever;
    assert Classify(entries).Get(DataQuality) == Classify(entries).dataQuality;
    assert Qualifies(entries[i], DataQuality, id);
  }
}

/**
 * The two aggregations of src/components/IncidentCharts.tsx: the zero-filled
 * severity tally (lines 18-34) and the count of records per month label
 * (lines 36-53). The month label comes from locale-dependent date
 * formatting, so it is a parameter `labelOf` here.
 */
module IncidentCharts {
  import opened IncidentTypes
  import Index

  /** One slice of the severity chart. */
  datatype SeverityDatum = SeverityDatum(name: string, value: nat, color: string)

  /** One bar of the time chart. */
  datatype TimeDatum = TimeDatum(name: string, count: nat)

  /** How many records of `s` have severity `v`. */
  function CountOf(s: seq<Incident>, v: Severity): nat {
    if s == [] then 0
    else CountOf(s[..|s| - 1], v) + (if s[|s| - 1].severity == v then 1 else 0)
  }

  /** The tally of a severity is the length of the list the severity filter would show. */
  lemma {:induction false} CountOfIsFilterLength(s: seq<Incident>, v: Severity)
    ensures CountOf(s, v) == |Index.Filter(s, Index.Only(v))|
  {
    if s != [] {
      var init, last := s[..|s| - 1], s[|s| - 1];
      assert s == init + [last];
      CountOfIsFilterLength(init, v);
      Index.FilterAppend(init, [last], Index.Only(v));
      assert [last][1..] == [];
    }
  }

  /** Every record has exactly one severity, so the three tallies add up to the length. */
  lemma {:induction false} CountsPartition(s: seq<Incident>)
    ensures CountOf(s, Low) + CountOf(s, Medium) + CountOf(s, High) == |s|
  {
    if s != [] {
      CountsPartition(s[..|s| - 1]);
    }
  }

  /** All three tallies are zero exactly for the empty list. */
  lemma AllZeroIffEmpty(s: seq<Incident>)
    ensures CountOf(s, Low) == 0 && CountOf(s, Medium) == 0 && CountOf(s, High) == 0 <==> s == []
  {
    CountsPartition(s);
  }

  /** `severityData` (lines 18-34). */
  method SeverityData(incidents: seq<Incident>) returns (data: seq<SeverityDatum>)
    ensures |data| == 3
    ensures data[0].name == "Low" && data[1].name == "Medium" && data[2].name == "High"
    ensures data[0].value == CountOf(incidents, Low)
    ensures data[1].value == CountOf(incidents, Medium)
    ensures data[2].value == CountOf(incidents, High)
    ensures data[0].color == "#10b981" && data[1].color == "#f59e0b" && data[2].color == "#ef4444"
    ensures data[0].value + data[1].value + data[2].value == |incidents|
  {
    var counts: map<Severity, nat> := map[Low := 0, Medium := 0, High := 0];
    for i := 0 to |incidents|
      invariant counts.Keys == {Low, Medium, High}
      invariant forall v :: v in counts ==> counts[v] == CountOf(incidents[..i], v)
    {
      assert incidents[..i + 1][..i] == incidents[..i];
      var severity := incidents[i].severity;
      assert severity == Low || severity == Medium || severity == High;
      counts := counts[severity := counts[severity] + 1];
    }
    assert incidents[..|incidents|] == incidents;
    data := [
      SeverityDatum("Low", counts[Low], "#10b981"),
      SeverityDatum("Medium", counts[Medium], "#f59e0b"),
      SeverityDatum("High", counts[High], "#ef4444")];
    CountsPartition(incidents);
  }

  /** How many records of `s` carry the label `k`. */
  function LabelCount(s: seq<Incident>, labelOf: Incident -> string, k: string): nat {
    if s == [] then 0
    else LabelCount(s[..|s| - 1], labelOf, k) + (if labelOf(s[|s| - 1]) == k then 1 else 0)
  }

  /** The labels of `s`, each once, in the order of their first occurrence. */
  function Labels(s: seq<Incident>, labelOf: Incident -> string): seq<string> {
    if s == [] then []
    else
      var ks := Labels(s[..|s| - 1], labelOf);
      if labelOf(s[|s| - 1]) in ks then ks else ks + [labelOf(s[|s| - 1])]
  }

  ghost predicate Distinct(ks: seq<string>) {
    forall i, j :: 0 <= i < j < |ks| ==> ks[i] != ks[j]
  }

  lemma {:induction false} LabelsDistinct(s: seq<Incident>, labelOf: Incident -> string)
    ensures Distinct(Labels(s, labelOf))
  {
    if s != [] {
      LabelsDistinct(s[..|s| - 1], labelOf);
    }
  }

  /** A label is listed exactly when some record carries it, that is, when its count is positive. */
  lemma {:induction false} LabelsAreTheUsedOnes(s: seq<Incident>, labelOf: Incident -> string, k: string)
    ensures k in Labels(s, labelOf) <==> LabelCount(s, labelOf, k) > 0
    ensures LabelCount(s, labelOf, k) > 0 <==> exists i :: 0 <= i < |s| && labelOf(s[i]) == k
  {
    if s != [] {
      var init := s[..|s| - 1];
      LabelsAreTheUsedOnes(init, labelOf, k);
      if labelOf(s[|s| - 1]) != k && LabelCount(s, labelOf, k) > 0 {
        var i :| 0 <= i < |init| && labelOf(init[i]) == k;
        assert labelOf(s[i]) == k;
      }
      if exists i :: 0 <= i < |s| && labelOf(s[i]) == k {
        var i :| 0 <= i < |s| && labelOf(s[i]) == k;
        if i < |init| {
          assert labelOf(init[i]) == k;
        }
      }
    }
  }

  /** What one more record does to the labels and the counts. */
  lemma LabelStep(s: seq<Incident>, i: nat, labelOf: Incident -> string)
    requires i < |s|
    ensures Labels(s[..i + 1], labelOf) ==
              var ks := Labels(s[..i], labelOf);
              if labelOf(s[i]) in ks then ks else ks + [labelOf(s[i])]
    ensures forall k :: LabelCount(s[..i + 1], labelOf, k) ==
              LabelCount(s[..i], labelOf, k) + if labelOf(s[i]) == k then 1 else 0
  {
    assert s[..i + 1][..i] == s[..i];
  }

  /** The sum of the counts of the labels `ks`. */
  function SumCounts(s: seq<Incident>, labelOf: Incident -> string, ks: seq<string>): nat {
    if ks == [] then 0 else SumCounts(s, labelOf, ks[..|ks| - 1]) + LabelCount(s, labelOf, ks[|ks| - 1])
  }

  /** Appending one record adds one to the sum exactly when its label is among `ks`. */
  lemma {:induction false} SumCountsAppend(s: seq<Incident>, x: Incident, labelOf: Incident -> string, ks: seq<string>)
    requires Distinct(ks)
    ensures SumCounts(s + [x], labelOf, ks) == SumCounts(s, labelOf, ks) + (if labelOf(x) in ks then 1 else 0)
  {
    if ks != [] {
      var init := ks[..|ks| - 1];
      assert (s + [x])[..|s + [x]| - 1] == s;
      SumCountsAppend(s, x, labelOf, init);
      assert labelOf(x) in ks <==> labelOf(x) in init || labelOf(x) == ks[|ks| - 1];
    }
  }

  lemma {:induction false} SumCountsSnoc(s: seq<Incident>, labelOf: Incident -> string, ks: seq<string>, k: string)
    ensures SumCounts(s, labelOf, ks + [k]) == SumCounts(s, labelOf, ks) + LabelCount(s, labelOf, k)
  {
    assert (ks + [k])[..|ks + [k]| - 1] == ks;
  }

  /** Every record is counted under exactly one listed label. */
  lemma {:induction false} LabelCountsSum(s: seq<Incident>, labelOf: Incident -> string)
    ensures SumCounts(s, labelOf, Labels(s, labelOf)) == |s|
  {
    if s != [] {
      var init, x := s[..|s| - 1], s[|s| - 1];
      assert s == init + [x];
      var ks := Labels(init, labelOf);
      LabelCountsSum(init, labelOf);
      LabelsDistinct(init, labelOf);
      SumCountsAppend(init, x, labelOf, ks);
      if labelOf(x) !in ks {
        SumCountsSnoc(s, labelOf, ks, labelOf(x));
        LabelsAreTheUsedOnes(init, labelOf, labelOf(x));
      }
    }
  }

  /** The sum of the bars' counts. */
  function Total(data: seq<TimeDatum>): nat {
    if data == [] then 0 else Total(data[..|data| - 1]) + data[|data| - 1].count
  }

  /** `Object.entries(months).map(([name, count]) => ({ name, count }))`, keys in insertion order. */
  function Entries(months: map<string, nat>, keys: seq<string>): (data: seq<TimeDatum>)
    requires forall k :: k in keys ==> k in months
    ensures |data| == |keys|
    ensures forall j :: 0 <= j < |keys| ==> data[j] == TimeDatum(keys[j], months[keys[j]])
  {
    if keys == [] then [] else Entries(months, keys[..|keys| - 1]) + [TimeDatum(keys[|keys| - 1], months[keys[|keys| - 1]])]
  }

  lemma {:induction false} EntriesTotal(s: seq<Incident>, labelOf: Incident -> string, months: map<string, nat>, keys: seq<string>)
    requires forall k :: k in keys ==> k in months && months[k] == LabelCount(s, labelOf, k)
    ensures Total(Entries(months, keys)) == SumCounts(s, labelOf, keys)
  {
    if keys != [] {
      var data := Entries(months, keys);
      EntriesTotal(s, labelOf, months, keys[..|keys| - 1]);
      assert data[..|data| - 1] == Entries(months, keys[..|keys| - 1]);
    }
  }

  /**
   * The `forEach` of lines 38-49: `months` maps each label met so far to its
   * count, and `keys` lists the labels in the order `months` received them.
   */
  method CountByLabel(incidents: seq<Incident>, labelOf: Incident -> string)
    returns (months: map<string, nat>, keys: seq<string>)
    ensures keys == Labels(incidents, labelOf)
    ensures forall k :: k in months <==> k in keys
    ensures forall k :: k in months ==> months[k] == LabelCount(incidents, labelOf, k) && months[k] > 0
  {
    months, keys := map[], [];
    for i := 0 to |incidents|
      invariant keys == Labels(incidents[..i], labelOf)
      invariant forall k :: k in months <==> k in keys
      invariant forall k :: k in months ==> months[k] == LabelCount(incidents[..i], labelOf, k) && months[k] > 0
    {
      LabelStep(incidents, i, labelOf);
      var monthYear := labelOf(incidents[i]);
      if monthYear in months && months[monthYear] > 0 {
        months := months[monthYear := months[monthYear] + 1];
      } else {
        LabelsAreTheUsedOnes(incidents[..i], labelOf, monthYear);
        months := months[monthYear := 1];
        keys := keys + [monthYear];
      }
    }
    assert incidents[..|incidents|] == incidents;
  }

  /**
   * `timeData` up to its final chronological sort (lines 36-53): one bar per
   * label, in the order the object `months` received its keys, each with the
   * number of records that carry it.
   */
  method TimeData(incidents: seq<Incident>, labelOf: Incident -> string) returns (data: seq<TimeDatum>)
    ensures |data| == |Labels(incidents, labelOf)|
    ensures forall j :: 0 <= j < |data| ==>
              data[j] == TimeDatum(Labels(incidents, labelOf)[j], LabelCount(incidents, labelOf, Labels(incidents, labelOf)[j]))
    ensures forall j :: 0 <= j < |data| ==> data[j].count > 0
    ensures forall i, j :: 0 <= i < j < |data| ==> data[i].name != data[j].name
    ensures Total(data) == |incidents|
    ensures incidents == [] ==> data == []
  {
    var months, keys := CountByLabel(incidents, labelOf);
    data := Entries(months, keys);
    EntriesTotal(incidents, labelOf, months, keys);
    LabelsDistinct(incidents, labelOf);
    LabelCountsSum(incidents, labelOf);
  }
}

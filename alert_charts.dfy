/**
 * The chart series the component derives from the two count maps:
 * `Object.keys(counts || {})` as labels and `Object.values(counts || {})` as
 * data, the pie labels prefixed with "Severity ". ECMAScript fixes the order
 * of `Object.keys` (array-index keys ascending, then the other keys in
 * insertion order); the model does not depend on it and takes the order as a
 * parameter: any sequence that lists every key exactly once.
 */
module AlertCharts {
  import opened Wrappers
  import opened Frequency
  import opened Decimal
  import opened AlertData
  import opened AlertCounts

  /** The `labels` of a chart and the `data` of its single dataset. */
  datatype Series = Series(labels: seq<string>, data: seq<nat>)

  const PIE_LABEL_PREFIX := "Severity "

  /** `counts || {}`: a missing count map is read as the empty one. */
  function OrEmpty<K>(counts: Option<map<K, nat>>): (r: map<K, nat>)
    ensures counts.None? ==> |r| == 0
    ensures counts.Some? ==> r == counts.value
  {
    match counts
    case None => map[]
    case Some(m) => m
  }

  /** `order` lists every key of `keys` exactly once and nothing else. */
  ghost predicate Enumerates<K>(order: seq<K>, keys: set<K>)
  {
    && (forall i, j | 0 <= i < j < |order| :: order[i] != order[j])
    && (forall i | 0 <= i < |order| :: order[i] in keys)
    && (forall k | k in keys :: k in order)
  }

  /** The counts of `m`, listed in the order of `order`. */
  function ValuesIn<K>(m: map<K, nat>, order: seq<K>): (values: seq<nat>)
    requires forall i | 0 <= i < |order| :: order[i] in m
    ensures |values| == |order|
    ensures forall i | 0 <= i < |order| :: values[i] == m[order[i]]
  {
    seq(|order|, i requires 0 <= i < |order| => m[order[i]])
  }

  function SeqSum(s: seq<nat>): nat
  {
    if s == [] then 0 else s[0] + SeqSum(s[1..])
  }

  /** The text of a pie slice label: `Severity ${key}`. */
  function PieLabel(severity: int): (text: string)
    ensures |text| > |PIE_LABEL_PREFIX| && text[..|PIE_LABEL_PREFIX|] == PIE_LABEL_PREFIX
    ensures text[|PIE_LABEL_PREFIX|..] == IntToDecimal(severity)
  {
    PIE_LABEL_PREFIX + IntToDecimal(severity)
  }

  /** Dropping the first key of an enumeration enumerates the remaining keys. */
  lemma EnumerationRest<K>(order: seq<K>, keys: set<K>)
    requires order != [] && Enumerates(order, keys)
    ensures Enumerates(order[1..], keys - {order[0]})
  {
    forall k | k in keys - {order[0]} ensures k in order[1..] {
      var i :| 0 <= i < |order| && order[i] == k;
      assert order[1..][i - 1] == k;
    }
  }

  /** An enumeration of a key set is as long as the set is large. */
  lemma {:induction false} EnumerationLength<K>(order: seq<K>, keys: set<K>)
    requires Enumerates(order, keys)
    ensures |order| == |keys|
    decreases |order|
  {
    if order == [] {
      assert keys == {};
    } else {
      EnumerationRest(order, keys);
      EnumerationLength(order[1..], keys - {order[0]});
    }
  }

  /** Listing the counts of `m` without its first key is listing the rest of the counts. */
  lemma ValuesInRest<K>(m: map<K, nat>, order: seq<K>)
    requires order != [] && Enumerates(order, m.Keys)
    ensures ValuesIn(m, order)[1..] == ValuesIn(m - {order[0]}, order[1..])
  {
    var all, tail := ValuesIn(m, order), ValuesIn(m - {order[0]}, order[1..]);
    forall i | 0 <= i < |tail| ensures all[1..][i] == tail[i] {
      assert order[0] != order[i + 1];
      assert order[1..][i] == order[i + 1];
    }
  }

  /** Listing every count of `m` once and adding them up gives the sum of the map. */
  lemma {:induction false} EnumerationSum<K>(m: map<K, nat>, order: seq<K>)
    requires Enumerates(order, m.Keys)
    ensures SeqSum(ValuesIn(m, order)) == MapSum(m)
    decreases |order|
  {
    if order == [] {
      assert m.Keys == {};
      assert m == map[];
    } else {
      var k := order[0];
      EnumerationRest(order, m.Keys);
      assert (m - {k}).Keys == m.Keys - {k};
      EnumerationSum(m - {k}, order[1..]);
      ValuesInRest(m, order);
      MapSumRemove(m, k);
    }
  }

  /** Reads a pie label back: the severity whose decimal text follows the prefix, if the label has that form. */
  function LabelSeverity(text: string): Option<int>
  {
    var n := |PIE_LABEL_PREFIX|;
    if |text| > n && text[..n] == PIE_LABEL_PREFIX && IsIntText(text[n..])
    then Some(ParseInt(text[n..]))
    else None
  }

  /** Each pie label is the prefix followed by text that reads back as its severity. */
  lemma PieLabelDecodes(severity: int)
    ensures LabelSeverity(PieLabel(severity)) == Some(severity)
  {
    assert PieLabel(severity)[..|PIE_LABEL_PREFIX|] == PIE_LABEL_PREFIX;
    assert PieLabel(severity)[|PIE_LABEL_PREFIX|..] == IntToDecimal(severity);
    ParseIntToDecimal(severity);
  }

  /** Distinct severities have distinct pie labels. */
  lemma PieLabelInjective(a: int, b: int)
    requires PieLabel(a) == PieLabel(b)
    ensures a == b
  {
    PieLabelDecodes(a);
    PieLabelDecodes(b);
  }

  lemma PieLabelsDecode(order: seq<int>)
    ensures forall i | 0 <= i < |order| :: LabelSeverity(PieLabel(order[i])) == Some(order[i])
  {
    forall i | 0 <= i < |order| ensures LabelSeverity(PieLabel(order[i])) == Some(order[i]) {
      PieLabelDecodes(order[i]);
    }
  }

  lemma PieLabelsDistinct(order: seq<int>)
    requires forall i, j | 0 <= i < j < |order| :: order[i] != order[j]
    ensures forall i, j | 0 <= i < j < |order| :: PieLabel(order[i]) != PieLabel(order[j])
  {
    forall i, j | 0 <= i < j < |order| ensures PieLabel(order[i]) != PieLabel(order[j]) {
      if PieLabel(order[i]) == PieLabel(order[j]) {
        PieLabelInjective(order[i], order[j]);
      }
    }
  }

  /**
   * `barChartData`: every signature appears once as a label, beside its own
   * count; with no counts at all both arrays are empty.
   */
  function BarSeries(counts: Option<map<string, nat>>, order: seq<string>): (r: Series)
    requires Enumerates(order, OrEmpty(counts).Keys)
    ensures |r.labels| == |r.data| == |OrEmpty(counts)|
    ensures forall i | 0 <= i < |r.labels| :: r.labels[i] in OrEmpty(counts) && r.data[i] == OrEmpty(counts)[r.labels[i]]
    ensures forall i, j | 0 <= i < j < |r.labels| :: r.labels[i] != r.labels[j]
    ensures forall k | k in OrEmpty(counts) :: k in r.labels
    ensures counts.None? ==> r == Series([], [])
  {
    EnumerationLength(order, OrEmpty(counts).Keys);
    Series(order, ValuesIn(OrEmpty(counts), order))
  }

  /** The pie labels for the keys listed in `order`. */
  function PieLabels(order: seq<int>): (labels: seq<string>)
    ensures |labels| == |order|
    ensures forall i | 0 <= i < |order| :: labels[i] == PieLabel(order[i])
  {
    seq(|order|, i requires 0 <= i < |order| => PieLabel(order[i]))
  }

  lemma PieLabelsCover(m: map<int, nat>, order: seq<int>)
    requires Enumerates(order, m.Keys)
    ensures forall k | k in m :: PieLabel(k) in PieLabels(order)
  {
    forall k | k in m ensures PieLabel(k) in PieLabels(order) {
      var i :| 0 <= i < |order| && order[i] == k;
      assert PieLabels(order)[i] == PieLabel(k);
    }
  }

  /**
   * `pieChartData`: every label is "Severity " followed by text that reads
   * back as a severity key, beside that key's count; labels are pairwise
   * distinct, every severity key has its label, and with no counts both
   * arrays are empty.
   */
  function PieSeries(counts: Option<map<int, nat>>, order: seq<int>): (r: Series)
    requires Enumerates(order, OrEmpty(counts).Keys)
    ensures |r.labels| == |r.data| == |OrEmpty(counts)|
    ensures forall i | 0 <= i < |r.labels| ::
              && LabelSeverity(r.labels[i]).Some?
              && LabelSeverity(r.labels[i]).value in OrEmpty(counts)
              && r.data[i] == OrEmpty(counts)[LabelSeverity(r.labels[i]).value]
    ensures forall i, j | 0 <= i < j < |r.labels| :: r.labels[i] != r.labels[j]
    ensures forall k | k in OrEmpty(counts) :: PieLabel(k) in r.labels
    ensures counts.None? ==> r == Series([], [])
  {
    EnumerationLength(order, OrEmpty(counts).Keys);
    PieLabelsDistinct(order);
    PieLabelsDecode(order);
    PieLabelsCover(OrEmpty(counts), order);
    Series(PieLabels(order), ValuesIn(OrEmpty(counts), order))
  }

  /** The bars add up to the number of records with a truthy signature; with no data, to zero. */
  lemma BarTotal(data: Option<seq<Event>>, order: seq<string>)
    requires Enumerates(order, OrEmpty(SignatureFrequencies(data)).Keys)
    ensures SeqSum(BarSeries(SignatureFrequencies(data), order).data)
              == (if data.None? then 0 else TruthySignatureCount(data.value))
  {
    EnumerationSum(OrEmpty(SignatureFrequencies(data)), order);
    if data.Some? {
      SignatureTotal(data.value);
    }
  }

  /** The pie slices add up to the number of records with a non-null severity; with no data, to zero. */
  lemma PieTotal(data: Option<seq<Event>>, order: seq<int>)
    requires Enumerates(order, OrEmpty(SeverityFrequencies(data)).Keys)
    ensures SeqSum(PieSeries(SeverityFrequencies(data), order).data)
              == (if data.None? then 0 else PresentSeverityCount(data.value))
  {
    EnumerationSum(OrEmpty(SeverityFrequencies(data)), order);
    if data.Some? {
      SeverityTotal(data.value);
    }
  }
}

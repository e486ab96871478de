/**
 * The two aggregations of the alert component: `alertTypeCounts`, keyed by
 * signature and guarded by a truthiness test, and `severityCounts`, keyed by
 * severity and guarded by `!= null`. Both run only when `data` is present
 * (`data?.reduce`); otherwise the result is `undefined`, here `None`.
 */
module AlertCounts {
  import opened Wrappers
  import opened Frequency
  import opened AlertData

  /** The key a record contributes to the signature counts: its signature when truthy, else nothing. */
  function SignatureKey(e: Event): (r: Option<string>)
    ensures r.Some? <==> IsTruthy(SignatureOf(e))
    ensures r.Some? ==> r == SignatureOf(e) && r.value != ""
  {
    if IsTruthy(SignatureOf(e)) then SignatureOf(e) else None
  }

  /** The signature keys contributed by each record, in order. */
  function SignatureKeys(events: seq<Event>): seq<Option<string>>
  {
    Image(events, SignatureKey)
  }

  /** The raw `event?.alert?.signature` of each record, in order. */
  function Signatures(events: seq<Event>): seq<Option<string>>
  {
    Image(events, SignatureOf)
  }

  /** The `event?.alert?.severity` of each record, in order; the `!= null` test keeps every present value. */
  function Severities(events: seq<Event>): seq<Option<int>>
  {
    Image(events, SeverityOf)
  }

  /** Specification of `alertTypeCounts`. */
  function SignatureFrequencies(data: Option<seq<Event>>): (r: Option<map<string, nat>>)
    ensures r.None? <==> data.None?
    ensures r.Some? ==> r.value.Keys == Carried(SignatureKeys(data.value)) && "" !in r.value
  {
    match data
    case None => None
    case Some(events) =>
      FrequenciesKeys(SignatureKeys(events));
      SignatureKeysMultiset(events, "");
      FrequenciesCount(SignatureKeys(events), "");
      Some(Frequencies(SignatureKeys(events)))
  }

  /** Specification of `severityCounts`. */
  function SeverityFrequencies(data: Option<seq<Event>>): (r: Option<map<int, nat>>)
    ensures r.None? <==> data.None?
    ensures r.Some? ==> r.value.Keys == Carried(Severities(data.value))
  {
    match data
    case None => None
    case Some(events) =>
      FrequenciesKeys(Severities(events));
      Some(Frequencies(Severities(events)))
  }

  /** Reference count: the records whose signature is truthy. */
  function TruthySignatureCount(events: seq<Event>): nat
  {
    if events == [] then 0
    else TruthySignatureCount(events[..|events| - 1]) + (if IsTruthy(SignatureOf(events[|events| - 1])) then 1 else 0)
  }

  /** Reference count: the records whose severity is neither null nor undefined. */
  function PresentSeverityCount(events: seq<Event>): nat
  {
    if events == [] then 0
    else PresentSeverityCount(events[..|events| - 1]) + (if SeverityOf(events[|events| - 1]).Some? then 1 else 0)
  }

  /** `data?.reduce(...)` building the signature counts, one record at a time, into an accumulator that starts as `{}`. */
  method AlertTypeCounts(data: Option<seq<Event>>) returns (counts: Option<map<string, nat>>)
    ensures counts == SignatureFrequencies(data)
  {
    match data
    case None =>
      counts := None;
    case Some(events) =>
      var acc: map<string, nat> := map[];
      for i := 0 to |events|
        invariant acc == Frequencies(SignatureKeys(events[..i]))
      {
        var signature := SignatureOf(events[i]);
        if IsTruthy(signature) {
          acc := acc[signature.value := CountOrZero(acc, signature.value) + 1];
        }
        assert SignatureKeys(events[..i + 1]) == SignatureKeys(events[..i]) + [SignatureKey(events[i])];
        FrequenciesSnoc(SignatureKeys(events[..i]), SignatureKey(events[i]));
      }
      assert events[..|events|] == events;
      counts := Some(acc);
  }

  /** `data?.reduce(...)` building the severity counts, one record at a time, into an accumulator that starts as `{}`. */
  method SeverityCounts(data: Option<seq<Event>>) returns (counts: Option<map<int, nat>>)
    ensures counts == SeverityFrequencies(data)
  {
    match data
    case None =>
      counts := None;
    case Some(events) =>
      var acc: map<int, nat> := map[];
      for i := 0 to |events|
        invariant acc == Frequencies(Severities(events[..i]))
      {
        var severity := SeverityOf(events[i]);
        if severity != None {
          acc := acc[severity.value := CountOrZero(acc, severity.value) + 1];
        }
        assert Severities(events[..i + 1]) == Severities(events[..i]) + [SeverityOf(events[i])];
        FrequenciesSnoc(Severities(events[..i]), SeverityOf(events[i]));
      }
      assert events[..|events|] == events;
      counts := Some(acc);
  }

  /** How the truthiness filter relates the signature keys to the raw signatures. */
  lemma {:induction false} SignatureKeysMultiset(events: seq<Event>, s: string)
    ensures s != "" ==> multiset(SignatureKeys(events))[Some(s)] == multiset(Signatures(events))[Some(s)]
    ensures multiset(SignatureKeys(events))[Some("")] == 0
  {
    if events != [] {
      var n := |events| - 1;
      SignatureKeysMultiset(events[..n], s);
      assert SignatureKeys(events) == SignatureKeys(events[..n]) + [SignatureKey(events[n])];
      assert Signatures(events) == Signatures(events[..n]) + [SignatureOf(events[n])];
    }
  }

  /**
   * For every signature `s`: `s` is a key exactly when `s` is non-empty and
   * some record carries it, and its count is the number of records whose
   * signature is `s`. The empty signature is never a key.
   */
  lemma SignatureCountsMeaning(events: seq<Event>, s: string)
    ensures s in Frequencies(SignatureKeys(events)) <==> s != "" && Some(s) in Signatures(events)
    ensures s in Frequencies(SignatureKeys(events)) ==>
              Frequencies(SignatureKeys(events))[s] == multiset(Signatures(events))[Some(s)]
  {
    FrequenciesCount(SignatureKeys(events), s);
    SignatureKeysMultiset(events, s);
  }

  /**
   * For every severity `v`, zero included: `v` is a key exactly when some
   * record carries it, and its count is the number of records whose severity is `v`.
   */
  lemma SeverityCountsMeaning(events: seq<Event>, v: int)
    ensures v in Frequencies(Severities(events)) <==> Some(v) in Severities(events)
    ensures v in Frequencies(Severities(events)) ==>
              Frequencies(Severities(events))[v] == multiset(Severities(events))[Some(v)]
  {
    FrequenciesCount(Severities(events), v);
  }

  /** A record whose severity is `0` is counted under key `0`, although `0` is falsy. */
  lemma ZeroSeverityCounted(events: seq<Event>, i: nat)
    requires i < |events| && SeverityOf(events[i]) == Some(0)
    ensures 0 in Frequencies(Severities(events)) && Frequencies(Severities(events))[0] >= 1
  {
    assert Severities(events)[i] == Some(0);
    SeverityCountsMeaning(events, 0);
  }

  lemma {:induction false} SignatureKeysPresent(events: seq<Event>)
    ensures Present(SignatureKeys(events)) == TruthySignatureCount(events)
  {
    if events != [] {
      var n := |events| - 1;
      SignatureKeysPresent(events[..n]);
      assert SignatureKeys(events) == SignatureKeys(events[..n]) + [SignatureKey(events[n])];
    }
  }

  lemma {:induction false} SeveritiesPresent(events: seq<Event>)
    ensures Present(Severities(events)) == PresentSeverityCount(events)
  {
    if events != [] {
      var n := |events| - 1;
      SeveritiesPresent(events[..n]);
      assert Severities(events) == Severities(events[..n]) + [SeverityOf(events[n])];
    }
  }

  /** Conservation: the signature counts add up to the number of records with a truthy signature. */
  lemma SignatureTotal(events: seq<Event>)
    ensures MapSum(Frequencies(SignatureKeys(events))) == TruthySignatureCount(events)
  {
    FrequenciesTotal(SignatureKeys(events));
    SignatureKeysPresent(events);
  }

  /** Conservation: the severity counts add up to the number of records with a non-null severity. */
  lemma SeverityTotal(events: seq<Event>)
    ensures MapSum(Frequencies(Severities(events))) == PresentSeverityCount(events)
  {
    FrequenciesTotal(Severities(events));
    SeveritiesPresent(events);
  }

  /** Reordering the records does not change either count map. */
  lemma CountsIgnoreOrder(a: seq<Event>, b: seq<Event>)
    requires multiset(a) == multiset(b)
    ensures SignatureFrequencies(Some(a)) == SignatureFrequencies(Some(b))
    ensures SeverityFrequencies(Some(a)) == SeverityFrequencies(Some(b))
  {
    ImagePermutation(a, b, SignatureKey);
    ImagePermutation(a, b, SeverityOf);
    FrequenciesPermutation(SignatureKeys(a), SignatureKeys(b));
    FrequenciesPermutation(Severities(a), Severities(b));
  }

  function SampleEvent(signature: Option<string>, severity: Option<int>): Event
  {
    Some(AlertRecord(None, None, None, None, None, Some(AlertInfo(signature, severity, None))))
  }

  /** Two records signed "A" with severities 1 and 2, one signed "B" with severity 1, and one with an empty `alert`. */
  const SAMPLE: seq<Event> := [
    SampleEvent(Some("A"), Some(1)),
    SampleEvent(Some("A"), Some(2)),
    SampleEvent(Some("B"), Some(1)),
    SampleEvent(None, None)]

  lemma SampleSignatureKeys()
    ensures SignatureKeys(SAMPLE) == [Some("A"), Some("A"), Some("B"), None]
  {
    var sig := SignatureKeys(SAMPLE);
    assert sig[0] == SignatureKey(SampleEvent(Some("A"), Some(1))) == Some("A");
    assert sig[1] == SignatureKey(SampleEvent(Some("A"), Some(2))) == Some("A");
    assert sig[2] == SignatureKey(SampleEvent(Some("B"), Some(1))) == Some("B");
    assert sig[3] == SignatureKey(SampleEvent(None, None)) == None;
  }

  lemma SampleSignatureFold()
    ensures Frequencies([Some("A"), Some("A"), Some("B"), None]) == map["A" := 2, "B" := 1]
  {
    var k1 := [Some("A")];
    var k2 := k1 + [Some("A")];
    var k3 := k2 + [Some("B")];
    var k4 := k3 + [None];
    assert [] + k1 == k1;
    FrequenciesSnoc([], Some("A"));
    var m1 := Tally(map[], Some("A"));
    assert m1 == map["A" := 1];
    FrequenciesSnoc(k1, Some("A"));
    var m2 := Tally(m1, Some("A"));
    assert m2 == map["A" := 2];
    FrequenciesSnoc(k2, Some("B"));
    var m3 := Tally(m2, Some("B"));
    assert m3 == map["A" := 2, "B" := 1];
    FrequenciesSnoc(k3, None);
    assert Frequencies(k4) == m3;
    assert k4 == [Some("A"), Some("A"), Some("B"), None];
  }

  /** The sample's signature counts are `{A: 2, B: 1}`: the last record has no signature and is skipped. */
  lemma SampleSignatureCounts()
    ensures SignatureFrequencies(Some(SAMPLE)) == Some(map["A" := 2, "B" := 1])
  {
    SampleSignatureKeys();
    SampleSignatureFold();
  }

  lemma SampleSeverities()
    ensures Severities(SAMPLE) == [Some(1), Some(2), Some(1), None]
  {
    var sev := Severities(SAMPLE);
    assert sev[0] == SeverityOf(SampleEvent(Some("A"), Some(1))) == Some(1);
    assert sev[1] == SeverityOf(SampleEvent(Some("A"), Some(2))) == Some(2);
    assert sev[2] == SeverityOf(SampleEvent(Some("B"), Some(1))) == Some(1);
    assert sev[3] == SeverityOf(SampleEvent(None, None)) == None;
  }

  lemma SampleSeverityFold()
    ensures Frequencies([Some(1), Some(2), Some(1), None]) == map[1 := 2, 2 := 1]
  {
    var k1 := [Some(1)];
    var k2 := k1 + [Some(2)];
    var k3 := k2 + [Some(1)];
    var k4 := k3 + [None];
    assert [] + k1 == k1;
    FrequenciesSnoc([], Some(1));
    var m1 := Tally(map[], Some(1));
    assert m1 == map[1 := 1];
    FrequenciesSnoc(k1, Some(2));
    var m2 := Tally(m1, Some(2));
    assert m2 == map[1 := 1, 2 := 1];
    FrequenciesSnoc(k2, Some(1));
    var m3 := Tally(m2, Some(1));
    assert m3 == map[1 := 2, 2 := 1];
    FrequenciesSnoc(k3, None);
    assert Frequencies(k4) == m3;
    assert k4 == [Some(1), Some(2), Some(1), None];
  }

  /** The sample's severity counts are `{1: 2, 2: 1}`: the last record has no severity and is skipped. */
  lemma SampleSeverityCounts()
    ensures SeverityFrequencies(Some(SAMPLE)) == Some(map[1 := 2, 2 := 1])
  {
    SampleSeverities();
    SampleSeverityFold();
  }
}

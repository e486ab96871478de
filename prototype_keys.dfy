/**
 * The signature accumulator as written: a plain object `{}`, which inherits
 * the members of `Object.prototype`. Reading `acc[k]` for an inherited name
 * finds a function (or, for `__proto__`, the prototype object itself), so
 * `(acc[k] || 0) + 1` concatenates text instead of counting. The rest of the
 * model uses `Frequency.Frequencies`, the accumulator the code evidently
 * means: one without inherited members.
 */
module PrototypeKeys {
  import opened Wrappers
  import opened Frequency
  import opened Decimal
  import opened AlertData
  import opened AlertCounts

  /** The function-valued members every plain object inherits from `Object.prototype`. */
  const INHERITED_FUNCTIONS: set<string> := {
    "constructor", "hasOwnProperty", "isPrototypeOf", "propertyIsEnumerable",
    "toLocaleString", "toString", "valueOf",
    "__defineGetter__", "__defineSetter__", "__lookupGetter__", "__lookupSetter__"}

  /** The accessor whose getter returns the prototype and whose setter ignores non-objects. */
  const PROTO := "__proto__"

  /** A key that a plain object does not inherit. */
  predicate Ordinary(k: string)
  {
    k !in INHERITED_FUNCTIONS && k != PROTO
  }

  /** The value of an own property of the accumulator: a count, or a string built by `+` from a non-number. */
  datatype Slot = Count(n: nat) | Text

  /** `acc[k] = (acc[k] || 0) + 1` on a plain object. */
  function ObjectTally(acc: map<string, Slot>, key: Option<string>): (r: map<string, Slot>)
    ensures key.None? ==> r == acc
    ensures forall j | j in acc && key != Some(j) :: j in r && r[j] == acc[j]
    ensures forall j | j in r :: j in acc || key == Some(j)
    ensures key.Some? && key.value in INHERITED_FUNCTIONS && key.value !in acc ==> key.value in r && r[key.value] == Text
    ensures forall j | j in acc && acc[j].Text? :: j in r && r[j].Text?
    ensures key == Some(PROTO) && PROTO !in acc ==> r == acc
  {
    match key
    case None => acc
    case Some(k) =>
      if k in acc then
        acc[k := match acc[k] case Count(n) => Count(n + 1) case Text => Text]
      else if k == PROTO then acc
      else if k in INHERITED_FUNCTIONS then acc[k := Text]
      else acc[k := Count(1)]
  }

  /** The plain-object accumulator after the whole reduce. */
  function ObjectCounts(keys: seq<Option<string>>): (r: map<string, Slot>)
    ensures forall j | j in r :: Some(j) in keys
    ensures PROTO !in r
    ensures forall j | j in INHERITED_FUNCTIONS && Some(j) in keys :: j in r && r[j].Text?
  {
    if keys == [] then map[]
    else
      var n := |keys| - 1;
      var prev := ObjectCounts(keys[..n]);
      assert forall x | x in keys[..n] :: x in keys;
      assert forall x | x in keys :: x in keys[..n] || x == keys[n] by {
        forall x | x in keys ensures x in keys[..n] || x == keys[n] {
          var i :| 0 <= i < |keys| && keys[i] == x;
          if i < n { assert keys[..n][i] == x; }
        }
      }
      ObjectTally(prev, keys[n])
  }

  function AsSlots(m: map<string, nat>): map<string, Slot>
  {
    map k | k in m :: Count(m[k])
  }

  /** One step with an ordinary key: the plain object and the intended accumulator stay in step. */
  lemma OrdinaryTally(acc: map<string, nat>, key: Option<string>)
    requires key.Some? ==> Ordinary(key.value)
    ensures ObjectTally(AsSlots(acc), key) == AsSlots(Tally(acc, key))
  {
    if key.Some? {
      var k := key.value;
      var o, f := ObjectTally(AsSlots(acc), key), AsSlots(Tally(acc, key));
      assert o == AsSlots(acc)[k := Count(CountOrZero(acc, k) + 1)];
      assert o.Keys == f.Keys;
    }
  }

  /** When no key is an inherited name, the plain object counts exactly as the intended accumulator does. */
  lemma {:induction false} OrdinaryKeysAgree(keys: seq<Option<string>>)
    requires forall i | 0 <= i < |keys| :: keys[i].Some? ==> Ordinary(keys[i].value)
    ensures ObjectCounts(keys) == AsSlots(Frequencies(keys))
  {
    if keys != [] {
      var n := |keys| - 1;
      var front := keys[..n];
      assert forall i | 0 <= i < |front| :: front[i] == keys[i];
      OrdinaryKeysAgree(front);
      OrdinaryTally(Frequencies(front), keys[n]);
      assert ObjectCounts(keys) == ObjectTally(ObjectCounts(front), keys[n]);
      assert Frequencies(keys) == Tally(Frequencies(front), keys[n]);
    }
  }

  /** One step keeps an ordinary key's entry in the plain object in agreement with the intended count. */
  lemma OrdinaryKeyStep(o: map<string, Slot>, f: map<string, nat>, key: Option<string>, k: string)
    requires Ordinary(k)
    requires k in o <==> k in f
    requires k in o ==> o[k] == Count(f[k])
    ensures k in ObjectTally(o, key) <==> k in Tally(f, key)
    ensures k in ObjectTally(o, key) ==> ObjectTally(o, key)[k] == Count(Tally(f, key)[k])
  {
  }

  /** An ordinary key is counted correctly by the plain object whatever the other keys are. */
  lemma {:induction false} OrdinaryKeyAgrees(keys: seq<Option<string>>, k: string)
    requires Ordinary(k)
    ensures k in ObjectCounts(keys) <==> k in Frequencies(keys)
    ensures k in ObjectCounts(keys) ==> ObjectCounts(keys)[k] == Count(Frequencies(keys)[k])
  {
    if keys != [] {
      var n := |keys| - 1;
      OrdinaryKeyAgrees(keys[..n], k);
      OrdinaryKeyStep(ObjectCounts(keys[..n]), Frequencies(keys[..n]), keys[n], k);
    }
  }

  /** A record signed "toString" gets a string where its count should be; the intended accumulator counts it. */
  lemma InheritedNameBreaksCount()
    ensures ObjectCounts(SignatureKeys([SampleEvent(Some("toString"), Some(1))])) == map["toString" := Text]
    ensures Frequencies(SignatureKeys([SampleEvent(Some("toString"), Some(1))])) == map["toString" := 1]
  {
    var keys := SignatureKeys([SampleEvent(Some("toString"), Some(1))]);
    assert keys[0] == SignatureKey(SampleEvent(Some("toString"), Some(1))) == Some("toString");
    assert keys == [Some("toString")];
    assert [Some("toString")][..0] == [];
  }

  /** A record signed "__proto__" disappears from the counts; the intended accumulator counts it. */
  lemma ProtoNameIsLost()
    ensures ObjectCounts(SignatureKeys([SampleEvent(Some(PROTO), Some(1))])) == map[]
    ensures Frequencies(SignatureKeys([SampleEvent(Some(PROTO), Some(1))])) == map[PROTO := 1]
  {
    var keys := SignatureKeys([SampleEvent(Some(PROTO), Some(1))]);
    assert keys[0] == SignatureKey(SampleEvent(Some(PROTO), Some(1))) == Some(PROTO);
    assert keys == [Some(PROTO)];
    assert [Some(PROTO)][..0] == [];
  }

  /** Severity keys are stored under their decimal text, which is never an inherited name. */
  lemma DecimalKeysOrdinary(n: int)
    ensures Ordinary(IntToDecimal(n))
  {
    var s := IntToDecimal(n);
    assert s[0] == '-' || IsDigit(s[0]) by {
      if n >= 0 {
        assert s == NatToDecimal(n);
      }
    }
  }

  /** The property key a record's severity is stored under: `String(severity)`. */
  function SeverityText(e: Event): (r: Option<string>)
    ensures r.Some? <==> SeverityOf(e).Some?
    ensures r.Some? ==> r.value == IntToDecimal(SeverityOf(e).value)
  {
    match SeverityOf(e)
    case None => None
    case Some(v) => Some(IntToDecimal(v))
  }

  /** The severity reduce on a plain object holds exactly the intended counts: no severity key is an inherited name. */
  lemma SeverityObjectCounts(events: seq<Event>)
    ensures ObjectCounts(Image(events, SeverityText)) == AsSlots(Frequencies(Image(events, SeverityText)))
  {
    var keys := Image(events, SeverityText);
    forall i | 0 <= i < |keys| ensures keys[i].Some? ==> Ordinary(keys[i].value) {
      assert keys[i] == SeverityText(events[i]);
      if keys[i].Some? {
        DecimalKeysOrdinary(SeverityOf(events[i]).value);
      }
    }
    OrdinaryKeysAgree(keys);
  }

  /** Keying the severities by their text instead of their value counts every record under the same severity. */
  /** A record's severity text is `String(v)` exactly when its severity is `v`. */
  lemma SeverityTextMatches(e: Event, v: int)
    ensures SeverityText(e) == Some(IntToDecimal(v)) <==> SeverityOf(e) == Some(v)
  {
    if SeverityText(e) == Some(IntToDecimal(v)) {
      IntToDecimalInjective(SeverityOf(e).value, v);
    }
  }

  lemma {:induction false} SeverityTextOccurrences(events: seq<Event>, v: int)
    ensures Occurrences(Image(events, SeverityText), IntToDecimal(v)) == Occurrences(Severities(events), v)
  {
    if events != [] {
      var n, t := |events| - 1, IntToDecimal(v);
      var e, front := events[n], events[..n];
      SeverityTextOccurrences(front, v);
      assert events == front + [e];
      ImageConcat(front, [e], SeverityText);
      ImageConcat(front, [e], SeverityOf);
      var texts, values := Image(front, SeverityText), Image(front, SeverityOf);
      assert Image(events, SeverityText) == texts + [SeverityText(e)];
      assert Image(events, SeverityOf) == values + [SeverityOf(e)];
      OccurrencesSnoc(texts, SeverityText(e), t);
      OccurrencesSnoc(values, SeverityOf(e), v);
      SeverityTextMatches(e, v);
    }
  }

  /** The text-keyed severity counts are the severity counts: `String(v)` is a key exactly when `v` is, with the same count. */
  lemma SeverityTextCounts(events: seq<Event>, v: int)
    ensures IntToDecimal(v) in Frequencies(Image(events, SeverityText)) <==> v in Frequencies(Severities(events))
    ensures v in Frequencies(Severities(events)) ==>
              Frequencies(Image(events, SeverityText))[IntToDecimal(v)] == Frequencies(Severities(events))[v]
  {
    SeverityTextOccurrences(events, v);
    FrequenciesCount(Image(events, SeverityText), IntToDecimal(v));
    FrequenciesCount(Severities(events), v);
  }
}

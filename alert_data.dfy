/**
 * The alert records the dashboard displays, and the tolerant field reads the
 * component performs on them. Every field of a record may be missing; `None`
 * stands for both `null` and `undefined`.
 */
module AlertData {
  import opened Wrappers

  /** The nested `alert` object of a record. */
  datatype AlertInfo = AlertInfo(
    signature: Option<string>,
    severity: Option<int>,
    category: Option<string>)

  /** One intrusion-detection event as it appears in the loaded JSON array. */
  datatype AlertRecord = AlertRecord(
    timestamp: Option<string>,
    srcIp: Option<string>,
    destIp: Option<string>,
    port: Option<int>,
    protocol: Option<string>,
    alert: Option<AlertInfo>)

  /** An element of the `data` array; `None` is a null element, which `event?.` tolerates. */
  type Event = Option<AlertRecord>

  /** `event?.alert?.signature` */
  function SignatureOf(e: Event): (r: Option<string>)
    ensures r.Some? ==> e.Some? && e.value.alert.Some?
    ensures e.Some? && e.value.alert.Some? ==> r == e.value.alert.value.signature
  {
    match e
    case Some(AlertRecord(_, _, _, _, _, Some(info))) => info.signature
    case _ => None
  }

  /** `event?.alert?.severity` */
  function SeverityOf(e: Event): (r: Option<int>)
    ensures r.Some? ==> e.Some? && e.value.alert.Some?
    ensures e.Some? && e.value.alert.Some? ==> r == e.value.alert.value.severity
  {
    match e
    case Some(AlertRecord(_, _, _, _, _, Some(info))) => info.severity
    case _ => None
  }

  /** JavaScript truthiness of a value that is a string, `null` or `undefined`: only a non-empty string is truthy. */
  predicate IsTruthy(s: Option<string>)
  {
    s.Some? && s.value != ""
  }

  /** `null` and `undefined` are falsy; a string is truthy exactly when it is not empty. */
  lemma TruthyStrings(s: string)
    ensures !IsTruthy(None)
    ensures IsTruthy(Some(s)) <==> s != ""
  {
  }
}

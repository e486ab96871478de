# Alert dashboard aggregation, modelled in Dafny

The dashboard loads an array of intrusion-detection alert records and shows
three views over it. A bar chart counts alerts per signature. A pie chart
counts alerts per severity. A table lists the records, with filters on
source IP, destination IP and severity. This project models the logic of the
alert component behind those views:

- the two `reduce` passes that build the signature and severity count maps.
  The signature pass skips a signature that is absent, null or `""`
  (a truthiness test). The severity pass skips only a null or undefined
  severity (`!= null`), so severity `0` is counted;
- the chart series taken from those maps. A missing map counts as `{}`.
  Pie labels are `"Severity "` followed by the key's decimal text;
- `data || []` for the table rows, and `value || undefined` for the three
  filter controls, which clears a filter when its control is empty. `0` is
  falsy, so `value || undefined` also clears the severity filter for the
  number `0`; the severity menu offers only "All" and 1 to 5, so the menu
  itself never produces it.

Modules:

- `Wrappers`: `Option`; `None` stands for both `null` and `undefined`.
- `Frequency`: the accumulator step `Tally`, the fold `Frequencies`, and
  reference definitions that do not fold: `Occurrences` and `Present` are
  multiset counts, `MapSum` is the sum of a map. The lemmas connect the fold
  to these definitions.
- `Decimal`: JavaScript's `String(n)` for a safe integer (|n| <= 2^53), and its inverse
  `ParseInt`.
- `AlertData`: the record types and the reads `event?.alert?.signature` and
  `event?.alert?.severity`. An element of the array may itself be null.
- `AlertCounts`: the two reduces as loop methods (`AlertTypeCounts`,
  `SeverityCounts`), proved equal to the fold. Also what the counts mean in
  terms of the records.
- `AlertCharts`: bar and pie series. ECMAScript fixes the order of
  `Object.keys` (array-index keys ascending, then the other keys in
  insertion order); the model does not depend on it and takes the order as a
  parameter: any list naming every key once.
- `AlertTable`: table rows, filter-value normalisation, and the per-column
  filter state that the three `onChange` handlers set.
- `PrototypeKeys`: the signature accumulator as written, on a plain `{}`
  object (see Findings).

## Model

| member | source | states |
|---|---|---|
| `Frequency.CountOrZeroOccurrences` | src/components/Alert.js:15 | `acc[k] \|\| 0` on the map folded so far is the number of entries carrying `k`, and 0 for a key not seen yet |
| `Frequency.Tally` | src/components/Alert.js:14-16 | a missing key leaves the accumulator unchanged; a present key `k` ends up in the map with its old count (0 if new) plus one; every other key keeps its count |
| `Frequency.Frequencies` | src/components/Alert.js:12-18 | every key of the folded map has count at least 1 |
| `Frequency.FrequenciesSnoc` | src/components/Alert.js:12-18 | processing one more record is exactly one more accumulator step on the map built so far |
| `Frequency.FrequenciesCount` | src/components/Alert.js:12-27 | for every key `k`: `k` is in the map iff some entry carries `k`, and then its count is the number of entries carrying `k` |
| `Frequency.FrequenciesKeys` | src/components/Alert.js:12-27 | the map's keys are exactly the keys the entries carry, none missing and none invented |
| `Frequency.FrequenciesPermutation` | src/components/Alert.js:12-27 | keys that are a permutation of each other give the same map |
| `Frequency.MapSumTally` | src/components/Alert.js:14-16 | one step raises the sum of all counts by exactly 1 for a present key and by 0 for a missing one |
| `Frequency.FrequenciesTotal` | src/components/Alert.js:12-27 | conservation: the counts add up to the number of entries that carry a key |
| `Frequency.ImagePermutation` | src/components/Alert.js:13 | records that are a permutation of each other yield keys that are a permutation of each other |
| `Decimal.NatToDecimal` | src/components/Alert.js:58 | the decimal text of a natural number is non-empty, all digits, with no leading zero |
| `Decimal.IntToDecimal` | src/components/Alert.js:58 | the text of a (safe) integer is non-empty, an optional minus sign and digits, and starts with `-` exactly when the integer is negative |
| `Decimal.ParseNatToDecimal` | src/components/Alert.js:58 | reading back the digits of a natural number gives that number |
| `Decimal.ParseIntToDecimal` | src/components/Alert.js:58 | round trip: reading back the decimal text of any integer gives that integer |
| `Decimal.IntToDecimalInjective` | src/components/Alert.js:58 | distinct integers have distinct decimal texts |
| `AlertData.SignatureOf` | src/components/Alert.js:13 | `event?.alert?.signature` gives a value only for a non-null record with an `alert` object, and then it is that object's signature |
| `AlertData.SeverityOf` | src/components/Alert.js:22 | `event?.alert?.severity` gives a value only for a non-null record with an `alert` object, and then it is that object's severity |
| `AlertData.TruthyStrings` | src/components/Alert.js:14 | `IsTruthy` encodes JavaScript's ToBoolean for the test `if (signature)`: null and undefined are falsy, and a string is truthy exactly when it is not empty |
| `AlertCounts.SignatureKey` | src/components/Alert.js:13-14 | a record contributes a key exactly when its signature is truthy, and the key is that non-empty signature |
| `AlertCounts.SignatureFrequencies` | src/components/Alert.js:12-18 | `data?.reduce`: undefined exactly for null `data`; otherwise the keys are exactly the truthy signatures carried by the records, so `""` is never a key |
| `AlertCounts.SeverityFrequencies` | src/components/Alert.js:21-27 | `data?.reduce`: undefined exactly for null `data`; otherwise the keys are exactly the non-null severities carried by the records |
| `AlertCounts.AlertTypeCounts` | src/components/Alert.js:12-18 | the loop over the records returns `None` for null `data`; otherwise it returns the fold of the truthy-signature keys |
| `AlertCounts.SeverityCounts` | src/components/Alert.js:21-27 | the loop over the records returns `None` for null `data`; otherwise it returns the fold of the non-null severities |
| `AlertCounts.SignatureKeysMultiset` | src/components/Alert.js:13-16 | the truthiness test keeps every non-empty signature as often as it occurs and drops every `""` |
| `AlertCounts.SignatureCountsMeaning` | src/components/Alert.js:12-18 | `s` is a signature key iff `s` is non-empty and some record has signature `s`; its count is the number of records with signature `s` |
| `AlertCounts.SeverityCountsMeaning` | src/components/Alert.js:21-27 | `v` (zero included) is a severity key iff some record has severity `v`; its count is the number of records with severity `v` |
| `AlertCounts.ZeroSeverityCounted` | src/components/Alert.js:22-25 | a record with severity `0` puts key `0` in the severity map with count at least 1 |
| `AlertCounts.SignatureKeysPresent` | src/components/Alert.js:13-14 | the number of signature keys present equals the number of records with a truthy signature |
| `AlertCounts.SeveritiesPresent` | src/components/Alert.js:22-23 | the number of severities present equals the number of records whose severity is not null |
| `AlertCounts.SignatureTotal` | src/components/Alert.js:12-18 | the signature counts add up to the number of records with a truthy signature |
| `AlertCounts.SeverityTotal` | src/components/Alert.js:21-27 | the severity counts add up to the number of records with a non-null severity |
| `AlertCounts.CountsIgnoreOrder` | src/components/Alert.js:12-27 | reordering the records changes neither map |
| `AlertCounts.SampleSignatureKeys` | src/components/Alert.js:13-14 | the sample records give the signature keys A, A, B and nothing |
| `AlertCounts.SampleSignatureFold` | src/components/Alert.js:14-17 | folding A, A, B and nothing gives `{A: 2, B: 1}` |
| `AlertCounts.SampleSignatureCounts` | src/components/Alert.js:12-18 | the sample (A/1, A/2, B/1, empty alert) gives signature counts `{A: 2, B: 1}` |
| `AlertCounts.SampleSeverities` | src/components/Alert.js:22 | the sample records give the severities 1, 2, 1 and nothing |
| `AlertCounts.SampleSeverityFold` | src/components/Alert.js:23-26 | folding 1, 2, 1 and nothing gives `{1: 2, 2: 1}` |
| `AlertCounts.SampleSeverityCounts` | src/components/Alert.js:21-27 | the same sample gives severity counts `{1: 2, 2: 1}` |
| `AlertCharts.OrEmpty` | src/components/Alert.js:31 | `counts \|\| {}`: a missing map reads as the empty map; any present map, empty or not, is an object and so truthy, and is used as it is |
| `AlertCharts.ValuesIn` | src/components/Alert.js:35 | `Object.values` listed in the same order as the keys: one value per listed key, and value `i` is the count of key `i` |
| `AlertCharts.PieLabel` | src/components/Alert.js:58 | `` `Severity ${severity}` ``: the label starts with `"Severity "` and the rest is the decimal text of the severity |
| `AlertCharts.EnumerationLength` | src/components/Alert.js:31 | a key listing that names every key once is as long as the map |
| `AlertCharts.EnumerationSum` | src/components/Alert.js:35 | the values listed in key order add up to the sum of the map |
| `AlertCharts.BarSeries` | src/components/Alert.js:31-35 | labels and data have equal length (the number of keys); each label is a key with its own count beside it; labels are distinct and cover every key; with no counts both are empty |
| `AlertCharts.BarTotal` | src/components/Alert.js:31-35 | the bars add up to the number of records with a truthy signature, and to 0 for null data |
| `AlertCharts.PieLabelDecodes` | src/components/Alert.js:58 | every pie label is `"Severity "` followed by text that reads back as its severity |
| `AlertCharts.PieLabelInjective` | src/components/Alert.js:58 | distinct severities have distinct pie labels |
| `AlertCharts.PieLabelsDecode` | src/components/Alert.js:58 | every label in a pie label list reads back as the severity at its position |
| `AlertCharts.PieLabelsDistinct` | src/components/Alert.js:58 | a list of distinct severities gives a list of distinct labels |
| `AlertCharts.PieLabels` | src/components/Alert.js:58 | one label per listed severity, in the same order |
| `AlertCharts.PieLabelsCover` | src/components/Alert.js:58 | every severity key has its label in the list |
| `AlertCharts.PieSeries` | src/components/Alert.js:57-61 | labels and data have equal length; each label reads back as a severity key and the count beside it is that key's count; labels are distinct; every key has its label; with no counts both are empty |
| `AlertCharts.PieTotal` | src/components/Alert.js:58-61 | the slices add up to the number of records with a non-null severity, and to 0 for null data |
| `AlertTable.TableRows` | src/components/Alert.js:131 | `data \|\| []`: no rows for null `data`, otherwise exactly the records, none dropped and none added (see also `AlertTable.NullData`, `AlertTable.CountsWithinRows`) |
| `AlertTable.TextFilterValue` | src/components/Alert.js:185 | the filter value is unset exactly when the field is `""`; otherwise it is the field's text unchanged |
| `AlertTable.SeverityFilterValue` | src/components/Alert.js:201 | the filter is unset for "All" (`""`) and for the falsy number `0`; any other level is passed through unchanged |
| `AlertTable.OnSourceIpChange` | src/components/Alert.js:185 | sets only the source-IP filter: cleared for `""`, otherwise the typed text; the other two filters are unchanged |
| `AlertTable.OnDestinationIpChange` | src/components/Alert.js:193 | sets only the destination-IP filter: cleared for `""`, otherwise the typed text; the other two filters are unchanged |
| `AlertTable.OnSeverityChange` | src/components/Alert.js:201 | sets only the severity filter: cleared for "All" or `0`, otherwise the chosen level; the other two filters are unchanged |
| `AlertTable.ClearingAllControls` | src/components/Alert.js:185-201 | emptying the two text fields and choosing "All" leaves every column unfiltered, from any state |
| `AlertTable.TextFilterRoundTrip` | src/components/Alert.js:185 | the field's text can be recovered from the filter value (unset stands for `""`) |
| `AlertTable.SeverityMenuChoices` | src/components/Alert.js:201-208 | the first menu item ("All") clears the filter; item `i` sets it to severity `i` |
| `AlertTable.NullData` | src/components/Alert.js:12-61 | null `data` leaves both maps undefined; both charts then get empty labels and data, and the table gets no rows |
| `AlertTable.CountsWithinRows` | src/components/Alert.js:131 | the rows are the records themselves, and neither chart's counts add up to more than the number of rows |
| `PrototypeKeys.ObjectTally` | src/components/Alert.js:15 | `acc[k] = (acc[k] \|\| 0) + 1` on a plain object: other keys keep their values and no key appears from nowhere; a new inherited function name gets a string, and a string stays a string; a new `__proto__` leaves the object unchanged |
| `PrototypeKeys.ObjectCounts` | src/components/Alert.js:12-18 | the plain-object reduce: every own key is a signature of some record; `__proto__` is never an own key; every inherited function name that occurs holds a string, not a count (an ordinary key is counted correctly whatever the other keys are: `PrototypeKeys.OrdinaryKeyAgrees`) |
| `PrototypeKeys.OrdinaryTally` | src/components/Alert.js:15 | for a key that no plain object inherits, one step on the plain object and one step on the intended accumulator stay in step |
| `PrototypeKeys.OrdinaryKeysAgree` | src/components/Alert.js:12-18 | when no signature is an inherited name, the plain-object accumulator holds exactly the intended counts |
| `PrototypeKeys.OrdinaryKeyAgrees` | src/components/Alert.js:12-18 | for any key no plain object inherits, the plain object has it exactly when the intended accumulator does, with the same count, whatever other keys (`toString` included) occur |
| `PrototypeKeys.InheritedNameBreaksCount` | src/components/Alert.js:15 | one record signed `toString` leaves a string in the plain object where the intended accumulator has count 1 |
| `PrototypeKeys.ProtoNameIsLost` | src/components/Alert.js:15 | one record signed `__proto__` leaves the plain object empty, while the intended accumulator counts it once |
| `PrototypeKeys.DecimalKeysOrdinary` | src/components/Alert.js:24 | the decimal text of a severity starts with a digit or `-`, so it is never a name a plain object inherits |
| `PrototypeKeys.SeverityText` | src/components/Alert.js:22-24 | the property key a record's severity is stored under: present exactly when the severity is, and then `String(severity)` |
| `PrototypeKeys.SeverityObjectCounts` | src/components/Alert.js:21-27 | the severity reduce on a plain `{}` holds exactly the intended counts of the severity texts: the inherited-name defect cannot reach the severity map |
| `PrototypeKeys.SeverityTextOccurrences` | src/components/Alert.js:22-24 | as many records have severity text `String(v)` as have severity `v` |
| `PrototypeKeys.SeverityTextCounts` | src/components/Alert.js:21-27 | keyed by text as JavaScript stores them, the severity counts are the severity counts keyed by value: `String(v)` is a key exactly when `v` is, with the same count |

## Left out

- Filter matching and sorting: react-table's `useFilters` and `useSortBy` do these, and their code is not part of this model. The model stops at the filter values handed to `setFilter`. `Filters` stands for the per-column values the library stores.
- Chart.js registration, colours and chart options: constants handed to a charting library.
- JSX, MUI layout, table headers and row rendering: user-interface code.
- src/App.js: it loads a JSON fixture and mounts the component. `data` is a parameter here.
- The order of `Object.keys`: ECMAScript fixes it. Array-index keys such as `"1"` come first in ascending numeric order, then the other keys in insertion order, so for integer-like severity keys the label order is not first-insertion order. The chart functions accept any order that names every key once and do not promise a particular one.
- `AlertData.AlertInfo`: a signature is a string and a severity an integer, assumed safe (|n| <= 2^53). Beyond that `JSON.parse` has already rounded the severity to a double, so distinct integers in the JSON text can share one key (9007199254740993 and 9007199254740992 both become 2^53 and are counted together), while the model keeps them apart. Other JavaScript values are not modelled either: a numeric signature, a fractional, `NaN` or string severity, or a severity `"1"` that shares a property key with `1`.
- `Decimal.IntToDecimal`: above 2^53 JavaScript prints the shortest digits that identify the double (`String(2**60)` is `"1152921504606847000"`, not `"1152921504606846976"`), and from 10^21 on it uses exponent notation; the model always writes the exact digits of the integer, which agrees with JavaScript for safe integers only.
- A `data` value that is neither an array nor null, on which `reduce` would throw, is not modelled.
- The event object of each `onChange` handler appears only as the value it carries, `e.target.value`.

## Findings

| source | as written | input that shows it | evidently intended | confidence | as-written member | corrected member |
|---|---|---|---|---|---|---|
| src/components/Alert.js:12-18 | the accumulator is a plain `{}`, so `acc[signature]` also finds members inherited from `Object.prototype` | a record whose signature is `toString` (or `constructor`, `valueOf`, ...) gets a string in place of its count; a record whose signature is `__proto__` is not counted at all | one count per truthy signature, as from an accumulator with no inherited members (`Object.create(null)` or a `Map`) | not executed; follows from JavaScript property lookup on plain objects | `PrototypeKeys.InheritedNameBreaksCount` | `AlertCounts.AlertTypeCounts` |

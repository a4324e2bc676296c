# namenode exporter: the bean scan

A model of the core of a small Prometheus exporter for the Hadoop NameNode.
On every scrape the exporter fetches the NameNode's JMX servlet output, decodes
it as a generic JSON tree, walks the `beans` list looking for the bean named
`Hadoop:service=NameNode,name=FSNamesystem`, copies its `MissingBlocks`,
`CapacityTotal` and `BlocksTotal` numbers into three gauges, and emits the
three gauges in a fixed order.

- `Json.dfy` (module `Json`): the decoded JSON tree, the map index of a decoded
  object (a missing key reads as `null`, as the nil interface does) and the
  checked type assertion to a number.
- `BeanScan.dfy` (module `BeanScan`): the scan as functions of the decoded
  document and the gauge values before it (`Step` for one list entry,
  `ScanBeans` for the loop, `ScanDoc` for the whole document), and the lemmas
  about it: last match wins, no match keeps the gauges, the exact failure
  points, and the partial update a failure leaves behind.
- `Exporter.dfy` (module `NameNodeExporter`): the `Exporter` object with its URL
  and three gauge fields, its constructor, `Describe`, and `Scan`/`Collect`,
  which run the loop over the bean list on the object's own fields and are
  proved to leave exactly the state `ScanDoc` predicts.

A failed type assertion in the source panics; here it makes `Scan` return
`ok == false`, keeps every gauge assignment made before it, and makes `Collect`
emit nothing. A document that did not decode leaves the decoded value nil, which
is the value `JNull` here, and fails the scan at its first assertion.

The scan is not all-or-nothing. The gauges are set one at a time, so a
failure after a match, or between two attributes of the target bean, keeps the
values already set (`FirstFailureStops`, `ScenarioBadCapacity`).

## Model

| member | source | states |
|---|---|---|
| BeanScan.ScanDoc | namenode_exporter.go:76-79 | a root that is not an object, or a `beans` entry that is missing or not an array, fails the scan before any gauge changes; otherwise the result is the loop over the bean list |
| BeanScan.ReadFields | namenode_exporter.go:128-130 | the three numbers are available exactly when `MissingBlocks`, `CapacityTotal` and `BlocksTotal` are all present as numbers, and then they are those attributes' values |
| BeanScan.Step | namenode_exporter.go:80-131 | one entry succeeds iff it is an object and, when its name is the target, carries the three numbers; a non-target entry leaves the gauges alone; in the target each gauge is set iff every attribute up to and including its own is a number, so a failure keeps earlier gauges of the same bean and leaves later ones untouched |
| BeanScan.FailureIsFinal | namenode_exporter.go:79-80 | once an entry fails, the entries after it change nothing |
| BeanScan.IsTarget | namenode_exporter.go:126 | an entry matches exactly when it is an object whose `name` is present, is a string and equals `Hadoop:service=NameNode,name=FSNamesystem`; a missing or non-string `name` is no match and no error |
| BeanScan.ScanBeans | namenode_exporter.go:79-131 | the loop over the bean list runs to its end iff every entry is well formed (both directions); `NoMatchKeepsGauges`, `LastMatchWins`, `FailureIsFinal` and `FirstFailureStops` state what it leaves in the gauges |
| BeanScan.NoMatchKeepsGauges | namenode_exporter.go:79-131 | when no entry has `name` equal to the target, the gauges end with their pre-call values, whether or not the loop fails |
| BeanScan.LastMatchWins | namenode_exporter.go:79-131 | in a loop that runs to its end, the gauges hold the three numbers of the last target entry in list order |
| BeanScan.SingleMatch | namenode_exporter.go:126-130 | with exactly one target entry and every entry well formed, the loop succeeds and MissingBlocks, CapacityTotal, BlocksTotal get the attributes of the same names |
| BeanScan.FirstFailureStops | namenode_exporter.go:79-131 | the loop stops at its first ill-formed entry; the gauges are the state after the earlier entries, updated by the part of the failing entry that ran; a non-object entry changes nothing, so earlier matches keep their effect |
| BeanScan.ScenarioSingleBean | namenode_exporter.go:76-131 | the document with only the target bean carrying 3, 1000 and 50 sets the gauges to 3, 1000 and 50 and succeeds |
| BeanScan.ScenarioBadCapacity | namenode_exporter.go:128-130 | a target bean whose CapacityTotal is a string fails with the new MissingBlocks set and the old CapacityTotal and BlocksTotal kept |
| NameNodeExporter.GaugeNamesDistinct | namenode_exporter.go:34-48 | the three gauges are named `namenode_MissingBlocks`, `namenode_CapacityTotal` and `namenode_BlocksTotal` (namespace, underscore, gauge name), and no two of them share a name |
| NameNodeExporter.Exporter.constructor | namenode_exporter.go:31-50 | a new exporter holds the given URL and its three gauges read zero |
| NameNodeExporter.Exporter.Describe | namenode_exporter.go:53-57 | the descriptors `namenode_MissingBlocks`, `namenode_CapacityTotal`, `namenode_BlocksTotal`, in that order, each with its gauge name as help text |
| NameNodeExporter.Exporter.Emit | namenode_exporter.go:133-135 | the current gauge values in the same order as `Describe`, each paired with its descriptor |
| NameNodeExporter.Exporter.ApplyBean | namenode_exporter.go:80-131 | one pass of the loop body on the object's own fields leaves exactly the gauges and flag `Step` predicts, and never changes `url` |
| NameNodeExporter.Exporter.Scan | namenode_exporter.go:76-131 | the in-place loop leaves the gauges and the success flag exactly as `ScanDoc` predicts from the gauges before the call, and never changes `url` |
| NameNodeExporter.Exporter.Collect | namenode_exporter.go:76-135 | a collect cycle on a decoded document: the state `ScanDoc` predicts, then the three current gauges in descriptor order on success and nothing on failure |

## Left out

- The HTTP GET, reading and closing the response body (namenode_exporter.go:61-69): network I/O. A failed GET leaves `resp` nil and line 65 dereferences the nil `resp` when it evaluates `resp.Body` for the `defer`, a crash before the scan that is not modelled.
- `json.Unmarshal` (namenode_exporter.go:70-74): library decoding; the model takes the decoded tree as input, with `JNull` for a document that did not decode.
- `fmt.Println` of the matching bean and all logging: output only.
- Prometheus internals (gauge objects, descriptors' registry, channels, `prometheus.Handler`): a gauge is a plain `real` field and emission is a returned sequence.
- `main`, flag parsing and `ListenAndServe` (namenode_exporter.go:18-22, 138-150): process startup and serving.
- Floating point: gauge values and JSON numbers are `real`; they are only copied, never computed on or compared.
- Concurrent collect calls: the exporter holds no lock and `Collect` writes the three gauges unsynchronised, so overlapping scrapes can run `Collect` at the same time and interleave their writes, and one scrape can emit values from two documents; the model runs each call alone on its object.
- The panic itself: the source does not recover a failed type assertion inside `Collect`; it propagates to whatever called `Collect`. `ok == false` models only where the scan stops and the gauges as they stand at that point; what the caller does with the panic is not modelled.
- A skip-the-bad-field policy (log a missing or non-number attribute and update the other gauges) is not what `Collect` does and is not modelled.

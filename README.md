# Grouping engine of the AWS EMF exporter

This project models, in Dafny, how the CloudWatch Embedded Metric Format exporter groups the data
points of one metric into buckets (`exporter/awsemfexporter/grouped_metric.go`).

The caller owns a map from grouping key to bucket. `addToGroupedMetric` walks the metric's data
points in order and for each one:

- skips the point when extraction did not retain it;
- enriches Pod and Container labels with a JSON-encoded Kubernetes object when EKS Fargate
  Container Insights is enabled;
- re-resolves log-group and log-stream templates that still contain `"undefined"` from the point's
  labels;
- resolves the unit;
- carries the last positive timestamp forward;
- computes the key from the metadata and the labels;
- creates the bucket, adds the metric name, or keeps the first value and logs a duplicate warning.

Modules:

- `Strings`: substring search, as used for the `"undefined"` marker.
- `Units`: `translateUnit`. A configured descriptor comes first, then a five-entry abbreviation
  table (`UnitAbbreviations`, a reference definition independent of the switch).
- `Kubernetes`: `mapGetHelper`, the `kubernetesObj` shapes and `addKubernetesWrapper`.
  - `WrapperObj` is the object after the empty sub-objects have been dropped.
  - `ToJson` is the set of fields the encoder writes under `omitempty`, with their values. The
    label stored under "kubernetes" is the rendering of exactly these fields.
  - `FromJson` decodes those fields back into the object.
  - The method `AddKubernetesWrapper` follows the source step by step and is proved equal to the
    function `WithKubernetes`.
- `GroupedMetric`: the data model, the grouping key and the specification of the loop.
  - `Step` describes one data point and `Fold` a sequence of them.
  - The class `GroupedMetrics` holds the bucket map and a ghost log of warnings.
  - Its method `AddToGroupedMetric` has the source's loop, proved equal to `Fold`.
  - The lemmas state what a call does: skipping, first writer wins, the running timestamp, and
    "only this metric's name is added".

Collaborators that are not part of this file become parameters of a `Context`:

- `aws.NewKey` is `newKey`, an arbitrary function of the grouping metadata and the label map. It
  is deterministic, and a label map is a value with no insertion order, so equal inputs give equal
  keys. `KeyIgnoresInsertionOrder` spells this out for label maps built in different orders.
- `replacePatterns` is `replacePatterns`, a function of the template and the labels. Its error is
  discarded, as in the source.
- `json.Marshal` is `marshal`, a function that renders the fields `ToJson` selects as text. Only
  the text layout is left open; which fields appear and their values are fixed by `ToJson`.
- The logger is the ghost sequence `warnings`.
- `getDataPoints` is replaced by the input sequence of `ExtractedPoint`s, each a value, a
  timestamp, labels and the `retained` flag.

Behaviour of the code that the model keeps:

- Every field of `kubernetesObj` and its sub-objects carries `omitempty`
  (`grouped_metric.go:107-131`). So an empty top-level string, such as an empty `host`, is left
  out of the JSON as well as an empty sub-object.
- A failed template replacement writes back whatever `replacePatterns` returned: the error is
  dropped at lines 66 and 69, and the string is used regardless.
- `addToGroupedMetric` always returns nil. Extraction errors belong to `getDataPoints`, which is
  not part of this model.
- A marshalling error would still store a string: the byte slice is converted and written at
  lines 168-169.

## Model

| member | source | states |
|---|---|---|
| Strings.Contains | exporter/awsemfexporter/grouped_metric.go:65-68 | the marker test is true exactly when the marker occurs at some index of the template |
| Units.Abbreviate | exporter/awsemfexporter/grouped_metric.go:192-204 | the five abbreviations map to their spelled-out names as in the reference table; every other unit, "" included, is returned unchanged |
| Units.TranslateUnit | exporter/awsemfexporter/grouped_metric.go:185-205 | the descriptor's unit when a descriptor exists and the raw unit is empty or overwrite is set; otherwise the table's name for a table unit; otherwise the raw unit |
| Units.OverwritingDescriptorWins | exporter/awsemfexporter/grouped_metric.go:187-191 | a descriptor with overwrite set wins over any raw unit |
| Units.NonOverwritingDescriptorFillsGap | exporter/awsemfexporter/grouped_metric.go:187-204 | a descriptor without overwrite applies only to an empty raw unit; a non-empty one goes through the table |
| Units.AbbreviateIdempotent | exporter/awsemfexporter/grouped_metric.go:192-204 | the table is not applied twice: a spelled-out name maps to itself |
| Units.TranslateUnitExamples | exporter/awsemfexporter/grouped_metric.go:185-205 | "ms" without a descriptor gives "Milliseconds"; an overwriting "Count" descriptor beats a raw "1"; an empty unit without a descriptor stays "" |
| Kubernetes.MapGet | exporter/awsemfexporter/grouped_metric.go:172-179 | a present label reads as its value, a missing one as "" |
| Kubernetes.WrapperObj | exporter/awsemfexporter/grouped_metric.go:133-166 | container_name, host, namespace_name, pod_id, pod_name and service_name read the labels container, NodeName, Namespace, PodId, PodName and Service; docker is absent iff container_id reads as ""; labels is absent iff app and pod-template-hash both read as ""; pod_owners is absent iff owner_kind and owner_name both read as ""; a present sub-object holds the labels' values |
| Kubernetes.SubObject | exporter/awsemfexporter/grouped_metric.go:119-131 | a non-nil sub-object writes exactly its non-empty fields, each with its own value |
| Kubernetes.JsonNamesDistinct | exporter/awsemfexporter/grouped_metric.go:107-131 | the nine top-level JSON tags are pairwise distinct, and so are the five inner tags |
| Kubernetes.ToJson | exporter/awsemfexporter/grouped_metric.go:107-117 | the encoder writes exactly the fields that omitempty keeps (non-empty strings, non-nil sub-objects), each with its value |
| Kubernetes.JsonRoundTrip | exporter/awsemfexporter/grouped_metric.go:107-131 | decoding the written fields gives back the object: omission loses nothing |
| Kubernetes.WrapperFieldPresence | exporter/awsemfexporter/grouped_metric.go:107-166 | each of the nine JSON fields is written iff its source labels are not all empty |
| Kubernetes.WithKubernetes | exporter/awsemfexporter/grouped_metric.go:168-169 | the labels gain or overwrite "kubernetes" with the rendering of the fields ToJson writes for WrapperObj, and every other label is unchanged |
| Kubernetes.AddKubernetesWrapper | exporter/awsemfexporter/grouped_metric.go:133-170 | building all sub-objects and dropping the empty ones step by step gives WrapperObj, whose written fields are rendered into "kubernetes"; only that label changes |
| Kubernetes.PodExample | exporter/awsemfexporter/grouped_metric.go:133-169 | a Pod with an empty container_id and only an app label writes container_name and a labels object holding only app |
| GroupedMetric.KeyIgnoresInsertionOrder | exporter/awsemfexporter/grouped_metric.go:181-183 | label sets inserted in different orders (same pairs, no name repeated) give the same map and hence the same key |
| GroupedMetric.ResolvePatterns | exporter/awsemfexporter/grouped_metric.go:62-71 | nothing changes when resolution succeeded; otherwise each template containing "undefined" is replaced by replacePatterns on the configured name and the point's labels, the other template and all other metadata are unchanged |
| GroupedMetric.FoldKeepsResolvedTemplates | exporter/awsemfexporter/grouped_metric.go:64-70 | a log-group or log-stream template without the marker at the start of a run of data points keeps its value to the end of the run; with FoldAppend this applies from any point of a call |
| GroupedMetric.FoldAppend | exporter/awsemfexporter/grouped_metric.go:48-102 | processing two runs of data points one after the other equals processing them together, so every fold lemma applies from the middle of a call |
| GroupedMetric.InsertMetric | exporter/awsemfexporter/grouped_metric.go:84-101 | a new key gets a bucket with the labels, only this name and the metadata; a present name leaves every bucket unchanged and reports a duplicate; a new name is added and all other entries and buckets are untouched |
| GroupedMetric.Step | exporter/awsemfexporter/grouped_metric.go:48-101 | a point that was not retained changes nothing; a retained one sets the timestamp only when its own is positive and leaves a bucket at its key; no bucket disappears |
| GroupedMetric.StepCreatesBucket | exporter/awsemfexporter/grouped_metric.go:95-100 | a first point for a key creates exactly one bucket with its (enriched) labels, only this metric, and the metadata as updated by this point; nothing is logged |
| GroupedMetric.StepKeepsFirstValue | exporter/awsemfexporter/grouped_metric.go:84-91 | a repeated name leaves the buckets unchanged and logs exactly one warning naming the metric with its labels |
| GroupedMetric.StepAddsMetric | exporter/awsemfexporter/grouped_metric.go:92-94 | a new name joins an existing bucket; its labels, metadata and other entries and all other buckets are untouched |
| GroupedMetric.EnrichmentPrecedesKey | exporter/awsemfexporter/grouped_metric.go:56-83 | the key is computed from the labels after enrichment; enrichment happens iff Type is Pod or Container and the flag is set, and then only adds "kubernetes", holding the rendering of the fields ToJson writes |
| GroupedMetric.EnrichLabels | exporter/awsemfexporter/grouped_metric.go:56-60 | the enrichment step adds the rendered Kubernetes fields under "kubernetes" exactly for Pod or Container points with the flag set, and leaves other labels unchanged |
| GroupedMetric.Retained | exporter/awsemfexporter/grouped_metric.go:48-52 | the retained points, each once and in their original order: an increasing choice of indices that picks every retained point and nothing else |
| GroupedMetric.FoldSkipsDropped | exporter/awsemfexporter/grouped_metric.go:48-52 | processing all points equals processing only the retained ones |
| GroupedMetric.LastPositiveTimestamp | exporter/awsemfexporter/grouped_metric.go:78-80 | the last retained positive timestamp, or the initial one when there is none; never a non-positive value other than the initial one |
| GroupedMetric.FoldTimestamp | exporter/awsemfexporter/grouped_metric.go:78-80 | a call ends with the last positive timestamp of its retained points as running timestamp; zero never replaces a value |
| GroupedMetric.StepExtends | exporter/awsemfexporter/grouped_metric.go:84-101 | one point keeps every existing bucket's labels, metadata and recorded values |
| GroupedMetric.FoldKeepsFirstWriter | exporter/awsemfexporter/grouped_metric.go:84-101 | a whole call keeps every existing bucket's labels, metadata and recorded values: the first writer wins |
| GroupedMetric.StepAddsOnlyThisMetric | exporter/awsemfexporter/grouped_metric.go:84-101 | one point adds only this metric's name and logs at most one warning, which names it |
| GroupedMetric.FoldAddsOnlyThisMetric | exporter/awsemfexporter/grouped_metric.go:48-101 | after a call every new bucket holds this metric, every new entry is this metric, and the log only gains warnings naming it |
| GroupedMetric.SameLabelsShareOneBucket | exporter/awsemfexporter/grouped_metric.go:41-105 | two "cpu.load" points with equal labels and time end in one bucket holding the first value with unit "", and one warning |
| GroupedMetric.GroupedMetrics.AddToGroupedMetric | exporter/awsemfexporter/grouped_metric.go:41-105 | the loop leaves the buckets and the log as Fold describes, and keeps every existing bucket's contents |
| GroupedMetric.GroupedMetrics.AddDataPoint | exporter/awsemfexporter/grouped_metric.go:54-101 | the body for a retained point updates buckets, metadata and log as Step does |
| GroupedMetric.GroupedMetrics.File | exporter/awsemfexporter/grouped_metric.go:84-101 | creates the bucket, adds the name, or logs the duplicate, as InsertMetric does |

## Left out

- `getDataPoints` and the typed data-point extraction (line 43). They belong to a library that is
  not part of this model, so the points are an input sequence with the `retained` flag. The early
  return for no points is kept.
- The internals of `aws.NewKey` (line 182). It is a hashing routine outside this file, so only
  "equal inputs give equal keys" is assumed, through a function parameter.
- The internals of `replacePatterns` (lines 66 and 69). It is defined outside this file, so it is
  an opaque function, and its error is dropped as in the source.
- The byte-exact output of `json.Marshal`, including field order and string escaping (line 168).
  The model fixes which fields are written and their values. The renderer of those fields is an
  opaque function of the written field map.
- zap logging. Only a ghost record of the duplicate warnings is kept.
- The `interface{}` metric value. It is a type parameter.
- GroupedMetric.GroupedMetrics.AddToGroupedMetric: does not model that `addKubernetesWrapper`
  writes into the data point's own label map and that a bucket shares that map. Maps are values
  here, so later writes through an alias cannot be observed.
- GroupedMetric.GroupedMetrics.AddToGroupedMetric: buckets are values in the map rather than
  pointers. This makes no difference to the map's contents.
- Timestamps are unbounded integers rather than int64. They are only compared with zero and
  copied, never computed with.
- `cWMetricMetadata` and `groupedMetricMetadata` are declared outside this file. They carry only
  the fields read here plus the namespace, metric type and receiver as pass-through fields.
- `pkg/ottl/ottlfuncs/func_parse_json_test.go` is a test of a JSON parser whose implementation is
  not part of this model, so there is no logic of its own to model.

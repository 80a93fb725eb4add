/** The grouping engine of the EMF exporter: the data points of one metric are folded, one
    after another, into a map from grouping key to bucket that the export cycle owns. A bucket
    holds a label set, the metrics recorded under that key (the first value seen for a name
    wins) and the metadata in force when the bucket was created. */
module GroupedMetric {
  import opened Strings
  import opened Units
  import opened Kubernetes

  /** The non-label part of a grouping key. Only timestampMs, logGroup and logStream are read
      here; namespace and metricDataType stand for the fields that are passed through. */
  datatype GroupedMetricMetadata = GroupedMetricMetadata(
    namespace: string,
    timestampMs: int,
    logGroup: string,
    logStream: string,
    metricDataType: string)

  /** The running metadata of one metric: the grouping part plus fields that do not affect grouping. */
  datatype CWMetricMetadata = CWMetricMetadata(grouped: GroupedMetricMetadata, receiver: string)

  /** A recorded value and its resolved unit; the value's type is left open. */
  datatype MetricInfo<V> = MetricInfo(value: V, unit: string)

  /** A bucket: the labels it was created with, its metrics by name, and its metadata. */
  datatype GroupedMetric<V> = GroupedMetric(
    labels: Labels,
    metrics: map<string, MetricInfo<V>>,
    metadata: CWMetricMetadata)

  /** One data point as extraction delivers it, with the flag saying whether extraction kept it. */
  datatype DataPoint<V> = DataPoint(value: V, timestampMs: int, labels: Labels)

  datatype ExtractedPoint<V> = ExtractedPoint(point: DataPoint<V>, retained: bool)

  /** The exporter configuration read here. */
  datatype Config = Config(
    logGroupName: string,
    logStreamName: string,
    eksFargateContainerInsightsEnabled: bool)

  /** The warning logged for a duplicate metric name, with the labels it came with. */
  datatype Warning = DuplicateMetric(name: string, labels: Labels)

  /** Everything one call works with besides the data points and the running metadata.
      `newKey` builds the grouping key, `replacePatterns` resolves a template from labels (its
      error is dropped, so only the string is kept) and `marshal` renders the JSON fields the
      encoder writes as text. */
  datatype Context<K> = Context(
    metric: Metric,
    descriptors: map<string, MetricDescriptor>,
    config: Config,
    patternReplaceSucceeded: bool,
    newKey: (GroupedMetricMetadata, Labels) -> K,
    replacePatterns: (string, Labels) -> string,
    marshal: map<FieldName, JsonValue> -> string)

  /** What processing a data point can change: the buckets, the running metadata and the log. */
  datatype State<K(==), V> = State(
    buckets: map<K, GroupedMetric<V>>,
    metadata: CWMetricMetadata,
    warnings: seq<Warning>)

  const Undefined: string := "undefined"

  // ---------------------------------------------------------------------------
  // The grouping key

  /** The key of a bucket: the grouping metadata together with the whole label map. */
  function GroupedMetricKey<K>(newKey: (GroupedMetricMetadata, Labels) -> K,
                               metadata: GroupedMetricMetadata, labels: Labels): K {
    newKey(metadata, labels)
  }

  /** The label map obtained by inserting the pairs in order, a later pair overwriting an earlier one. */
  function LabelsFromPairs(pairs: seq<(string, string)>): Labels {
    if pairs == [] then map[]
    else LabelsFromPairs(pairs[..|pairs| - 1])[pairs[|pairs| - 1].0 := pairs[|pairs| - 1].1]
  }

  /** Every name inserted is in the map, and every entry comes from an inserted pair. */
  lemma {:induction false} LabelsFromPairsEntries(pairs: seq<(string, string)>)
    ensures forall p :: p in pairs ==> p.0 in LabelsFromPairs(pairs)
    ensures forall k :: k in LabelsFromPairs(pairs) ==> (k, LabelsFromPairs(pairs)[k]) in pairs
  {
    if pairs != [] {
      var init := pairs[..|pairs| - 1];
      LabelsFromPairsEntries(init);
      assert pairs == init + [pairs[|pairs| - 1]];
    }
  }

  /** No label name is inserted twice with different values. */
  predicate DistinctLabelNames(pairs: seq<(string, string)>) {
    forall p, q :: p in pairs && q in pairs && p.0 == q.0 ==> p == q
  }

  /** Two data points whose labels were inserted in different orders get the same key. */
  lemma KeyIgnoresInsertionOrder<K>(newKey: (GroupedMetricMetadata, Labels) -> K, metadata: GroupedMetricMetadata,
                                    pairs1: seq<(string, string)>, pairs2: seq<(string, string)>)
    requires DistinctLabelNames(pairs1)
    requires multiset(pairs1) == multiset(pairs2)
    ensures LabelsFromPairs(pairs1) == LabelsFromPairs(pairs2)
    ensures GroupedMetricKey(newKey, metadata, LabelsFromPairs(pairs1)) ==
            GroupedMetricKey(newKey, metadata, LabelsFromPairs(pairs2))
  {
    var m1, m2 := LabelsFromPairs(pairs1), LabelsFromPairs(pairs2);
    LabelsFromPairsEntries(pairs1);
    LabelsFromPairsEntries(pairs2);
    assert forall p :: p in pairs1 <==> p in pairs2 by {
      forall p ensures p in pairs1 <==> p in pairs2 {
        assert p in pairs1 <==> p in multiset(pairs1);
        assert p in pairs2 <==> p in multiset(pairs2);
      }
    }
    forall k | k in m2 ensures k in m1 && m1[k] == m2[k] {
      assert (k, m2[k]) in pairs1;
      assert (k, m1[k]) in pairs1;
    }
    forall k | k in m1 ensures k in m2 {
      assert (k, m1[k]) in pairs2;
    }
  }

  // ---------------------------------------------------------------------------
  // Processing one data point

  /** Enrichment applies to Pod and Container metrics when Fargate Container Insights is on. */
  predicate NeedsKubernetesWrapper(config: Config, labels: Labels) {
    "Type" in labels && (labels["Type"] == "Pod" || labels["Type"] == "Container")
    && config.eksFargateContainerInsightsEnabled
  }

  /** The labels a retained data point is grouped under. */
  function PointLabels<K>(ctx: Context<K>, labels: Labels): Labels {
    if NeedsKubernetesWrapper(ctx.config, labels) then WithKubernetes(labels, ctx.marshal) else labels
  }

  /** Re-resolution of the log group and log stream from the point's labels, when resolution from
      resource attributes failed and a template still holds the "undefined" marker. */
  function ResolvePatterns<K>(ctx: Context<K>, md: CWMetricMetadata, labels: Labels): (r: CWMetricMetadata)
    ensures r.grouped.(logGroup := md.grouped.logGroup, logStream := md.grouped.logStream) == md.grouped
    ensures r.receiver == md.receiver
    ensures ctx.patternReplaceSucceeded ==> r == md
    ensures !Contains(md.grouped.logGroup, Undefined) ==> r.grouped.logGroup == md.grouped.logGroup
    ensures !Contains(md.grouped.logStream, Undefined) ==> r.grouped.logStream == md.grouped.logStream
    ensures !ctx.patternReplaceSucceeded && Contains(md.grouped.logGroup, Undefined) ==>
              r.grouped.logGroup == ctx.replacePatterns(ctx.config.logGroupName, labels)
    ensures !ctx.patternReplaceSucceeded && Contains(md.grouped.logStream, Undefined) ==>
              r.grouped.logStream == ctx.replacePatterns(ctx.config.logStreamName, labels)
  {
    if ctx.patternReplaceSucceeded then md
    else
      var group := if Contains(md.grouped.logGroup, Undefined)
                   then ctx.replacePatterns(ctx.config.logGroupName, labels) else md.grouped.logGroup;
      var stream := if Contains(md.grouped.logStream, Undefined)
                    then ctx.replacePatterns(ctx.config.logStreamName, labels) else md.grouped.logStream;
      md.(grouped := md.grouped.(logGroup := group, logStream := stream))
  }

  /** The running metadata after a retained data point. */
  function PointMetadata<K, V>(ctx: Context<K>, md: CWMetricMetadata, p: DataPoint<V>): CWMetricMetadata {
    var resolved := ResolvePatterns(ctx, md, PointLabels(ctx, p.labels));
    if p.timestampMs > 0 then resolved.(grouped := resolved.grouped.(timestampMs := p.timestampMs))
    else resolved
  }

  /** The key a retained data point is filed under: computed after enrichment and metadata update. */
  function PointKey<K, V>(ctx: Context<K>, md: CWMetricMetadata, p: DataPoint<V>): K {
    GroupedMetricKey(ctx.newKey, PointMetadata(ctx, md, p).grouped, PointLabels(ctx, p.labels))
  }

  function PointInfo<K, V>(ctx: Context<K>, p: DataPoint<V>): MetricInfo<V> {
    MetricInfo(p.value, TranslateUnit(ctx.metric, ctx.descriptors))
  }

  /** The buckets after filing a metric, and whether the name was a duplicate. */
  datatype Insertion<K(==), V> = Insertion(buckets: map<K, GroupedMetric<V>>, duplicate: bool)

  /** Files `info` under `name` in the bucket for `key`: creates the bucket when the key is new,
      keeps the first value when the name is already there, and adds the name otherwise. */
  function InsertMetric<K(==), V>(buckets: map<K, GroupedMetric<V>>, key: K, name: string, info: MetricInfo<V>,
                                  labels: Labels, md: CWMetricMetadata): (r: Insertion<K, V>)
    ensures key !in buckets ==>
              && !r.duplicate
              && r.buckets.Keys == buckets.Keys + {key}
              && r.buckets[key] == GroupedMetric(labels, map[name := info], md)
              && forall k :: k in buckets ==> r.buckets[k] == buckets[k]
    ensures key in buckets && name in buckets[key].metrics ==> r.duplicate && r.buckets == buckets
    ensures key in buckets && name !in buckets[key].metrics ==>
              && !r.duplicate
              && r.buckets.Keys == buckets.Keys
              && (forall k :: k in buckets && k != key ==> r.buckets[k] == buckets[k])
              && r.buckets[key].labels == buckets[key].labels
              && r.buckets[key].metadata == buckets[key].metadata
              && r.buckets[key].metrics.Keys == buckets[key].metrics.Keys + {name}
              && r.buckets[key].metrics[name] == info
              && forall n :: n in buckets[key].metrics ==> r.buckets[key].metrics[n] == buckets[key].metrics[n]
  {
    if key in buckets then
      if name in buckets[key].metrics then Insertion(buckets, true)
      else Insertion(buckets[key := buckets[key].(metrics := buckets[key].metrics[name := info])], false)
    else
      Insertion(buckets[key := GroupedMetric(labels, map[name := info], md)], false)
  }

  /** Processing one data point. */
  function Step<K(==), V>(ctx: Context<K>, st: State<K, V>, e: ExtractedPoint<V>): (r: State<K, V>)
    ensures !e.retained ==> r == st
    ensures e.retained ==>
              r.metadata.grouped.timestampMs ==
              (if e.point.timestampMs > 0 then e.point.timestampMs else st.metadata.grouped.timestampMs)
    ensures e.retained ==> PointKey(ctx, st.metadata, e.point) in r.buckets
    ensures st.buckets.Keys <= r.buckets.Keys
  {
    if !e.retained then st
    else
      var labels := PointLabels(ctx, e.point.labels);
      var md := PointMetadata(ctx, st.metadata, e.point);
      var ins := InsertMetric(st.buckets, PointKey(ctx, st.metadata, e.point), ctx.metric.name,
                              PointInfo(ctx, e.point), labels, md);
      State(ins.buckets, md,
            if ins.duplicate then st.warnings + [DuplicateMetric(ctx.metric.name, labels)] else st.warnings)
  }

  /** Processing the data points in order. */
  function Fold<K(==), V>(ctx: Context<K>, st: State<K, V>, points: seq<ExtractedPoint<V>>): State<K, V>
    decreases |points|
  {
    if points == [] then st
    else Step(ctx, Fold(ctx, st, points[..|points| - 1]), points[|points| - 1])
  }

  // ---------------------------------------------------------------------------
  // What one data point does

  /** A first point for a key creates its bucket, holding the point's (possibly enriched) labels,
      only this metric, and the metadata as it stands after this point. */
  lemma StepCreatesBucket<K, V>(ctx: Context<K>, st: State<K, V>, e: ExtractedPoint<V>)
    requires e.retained && PointKey(ctx, st.metadata, e.point) !in st.buckets
    ensures var key := PointKey(ctx, st.metadata, e.point);
            var r := Step(ctx, st, e);
            && r.buckets.Keys == st.buckets.Keys + {key}
            && r.buckets[key] == GroupedMetric(PointLabels(ctx, e.point.labels),
                                               map[ctx.metric.name := PointInfo(ctx, e.point)],
                                               PointMetadata(ctx, st.metadata, e.point))
            && (forall k :: k in st.buckets ==> r.buckets[k] == st.buckets[k])
            && r.warnings == st.warnings
  {
  }

  /** A name already in the bucket keeps its first value, and exactly one warning names it. */
  lemma StepKeepsFirstValue<K, V>(ctx: Context<K>, st: State<K, V>, e: ExtractedPoint<V>)
    requires e.retained
    requires PointKey(ctx, st.metadata, e.point) in st.buckets
    requires ctx.metric.name in st.buckets[PointKey(ctx, st.metadata, e.point)].metrics
    ensures var r := Step(ctx, st, e);
            && r.buckets == st.buckets
            && r.warnings == st.warnings + [DuplicateMetric(ctx.metric.name, PointLabels(ctx, e.point.labels))]
  {
  }

  /** A new name joins an existing bucket; nothing else in any bucket changes and nothing is logged. */
  lemma StepAddsMetric<K, V>(ctx: Context<K>, st: State<K, V>, e: ExtractedPoint<V>)
    requires e.retained
    requires PointKey(ctx, st.metadata, e.point) in st.buckets
    requires ctx.metric.name !in st.buckets[PointKey(ctx, st.metadata, e.point)].metrics
    ensures var key := PointKey(ctx, st.metadata, e.point);
            var r := Step(ctx, st, e);
            && r.buckets.Keys == st.buckets.Keys
            && (forall k :: k in st.buckets && k != key ==> r.buckets[k] == st.buckets[k])
            && r.buckets[key].labels == st.buckets[key].labels
            && r.buckets[key].metadata == st.buckets[key].metadata
            && r.buckets[key].metrics == st.buckets[key].metrics[ctx.metric.name := PointInfo(ctx, e.point)]
            && r.warnings == st.warnings
  {
    var key := PointKey(ctx, st.metadata, e.point);
    var r := Step(ctx, st, e);
    var before := st.buckets[key].metrics;
    assert r.buckets[key].metrics == before[ctx.metric.name := PointInfo(ctx, e.point)];
  }

  /** Enrichment happens before the key is computed: an enriched point is grouped under labels
      that carry the rendering of the fields ToJson writes for the Kubernetes object, and only
      that label differs from its own. */
  lemma EnrichmentPrecedesKey<K, V>(ctx: Context<K>, md: CWMetricMetadata, p: DataPoint<V>)
    ensures var labels := PointLabels(ctx, p.labels);
            && PointKey(ctx, md, p) == ctx.newKey(PointMetadata(ctx, md, p).grouped, labels)
            && (NeedsKubernetesWrapper(ctx.config, p.labels) ==>
                  && labels.Keys == p.labels.Keys + {KubernetesKey}
                  && labels[KubernetesKey] == ctx.marshal(ToJson(WrapperObj(p.labels)))
                  && forall k :: k in p.labels && k != KubernetesKey ==> labels[k] == p.labels[k])
            && (!NeedsKubernetesWrapper(ctx.config, p.labels) ==> labels == p.labels)
  {
  }

  // ---------------------------------------------------------------------------
  // What a whole call does

  /** `indices` picks out `kept` from `points` in order, and picks every retained point. */
  ghost predicate KeptIndices<V>(points: seq<ExtractedPoint<V>>, kept: seq<ExtractedPoint<V>>, indices: seq<nat>) {
    && |indices| == |kept|
    && (forall k :: 0 <= k < |indices| ==> indices[k] < |points| && kept[k] == points[indices[k]])
    && (forall k, l :: 0 <= k < l < |indices| ==> indices[k] < indices[l])
    && (forall i :: 0 <= i < |points| && points[i].retained ==> i in indices)
  }

  /** The data points extraction kept, in order, each exactly once. */
  ghost function Retained<V>(points: seq<ExtractedPoint<V>>): (r: seq<ExtractedPoint<V>>)
    ensures forall i :: 0 <= i < |r| ==> r[i].retained
    ensures exists indices :: KeptIndices(points, r, indices)
    decreases |points|
  {
    if points == [] then
      assert KeptIndices(points, [], []);
      []
    else
      var init, last := points[..|points| - 1], points[|points| - 1];
      var rest := Retained(init);
      var indices: seq<nat> :| KeptIndices(init, rest, indices);
      KeptIndicesExtend(init, rest, indices, last);
      assert points == init + [last];
      if last.retained then rest + [last] else rest
  }

  /** Appending a point extends the picked indices by it exactly when it was retained. */
  lemma KeptIndicesExtend<V>(init: seq<ExtractedPoint<V>>, kept: seq<ExtractedPoint<V>>, indices: seq<nat>,
                             last: ExtractedPoint<V>)
    requires KeptIndices(init, kept, indices)
    ensures last.retained ==> KeptIndices(init + [last], kept + [last], indices + [|init|])
    ensures !last.retained ==> KeptIndices(init + [last], kept, indices)
  {
    var points := init + [last];
    if last.retained {
      var kept', indices' := kept + [last], indices + [|init|];
      forall k | 0 <= k < |indices'| ensures indices'[k] < |points| && kept'[k] == points[indices'[k]] {
        if k < |indices| {
          assert indices'[k] == indices[k] && kept'[k] == kept[k];
        }
      }
      forall i | 0 <= i < |points| && points[i].retained ensures i in indices' {
        if i < |init| {
          assert points[i] == init[i];
          var k :| 0 <= k < |indices| && indices[k] == i;
          assert indices'[k] == i;
        } else {
          assert indices'[|indices|] == i;
        }
      }
    } else {
      forall k | 0 <= k < |indices| ensures indices[k] < |points| && kept[k] == points[indices[k]] {
        assert points[indices[k]] == init[indices[k]];
      }
      forall i | 0 <= i < |points| && points[i].retained ensures i in indices {
        assert i < |init| && points[i] == init[i];
      }
    }
  }

  /** Once a template no longer holds the marker, no later data point of the call changes it. */
  lemma {:induction false} FoldKeepsResolvedTemplates<K, V>(ctx: Context<K>, st: State<K, V>,
                                                            points: seq<ExtractedPoint<V>>)
    ensures !Contains(st.metadata.grouped.logGroup, Undefined) ==>
              Fold(ctx, st, points).metadata.grouped.logGroup == st.metadata.grouped.logGroup
    ensures !Contains(st.metadata.grouped.logStream, Undefined) ==>
              Fold(ctx, st, points).metadata.grouped.logStream == st.metadata.grouped.logStream
    decreases |points|
  {
    if points != [] {
      FoldKeepsResolvedTemplates(ctx, st, points[..|points| - 1]);
    }
  }

  /** Points that extraction did not keep make no difference at all. */
  lemma {:induction false} FoldSkipsDropped<K, V>(ctx: Context<K>, st: State<K, V>, points: seq<ExtractedPoint<V>>)
    ensures Fold(ctx, st, points) == Fold(ctx, st, Retained(points))
    decreases |points|
  {
    if points != [] {
      var init, last := points[..|points| - 1], points[|points| - 1];
      FoldSkipsDropped(ctx, st, init);
      var kept := Retained(init);
      if last.retained {
        FoldSnoc(ctx, st, kept, last);
      } else {
        assert Retained(points) == kept;
      }
    }
  }

  /** Processing one more data point is one more step. */
  lemma FoldSnoc<K, V>(ctx: Context<K>, st: State<K, V>, points: seq<ExtractedPoint<V>>, e: ExtractedPoint<V>)
    ensures Fold(ctx, st, points + [e]) == Step(ctx, Fold(ctx, st, points), e)
  {
    assert (points + [e])[..|points|] == points;
  }

  /** Processing two runs of data points one after the other is processing them together, so a
      lemma about a whole fold applies from any point in the middle of a call. */
  lemma {:induction false} FoldAppend<K, V>(ctx: Context<K>, st: State<K, V>,
                                            a: seq<ExtractedPoint<V>>, b: seq<ExtractedPoint<V>>)
    ensures Fold(ctx, st, a + b) == Fold(ctx, Fold(ctx, st, a), b)
    decreases |b|
  {
    if b == [] {
      assert a + b == a;
    } else {
      var b0 := b[..|b| - 1];
      FoldAppend(ctx, st, a, b0);
      assert (a + b)[..|a + b| - 1] == a + b0;
    }
  }

  /** A point that sets the running timestamp: kept by extraction and stamped with a positive time. */
  predicate IsStamped<V>(e: ExtractedPoint<V>) {
    e.retained && e.point.timestampMs > 0
  }

  /** The timestamp of the last stamped point, or `initial` when there is none. */
  function LastPositiveTimestamp<V>(points: seq<ExtractedPoint<V>>, initial: int): (t: int)
    ensures t == initial || t > 0
    ensures (forall i :: 0 <= i < |points| ==> !IsStamped(points[i])) ==> t == initial
    ensures forall i :: 0 <= i < |points| && IsStamped(points[i])
                        && (forall j :: i < j < |points| ==> !IsStamped(points[j])) ==>
                          t == points[i].point.timestampMs
    decreases |points|
  {
    if points == [] then initial
    else if IsStamped(points[|points| - 1]) then points[|points| - 1].point.timestampMs
    else
      var init := points[..|points| - 1];
      assert forall i :: 0 <= i < |init| ==> init[i] == points[i];
      LastPositiveTimestamp(init, initial)
  }

  /** The running timestamp ends as the last positive one seen; a zero never replaces a value. */
  lemma {:induction false} FoldTimestamp<K, V>(ctx: Context<K>, st: State<K, V>, points: seq<ExtractedPoint<V>>)
    ensures Fold(ctx, st, points).metadata.grouped.timestampMs ==
            LastPositiveTimestamp(points, st.metadata.grouped.timestampMs)
    decreases |points|
  {
    if points != [] {
      FoldTimestamp(ctx, st, points[..|points| - 1]);
    }
  }

  /** Every bucket that existed is still there with the same labels and metadata, and every
      metric it held keeps its value: the first writer wins. */
  ghost predicate Extends<K, V>(before: map<K, GroupedMetric<V>>, after: map<K, GroupedMetric<V>>) {
    forall k :: k in before ==>
      && k in after
      && after[k].labels == before[k].labels
      && after[k].metadata == before[k].metadata
      && forall n :: n in before[k].metrics ==> n in after[k].metrics && after[k].metrics[n] == before[k].metrics[n]
  }

  lemma StepExtends<K, V>(ctx: Context<K>, st: State<K, V>, e: ExtractedPoint<V>)
    ensures Extends(st.buckets, Step(ctx, st, e).buckets)
  {
  }

  lemma {:induction false} FoldKeepsFirstWriter<K, V>(ctx: Context<K>, st: State<K, V>, points: seq<ExtractedPoint<V>>)
    ensures Extends(st.buckets, Fold(ctx, st, points).buckets)
    decreases |points|
  {
    if points != [] {
      var init := points[..|points| - 1];
      FoldKeepsFirstWriter(ctx, st, init);
      StepExtends(ctx, Fold(ctx, st, init), points[|points| - 1]);
    }
  }

  /** One data point adds nothing but this metric's name, and logs only warnings naming it. */
  lemma StepAddsOnlyThisMetric<K, V>(ctx: Context<K>, st: State<K, V>, e: ExtractedPoint<V>)
    ensures var r := Step(ctx, st, e);
            && (forall k :: k in r.buckets && k !in st.buckets ==> ctx.metric.name in r.buckets[k].metrics)
            && (forall k, n :: k in r.buckets && n in r.buckets[k].metrics ==>
                  n == ctx.metric.name || (k in st.buckets && n in st.buckets[k].metrics))
            && (r.warnings == st.warnings
                || (&& |r.warnings| == |st.warnings| + 1
                    && r.warnings[..|st.warnings|] == st.warnings
                    && r.warnings[|st.warnings|].name == ctx.metric.name))
  {
  }

  /** A call adds nothing but this metric's name: every new bucket holds it, every new entry is it,
      and every warning logged names it. */
  lemma {:induction false} FoldAddsOnlyThisMetric<K, V>(ctx: Context<K>, st: State<K, V>, points: seq<ExtractedPoint<V>>)
    ensures var r := Fold(ctx, st, points);
            && (forall k :: k in r.buckets && k !in st.buckets ==> ctx.metric.name in r.buckets[k].metrics)
            && (forall k, n :: k in r.buckets && n in r.buckets[k].metrics ==>
                  n == ctx.metric.name || (k in st.buckets && n in st.buckets[k].metrics))
            && |st.warnings| <= |r.warnings|
            && r.warnings[..|st.warnings|] == st.warnings
            && (forall i :: |st.warnings| <= i < |r.warnings| ==> r.warnings[i].name == ctx.metric.name)
    decreases |points|
  {
    if points != [] {
      var init := points[..|points| - 1];
      FoldAddsOnlyThisMetric(ctx, st, init);
      var mid := Fold(ctx, st, init);
      var r := Step(ctx, mid, points[|points| - 1]);
      StepAddsOnlyThisMetric(ctx, mid, points[|points| - 1]);
      FoldKeepsFirstWriter(ctx, st, init);
      assert r.warnings[..|mid.warnings|] == mid.warnings;
      assert r.warnings[..|st.warnings|] == mid.warnings[..|st.warnings|];
    }
  }

  /** Two retained points of "cpu.load" with the same labels and time, no descriptor and no unit:
      one bucket, one entry holding the first value with an empty unit, and one warning. */
  lemma SameLabelsShareOneBucket<K, V>(newKey: (GroupedMetricMetadata, Labels) -> K,
                                            replacePatterns: (string, Labels) -> string,
                                            marshal: map<FieldName, JsonValue> -> string,
                                            first: V, second: V)
    ensures var ctx := Context(Metric("cpu.load", ""), map[], Config("", "", false), true,
                               newKey, replacePatterns, marshal);
            var md := CWMetricMetadata(GroupedMetricMetadata("ns", 0, "group", "stream", "Gauge"), "");
            var labels := map["host" := "a"];
            var points := [ExtractedPoint(DataPoint(first, 1000, labels), true),
                           ExtractedPoint(DataPoint(second, 1000, labels), true)];
            var r := Fold(ctx, State(map[], md, []), points);
            var key := newKey(md.grouped.(timestampMs := 1000), labels);
            && r.buckets.Keys == {key}
            && r.buckets[key].metrics == map["cpu.load" := MetricInfo(first, "")]
            && r.warnings == [DuplicateMetric("cpu.load", labels)]
  {
    var ctx := Context(Metric("cpu.load", ""), map[], Config("", "", false), true,
                       newKey, replacePatterns, marshal);
    var md := CWMetricMetadata(GroupedMetricMetadata("ns", 0, "group", "stream", "Gauge"), "");
    var labels := map["host" := "a"];
    var p1, p2 := ExtractedPoint(DataPoint(first, 1000, labels), true),
                  ExtractedPoint(DataPoint(second, 1000, labels), true);
    var points := [p1, p2];
    assert !NeedsKubernetesWrapper(ctx.config, labels);
    assert TranslateUnit(ctx.metric, ctx.descriptors) == "";
    var s0 := State(map[], md, []);
    assert points[..1] == [p1] && [p1][..0] == [];
    var s1 := Step(ctx, s0, p1);
    assert Fold(ctx, s0, [p1]) == s1;
    StepCreatesBucket(ctx, s0, p1);
    assert PointMetadata(ctx, md, p1.point) == s1.metadata;
    StepKeepsFirstValue(ctx, s1, p2);
  }

  /** The enrichment step of the loop body: a Pod or Container point gets the "kubernetes" label
      when Fargate Container Insights is on. */
  method EnrichLabels<K>(ctx: Context<K>, labels: Labels) returns (r: Labels)
    ensures NeedsKubernetesWrapper(ctx.config, labels) ==>
              && r.Keys == labels.Keys + {KubernetesKey}
              && r[KubernetesKey] == ctx.marshal(ToJson(WrapperObj(labels)))
              && forall k :: k in labels && k != KubernetesKey ==> r[k] == labels[k]
    ensures !NeedsKubernetesWrapper(ctx.config, labels) ==> r == labels
    ensures r == PointLabels(ctx, labels)
  {
    r := labels;
    if "Type" in labels {
      if (labels["Type"] == "Pod" || labels["Type"] == "Container")
         && ctx.config.eksFargateContainerInsightsEnabled {
        r := AddKubernetesWrapper(labels, ctx.marshal);
      }
    }
  }

  // ---------------------------------------------------------------------------
  // The caller-owned bucket map

  /** The key-to-bucket map of one export cycle, with the warnings logged while filling it. */
  class GroupedMetrics<K(==), V> {
    var buckets: map<K, GroupedMetric<V>>
    ghost var warnings: seq<Warning>

    constructor ()
      ensures buckets == map[] && warnings == []
    {
      buckets := map[];
      warnings := [];
    }

    /** Folds the data points of one metric into the buckets, starting from `metadata`. */
    method AddToGroupedMetric(ctx: Context<K>, points: seq<ExtractedPoint<V>>, metadata: CWMetricMetadata)
      modifies this
      ensures var s := Fold(ctx, State(old(buckets), metadata, old(warnings)), points);
              buckets == s.buckets && warnings == s.warnings
      ensures Extends(old(buckets), buckets)
    {
      ghost var start := State(buckets, metadata, warnings);
      if |points| == 0 {
        return;
      }
      var md := metadata;
      for i := 0 to |points|
        invariant State(buckets, md, warnings) == Fold(ctx, start, points[..i])
      {
        FoldSnoc(ctx, start, points[..i], points[i]);
        assert points[..i + 1] == points[..i] + [points[i]];
        if !points[i].retained {
          continue;
        }
        md := AddDataPoint(ctx, points[i].point, md);
      }
      assert points[..|points|] == points;
      FoldKeepsFirstWriter(ctx, start, points);
    }

    /** The loop body for a retained data point: enrichment, pattern resolution, unit, timestamp,
        key, then filing the metric. */
    method AddDataPoint(ctx: Context<K>, p: DataPoint<V>, md: CWMetricMetadata) returns (next: CWMetricMetadata)
      modifies this
      ensures State(buckets, next, warnings) ==
              Step(ctx, State(old(buckets), md, old(warnings)), ExtractedPoint(p, true))
    {
      var labels := EnrichLabels(ctx, p.labels);
      next := md;
      if !ctx.patternReplaceSucceeded {
        if Contains(next.grouped.logGroup, Undefined) {
          next := next.(grouped := next.grouped.(logGroup := ctx.replacePatterns(ctx.config.logGroupName, labels)));
        }
        if Contains(next.grouped.logStream, Undefined) {
          next := next.(grouped := next.grouped.(logStream := ctx.replacePatterns(ctx.config.logStreamName, labels)));
        }
      }
      assert next == ResolvePatterns(ctx, md, labels);
      var metric := MetricInfo(p.value, TranslateUnit(ctx.metric, ctx.descriptors));
      if p.timestampMs > 0 {
        next := next.(grouped := next.grouped.(timestampMs := p.timestampMs));
      }
      var key := GroupedMetricKey(ctx.newKey, next.grouped, labels);
      File(key, ctx.metric.name, metric, labels, next);
    }

    /** Files a metric under its key, logging a warning when the name is already in the bucket. */
    method File(key: K, name: string, metric: MetricInfo<V>, labels: Labels, md: CWMetricMetadata)
      modifies this
      ensures var ins := InsertMetric(old(buckets), key, name, metric, labels, md);
              buckets == ins.buckets &&
              warnings == if ins.duplicate then old(warnings) + [DuplicateMetric(name, labels)] else old(warnings)
    {
      if key in buckets {
        if name in buckets[key].metrics {
          warnings := warnings + [DuplicateMetric(name, labels)];
        } else {
          buckets := buckets[key := buckets[key].(metrics := buckets[key].metrics[name := metric])];
        }
      } else {
        buckets := buckets[key := GroupedMetric(labels, map[name := metric], md)];
      }
    }
  }
}

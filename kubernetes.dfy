/** Kubernetes enrichment for EKS Fargate Container Insights: flat orchestration labels are
    gathered into a nested object, every sub-object whose fields are all empty is dropped,
    and the object's JSON form is stored back into the labels under "kubernetes". */
module Kubernetes {

  datatype Option<T> = None | Some(value: T)

  /** A label set: names are unique and their order carries no meaning. */
  type Labels = map<string, string>

  /** The label under which the serialised object is stored. */
  const KubernetesKey: string := "kubernetes"

  datatype DockerObj = DockerObj(containerId: string)

  datatype LabelsObj = LabelsObj(app: string, podTemplateHash: string)

  datatype PodOwnersObj = PodOwnersObj(ownerKind: string, ownerName: string)

  /** The nested object; an absent sub-object is a nil pointer in the serialised structure. */
  datatype KubernetesObj = KubernetesObj(
    containerName: string,
    docker: Option<DockerObj>,
    host: string,
    labels: Option<LabelsObj>,
    namespaceName: string,
    podId: string,
    podName: string,
    podOwners: Option<PodOwnersObj>,
    serviceName: string)

  /** The value of a label, with a missing label reading as the empty string. */
  function MapGet(labels: Labels, key: string): (v: string)
    ensures key in labels ==> v == labels[key]
    ensures key !in labels ==> v == ""
  {
    if key in labels then labels[key] else ""
  }

  /** The object built from the labels, after the empty sub-objects have been dropped. */
  function WrapperObj(labels: Labels): (o: KubernetesObj)
    ensures o.docker.None? <==> MapGet(labels, "container_id") == ""
    ensures o.labels.None? <==> MapGet(labels, "app") == "" && MapGet(labels, "pod-template-hash") == ""
    ensures o.podOwners.None? <==> MapGet(labels, "owner_kind") == "" && MapGet(labels, "owner_name") == ""
    ensures o.docker.Some? ==> o.docker.value == DockerObj(MapGet(labels, "container_id"))
    ensures o.labels.Some? ==> o.labels.value == LabelsObj(MapGet(labels, "app"), MapGet(labels, "pod-template-hash"))
    ensures o.podOwners.Some? ==> o.podOwners.value == PodOwnersObj(MapGet(labels, "owner_kind"), MapGet(labels, "owner_name"))
    ensures o.containerName == MapGet(labels, "container") && o.host == MapGet(labels, "NodeName")
    ensures o.namespaceName == MapGet(labels, "Namespace") && o.podId == MapGet(labels, "PodId")
    ensures o.podName == MapGet(labels, "PodName") && o.serviceName == MapGet(labels, "Service")
  {
    var containerId := MapGet(labels, "container_id");
    var app, hash := MapGet(labels, "app"), MapGet(labels, "pod-template-hash");
    var kind, owner := MapGet(labels, "owner_kind"), MapGet(labels, "owner_name");
    KubernetesObj(
      MapGet(labels, "container"),
      if containerId == "" then None else Some(DockerObj(containerId)),
      MapGet(labels, "NodeName"),
      if app == "" && hash == "" then None else Some(LabelsObj(app, hash)),
      MapGet(labels, "Namespace"),
      MapGet(labels, "PodId"),
      MapGet(labels, "PodName"),
      if kind == "" && owner == "" then None else Some(PodOwnersObj(kind, owner)),
      MapGet(labels, "Service"))
  }

  // ---------------------------------------------------------------------------
  // JSON encoding with `omitempty` on every field

  /** The top-level fields, in declaration order; JsonName gives each one's JSON tag. */
  datatype FieldName =
    | ContainerName | Docker | Host | LabelsField | NamespaceName | PodId | PodName | PodOwners | ServiceName

  /** The fields of the three sub-objects, in declaration order within each. */
  datatype InnerName = ContainerId | App | PodTemplateHash | OwnerKind | OwnerName

  const FieldNames: set<FieldName> :=
    {ContainerName, Docker, Host, LabelsField, NamespaceName, PodId, PodName, PodOwners, ServiceName}

  function JsonName(n: FieldName): string {
    match n
    case ContainerName => "container_name"
    case Docker => "docker"
    case Host => "host"
    case LabelsField => "labels"
    case NamespaceName => "namespace_name"
    case PodId => "pod_id"
    case PodName => "pod_name"
    case PodOwners => "pod_owners"
    case ServiceName => "service_name"
  }

  function InnerJsonName(n: InnerName): string {
    match n
    case ContainerId => "container_id"
    case App => "app"
    case PodTemplateHash => "pod-template-hash"
    case OwnerKind => "owner_kind"
    case OwnerName => "owner_name"
  }

  /** The tags are distinct, so no written object carries a key twice. */
  lemma JsonNamesDistinct(n: FieldName, m: FieldName, i: InnerName, j: InnerName)
    ensures JsonName(n) == JsonName(m) ==> n == m
    ensures InnerJsonName(i) == InnerJsonName(j) ==> i == j
  {
  }

  /** A field value: a nil pointer, a string, or a flat object of string fields. */
  datatype JsonValue = JNull | JString(s: string) | JObject(fields: map<InnerName, string>)

  /** `omitempty` leaves out empty strings and nil pointers; a non-nil pointer to an empty struct is kept. */
  predicate IsOmitted(v: JsonValue) {
    v == JNull || v == JString("")
  }

  /** A non-nil sub-object: its string fields under `omitempty`. */
  function SubObject(fields: map<InnerName, string>): (v: JsonValue)
    ensures v.JObject? && forall n :: n in v.fields <==> n in fields && fields[n] != ""
    ensures forall n :: n in v.fields ==> v.fields[n] == fields[n]
  {
    JObject(map n | n in fields && fields[n] != "" :: fields[n])
  }

  lemma AllFieldNames()
    ensures forall n: FieldName :: n in FieldNames
  {
    forall n: FieldName ensures n in FieldNames {
      match n
      case ContainerName =>
      case Docker =>
      case Host =>
      case LabelsField =>
      case NamespaceName =>
      case PodId =>
      case PodName =>
      case PodOwners =>
      case ServiceName =>
    }
  }

  /** The value of one top-level field, before `omitempty` decides whether it is written. */
  function FieldValue(o: KubernetesObj, n: FieldName): JsonValue {
    match n
    case ContainerName => JString(o.containerName)
    case Docker =>
      (match o.docker
       case None => JNull
       case Some(d) => SubObject(map[ContainerId := d.containerId]))
    case Host => JString(o.host)
    case LabelsField =>
      (match o.labels
       case None => JNull
       case Some(l) => SubObject(map[App := l.app, PodTemplateHash := l.podTemplateHash]))
    case NamespaceName => JString(o.namespaceName)
    case PodId => JString(o.podId)
    case PodName => JString(o.podName)
    case PodOwners =>
      (match o.podOwners
       case None => JNull
       case Some(p) => SubObject(map[OwnerKind := p.ownerKind, OwnerName := p.ownerName]))
    case ServiceName => JString(o.serviceName)
  }

  /** The fields the encoder writes for the object: exactly those `omitempty` keeps. */
  function ToJson(o: KubernetesObj): (fs: map<FieldName, JsonValue>)
    ensures forall n :: n in fs <==> !IsOmitted(FieldValue(o, n))
    ensures forall n :: n in fs ==> fs[n] == FieldValue(o, n)
  {
    AllFieldNames();
    map n | n in FieldNames && !IsOmitted(FieldValue(o, n)) :: FieldValue(o, n)
  }

  function InnerGet(fields: map<InnerName, string>, n: InnerName): string {
    if n in fields then fields[n] else ""
  }

  function GetString(fs: map<FieldName, JsonValue>, n: FieldName): string {
    if n in fs && fs[n].JString? then fs[n].s else ""
  }

  function GetObject(fs: map<FieldName, JsonValue>, n: FieldName): Option<map<InnerName, string>> {
    if n in fs && fs[n].JObject? then Some(fs[n].fields) else None
  }

  /** A decoder: an absent field reads as the empty string or as a nil pointer. */
  function FromJson(fs: map<FieldName, JsonValue>): KubernetesObj {
    KubernetesObj(
      GetString(fs, ContainerName),
      match GetObject(fs, Docker)
      case None => None
      case Some(d) => Some(DockerObj(InnerGet(d, ContainerId))),
      GetString(fs, Host),
      match GetObject(fs, LabelsField)
      case None => None
      case Some(l) => Some(LabelsObj(InnerGet(l, App), InnerGet(l, PodTemplateHash))),
      GetString(fs, NamespaceName),
      GetString(fs, PodId),
      GetString(fs, PodName),
      match GetObject(fs, PodOwners)
      case None => None
      case Some(p) => Some(PodOwnersObj(InnerGet(p, OwnerKind), InnerGet(p, OwnerName))),
      GetString(fs, ServiceName))
  }

  /** The encoding loses nothing: decoding what the encoder writes gives back the object. */
  lemma JsonRoundTrip(o: KubernetesObj)
    ensures FromJson(ToJson(o)) == o
  {
  }

  /** Which fields the enrichment writes: each sub-object exactly when one of its labels is non-empty,
      and each top-level string exactly when its label is non-empty. */
  lemma WrapperFieldPresence(labels: Labels)
    ensures var fs := ToJson(WrapperObj(labels));
      && (Docker in fs <==> MapGet(labels, "container_id") != "")
      && (LabelsField in fs <==> MapGet(labels, "app") != "" || MapGet(labels, "pod-template-hash") != "")
      && (PodOwners in fs <==> MapGet(labels, "owner_kind") != "" || MapGet(labels, "owner_name") != "")
      && (ContainerName in fs <==> MapGet(labels, "container") != "")
      && (Host in fs <==> MapGet(labels, "NodeName") != "")
      && (NamespaceName in fs <==> MapGet(labels, "Namespace") != "")
      && (PodId in fs <==> MapGet(labels, "PodId") != "")
      && (PodName in fs <==> MapGet(labels, "PodName") != "")
      && (ServiceName in fs <==> MapGet(labels, "Service") != "")
  {
  }

  // ---------------------------------------------------------------------------
  // Enrichment

  /** The labels with the encoded object stored under "kubernetes". `marshal` renders the fields
      ToJson selects as JSON text; only its byte layout is left open. */
  function WithKubernetes(labels: Labels, marshal: map<FieldName, JsonValue> -> string): (r: Labels)
    ensures r.Keys == labels.Keys + {KubernetesKey}
    ensures forall k :: k in labels && k != KubernetesKey ==> r[k] == labels[k]
    ensures r[KubernetesKey] == marshal(ToJson(WrapperObj(labels)))
  {
    labels[KubernetesKey := marshal(ToJson(WrapperObj(labels)))]
  }

  /** Builds the object with every sub-object present, drops the empty ones one by one,
      and writes the encoded object into the labels. */
  method AddKubernetesWrapper(labels: Labels, marshal: map<FieldName, JsonValue> -> string) returns (r: Labels)
    ensures r.Keys == labels.Keys + {KubernetesKey}
    ensures forall k :: k in labels && k != KubernetesKey ==> r[k] == labels[k]
    ensures r[KubernetesKey] == marshal(ToJson(WrapperObj(labels)))
  {
    var filledIn := KubernetesObj(
      MapGet(labels, "container"),
      Some(DockerObj(MapGet(labels, "container_id"))),
      MapGet(labels, "NodeName"),
      Some(LabelsObj(MapGet(labels, "app"), MapGet(labels, "pod-template-hash"))),
      MapGet(labels, "Namespace"),
      MapGet(labels, "PodId"),
      MapGet(labels, "PodName"),
      Some(PodOwnersObj(MapGet(labels, "owner_kind"), MapGet(labels, "owner_name"))),
      MapGet(labels, "Service"));
    if filledIn.docker.value.containerId == "" {
      filledIn := filledIn.(docker := None);
    }
    if filledIn.labels.value.app == "" && filledIn.labels.value.podTemplateHash == "" {
      filledIn := filledIn.(labels := None);
    }
    if filledIn.podOwners.value.ownerKind == "" && filledIn.podOwners.value.ownerName == "" {
      filledIn := filledIn.(podOwners := None);
    }
    assert filledIn == WrapperObj(labels);
    r := labels[KubernetesKey := marshal(ToJson(filledIn))];
  }

  /** A Pod label set without a container id and with only an app label: the encoder writes the
      container name and a "labels" object holding just the app, and no "docker" field. */
  lemma PodExample()
    ensures var labels := map["Type" := "Pod", "container" := "web", "container_id" := "", "app" := "x"];
            ToJson(WrapperObj(labels)) == map[ContainerName := JString("web"), LabelsField := JObject(map[App := "x"])]
  {
    var labels := map["Type" := "Pod", "container" := "web", "container_id" := "", "app" := "x"];
    var o := KubernetesObj("web", None, "", Some(LabelsObj("x", "")), "", "", "", None, "");
    assert WrapperObj(labels) == o;
    var app := SubObject(map[App := "x", PodTemplateHash := ""]);
    assert app.fields.Keys == {App};
    var fs, expected := ToJson(o), map[ContainerName := JString("web"), LabelsField := JObject(map[App := "x"])];
    forall n: FieldName ensures n in fs <==> n in expected {
      match n
      case ContainerName =>
      case Docker =>
      case Host =>
      case LabelsField =>
      case NamespaceName =>
      case PodId =>
      case PodName =>
      case PodOwners =>
      case ServiceName =>
    }
    assert fs[LabelsField] == expected[LabelsField];
  }
}

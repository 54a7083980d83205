/**
 * The Helm charts of an application: the root chart's metadata and values, and
 * for each service its chart metadata, deployment, service and (only when an
 * http/https port exists) ingress manifests.
 */
module Charts {
  import opened Wrappers
  import opened Manifest
  import opened Names
  import opened Ports

  /** The application identity the build passes in; the repository prefix may be null. */
  datatype Application = Application(
    name: string,
    version: string,
    description: string,
    repositoryPrefix: Option<string>)

  /**
   * A loaded `Ports.yaml`: its top-level keys, each holding a list of port
   * entries or null (`Some([])` is an empty list, `None` a YAML null).
   */
  type PortsDocument = map<string, Option<seq<PortEntry>>>

  /** The manifests generated for one service. */
  datatype ServiceChart = ServiceChart(
    name: string,
    chart: Value,
    deployment: Value,
    service: Value,
    ingress: Option<Value>)

  // Placeholders left verbatim for the Helm renderer.
  const VersionPlaceholder := "{{ .Values.global.application.version }}"
  const PrefixPlaceholder := "{{ .Values.global.repositoryPrefix }}"

  /** `Chart.yaml`: the same four keys for the root chart and for every service chart. */
  function ChartMetadata(app: Application, chartName: string, chartDescription: string): (r: Value)
    ensures r.Mapping? && r.keys == ["apiVersion", "name", "version", "description"]
    ensures r.fields.Keys == {"apiVersion", "name", "version", "description"}
    ensures Get(r, "apiVersion") == Some(Str("v1"))
    ensures Get(r, "name") == Some(Str(chartName))
    ensures Get(r, "version") == Some(Str(app.version))
    ensures Get(r, "description") == Some(Str(chartDescription))
  {
    Mapping(["apiVersion", "name", "version", "description"],
      map["apiVersion" := Str("v1"), "name" := Str(chartName),
          "version" := Str(app.version), "description" := Str(chartDescription)])
  }

  /** The root chart's metadata: named after the application and described by it. */
  function RootChart(app: Application): (r: Value)
    ensures Keys(r) == ["apiVersion", "name", "version", "description"]
    ensures Get(r, "name") == Some(Str(app.name))
    ensures Get(r, "version") == Some(Str(app.version))
    ensures Get(r, "description") == Some(Str(app.description))
  {
    ChartMetadata(app, app.name, app.description)
  }

  /** The description of a service chart. */
  function ServiceDescription(serviceName: string): (r: string)
    ensures |r| == |DescriptionHead| + |serviceName| + |DescriptionTail|
    ensures r[..|DescriptionHead|] == DescriptionHead
    ensures r[|DescriptionHead|..|r| - |DescriptionTail|] == serviceName
    ensures r[|r| - |DescriptionTail|..] == DescriptionTail
  {
    DescriptionHead + serviceName + DescriptionTail
  }

  // The fixed text around the service name in a service chart's description.
  const DescriptionHead := "A Helm deployment chart for the '"
  const DescriptionTail := "' service."

  /** Distinct services get distinct chart descriptions. */
  lemma ServiceDescriptionInjective(a: string, b: string)
    requires ServiceDescription(a) == ServiceDescription(b)
    ensures a == b
  {
    var d := ServiceDescription(a);
    assert a == d[|DescriptionHead|..|d| - |DescriptionTail|];
  }

  /**
   * The `repositoryPrefix` global: the prefix with a trailing '/' when it is
   * neither null nor empty, and null otherwise.
   */
  function RepositoryPrefixValue(prefix: Option<string>): (r: Value)
    ensures r.Str? <==> prefix.Some? && prefix.value != ""
    ensures !r.Str? ==> r == Null
    ensures r.Str? ==> |r.s| >= 2 && r.s[|r.s| - 1] == '/' && r.s[..|r.s| - 1] == prefix.value
  {
    if prefix.Some? && prefix.value != "" then Str(prefix.value + "/") else Null
  }

  /** The root `values.yaml`. */
  function ValuesDocument(app: Application): (r: Value)
    ensures Keys(r) == ["global"]
    ensures Get(r, "global").Some? && Keys(Get(r, "global").value) == ["application", "repositoryPrefix"]
    ensures Field(Get(r, "global"), "application").Some?
    ensures Keys(Field(Get(r, "global"), "application").value) == ["name", "version"]
    ensures Field(Field(Get(r, "global"), "application"), "name") == Some(Str(app.name))
    ensures Field(Field(Get(r, "global"), "application"), "version") == Some(Str(app.version))
    ensures Field(Get(r, "global"), "repositoryPrefix") == Some(RepositoryPrefixValue(app.repositoryPrefix))
  {
    var application := Mapping(["name", "version"],
      map["name" := Str(app.name), "version" := Str(app.version)]);
    var global := Mapping(["application", "repositoryPrefix"],
      map["application" := application, "repositoryPrefix" := RepositoryPrefixValue(app.repositoryPrefix)]);
    Mapping(["global"], map["global" := global])
  }

  /** The `labels` of every manifest's metadata. */
  function ReleaseLabels(app: Application): Value {
    Mapping(["app"], map["app" := Str(app.name + "-" + VersionPlaceholder)])
  }

  /** A label set selecting the application's pods. */
  function AppLabel(app: Application): Value {
    Mapping(["app"], map["app" := Str(app.name)])
  }

  /** The container image of a service. */
  function Image(app: Application, serviceName: string): string {
    PrefixPlaceholder + app.name + "/" + serviceName + ":" + VersionPlaceholder
  }

  /** The single container of a deployment, when it has exactly one. */
  function SoleContainer(deployment: Value): Option<Value> {
    var containers := Field(Field(Field(Get(deployment, "spec"), "template"), "spec"), "containers");
    if containers.Some? && containers.value.Sequence? && |containers.value.items| == 1
    then Some(containers.value.items[0])
    else None
  }

  /** The deployment's container: the service's image and its container ports. */
  function Container(app: Application, serviceName: string, containerPorts: seq<Value>): (r: Value)
    ensures Get(r, "name") == Some(Str(serviceName))
    ensures Get(r, "image") == Some(Str(Image(app, serviceName)))
    ensures Get(r, "imagePullPolicy") == Some(Str("IfNotPresent"))
    ensures Get(r, "ports") == Some(Sequence(containerPorts))
  {
    Mapping(["name", "image", "imagePullPolicy", "ports"],
      map["name" := Str(serviceName), "image" := Str(Image(app, serviceName)),
          "imagePullPolicy" := Str("IfNotPresent"), "ports" := Sequence(containerPorts)])
  }

  /** `deployment.yaml`. */
  function Deployment(app: Application, serviceName: string, containerPorts: seq<Value>): (r: Value)
    ensures Get(r, "apiVersion") == Some(Str("apps/v1beta2"))
    ensures Get(r, "kind") == Some(Str("Deployment"))
    ensures Field(Get(r, "metadata"), "name") == Some(Str(serviceName + "-deployment"))
    ensures Field(Get(r, "metadata"), "labels") == Some(ReleaseLabels(app))
    ensures Field(Get(r, "spec"), "replicas") == Some(Int(1))
    ensures Field(Field(Get(r, "spec"), "selector"), "matchLabels") == Some(AppLabel(app))
    ensures Field(Field(Field(Get(r, "spec"), "template"), "metadata"), "labels") == Some(AppLabel(app))
    ensures SoleContainer(r) == Some(Container(app, serviceName, containerPorts))
  {
    var template := Mapping(["metadata", "spec"],
      map["metadata" := Mapping(["labels"], map["labels" := AppLabel(app)]),
          "spec" := Mapping(["containers"], map["containers" := Sequence([Container(app, serviceName, containerPorts)])])]);
    var spec := Mapping(["replicas", "selector", "template"],
      map["replicas" := Int(1),
          "selector" := Mapping(["matchLabels"], map["matchLabels" := AppLabel(app)]),
          "template" := template]);
    var metadata := Mapping(["name", "labels"],
      map["name" := Str(serviceName + "-deployment"), "labels" := ReleaseLabels(app)]);
    Mapping(["apiVersion", "kind", "metadata", "spec"],
      map["apiVersion" := Str("apps/v1beta2"), "kind" := Str("Deployment"),
          "metadata" := metadata, "spec" := spec])
  }

  /** `service.yaml`. */
  function Service(app: Application, serviceName: string, servicePorts: seq<Value>): (r: Value)
    ensures Get(r, "apiVersion") == Some(Str("v1"))
    ensures Get(r, "kind") == Some(Str("Service"))
    ensures Field(Get(r, "metadata"), "name") == Some(Str(serviceName + "-service"))
    ensures Field(Get(r, "metadata"), "labels") == Some(ReleaseLabels(app))
    ensures Field(Get(r, "spec"), "ports") == Some(Sequence(servicePorts))
    ensures Field(Get(r, "spec"), "selector") == Some(AppLabel(app))
  {
    var metadata := Mapping(["name", "labels"],
      map["name" := Str(serviceName + "-service"), "labels" := ReleaseLabels(app)]);
    var spec := Mapping(["ports", "selector"],
      map["ports" := Sequence(servicePorts), "selector" := AppLabel(app)]);
    Mapping(["apiVersion", "kind", "metadata", "spec"],
      map["apiVersion" := Str("v1"), "kind" := Str("Service"), "metadata" := metadata, "spec" := spec])
  }

  /** `ingress.yaml`. */
  function Ingress(app: Application, serviceName: string, rules: seq<Value>): (r: Value)
    ensures Get(r, "apiVersion") == Some(Str("extensions/v1beta1"))
    ensures Get(r, "kind") == Some(Str("Ingress"))
    ensures Field(Get(r, "metadata"), "name") == Some(Str(serviceName + "-ingress"))
    ensures Field(Get(r, "metadata"), "labels") == Some(ReleaseLabels(app))
    ensures Field(Field(Get(r, "metadata"), "annotations"), "kubernetes.io/ingress.class") == Some(Str("nginx"))
    ensures Field(Get(r, "spec"), "rules") == Some(Sequence(rules))
  {
    var metadata := Mapping(["name", "labels", "annotations"],
      map["name" := Str(serviceName + "-ingress"), "labels" := ReleaseLabels(app),
          "annotations" := Mapping(["kubernetes.io/ingress.class"], map["kubernetes.io/ingress.class" := Str("nginx")])]);
    Mapping(["apiVersion", "kind", "metadata", "spec"],
      map["apiVersion" := Str("extensions/v1beta1"), "kind" := Str("Ingress"),
          "metadata" := metadata, "spec" := Mapping(["rules"], map["rules" := Sequence(rules)])])
  }

  /**
   * `portsConfig["ports"]`: a missing `Ports.yaml` loads as null and indexing
   * it throws; a document without `ports` throws; a null list fails `Select`.
   */
  function PortsList(doc: Option<PortsDocument>): (r: Result<seq<PortEntry>, Error>)
    ensures doc.None? ==> r == Failure(NullReference)
    ensures r.Success? <==> doc.Some? && "ports" in doc.value && doc.value["ports"].Some?
    ensures r.Success? ==> r.value == doc.value["ports"].value
  {
    if doc.None? then Failure(NullReference)
    else if "ports" !in doc.value then Failure(KeyNotFound("ports"))
    else if doc.value["ports"].None? then Failure(ArgumentNull)
    else Success(doc.value["ports"].value)
  }

  /** Every port entry can be projected and compared: what a successful generation needs. */
  predicate PortsUsable(ports: seq<PortEntry>) {
    forall i :: 0 <= i < |ports| ==> HasRequiredKeys(ports[i]) && NameComparable(ports[i])
  }

  /**
   * The manifests of one service, from its project directory name and its
   * loaded `Ports.yaml`. The ingress manifest exists only when some port is
   * named http or https.
   */
  function CreateServiceHelmChart(app: Application, directoryName: string, doc: Option<PortsDocument>)
    : (r: Result<ServiceChart, Error>)
    ensures doc.None? ==> r == Failure(NullReference)
    ensures r.Success? <==> PortsList(doc).Success? && PortsUsable(PortsList(doc).value)
    ensures r.Success? ==> r.value.name == ServiceName(directoryName)
  {
    var serviceName := ServiceName(directoryName);
    var ports :- PortsList(doc);
    var containerPorts :- ContainerPorts(ports);
    // The service's projection reads the same keys, so it cannot fail once the deployment's has not.
    var servicePorts := ServicePorts(ports).value;
    HttpPortsSucceeds(ports);
    var httpPorts :- HttpPorts(ports);
    HttpPortsMembers(ports);
    // The ingress projection reads `name` and `port`, present on every entry by now.
    IngressRulesSucceed(serviceName, ports, httpPorts);
    var rules := IngressRules(serviceName, httpPorts).value;
    Success(AssembleChart(app, serviceName, containerPorts, servicePorts, httpPorts, rules))
  }

  /** The manifests of a service from its projected ports; no ingress when no port is http/https. */
  function AssembleChart(app: Application, serviceName: string, containerPorts: seq<Value>,
                         servicePorts: seq<Value>, httpPorts: seq<PortEntry>, rules: seq<Value>)
    : (c: ServiceChart)
    ensures c.name == serviceName
    ensures c.ingress.None? <==> httpPorts == []
  {
    ServiceChart(
      serviceName,
      ChartMetadata(app, serviceName, ServiceDescription(serviceName)),
      Deployment(app, serviceName, containerPorts),
      Service(app, serviceName, servicePorts),
      if |httpPorts| == 0 then None else Some(Ingress(app, serviceName, rules)))
  }

  /** The rules of ports drawn from a list of complete entries never fail. */
  lemma IngressRulesSucceed(serviceName: string, ports: seq<PortEntry>, httpPorts: seq<PortEntry>)
    requires forall i :: 0 <= i < |ports| ==> HasRequiredKeys(ports[i])
    requires forall p :: p in httpPorts ==> p in ports && IsIngressPort(p)
    ensures IngressRules(serviceName, httpPorts).Success?
  {
    forall i | 0 <= i < |httpPorts|
      ensures IsIngressPort(httpPorts[i]) && "port" in httpPorts[i]
    {
      assert httpPorts[i] in httpPorts;
    }
  }

  /** The rules of ports drawn from a list of complete entries are each the rule `IngressRuleShape` describes for its port. */
  lemma IngressRulesOfPorts(serviceName: string, ports: seq<PortEntry>, httpPorts: seq<PortEntry>)
    requires forall i :: 0 <= i < |ports| ==> HasRequiredKeys(ports[i])
    requires forall p :: p in httpPorts ==> p in ports && IsIngressPort(p)
    ensures IngressRules(serviceName, httpPorts).Success?
    ensures forall i :: 0 <= i < |httpPorts| ==> RuleFor(IngressRules(serviceName, httpPorts).value[i], serviceName, httpPorts[i])
  {
    IngressRulesSucceed(serviceName, ports, httpPorts);
    forall i | 0 <= i < |httpPorts|
      ensures RuleFor(IngressRule(serviceName, httpPorts[i]).value, serviceName, httpPorts[i])
    {
      assert httpPorts[i] in httpPorts;
      IngressRuleShape(serviceName, httpPorts[i]);
    }
  }
}

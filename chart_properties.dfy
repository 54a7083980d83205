/**
 * What the generated manifests of a service promise, stated over the whole
 * generation of one service chart from its loaded `Ports.yaml`.
 */
module ChartProperties {
  import opened Wrappers
  import opened Manifest
  import opened Names
  import opened Ports
  import opened Charts

  /** The container ports listed in a deployment. */
  function DeployedPorts(deployment: Value): seq<Value> {
    var c := SoleContainer(deployment);
    if c.Some? && Get(c.value, "ports").Some? && Get(c.value, "ports").value.Sequence?
    then Get(c.value, "ports").value.items
    else []
  }

  /** The ports listed in a service. */
  function ExposedPorts(service: Value): seq<Value> {
    var ps := Field(Get(service, "spec"), "ports");
    if ps.Some? && ps.value.Sequence? then ps.value.items else []
  }

  /** The rules listed in an ingress. */
  function RulesOf(ingress: Value): seq<Value> {
    var rs := Field(Get(ingress, "spec"), "rules");
    if rs.Some? && rs.value.Sequence? then rs.value.items else []
  }

  /** The port entries of a document that loads. */
  function PortsOf(doc: Option<PortsDocument>): seq<PortEntry>
    requires PortsList(doc).Success?
  {
    PortsList(doc).value
  }

  /** A successful generation is the assembly of the projections of the document's ports. */
  lemma Generated(app: Application, directoryName: string, doc: Option<PortsDocument>)
    requires CreateServiceHelmChart(app, directoryName, doc).Success?
    ensures PortsList(doc).Success?
    ensures ContainerPorts(PortsOf(doc)).Success?
    ensures ServicePorts(PortsOf(doc)).Success?
    ensures HttpPorts(PortsOf(doc)).Success?
    ensures IngressRules(ServiceName(directoryName), HttpPorts(PortsOf(doc)).value).Success?
    ensures CreateServiceHelmChart(app, directoryName, doc).value == AssembleChart(
      app, ServiceName(directoryName),
      ContainerPorts(PortsOf(doc)).value,
      ServicePorts(PortsOf(doc)).value,
      HttpPorts(PortsOf(doc)).value,
      IngressRules(ServiceName(directoryName), HttpPorts(PortsOf(doc)).value).value)
  {
    var ports := PortsOf(doc);
    assert PortsUsable(ports);
    assert ContainerPorts(ports).Success?;
    assert ServicePorts(ports).Success?;
    HttpPortsSucceeds(ports);
    HttpPortsMembers(ports);
    IngressRulesOfPorts(ServiceName(directoryName), ports, HttpPorts(ports).value);
  }

  /** A port entry without `name`, `protocol` or `port` fails the service with KeyNotFound. */
  lemma MissingRequiredKeyFails(app: Application, directoryName: string, doc: Option<PortsDocument>,
                                i: int, key: string)
    requires PortsList(doc).Success?
    requires 0 <= i < |PortsOf(doc)|
    requires key in ["name", "protocol", "port"] && key !in PortsOf(doc)[i]
    ensures CreateServiceHelmChart(app, directoryName, doc).Failure?
    ensures CreateServiceHelmChart(app, directoryName, doc).error.KeyNotFound?
  {
    assert !HasRequiredKeys(PortsOf(doc)[i]);
    assert ContainerPorts(PortsOf(doc)).Failure?;
  }

  /**
   * The deployment is `<service>-deployment` with one replica and one container
   * whose ports follow the source ports one for one and in order.
   */
  lemma DeploymentFollowsPorts(app: Application, directoryName: string, doc: Option<PortsDocument>)
    requires CreateServiceHelmChart(app, directoryName, doc).Success?
    ensures var d := CreateServiceHelmChart(app, directoryName, doc).value.deployment;
      && Field(Get(d, "metadata"), "name") == Some(Str(ServiceName(directoryName) + "-deployment"))
      && Field(Get(d, "spec"), "replicas") == Some(Int(1))
      && Get(SoleContainer(d).value, "image") == Some(Str(Image(app, ServiceName(directoryName))))
      && |DeployedPorts(d)| == |PortsOf(doc)|
      && forall i :: 0 <= i < |PortsOf(doc)| ==>
           CopiesPort(DeployedPorts(d)[i], PortsOf(doc)[i], "containerPort")
  {
    Generated(app, directoryName, doc);
  }

  /**
   * The service is `<service>-service`, selects the application's pods, and its
   * ports follow the source ports one for one and in order.
   */
  lemma ServiceFollowsPorts(app: Application, directoryName: string, doc: Option<PortsDocument>)
    requires CreateServiceHelmChart(app, directoryName, doc).Success?
    ensures var s := CreateServiceHelmChart(app, directoryName, doc).value.service;
      && Field(Get(s, "metadata"), "name") == Some(Str(ServiceName(directoryName) + "-service"))
      && Field(Field(Get(s, "spec"), "selector"), "app") == Some(Str(app.name))
      && |ExposedPorts(s)| == |PortsOf(doc)|
      && forall i :: 0 <= i < |PortsOf(doc)| ==> CopiesPort(ExposedPorts(s)[i], PortsOf(doc)[i], "port")
  {
    Generated(app, directoryName, doc);
  }

  /** An ingress manifest is generated exactly when some port is named http or https. */
  lemma IngressIffHttpPort(app: Application, directoryName: string, doc: Option<PortsDocument>)
    requires CreateServiceHelmChart(app, directoryName, doc).Success?
    ensures CreateServiceHelmChart(app, directoryName, doc).value.ingress.Some? <==>
      exists i :: 0 <= i < |PortsOf(doc)| && IsIngressPort(PortsOf(doc)[i])
  {
    Generated(app, directoryName, doc);
    var ports := PortsOf(doc);
    var http := HttpPorts(ports).value;
    HttpPortsMembers(ports);
    if exists i :: 0 <= i < |ports| && IsIngressPort(ports[i]) {
      var i :| 0 <= i < |ports| && IsIngressPort(ports[i]);
      assert ports[i] in ports;
      assert ports[i] in http;
    }
    if |http| > 0 {
      assert http[0] in http;
      assert http[0] in ports;
    }
  }

  /** The service of a generated chart is built from the projection of its ports. */
  lemma GeneratedService(app: Application, directoryName: string, doc: Option<PortsDocument>)
    requires CreateServiceHelmChart(app, directoryName, doc).Success?
    ensures ServicePorts(PortsOf(doc)).Success?
    ensures CreateServiceHelmChart(app, directoryName, doc).value.service ==
      Service(app, ServiceName(directoryName), ServicePorts(PortsOf(doc)).value)
  {
    Generated(app, directoryName, doc);
  }

  /** The ingress of a generated chart is named after the service and built from the rules of its http/https ports. */
  lemma GeneratedIngress(app: Application, directoryName: string, doc: Option<PortsDocument>)
    requires CreateServiceHelmChart(app, directoryName, doc).Success?
    requires CreateServiceHelmChart(app, directoryName, doc).value.ingress.Some?
    ensures HttpPorts(PortsOf(doc)).Success?
    ensures IngressRules(ServiceName(directoryName), HttpPorts(PortsOf(doc)).value).Success?
    ensures var ing := CreateServiceHelmChart(app, directoryName, doc).value.ingress.value;
      && ing == Ingress(app, ServiceName(directoryName), IngressRules(ServiceName(directoryName), HttpPorts(PortsOf(doc)).value).value)
      && Field(Get(ing, "metadata"), "name") == Some(Str(ServiceName(directoryName) + "-ingress"))
  {
    Generated(app, directoryName, doc);
  }

  /**
   * The ingress holds one rule per http/https port, in source order; each
   * rule is keyed by that port's name, has one path entry whose backend is
   * the service, and carries `host` exactly when the port does.
   */
  lemma IngressRulesFollowHttpPorts(app: Application, directoryName: string, doc: Option<PortsDocument>)
    requires CreateServiceHelmChart(app, directoryName, doc).Success?
    requires CreateServiceHelmChart(app, directoryName, doc).value.ingress.Some?
    ensures HttpPorts(PortsOf(doc)).Success?
    ensures var ing := CreateServiceHelmChart(app, directoryName, doc).value.ingress.value;
            var http := HttpPorts(PortsOf(doc)).value;
      && |RulesOf(ing)| == |http|
      && forall i :: 0 <= i < |http| ==> RuleFor(RulesOf(ing)[i], ServiceName(directoryName), http[i])
  {
    var serviceName := ServiceName(directoryName);
    var ports := PortsOf(doc);
    var ing := CreateServiceHelmChart(app, directoryName, doc).value.ingress.value;
    assert PortsUsable(ports) && HttpPorts(ports).Success? &&
      IngressRules(serviceName, HttpPorts(ports).value).Success? &&
      RulesOf(ing) == IngressRules(serviceName, HttpPorts(ports).value).value by {
      GeneratedIngress(app, directoryName, doc);
    }
    RulesFollowHttpPorts(serviceName, ports);
  }

  /** The rules built from the http/https ports of a list follow those ports one to one. */
  lemma RulesFollowHttpPorts(serviceName: string, ports: seq<PortEntry>)
    requires forall i :: 0 <= i < |ports| ==> HasRequiredKeys(ports[i])
    requires HttpPorts(ports).Success?
    ensures var http := HttpPorts(ports).value;
      && IngressRules(serviceName, http).Success?
      && |IngressRules(serviceName, http).value| == |http|
      && forall i :: 0 <= i < |http| ==> RuleFor(IngressRules(serviceName, http).value[i], serviceName, http[i])
  {
    HttpPortsMembers(ports);
    IngressRulesOfPorts(serviceName, ports, HttpPorts(ports).value);
  }

  /** Every ingress backend names the generated service, as the service's metadata spells it. */
  lemma BackendIsTheService(app: Application, directoryName: string, doc: Option<PortsDocument>)
    requires CreateServiceHelmChart(app, directoryName, doc).Success?
    requires CreateServiceHelmChart(app, directoryName, doc).value.ingress.Some?
    ensures var chart := CreateServiceHelmChart(app, directoryName, doc).value;
      forall i :: 0 <= i < |RulesOf(chart.ingress.value)| ==>
        RuleBackendService(RulesOf(chart.ingress.value)[i]) == Field(Get(chart.service, "metadata"), "name")
  {
    var serviceName := ServiceName(directoryName);
    var chart := CreateServiceHelmChart(app, directoryName, doc).value;
    var expected := Some(Str(serviceName + "-service"));
    assert Field(Get(chart.service, "metadata"), "name") == expected by {
      GeneratedService(app, directoryName, doc);
    }
    var rules := RulesOf(chart.ingress.value);
    assert forall i :: 0 <= i < |rules| ==> RuleBackendService(rules[i]) == expected by {
      IngressRulesFollowHttpPorts(app, directoryName, doc);
      var http := HttpPorts(PortsOf(doc)).value;
      forall i | 0 <= i < |rules| ensures RuleBackendService(rules[i]) == expected {
        RuleBackend(rules[i], serviceName, http[i]);
      }
    }
  }

  /** The root chart and every service chart share the metadata shape and the application version. */
  lemma ChartsShareMetadata(app: Application, directoryName: string, doc: Option<PortsDocument>)
    requires CreateServiceHelmChart(app, directoryName, doc).Success?
    ensures var chart := CreateServiceHelmChart(app, directoryName, doc).value.chart;
      && Keys(chart) == Keys(RootChart(app))
      && Get(chart, "apiVersion") == Get(RootChart(app), "apiVersion") == Some(Str("v1"))
      && Get(chart, "version") == Get(RootChart(app), "version") == Some(Str(app.version))
      && Get(chart, "name") == Some(Str(ServiceName(directoryName)))
      && Get(chart, "description") == Some(Str(ServiceDescription(ServiceName(directoryName))))
  {
    Generated(app, directoryName, doc);
  }
}

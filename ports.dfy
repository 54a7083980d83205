/**
 * The per-port projections of a service's `Ports.yaml`: the container ports of
 * the deployment, the ports of the service, the http/https filter and the
 * ingress rules. Each port entry is the dictionary the YAML deserializer
 * produced; a failure is the .NET exception the generator would raise.
 */
module Ports {
  import opened Wrappers
  import opened Manifest
  import opened Names

  /** One entry of the `ports` list: the deserialized dictionary of that port. */
  type PortEntry = map<string, Value>

  /** The exceptions the generator can raise while building a service chart. */
  datatype Error =
    | NullReference           // indexing the loaded document when `Ports.yaml` gave null
    | KeyNotFound(key: string) // a dictionary indexer on a missing key
    | ArgumentNull            // a null `ports` list, or a null dictionary key
    | RuntimeBinder           // a `name` that is neither a string nor null where a string is needed
    | DuplicateKey(key: string) // `Dictionary.Add` of a key that is already there

  /** The dictionary indexer `p[key]`. */
  function Index(p: PortEntry, key: string): Result<Value, Error> {
    if key in p then Success(p[key]) else Failure(KeyNotFound(key))
  }

  /** The entry has every key the projections read with the indexer. */
  predicate HasRequiredKeys(p: PortEntry) {
    "name" in p && "protocol" in p && "port" in p
  }

  /** The first required key the entry lacks, in the order the projections read them. */
  function MissingKey(p: PortEntry): (r: Option<string>)
    ensures r.None? <==> HasRequiredKeys(p)
    ensures r.Some? ==> r.value !in p && r.value in ["name", "protocol", "port"]
  {
    if "name" !in p then Some("name")
    else if "protocol" !in p then Some("protocol")
    else if "port" !in p then Some("port")
    else None
  }

  /** The key whose absence fails the first incomplete entry of the list, if any. */
  function FirstMissingKey(ps: seq<PortEntry>): (r: Option<string>)
    ensures r.None? <==> forall i :: 0 <= i < |ps| ==> HasRequiredKeys(ps[i])
    ensures r.Some? ==> exists i :: 0 <= i < |ps| && r.value !in ps[i]
    ensures r.Some? ==> r.value in ["name", "protocol", "port"]
    ensures r.Some? ==> exists i :: 0 <= i < |ps| && FirstIncomplete(ps, i) && r == MissingKey(ps[i])
  {
    if ps == [] then None
    else if MissingKey(ps[0]).Some? then
      assert FirstIncomplete(ps, 0);
      MissingKey(ps[0])
    else
      var r := FirstMissingKey(ps[1..]);
      assert forall i :: 0 < i < |ps| ==> ps[i] == ps[1..][i - 1];
      if r.Some? then
        var i :| 0 <= i < |ps[1..]| && FirstIncomplete(ps[1..], i) && r == MissingKey(ps[1..][i]);
        assert FirstIncomplete(ps, i + 1);
        r
      else r
  }

  /** Entry `i` is the first one without every required key. */
  predicate FirstIncomplete(ps: seq<PortEntry>, i: int)
    requires 0 <= i < |ps|
  {
    !HasRequiredKeys(ps[i]) && forall j :: 0 <= j < i ==> HasRequiredKeys(ps[j])
  }

  /** `[key]` when the entry has `key`, and no key otherwise. */
  function OptionalKey(p: PortEntry, key: string): seq<string> {
    if key in p then [key] else []
  }

  /** `{key}` when the entry has `key`, and no key otherwise. */
  function OptionalKeySet(p: PortEntry, key: string): set<string> {
    if key in p then {key} else {}
  }

  /**
   * `v` is the projection of port entry `p` that keeps `name` and `protocol`,
   * stores `port` under `portKey`, and carries `targetPort` exactly when `p` has one.
   */
  predicate CopiesPort(v: Value, p: PortEntry, portKey: string) {
    && HasRequiredKeys(p)
    && v.Mapping?
    && v.keys == ["name", "protocol", portKey] + OptionalKey(p, "targetPort")
    && v.fields.Keys == {"name", "protocol", portKey} + OptionalKeySet(p, "targetPort")
    && Get(v, "name") == Some(p["name"])
    && Get(v, "protocol") == Some(p["protocol"])
    && Get(v, portKey) == Some(p["port"])
    && (Get(v, "targetPort").Some? <==> "targetPort" in p)
    && ("targetPort" in p ==> Get(v, "targetPort") == Some(p["targetPort"]))
  }

  /** The dictionary the `Select` lambda fills for a complete entry. */
  function PortMapping(p: PortEntry, portKey: string): (v: Value)
    requires HasRequiredKeys(p)
    requires portKey != "name" && portKey != "protocol" && portKey != "targetPort"
    ensures CopiesPort(v, p, portKey)
  {
    var keys := ["name", "protocol", portKey];
    var fields := map["name" := p["name"], "protocol" := p["protocol"], portKey := p["port"]];
    if "targetPort" in p then
      Mapping(keys + ["targetPort"], fields["targetPort" := p["targetPort"]])
    else
      Mapping(keys, fields)
  }

  /**
   * The `Select` lambda shared by the deployment and the service, with the port
   * stored under `portKey`: `name`, `protocol` and `port` are read with the
   * indexer, in that order.
   */
  function ProjectPort(p: PortEntry, portKey: string): (r: Result<Value, Error>)
    requires portKey != "name" && portKey != "protocol" && portKey != "targetPort"
    ensures r.Success? <==> HasRequiredKeys(p)
    ensures r.Failure? ==> r.error == KeyNotFound(MissingKey(p).value)
    ensures r.Success? ==> CopiesPort(r.value, p, portKey)
  {
    var _ :- Index(p, "name");
    var _ :- Index(p, "protocol");
    var _ :- Index(p, "port");
    Success(PortMapping(p, portKey))
  }

  /** `Select` of `ProjectPort` over the whole list; the first entry that fails fails the list. */
  function ProjectPorts(ps: seq<PortEntry>, portKey: string): (r: Result<seq<Value>, Error>)
    requires portKey != "name" && portKey != "protocol" && portKey != "targetPort"
    ensures r.Success? <==> FirstMissingKey(ps).None?
    ensures r.Failure? ==> r.error == KeyNotFound(FirstMissingKey(ps).value)
    ensures r.Success? ==> |r.value| == |ps|
    ensures r.Success? ==> forall i :: 0 <= i < |ps| ==> CopiesPort(r.value[i], ps[i], portKey)
  {
    if ps == [] then Success([])
    else
      var head :- ProjectPort(ps[0], portKey);
      var tail :- ProjectPorts(ps[1..], portKey);
      assert forall i :: 0 < i < |ps| ==> ps[i] == ps[1..][i - 1];
      Success([head] + tail)
  }

  /**
   * The `ports` of the deployment's container: one entry per port, in order,
   * with `port` renamed to `containerPort`.
   */
  function ContainerPorts(ps: seq<PortEntry>): (r: Result<seq<Value>, Error>)
    ensures r.Success? <==> forall i :: 0 <= i < |ps| ==> HasRequiredKeys(ps[i])
    ensures r.Failure? ==> r.error.KeyNotFound? && r.error.key in ["name", "protocol", "port"]
    ensures r.Success? ==> |r.value| == |ps|
    ensures r.Success? ==> forall i :: 0 <= i < |ps| ==>
      && CopiesPort(r.value[i], ps[i], "containerPort")
      && Get(r.value[i], "port").None?
  {
    ProjectPorts(ps, "containerPort")
  }

  /** The `ports` of the service: one entry per port, in order, with `port` copied unchanged. */
  function ServicePorts(ps: seq<PortEntry>): (r: Result<seq<Value>, Error>)
    ensures r.Success? <==> forall i :: 0 <= i < |ps| ==> HasRequiredKeys(ps[i])
    ensures r.Failure? ==> r.error.KeyNotFound? && r.error.key in ["name", "protocol", "port"]
    ensures r.Success? ==> |r.value| == |ps|
    ensures r.Success? ==> forall i :: 0 <= i < |ps| ==> CopiesPort(r.value[i], ps[i], "port")
  {
    ProjectPorts(ps, "port")
  }

  /** The `name` can be compared with a string: it is a string or null. */
  predicate NameComparable(p: PortEntry) {
    "name" in p && (p["name"].Str? || p["name"].Null?)
  }

  /** The port asks for an ingress rule: its `name` is "http" or "https", ignoring case. */
  predicate IsIngressPort(p: PortEntry) {
    "name" in p && p["name"].Str? && IsHttpName(p["name"].s)
  }

  /** The `Where` lambda: compare the dynamic `name` with "http" and "https". */
  function NameMatches(p: PortEntry): (r: Result<bool, Error>)
    ensures r.Success? <==> NameComparable(p)
    ensures r.Success? ==> (r.value <==> IsIngressPort(p))
    ensures "name" in p && r.Failure? ==> r.error == RuntimeBinder
  {
    var name :- Index(p, "name");
    match name
    case Str(s) => Success(IsHttpName(s))
    case Null => Success(false)
    case _ => Failure(RuntimeBinder)
  }

  /** The ports that get an ingress rule, in source order. */
  function HttpPorts(ps: seq<PortEntry>): (r: Result<seq<PortEntry>, Error>)
    ensures r.Success? ==> |r.value| <= |ps|
  {
    if ps == [] then Success([])
    else
      var keep := NameMatches(ps[0]);
      var rest := HttpPorts(ps[1..]);
      if keep.Failure? then Failure(keep.error)
      else if rest.Failure? then Failure(rest.error)
      else Success(if keep.value then [ps[0]] + rest.value else rest.value)
  }

  /** The filter succeeds exactly when every `name` is a string or null. */
  lemma {:induction false} HttpPortsSucceeds(ps: seq<PortEntry>)
    ensures HttpPorts(ps).Success? <==> forall i :: 0 <= i < |ps| ==> NameComparable(ps[i])
  {
    if ps != [] {
      assert forall i :: 0 < i < |ps| ==> ps[i] == ps[1..][i - 1];
      HttpPortsSucceeds(ps[1..]);
    }
  }

  /** When every port has a `name`, the filter can only fail on a name that is not a string. */
  lemma {:induction false} HttpPortsError(ps: seq<PortEntry>)
    requires forall i :: 0 <= i < |ps| ==> "name" in ps[i]
    requires HttpPorts(ps).Failure?
    ensures HttpPorts(ps).error == RuntimeBinder
  {
    assert ps != [];
    assert "name" in ps[0];
    if NameMatches(ps[0]).Success? {
      assert forall i :: 0 < i < |ps| ==> ps[i] == ps[1..][i - 1];
      HttpPortsError(ps[1..]);
    }
  }

  /** The kept ports are exactly the http/https ports of the list. */
  lemma {:induction false} HttpPortsMembers(ps: seq<PortEntry>)
    requires HttpPorts(ps).Success?
    ensures forall p :: p in HttpPorts(ps).value <==> p in ps && IsIngressPort(p)
  {
    if ps != [] {
      assert forall i :: 0 < i < |ps| ==> ps[i] == ps[1..][i - 1];
      assert NameComparable(ps[0]);
      HttpPortsMembers(ps[1..]);
      assert forall p :: p in ps <==> p == ps[0] || p in ps[1..];
    }
  }

  /** What the filter keeps of one port: the port itself, or nothing. */
  function Kept(p: PortEntry): seq<PortEntry> {
    if IsIngressPort(p) then [p] else []
  }

  /** Filtering a port in front of a list keeps it exactly when it is an http/https port. */
  lemma HttpPortsCons(p: PortEntry, rest: seq<PortEntry>)
    requires NameComparable(p) && HttpPorts(rest).Success?
    ensures HttpPorts([p] + rest) == Success(Kept(p) + HttpPorts(rest).value)
  {
    var ps := [p] + rest;
    assert ps[0] == p && ps[1..] == rest;
    if !IsIngressPort(p) {
      assert Kept(p) + HttpPorts(rest).value == HttpPorts(rest).value;
    }
  }

  /** A successful filter of a non-empty list succeeded on its head and on its tail. */
  lemma HttpPortsUncons(ps: seq<PortEntry>)
    requires ps != [] && HttpPorts(ps).Success?
    ensures NameComparable(ps[0]) && HttpPorts(ps[1..]).Success?
    ensures HttpPorts(ps) ==
      Success(if IsIngressPort(ps[0]) then [ps[0]] + HttpPorts(ps[1..]).value else HttpPorts(ps[1..]).value)
  {
    assert NameMatches(ps[0]).Success?;
  }

  /** Filtering a concatenation filters each part and keeps them in order. */
  lemma {:induction false} HttpPortsAppend(a: seq<PortEntry>, b: seq<PortEntry>)
    requires HttpPorts(a).Success? && HttpPorts(b).Success?
    ensures HttpPorts(a + b) == Success(HttpPorts(a).value + HttpPorts(b).value)
  {
    if a == [] {
      assert a + b == b;
      assert HttpPorts(a).value == [];
      assert HttpPorts(a).value + HttpPorts(b).value == HttpPorts(b).value;
    } else {
      HttpPortsUncons(a);
      HttpPortsAppend(a[1..], b);
      assert a == [a[0]] + a[1..];
      HttpPortsAppendStep(a[0], a[1..], b);
    }
  }

  /** `HttpPortsCons` with the rest of the list given as a concatenation. */
  lemma HttpPortsConsAppend(p: PortEntry, tail: seq<PortEntry>, b: seq<PortEntry>)
    requires NameComparable(p) && HttpPorts(tail + b).Success?
    ensures HttpPorts([p] + tail + b) == Success(Kept(p) + HttpPorts(tail + b).value)
  {
    assert [p] + tail + b == [p] + (tail + b);
    HttpPortsCons(p, tail + b);
  }

  /** One step of `HttpPortsAppend`: a port in front of the first list. */
  lemma HttpPortsAppendStep(p: PortEntry, tail: seq<PortEntry>, b: seq<PortEntry>)
    requires NameComparable(p) && HttpPorts(tail).Success? && HttpPorts(b).Success?
    requires HttpPorts([p] + tail).Success?
    requires HttpPorts(tail + b) == Success(HttpPorts(tail).value + HttpPorts(b).value)
    ensures HttpPorts([p] + tail + b) == Success(HttpPorts([p] + tail).value + HttpPorts(b).value)
  {
    HttpPortsCons(p, tail);
    HttpPortsConsAppend(p, tail, b);
    ConcatAssociative(Kept(p), HttpPorts(tail).value, HttpPorts(b).value);
  }

  lemma ConcatAssociative<T>(x: seq<T>, y: seq<T>, z: seq<T>)
    ensures x + (y + z) == (x + y) + z
  {
  }

  /** A single port is kept exactly when it is an http/https port. */
  lemma HttpPortsSingle(p: PortEntry)
    requires NameComparable(p)
    ensures HttpPorts([p]) == Success(if IsIngressPort(p) then [p] else [])
  {
    var ps := [p];
    assert ps[0] == p;
    assert ps[1..] == [];
    assert HttpPorts(ps[1..]) == Success([]);
    assert NameMatches(p).Success?;
    assert HttpPorts(ps).Success?;
    assert HttpPorts(ps).value == if IsIngressPort(p) then [p] else [];
  }

  /** `Dictionary.Add`: appends a new key, and throws when the key is already there. */
  function Add(m: Value, key: string, v: Value): (r: Result<Value, Error>)
    requires m.Mapping?
    ensures r.Success? <==> key !in m.fields
    ensures r.Success? ==> r.value.Mapping? && r.value.keys == m.keys + [key]
    ensures r.Success? ==> r.value.fields == m.fields[key := v]
    ensures r.Failure? ==> r.error == DuplicateKey(key)
  {
    if key in m.fields then Failure(DuplicateKey(key))
    else Success(Mapping(m.keys + [key], m.fields[key := v]))
  }

  /** The dynamic `name` used as a `Dictionary<string, object>` key. */
  function DictionaryKey(name: Value): (r: Result<string, Error>)
    ensures r.Success? <==> name.Str?
    ensures r.Success? ==> r.value == name.s
    ensures name.Null? ==> r == Failure(ArgumentNull)
    ensures !name.Str? && !name.Null? ==> r == Failure(RuntimeBinder)
  {
    match name
    case Str(s) => Success(s)
    case Null => Failure(ArgumentNull)
    case _ => Failure(RuntimeBinder)
  }

  /** The single path entry of a rule, as its backend and path say. */
  predicate PathEntryFor(e: Value, serviceName: string, p: PortEntry)
    requires "port" in p
  {
    && e.Mapping?
    && e.keys == ["path", "backend"]
    && e.fields.Keys == {"path", "backend"}
    && Get(e, "path") == Some(if "path" in p then p["path"] else Str("/"))
    && Keys(e.fields["backend"]) == ["serviceName", "servicePort"]
    && Field(Get(e, "backend"), "serviceName") == Some(Str(serviceName + "-service"))
    && Field(Get(e, "backend"), "servicePort") == Some(p["port"])
  }

  /**
   * `rule` is the ingress rule of http/https port `p`: keyed by the port's own
   * name, holding exactly one path entry, with `host` exactly when `p` has one.
   */
  predicate RuleFor(rule: Value, serviceName: string, p: PortEntry) {
    && IsIngressPort(p)
    && "port" in p
    && rule.Mapping?
    && rule.keys == [p["name"].s] + OptionalKey(p, "host")
    && rule.fields.Keys == {p["name"].s} + OptionalKeySet(p, "host")
    && (Get(rule, "host").Some? <==> "host" in p)
    && ("host" in p ==> Get(rule, "host") == Some(p["host"]))
    && Keys(rule.fields[p["name"].s]) == ["paths"]
    && Field(Get(rule, p["name"].s), "paths").Some?
    && var paths := Field(Get(rule, p["name"].s), "paths").value;
       && paths.Sequence?
       && |paths.items| == 1
       && PathEntryFor(paths.items[0], serviceName, p)
  }

  /** The one path entry of a rule: the port's `path` or "/", and the service port as backend. */
  function PathEntry(serviceName: string, p: PortEntry): (e: Value)
    requires "port" in p
    ensures PathEntryFor(e, serviceName, p)
  {
    var backend := Mapping(["serviceName", "servicePort"],
      map["serviceName" := Str(serviceName + "-service"), "servicePort" := p["port"]]);
    Mapping(["path", "backend"],
      map["path" := (if "path" in p then p["path"] else Str("/")), "backend" := backend])
  }

  /** The `serviceName` of the backend of a rule's first path entry, read under the rule's first key. */
  function RuleBackendService(rule: Value): Option<Value> {
    if |Keys(rule)| == 0 then None
    else
      var paths := Field(Get(rule, Keys(rule)[0]), "paths");
      if paths.Some? && paths.value.Sequence? && |paths.value.items| > 0
      then Field(Get(paths.value.items[0], "backend"), "serviceName")
      else None
  }

  /** The backend of a rule is the `<service>-service` of the chart it belongs to. */
  lemma RuleBackend(rule: Value, serviceName: string, p: PortEntry)
    requires RuleFor(rule, serviceName, p)
    ensures RuleBackendService(rule) == Some(Str(serviceName + "-service"))
  {
  }

  /** The rule of a port before any `host` is added: the key maps to one path entry. */
  function RuleMapping(serviceName: string, key: string, p: PortEntry): (v: Value)
    requires "port" in p
    ensures v.Mapping? && v.keys == [key] && v.fields.Keys == {key}
    ensures Keys(v.fields[key]) == ["paths"]
    ensures Field(Get(v, key), "paths") == Some(Sequence([PathEntry(serviceName, p)]))
  {
    Mapping([key], map[key := Mapping(["paths"], map["paths" := Sequence([PathEntry(serviceName, p)])])])
  }

  /** The `Select` lambda of the ingress rules. */
  function IngressRule(serviceName: string, p: PortEntry): (r: Result<Value, Error>)
    ensures r.Success? ==> "name" in p && p["name"].Str? && "port" in p
    ensures IsIngressPort(p) && "port" in p ==> r.Success?
  {
    var name :- Index(p, "name");
    var _ :- Index(p, "port");
    var key :- DictionaryKey(name);
    var mapping := RuleMapping(serviceName, key, p);
    if "host" in p then
      // Both branches add `host`; the first also proves that an http/https key is never "host",
      // which is what rules out `DuplicateKey` in the second ensures.
      (if IsHttpName(key) then HttpNameIsNotHost(key); Add(mapping, "host", p["host"])
       else Add(mapping, "host", p["host"]))
    else Success(mapping)
  }

  /** The rule of an http/https port is keyed by its name, with one path entry and an optional host. */
  lemma IngressRuleShape(serviceName: string, p: PortEntry)
    requires IsIngressPort(p) && "port" in p
    ensures IngressRule(serviceName, p).Success?
    ensures RuleFor(IngressRule(serviceName, p).value, serviceName, p)
  {
    HttpNameIsNotHost(p["name"].s);
  }

  /** The ingress rules of the given ports, one per port and in the same order. */
  function IngressRules(serviceName: string, ps: seq<PortEntry>): (r: Result<seq<Value>, Error>)
    ensures r.Success? <==> forall i :: 0 <= i < |ps| ==> IngressRule(serviceName, ps[i]).Success?
    ensures r.Success? ==> |r.value| == |ps|
    ensures r.Success? ==> forall i :: 0 <= i < |ps| ==> IngressRule(serviceName, ps[i]) == Success(r.value[i])
  {
    if ps == [] then Success([])
    else
      var head :- IngressRule(serviceName, ps[0]);
      var tail :- IngressRules(serviceName, ps[1..]);
      assert forall i :: 0 < i < |ps| ==> ps[i] == ps[1..][i - 1];
      Success([head] + tail)
  }
}

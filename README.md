# HelmDeploy.Sdk chart generation, modelled in Dafny

`GenerateHelmApplicationFiles` is an MSBuild task that turns an application's
identity (name, version, description, optional repository prefix) and, for each
referenced service project, that service's `Ports.yaml` into Helm charts: a root
`Chart.yaml` and `values.yaml`, and per service a `Chart.yaml`, a
`deployment.yaml`, a `service.yaml` and, only when some port is named `http` or
`https`, an `ingress.yaml`.

This project models the deterministic mapping inside the task:

- `Names` (`names.dfy`): the service name derived from the project directory
  name (`.` becomes `-`, then lower-case) and the case-insensitive `http`/`https`
  test.
- `Manifest` (`manifest.dfy`): the generic document tree handed to the YAML
  serializer. A mapping keeps its key order next to its fields.
- `Ports` (`ports.dfy`): the per-port projections: container ports (`port`
  renamed `containerPort`), service ports, the http/https filter, and the
  ingress rules.
- `Charts` (`charts.dfy`): the five document builders and
  `CreateServiceHelmChart`. This function returns a service's manifests or the
  exception the task would raise.
- `ChartProperties` (`chart_properties.dfy`): what a successful generation
  promises about its manifests.

Failures are values of `Ports.Error`, named after the .NET exception each one
stands for:

- `NullReference`: `Ports.yaml` is missing, or loads as null.
- `KeyNotFound`: a required key is absent.
- `ArgumentNull`: the `ports` list is null.
- `RuntimeBinder`: a port `name` is neither a string nor null.
- `DuplicateKey`: a `Dictionary.Add` that would throw. For ports that pass the
  http/https filter this is proved never to happen.

The error that comes out is the first one in evaluation order. That order is:
the document, `ports`, then each port's `name`, `protocol` and `port` in list
order, then the `name` comparisons of the filter.

The model follows this revision of the task, which reads each service's port
list from `Ports.yaml`. Here `targetPort` is copied through exactly when
present, `replicas` is always 1, and ingress rules come from ports named
http/https.

In this code a missing `Ports.yaml` is not tolerated. `LoadYamlFile` returns
null (`GenerateHelmApplicationFiles.cs:264`). But `portsConfig["ports"]` is
dereferenced while the deployment is built (`:134`), before the null check at
`:195`. So `CreateServiceHelmChart` fails with `NullReference` whenever the
document is absent, and the check at `:195` never sees null.

## Model

| member | source | states |
|---|---|---|
| `Names.ToLowerInvariant` | src/HelmDeploy.Sdk.Tasks/GenerateHelmApplicationFiles.cs:77 | lower-casing keeps the length and maps each character through ASCII lower-casing |
| `Names.Replace` | src/HelmDeploy.Sdk.Tasks/GenerateHelmApplicationFiles.cs:77 | `Replace('.', '-')` keeps the length and changes exactly the occurrences of the old character |
| `Names.ServiceName` | src/HelmDeploy.Sdk.Tasks/GenerateHelmApplicationFiles.cs:77 | the service name has the directory name's length, contains no `.` and no upper-case ASCII letter, and each character is the directory's character with `.` turned to `-` and lower-cased |
| `Names.ServiceNameIdempotent` | src/HelmDeploy.Sdk.Tasks/GenerateHelmApplicationFiles.cs:77 | deriving the service name of a service name gives it back unchanged |
| `Names.HttpNameIgnoresCase` | src/HelmDeploy.Sdk.Tasks/GenerateHelmApplicationFiles.cs:198 | the http/https test is `string.Equals` ignoring case against `http` and against `https` |
| `Names.IsHttpName` | src/HelmDeploy.Sdk.Tasks/GenerateHelmApplicationFiles.cs:198 | only a four- or five-character name can be http/https; `HttpNameIgnoresCase` and `HttpNameSpelled` give the full test |
| `Names.HttpNameSpelled` | src/HelmDeploy.Sdk.Tasks/GenerateHelmApplicationFiles.cs:197-199 | a name equals `http` or `https` ignoring case if and only if it spells h-t-t-p, optionally followed by s, letter by letter in either case |
| `Names.HttpNameIsNotHost` | src/HelmDeploy.Sdk.Tasks/GenerateHelmApplicationFiles.cs:249-252 | an http/https name is never `host`, so a rule's name key and its `host` key are distinct |
| `Ports.MissingKey` | src/HelmDeploy.Sdk.Tasks/GenerateHelmApplicationFiles.cs:139-141 | an entry has a missing key exactly when it lacks `name`, `protocol` or `port`, and the key reported is one the entry lacks |
| `Ports.FirstMissingKey` | src/HelmDeploy.Sdk.Tasks/GenerateHelmApplicationFiles.cs:134-141 | no key is reported exactly when every entry has `name`, `protocol` and `port`; a reported key is the first key missing from the first incomplete entry, every earlier entry being complete |
| `Ports.PortMapping` | src/HelmDeploy.Sdk.Tasks/GenerateHelmApplicationFiles.cs:137-145 | the projected entry has keys `name`, `protocol`, the port key and `targetPort` only when the source has it; the values are copied from the source |
| `Ports.ProjectPort` | src/HelmDeploy.Sdk.Tasks/GenerateHelmApplicationFiles.cs:137-145 | the projection succeeds exactly when `name`, `protocol` and `port` are present; otherwise it fails with `KeyNotFound` of the first one missing; on success it copies the entry as above |
| `Ports.ProjectPorts` | src/HelmDeploy.Sdk.Tasks/GenerateHelmApplicationFiles.cs:134-147 | the list projection succeeds exactly when no entry misses a key, fails with the first missing key otherwise, and on success keeps length and order, entry by entry |
| `Ports.ContainerPorts` | src/HelmDeploy.Sdk.Tasks/GenerateHelmApplicationFiles.cs:134-147 | the container ports have the source list's length and order; each copies `name` and `protocol`, puts `port` under `containerPort` and has no `port` key, and has `targetPort` if and only if the source entry does; any missing required key fails with `KeyNotFound` |
| `Ports.ServicePorts` | src/HelmDeploy.Sdk.Tasks/GenerateHelmApplicationFiles.cs:173-186 | the service ports have the source list's length and order; each copies `name`, `protocol` and `port` unchanged, and has `targetPort` if and only if the source entry does |
| `Ports.NameMatches` | src/HelmDeploy.Sdk.Tasks/GenerateHelmApplicationFiles.cs:198 | the comparison succeeds exactly when `name` is a string or null; it is true exactly for http/https names; a non-string `name` fails with `RuntimeBinder` |
| `Ports.HttpPorts` | src/HelmDeploy.Sdk.Tasks/GenerateHelmApplicationFiles.cs:197-199 | the filter never keeps more ports than the list has |
| `Ports.HttpPortsSucceeds` | src/HelmDeploy.Sdk.Tasks/GenerateHelmApplicationFiles.cs:197-199 | the filter succeeds exactly when every `name` is a string or null |
| `Ports.HttpPortsError` | src/HelmDeploy.Sdk.Tasks/GenerateHelmApplicationFiles.cs:197-199 | when every entry has a `name`, a failing filter fails with `RuntimeBinder` |
| `Ports.HttpPortsMembers` | src/HelmDeploy.Sdk.Tasks/GenerateHelmApplicationFiles.cs:197-199 | the kept ports are exactly the ports of the list whose name is http or https ignoring case |
| `Ports.HttpPortsCons` | src/HelmDeploy.Sdk.Tasks/GenerateHelmApplicationFiles.cs:197-199 | a port in front of a list is kept, in front of the filtered rest, exactly when it is an http/https port |
| `Ports.HttpPortsAppend` | src/HelmDeploy.Sdk.Tasks/GenerateHelmApplicationFiles.cs:197-199 | filtering a concatenation is the concatenation of the filtered parts, so source order is preserved |
| `Ports.HttpPortsSingle` | src/HelmDeploy.Sdk.Tasks/GenerateHelmApplicationFiles.cs:197-199 | a one-port list keeps its port exactly when the port is http/https |
| `Ports.Add` | src/HelmDeploy.Sdk.Tasks/GenerateHelmApplicationFiles.cs:251 | `Dictionary.Add` succeeds exactly when the key is new, appending it last; otherwise it fails with `DuplicateKey` |
| `Ports.DictionaryKey` | src/HelmDeploy.Sdk.Tasks/GenerateHelmApplicationFiles.cs:228-229 | the dynamic `port["name"]` is a usable dictionary key exactly when it is a string, and is that string; a null name fails with `ArgumentNull`, any other value with `RuntimeBinder` |
| `Ports.PathEntry` | src/HelmDeploy.Sdk.Tasks/GenerateHelmApplicationFiles.cs:232-243 | the path entry's `path` is the port's `path` when present and `/` otherwise; its backend is `<service>-service` on the port's `port` |
| `Ports.RuleMapping` | src/HelmDeploy.Sdk.Tasks/GenerateHelmApplicationFiles.cs:226-247 | before `host` is added, a rule has the single key given and holds a one-element `paths` list |
| `Ports.IngressRule` | src/HelmDeploy.Sdk.Tasks/GenerateHelmApplicationFiles.cs:224-255 | a rule is built only from an entry with a string `name` and a `port`, and always is for an http/https port that has a `port` |
| `Ports.IngressRuleShape` | src/HelmDeploy.Sdk.Tasks/GenerateHelmApplicationFiles.cs:226-254 | the rule of an http/https port is keyed by the port's own name, holds exactly one path entry (path or `/`, backend `<service>-service` and the port's `port`) and has `host` if and only if the port has one |
| `Ports.RuleBackend` | src/HelmDeploy.Sdk.Tasks/GenerateHelmApplicationFiles.cs:239 | the backend `serviceName` read from such a rule is `<service>-service` |
| `Ports.IngressRules` | src/HelmDeploy.Sdk.Tasks/GenerateHelmApplicationFiles.cs:223-256 | the rules succeed exactly when every port's rule does, with one rule per port in the same order |
| `Charts.IngressRulesSucceed` | src/HelmDeploy.Sdk.Tasks/GenerateHelmApplicationFiles.cs:223-256 | the rules of ports filtered from complete entries never fail |
| `Charts.IngressRulesOfPorts` | src/HelmDeploy.Sdk.Tasks/GenerateHelmApplicationFiles.cs:223-256 | for ports filtered from complete entries the rules never fail, and each is the rule of its port as above |
| `Charts.ChartMetadata` | src/HelmDeploy.Sdk.Tasks/GenerateHelmApplicationFiles.cs:274-286 | a chart document has exactly the keys `apiVersion`, `name`, `version`, `description`, with `apiVersion` `v1` and `version` the application version |
| `Charts.RootChart` | src/HelmDeploy.Sdk.Tasks/GenerateHelmApplicationFiles.cs:44 | the root `Chart.yaml` has the four chart keys, the application's name and version, and the application's description |
| `Charts.ServiceDescription` | src/HelmDeploy.Sdk.Tasks/GenerateHelmApplicationFiles.cs:78 | a service chart's description is the service name between the fixed text `A Helm deployment chart for the '` and `' service.` |
| `Charts.ServiceDescriptionInjective` | src/HelmDeploy.Sdk.Tasks/GenerateHelmApplicationFiles.cs:78 | distinct services get distinct chart descriptions |
| `Charts.RepositoryPrefixValue` | src/HelmDeploy.Sdk.Tasks/GenerateHelmApplicationFiles.cs:56 | the prefix value is a string exactly when the prefix is neither null nor empty; then it is the prefix followed by one `/`; otherwise it is null |
| `Charts.ValuesDocument` | src/HelmDeploy.Sdk.Tasks/GenerateHelmApplicationFiles.cs:45-59 | `values.yaml` holds `global.application.name`/`version` from the inputs and `global.repositoryPrefix` as above, keys in source order |
| `Charts.Container` | src/HelmDeploy.Sdk.Tasks/GenerateHelmApplicationFiles.cs:127-148 | the container is named after the service, runs the templated image `<prefix><application>/<service>:<version>` with `IfNotPresent`, and lists the given ports |
| `Charts.Deployment` | src/HelmDeploy.Sdk.Tasks/GenerateHelmApplicationFiles.cs:90-155 | the deployment is `apps/v1beta2` `Deployment` `<service>-deployment` with 1 replica, the app selector and template labels, and that one container as its only container |
| `Charts.Service` | src/HelmDeploy.Sdk.Tasks/GenerateHelmApplicationFiles.cs:157-193 | the service is `v1` `Service` `<service>-service` with the given ports and selector `app` = application name |
| `Charts.Ingress` | src/HelmDeploy.Sdk.Tasks/GenerateHelmApplicationFiles.cs:203-259 | the ingress is `extensions/v1beta1` `Ingress` `<service>-ingress` with the nginx class annotation and the given rules |
| `Charts.PortsList` | src/HelmDeploy.Sdk.Tasks/GenerateHelmApplicationFiles.cs:134 | reading `ports` fails with `NullReference` for a missing document; it succeeds exactly when the document has a non-null `ports` list, which it returns |
| `Charts.CreateServiceHelmChart` | src/HelmDeploy.Sdk.Tasks/GenerateHelmApplicationFiles.cs:74-260 | a missing `Ports.yaml` fails with `NullReference`; generation succeeds exactly when `ports` is a list whose entries all have `name`, `protocol`, `port` and a string or null `name`; the chart is named by the derived service name |
| `Charts.AssembleChart` | src/HelmDeploy.Sdk.Tasks/GenerateHelmApplicationFiles.cs:201 | a service chart has an ingress exactly when at least one port was kept by the http/https filter, and is named after the service |
| `ChartProperties.MissingRequiredKeyFails` | src/HelmDeploy.Sdk.Tasks/GenerateHelmApplicationFiles.cs:139-141 | any port entry lacking `name`, `protocol` or `port` fails the service with `KeyNotFound` |
| `ChartProperties.DeploymentFollowsPorts` | src/HelmDeploy.Sdk.Tasks/GenerateHelmApplicationFiles.cs:90-155 | the generated deployment is `<service>-deployment` with 1 replica and the templated image; its container ports follow the source ports one for one, as `ContainerPorts` states |
| `ChartProperties.ServiceFollowsPorts` | src/HelmDeploy.Sdk.Tasks/GenerateHelmApplicationFiles.cs:157-193 | the generated service is `<service>-service` and selects `app` = application name; its ports follow the source ports one for one, as `ServicePorts` states |
| `ChartProperties.IngressIffHttpPort` | src/HelmDeploy.Sdk.Tasks/GenerateHelmApplicationFiles.cs:195-203 | an ingress manifest is generated if and only if some port's name is http or https ignoring case |
| `ChartProperties.GeneratedIngress` | src/HelmDeploy.Sdk.Tasks/GenerateHelmApplicationFiles.cs:195-259 | a generated ingress is `<service>-ingress`, built from the rules of the http/https ports |
| `ChartProperties.RulesFollowHttpPorts` | src/HelmDeploy.Sdk.Tasks/GenerateHelmApplicationFiles.cs:197-256 | the rules built from the kept ports of complete entries number one per kept port, in order, each shaped as `IngressRuleShape` states |
| `ChartProperties.IngressRulesFollowHttpPorts` | src/HelmDeploy.Sdk.Tasks/GenerateHelmApplicationFiles.cs:203-259 | the generated ingress holds one rule per http/https port, in the ports' order, each shaped as `IngressRuleShape` states; `HttpPortsMembers` says those are exactly the http/https ports |
| `ChartProperties.BackendIsTheService` | src/HelmDeploy.Sdk.Tasks/GenerateHelmApplicationFiles.cs:239 | every ingress rule's backend `serviceName` equals the generated service's `metadata.name` |
| `ChartProperties.ChartsShareMetadata` | src/HelmDeploy.Sdk.Tasks/GenerateHelmApplicationFiles.cs:274-286 | a service chart has the root chart's keys, `apiVersion` `v1` and application version, the service name and the description `A Helm deployment chart for the '<service>' service.` |

## Left out

- `Execute`'s loop over the project references, and all file-system work. That
  covers creating directories, deleting and rewriting files, and
  `.helmignore`. These steps only sequence the builders and write their output.
  The model gives each service's manifests as a value and does not capture
  which files already exist when a later service fails.
- The YamlDotNet serializer and deserializer. A loaded `Ports.yaml` is an input
  of the model: `None` for the null `LoadYamlFile` returns, otherwise a map of
  top-level keys to port lists. Scalar values (`port`, `path`, `host`,
  `targetPort`) are opaque `Value`s. Whether the serializer writes a null
  `repositoryPrefix` is the codec's business.
- A null item inside the `ports` list (a bare `-`). The model's port entries are
  never null, so the `NullReference` such an item would raise is not modelled.
- The MSBuild `Task`/`ITaskItem` plumbing and the extraction of the directory
  name from the project path. The directory name is a plain string input.
- Culture-specific and non-ASCII case rules of `ToLowerInvariant` and
  `InvariantCultureIgnoreCase`. Only `A`-`Z` are folded.
- The `{{ .Values... }}` placeholders. They are literal strings here.
- When an exception surfaces. `Select` is lazy, so in the task it is raised
  while a manifest is being serialized. The model records only that generation
  of the service fails, and with which exception.
- The `config.yaml` scheme (`service:` block, `replicaCount`, ingress
  sub-blocks, `targetPort` cross-references). This revision of the code does
  not have it.

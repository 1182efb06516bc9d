# synopsys-operator: the deterministic core, in Dafny

This project models the parts of the synopsys-operator that turn a product
configuration into deployable objects and tool arguments. Each part has a proof
of what it produces.

- **Polaris command-line flags** (`pkg/polaris/ctl_polaris.go`):
  - the FQDN and e-mail validators;
  - the cross-field check that collects one error line per failing check;
  - the translation of every changed flag into a nested Helm chart values map.
- **Helm 3 helpers** (`pkg/util/helm_helpers.go`):
  - the `command args --set k=v ...` argument builder;
  - the version parser for `helm version --short`;
  - the gate that refuses to run Helm unless its major version is 3.
- **synopsysctl get** (`pkg/synopsysctl/cmd_get.go`):
  - the kubectl `get` command builder;
  - the argument-count checks of the masterkey and polaris commands;
  - the master-key file name and the upload-cache host.
- **Polaris provisioning** (`pkg/polaris/polarisProvisionMutator.go`):
  - the fifteen placeholder substitutions applied to the fetched template;
  - the registry rewrite;
  - the forced Coverity license secret.
- **Object builders**. Each one is proved to agree on names, labels, ports and volumes:
  - the hydra perceptor's container, replication controller and service;
  - the Black Duck webapp/logstash deployment with its volumes and mounts;
  - the postgres replication-controller description;
  - the OpenShift route.
- **Small checks and folds**:
  - the cluster-type check (`pkg/synopsysctl/helpers.go`);
  - the fold that collects the pods that are not running, for the hub status (`pkg/hub/plugins/hubstatus_updater.go`).

## Layout

- One module per source file:
  - `PolarisValidation`, `PolarisFlags` and `PolarisFlagsLemmas`;
  - `HelmHelpers`, `CmdGet` and `PolarisProvisionMutator`;
  - `HydraPerceptor`, `WebappLogstash`, `PostgresRcV1` and `BlackDuckRoute`;
  - `ClusterType` and `HubStatus`.
- Shared modules:
  - `Basics`: `Option` and `Result`.
  - `Strings`: the Go string functions used, on ASCII text. These are `ToUpper`, `strings.EqualFold`, `Split`/`Join`, `ReplaceAll`, `strconv.Atoi`/`Itoa` and `ParseBool`.
  - `HelmValues`: the nested chart-values map and `util.SetHelmValueInMap`.
  - `BlackDuck`: the custom resource fields the Black Duck builders read.

Where the source mutates state, the model does too:
- `HelmValuesFromCobraFlags` is a class whose methods update its `args` map.
- The builders that grow lists step by step are methods. Each method is proved equal to a specification function:
  - `genHelm3Args` and `generateKubectlGetCommand`;
  - the placeholder substitutions;
  - the webapp volumes, mounts and deployment;
  - the hub-status loop.
- The properties are lemmas about those functions.

Calls into code that is not part of this model become inputs:
- process execution and file reads;
- the template fetch and the YAML parser;
- `GetResourceName`, `GetLabel` and the other helpers.

They appear as function-typed parameters or fields of a context record, such as `Creater` or `Helpers`.

## Model

| member | source | states |
|---|---|---|
| PolarisValidation.ValidateFqdnCorrect | pkg/polaris/ctl_polaris.go:198-201 | validateFQDN accepts exactly the language of `^[a-z0-9\-]+([.][a-z0-9\-]+)*\.[a-z]+$`: two or more non-empty dot-separated labels over `[a-z0-9-]`, the last over `[a-z]` only |
| PolarisValidation.ValidateFqdnCharset | pkg/polaris/ctl_polaris.go:198-201 | an accepted FQDN has at least 3 characters, all from `[a-z0-9.-]` (so upper case and the empty string are rejected) |
| PolarisValidation.ValidateEmailCorrect | pkg/polaris/ctl_polaris.go:193-196 | validateEmail accepts exactly `local@domain.tld` with a non-empty local part over `[a-zA-Z0-9._%+-]`, a domain over `[a-z0-9.-]`, a tld over `[a-z]` |
| PolarisValidation.ValidateEmailAccepts | pkg/polaris/ctl_polaris.go:193-196 | every well-formed `local@domain.tld` is accepted |
| PolarisFlags.Lookup | pkg/polaris/ctl_polaris.go:162 | FlagSet.Lookup returns a registered flag of that name, or none exists |
| PolarisFlags.MessageAppend | pkg/polaris/ctl_polaris.go:159-185 | the error message of two runs of failures is the concatenation of their messages |
| PolarisFlags.FailuresMessage | pkg/polaris/ctl_polaris.go:159-185 | the accumulated message is the FQDN line, the postgres-host line, the postgres-username line, the e-mail line and the port line, each present only when its check fails |
| PolarisFlags.MessageEmptyIff | pkg/polaris/ctl_polaris.go:187-190 | the message is non-empty exactly when some check failed, so an error is returned exactly then |
| PolarisFlags.ErrorOf | pkg/polaris/ctl_polaris.go:187-190 | the final `len(errMessage) > 0` test returns the message as the error, or nil |
| PolarisFlags.KindOfCaseName | pkg/polaris/ctl_polaris.go:221-312 | each case of the switch is selected by exactly its own flag name; every other name goes to the default case |
| PolarisFlags.ActionForWellFormed | pkg/polaris/ctl_polaris.go:218-316 | every write of a flag is to a non-empty key path |
| PolarisFlags.HelmValuesFromCobraFlags.CheckValuesFromFlags | pkg/polaris/ctl_polaris.go:158-191 | returns the error of the five checks run in source order on the bound flag texts (ErrorFor(Failures)) |
| PolarisFlags.HelmValuesFromCobraFlags.AddHelmValueByCobraFlag | pkg/polaris/ctl_polaris.go:218-316 | an unchanged flag writes nothing; a changed flag applies its case's writes to args, or ends the process (log.Fatalf) with nothing written |
| PolarisFlags.HelmValuesFromCobraFlags.SwitchOnName | pkg/polaris/ctl_polaris.go:221-312 | each case writes its values at its key paths in order, or aborts for an unreadable file or an enum value outside its constants |
| PolarisFlags.HelmValuesFromCobraFlags.Put | pkg/polaris/ctl_polaris.go:223 | util.SetHelmValueInMap: args becomes args with the value stored at the path |
| PolarisFlags.HelmValuesFromCobraFlags.GenerateHelmFlagsFromCobraFlags | pkg/polaris/ctl_polaris.go:205-214 | a failed check returns the error and leaves args untouched; otherwise global is set and every flag is visited, and the returned values are args |
| PolarisFlags.HelmValuesFromCobraFlags.VisitFlags | pkg/polaris/ctl_polaris.go:211 | flagset.VisitAll: the flags are applied in order, stopping at the first that ends the process |
| PolarisFlagsLemmas.PostgresRequiredIff | pkg/polaris/ctl_polaris.go:167-174 | postgres-host (resp. postgres-username) is reported missing iff enable-postgres-container reads exactly "false" and that flag was not changed |
| PolarisFlagsLemmas.PortRejectedIff | pkg/polaris/ctl_polaris.go:181-185 | the smtp-port check rejects exactly the ports outside 1..65535, reporting the port's value |
| PolarisFlagsLemmas.NonNumericPortRejected | pkg/polaris/ctl_polaris.go:181-185 | text that does not start with a number reads as 0 and is rejected as port 0 |
| PolarisFlagsLemmas.CheckFailsIff | pkg/polaris/ctl_polaris.go:158-191 | an error is returned iff the FQDN is invalid, or postgres is external without host or user, or the sender e-mail is invalid, or the port is out of range |
| PolarisFlagsLemmas.FailuresOrdered | pkg/polaris/ctl_polaris.go:158-185 | the failures come in the order FQDN, postgres-host, postgres-username, e-mail, port, each at most once |
| PolarisFlagsLemmas.CheckMessageLines | pkg/polaris/ctl_polaris.go:158-191 | the error message holds exactly one newline per failing check |
| PolarisFlagsLemmas.GenerateRejectedIff | pkg/polaris/ctl_polaris.go:205-209 | GenerateHelmFlagsFromCobraFlags fails iff a check fails, and then returns that check's error |
| PolarisFlagsLemmas.UnchangedOrUnknownIgnored | pkg/polaris/ctl_polaris.go:219-315 | an unchanged flag, or one whose name has no case, writes nothing |
| PolarisFlagsLemmas.VisitAllIgnored | pkg/polaris/ctl_polaris.go:211-219 | visiting only unchanged or unknown flags leaves the values as they were |
| PolarisFlagsLemmas.VisitAllKeeps | pkg/polaris/ctl_polaris.go:211 | a completed visit leaves every path untouched that no flag's write reaches |
| PolarisFlagsLemmas.GeneratedKeepsEnvironment | pkg/polaris/ctl_polaris.go:210-223 | every successful run reports global.environment = onprem, since no flag overwrites it |
| PolarisFlagsLemmas.GenerateNothingChanged | pkg/polaris/ctl_polaris.go:205-214 | with passing checks and no changed flag, the result is the input values with only global set |
| PolarisFlagsLemmas.SkipTlsVerifyInverted | pkg/polaris/ctl_polaris.go:279-281 | insecure-skip-smtp-tls-verify=b writes tls_check_server_identity = !b, where b is ParseBool with its error dropped |
| PolarisFlagsLemmas.PostgresContainerInverted | pkg/polaris/ctl_polaris.go:282-284 | enable-postgres-container=b writes postgres.isExternal = !b |
| PolarisFlagsLemmas.ZeroSpellingSkipsHostCheck | pkg/polaris/ctl_polaris.go:167-284 | with enable-postgres-container "0" the host check is skipped, yet postgres is still written as external |
| PolarisFlagsLemmas.TlsModeEnum | pkg/polaris/ctl_polaris.go:262-276 | smtp-tls-mode is stored as given when it is disable, try-starttls, require-starttls or require-tls, and ends the process otherwise |
| PolarisFlagsLemmas.SslModeEnum | pkg/polaris/ctl_polaris.go:295-309 | postgres-ssl-mode is stored as given when it is disable or require, and ends the process otherwise |
| PolarisFlagsLemmas.FilePathsMustBeReadable | pkg/polaris/ctl_polaris.go:224-235 | a file path flag ends the process exactly when its file cannot be read |
| PolarisFlagsLemmas.StorageClassWritesThree | pkg/polaris/ctl_polaris.go:240-243 | storage-class writes the same class at the postgres, eventstore and report-storage paths |
| PolarisFlagsLemmas.SizesUseEventstoreSize | pkg/polaris/ctl_polaris.go:246-249 | upload-download-server-size and mongodb-size store the eventstore size and never read their own values |
| PolarisFlagsLemmas.PortsStoredAsDecimal | pkg/polaris/ctl_polaris.go:254-255 | the smtp-port flag stores the decimal text of the port, which parses back to the same number |
| PolarisFlagsLemmas.PostgresPortStoredAsDecimal | pkg/polaris/ctl_polaris.go:287-288 | the postgres-port flag stores the decimal text of the port, which parses back to the same number |
| HelmValues.GetSetSame | pkg/polaris/ctl_polaris.go:223 | reading back a path just written gives the value written |
| HelmValues.GetSetOther | pkg/polaris/ctl_polaris.go:223 | a write leaves every path that branches away from it unchanged |
| HelmValues.GetSetPathsOther | pkg/polaris/ctl_polaris.go:240-243 | a run of writes leaves every path unchanged that branches away from all of them |
| HelmValues.GetSetPathsLast | pkg/polaris/ctl_polaris.go:240-243 | after a run of writes, the last path reads back its value |
| HelmHelpers.GenHelm3Args | pkg/util/helm_helpers.go:53-60 | the result is the command, then args, then `--set name=value` for each map entry in an enumeration of the map that holds every entry once; its length is 1 + \|args\| + 2·\|map\| and every entry's `name=value` follows the args |
| HelmHelpers.SetFlagsAt | pkg/util/helm_helpers.go:55-57 | element 2i of the `--set` list is "--set" and element 2i+1 is the i-th `name=value` |
| HelmHelpers.GenHelm3ArgsLayout | pkg/util/helm_helpers.go:53-60 | the length is 1 + \|args\| + 2·\|map\|; the result starts with the command, then args in order, then the "--set", `name=value` pairs |
| HelmHelpers.GenHelm3ArgsOrderIrrelevant | pkg/util/helm_helpers.go:55 | any two map iteration orders give the same multiset of arguments and of assignments |
| HelmHelpers.EnumerationsPermute | pkg/util/helm_helpers.go:55 | any two iteration orders of a map are permutations of each other |
| HelmHelpers.FindFrom | pkg/util/helm_helpers.go:110-112 | finds the leftmost position at which `v[0-9]\.[0-9]\.[0-9]\+[0-9a-z]+` matches |
| HelmHelpers.ValidateHelmVersion | pkg/util/helm_helpers.go:109-117 | succeeds iff the expression matches somewhere; returns the digit after `v` at the leftmost match; otherwise returns the "invalid 'helm version --short' output" error |
| HelmHelpers.ValidateHelmVersionDigit | pkg/util/helm_helpers.go:110 | the returned major is a single decimal digit |
| HelmHelpers.ValidateHelmVersionExample | pkg/util/helm_helpers.go:109-117 | "v3.2.1+gfe51cd1" gives "3"; text around the version does not matter |
| HelmHelpers.TwoDigitMinorRejected | pkg/util/helm_helpers.go:110 | a version with a two-digit minor (v3.10.0) is rejected |
| HelmHelpers.HelmIsInPath | pkg/util/helm_helpers.go:82-89 | true when the lookup succeeds, its error otherwise |
| HelmHelpers.HelmIsV3 | pkg/util/helm_helpers.go:91-106 | succeeds (with true) only when the command ran and the parsed major is "3"; otherwise an error |
| HelmHelpers.HelmV3Exists | pkg/util/helm_helpers.go:62-80 | true exactly when helm is in PATH, the version command ran and the major is "3" |
| HelmHelpers.HelmV3ExistsNeverFalse | pkg/util/helm_helpers.go:62-80 | HelmV3Exists never answers (false, nil): every refusal is an error |
| HelmHelpers.RunHelm3 | pkg/util/helm_helpers.go:34-50 | fails closed: helm runs only when HelmV3Exists is (true, nil), and then with the genHelm3Args arguments; the result is the output and the wrapped error |
| CmdGet.GenerateKubectlGetCommand | pkg/synopsysctl/cmd_get.go:47-67 | the successive appends build `get resource [-n ns] args [-o fmt] [-l sel] [--all-namespaces]` (GetCommand) |
| CmdGet.KubectlGetLayout | pkg/synopsysctl/cmd_get.go:47-67 | the command starts with get and the resource; `-n ns` follows directly iff the namespace is set; the args follow unchanged and in order; the optional flags come last |
| CmdGet.OptionalFlagsOrder | pkg/synopsysctl/cmd_get.go:55-65 | after the args come -o fmt iff a format is set, then -l sel iff a selector is set, then the all-namespaces flag iff it is set |
| CmdGet.KubectlGetPlain | pkg/synopsysctl/cmd_get.go:47-67 | with no flag set the command is `get resource args` |
| CmdGet.MasterKeyArgs | pkg/synopsysctl/cmd_get.go:129-135 | accepts exactly two arguments; otherwise "this command takes 2 arguments" |
| CmdGet.PolarisArgs | pkg/synopsysctl/cmd_get.go:215-222 | accepts exactly zero arguments with the namespace flag changed; the count error comes before the namespace error |
| CmdGet.UploadCacheHost | pkg/synopsysctl/cmd_get.go:165-168 | the derived name when the version check succeeds and is true; "uploadcache" when it is false or fails |
| CmdGet.MasterKeyFileNameBase | pkg/synopsysctl/cmd_get.go:175 | the key file's base name is `<namespace>-<name>.key` |
| CmdGet.MasterKeyFileNameInDirectory | pkg/synopsysctl/cmd_get.go:175 | for a plain directory name the file is `dir/<namespace>-<name>.key` |
| CmdGet.CleanPlainFile | pkg/synopsysctl/cmd_get.go:175 | filepath.Clean keeps an ordinary last element last |
| PolarisProvisionMutator.Substitutions | pkg/polaris/polarisProvisionMutator.go:38-52 | the fifteen (placeholder, value) pairs in source order |
| PolarisProvisionMutator.SubstitutePlaceholders | pkg/polaris/polarisProvisionMutator.go:37-52 | the fifteen ReplaceAll steps, each applied to the output of the previous one (ReplaceEach of the substitutions) |
| PolarisProvisionMutator.ReplaceEachAppend | pkg/polaris/polarisProvisionMutator.go:38-52 | substituting a list in two parts is substituting the first part and then the second |
| PolarisProvisionMutator.ReplaceEachAbsent | pkg/polaris/polarisProvisionMutator.go:38-52 | substitutions whose patterns do not occur leave the text unchanged |
| PolarisProvisionMutator.NoDollarUnchanged | pkg/polaris/polarisProvisionMutator.go:38-52 | text without '$' survives every substitution |
| PolarisProvisionMutator.RewriteRepository | pkg/polaris/polarisProvisionMutator.go:54-56 | with an empty repository, or no staging registry in the text, the content is unchanged |
| PolarisProvisionMutator.WithLicense | pkg/polaris/polarisProvisionMutator.go:58-76 | the result holds the license secret under "Secret.coverity-license", replacing any parsed object of that key, and keeps every other key |
| PolarisProvisionMutator.GetPolarisProvisionComponents | pkg/polaris/polarisProvisionMutator.go:31-79 | a failed fetch returns no map and that error; otherwise the rendered template, parsed, with the license secret added |
| PolarisProvisionMutator.LicenseSecretForced | pkg/polaris/polarisProvisionMutator.go:60-76 | the forced entry is an Opaque secret named coverity-license in the namespace, labelled environment=namespace, with data license = the Coverity license |
| PolarisProvisionMutator.PlainTemplateUnchanged | pkg/polaris/polarisProvisionMutator.go:37-56 | a template without placeholders or the staging registry is parsed exactly as fetched |
| PolarisProvisionMutator.NoRepositoryNoRewrite | pkg/polaris/polarisProvisionMutator.go:54-56 | without a repository the rendering is the substitutions alone |
| PolarisProvisionMutator.RenderedPlaceholder | pkg/polaris/polarisProvisionMutator.go:38-52 | a placeholder that holds no earlier placeholder renders to its own value |
| PolarisProvisionMutator.NamespaceAndDomainRendered | pkg/polaris/polarisProvisionMutator.go:38-40 | `${NAMESPACE}` and `${ENVIRONMENT_NAME}` both become the namespace; `${POLARIS_ROOT_DOMAIN}` becomes the environment DNS |
| HydraPerceptor.NewPerceptor | contrib/hydra/pkg/model/perceptor.go:77-100 | copies the service name and the secret name and key from its arguments |
| HydraPerceptor.NewPerceptorDefaults | contrib/hydra/pkg/model/perceptor.go:88-99 | PodName "perceptor", ReplicaCount 1, ConfigMapName "perceptor-config", no hub configured |
| HydraPerceptor.FullConfigMapPath | contrib/hydra/pkg/model/perceptor.go:102-104 | the path is the mount, then '/', then the file name, each part in place |
| HydraPerceptor.DefaultConfigPath | contrib/hydra/pkg/model/perceptor.go:92-104 | with the defaults the path is /etc/perceptor/perceptor_conf.yaml |
| HydraPerceptor.PerceptorContainer | contrib/hydra/pkg/model/perceptor.go:106-144 | the container is named perceptor and runs the configured image |
| HydraPerceptor.PerceptorReplicationController | contrib/hydra/pkg/model/perceptor.go:146-168 | the pod template runs exactly the perceptor container |
| HydraPerceptor.PerceptorService | contrib/hydra/pkg/model/perceptor.go:170-183 | the service is named after the service name |
| HydraPerceptor.CommandReadsMountedFile | contrib/hydra/pkg/model/perceptor.go:124-142 | the command is `./perceptor <FullConfigMapPath>`, a file under the only mount, which is named after the config map |
| HydraPerceptor.MountsResolve | contrib/hydra/pkg/model/perceptor.go:137-164 | the container's mount names the controller's only volume, which refers to the config map |
| HydraPerceptor.SelectorsAgree | contrib/hydra/pkg/model/perceptor.go:151-182 | the controller selector, the pod labels and the service selector are all {name: PodName}, so both select the pods |
| HydraPerceptor.PortsAgree | contrib/hydra/pkg/model/perceptor.go:126-180 | the container port and the service port are both Config.Port |
| HydraPerceptor.PasswordFromSecret | contrib/hydra/pkg/model/perceptor.go:112-121 | the hub password variable reads the configured secret at the configured key |
| HydraPerceptor.ControllerNameAndReplicas | contrib/hydra/pkg/model/perceptor.go:148-150 | the controller is named PodName and runs ReplicaCount replicas |
| HydraPerceptor.NewPerceptorDeployment | contrib/hydra/pkg/model/perceptor.go:77-183 | a fresh perceptor with a hub is one replica named perceptor, selected by its service |
| WebappLogstash.DataVolume | pkg/apps/blackduck/latest/containers/webapplogstash.go:116-127 | keeps the same name either way; backed by a claim iff storage is persistent, by an empty dir otherwise |
| WebappLogstash.GetWebappLogtashVolumes | pkg/apps/blackduck/latest/containers/webapplogstash.go:113-136 | the volumes are webapp-security, webapp, logstash and db secret, plus the proxy volume last iff a proxy certificate is set |
| WebappLogstash.GetLogstashVolumeMounts | pkg/apps/blackduck/latest/containers/webapplogstash.go:139-144 | the single dir-logstash mount |
| WebappLogstash.GetWebappVolumeMounts | pkg/apps/blackduck/latest/containers/webapplogstash.go:147-166 | the five fixed mounts in order, plus the proxy-certificate mount last iff a certificate is set |
| WebappLogstash.GetWebappLogstashDeployment | pkg/apps/blackduck/latest/containers/webapplogstash.go:34-110 | two containers, webapp then logstash, with their images, memory min = max from the flavor, envs, ports and mounts; liveness probes iff enabled; the pod's volumes; pull secrets only with a non-empty registry list; labels and service account |
| WebappLogstash.FixedMountNames | pkg/apps/blackduck/latest/containers/webapplogstash.go:148-154 | the fixed mounts name db-passwords twice, then dir-webapp, dir-webapp-security and dir-logstash |
| WebappLogstash.DirectoryMountsResolve | pkg/apps/blackduck/latest/containers/webapplogstash.go:114-153 | dir-webapp, dir-webapp-security and dir-logstash are names of volumes of the pod |
| WebappLogstash.AllMountsResolve | pkg/apps/blackduck/latest/containers/webapplogstash.go:113-166 | every webapp and logstash mount names a pod volume, given the db-secret and proxy volume names |
| WebappLogstash.DataVolumeNamesStable | pkg/apps/blackduck/latest/containers/webapplogstash.go:116-127 | switching persistence changes the data volumes' sources, not their names |
| PostgresRcV1.GetRc | pkg/apps/blackduck/components/rc/postgres/v1/component.go:32-68 | fails iff the postgres container has no configuration, with "couldn't find container <name>" |
| PostgresRcV1.PvcOnlyWhenPersistent | pkg/apps/blackduck/components/rc/postgres/v1/component.go:40-43 | the claim name is empty unless storage is persistent, and is then the helper's PVC name |
| PostgresRcV1.SizesFromContainer | pkg/apps/blackduck/components/rc/postgres/v1/component.go:50-54 | the image and the CPU and memory bounds come from the looked-up container configuration |
| PostgresRcV1.FixedSettings | pkg/apps/blackduck/components/rc/postgres/v1/component.go:45-61 | port 5432, database and user "blackduck", 300 connections, 1024 MB shared buffer, the instance's namespace |
| PostgresRcV1.NewBdReplicationController | pkg/apps/blackduck/components/rc/postgres/v1/component.go:71-77 | succeeds iff the custom resource is a Blackduck, keeping its arguments; otherwise the cast error |
| PostgresRcV1.Init | pkg/apps/blackduck/components/rc/postgres/v1/component.go:27-29 | the store gains the component key, bound to the postgres builder, and every other key keeps its builder |
| PostgresRcV1.RegisteredBuilder | pkg/apps/blackduck/components/rc/postgres/v1/component.go:27-29 | the builder stored under BlackDuckPostgresRCV1 is NewBdReplicationController |
| BlackDuckRoute.GetOpenShiftRoute | pkg/apps/blackduck/v2/containers/route.go:34-47 | a route exists iff the upper-cased expose type is OPENSHIFT |
| BlackDuckRoute.RouteCaseInsensitive | pkg/apps/blackduck/v2/containers/route.go:35 | two expose types that differ only in case give the same answer |
| BlackDuckRoute.RouteTargetsWebserver | pkg/apps/blackduck/v2/containers/route.go:36-44 | the route targets Service <webserver name> on port-443 with TLS passthrough, in the instance's namespace, with the route labels |
| BlackDuckRoute.NoRouteOtherwise | pkg/apps/blackduck/v2/containers/route.go:35-46 | NODEPORT, LOADBALANCER, NONE and the empty type get no route |
| ClusterType.VerifyClusterType | pkg/synopsysctl/helpers.go:31-36 | the error, when there is one, is "invalid cluster type '<input>'" |
| ClusterType.AcceptedIff | pkg/synopsysctl/helpers.go:32-33 | accepted iff the input equals KUBERNETES or OPENSHIFT ignoring case |
| ClusterType.CaseInsensitive | pkg/synopsysctl/helpers.go:32 | every case variant of an input gets the same answer |
| ClusterType.ExactlyTwoUpperCaseValues | pkg/synopsysctl/helpers.go:32-40 | among upper-case inputs exactly KUBERNETES and OPENSHIFT are accepted |
| ClusterType.ErrorQuotesInput | pkg/synopsysctl/helpers.go:35 | the error message contains the input, between quotes |
| HubStatus.Update | pkg/hub/plugins/hubstatus_updater.go:51-68 | the nested loops issue the state updates UpdatesFor describes, one per down hub, in hub order |
| HubStatus.NotRunningKeys | pkg/hub/plugins/hubstatus_updater.go:56-60 | a pod name is collected iff some pod of that name is not Running |
| HubStatus.NotRunningValues | pkg/hub/plugins/hubstatus_updater.go:57-58 | every collected phase is a phase of a pod of that name, and never Running |
| HubStatus.NotRunningPhase | pkg/hub/plugins/hubstatus_updater.go:56-60 | with distinct pod names, each pod that is not running is collected with its own phase |
| HubStatus.UpdatesAreForDownHubs | pkg/hub/plugins/hubstatus_updater.go:63-66 | every update is for a listed hub, has a non-empty map and no Running entry |
| HubStatus.AllRunningNoUpdates | pkg/hub/plugins/hubstatus_updater.go:57-63 | when every pod is running no hub is updated |
| HubStatus.NoCarryOver | pkg/hub/plugins/hubstatus_updater.go:53-55 | each hub's map starts empty: a hub's update depends on its own pod listing only |
| HubStatus.UpdateCount | pkg/hub/plugins/hubstatus_updater.go:63-66 | there is one update per hub that saw a pod not running |
| HubStatus.OnePodDownReportsEveryHub | pkg/hub/plugins/hubstatus_updater.go:52-54 | pods are listed in every namespace, so one pod down anywhere is reported against every hub |
| Strings.AtoiIntToString | pkg/polaris/ctl_polaris.go:182 | strconv.Atoi reads back the decimal text of every int64 |
| Strings.ToUpperEqualIff | pkg/apps/blackduck/v2/containers/route.go:35 | two strings upper-case to the same text iff they differ only in letter case |
| Strings.SplitJoin | pkg/synopsysctl/cmd_get.go:175 | splitting separator-free parts joined by the separator gives the parts back |

## Left out

- Process execution, cluster calls and file I/O are not modelled: `exec.LookPath`, `helm version --short`, running helm, `GetSecret`, `GetConfigMap`, `ExecContainer`, `WriteFile` and `ReadFileData`. Their outcomes are parameters: a lookup error, a process result, a `readable` predicate.
- The template fetch (`GetBaseYaml`) and the YAML parser (`ConvertYamlFileToRuntimeObjects`) are function parameters. Parsed objects are kept as their YAML text.
- Helpers of other packages are opaque function fields or parameters: `GetResourceName`, `GetLabel`, `GetVersionLabel`, `getPVCName`, `getDBSecretVolume`, `getProxyVolume`, the env getters, `IsVersionGreaterThanOrEqualTo`, `Int32ToInt` and the postgres container name.
- `CreateDeploymentFromContainer`, `ConfigurePodConfigSecurityContext` and the node affinity configs are not modelled. The deployment is described by what is handed to `CreateDeploymentFromContainer`.
- `GetWebAppService` and `GetLogStashService` only forward literals to `util.CreateService`, which is not part of this model.
- `GetPostgresReplicationController` and the `store.Register` internals are not part of this model. The postgres description handed to it is modelled, and the store is a map.
- The perceptor's `ConfigMap` and `MakeConfigMap` build a YAML config map through a serializer that is not part of this model.
- `resource.ParseQuantity` is not modelled. Quantities are kept as their text, and the panic on malformed text is not modelled.
- HydraPerceptor.PerceptorContainer: requires a hub configuration. The Go code dereferences `Config.Hub` and panics when it is nil.
- `HubStatusUpdater.Run`, the informer loop, is not modelled. The pod listing of each hub is a parameter, and listing errors are dropped as the source drops them.
- HubStatus.Update: the log line and the `%v` text of the collected map in the state-update error are not modelled. The update records the map itself.
- Go map iteration order is not modelled. `genHelm3Args` picks the next entry nondeterministically, and its properties are stated over every enumeration and over multisets.
- `filepath.Join` and `filepath.Clean` are modelled lexically, with '/' as the only separator and no volume names.
- HelmValues.SetPath: `util.SetHelmValueInMap` is not part of this model; the model replaces an existing non-map value on the path with a fresh map, a case no flag path of this model reaches.
- Case folding is ASCII only: `strings.ToUpper` and `strings.EqualFold` leave non-ASCII letters alone in this model.
- Several constants are taken from the help texts because their definitions are not part of this model:
  - `clusterTypeKubernetes` / `clusterTypeOpenshift` as "KUBERNETES" / "OPENSHIFT";
  - `util.OPENSHIFT` as "OPENSHIFT";
  - the SMTP TLS and Postgres SSL mode constants;
  - `allNamespacesFlag` as "--all-namespaces";
  - the route's TLS termination as "passthrough".
  No proof depends on the text of `allNamespacesFlag`.
- `log.Fatalf` ends the process. It is modelled as an abort outcome that carries the reason and returns no values.
- Flag registration, help texts, the cobra wiring and logging are not modelled. The protoform installer's `deployer.go` is not modelled either.
- The Coverity license data is kept as text; its conversion to bytes is not modelled.

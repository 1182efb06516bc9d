/**
 * The perceptor model of hydra, contrib/hydra/pkg/model/perceptor.go: a
 * Perceptor value and the Kubernetes objects built from it (container,
 * replication controller, service), which must agree on names, labels,
 * ports, the mounted config map and the password secret.
 */
module HydraPerceptor {
  import opened Basics

  /** Go's int32. */
  newtype int32 = x: int | -0x8000_0000 <= x < 0x8000_0000

  datatype PerceptorHubConfig = PerceptorHubConfig(
    host: string,
    user: string,
    passwordEnvVar: string,
    clientTimeoutMilliseconds: int,
    port: int,
    concurrentScanLimit: int,
    totalScanLimit: int)

  datatype PerceptorTimingsConfig = PerceptorTimingsConfig(
    checkForStalledScansPauseHours: int,
    stalledScanClientTimeoutHours: int,
    modelMetricsPauseSeconds: int,
    unknownImagePauseMilliseconds: int,
    pruneOrphanedImagesPauseMinutes: int)

  /** The configuration file's contents; the two pointers are None when nil. */
  datatype PerceptorConfigMap = PerceptorConfigMap(
    hub: Option<PerceptorHubConfig>,
    timings: Option<PerceptorTimingsConfig>,
    pruneOrphanedImagesPauseMinutes: int,
    useMockMode: bool,
    port: int32,
    logLevel: string)

  /** Go's zero value of PerceptorConfigMap. */
  const ZeroConfig: PerceptorConfigMap := PerceptorConfigMap(None, None, 0, false, 0, "")

  /** A resource quantity, kept as the text it was parsed from. */
  type Quantity = string

  datatype Perceptor = Perceptor(
    podName: string,
    image: string,
    cpu: Quantity,
    memory: Quantity,
    configMapName: string,
    configMapMount: string,
    configMapPath: string,
    config: PerceptorConfigMap,
    hubPasswordSecretName: string,
    hubPasswordSecretKey: string,
    replicaCount: int32,
    serviceName: string)

  // Kubernetes objects, reduced to the fields the builders set.

  datatype SecretKeySelector = SecretKeySelector(name: string, key: string)
  datatype EnvVar = EnvVar(name: string, secretKeyRef: SecretKeySelector)
  datatype ContainerPort = ContainerPort(containerPort: int32, protocol: string)
  datatype VolumeMount = VolumeMount(name: string, mountPath: string)
  datatype Container = Container(
    name: string,
    image: string,
    imagePullPolicy: string,
    env: seq<EnvVar>,
    command: seq<string>,
    ports: seq<ContainerPort>,
    requests: map<string, Quantity>,
    volumeMounts: seq<VolumeMount>)
  /** A volume whose source is a config map. */
  datatype Volume = Volume(name: string, configMapName: string)
  datatype PodTemplate = PodTemplate(labels: map<string, string>, volumes: seq<Volume>, containers: seq<Container>)
  datatype ReplicationController = ReplicationController(
    name: string, replicas: int32, selector: map<string, string>, template: PodTemplate)
  datatype ServicePort = ServicePort(name: string, port: int32)
  datatype Service = Service(name: string, ports: seq<ServicePort>, selector: map<string, string>)

  /** NewPerceptor: the fixed defaults, with the service and secret names from the caller and a zero configuration. */
  function NewPerceptor(serviceName: string, hubPasswordSecretName: string, hubPasswordSecretKey: string): (pc: Perceptor)
    ensures pc.serviceName == serviceName
    ensures pc.hubPasswordSecretName == hubPasswordSecretName && pc.hubPasswordSecretKey == hubPasswordSecretKey
  {
    Perceptor(
      "perceptor",
      "gcr.io/gke-verification/blackducksoftware/perceptor:master",
      "100m",
      "512Mi",
      "perceptor-config",
      "/etc/perceptor",
      "perceptor_conf.yaml",
      ZeroConfig,
      hubPasswordSecretName,
      hubPasswordSecretKey,
      1,
      serviceName)
  }

  /** The path of the configuration file inside the container. */
  function FullConfigMapPath(pc: Perceptor): (path: string)
    ensures |path| == |pc.configMapMount| + 1 + |pc.configMapPath|
    ensures path[..|pc.configMapMount| + 1] == pc.configMapMount + "/"
    ensures path[|pc.configMapMount| + 1..] == pc.configMapPath
  {
    pc.configMapMount + "/" + pc.configMapPath
  }

  /** Container; it reads Config.Hub, which must therefore be set. */
  function PerceptorContainer(pc: Perceptor): (c: Container)
    requires pc.config.hub.Some?
    ensures c.name == "perceptor" && c.image == pc.image
  {
    Container(
      "perceptor",
      pc.image,
      "Always",
      [EnvVar(pc.config.hub.value.passwordEnvVar, SecretKeySelector(pc.hubPasswordSecretName, pc.hubPasswordSecretKey))],
      ["./perceptor", FullConfigMapPath(pc)],
      [ContainerPort(pc.config.port, "TCP")],
      map["cpu" := pc.cpu, "memory" := pc.memory],
      [VolumeMount(pc.configMapName, pc.configMapMount)])
  }

  /** The pod labels and the selectors that must match them. */
  function PodLabels(pc: Perceptor): map<string, string> {
    map["name" := pc.podName]
  }

  /** ReplicationController: one pod of the perceptor container with the config map mounted. */
  function PerceptorReplicationController(pc: Perceptor): (rc: ReplicationController)
    requires pc.config.hub.Some?
    ensures rc.template.containers == [PerceptorContainer(pc)]
  {
    ReplicationController(
      pc.podName,
      pc.replicaCount,
      PodLabels(pc),
      PodTemplate(PodLabels(pc), [Volume(pc.configMapName, pc.configMapName)], [PerceptorContainer(pc)]))
  }

  /** Service: one port named after the service, selecting the perceptor pods. */
  function PerceptorService(pc: Perceptor): (s: Service)
    ensures s.name == pc.serviceName
  {
    Service(pc.serviceName, [ServicePort(pc.serviceName, pc.config.port)], PodLabels(pc))
  }

  // ---------------------------------------------------------------------------
  // Properties

  /** A label selector matches a set of labels when every selector entry is among them. */
  predicate Selects(selector: map<string, string>, labels: map<string, string>) {
    forall k <- selector :: k in labels && labels[k] == selector[k]
  }

  /** With the defaults the container reads /etc/perceptor/perceptor_conf.yaml. */
  lemma DefaultConfigPath(serviceName: string, secretName: string, secretKey: string)
    ensures FullConfigMapPath(NewPerceptor(serviceName, secretName, secretKey)) == "/etc/perceptor/perceptor_conf.yaml"
  {
  }

  /** NewPerceptor's fixed settings: pod name, one replica, the config map name, no hub configured yet. */
  lemma NewPerceptorDefaults(serviceName: string, secretName: string, secretKey: string)
    ensures var pc := NewPerceptor(serviceName, secretName, secretKey);
      && pc.podName == "perceptor" && pc.replicaCount == 1 && pc.configMapName == "perceptor-config"
      && pc.config.hub.None?
  {
  }

  /**
   * The container starts perceptor on the configuration file, and that file
   * lies in the directory where the config map volume is mounted.
   */
  lemma CommandReadsMountedFile(pc: Perceptor)
    requires pc.config.hub.Some?
    ensures var c := PerceptorContainer(pc);
      && c.command == ["./perceptor", FullConfigMapPath(pc)]
      && |c.volumeMounts| == 1
      && var m := c.volumeMounts[0].mountPath;
         |m| < |c.command[1]| && c.command[1][..|m| + 1] == m + "/"
  {
    var path, m := FullConfigMapPath(pc), pc.configMapMount;
    assert path[..|m| + 1] == m + "/";
  }

  /**
   * Every volume mount of every container of the replication controller names
   * a volume of the same pod, and that volume is the perceptor config map.
   */
  lemma MountsResolve(pc: Perceptor)
    requires pc.config.hub.Some?
    ensures var t := PerceptorReplicationController(pc).template;
      forall c <- t.containers, m <- c.volumeMounts ::
        exists v <- t.volumes :: v.name == m.name && v.configMapName == pc.configMapName
  {
    var t := PerceptorReplicationController(pc).template;
    var v := t.volumes[0];
    assert v in t.volumes;
  }

  /** The controller's selector, its pod labels and the service's selector agree: both select the pods it creates. */
  lemma SelectorsAgree(pc: Perceptor)
    requires pc.config.hub.Some?
    ensures var rc, svc := PerceptorReplicationController(pc), PerceptorService(pc);
      && rc.selector == rc.template.labels == svc.selector == map["name" := pc.podName]
      && Selects(rc.selector, rc.template.labels) && Selects(svc.selector, rc.template.labels)
  {
  }

  /** The service forwards to the port the container listens on: both are Config.Port. */
  lemma PortsAgree(pc: Perceptor)
    requires pc.config.hub.Some?
    ensures var c, svc := PerceptorContainer(pc), PerceptorService(pc);
      && |c.ports| == 1 && |svc.ports| == 1
      && c.ports[0].containerPort == svc.ports[0].port == pc.config.port
      && c.ports[0].protocol == "TCP"
      && svc.ports[0].name == pc.serviceName
  {
  }

  /** The hub password variable is read from the configured secret and key, and is the container's only variable. */
  lemma PasswordFromSecret(pc: Perceptor)
    requires pc.config.hub.Some?
    ensures var c := PerceptorContainer(pc);
      && |c.env| == 1
      && c.env[0].name == pc.config.hub.value.passwordEnvVar
      && c.env[0].secretKeyRef == SecretKeySelector(pc.hubPasswordSecretName, pc.hubPasswordSecretKey)
  {
  }

  /** The controller is named after the pod and runs ReplicaCount replicas. */
  lemma ControllerNameAndReplicas(pc: Perceptor)
    requires pc.config.hub.Some?
    ensures var rc := PerceptorReplicationController(pc);
      rc.name == pc.podName && rc.replicas == pc.replicaCount
  {
  }

  /** A perceptor from NewPerceptor, once its hub is configured, is a single pod named "perceptor" selected by its service. */
  lemma NewPerceptorDeployment(serviceName: string, secretName: string, secretKey: string, hub: PerceptorHubConfig)
    ensures var pc := NewPerceptor(serviceName, secretName, secretKey).(config := ZeroConfig.(hub := Some(hub)));
      var rc, svc := PerceptorReplicationController(pc), PerceptorService(pc);
      && rc.name == "perceptor" && rc.replicas == 1
      && Selects(svc.selector, rc.template.labels)
      && rc.template.volumes == [Volume("perceptor-config", "perceptor-config")]
      && rc.template.containers[0].command == ["./perceptor", "/etc/perceptor/perceptor_conf.yaml"]
  {
    DefaultConfigPath(serviceName, secretName, secretKey);
    var pc := NewPerceptor(serviceName, secretName, secretKey).(config := ZeroConfig.(hub := Some(hub)));
    assert FullConfigMapPath(pc) == FullConfigMapPath(NewPerceptor(serviceName, secretName, secretKey));
  }
}

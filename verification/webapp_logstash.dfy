/**
 * The webapp/logstash deployment of Black Duck,
 * pkg/apps/blackduck/latest/containers/webapplogstash.go: two containers in
 * one pod, their volume mounts, the pod's volumes (persistent or not), the
 * optional proxy certificate, liveness probes and image pull secrets.
 */
module WebappLogstash {
  import opened Basics
  import opened BlackDuck

  datatype EnvType = EnvVal | EnvFromConfigMap | EnvFromSecret
  datatype EnvConfig = EnvConfig(envType: EnvType, nameOrPrefix: string, keyOrVal: string)
  datatype VolumeMountConfig = VolumeMountConfig(name: string, mountPath: string, subPath: string)
  datatype ProbeConfig = ProbeConfig(command: seq<string>, delay: int, interval: int, timeout: int, minCountFailure: int)
  datatype PortConfig = PortConfig(containerPort: int, protocol: string)
  datatype ContainerConfig = ContainerConfig(
    name: string, image: string, pullPolicy: string, minMem: string, maxMem: string, minCpu: string, maxCpu: string)
  datatype Container = Container(
    config: ContainerConfig,
    envConfigs: seq<EnvConfig>,
    volumeMounts: seq<VolumeMountConfig>,
    portConfig: seq<PortConfig>,
    livenessProbeConfigs: seq<ProbeConfig>)

  datatype VolumeSource = EmptyDir | PersistentVolumeClaim(claimName: string) | OtherSource(description: string)
  datatype Volume = Volume(name: string, source: VolumeSource)

  datatype PodConfig = PodConfig(
    volumes: seq<Volume>,
    containers: seq<Container>,
    labels: map<string, string>,
    serviceAccount: string,
    imagePullSecrets: seq<string>)

  datatype DeploymentConfig = DeploymentConfig(namespace: string, name: string, replicas: int)

  /** What is handed to CreateDeploymentFromContainer: the deployment settings, the pod and its selector labels. */
  datatype Deployment = Deployment(config: DeploymentConfig, pod: PodConfig, labels: map<string, string>)

  /** The memory and CPU sizes of the containers (hubContainerFlavor). */
  datatype HubContainerFlavor = HubContainerFlavor(
    webappHubMaxMemory: string, webappMemoryLimit: string, webappCpuLimit: string, logstashMemoryLimit: string)

  /**
   * The Creater of the containers package: the custom resource, the flavour,
   * and the package helpers this file calls but does not define, as values
   * and functions.
   */
  datatype Creater = Creater(
    blackDuck: Blackduck,
    flavor: HubContainerFlavor,
    hubConfigEnv: EnvConfig,
    hubDbConfigEnv: EnvConfig,
    dbSecretVolume: Volume,
    proxyVolume: Volume,
    webappPort: int,
    logstashPort: int,
    blackDuckName: string,
    getResourceName: (string, string, string) -> string,
    getPvcName: string -> string,
    getLabel: string -> map<string, string>,
    getVersionLabel: string -> map<string, string>)

  const PullAlways: string := "Always"
  const ProtocolTcp: string := "TCP"

  /** The five webapp mounts that are always present, in order. */
  const FixedWebappMounts: seq<VolumeMountConfig> := [
    VolumeMountConfig("db-passwords", "/tmp/secrets/HUB_POSTGRES_ADMIN_PASSWORD_FILE", "HUB_POSTGRES_ADMIN_PASSWORD_FILE"),
    VolumeMountConfig("db-passwords", "/tmp/secrets/HUB_POSTGRES_USER_PASSWORD_FILE", "HUB_POSTGRES_USER_PASSWORD_FILE"),
    VolumeMountConfig("dir-webapp", "/opt/blackduck/hub/hub-webapp/ldap", ""),
    VolumeMountConfig("dir-webapp-security", "/opt/blackduck/hub/hub-webapp/security", ""),
    VolumeMountConfig("dir-logstash", "/opt/blackduck/hub/logs", "")]

  /** The mount of the HTTPS proxy certificate. */
  const ProxyCertificateMount: VolumeMountConfig :=
    VolumeMountConfig("proxy-certificate", "/tmp/secrets/HUB_PROXY_CERT_FILE", "HUB_PROXY_CERT_FILE")

  const WebappLivenessProbe: ProbeConfig := ProbeConfig(
    ["/usr/local/bin/docker-healthcheck.sh",
     "https://127.0.0.1:8443/api/health-checks/liveness",
     "/opt/blackduck/hub/hub-webapp/security/root.crt",
     "/opt/blackduck/hub/hub-webapp/security/blackduck_system.crt",
     "/opt/blackduck/hub/hub-webapp/security/blackduck_system.key"],
    360, 30, 10, 1000)

  const LogstashLivenessProbe: ProbeConfig :=
    ProbeConfig(["/usr/local/bin/docker-healthcheck.sh", "http://localhost:9600/"], 240, 30, 10, 1000)

  predicate HasProxyCertificate(c: Creater) {
    |c.blackDuck.spec.proxyCertificate| > 0
  }

  /** A data volume: claimed storage when the instance is persistent, an empty directory otherwise; same name either way. */
  function DataVolume(c: Creater, name: string, component: string): (v: Volume)
    ensures v.name == name
    ensures v.source.PersistentVolumeClaim? <==> c.blackDuck.spec.persistentStorage
    ensures !c.blackDuck.spec.persistentStorage ==> v.source == EmptyDir
  {
    if c.blackDuck.spec.persistentStorage then Volume(name, PersistentVolumeClaim(c.getPvcName(component)))
    else Volume(name, EmptyDir)
  }

  /** getWebappLogtashVolumes */
  method GetWebappLogtashVolumes(c: Creater) returns (volumes: seq<Volume>)
    ensures |volumes| == if HasProxyCertificate(c) then 5 else 4
    ensures volumes[0] == Volume("dir-webapp-security", EmptyDir)
    ensures volumes[1] == DataVolume(c, "dir-webapp", "webapp")
    ensures volumes[2] == DataVolume(c, "dir-logstash", "logstash")
    ensures volumes[3] == c.dbSecretVolume
    ensures HasProxyCertificate(c) ==> volumes[4] == c.proxyVolume
  {
    var webappSecurityEmptyDir := Volume("dir-webapp-security", EmptyDir);
    var webappVolume: Volume;
    if c.blackDuck.spec.persistentStorage {
      webappVolume := Volume("dir-webapp", PersistentVolumeClaim(c.getPvcName("webapp")));
    } else {
      webappVolume := Volume("dir-webapp", EmptyDir);
    }
    var logstashVolume: Volume;
    if c.blackDuck.spec.persistentStorage {
      logstashVolume := Volume("dir-logstash", PersistentVolumeClaim(c.getPvcName("logstash")));
    } else {
      logstashVolume := Volume("dir-logstash", EmptyDir);
    }
    volumes := [webappSecurityEmptyDir, webappVolume, logstashVolume, c.dbSecretVolume];
    if |c.blackDuck.spec.proxyCertificate| > 0 {
      volumes := volumes + [c.proxyVolume];
    }
  }

  /** getLogstashVolumeMounts: the logstash data directory. */
  function GetLogstashVolumeMounts(): (mounts: seq<VolumeMountConfig>)
    ensures |mounts| == 1 && mounts[0].name == "dir-logstash"
  {
    [VolumeMountConfig("dir-logstash", "/var/lib/logstash/data", "")]
  }

  /** getWebappVolumeMounts */
  method GetWebappVolumeMounts(c: Creater) returns (mounts: seq<VolumeMountConfig>)
    ensures |mounts| == if HasProxyCertificate(c) then 6 else 5
    ensures mounts[..5] == FixedWebappMounts
    ensures HasProxyCertificate(c) ==> mounts[5] == ProxyCertificateMount
  {
    mounts := FixedWebappMounts;
    if |c.blackDuck.spec.proxyCertificate| > 0 {
      mounts := mounts + [ProxyCertificateMount];
    }
  }

  /** The names a mount may refer to. */
  function VolumeNames(volumes: seq<Volume>): set<string> {
    set v <- volumes :: v.name
  }

  /**
   * GetWebappLogstashDeployment: the webapp container, then the logstash
   * container, in a pod with the volumes above, deployed once.
   */
  method GetWebappLogstashDeployment(c: Creater, webAppImageName: string, logstashImageName: string)
    returns (d: Deployment)
    ensures d.config == DeploymentConfig(c.blackDuck.spec.namespace,
      c.getResourceName(c.blackDuck.name, c.blackDuckName, "webapp-logstash"), 1)
    ensures |d.pod.containers| == 2
    ensures var webapp, logstash := d.pod.containers[0], d.pod.containers[1];
      && webapp.config == ContainerConfig("webapp", webAppImageName, PullAlways,
           c.flavor.webappMemoryLimit, c.flavor.webappMemoryLimit, c.flavor.webappCpuLimit, "")
      && logstash.config == ContainerConfig("logstash", logstashImageName, PullAlways,
           c.flavor.logstashMemoryLimit, c.flavor.logstashMemoryLimit, "", "")
      && webapp.envConfigs == [c.hubConfigEnv, c.hubDbConfigEnv, EnvConfig(EnvVal, "HUB_MAX_MEMORY", c.flavor.webappHubMaxMemory)]
      && logstash.envConfigs == [c.hubConfigEnv]
      && webapp.portConfig == [PortConfig(c.webappPort, ProtocolTcp)]
      && logstash.portConfig == [PortConfig(c.logstashPort, ProtocolTcp)]
      && webapp.livenessProbeConfigs == (if c.blackDuck.spec.livenessProbes then [WebappLivenessProbe] else [])
      && logstash.livenessProbeConfigs == (if c.blackDuck.spec.livenessProbes then [LogstashLivenessProbe] else [])
      && |webapp.volumeMounts| == (if HasProxyCertificate(c) then 6 else 5)
      && webapp.volumeMounts[..5] == FixedWebappMounts
      && (HasProxyCertificate(c) ==> webapp.volumeMounts[5] == ProxyCertificateMount)
      && logstash.volumeMounts == GetLogstashVolumeMounts()
    ensures |d.pod.volumes| == (if HasProxyCertificate(c) then 5 else 4)
    ensures d.pod.volumes[..4] == [Volume("dir-webapp-security", EmptyDir),
      DataVolume(c, "dir-webapp", "webapp"), DataVolume(c, "dir-logstash", "logstash"), c.dbSecretVolume]
    ensures HasProxyCertificate(c) ==> d.pod.volumes[4] == c.proxyVolume
    ensures d.pod.imagePullSecrets ==
      match c.blackDuck.spec.registryConfiguration
      case Some(r) => r.pullSecrets
      case None => []
    ensures d.pod.labels == c.getVersionLabel("webapp-logstash")
    ensures d.pod.serviceAccount == c.getResourceName(c.blackDuck.name, c.blackDuckName, "service-account")
    ensures d.labels == c.getLabel("webapp-logstash")
  {
    var podName := "webapp";
    var containerName := "logstash";
    var appLabel := podName + "-" + containerName;
    assert appLabel == "webapp-logstash";

    var webappEnvs := [c.hubConfigEnv, c.hubDbConfigEnv];
    webappEnvs := webappEnvs + [EnvConfig(EnvVal, "HUB_MAX_MEMORY", c.flavor.webappHubMaxMemory)];
    var webappVolumeMounts := GetWebappVolumeMounts(c);
    var webappContainerConfig := Container(
      ContainerConfig(podName, webAppImageName, PullAlways,
        c.flavor.webappMemoryLimit, c.flavor.webappMemoryLimit, c.flavor.webappCpuLimit, ""),
      webappEnvs, webappVolumeMounts, [PortConfig(c.webappPort, ProtocolTcp)], []);
    if c.blackDuck.spec.livenessProbes {
      webappContainerConfig := webappContainerConfig.(livenessProbeConfigs := [WebappLivenessProbe]);
    }

    var logstashVolumeMounts := GetLogstashVolumeMounts();
    var logstashContainerConfig := Container(
      ContainerConfig(containerName, logstashImageName, PullAlways,
        c.flavor.logstashMemoryLimit, c.flavor.logstashMemoryLimit, "", ""),
      [c.hubConfigEnv], logstashVolumeMounts, [PortConfig(c.logstashPort, ProtocolTcp)], []);
    if c.blackDuck.spec.livenessProbes {
      logstashContainerConfig := logstashContainerConfig.(livenessProbeConfigs := [LogstashLivenessProbe]);
    }

    var volumes := GetWebappLogtashVolumes(c);
    var podConfig := PodConfig(
      volumes,
      [webappContainerConfig, logstashContainerConfig],
      c.getVersionLabel(appLabel),
      c.getResourceName(c.blackDuck.name, c.blackDuckName, "service-account"),
      []);
    if c.blackDuck.spec.registryConfiguration.Some? && |c.blackDuck.spec.registryConfiguration.value.pullSecrets| > 0 {
      podConfig := podConfig.(imagePullSecrets := c.blackDuck.spec.registryConfiguration.value.pullSecrets);
    }
    d := Deployment(
      DeploymentConfig(c.blackDuck.spec.namespace, c.getResourceName(c.blackDuck.name, c.blackDuckName, appLabel), 1),
      podConfig,
      c.getLabel(appLabel));
  }

  // ---------------------------------------------------------------------------
  // Properties of the pieces the deployment is made of

  /** The volumes the fixed mounts refer to, in mount order. */
  lemma FixedMountNames()
    ensures |FixedWebappMounts| == 5
    ensures FixedWebappMounts[0].name == "db-passwords" && FixedWebappMounts[1].name == "db-passwords"
    ensures FixedWebappMounts[2].name == "dir-webapp" && FixedWebappMounts[3].name == "dir-webapp-security"
    ensures FixedWebappMounts[4].name == "dir-logstash"
  {
  }

  /** The mounts dir-webapp, dir-webapp-security and dir-logstash name volumes of the same pod, persistent or not. */
  lemma DirectoryMountsResolve(c: Creater, volumes: seq<Volume>)
    requires |volumes| >= 4
    requires volumes[..4] == [Volume("dir-webapp-security", EmptyDir),
      DataVolume(c, "dir-webapp", "webapp"), DataVolume(c, "dir-logstash", "logstash"), c.dbSecretVolume]
    ensures {"dir-webapp", "dir-webapp-security", "dir-logstash"} <= VolumeNames(volumes)
  {
    assert volumes[0] in volumes && volumes[1] in volumes && volumes[2] in volumes;
    assert volumes[0].name == "dir-webapp-security";
    assert volumes[1].name == "dir-webapp";
    assert volumes[2].name == "dir-logstash";
  }

  /**
   * Once the secret and proxy volumes carry the names the mounts use, every
   * mount of both containers names a volume of the pod.
   */
  lemma AllMountsResolve(c: Creater, volumes: seq<Volume>, webappMounts: seq<VolumeMountConfig>)
    requires c.dbSecretVolume.name == "db-passwords"
    requires HasProxyCertificate(c) ==> c.proxyVolume.name == "proxy-certificate"
    requires |volumes| == (if HasProxyCertificate(c) then 5 else 4)
    requires volumes[..4] == [Volume("dir-webapp-security", EmptyDir),
      DataVolume(c, "dir-webapp", "webapp"), DataVolume(c, "dir-logstash", "logstash"), c.dbSecretVolume]
    requires HasProxyCertificate(c) ==> volumes[4] == c.proxyVolume
    requires |webappMounts| == (if HasProxyCertificate(c) then 6 else 5)
    requires webappMounts[..5] == FixedWebappMounts
    requires HasProxyCertificate(c) ==> webappMounts[5] == ProxyCertificateMount
    ensures forall i :: 0 <= i < |webappMounts| ==> webappMounts[i].name in VolumeNames(volumes)
    ensures GetLogstashVolumeMounts()[0].name in VolumeNames(volumes)
  {
    DirectoryMountsResolve(c, volumes);
    FixedMountNames();
    assert volumes[3] in volumes && volumes[3].name == "db-passwords";
    forall i | 0 <= i < |webappMounts|
      ensures webappMounts[i].name in VolumeNames(volumes)
    {
      if i < 5 {
        assert webappMounts[i] == FixedWebappMounts[i];
      } else {
        assert volumes[4] in volumes;
      }
    }
  }

  /** Whether the data volumes are persistent changes their source but never their names. */
  lemma DataVolumeNamesStable(c: Creater)
    ensures var d := c.(blackDuck := c.blackDuck.(spec := c.blackDuck.spec.(persistentStorage := !c.blackDuck.spec.persistentStorage)));
      && DataVolume(c, "dir-webapp", "webapp").name == DataVolume(d, "dir-webapp", "webapp").name
      && DataVolume(c, "dir-logstash", "logstash").name == DataVolume(d, "dir-logstash", "logstash").name
      && DataVolume(c, "dir-webapp", "webapp").source != DataVolume(d, "dir-webapp", "webapp").source
  {
  }
}

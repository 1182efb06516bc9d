/**
 * The postgres replication controller of Black Duck,
 * pkg/apps/blackduck/components/rc/postgres/v1/component.go: the builder is
 * registered under its component name, accepts only a Blackduck resource,
 * and describes the postgres database from the container configuration it
 * looks up.
 */
module PostgresRcV1 {
  import opened Basics
  import opened BlackDuck

  /** Go's int32. */
  newtype int32 = x: int | -0x8000_0000 <= x < 0x8000_0000

  /** A container's configured image and sizes; the sizes are nil pointers when unset. */
  datatype ContainerConfig = ContainerConfig(
    image: string, minCpu: Option<int32>, maxCpu: Option<int32>, minMem: Option<int32>, maxMem: Option<int32>)

  /** types.ReplicationController: the container configurations by container name. */
  datatype ReplicationControllerSpec = ReplicationControllerSpec(containers: map<string, ContainerConfig>)

  datatype ProtoformConfig = ProtoformConfig(isOpenshift: bool)

  /** The custom resource handed to a builder, which may be of any kind. */
  datatype CustomResource = BlackduckResource(blackDuck: Blackduck) | OtherResource(kind: string)

  datatype BdReplicationController = BdReplicationController(
    replicationController: ReplicationControllerSpec, config: ProtoformConfig, blackDuck: Blackduck)

  /** The postgres description handed to GetPostgresReplicationController. */
  datatype Postgres = Postgres(
    name: string,
    namespace: string,
    pvcName: string,
    port: int32,
    image: string,
    minCpu: int,
    maxCpu: int,
    minMemory: int,
    maxMemory: int,
    database: string,
    user: string,
    passwordSecretName: string,
    userPasswordSecretKey: string,
    adminPasswordSecretKey: string,
    maxConnections: int,
    sharedBufferInMb: int,
    envConfigMapRefs: seq<string>,
    labels: map<string, string>,
    isOpenshift: bool)

  /**
   * The names and helpers of other packages that GetRc uses: the container
   * name key, util.BlackDuckName, apputils.GetResourceName and GetLabel,
   * utils.GetPVCName and util.Int32ToInt.
   */
  datatype Helpers = Helpers(
    postgresContainerName: string,
    blackDuckName: string,
    getResourceName: (string, string, string) -> string,
    getLabel: (string, string) -> map<string, string>,
    getPvcName: (string, Blackduck) -> string,
    int32ToInt: Option<int32> -> int)

  /** GetRc: the postgres description, or an error naming the container when its configuration is missing. */
  function GetRc(c: BdReplicationController, h: Helpers): (r: Result<Postgres, string>)
    ensures r.Failure? <==> h.postgresContainerName !in c.replicationController.containers
    ensures r.Failure? ==> r.error == "couldn't find container " + h.postgresContainerName
  {
    if h.postgresContainerName !in c.replicationController.containers then
      Failure("couldn't find container " + h.postgresContainerName)
    else
      var containerConfig := c.replicationController.containers[h.postgresContainerName];
      var bd := c.blackDuck;
      var name := h.getResourceName(bd.name, h.blackDuckName, "postgres");
      var pvcName := if bd.spec.persistentStorage then h.getPvcName("postgres", bd) else "";
      Success(Postgres(
        name,
        bd.spec.namespace,
        pvcName,
        5432,
        containerConfig.image,
        h.int32ToInt(containerConfig.minCpu),
        h.int32ToInt(containerConfig.maxCpu),
        h.int32ToInt(containerConfig.minMem),
        h.int32ToInt(containerConfig.maxMem),
        "blackduck",
        "blackduck",
        h.getResourceName(bd.name, h.blackDuckName, "db-creds"),
        "HUB_POSTGRES_ADMIN_PASSWORD_FILE",
        "HUB_POSTGRES_POSTGRES_PASSWORD_FILE",
        300,
        1024,
        [h.getResourceName(bd.name, h.blackDuckName, "db-config")],
        h.getLabel("postgres", bd.name),
        c.config.isOpenshift))
  }

  /** NewBdReplicationController: only a Blackduck resource can be built. */
  function NewBdReplicationController(rc: ReplicationControllerSpec, config: ProtoformConfig, cr: CustomResource)
    : (r: Result<BdReplicationController, string>)
    ensures r.Success? <==> cr.BlackduckResource?
    ensures r.Success? ==> r.value.blackDuck == cr.blackDuck && r.value.replicationController == rc && r.value.config == config
    ensures r.Failure? ==> r.error == "unable to cast the interface to Black Duck object"
  {
    match cr
    case BlackduckResource(blackDuck) => Success(BdReplicationController(rc, config, blackDuck))
    case OtherResource(_) => Failure("unable to cast the interface to Black Duck object")
  }

  type Builder = (ReplicationControllerSpec, ProtoformConfig, CustomResource) -> Result<BdReplicationController, string>

  /** The package's init: the builder is stored under the BlackDuckPostgresRCV1 component name. */
  function Init(store: map<string, Builder>, blackDuckPostgresRcV1: string): (s: map<string, Builder>)
    ensures blackDuckPostgresRcV1 in s
    ensures s.Keys == store.Keys + {blackDuckPostgresRcV1}
    ensures s[blackDuckPostgresRcV1] == NewBdReplicationController
    ensures forall k <- store :: k != blackDuckPostgresRcV1 ==> s[k] == store[k]
  {
    store[blackDuckPostgresRcV1 := NewBdReplicationController]
  }

  // ---------------------------------------------------------------------------
  // Properties

  /** The registered builder is this one: it builds from a Blackduck resource and refuses anything else. */
  lemma RegisteredBuilder(store: map<string, Builder>, key: string, rc: ReplicationControllerSpec, config: ProtoformConfig, cr: CustomResource)
    ensures var build := Init(store, key)[key];
      && build(rc, config, cr) == NewBdReplicationController(rc, config, cr)
      && (build(rc, config, cr).Success? <==> cr.BlackduckResource?)
  {
  }

  /** Storage is claimed only for a persistent instance: the claim name is empty otherwise. */
  lemma PvcOnlyWhenPersistent(c: BdReplicationController, h: Helpers)
    requires GetRc(c, h).Success?
    ensures !c.blackDuck.spec.persistentStorage ==> GetRc(c, h).value.pvcName == ""
    ensures c.blackDuck.spec.persistentStorage ==> GetRc(c, h).value.pvcName == h.getPvcName("postgres", c.blackDuck)
  {
  }

  /** The image and the CPU and memory bounds come from the looked-up container configuration. */
  lemma SizesFromContainer(c: BdReplicationController, h: Helpers)
    requires GetRc(c, h).Success?
    ensures var p, cc := GetRc(c, h).value, c.replicationController.containers[h.postgresContainerName];
      && p.image == cc.image
      && p.minCpu == h.int32ToInt(cc.minCpu) && p.maxCpu == h.int32ToInt(cc.maxCpu)
      && p.minMemory == h.int32ToInt(cc.minMem) && p.maxMemory == h.int32ToInt(cc.maxMem)
  {
  }

  /** The fixed database settings, whatever the resource says. */
  lemma FixedSettings(c: BdReplicationController, h: Helpers)
    requires GetRc(c, h).Success?
    ensures var p := GetRc(c, h).value;
      && p.port == 5432 && p.database == "blackduck" && p.user == "blackduck"
      && p.maxConnections == 300 && p.sharedBufferInMb == 1024
      && p.namespace == c.blackDuck.spec.namespace
  {
  }
}

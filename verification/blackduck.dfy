/**
 * The parts of the Blackduck custom resource that the webapp/logstash
 * deployment, the OpenShift route and the postgres replication controller
 * read.
 */
module BlackDuck {
  import opened Basics

  datatype RegistryConfiguration = RegistryConfiguration(registry: string, pullSecrets: seq<string>)

  datatype BlackduckSpec = BlackduckSpec(
    namespace: string,
    persistentStorage: bool,
    livenessProbes: bool,
    proxyCertificate: string,
    registryConfiguration: Option<RegistryConfiguration>,
    exposeService: string)

  datatype Blackduck = Blackduck(name: string, spec: BlackduckSpec)
}

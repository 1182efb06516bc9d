/**
 * GetOpenShiftRoute, pkg/apps/blackduck/v2/containers/route.go: the route to
 * the Black Duck webserver, built only when the service is exposed through
 * OpenShift.
 */
module BlackDuckRoute {
  import opened Basics
  import opened Strings
  import opened BlackDuck

  /** util.OPENSHIFT */
  const Openshift: string := "OPENSHIFT"

  const TlsTerminationPassthrough: string := "passthrough"

  datatype Route = Route(
    name: string,
    namespace: string,
    kind: string,
    serviceName: string,
    portName: string,
    labels: map<string, string>,
    tlsTerminationType: string)

  /** The Creater of the v2 containers package: the custom resource and the helpers it calls. */
  datatype Creater = Creater(
    blackDuck: Blackduck,
    blackDuckName: string,
    getResourceName: (string, string, string) -> string,
    getLabel: string -> map<string, string>)

  /** GetOpenShiftRoute: None stands for the nil route. */
  function GetOpenShiftRoute(c: Creater): (r: Option<Route>)
    ensures r.Some? <==> ToUpper(c.blackDuck.spec.exposeService) == Openshift
  {
    if ToUpper(c.blackDuck.spec.exposeService) == Openshift then
      Some(Route(
        c.getResourceName(c.blackDuck.name, c.blackDuckName, ""),
        c.blackDuck.spec.namespace,
        "Service",
        c.getResourceName(c.blackDuck.name, c.blackDuckName, "webserver"),
        "port-" + IntToString(443),
        c.getLabel("route"),
        TlsTerminationPassthrough))
    else None
  }

  /** Exposing through OpenShift is recognised in any letter case. */
  lemma {:induction false} RouteCaseInsensitive(c: Creater, exposeService: string)
    requires SameIgnoringCase(c.blackDuck.spec.exposeService, exposeService)
    ensures GetOpenShiftRoute(c).Some?
      <==> GetOpenShiftRoute(c.(blackDuck := c.blackDuck.(spec := c.blackDuck.spec.(exposeService := exposeService)))).Some?
  {
    ToUpperEqualIff(c.blackDuck.spec.exposeService, exposeService);
  }

  /**
   * A route, when built, sends TLS through unterminated to port 443 of the
   * webserver service, in the instance's namespace, with the route labels.
   */
  lemma RouteTargetsWebserver(c: Creater)
    requires GetOpenShiftRoute(c).Some?
    ensures var r := GetOpenShiftRoute(c).value;
      && r.kind == "Service"
      && r.serviceName == c.getResourceName(c.blackDuck.name, c.blackDuckName, "webserver")
      && r.portName == "port-443"
      && r.tlsTerminationType == TlsTerminationPassthrough
      && r.namespace == c.blackDuck.spec.namespace
      && r.labels == c.getLabel("route")
  {
    assert IntToString(443) == "443" by {
      assert NatToString(443) == NatToString(44) + [DigitChar(3)];
      assert NatToString(44) == NatToString(4) + [DigitChar(4)];
    }
  }

  /** Other exposure types (NODEPORT, LOADBALANCER, none) get no route. */
  lemma NoRouteOtherwise(c: Creater)
    requires c.blackDuck.spec.exposeService in {"NODEPORT", "LOADBALANCER", "NONE", ""}
    ensures GetOpenShiftRoute(c).None?
  {
    var e := c.blackDuck.spec.exposeService;
    if e != "" {
      assert ToUpper(e)[0] == UpperChar(e[0]) != 'O';
    }
  }
}

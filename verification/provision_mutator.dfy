/**
 * GetPolarisProvisionComponents, pkg/polaris/polarisProvisionMutator.go: the
 * organization-provision job template is fetched, its placeholders are
 * substituted one after the other, the staging registry is optionally
 * rewritten, the text is parsed into objects keyed by "Kind.name", and the
 * coverity-license secret is forced into that map.
 */
module PolarisProvisionMutator {
  import opened Basics
  import opened Strings

  /** The organization details of the Polaris configuration that the template refers to. */
  datatype OrganizationDetails = OrganizationDetails(
    organizationDescription: string,
    organizationName: string,
    adminName: string,
    adminUsername: string,
    adminEmail: string,
    licenseSeatCount: string,
    licenseType: string,
    resultsStartDate: string,
    resultsEndDate: string,
    retentionStartDate: string,
    retentionEndDate: string)

  /** The fields of the Polaris configuration this operation reads. */
  datatype PolarisConf = PolarisConf(
    version: string,
    namespace: string,
    environmentDns: string,
    imagePullSecrets: string,
    organizationDetails: OrganizationDetails,
    repository: string,
    coverityLicense: string)

  datatype TypeMeta = TypeMeta(kind: string, apiVersion: string)

  datatype ObjectMeta = ObjectMeta(name: string, namespace: string, labels: map<string, string>)

  /** A Kubernetes object: a secret built here, or an object parsed from the template, kept as its YAML text. */
  datatype RuntimeObject =
    | Secret(typeMeta: TypeMeta, objectMeta: ObjectMeta, data: map<string, string>, secretType: string)
    | Parsed(yaml: string)

  /** The template's placeholders, in the order they are substituted. */
  const Placeholders: seq<string> := [
    "${NAMESPACE}", "${ENVIRONMENT_NAME}", "${POLARIS_ROOT_DOMAIN}", "${IMAGE_PULL_SECRETS}",
    "${ORG_DESCRIPTION}", "${ORG_NAME}", "${ADMIN_NAME}", "${ADMIN_USERNAME}", "${ADMIN_EMAIL}",
    "${SEAT_COUNT}", "${TYPE}", "${RESULTS_START_DATE}", "${RESULTS_END_DATE}",
    "${RETENTION_START_DATE}", "${RETENTION_END_DATE}"]

  /** The value each placeholder is replaced by, position for position. */
  function PlaceholderValues(conf: PolarisConf): (vs: seq<string>)
    ensures |vs| == |Placeholders|
  {
    var org := conf.organizationDetails;
    [conf.namespace, conf.namespace, conf.environmentDns, conf.imagePullSecrets,
     org.organizationDescription, org.organizationName, org.adminName, org.adminUsername,
     org.adminEmail, org.licenseSeatCount, org.licenseType, org.resultsStartDate,
     org.resultsEndDate, org.retentionStartDate, org.retentionEndDate]
  }

  /** The (placeholder, value) substitutions, in order. */
  function Substitutions(conf: PolarisConf): (subs: seq<(string, string)>)
    ensures |subs| == |Placeholders|
    ensures forall i :: 0 <= i < |subs| ==> subs[i] == (Placeholders[i], PlaceholderValues(conf)[i])
  {
    var vs := PlaceholderValues(conf);
    seq(|Placeholders|, i requires 0 <= i < |Placeholders| => (Placeholders[i], vs[i]))
  }

  /** Every placeholder is `${...}`, so it starts with '$'. */
  predicate DollarPatterns(subs: seq<(string, string)>) {
    forall i :: 0 <= i < |subs| ==> |subs[i].0| > 0 && subs[i].0[0] == '$'
  }

  lemma PlaceholdersAreDollarPatterns(conf: PolarisConf)
    ensures DollarPatterns(Substitutions(conf))
  {
  }

  predicate NonEmptyPatterns(subs: seq<(string, string)>) {
    forall i :: 0 <= i < |subs| ==> |subs[i].0| > 0
  }

  /** The substitutions applied one after the other, each to the output of the one before. */
  function ReplaceEach(s: string, subs: seq<(string, string)>): string
    requires NonEmptyPatterns(subs)
    decreases |subs|
  {
    if subs == [] then s else ReplaceEach(ReplaceAll(s, subs[0].0, subs[0].1), subs[1..])
  }

  /** Substituting a list in two parts is substituting the first part, then the second. */
  lemma {:induction false} ReplaceEachAppend(s: string, a: seq<(string, string)>, b: seq<(string, string)>)
    requires NonEmptyPatterns(a) && NonEmptyPatterns(b)
    ensures NonEmptyPatterns(a + b)
    ensures ReplaceEach(s, a + b) == ReplaceEach(ReplaceEach(s, a), b)
    decreases |a|
  {
    if a == [] {
      assert a + b == b;
    } else {
      assert (a + b)[1..] == a[1..] + b;
      ReplaceEachAppend(ReplaceAll(s, a[0].0, a[0].1), a[1..], b);
    }
  }

  /** Substitutions whose patterns do not occur in the text leave it unchanged. */
  lemma {:induction false} ReplaceEachAbsent(s: string, subs: seq<(string, string)>)
    requires NonEmptyPatterns(subs)
    requires forall i :: 0 <= i < |subs| ==> !Occurs(subs[i].0, s)
    ensures ReplaceEach(s, subs) == s
    decreases |subs|
  {
    if subs != [] {
      ReplaceAllAbsent(s, subs[0].0, subs[0].1);
      ReplaceEachAbsent(s, subs[1..]);
    }
  }

  /** Text without '$' contains no placeholder and survives every substitution. */
  lemma NoDollarUnchanged(s: string, subs: seq<(string, string)>)
    requires DollarPatterns(subs) && '$' !in s
    ensures NonEmptyPatterns(subs) && ReplaceEach(s, subs) == s
  {
    forall i | 0 <= i < |subs|
      ensures !Occurs(subs[i].0, s)
    {
      AbsentFirstCharNoOccurrence(subs[i].0, s);
    }
    ReplaceEachAbsent(s, subs);
  }

  /** The staging registry the template's images come from. */
  const StagingRegistry: string := "gcr.io/snps-swip-staging"

  /** The staging registry is replaced by the configured repository, only when one is configured. */
  function RewriteRepository(content: string, repository: string): (r: string)
    ensures repository == "" ==> r == content
    ensures !Occurs(StagingRegistry, content) ==> r == content
  {
    if |repository| != 0 then
      ReplaceAllAbsentIf(content, repository);
      ReplaceAll(content, StagingRegistry, repository)
    else content
  }

  lemma ReplaceAllAbsentIf(content: string, repository: string)
    ensures !Occurs(StagingRegistry, content) ==> ReplaceAll(content, StagingRegistry, repository) == content
  {
    if !Occurs(StagingRegistry, content) {
      ReplaceAllAbsent(content, StagingRegistry, repository);
    }
  }

  /** The template text after every substitution and the registry rewrite. */
  function Rendered(template: string, conf: PolarisConf): string {
    PlaceholdersAreDollarPatterns(conf);
    RewriteRepository(ReplaceEach(template, Substitutions(conf)), conf.repository)
  }

  /** The key of the license secret in the object map. */
  const LicenseKey: string := "Secret.coverity-license"

  /** The Opaque secret carrying the Coverity license, in the Polaris namespace. */
  function CoverityLicenseSecret(conf: PolarisConf): RuntimeObject {
    Secret(
      TypeMeta("Secret", "v1"),
      ObjectMeta("coverity-license", conf.namespace, map["environment" := conf.namespace]),
      map["license" := conf.coverityLicense],
      "Opaque")
  }

  /** The parsed objects with the license secret stored under its key, replacing whatever was there. */
  function WithLicense(objects: map<string, RuntimeObject>, conf: PolarisConf): (r: map<string, RuntimeObject>)
    ensures LicenseKey in r && r[LicenseKey] == CoverityLicenseSecret(conf)
    ensures r.Keys == objects.Keys + {LicenseKey}
    ensures forall k <- objects.Keys :: k != LicenseKey ==> r[k] == objects[k]
  {
    objects[LicenseKey := CoverityLicenseSecret(conf)]
  }

  /** The fifteen ReplaceAll steps, in the order of the source. */
  method SubstitutePlaceholders(template: string, conf: PolarisConf) returns (content: string)
    ensures NonEmptyPatterns(Substitutions(conf))
    ensures content == ReplaceEach(template, Substitutions(conf))
  {
    var org := conf.organizationDetails;
    ghost var subs := Substitutions(conf);
    PlaceholdersAreDollarPatterns(conf);
    content := template;
    content := ReplaceAll(content, "${NAMESPACE}", conf.namespace);
    content := ReplaceAll(content, "${ENVIRONMENT_NAME}", conf.namespace);
    content := ReplaceAll(content, "${POLARIS_ROOT_DOMAIN}", conf.environmentDns);
    content := ReplaceAll(content, "${IMAGE_PULL_SECRETS}", conf.imagePullSecrets);
    content := ReplaceAll(content, "${ORG_DESCRIPTION}", org.organizationDescription);
    ghost var first := content;
    assert first == ReplaceEach(template, subs[..5]) by {
      FirstFive(template, conf);
    }
    content := ReplaceAll(content, "${ORG_NAME}", org.organizationName);
    content := ReplaceAll(content, "${ADMIN_NAME}", org.adminName);
    content := ReplaceAll(content, "${ADMIN_USERNAME}", org.adminUsername);
    content := ReplaceAll(content, "${ADMIN_EMAIL}", org.adminEmail);
    content := ReplaceAll(content, "${SEAT_COUNT}", org.licenseSeatCount);
    ghost var second := content;
    assert second == ReplaceEach(first, subs[5..10]) by {
      NextFive(first, conf);
    }
    content := ReplaceAll(content, "${TYPE}", org.licenseType);
    content := ReplaceAll(content, "${RESULTS_START_DATE}", org.resultsStartDate);
    content := ReplaceAll(content, "${RESULTS_END_DATE}", org.resultsEndDate);
    content := ReplaceAll(content, "${RETENTION_START_DATE}", org.retentionStartDate);
    content := ReplaceAll(content, "${RETENTION_END_DATE}", org.retentionEndDate);
    assert content == ReplaceEach(second, subs[10..]) by {
      LastFive(second, conf);
    }
    assert subs == subs[..5] + subs[5..10] + subs[10..];
    ReplaceEachAppend(template, subs[..5], subs[5..10]);
    ReplaceEachAppend(template, subs[..5] + subs[5..10], subs[10..]);
  }

  lemma FirstFive(s: string, conf: PolarisConf)
    ensures NonEmptyPatterns(Substitutions(conf)[..5])
    ensures ReplaceEach(s, Substitutions(conf)[..5])
      == ReplaceAll(ReplaceAll(ReplaceAll(ReplaceAll(ReplaceAll(s,
           "${NAMESPACE}", conf.namespace),
           "${ENVIRONMENT_NAME}", conf.namespace),
           "${POLARIS_ROOT_DOMAIN}", conf.environmentDns),
           "${IMAGE_PULL_SECRETS}", conf.imagePullSecrets),
           "${ORG_DESCRIPTION}", conf.organizationDetails.organizationDescription)
  {
    var subs := Substitutions(conf)[..5];
    ReplaceEachFive(s, subs);
  }

  lemma NextFive(s: string, conf: PolarisConf)
    ensures NonEmptyPatterns(Substitutions(conf)[5..10])
    ensures var org := conf.organizationDetails;
      ReplaceEach(s, Substitutions(conf)[5..10])
      == ReplaceAll(ReplaceAll(ReplaceAll(ReplaceAll(ReplaceAll(s,
           "${ORG_NAME}", org.organizationName),
           "${ADMIN_NAME}", org.adminName),
           "${ADMIN_USERNAME}", org.adminUsername),
           "${ADMIN_EMAIL}", org.adminEmail),
           "${SEAT_COUNT}", org.licenseSeatCount)
  {
    var subs := Substitutions(conf)[5..10];
    ReplaceEachFive(s, subs);
  }

  lemma LastFive(s: string, conf: PolarisConf)
    ensures NonEmptyPatterns(Substitutions(conf)[10..])
    ensures var org := conf.organizationDetails;
      ReplaceEach(s, Substitutions(conf)[10..])
      == ReplaceAll(ReplaceAll(ReplaceAll(ReplaceAll(ReplaceAll(s,
           "${TYPE}", org.licenseType),
           "${RESULTS_START_DATE}", org.resultsStartDate),
           "${RESULTS_END_DATE}", org.resultsEndDate),
           "${RETENTION_START_DATE}", org.retentionStartDate),
           "${RETENTION_END_DATE}", org.retentionEndDate)
  {
    var subs := Substitutions(conf)[10..];
    ReplaceEachFive(s, subs);
  }

  /** Five substitutions in a row, written out. */
  lemma ReplaceEachFive(s: string, subs: seq<(string, string)>)
    requires |subs| == 5 && NonEmptyPatterns(subs)
    ensures ReplaceEach(s, subs)
      == ReplaceAll(ReplaceAll(ReplaceAll(ReplaceAll(ReplaceAll(s,
           subs[0].0, subs[0].1), subs[1].0, subs[1].1), subs[2].0, subs[2].1),
           subs[3].0, subs[3].1), subs[4].0, subs[4].1)
  {
    var s1 := ReplaceAll(s, subs[0].0, subs[0].1);
    var s2 := ReplaceAll(s1, subs[1].0, subs[1].1);
    var s3 := ReplaceAll(s2, subs[2].0, subs[2].1);
    var s4 := ReplaceAll(s3, subs[3].0, subs[3].1);
    var s5 := ReplaceAll(s4, subs[4].0, subs[4].1);
    assert ReplaceEach(s4, subs[4..]) == ReplaceEach(s5, []);
    assert ReplaceEach(s3, subs[3..]) == ReplaceEach(s4, subs[4..]);
    assert ReplaceEach(s2, subs[2..]) == ReplaceEach(s3, subs[3..]);
    assert ReplaceEach(s1, subs[1..]) == ReplaceEach(s2, subs[2..]);
  }

  /**
   * GetPolarisProvisionComponents. Fetching the template and parsing YAML into
   * objects are the functions fetch and parse; a failed fetch is returned as is,
   * with no objects.
   */
  method GetPolarisProvisionComponents(
    baseUrl: string, conf: PolarisConf,
    fetch: (string, string, string, string) -> Result<string, string>,
    parse: string -> map<string, RuntimeObject>)
    returns (objects: Option<map<string, RuntimeObject>>, err: Option<string>)
    ensures match fetch(baseUrl, "polaris", conf.version, "organization-provision-job.yaml")
      case Failure(e) => objects.None? && err == Some(e)
      case Success(template) => err.None? && objects == Some(WithLicense(parse(Rendered(template, conf)), conf))
  {
    var fetched := fetch(baseUrl, "polaris", conf.version, "organization-provision-job.yaml");
    if fetched.Failure? {
      return None, Some(fetched.error);
    }
    var content := SubstitutePlaceholders(fetched.value, conf);
    if |conf.repository| != 0 {
      content := ReplaceAll(content, StagingRegistry, conf.repository);
    }
    var mapOfUniqueIdToBaseRuntimeObject := parse(content);
    mapOfUniqueIdToBaseRuntimeObject := mapOfUniqueIdToBaseRuntimeObject[LicenseKey := CoverityLicenseSecret(conf)];
    objects, err := Some(mapOfUniqueIdToBaseRuntimeObject), None;
  }

  // ---------------------------------------------------------------------------
  // Properties

  /**
   * Whatever the template parsed into, the result holds the license secret: an
   * Opaque v1 Secret named coverity-license in the Polaris namespace, labelled
   * environment=<namespace>, whose one data entry is the Coverity license. An
   * object parsed under the same key is replaced; every other object is kept.
   */
  lemma LicenseSecretForced(objects: map<string, RuntimeObject>, conf: PolarisConf)
    ensures var r := WithLicense(objects, conf);
      && LicenseKey in r && r[LicenseKey].Secret?
      && r[LicenseKey].typeMeta == TypeMeta("Secret", "v1")
      && r[LicenseKey].secretType == "Opaque"
      && r[LicenseKey].objectMeta.name == "coverity-license"
      && r[LicenseKey].objectMeta.namespace == conf.namespace
      && r[LicenseKey].objectMeta.labels == map["environment" := conf.namespace]
      && r[LicenseKey].data.Keys == {"license"}
      && r[LicenseKey].data["license"] == conf.coverityLicense
  {
  }

  /** A template with no '$' and no staging registry is parsed exactly as fetched. */
  lemma PlainTemplateUnchanged(template: string, conf: PolarisConf)
    requires '$' !in template && !Occurs(StagingRegistry, template)
    ensures Rendered(template, conf) == template
  {
    PlaceholdersAreDollarPatterns(conf);
    NoDollarUnchanged(template, Substitutions(conf));
  }

  /** Without a configured repository the registry rewrite does nothing. */
  lemma NoRepositoryNoRewrite(template: string, conf: PolarisConf)
    requires conf.repository == ""
    ensures NonEmptyPatterns(Substitutions(conf))
    ensures Rendered(template, conf) == ReplaceEach(template, Substitutions(conf))
  {
    PlaceholdersAreDollarPatterns(conf);
  }

  /**
   * A template that is just the k-th placeholder renders to that placeholder's
   * value, provided no earlier placeholder occurs in it, the value holds no
   * '$' (so no later step touches it) and the registry rewrite cannot touch it.
   */
  lemma {:induction false} RenderedPlaceholder(conf: PolarisConf, k: nat)
    requires k < |Placeholders|
    requires forall j :: 0 <= j < k ==> !Occurs(Placeholders[j], Placeholders[k])
    requires '$' !in PlaceholderValues(conf)[k]
    requires conf.repository == "" || !Occurs(StagingRegistry, PlaceholderValues(conf)[k])
    ensures Rendered(Placeholders[k], conf) == PlaceholderValues(conf)[k]
  {
    var subs, p, v := Substitutions(conf), Placeholders[k], PlaceholderValues(conf)[k];
    PlaceholdersAreDollarPatterns(conf);
    assert subs == subs[..k] + subs[k..];
    ReplaceEachAppend(p, subs[..k], subs[k..]);
    ReplaceEachAbsent(p, subs[..k]);
    ReplaceAllWhole(p, v);
    assert subs[k..][1..] == subs[k + 1..];
    assert ReplaceEach(p, subs[k..]) == ReplaceEach(v, subs[k + 1..]);
    NoDollarUnchanged(v, subs[k + 1..]);
  }

  /** A pattern starting with '$' occurs in a text whose only '$' is its first character only as its prefix. */
  lemma DollarOnlyAtStart(p: string, s: string)
    requires |p| > 0 && p[0] == '$' && |s| > 0 && '$' !in s[1..]
    requires !(|p| <= |s| && s[..|p|] == p)
    ensures !Occurs(p, s)
  {
    forall i | 0 <= i && i + |p| <= |s|
      ensures !OccursAt(p, s, i)
    {
      if i > 0 {
        assert s[i] in s[1..];
        assert s[i..i + |p|][0] == s[i];
      }
    }
  }

  /** Both `${NAMESPACE}` and `${ENVIRONMENT_NAME}` become the namespace, and `${POLARIS_ROOT_DOMAIN}` the environment DNS name. */
  lemma NamespaceAndDomainRendered(conf: PolarisConf)
    requires '$' !in conf.namespace && '$' !in conf.environmentDns
    requires conf.repository == "" || (!Occurs(StagingRegistry, conf.namespace) && !Occurs(StagingRegistry, conf.environmentDns))
    ensures Rendered("${NAMESPACE}", conf) == conf.namespace
    ensures Rendered("${ENVIRONMENT_NAME}", conf) == conf.namespace
    ensures Rendered("${POLARIS_ROOT_DOMAIN}", conf) == conf.environmentDns
  {
    RenderedPlaceholder(conf, 0);
    EnvironmentNameHoldsNoEarlierPlaceholder();
    RenderedPlaceholder(conf, 1);
    RootDomainHoldsNoEarlierPlaceholder();
    RenderedPlaceholder(conf, 2);
  }

  lemma EnvironmentNameHoldsNoEarlierPlaceholder()
    ensures !Occurs(Placeholders[0], Placeholders[1])
  {
    var p, s := "${NAMESPACE}", "${ENVIRONMENT_NAME}";
    assert '$' !in s[1..];
    assert s[..|p|][2] != p[2];
    DollarOnlyAtStart(p, s);
  }

  lemma RootDomainHoldsNoEarlierPlaceholder()
    ensures forall j :: 0 <= j < 2 ==> !Occurs(Placeholders[j], Placeholders[2])
  {
    var p0, p1, s := "${NAMESPACE}", "${ENVIRONMENT_NAME}", "${POLARIS_ROOT_DOMAIN}";
    assert '$' !in s[1..];
    assert s[..|p0|][2] != p0[2];
    assert s[..|p1|][2] != p1[2];
    DollarOnlyAtStart(p0, s);
    DollarOnlyAtStart(p1, s);
  }
}

/**
 * Translation of the synopsysctl Polaris flags into Helm chart values,
 * pkg/polaris/ctl_polaris.go.
 *
 * A flag is bound to a field of the flag tree, so a flag's text is the text of
 * that field; the flag set itself only tells which flags exist, in which order
 * they are visited, and which of them the user changed.
 */
module PolarisFlags {
  import opened Basics
  import opened Strings
  import opened HelmValues
  import opened PolarisValidation

  /** FlagTree: the values the flags are bound to. */
  datatype FlagTree = FlagTree(
    version: string,
    environmentName: string,
    fqdn: string,
    storageClass: string,
    gcpServiceAccountFilePath: string,
    ingressClass: string,
    postgresHost: string,
    postgresPort: int,
    postgresUsername: string,
    postgresPassword: string,
    postgresSize: string,
    postgresSslMode: string,
    postgresInternal: string,
    smtpHost: string,
    smtpPort: int,
    smtpUsername: string,
    smtpPassword: string,
    smtpSenderEmail: string,
    smtpTlsMode: string,
    smtpTlsIgnoreInvalidCert: string,
    smtpTlsTrustedHosts: string,
    uploadDownloadServerSize: string,
    eventstoreSize: string,
    mongoDbSize: string,
    reportStorageSize: string,
    enableReporting: bool,
    coverityLicensePath: string)

  /** A registered flag: its name and whether the user set it on the command line. */
  datatype Flag = Flag(name: string, changed: bool)

  /** FlagSet.Lookup: the flag registered under name, if any. */
  function Lookup(flags: seq<Flag>, name: string): (r: Option<Flag>)
    ensures r.Some? ==> r.value in flags && r.value.name == name
    ensures r.None? ==> forall f <- flags :: f.name != name
  {
    if flags == [] then None
    else if flags[0].name == name then Some(flags[0])
    else Lookup(flags[1..], name)
  }

  /** The flags CheckValuesFromFlags looks up are registered; a missing one would be a nil dereference. */
  predicate HasCheckedFlags(flags: seq<Flag>) {
    && Lookup(flags, "fqdn").Some?
    && Lookup(flags, "enable-postgres-container").Some?
    && Lookup(flags, "postgres-host").Some?
    && Lookup(flags, "postgres-username").Some?
    && Lookup(flags, "smtp-sender-email").Some?
    && Lookup(flags, "smtp-port").Some?
  }

  function Changed(flags: seq<Flag>, name: string): bool
    requires Lookup(flags, name).Some?
  {
    Lookup(flags, name).value.changed
  }

  // ---------------------------------------------------------------------------
  // CheckValuesFromFlags

  /** One failed check of CheckValuesFromFlags. */
  datatype CheckFailure =
    | InvalidFqdn(fqdn: string)
    | MissingPostgresHost
    | MissingPostgresUsername
    | InvalidSenderEmail(email: string)
    | InvalidSmtpPort(port: int)

  /** The line of the error message reporting one failure. */
  function FailureLine(f: CheckFailure): string {
    match f
    case InvalidFqdn(v) => v + " is not a valid FQDN\n"
    case MissingPostgresHost => RequiredLine("postgres-host")
    case MissingPostgresUsername => RequiredLine("postgres-username")
    case InvalidSenderEmail(v) => v + " is not a valid SMTP sender email address\n"
    case InvalidSmtpPort(p) => IntToString(p) + " is not a valid SMTP port\n"
  }

  /** The line demanding a flag that external postgres needs. */
  function RequiredLine(name: string): string {
    "if enable-postgres-container=false, " + "you must set " + name + "\n"
  }

  /** The position of each check in the order CheckValuesFromFlags runs them. */
  function Rank(f: CheckFailure): nat {
    match f
    case InvalidFqdn(_) => 0
    case MissingPostgresHost => 1
    case MissingPostgresUsername => 2
    case InvalidSenderEmail(_) => 3
    case InvalidSmtpPort(_) => 4
  }

  /** The accumulated error message: the failure lines in order. */
  function Message(fs: seq<CheckFailure>): string {
    if fs == [] then "" else Message(fs[..|fs| - 1]) + FailureLine(fs[|fs| - 1])
  }

  lemma MessageSnoc(fs: seq<CheckFailure>, f: CheckFailure)
    ensures Message(fs + [f]) == Message(fs) + FailureLine(f)
  {
    assert (fs + [f])[..|fs|] == fs;
  }

  /** The smtp-port check on the flag's text: Atoi with its error dropped, then the 1..65535 range. */
  function PortFailure(text: string): Option<CheckFailure> {
    var port := Atoi(text);
    if port < 1 || port > 65535 then Some(InvalidSmtpPort(port)) else None
  }

  function OptionList<T>(o: Option<T>): seq<T> {
    match o
    case None => []
    case Some(x) => [x]
  }

  function FqdnCheck(t: FlagTree): seq<CheckFailure> {
    if !ValidateFqdn(t.fqdn) then [InvalidFqdn(t.fqdn)] else []
  }

  function PostgresChecks(t: FlagTree, flags: seq<Flag>): seq<CheckFailure>
    requires HasCheckedFlags(flags)
  {
    (if t.postgresInternal == "false" && !Changed(flags, "postgres-host") then [MissingPostgresHost] else [])
    + (if t.postgresInternal == "false" && !Changed(flags, "postgres-username") then [MissingPostgresUsername] else [])
  }

  function EmailCheck(t: FlagTree): seq<CheckFailure> {
    if !ValidateEmail(t.smtpSenderEmail) then [InvalidSenderEmail(t.smtpSenderEmail)] else []
  }

  /** The checks CheckValuesFromFlags makes, in its order; the flag texts come from the bound tree. */
  function Failures(t: FlagTree, flags: seq<Flag>): seq<CheckFailure>
    requires HasCheckedFlags(flags)
  {
    FqdnCheck(t) + PostgresChecks(t, flags) + EmailCheck(t) + OptionList(PortFailure(IntToString(t.smtpPort)))
  }

  lemma {:induction false} MessageAppend(a: seq<CheckFailure>, b: seq<CheckFailure>)
    ensures Message(a + b) == Message(a) + Message(b)
    decreases |b|
  {
    if b == [] {
      assert a + b == a;
    } else {
      var b', last := b[..|b| - 1], b[|b| - 1];
      assert b == b' + [last];
      assert a + b == (a + b') + [last];
      MessageSnoc(a + b', last);
      MessageSnoc(b', last);
      MessageAppend(a, b');
      AppendAssoc(Message(a), Message(b'), FailureLine(last));
    }
  }

  lemma PostgresChecksMessage(t: FlagTree, flags: seq<Flag>)
    requires HasCheckedFlags(flags)
    ensures Message(PostgresChecks(t, flags)) ==
      LineIf(t.postgresInternal == "false" && !Changed(flags, "postgres-host"), MissingPostgresHost)
      + LineIf(t.postgresInternal == "false" && !Changed(flags, "postgres-username"), MissingPostgresUsername)
  {
    var host := t.postgresInternal == "false" && !Changed(flags, "postgres-host");
    var user := t.postgresInternal == "false" && !Changed(flags, "postgres-username");
    MessageAppend(if host then [MissingPostgresHost] else [], if user then [MissingPostgresUsername] else []);
    MessageOptional(host, MissingPostgresHost);
    MessageOptional(user, MissingPostgresUsername);
  }

  /** A failure's line when the failure is present, nothing otherwise. */
  function LineIf(b: bool, f: CheckFailure): string {
    if b then FailureLine(f) else ""
  }

  lemma MessageOptional(b: bool, f: CheckFailure)
    ensures Message(if b then [f] else []) == LineIf(b, f)
  {
    assert [f][..0] == [];
  }

  /** The message of all checks, written as the five optional lines one after another. */
  lemma FailuresMessage(t: FlagTree, flags: seq<Flag>)
    requires HasCheckedFlags(flags)
    ensures var port := Atoi(IntToString(t.smtpPort));
      Message(Failures(t, flags)) ==
        LineIf(!ValidateFqdn(t.fqdn), InvalidFqdn(t.fqdn))
        + LineIf(t.postgresInternal == "false" && !Changed(flags, "postgres-host"), MissingPostgresHost)
        + LineIf(t.postgresInternal == "false" && !Changed(flags, "postgres-username"), MissingPostgresUsername)
        + LineIf(!ValidateEmail(t.smtpSenderEmail), InvalidSenderEmail(t.smtpSenderEmail))
        + LineIf(port < 1 || port > 65535, InvalidSmtpPort(port))
  {
    var port := Atoi(IntToString(t.smtpPort));
    var a := FqdnCheck(t);
    var b := PostgresChecks(t, flags);
    var c := EmailCheck(t);
    var d := OptionList(PortFailure(IntToString(t.smtpPort)));
    var la := LineIf(!ValidateFqdn(t.fqdn), InvalidFqdn(t.fqdn));
    var lh := LineIf(t.postgresInternal == "false" && !Changed(flags, "postgres-host"), MissingPostgresHost);
    var lu := LineIf(t.postgresInternal == "false" && !Changed(flags, "postgres-username"), MissingPostgresUsername);
    var lc := LineIf(!ValidateEmail(t.smtpSenderEmail), InvalidSenderEmail(t.smtpSenderEmail));
    var ld := LineIf(port < 1 || port > 65535, InvalidSmtpPort(port));
    MessageOptional(!ValidateFqdn(t.fqdn), InvalidFqdn(t.fqdn));
    MessageOptional(!ValidateEmail(t.smtpSenderEmail), InvalidSenderEmail(t.smtpSenderEmail));
    MessageOptional(port < 1 || port > 65535, InvalidSmtpPort(port));
    assert d == if port < 1 || port > 65535 then [InvalidSmtpPort(port)] else [];
    PostgresChecksMessage(t, flags);
    assert Message(b) == lh + lu;
    MessageAppend(a, b);
    MessageAppend(a + b, c);
    MessageAppend(a + b + c, d);
    assert Message(a + b + c + d) == la + (lh + lu) + lc + ld;
    AppendAssoc(la, lh, lu);
  }

  /** The error of a run of checks: none when nothing failed, otherwise the whole message. */
  function ErrorFor(fs: seq<CheckFailure>): Option<string> {
    if fs == [] then None else Some(Message(fs))
  }

  /** Every failure contributes a non-empty line, so the message is empty exactly when nothing failed. */
  lemma MessageEmptyIff(fs: seq<CheckFailure>)
    ensures |Message(fs)| > 0 <==> fs != []
  {
  }

  /** The end of CheckValuesFromFlags: one line per failure, and an error only when the message is non-empty. */
  method ErrorOf(failures: seq<CheckFailure>) returns (err: Option<string>)
    ensures err == ErrorFor(failures)
  {
    var errMessage := Message(failures);
    MessageEmptyIff(failures);
    if |errMessage| > 0 {
      return Some(errMessage);
    }
    return None;
  }

  // ---------------------------------------------------------------------------
  // AddHelmValueByCobraFlag as a table

  /** Why the process would stop (log.Fatalf) while translating a flag. */
  datatype FatalReason =
    | UnreadableFile(path: string)
    | InvalidTlsMode(mode: string)
    | InvalidSslMode(mode: string)

  /** What translating one flag does to the values. */
  datatype Action = Write(entries: seq<Entry>) | Abort(reason: FatalReason) | Ignore

  /** The flag names the switch of AddHelmValueByCobraFlag has a case for, and everything else. */
  datatype FlagKind =
    | FqdnFlag
    | GcpServiceAccountPathFlag
    | CoverityLicensePathFlag
    | EnableReportingFlag
    | IngressClassFlag
    | StorageClassFlag
    | EventstoreSizeFlag
    | UploadDownloadServerSizeFlag
    | MongoDbSizeFlag
    | ReportStorageSizeFlag
    | SmtpHostFlag
    | SmtpPortFlag
    | SmtpUsernameFlag
    | SmtpPasswordFlag
    | SmtpSenderEmailFlag
    | SmtpTlsModeFlag
    | SmtpTrustedHostsFlag
    | InsecureSkipSmtpTlsVerifyFlag
    | EnablePostgresContainerFlag
    | PostgresHostFlag
    | PostgresPortFlag
    | PostgresUsernameFlag
    | PostgresPasswordFlag
    | PostgresSizeFlag
    | PostgresSslModeFlag
    | OtherFlag

  /** Which case of the switch a flag name selects. */
  function KindOf(name: string): FlagKind {
    match name
    case "fqdn" => FqdnFlag
    case "gcp-service-account-path" => GcpServiceAccountPathFlag
    case "coverity-license-path" => CoverityLicensePathFlag
    case "enable-reporting" => EnableReportingFlag
    case "ingress-class" => IngressClassFlag
    case "storage-class" => StorageClassFlag
    case "eventstore-size" => EventstoreSizeFlag
    case "upload-download-server-size" => UploadDownloadServerSizeFlag
    case "mongodb-size" => MongoDbSizeFlag
    case "reportstorage-size" => ReportStorageSizeFlag
    case "smtp-host" => SmtpHostFlag
    case "smtp-port" => SmtpPortFlag
    case "smtp-username" => SmtpUsernameFlag
    case "smtp-password" => SmtpPasswordFlag
    case "smtp-sender-email" => SmtpSenderEmailFlag
    case "smtp-tls-mode" => SmtpTlsModeFlag
    case "smtp-trusted-hosts" => SmtpTrustedHostsFlag
    case "insecure-skip-smtp-tls-verify" => InsecureSkipSmtpTlsVerifyFlag
    case "enable-postgres-container" => EnablePostgresContainerFlag
    case "postgres-host" => PostgresHostFlag
    case "postgres-port" => PostgresPortFlag
    case "postgres-username" => PostgresUsernameFlag
    case "postgres-password" => PostgresPasswordFlag
    case "postgres-size" => PostgresSizeFlag
    case "postgres-ssl-mode" => PostgresSslModeFlag
    case _ => OtherFlag
  }

  /** The flag name of each case of the switch. */
  function CaseName(k: FlagKind): Option<string> {
    match k
    case FqdnFlag => Some("fqdn")
    case GcpServiceAccountPathFlag => Some("gcp-service-account-path")
    case CoverityLicensePathFlag => Some("coverity-license-path")
    case EnableReportingFlag => Some("enable-reporting")
    case IngressClassFlag => Some("ingress-class")
    case StorageClassFlag => Some("storage-class")
    case EventstoreSizeFlag => Some("eventstore-size")
    case UploadDownloadServerSizeFlag => Some("upload-download-server-size")
    case MongoDbSizeFlag => Some("mongodb-size")
    case ReportStorageSizeFlag => Some("reportstorage-size")
    case SmtpHostFlag => Some("smtp-host")
    case SmtpPortFlag => Some("smtp-port")
    case SmtpUsernameFlag => Some("smtp-username")
    case SmtpPasswordFlag => Some("smtp-password")
    case SmtpSenderEmailFlag => Some("smtp-sender-email")
    case SmtpTlsModeFlag => Some("smtp-tls-mode")
    case SmtpTrustedHostsFlag => Some("smtp-trusted-hosts")
    case InsecureSkipSmtpTlsVerifyFlag => Some("insecure-skip-smtp-tls-verify")
    case EnablePostgresContainerFlag => Some("enable-postgres-container")
    case PostgresHostFlag => Some("postgres-host")
    case PostgresPortFlag => Some("postgres-port")
    case PostgresUsernameFlag => Some("postgres-username")
    case PostgresPasswordFlag => Some("postgres-password")
    case PostgresSizeFlag => Some("postgres-size")
    case PostgresSslModeFlag => Some("postgres-ssl-mode")
    case OtherFlag => None
  }

  /** Each case of the switch is selected by exactly its own name, and every other name falls to the default. */
  lemma KindOfCaseName(name: string, k: FlagKind)
    ensures KindOf(name) == k && k != OtherFlag <==> CaseName(k) == Some(name)
  {
    if KindOf(name) == k && k != OtherFlag {
      KindOfNamed(name);
    } else if CaseName(k) == Some(name) {
      CaseNameSelects(k);
    }
  }

  /**
   * A case's name selects that case. The cases are proved in small groups
   * (CaseNameSelects0 to CaseNameSelects6) so that each proof obligation
   * unfolds the name comparison chain for a few cases only.
   */
  lemma CaseNameSelects(k: FlagKind)
    requires CaseName(k).Some?
    ensures KindOf(CaseName(k).value) == k
  {
    if k == FqdnFlag || k == GcpServiceAccountPathFlag || k == CoverityLicensePathFlag || k == EnableReportingFlag || k == IngressClassFlag || k == StorageClassFlag || k == EventstoreSizeFlag {
      CaseNameSelects0(k);
    } else if k == UploadDownloadServerSizeFlag || k == MongoDbSizeFlag || k == ReportStorageSizeFlag || k == SmtpHostFlag || k == SmtpPortFlag || k == SmtpUsernameFlag {
      CaseNameSelects1(k);
    } else if k == SmtpPasswordFlag || k == SmtpSenderEmailFlag || k == SmtpTlsModeFlag {
      CaseNameSelects2(k);
    } else if k == SmtpTrustedHostsFlag || k == InsecureSkipSmtpTlsVerifyFlag || k == EnablePostgresContainerFlag {
      CaseNameSelects3(k);
    } else if k == PostgresHostFlag || k == PostgresPortFlag {
      CaseNameSelects4(k);
    } else if k == PostgresUsernameFlag || k == PostgresPasswordFlag {
      CaseNameSelects5(k);
    } else if k == PostgresSizeFlag || k == PostgresSslModeFlag {
      CaseNameSelects6(k);
    } else {
      assert false;
    }
  }

  lemma CaseNameSelects0(k: FlagKind)
    requires k == FqdnFlag || k == GcpServiceAccountPathFlag || k == CoverityLicensePathFlag || k == EnableReportingFlag || k == IngressClassFlag || k == StorageClassFlag || k == EventstoreSizeFlag
    ensures CaseName(k).Some? && KindOf(CaseName(k).value) == k
  {
  }

  lemma CaseNameSelects1(k: FlagKind)
    requires k == UploadDownloadServerSizeFlag || k == MongoDbSizeFlag || k == ReportStorageSizeFlag || k == SmtpHostFlag || k == SmtpPortFlag || k == SmtpUsernameFlag
    ensures CaseName(k).Some? && KindOf(CaseName(k).value) == k
  {
  }

  lemma CaseNameSelects2(k: FlagKind)
    requires k == SmtpPasswordFlag || k == SmtpSenderEmailFlag || k == SmtpTlsModeFlag
    ensures CaseName(k).Some? && KindOf(CaseName(k).value) == k
  {
  }

  lemma CaseNameSelects3(k: FlagKind)
    requires k == SmtpTrustedHostsFlag || k == InsecureSkipSmtpTlsVerifyFlag || k == EnablePostgresContainerFlag
    ensures CaseName(k).Some? && KindOf(CaseName(k).value) == k
  {
  }

  lemma CaseNameSelects4(k: FlagKind)
    requires k == PostgresHostFlag || k == PostgresPortFlag
    ensures CaseName(k).Some? && KindOf(CaseName(k).value) == k
  {
  }

  lemma CaseNameSelects5(k: FlagKind)
    requires k == PostgresUsernameFlag || k == PostgresPasswordFlag
    ensures CaseName(k).Some? && KindOf(CaseName(k).value) == k
  {
  }

  lemma CaseNameSelects6(k: FlagKind)
    requires k == PostgresSizeFlag || k == PostgresSslModeFlag
    ensures CaseName(k).Some? && KindOf(CaseName(k).value) == k
  {
  }

  /** A name that selects a case is that case's name. */
  lemma KindOfNamed(name: string)
    requires KindOf(name) != OtherFlag
    ensures CaseName(KindOf(name)) == Some(name)
  {
  }

  /** The SMTPTLSMode constants, as listed in the --smtp-tls-mode help text. */
  const TlsModes: seq<string> := ["disable", "try-starttls", "require-starttls", "require-tls"]
  /** The PostgresSSLMode constants accepted by the switch, as listed in the --postgres-ssl-mode help text. */
  const SslModes: seq<string> := ["disable", "require"]

  const RootDomainPath: seq<string> := ["global", "rootDomain"]
  const ImagePasswordPath: seq<string> := ["imageCredentials", "password"]
  const LicensePath: seq<string> := ["coverity", "license"]
  const ReportingPath: seq<string> := ["isReportingStandalone"]
  const IngressClassPath: seq<string> := ["ingressClass"]
  const PostgresStorageClassPath: seq<string> := ["postgres", "storageClass"]
  const EventstoreStorageClassPath: seq<string> := ["eventstore", "persistence", "storageClass"]
  const ReportStorageClassPath: seq<string> := ["rp-storage-service", "report-storage", "volume", "storageClass"]
  const EventstoreSizePath: seq<string> := ["eventstore", "persistence", "size"]
  const MinioSizePath: seq<string> := ["minio", "persistence", "size"]
  const MongoDbSizePath: seq<string> := ["mongodb", "persistence", "size"]
  const ReportStorageSizePath: seq<string> := ["rp-storage-service", "report-storage", "volume", "size"]
  const SmtpHostPath: seq<string> := ["onprem-auth-service", "smtp", "host"]
  const SmtpPortPath: seq<string> := ["onprem-auth-service", "smtp", "port"]
  const SmtpUserPath: seq<string> := ["onprem-auth-service", "smtp", "user"]
  const SmtpPasswordPath: seq<string> := ["onprem-auth-service", "smtp", "password"]
  const SmtpSenderPath: seq<string> := ["onprem-auth-service", "smtp", "sender_email"]
  const TlsModePath: seq<string> := ["onprem-auth-service", "auth-server", "smtp", "tls_mode"]
  const TrustedHostsPath: seq<string> := ["onprem-auth-service", "auth-server", "smtp", "tls_trusted_hosts"]
  const CheckIdentityPath: seq<string> := ["onprem-auth-service", "auth-server", "smtp", "tls_check_server_identity"]
  const IsExternalPath: seq<string> := ["postgres", "isExternal"]
  const PostgresHostPath: seq<string> := ["postgres", "host"]
  const PostgresPortPath: seq<string> := ["postgres", "port"]
  const PostgresUserPath: seq<string> := ["postgres", "user"]
  const PostgresPasswordPath: seq<string> := ["postgres", "password"]
  const PostgresSizePath: seq<string> := ["postgres", "size"]
  const SslModePath: seq<string> := ["postgres", "sslMode"]

  /** The only value written before the flags are visited: global = {environment: onprem}. */
  const GlobalValue: Value := Node(map["environment" := Str("onprem")])

  function One(path: seq<string>, v: Value): Action {
    Write([Entry(path, v)])
  }

  /**
   * What AddHelmValueByCobraFlag does with one flag: an unchanged flag and a flag
   * of any other name are ignored; a file that cannot be read and an enum value
   * outside its constants end the process.
   */
  function ActionFor(f: Flag, t: FlagTree, readable: string -> bool): Action {
    if !f.changed then Ignore else CaseAction(KindOf(f.name), t, readable)
  }

  /** The effect of one case of the switch. */
  function CaseAction(k: FlagKind, t: FlagTree, readable: string -> bool): Action {
    match k
      case FqdnFlag => One(RootDomainPath, Str(t.fqdn))
      case GcpServiceAccountPathFlag =>
        if !readable(t.gcpServiceAccountFilePath) then Abort(UnreadableFile(t.gcpServiceAccountFilePath))
        else One(ImagePasswordPath, Str(t.gcpServiceAccountFilePath))
      case CoverityLicensePathFlag =>
        if !readable(t.coverityLicensePath) then Abort(UnreadableFile(t.coverityLicensePath))
        else One(LicensePath, Str(t.coverityLicensePath))
      case EnableReportingFlag => One(ReportingPath, Bool(t.enableReporting))
      case IngressClassFlag => One(IngressClassPath, Str(t.ingressClass))
      case StorageClassFlag =>
        Write([Entry(PostgresStorageClassPath, Str(t.storageClass)),
               Entry(EventstoreStorageClassPath, Str(t.storageClass)),
               Entry(ReportStorageClassPath, Str(t.storageClass))])
      case EventstoreSizeFlag => One(EventstoreSizePath, Str(t.eventstoreSize))
      case UploadDownloadServerSizeFlag => One(MinioSizePath, Str(t.eventstoreSize))
      case MongoDbSizeFlag => One(MongoDbSizePath, Str(t.eventstoreSize))
      case ReportStorageSizeFlag => One(ReportStorageSizePath, Str(t.reportStorageSize))
      case SmtpHostFlag => One(SmtpHostPath, Str(t.smtpHost))
      case SmtpPortFlag => One(SmtpPortPath, Str(IntToString(t.smtpPort)))
      case SmtpUsernameFlag => One(SmtpUserPath, Str(t.smtpUsername))
      case SmtpPasswordFlag => One(SmtpPasswordPath, Str(t.smtpPassword))
      case SmtpSenderEmailFlag => One(SmtpSenderPath, Str(t.smtpSenderEmail))
      case SmtpTlsModeFlag =>
        if t.smtpTlsMode in TlsModes then One(TlsModePath, Str(t.smtpTlsMode))
        else Abort(InvalidTlsMode(t.smtpTlsMode))
      case SmtpTrustedHostsFlag => One(TrustedHostsPath, Str(t.smtpTlsTrustedHosts))
      case InsecureSkipSmtpTlsVerifyFlag =>
        One(CheckIdentityPath, Bool(!ParseBoolValue(t.smtpTlsIgnoreInvalidCert)))
      case EnablePostgresContainerFlag => One(IsExternalPath, Bool(!ParseBoolValue(t.postgresInternal)))
      case PostgresHostFlag => One(PostgresHostPath, Str(t.postgresHost))
      case PostgresPortFlag => One(PostgresPortPath, Str(IntToString(t.postgresPort)))
      case PostgresUsernameFlag => One(PostgresUserPath, Str(t.postgresUsername))
      case PostgresPasswordFlag => One(PostgresPasswordPath, Str(t.postgresPassword))
      case PostgresSizeFlag => One(PostgresSizePath, Str(t.postgresSize))
      case PostgresSslModeFlag =>
        if t.postgresSslMode in SslModes then One(SslModePath, Str(t.postgresSslMode))
        else Abort(InvalidSslMode(t.postgresSslMode))
      case OtherFlag => Ignore
  }

  /** Every path ActionFor writes is non-empty. */
  predicate WellFormed(a: Action) {
    a.Write? ==> forall e <- a.entries :: |e.path| > 0
  }

  lemma ActionForWellFormed(f: Flag, t: FlagTree, readable: string -> bool)
    ensures WellFormed(ActionFor(f, t, readable))
  {
    if f.changed {
      CaseActionWellFormed(KindOf(f.name), t, readable);
    }
  }

  lemma CaseActionWellFormed(k: FlagKind, t: FlagTree, readable: string -> bool)
    ensures WellFormed(CaseAction(k, t, readable))
  {
  }

  /** The values before and after an action, and whether it ended the process. */
  predicate Applied(a: Action, before: Values, after: Values, fatal: Option<FatalReason>) {
    WellFormed(a) &&
    match a
    case Write(entries) => fatal.None? && after == SetPaths(before, entries)
    case Abort(r) => fatal == Some(r) && after == before
    case Ignore => fatal.None? && after == before
  }

  /** The outcome of flagset.VisitAll(AddHelmValueByCobraFlag): the final values, or the reason the process ended. */
  datatype VisitOutcome = Completed(values: Values) | Aborted(reason: FatalReason)

  function VisitAll(m: Values, flags: seq<Flag>, t: FlagTree, readable: string -> bool): VisitOutcome
    decreases |flags|
  {
    if flags == [] then Completed(m)
    else
      var a := ActionFor(flags[0], t, readable);
      ActionForWellFormed(flags[0], t, readable);
      match a
      case Write(entries) => VisitAll(SetPaths(m, entries), flags[1..], t, readable)
      case Abort(r) => Aborted(r)
      case Ignore => VisitAll(m, flags[1..], t, readable)
  }

  /** What GenerateHelmFlagsFromCobraFlags returns, or how the process ends. */
  datatype GenerateOutcome = Generated(values: Values) | Rejected(message: string) | Fatal(reason: FatalReason)

  /** GenerateHelmFlagsFromCobraFlags on values m: check, then set global, then visit every flag. */
  function Generate(m: Values, t: FlagTree, flags: seq<Flag>, readable: string -> bool): GenerateOutcome
    requires HasCheckedFlags(flags)
  {
    match ErrorFor(Failures(t, flags))
    case Some(msg) => Rejected(msg)
    case None =>
      match VisitAll(m["global" := GlobalValue], flags, t, readable)
      case Completed(v) => Generated(v)
      case Aborted(r) => Fatal(r)
  }

  // ---------------------------------------------------------------------------
  // The object

  /** HelmValuesFromCobraFlags: the chart values being built and the flag tree the flags are bound to. */
  class HelmValuesFromCobraFlags {
    var args: Values
    var flagTree: FlagTree

    /** NewHelmValuesFromCobraFlags, with the tree as flag parsing has filled it in. */
    constructor(tree: FlagTree)
      ensures args == map[] && flagTree == tree
    {
      args := map[];
      flagTree := tree;
    }

    /**
     * CheckValuesFromFlags: runs the checks in order and notes each failure; the
     * error message has one line per failure, in the same order.
     */
    method CheckValuesFromFlags(flagset: seq<Flag>) returns (err: Option<string>)
      requires HasCheckedFlags(flagset)
      ensures err == ErrorFor(Failures(flagTree, flagset))
    {
      var failures: seq<CheckFailure> := [];
      if !ValidateFqdn(flagTree.fqdn) {
        failures := failures + [InvalidFqdn(flagTree.fqdn)];
      }
      assert failures == FqdnCheck(flagTree);
      if flagTree.postgresInternal == "false" {
        if !Lookup(flagset, "postgres-host").value.changed {
          failures := failures + [MissingPostgresHost];
        }
        if !Lookup(flagset, "postgres-username").value.changed {
          failures := failures + [MissingPostgresUsername];
        }
      }
      assert failures == FqdnCheck(flagTree) + PostgresChecks(flagTree, flagset);
      ghost var checked := failures;
      if !ValidateEmail(flagTree.smtpSenderEmail) {
        failures := failures + [InvalidSenderEmail(flagTree.smtpSenderEmail)];
      }
      assert failures == checked + EmailCheck(flagTree);
      checked := failures;
      var port := Atoi(IntToString(flagTree.smtpPort));
      if port < 1 || port > 65535 {
        failures := failures + [InvalidSmtpPort(port)];
      }
      assert failures == checked + OptionList(PortFailure(IntToString(flagTree.smtpPort)));
      ghost var expected := Failures(flagTree, flagset);
      assert failures == expected;
      err := ErrorOf(failures);
    }

    /** AddHelmValueByCobraFlag: writes the chart values of one changed flag. */
    method AddHelmValueByCobraFlag(f: Flag, readable: string -> bool) returns (fatal: Option<FatalReason>)
      modifies this`args
      ensures Applied(ActionFor(f, flagTree, readable), old(args), args, fatal)
    {
      if !f.changed {
        return None;
      }
      fatal := SwitchOnName(KindOf(f.name), readable);
    }

    /** The switch on the flag's name inside AddHelmValueByCobraFlag. */
    method SwitchOnName(kind: FlagKind, readable: string -> bool) returns (fatal: Option<FatalReason>)
      modifies this`args
      ensures Applied(CaseAction(kind, flagTree, readable), old(args), args, fatal)
    {
      fatal := None;
      var t := flagTree;
      CaseActionWellFormed(kind, t, readable);
      match kind {
        case FqdnFlag =>
          Put(RootDomainPath, Str(t.fqdn));
        case GcpServiceAccountPathFlag =>
          if !readable(t.gcpServiceAccountFilePath) {
            return Some(UnreadableFile(t.gcpServiceAccountFilePath));
          }
          Put(ImagePasswordPath, Str(t.gcpServiceAccountFilePath));
        case CoverityLicensePathFlag =>
          if !readable(t.coverityLicensePath) {
            return Some(UnreadableFile(t.coverityLicensePath));
          }
          Put(LicensePath, Str(t.coverityLicensePath));
        case EnableReportingFlag =>
          Put(ReportingPath, Bool(t.enableReporting));
        case IngressClassFlag =>
          Put(IngressClassPath, Str(t.ingressClass));
        case StorageClassFlag =>
          ghost var before := args;
          Put(PostgresStorageClassPath, Str(t.storageClass));
          Put(EventstoreStorageClassPath, Str(t.storageClass));
          Put(ReportStorageClassPath, Str(t.storageClass));
          SetPathsThree(before, Entry(PostgresStorageClassPath, Str(t.storageClass)),
            Entry(EventstoreStorageClassPath, Str(t.storageClass)), Entry(ReportStorageClassPath, Str(t.storageClass)));
        case EventstoreSizeFlag =>
          Put(EventstoreSizePath, Str(t.eventstoreSize));
        case UploadDownloadServerSizeFlag =>
          Put(MinioSizePath, Str(t.eventstoreSize));
        case MongoDbSizeFlag =>
          Put(MongoDbSizePath, Str(t.eventstoreSize));
        case ReportStorageSizeFlag =>
          Put(ReportStorageSizePath, Str(t.reportStorageSize));
        case SmtpHostFlag =>
          Put(SmtpHostPath, Str(t.smtpHost));
        case SmtpPortFlag =>
          Put(SmtpPortPath, Str(IntToString(t.smtpPort)));
        case SmtpUsernameFlag =>
          Put(SmtpUserPath, Str(t.smtpUsername));
        case SmtpPasswordFlag =>
          Put(SmtpPasswordPath, Str(t.smtpPassword));
        case SmtpSenderEmailFlag =>
          Put(SmtpSenderPath, Str(t.smtpSenderEmail));
        case SmtpTlsModeFlag =>
          if t.smtpTlsMode !in TlsModes {
            return Some(InvalidTlsMode(t.smtpTlsMode));
          }
          Put(TlsModePath, Str(t.smtpTlsMode));
        case SmtpTrustedHostsFlag =>
          Put(TrustedHostsPath, Str(t.smtpTlsTrustedHosts));
        case InsecureSkipSmtpTlsVerifyFlag =>
          var b := ParseBoolValue(t.smtpTlsIgnoreInvalidCert);
          Put(CheckIdentityPath, Bool(!b));
        case EnablePostgresContainerFlag =>
          var b := ParseBoolValue(t.postgresInternal);
          Put(IsExternalPath, Bool(!b));
        case PostgresHostFlag =>
          Put(PostgresHostPath, Str(t.postgresHost));
        case PostgresPortFlag =>
          Put(PostgresPortPath, Str(IntToString(t.postgresPort)));
        case PostgresUsernameFlag =>
          Put(PostgresUserPath, Str(t.postgresUsername));
        case PostgresPasswordFlag =>
          Put(PostgresPasswordPath, Str(t.postgresPassword));
        case PostgresSizeFlag =>
          Put(PostgresSizePath, Str(t.postgresSize));
        case PostgresSslModeFlag =>
          if t.postgresSslMode !in SslModes {
            return Some(InvalidSslMode(t.postgresSslMode));
          }
          Put(SslModePath, Str(t.postgresSslMode));
        case OtherFlag =>
      }
    }

    /** util.SetHelmValueInMap on this object's values. */
    method Put(path: seq<string>, v: Value)
      requires |path| > 0
      modifies this`args
      ensures args == SetPaths(old(args), [Entry(path, v)])
    {
      SetPathsOne(args, Entry(path, v));
      args := SetPath(args, path, v);
    }

    /**
     * GenerateHelmFlagsFromCobraFlags: nothing is written when a check fails;
     * otherwise global is set and the flags are visited in order until one ends
     * the process.
     */
    method GenerateHelmFlagsFromCobraFlags(flagset: seq<Flag>, readable: string -> bool) returns (out: GenerateOutcome)
      requires HasCheckedFlags(flagset)
      modifies this`args
      ensures out == Generate(old(args), flagTree, flagset, readable)
      ensures out.Generated? ==> args == out.values
      ensures out.Rejected? ==> args == old(args)
    {
      var err := CheckValuesFromFlags(flagset);
      if err.Some? {
        return Rejected(err.value);
      }
      args := args["global" := GlobalValue];
      var fatal := VisitFlags(flagset, readable);
      if fatal.Some? {
        return Fatal(fatal.value);
      }
      return Generated(args);
    }

    /** flagset.VisitAll(AddHelmValueByCobraFlag): the flags in order, stopping at the first one that ends the process. */
    method VisitFlags(flagset: seq<Flag>, readable: string -> bool) returns (fatal: Option<FatalReason>)
      modifies this`args
      ensures match VisitAll(old(args), flagset, flagTree, readable)
        case Completed(v) => fatal.None? && args == v
        case Aborted(r) => fatal == Some(r)
    {
      ghost var start := args;
      var i := 0;
      while i < |flagset|
        invariant 0 <= i <= |flagset|
        invariant VisitAll(start, flagset, flagTree, readable) == VisitAll(args, flagset[i..], flagTree, readable)
      {
        assert flagset[i..][0] == flagset[i] && flagset[i..][1..] == flagset[i + 1..];
        fatal := AddHelmValueByCobraFlag(flagset[i], readable);
        if fatal.Some? {
          return;
        }
        i := i + 1;
      }
      return None;
    }
  }
}

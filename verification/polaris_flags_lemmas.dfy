/**
 * What the Polaris flag translation promises, stated over the model of
 * pkg/polaris/ctl_polaris.go: when the check fails and how its message reads,
 * which values each flag writes, and what visiting the flags leaves alone.
 */
module PolarisFlagsLemmas {
  import opened Basics
  import opened Strings
  import opened HelmValues
  import opened PolarisValidation
  import opened PolarisFlags

  // ---------------------------------------------------------------------------
  // CheckValuesFromFlags

  /** postgres-host and postgres-username are demanded only when enable-postgres-container reads exactly "false". */
  lemma PostgresRequiredIff(t: FlagTree, flags: seq<Flag>)
    requires HasCheckedFlags(flags)
    ensures MissingPostgresHost in Failures(t, flags) <==>
      t.postgresInternal == "false" && !Changed(flags, "postgres-host")
    ensures MissingPostgresUsername in Failures(t, flags) <==>
      t.postgresInternal == "false" && !Changed(flags, "postgres-username")
  {
    var fs := Failures(t, flags);
    var a, b, c, d := FqdnCheck(t), PostgresChecks(t, flags), EmailCheck(t), OptionList(PortFailure(IntToString(t.smtpPort)));
    assert fs == a + b + c + d;
    assert MissingPostgresHost !in a && MissingPostgresHost !in c && MissingPostgresHost !in d;
    assert MissingPostgresUsername !in a && MissingPostgresUsername !in c && MissingPostgresUsername !in d;
  }

  /** The port check on the text of an int flag rejects exactly the values outside 1..65535. */
  lemma PortRejectedIff(port: int)
    requires MinInt64 <= port <= MaxInt64
    ensures PortFailure(IntToString(port)).Some? <==> port < 1 || port > 65535
    ensures PortFailure(IntToString(port)).Some? ==> PortFailure(IntToString(port)).value == InvalidSmtpPort(port)
  {
    AtoiIntToString(port);
  }

  /** Text that does not start with a number reads as port 0 and is rejected. */
  lemma NonNumericPortRejected(text: string)
    requires var digits := if |text| > 0 && (text[0] == '+' || text[0] == '-') then text[1..] else text;
      digits == [] || !IsDigit(digits[0])
    ensures PortFailure(text) == Some(InvalidSmtpPort(0))
  {
    AtoiNonNumeric(text);
  }

  /** The checks fail, and the error is returned, exactly when one of the five conditions holds. */
  lemma CheckFailsIff(t: FlagTree, flags: seq<Flag>)
    requires HasCheckedFlags(flags)
    requires MinInt64 <= t.smtpPort <= MaxInt64
    ensures ErrorFor(Failures(t, flags)).Some? <==>
      || !ValidateFqdn(t.fqdn)
      || (t.postgresInternal == "false" && (!Changed(flags, "postgres-host") || !Changed(flags, "postgres-username")))
      || !ValidateEmail(t.smtpSenderEmail)
      || t.smtpPort < 1 || t.smtpPort > 65535
  {
    PortRejectedIff(t.smtpPort);
  }

  /** The failures come in the order the checks run, each check at most once. */
  lemma FailuresOrdered(t: FlagTree, flags: seq<Flag>)
    requires HasCheckedFlags(flags)
    ensures forall i, j :: 0 <= i < j < |Failures(t, flags)| ==>
      Rank(Failures(t, flags)[i]) < Rank(Failures(t, flags)[j])
  {
    var a, b, c, d := FqdnCheck(t), PostgresChecks(t, flags), EmailCheck(t), OptionList(PortFailure(IntToString(t.smtpPort)));
    var fs := a + b + c + d;
    assert Failures(t, flags) == fs;
    assert forall x <- a :: Rank(x) == 0;
    assert forall k :: 0 <= k < |b| ==> Rank(b[k]) == k + 1 || (|b| == 1 && Rank(b[k]) == 2);
    assert forall x <- c :: Rank(x) == 3;
    assert forall x <- d :: Rank(x) == 4;
    forall i, j | 0 <= i < j < |fs|
      ensures Rank(fs[i]) < Rank(fs[j])
    {
      RankOfPiece(a, b, c, d, i);
      RankOfPiece(a, b, c, d, j);
    }
  }

  /** Where position k of the four pieces falls, and the rank that position has. */
  lemma RankOfPiece(a: seq<CheckFailure>, b: seq<CheckFailure>, c: seq<CheckFailure>, d: seq<CheckFailure>, k: nat)
    requires k < |a + b + c + d|
    requires forall x <- a :: Rank(x) == 0
    requires forall x <- c :: Rank(x) == 3
    requires forall x <- d :: Rank(x) == 4
    requires |a| <= 1 && |b| <= 2 && |c| <= 1
    requires forall k :: 0 <= k < |b| ==> Rank(b[k]) == k + 1 || (|b| == 1 && Rank(b[k]) == 2)
    ensures k < |a| ==> Rank((a + b + c + d)[k]) == 0
    ensures |a| <= k < |a| + |b| ==> Rank((a + b + c + d)[k]) == k - |a| + 1 || (|b| == 1 && Rank((a + b + c + d)[k]) == 2)
    ensures |a| + |b| <= k < |a| + |b| + |c| ==> Rank((a + b + c + d)[k]) == 3
    ensures |a| + |b| + |c| <= k ==> Rank((a + b + c + d)[k]) == 4
  {
    var fs := a + b + c + d;
    if k < |a| {
      assert fs[k] == a[k];
    } else if k < |a| + |b| {
      assert fs[k] == b[k - |a|];
    } else if k < |a| + |b| + |c| {
      assert fs[k] == c[k - |a| - |b|];
    } else {
      assert fs[k] == d[k - |a| - |b| - |c|];
    }
  }

  /** A failure's line holds one newline, at its end, when the reported text has none. */
  predicate OneLine(f: CheckFailure) {
    match f
    case InvalidFqdn(v) => '\n' !in v
    case InvalidSenderEmail(v) => '\n' !in v
    case _ => true
  }

  /** The message has one line per failure: as many newlines as failures. */
  lemma {:induction false} MessageLineCount(fs: seq<CheckFailure>)
    requires forall f <- fs :: OneLine(f)
    ensures CountChar(Message(fs), '\n') == |fs|
    decreases |fs|
  {
    if fs != [] {
      var init, last := fs[..|fs| - 1], fs[|fs| - 1];
      assert forall f <- init :: f in fs;
      MessageLineCount(init);
      CountCharAppend(Message(init), FailureLine(last), '\n');
      FailureLineCount(last);
    }
  }

  lemma FailureLineCount(f: CheckFailure)
    requires OneLine(f)
    ensures CountChar(FailureLine(f), '\n') == 1
  {
    match f
    case InvalidFqdn(v) =>
      assert FailureLine(f) == (v + " is not a valid FQDN") + "\n";
      LineCount(v + " is not a valid FQDN");
    case MissingPostgresHost =>
      LineCount("if enable-postgres-container=false, " + "you must set " + "postgres-host");
    case MissingPostgresUsername =>
      LineCount("if enable-postgres-container=false, " + "you must set " + "postgres-username");
    case InvalidSenderEmail(v) =>
      assert FailureLine(f) == (v + " is not a valid SMTP sender email address") + "\n";
      LineCount(v + " is not a valid SMTP sender email address");
    case InvalidSmtpPort(p) =>
      IntToStringNoNewline(p);
      assert FailureLine(f) == (IntToString(p) + " is not a valid SMTP port") + "\n";
      LineCount(IntToString(p) + " is not a valid SMTP port");
  }

  /** Text without a newline followed by one newline is a single line. */
  lemma LineCount(text: string)
    requires '\n' !in text
    ensures CountChar(text + "\n", '\n') == 1
  {
    CountCharAbsent(text, '\n');
    CountCharAppend(text, "\n", '\n');
  }

  lemma IntToStringNoNewline(n: int)
    ensures '\n' !in IntToString(n)
  {
    var s := if n < 0 then NatToString(-n) else NatToString(n);
    assert forall i :: 0 <= i < |s| ==> IsDigit(s[i]);
    if n < 0 {
      assert IntToString(n) == "-" + s;
    }
  }

  /** The error message of a failed check has one line per failing check, in the order the checks run. */
  lemma CheckMessageLines(t: FlagTree, flags: seq<Flag>)
    requires HasCheckedFlags(flags)
    requires '\n' !in t.fqdn && '\n' !in t.smtpSenderEmail
    ensures ErrorFor(Failures(t, flags)).Some? ==>
      CountChar(ErrorFor(Failures(t, flags)).value, '\n') == |Failures(t, flags)|
  {
    var fs := Failures(t, flags);
    assert forall f <- fs :: (f in FqdnCheck(t) || f in PostgresChecks(t, flags) || f in EmailCheck(t)
      || f in OptionList(PortFailure(IntToString(t.smtpPort))));
    MessageLineCount(fs);
  }

  // ---------------------------------------------------------------------------
  // GenerateHelmFlagsFromCobraFlags

  /** A failed check is returned as the error and nothing is visited; otherwise no error is returned. */
  lemma GenerateRejectedIff(m: Values, t: FlagTree, flags: seq<Flag>, readable: string -> bool)
    requires HasCheckedFlags(flags)
    ensures Generate(m, t, flags, readable).Rejected? <==> Failures(t, flags) != []
    ensures Generate(m, t, flags, readable).Rejected? ==>
      Generate(m, t, flags, readable).message == Message(Failures(t, flags))
  {
  }

  /** A flag the user did not change, or whose name has no case in the switch, writes nothing. */
  lemma UnchangedOrUnknownIgnored(f: Flag, t: FlagTree, readable: string -> bool)
    ensures !f.changed ==> ActionFor(f, t, readable) == Ignore
    ensures (forall k :: CaseName(k) != Some(f.name)) ==> ActionFor(f, t, readable) == Ignore
  {
    if forall k :: CaseName(k) != Some(f.name) {
      KindOfCaseName(f.name, KindOf(f.name));
    }
  }

  /** A visit over flags that are all unchanged or unknown leaves the values as they were. */
  lemma {:induction false} VisitAllIgnored(m: Values, flags: seq<Flag>, t: FlagTree, readable: string -> bool)
    requires forall f <- flags :: ActionFor(f, t, readable) == Ignore
    ensures VisitAll(m, flags, t, readable) == Completed(m)
    decreases |flags|
  {
    if flags != [] {
      assert forall f <- flags[1..] :: f in flags;
      VisitAllIgnored(m, flags[1..], t, readable);
    }
  }

  /** Every path an action writes leaves q at some key. */
  ghost predicate Avoids(a: Action, q: seq<string>) {
    WellFormed(a) && (a.Write? ==> forall e <- a.entries :: Branches(e.path, q))
  }

  /** A visit that completes changes no path that every flag's write branches away from. */
  lemma {:induction false} VisitAllKeeps(m: Values, flags: seq<Flag>, t: FlagTree, readable: string -> bool, q: seq<string>)
    requires |q| > 0
    requires forall f <- flags :: Avoids(ActionFor(f, t, readable), q)
    ensures VisitAll(m, flags, t, readable).Completed? ==> GetPath(VisitAll(m, flags, t, readable).values, q) == GetPath(m, q)
    decreases |flags|
  {
    if flags != [] {
      assert forall f <- flags[1..] :: f in flags;
      var a := ActionFor(flags[0], t, readable);
      assert Avoids(a, q);
      match a
      case Write(entries) =>
        GetSetPathsOther(m, entries, q);
        VisitAllKeeps(SetPaths(m, entries), flags[1..], t, readable, q);
      case Abort(_) =>
      case Ignore =>
        VisitAllKeeps(m, flags[1..], t, readable, q);
    }
  }

  const EnvironmentPath: seq<string> := ["global", "environment"]

  /** No flag writes global.environment: only fqdn writes under global, at rootDomain. */
  lemma CaseActionAvoidsEnvironment(k: FlagKind, t: FlagTree, readable: string -> bool)
    ensures Avoids(CaseAction(k, t, readable), EnvironmentPath)
  {
    var a := CaseAction(k, t, readable);
    CaseActionWellFormed(k, t, readable);
    if a.Write? {
      forall e <- a.entries
        ensures Branches(e.path, EnvironmentPath)
      {
        if e.path[0] == "global" {
          assert e.path == RootDomainPath;
          assert DivergeAt(e.path, EnvironmentPath, 1);
        } else {
          BranchesAtTop(e.path, EnvironmentPath);
        }
      }
    }
  }

  /** A successful run always reports environment = onprem under global, whatever flags were changed. */
  lemma GeneratedKeepsEnvironment(m: Values, t: FlagTree, flags: seq<Flag>, readable: string -> bool)
    requires HasCheckedFlags(flags)
    ensures Generate(m, t, flags, readable).Generated? ==>
      GetPath(Generate(m, t, flags, readable).values, EnvironmentPath) == Some(Str("onprem"))
  {
    var start := m["global" := GlobalValue];
    forall f <- flags
      ensures Avoids(ActionFor(f, t, readable), EnvironmentPath)
    {
      if f.changed {
        CaseActionAvoidsEnvironment(KindOf(f.name), t, readable);
      }
    }
    VisitAllKeeps(start, flags, t, readable, EnvironmentPath);
    assert GetPath(start, EnvironmentPath) == GetPath(GlobalValue.children, ["environment"]);
  }

  /** A successful run with every flag unchanged gives exactly the input values with global set. */
  lemma GenerateNothingChanged(m: Values, t: FlagTree, flags: seq<Flag>, readable: string -> bool)
    requires HasCheckedFlags(flags)
    requires Failures(t, flags) == []
    requires forall f <- flags :: !f.changed
    ensures Generate(m, t, flags, readable) == Generated(m["global" := GlobalValue])
  {
    forall f <- flags
      ensures ActionFor(f, t, readable) == Ignore
    {
      UnchangedOrUnknownIgnored(f, t, readable);
    }
    VisitAllIgnored(m["global" := GlobalValue], flags, t, readable);
  }

  // ---------------------------------------------------------------------------
  // The switch of AddHelmValueByCobraFlag

  /** insecure-skip-smtp-tls-verify is stored negated: the server identity is checked unless the text spells true. */
  lemma SkipTlsVerifyInverted(t: FlagTree, readable: string -> bool)
    ensures ActionFor(Flag("insecure-skip-smtp-tls-verify", true), t, readable) ==
      Write([Entry(CheckIdentityPath, Bool(t.smtpTlsIgnoreInvalidCert !in TrueSpellings))])
  {
  }

  /** enable-postgres-container is stored negated: postgres is external unless the text spells true. */
  lemma PostgresContainerInverted(t: FlagTree, readable: string -> bool)
    ensures ActionFor(Flag("enable-postgres-container", true), t, readable) ==
      Write([Entry(IsExternalPath, Bool(t.postgresInternal !in TrueSpellings))])
  {
  }

  /**
   * The check and the switch read enable-postgres-container differently: the
   * check demands a host only for the exact text "false", while any other false
   * spelling (here "0") still marks postgres as external. Such a run passes the
   * check without a postgres host.
   */
  lemma ZeroSpellingSkipsHostCheck(t: FlagTree, flags: seq<Flag>, readable: string -> bool)
    requires HasCheckedFlags(flags)
    requires t.postgresInternal == "0"
    ensures MissingPostgresHost !in Failures(t, flags)
    ensures ActionFor(Flag("enable-postgres-container", true), t, readable) ==
      Write([Entry(IsExternalPath, Bool(true))])
  {
    PostgresRequiredIff(t, flags);
    PostgresContainerInverted(t, readable);
  }

  /** smtp-tls-mode ends the process unless it is one of the four modes, which are stored as given. */
  lemma TlsModeEnum(t: FlagTree, readable: string -> bool)
    ensures var a := ActionFor(Flag("smtp-tls-mode", true), t, readable);
      (a == Abort(InvalidTlsMode(t.smtpTlsMode)) <==> t.smtpTlsMode !in TlsModes)
      && (t.smtpTlsMode in TlsModes ==> a == Write([Entry(TlsModePath, Str(t.smtpTlsMode))]))
  {
  }

  /** postgres-ssl-mode ends the process unless it is disable or require, which are stored as given. */
  lemma SslModeEnum(t: FlagTree, readable: string -> bool)
    ensures var a := ActionFor(Flag("postgres-ssl-mode", true), t, readable);
      (a == Abort(InvalidSslMode(t.postgresSslMode)) <==> t.postgresSslMode !in SslModes)
      && (t.postgresSslMode in SslModes ==> a == Write([Entry(SslModePath, Str(t.postgresSslMode))]))
  {
  }

  /** A file path flag ends the process exactly when its file cannot be read. */
  lemma FilePathsMustBeReadable(t: FlagTree, readable: string -> bool)
    ensures ActionFor(Flag("gcp-service-account-path", true), t, readable).Abort? <==> !readable(t.gcpServiceAccountFilePath)
    ensures ActionFor(Flag("coverity-license-path", true), t, readable).Abort? <==> !readable(t.coverityLicensePath)
  {
  }

  /** storage-class stores the same class for postgres, the event store and the report storage. */
  lemma StorageClassWritesThree(m: Values, t: FlagTree, readable: string -> bool)
    ensures var a := ActionFor(Flag("storage-class", true), t, readable);
      a.Write? && |a.entries| == 3 && WellFormed(a)
      && GetPath(SetPaths(m, a.entries), PostgresStorageClassPath) == Some(Str(t.storageClass))
      && GetPath(SetPaths(m, a.entries), EventstoreStorageClassPath) == Some(Str(t.storageClass))
      && GetPath(SetPaths(m, a.entries), ReportStorageClassPath) == Some(Str(t.storageClass))
  {
    var v := Str(t.storageClass);
    var e1, e2, e3 := Entry(PostgresStorageClassPath, v), Entry(EventstoreStorageClassPath, v), Entry(ReportStorageClassPath, v);
    var a := ActionFor(Flag("storage-class", true), t, readable);
    assert a.entries == [e1, e2, e3];
    SetPathsThree(m, e1, e2, e3);
    var m1 := SetPaths(m, [e1]);
    var m2 := SetPaths(m1, [e2]);
    SetPathsOne(m, e1);
    SetPathsOne(m1, e2);
    SetPathsOne(m2, e3);
    GetSetSame(m, e1.path, v);
    GetSetSame(m1, e2.path, v);
    GetSetSame(m2, e3.path, v);
    GetSetOther(m1, e2.path, v, e1.path, 0);
    GetSetOther(m2, e3.path, v, e1.path, 0);
    GetSetOther(m2, e3.path, v, e2.path, 0);
  }

  /** upload-download-server-size and mongodb-size store the event store size; their own values are never read. */
  lemma SizesUseEventstoreSize(t: FlagTree, readable: string -> bool, other: string)
    ensures ActionFor(Flag("upload-download-server-size", true), t, readable) == Write([Entry(MinioSizePath, Str(t.eventstoreSize))])
    ensures ActionFor(Flag("mongodb-size", true), t, readable) == Write([Entry(MongoDbSizePath, Str(t.eventstoreSize))])
    ensures ActionFor(Flag("upload-download-server-size", true), t.(uploadDownloadServerSize := other), readable)
      == ActionFor(Flag("upload-download-server-size", true), t, readable)
    ensures ActionFor(Flag("mongodb-size", true), t.(mongoDbSize := other), readable)
      == ActionFor(Flag("mongodb-size", true), t, readable)
  {
  }

  /** The port flags store the decimal text of the number, which reads back as the same number. */
  lemma PortsStoredAsDecimal(t: FlagTree, readable: string -> bool)
    requires MinInt64 <= t.smtpPort <= MaxInt64
    ensures var a := ActionFor(Flag("smtp-port", true), t, readable);
      a.Write? && |a.entries| == 1 && a.entries[0].path == SmtpPortPath
      && a.entries[0].value.Str? && Atoi(a.entries[0].value.s) == t.smtpPort
  {
    AtoiIntToString(t.smtpPort);
  }

  /** The postgres port flag, likewise, stores the decimal text of its number. */
  lemma PostgresPortStoredAsDecimal(t: FlagTree, readable: string -> bool)
    requires MinInt64 <= t.postgresPort <= MaxInt64
    ensures var a := ActionFor(Flag("postgres-port", true), t, readable);
      a.Write? && |a.entries| == 1 && a.entries[0].path == PostgresPortPath
      && a.entries[0].value.Str? && Atoi(a.entries[0].value.s) == t.postgresPort
  {
    AtoiIntToString(t.postgresPort);
  }
}

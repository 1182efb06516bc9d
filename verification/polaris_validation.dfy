/**
 * The two recognisers used by the Polaris flag check, pkg/polaris/ctl_polaris.go:
 * validateFQDN, `^[a-z0-9\-]+([.][a-z0-9\-]+)*\.[a-z]+$`, and validateEmail,
 * `^[a-zA-Z0-9._%+\-]+@[a-z0-9.\-]+\.[a-z]+$`. Each expression is stated as a
 * ghost predicate over the pieces the expression matches, and a direct check is
 * proved to accept exactly the strings that predicate describes.
 */
module PolarisValidation {
  import opened Basics
  import opened Strings

  /** `[a-z0-9\-]` */
  predicate LabelChar(c: char) { IsLower(c) || IsDigit(c) || c == '-' }
  /** `[a-z0-9.\-]` */
  predicate DomainChar(c: char) { LabelChar(c) || c == '.' }
  /** `[a-zA-Z0-9._%+\-]` */
  predicate LocalChar(c: char) {
    IsLower(c) || IsUpper(c) || IsDigit(c) || c == '.' || c == '_' || c == '%' || c == '+' || c == '-'
  }

  predicate AllLabelChars(s: string) { forall i :: 0 <= i < |s| ==> LabelChar(s[i]) }
  predicate AllDomainChars(s: string) { forall i :: 0 <= i < |s| ==> DomainChar(s[i]) }
  predicate AllLocalChars(s: string) { forall i :: 0 <= i < |s| ==> LocalChar(s[i]) }
  predicate AllLower(s: string) { forall i :: 0 <= i < |s| ==> IsLower(s[i]) }

  // ---------------------------------------------------------------------------
  // Dot-separated labels

  /** Every character of joined labels is a dot or comes from one of the labels. */
  lemma {:induction false} JoinDotsChars(labels: seq<string>)
    requires forall k :: 0 <= k < |labels| ==> AllLabelChars(labels[k])
    ensures forall i :: 0 <= i < |Join(labels, '.')| ==> DomainChar(Join(labels, '.')[i])
    decreases |labels|
  {
    if |labels| > 1 {
      assert forall k :: 0 <= k < |labels| - 1 ==> labels[1..][k] == labels[k + 1];
      JoinDotsChars(labels[1..]);
      var s := Join(labels, '.');
      var l0 := labels[0];
      var rest := Join(labels[1..], '.');
      assert s == l0 + "." + rest;
      forall i | 0 <= i < |s|
        ensures DomainChar(s[i])
      {
        if i < |l0| {
          assert s[i] == l0[i];
        } else if i > |l0| {
          assert s[i] == rest[i - |l0| - 1];
        }
      }
    } else if |labels| == 1 {
      assert AllLabelChars(labels[0]);
    }
  }

  // ---------------------------------------------------------------------------
  // FQDN

  /** Two or more non-empty labels over `[a-z0-9\-]`, the last one over `[a-z]` only. */
  predicate FqdnLabels(labels: seq<string>) {
    |labels| >= 2
    && (forall k :: 0 <= k < |labels| ==> |labels[k]| > 0 && AllLabelChars(labels[k]))
    && AllLower(labels[|labels| - 1])
  }

  /** The language of `^[a-z0-9\-]+([.][a-z0-9\-]+)*\.[a-z]+$`. */
  ghost predicate FqdnPattern(s: string) {
    exists labels :: FqdnLabels(labels) && Join(labels, '.') == s
  }

  /** validateFQDN: cut at the dots and check the labels. */
  function ValidateFqdn(fqdn: string): bool {
    FqdnLabels(Split(fqdn, '.'))
  }

  /** validateFQDN accepts exactly the strings its regular expression matches. */
  lemma ValidateFqdnCorrect(fqdn: string)
    ensures ValidateFqdn(fqdn) <==> FqdnPattern(fqdn)
  {
    if FqdnPattern(fqdn) {
      var labels :| FqdnLabels(labels) && Join(labels, '.') == fqdn;
      forall k | 0 <= k < |labels|
        ensures '.' !in labels[k]
      {
        assert AllLabelChars(labels[k]);
      }
      SplitJoin(labels, '.');
    }
  }

  /**
   * An accepted FQDN has at least three characters, all of them lower-case
   * letters, digits, '-' or '.': the empty string and anything with an upper-case
   * letter are rejected.
   */
  lemma ValidateFqdnCharset(fqdn: string)
    ensures ValidateFqdn(fqdn) ==> |fqdn| >= 3 && AllDomainChars(fqdn)
  {
    if ValidateFqdn(fqdn) {
      var labels := Split(fqdn, '.');
      JoinDotsChars(labels);
      JoinDotsLength(labels);
    }
  }

  /** Joined non-empty labels are at least as long as two labels and a dot per neighbour pair. */
  lemma {:induction false} JoinDotsLength(labels: seq<string>)
    requires |labels| >= 2
    requires forall k :: 0 <= k < |labels| ==> |labels[k]| > 0
    ensures |Join(labels, '.')| >= 3
  {
    assert Join(labels, '.') == labels[0] + "." + Join(labels[1..], '.');
    assert |Join(labels[1..], '.')| >= |labels[1]| by {
      if |labels| > 2 {
        assert Join(labels[1..], '.') == labels[1] + "." + Join(labels[2..], '.');
      }
    }
  }

  // ---------------------------------------------------------------------------
  // E-mail

  /** The three pieces of `local@domain.tld`, each non-empty and over its own character class. */
  predicate EmailParts(local: string, domain: string, tld: string) {
    |local| > 0 && AllLocalChars(local)
    && |domain| > 0 && AllDomainChars(domain)
    && |tld| > 0 && AllLower(tld)
  }

  /** The language of `^[a-zA-Z0-9._%+\-]+@[a-z0-9.\-]+\.[a-z]+$`. */
  ghost predicate EmailPattern(s: string) {
    exists local, domain, tld :: EmailParts(local, domain, tld) && s == local + "@" + domain + "." + tld
  }

  /**
   * validateEmail: the local part ends at the first '@' (no character class after
   * it has '@'), the top-level domain starts after the last '.' (it has no '.').
   */
  function ValidateEmail(email: string): bool {
    match IndexOf(email, '@')
    case None => false
    case Some(i) =>
      match LastIndexOf(email, '.')
      case None => false
      case Some(j) => i + 1 < j && EmailParts(email[..i], email[i + 1..j], email[j + 1..])
  }

  /** validateEmail accepts exactly the strings its regular expression matches. */
  lemma ValidateEmailCorrect(email: string)
    ensures ValidateEmail(email) <==> EmailPattern(email)
  {
    if ValidateEmail(email) {
      var i := IndexOf(email, '@').value;
      var j := LastIndexOf(email, '.').value;
      assert email == email[..i] + "@" + email[i + 1..j] + "." + email[j + 1..];
    }
    if EmailPattern(email) {
      var local, domain, tld :| EmailParts(local, domain, tld) && email == local + "@" + domain + "." + tld;
      ValidateEmailAccepts(local, domain, tld);
    }
  }

  /** Every well-formed `local@domain.tld` is accepted, cut at the same two places. */
  lemma ValidateEmailAccepts(local: string, domain: string, tld: string)
    requires EmailParts(local, domain, tld)
    ensures ValidateEmail(local + "@" + domain + "." + tld)
  {
    var email := local + "@" + domain + "." + tld;
    var at := |local|;
    var dot := |local| + 1 + |domain|;
    assert email[..at] == local;
    assert email[at + 1..dot] == domain;
    assert email[dot + 1..] == tld;
    assert email[at] == '@';
    assert '@' !in local by {
      assert forall k :: 0 <= k < |local| ==> LocalChar(local[k]);
    }
    IndexOfAt(email, '@', at);
    assert email[dot] == '.';
    assert '.' !in tld by {
      assert forall k :: 0 <= k < |tld| ==> IsLower(tld[k]);
    }
    LastIndexOfAt(email, '.', dot);
  }
}

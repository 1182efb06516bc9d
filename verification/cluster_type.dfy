/**
 * verifyClusterType, pkg/synopsysctl/helpers.go: the --target cluster type is
 * accepted when it names Kubernetes or OpenShift in any letter case.
 */
module ClusterType {
  import opened Basics
  import opened Strings

  const ClusterTypeKubernetes: string := "KUBERNETES"
  const ClusterTypeOpenshift: string := "OPENSHIFT"

  /** strings.EqualFold restricted to ASCII. */
  predicate EqualFold(a: string, b: string) {
    SameIgnoringCase(a, b)
  }

  /** verifyClusterType: None when the type is accepted, the error message otherwise. */
  function VerifyClusterType(cType: string): (err: Option<string>)
    ensures err.Some? ==> err.value == "invalid cluster type '" + cType + "'"
  {
    if EqualFold(ToUpper(cType), ClusterTypeKubernetes) || EqualFold(ToUpper(cType), ClusterTypeOpenshift) then None
    else Some("invalid cluster type '" + cType + "'")
  }

  /** Text without lower-case letters is its own upper case. */
  lemma ToUpperNoLower(s: string)
    requires forall i :: 0 <= i < |s| ==> !IsLower(s[i])
    ensures ToUpper(s) == s
  {
  }

  /** Both constants are already upper case. */
  lemma ConstantsUpper()
    ensures ToUpper(ClusterTypeKubernetes) == ClusterTypeKubernetes
    ensures ToUpper(ClusterTypeOpenshift) == ClusterTypeOpenshift
  {
    ToUpperNoLower(ClusterTypeKubernetes);
    ToUpperNoLower(ClusterTypeOpenshift);
  }

  /** Comparing an upper-cased text ignoring case against an upper-case constant is comparing it exactly. */
  lemma FoldUpperIff(s: string, constant: string)
    requires ToUpper(constant) == constant
    ensures EqualFold(ToUpper(s), constant) <==> ToUpper(s) == constant
  {
    ToUpperEqualIff(ToUpper(s), constant);
    ToUpperIdempotent(s);
  }

  /** The type is accepted exactly when it upper-cases to KUBERNETES or OPENSHIFT. */
  lemma {:induction false} AcceptedIff(cType: string)
    ensures VerifyClusterType(cType).None? <==> ToUpper(cType) in {ClusterTypeKubernetes, ClusterTypeOpenshift}
  {
    ConstantsUpper();
    FoldUpperIff(cType, ClusterTypeKubernetes);
    FoldUpperIff(cType, ClusterTypeOpenshift);
  }

  /** Letter case never matters: two spellings that differ only in case get the same answer. */
  lemma {:induction false} CaseInsensitive(a: string, b: string)
    requires SameIgnoringCase(a, b)
    ensures VerifyClusterType(a).None? <==> VerifyClusterType(b).None?
  {
    ToUpperEqualIff(a, b);
    AcceptedIff(a);
    AcceptedIff(b);
  }

  /** Among upper-case inputs exactly the two help-text choices KUBERNETES and OPENSHIFT are accepted. */
  lemma {:induction false} ExactlyTwoUpperCaseValues(cType: string)
    requires ToUpper(cType) == cType
    ensures VerifyClusterType(cType).None? <==> cType == "KUBERNETES" || cType == "OPENSHIFT"
  {
    AcceptedIff(cType);
  }

  /** The error message quotes the rejected input. */
  lemma {:induction false} ErrorQuotesInput(cType: string)
    requires VerifyClusterType(cType).Some?
    ensures var m := VerifyClusterType(cType).value;
      |m| == |cType| + 23 && m[22..22 + |cType|] == cType
  {
    var m := VerifyClusterType(cType).value;
    assert m == "invalid cluster type '" + cType + "'";
    assert |"invalid cluster type '"| == 22;
  }
}

/**
 * The Helm 3 command helpers of pkg/util/helm_helpers.go: the argument list
 * handed to the helm binary, the parse of `helm version --short`, and the gate
 * that refuses to run helm unless a version 3 binary is found.
 *
 * Looking helm up in PATH and running it are not modelled: their results are
 * parameters (a ProcessResult per run).
 */
module HelmHelpers {
  import opened Basics
  import opened Strings

  // ---------------------------------------------------------------------------
  // genHelm3Args

  /** A list in which no element occurs twice. */
  predicate NoRepeats<T(==)>(xs: seq<T>) {
    forall i, j :: 0 <= i < j < |xs| ==> xs[i] != xs[j]
  }

  /**
   * entries lists every (name, value) entry of m exactly once: one possible
   * order of Go's `for name, value := range m`.
   */
  predicate Enumerates(entries: seq<(string, string)>, m: map<string, string>) {
    && (forall k <- m.Keys :: (k, m[k]) in entries)
    && (forall e <- entries :: e.0 in m && m[e.0] == e.1)
    && NoRepeats(entries)
  }

  /** `name=value`, as fmt.Sprintf("%s=%s", name, value) writes it. */
  function Assignment(e: (string, string)): string {
    e.0 + "=" + e.1
  }

  /** The assignments of the entries, in the order given. */
  function Assignments(entries: seq<(string, string)>): (r: seq<string>)
    ensures |r| == |entries|
  {
    if entries == [] then [] else [Assignment(entries[0])] + Assignments(entries[1..])
  }

  /** `--set name=value` for each entry, in the order given. */
  function SetFlags(entries: seq<(string, string)>): (r: seq<string>)
    ensures |r| == 2 * |entries|
  {
    if entries == [] then []
    else SetFlags(entries[..|entries| - 1]) + ["--set", Assignment(entries[|entries| - 1])]
  }

  /** Element 2i of the `--set` list is "--set" and element 2i+1 is the i-th assignment. */
  lemma {:induction false} SetFlagsAt(entries: seq<(string, string)>, i: nat)
    requires i < |entries|
    ensures SetFlags(entries)[2 * i] == "--set"
    ensures SetFlags(entries)[2 * i + 1] == Assignment(entries[i])
    decreases |entries|
  {
    var init := entries[..|entries| - 1];
    if i < |entries| - 1 {
      SetFlagsAt(init, i);
      assert init[i] == entries[i];
    }
  }

  /**
   * genHelm3Args: the command, then its arguments, then `--set name=value` for
   * every entry of the map in the order the map is walked; that order is
   * returned as a ghost value because Go leaves it unspecified.
   */
  method GenHelm3Args(command: string, args: seq<string>, setValues: map<string, string>)
    returns (helmArgs: seq<string>, ghost order: seq<(string, string)>)
    ensures Enumerates(order, setValues)
    ensures helmArgs == [command] + args + SetFlags(order)
    ensures |helmArgs| == 1 + |args| + 2 * |setValues|
    ensures helmArgs[..1 + |args|] == [command] + args
    ensures forall k <- setValues.Keys :: k + "=" + setValues[k] in helmArgs[1 + |args|..]
  {
    helmArgs := [command] + args;
    order := [];
    var rest := setValues.Keys;
    while rest != {}
      invariant rest <= setValues.Keys
      invariant forall k <- setValues.Keys :: k in rest || (k, setValues[k]) in order
      invariant forall e <- order :: e.0 in setValues && setValues[e.0] == e.1 && e.0 !in rest
      invariant NoRepeats(order)
      invariant helmArgs == [command] + args + SetFlags(order)
      decreases |rest|
    {
      var name :| name in rest;
      var value := setValues[name];
      SetFlagsSnoc([command] + args, order, (name, value));
      helmArgs := helmArgs + ["--set", name + "=" + value];
      order := order + [(name, value)];
      rest := rest - {name};
    }
    GenHelm3ArgsLayout(command, args, setValues, order);
    forall k <- setValues.Keys
      ensures k + "=" + setValues[k] in helmArgs[1 + |args|..]
    {
      var i :| 0 <= i < |order| && order[i] == (k, setValues[k]);
      assert helmArgs[1 + |args|..][2 * i + 1] == Assignment(order[i]);
    }
  }

  lemma SetFlagsSnoc(prefix: seq<string>, order: seq<(string, string)>, e: (string, string))
    ensures prefix + SetFlags(order + [e]) == prefix + SetFlags(order) + ["--set", Assignment(e)]
  {
    assert (order + [e])[..|order|] == order;
  }

  /** A list without repeats holds each of its elements once. */
  lemma {:induction false} NoRepeatsMultiset<T>(xs: seq<T>)
    requires NoRepeats(xs)
    ensures forall x :: multiset(xs)[x] == if x in xs then 1 else 0
  {
    if xs != [] {
      var rest := xs[1..];
      assert xs == [xs[0]] + rest;
      assert xs[0] !in rest;
      NoRepeatsMultiset(rest);
    }
  }

  /** Any two orders of the same map hold the same entries, each once. */
  lemma EnumerationsPermute(m: map<string, string>, o1: seq<(string, string)>, o2: seq<(string, string)>)
    requires Enumerates(o1, m) && Enumerates(o2, m)
    ensures multiset(o1) == multiset(o2)
  {
    NoRepeatsMultiset(o1);
    NoRepeatsMultiset(o2);
    assert forall x :: multiset(o1)[x] == multiset(o2)[x];
  }

  /** An order of m has as many entries as m. */
  lemma EnumerationLength(m: map<string, string>, order: seq<(string, string)>)
    requires Enumerates(order, m)
    ensures |order| == |m|
  {
    forall e | e in m.Items
      ensures e in order
    {
      assert e.0 in m.Keys && m[e.0] == e.1;
    }
    assert m.Items == set e | e in order;
    SetOfNoRepeats(order);
  }

  lemma {:induction false} SetOfNoRepeats<T>(xs: seq<T>)
    requires NoRepeats(xs)
    ensures |set x | x in xs| == |xs|
  {
    if xs != [] {
      var rest := xs[1..];
      SetOfNoRepeats(rest);
      assert xs[0] !in rest;
      assert (set x | x in xs) == (set x | x in rest) + {xs[0]};
    }
  }

  lemma {:induction false} AssignmentsAppend(a: seq<(string, string)>, b: seq<(string, string)>)
    ensures Assignments(a + b) == Assignments(a) + Assignments(b)
  {
    if a != [] {
      assert (a + b)[0] == a[0];
      assert (a + b)[1..] == a[1..] + b;
      AssignmentsAppend(a[1..], b);
    } else {
      assert a + b == b;
    }
  }

  /** Taking the first element of a off both lists leaves lists with the same elements. */
  lemma RemoveAt<T>(a: seq<T>, b: seq<T>, j: nat)
    requires multiset(a) == multiset(b) && |a| > 0 && j < |b| && b[j] == a[0]
    ensures multiset(b[..j] + b[j + 1..]) == multiset(a[1..])
  {
    var x := a[0];
    var pre, post := b[..j], b[j + 1..];
    assert b == pre + [x] + post;
    assert a == [x] + a[1..];
    calc {
      multiset(a[1..]);
      multiset(a) - multiset{x};
      multiset(b) - multiset{x};
      multiset(pre + post);
    }
  }

  /** Entries holding the same elements give assignments holding the same elements. */
  lemma {:induction false} AssignmentsPermute(a: seq<(string, string)>, b: seq<(string, string)>)
    requires multiset(a) == multiset(b)
    ensures multiset(Assignments(a)) == multiset(Assignments(b))
    decreases |a|
  {
    if a != [] {
      var x := a[0];
      assert x in multiset(b);
      var j :| 0 <= j < |b| && b[j] == x;
      var pre, post := b[..j], b[j + 1..];
      assert b == pre + [x] + post;
      RemoveAt(a, b, j);
      AssignmentsPermute(a[1..], pre + post);
      AssignmentsAppend(pre, [x]);
      AssignmentsAppend(pre + [x], post);
      AssignmentsAppend(pre, post);
      assert Assignments(a) == [Assignment(x)] + Assignments(a[1..]);
    }
  }

  /**
   * The argument list is the command, then the arguments in their order, then
   * two elements per map entry, "--set" and `name=value`: 1 + |args| + 2·|map|
   * elements in all.
   */
  lemma GenHelm3ArgsLayout(command: string, args: seq<string>, m: map<string, string>, order: seq<(string, string)>)
    requires Enumerates(order, m)
    ensures var r := [command] + args + SetFlags(order);
      && |r| == 1 + |args| + 2 * |m|
      && r[0] == command
      && r[1..1 + |args|] == args
      && forall i :: 0 <= i < |order| ==>
           r[1 + |args| + 2 * i] == "--set" && r[1 + |args| + 2 * i + 1] == Assignment(order[i])
  {
    EnumerationLength(m, order);
    var r := [command] + args + SetFlags(order);
    assert r[1..1 + |args|] == args;
    forall i | 0 <= i < |order|
      ensures r[1 + |args| + 2 * i] == "--set" && r[1 + |args| + 2 * i + 1] == Assignment(order[i])
    {
      SetFlagsAt(order, i);
    }
  }

  /**
   * Whatever order the map is walked in, the same `name=value` assignments are
   * set, each as often, and the whole argument lists hold the same elements:
   * only the order of the pairs varies between runs.
   */
  lemma GenHelm3ArgsOrderIrrelevant(command: string, args: seq<string>, m: map<string, string>,
                                    o1: seq<(string, string)>, o2: seq<(string, string)>)
    requires Enumerates(o1, m) && Enumerates(o2, m)
    ensures multiset(Assignments(o1)) == multiset(Assignments(o2))
    ensures multiset([command] + args + SetFlags(o1)) == multiset([command] + args + SetFlags(o2))
  {
    EnumerationsPermute(m, o1, o2);
    AssignmentsPermute(o1, o2);
    SetFlagsMultiset(o1);
    SetFlagsMultiset(o2);
    EnumerationLength(m, o1);
    EnumerationLength(m, o2);
  }

  /** n copies of "--set". */
  function SetWords(n: nat): (r: seq<string>)
    ensures |r| == n && forall i :: 0 <= i < n ==> r[i] == "--set"
  {
    seq(n, _ => "--set")
  }

  /** The `--set` list holds the assignments and one "--set" per entry. */
  lemma {:induction false} SetFlagsMultiset(entries: seq<(string, string)>)
    ensures multiset(SetFlags(entries)) == multiset(Assignments(entries)) + multiset(SetWords(|entries|))
    decreases |entries|
  {
    if entries != [] {
      var init, last := entries[..|entries| - 1], entries[|entries| - 1];
      var y := Assignment(last);
      SetFlagsMultiset(init);
      assert entries == init + [last];
      AssignmentsAppend(init, [last]);
      assert SetWords(|entries|) == SetWords(|init|) + ["--set"];
      PairStep(SetFlags(init), Assignments(init), SetWords(|init|), y);
    }
  }

  lemma PairStep(prev: seq<string>, sets: seq<string>, words: seq<string>, y: string)
    requires multiset(prev) == multiset(sets) + multiset(words)
    ensures multiset(prev + ["--set", y]) == multiset(sets + [y]) + multiset(words + ["--set"])
  {
  }

  // ---------------------------------------------------------------------------
  // ValidateHelmVersion

  /** `[0-9a-z]` */
  predicate AlnumLower(c: char) { IsDigit(c) || IsLower(c) }

  /** `v([0-9])\.[0-9]\.[0-9]\+[0-9a-z]+` matches at position i (the trailing `+` needs one character). */
  predicate MatchAt(s: string, i: nat) {
    i + 8 <= |s|
    && s[i] == 'v' && IsDigit(s[i + 1]) && s[i + 2] == '.' && IsDigit(s[i + 3])
    && s[i + 4] == '.' && IsDigit(s[i + 5]) && s[i + 6] == '+' && AlnumLower(s[i + 7])
  }

  /** The leftmost position at or after from where the expression matches. */
  function FindFrom(s: string, from: nat): (r: Option<nat>)
    ensures r.Some? ==> from <= r.value && MatchAt(s, r.value)
    ensures forall i :: from <= i && (r.None? || i < r.value) ==> !MatchAt(s, i)
    decreases |s| - from
  {
    if from + 8 > |s| then None
    else if MatchAt(s, from) then Some(from)
    else FindFrom(s, from + 1)
  }

  /**
   * ValidateHelmVersion: the major digit of the leftmost match (the submatch of
   * FindStringSubmatch), or an error quoting the output when nothing matches.
   */
  function ValidateHelmVersion(output: string): (r: Result<string, string>)
    ensures r.Success? <==> exists i :: MatchAt(output, i)
    ensures r.Success? ==> exists i :: MatchAt(output, i) && r.value == [output[i + 1]] && forall j :: 0 <= j < i ==> !MatchAt(output, j)
    ensures r.Failure? ==> r.error == "invalid 'helm version --short' output: " + output
  {
    match FindFrom(output, 0)
    case Some(i) => Success([output[i + 1]])
    case None => Failure("invalid 'helm version --short' output: " + output)
  }

  /** The major is a single digit: a two-digit component anywhere stops the expression from matching there. */
  lemma ValidateHelmVersionDigit(output: string)
    ensures ValidateHelmVersion(output).Success? ==>
      |ValidateHelmVersion(output).value| == 1 && IsDigit(ValidateHelmVersion(output).value[0])
  {
  }

  /** The output of a 3.2 release reports major 3; the text around the version does not matter. */
  lemma ValidateHelmVersionExample()
    ensures ValidateHelmVersion("v3.2.1+gfe51cd1") == Success("3")
    ensures ValidateHelmVersion("Client: v2.9.1+g20adb27\n") == Success("2")
  {
    assert MatchAt("v3.2.1+gfe51cd1", 0);
    var s := "Client: v2.9.1+g20adb27\n";
    assert MatchAt(s, 8);
    forall j | 0 <= j < 8
      ensures !MatchAt(s, j)
    {
      assert s[j] != 'v';
    }
  }

  /**
   * A minor version of two digits (helm 3.10 and later) is not recognised: the
   * version output of such a release is an error, not major 3.
   */
  lemma TwoDigitMinorRejected()
    ensures ValidateHelmVersion("v3.10.0+gce66412").Failure?
  {
    var s := "v3.10.0+gce66412";
    forall i | 0 <= i
      ensures !MatchAt(s, i)
    {
      if i + 8 <= |s| {
        assert s[0] == 'v' && s[2] == '.' && s[4] == '0';
        if i > 0 {
          assert s[i] != 'v';
        }
      }
    }
  }

  // ---------------------------------------------------------------------------
  // The version gate

  /** What running a command gives back: its combined output, and the error if it failed. */
  datatype ProcessResult = ProcessResult(output: string, err: Option<string>)

  /** HelmIsInPath: the error of exec.LookPath("helm"), if any. */
  function HelmIsInPath(lookPathErr: Option<string>): (r: Result<bool, string>)
    ensures r.Success? <==> lookPathErr.None?
    ensures r.Success? ==> r.value
  {
    match lookPathErr
    case Some(e) => Failure(e)
    case None => Success(true)
  }

  /** HelmIsV3 on the result of `helm version --short`: true only for major "3", an error otherwise. */
  function HelmIsV3(version: ProcessResult): (r: Result<bool, string>)
    ensures r.Success? <==> version.err.None? && ValidateHelmVersion(version.output) == Success("3")
    ensures r.Success? ==> r.value
  {
    if version.err.Some? then Failure(version.output + " - " + version.err.value)
    else match ValidateHelmVersion(version.output)
      case Failure(e) => Failure("failed to validate Helm version: " + e)
      case Success(v) => if v != "3" then Failure("Helm version is not v3") else Success(true)
  }

  /** HelmV3Exists: helm is in PATH and reports major 3, with the failures of either wrapped. */
  function HelmV3Exists(lookPathErr: Option<string>, version: ProcessResult): (r: Result<bool, string>)
    ensures r == Success(true) <==> lookPathErr.None? && version.err.None? && ValidateHelmVersion(version.output) == Success("3")
  {
    match HelmIsInPath(lookPathErr)
    case Failure(e) => Failure("failed to look for Helm in PATH: " + e)
    case Success(inPath) =>
      if !inPath then Success(false)
      else match HelmIsV3(version)
        case Failure(e) => Failure("failed to determine if Helm is V3: " + e)
        case Success(isV3) => if !isV3 then Success(false) else Success(true)
  }

  /** HelmV3Exists never answers a plain "no": with helm missing or not at version 3 it reports an error. */
  lemma HelmV3ExistsNeverFalse(lookPathErr: Option<string>, version: ProcessResult)
    ensures HelmV3Exists(lookPathErr, version) != Success(false)
  {
  }

  /**
   * RunHelm3: unless helm 3 is found, nothing is run and an error is returned;
   * otherwise `helm` is run on the arguments genHelm3Args builds, and its output
   * is returned along with an error quoting those arguments if the run failed.
   */
  method RunHelm3(command: string, args: seq<string>, setValues: map<string, string>,
                  lookPathErr: Option<string>, version: ProcessResult, run: seq<string> -> ProcessResult)
    returns (output: string, err: Option<string>, ran: Option<seq<string>>, ghost order: seq<(string, string)>)
    ensures HelmV3Exists(lookPathErr, version) != Success(true) ==> ran.None? && output == "" && err.Some?
    ensures HelmV3Exists(lookPathErr, version).Failure? ==> err == Some(HelmV3Exists(lookPathErr, version).error)
    ensures HelmV3Exists(lookPathErr, version) == Success(true) ==>
      && Enumerates(order, setValues)
      && ran == Some([command] + args + SetFlags(order))
      && output == run(ran.value).output
      && (err.Some? <==> run(ran.value).err.Some?)
      && (err.Some? ==> err.value == "failed to run Helm command of args " + GoSliceString(ran.value)
                                      + " with error " + run(ran.value).err.value)
  {
    order := [];
    match HelmV3Exists(lookPathErr, version) {
      case Failure(e) =>
        return "", Some(e), None, order;
      case Success(helmExists) =>
        if !helmExists {
          return "", Some("helm v3 is not installed in PATH"), None, order;
        }
    }
    var cmdArgs;
    cmdArgs, order := GenHelm3Args(command, args, setValues);
    var result := run(cmdArgs);
    ran := Some(cmdArgs);
    output := result.output;
    if result.err.Some? {
      err := Some("failed to run Helm command of args " + GoSliceString(cmdArgs) + " with error " + result.err.value);
    } else {
      err := None;
    }
  }
}

/**
 * The pure parts of `synopsysctl get`, pkg/synopsysctl/cmd_get.go: the kubectl
 * argument list built from the command's flags, the argument-count checks of
 * the masterkey and polaris commands, and the two names getBlackDuckMasterKey
 * derives: the file the key is written to and the upload-cache host it asks.
 */
module CmdGet {
  import opened Basics
  import opened Strings

  /** The package variables the get commands' flags are bound to. */
  datatype GetFlags = GetFlags(namespace: string, outputFormat: string, selector: string, allNamespaces: bool)

  /** allNamespacesFlag, the kubectl flag listing across all namespaces. */
  const AllNamespacesFlag: string := "--all-namespaces"

  /** `-n namespace` when a namespace is set. */
  function NamespacePart(g: GetFlags): seq<string> {
    if |g.namespace| > 0 then ["-n", g.namespace] else []
  }

  /** `-o format` when an output format is set. */
  function OutputPart(g: GetFlags): seq<string> {
    if g.outputFormat != "" then ["-o", g.outputFormat] else []
  }

  /** `-l selector` when a selector is set. */
  function SelectorPart(g: GetFlags): seq<string> {
    if g.selector != "" then ["-l", g.selector] else []
  }

  /** allNamespacesFlag when --all-namespaces is set. */
  function AllNamespacesPart(g: GetFlags): seq<string> {
    if g.allNamespaces then [AllNamespacesFlag] else []
  }

  /**
   * generateKubectlGetCommand: `get resource`, the namespace, the positional
   * arguments, then the output format, the selector and all-namespaces, each
   * only when set.
   */
  method GenerateKubectlGetCommand(g: GetFlags, resourceName: string, args: seq<string>) returns (kubectlCmd: seq<string>)
    ensures kubectlCmd == GetCommand(g, resourceName, args)
  {
    kubectlCmd := ["get", resourceName];
    if |g.namespace| > 0 {
      kubectlCmd := kubectlCmd + ["-n", g.namespace];
    }
    assert kubectlCmd == ["get", resourceName] + NamespacePart(g);
    if |args| > 0 {
      kubectlCmd := kubectlCmd + args;
    }
    ghost var upToArgs := kubectlCmd;
    assert upToArgs == ["get", resourceName] + NamespacePart(g) + args;
    if g.outputFormat != "" {
      kubectlCmd := kubectlCmd + ["-o"];
      kubectlCmd := kubectlCmd + [g.outputFormat];
      assert kubectlCmd == upToArgs + ["-o", g.outputFormat];
    }
    assert kubectlCmd == upToArgs + OutputPart(g);
    ghost var upToOutput := kubectlCmd;
    if g.selector != "" {
      kubectlCmd := kubectlCmd + ["-l"];
      kubectlCmd := kubectlCmd + [g.selector];
      assert kubectlCmd == upToOutput + ["-l", g.selector];
    }
    assert kubectlCmd == upToOutput + SelectorPart(g);
    if g.allNamespaces {
      kubectlCmd := kubectlCmd + [AllNamespacesFlag];
    }
  }

  /** The kubectl command generateKubectlGetCommand builds. */
  function GetCommand(g: GetFlags, resourceName: string, args: seq<string>): seq<string> {
    ["get", resourceName] + NamespacePart(g) + args + OutputPart(g) + SelectorPart(g) + AllNamespacesPart(g)
  }

  /**
   * Where everything sits in the kubectl command: `get resource` first; then
   * `-n ns`, present exactly when a namespace is set; then the arguments,
   * unchanged and in order; then the optional flags in the order output
   * format, selector, all-namespaces.
   */
  lemma {:induction false} KubectlGetLayout(g: GetFlags, resourceName: string, args: seq<string>)
    ensures var c, n := GetCommand(g, resourceName, args), if |g.namespace| > 0 then 2 else 0;
      && |c| == 2 + n + |args| + |OutputPart(g)| + |SelectorPart(g)| + |AllNamespacesPart(g)|
      && c[..2] == ["get", resourceName]
      && (|g.namespace| > 0 ==> c[2..4] == ["-n", g.namespace])
      && c[2 + n..2 + n + |args|] == args
      && c[2 + n + |args|..] == OutputPart(g) + SelectorPart(g) + AllNamespacesPart(g)
  {
    var head, ns, flags := ["get", resourceName], NamespacePart(g), OutputPart(g) + SelectorPart(g) + AllNamespacesPart(g);
    var c := GetCommand(g, resourceName, args);
    assert c == head + ns + args + flags;
    SliceOfConcat(head, ns, args + flags);
    SliceOfConcat(head + ns, args, flags);
    assert c[|head + ns + args|..] == flags;
  }

  /** The middle of a three-part concatenation is the middle part. */
  lemma SliceOfConcat<T>(a: seq<T>, b: seq<T>, c: seq<T>)
    ensures (a + b + c)[|a|..|a| + |b|] == b
  {
  }

  /** The optional flags come in the order -o, -l, all-namespaces, each exactly when set. */
  lemma OptionalFlagsOrder(g: GetFlags)
    ensures var f := OutputPart(g) + SelectorPart(g) + AllNamespacesPart(g);
      var o, l := if g.outputFormat != "" then 2 else 0, if g.selector != "" then 2 else 0;
      && |f| == o + l + (if g.allNamespaces then 1 else 0)
      && (g.outputFormat != "" ==> f[..2] == ["-o", g.outputFormat])
      && (g.selector != "" ==> f[o..o + 2] == ["-l", g.selector])
      && (g.allNamespaces <==> f[o + l..] == [AllNamespacesFlag])
      && (!g.allNamespaces <==> f[o + l..] == [])
  {
  }

  /** Without any flag set the command is `get resource` followed by the arguments. */
  lemma KubectlGetPlain(resourceName: string, args: seq<string>)
    ensures GetCommand(GetFlags("", "", "", false), resourceName, args) == ["get", resourceName] + args
  {
    var g := GetFlags("", "", "", false);
    assert NamespacePart(g) == [] && OutputPart(g) == [] && SelectorPart(g) == [] && AllNamespacesPart(g) == [];
  }

  // ---------------------------------------------------------------------------
  // Argument checks

  /** The Args check of `get blackduck masterkey`: exactly the instance name and a directory. */
  function MasterKeyArgs(args: seq<string>): (err: Option<string>)
    ensures err.None? <==> |args| == 2
    ensures err.Some? ==> err.value == "this command takes 2 arguments"
  {
    if |args| != 2 then Some("this command takes 2 arguments") else None
  }

  /**
   * The Args check of `get polaris` and `get polaris-reporting`: no arguments,
   * and a namespace given with --namespace; the argument count is checked first.
   */
  function PolarisArgs(args: seq<string>, namespaceChanged: bool): (err: Option<string>)
    ensures err.None? <==> |args| == 0 && namespaceChanged
    ensures |args| != 0 ==> err == Some("this command takes 0 arguments")
    ensures |args| == 0 && !namespaceChanged ==> err == Some("a namespace must be specified using the --namespace flag")
  {
    if |args| != 0 then Some("this command takes 0 arguments")
    else if !namespaceChanged then Some("a namespace must be specified using the --namespace flag")
    else None
  }

  // ---------------------------------------------------------------------------
  // Names derived in getBlackDuckMasterKey

  /** The host the master key is fetched from: the derived upload-cache name from 2019.8.0 on, "uploadcache" otherwise or when the version cannot be read. */
  function UploadCacheHost(versionAtLeast2019August: Result<bool, string>, derivedName: string): (host: string)
    ensures versionAtLeast2019August == Success(true) ==> host == derivedName
    ensures versionAtLeast2019August != Success(true) ==> host == "uploadcache"
  {
    var uploadCache := "uploadcache";
    match versionAtLeast2019August
    case Success(atLeast) => if atLeast then derivedName else uploadCache
    case Failure(_) => uploadCache
  }

  /**
   * path.Clean's processing of the elements of a path, one at a time: empty and
   * "." elements vanish, ".." removes the element before it, is kept at the
   * start of a relative path, and is dropped at the root.
   */
  function CleanElements(elems: seq<string>, rooted: bool): seq<string>
    decreases |elems|
  {
    if elems == [] then []
    else
      var stack := CleanElements(elems[..|elems| - 1], rooted);
      var e := elems[|elems| - 1];
      if e == "" || e == "." then stack
      else if e == ".." then
        if |stack| > 0 && stack[|stack| - 1] != ".." then stack[..|stack| - 1]
        else if rooted then stack
        else stack + [".."]
      else stack + [e]
  }

  /** filepath.Clean with '/' as the separator. */
  function Clean(path: string): string {
    var rooted := |path| > 0 && path[0] == '/';
    var body := Join(CleanElements(Split(path, '/'), rooted), '/');
    if rooted then "/" + body else if body == "" then "." else body
  }

  /** filepath.Join of two elements: empty elements are ignored and the result is cleaned. */
  function JoinPath(dir: string, file: string): string {
    if dir == "" && file == "" then ""
    else if dir == "" then Clean(file)
    else if file == "" then Clean(dir)
    else Clean(dir + "/" + file)
  }

  /** The last element of a path: the text after its last '/'. */
  function Base(path: string): string {
    match LastIndexOf(path, '/')
    case None => path
    case Some(i) => path[i + 1..]
  }

  /** The file the master key is written to: `<namespace>-<name>.key` inside filePath. */
  function MasterKeyFileName(filePath: string, namespace: string, name: string): string {
    JoinPath(filePath, namespace + "-" + name + ".key")
  }

  /**
   * The key file is named after the namespace and the instance: whatever
   * directory is given, its last element is `<namespace>-<name>.key`, provided
   * neither name holds a '/'.
   */
  lemma MasterKeyFileNameBase(filePath: string, namespace: string, name: string)
    requires '/' !in namespace && '/' !in name
    ensures Base(MasterKeyFileName(filePath, namespace, name)) == namespace + "-" + name + ".key"
  {
    var file := namespace + "-" + name + ".key";
    assert '/' !in file;
    assert file != "" && file != "." && file != ".." by {
      assert |file| >= 5;
    }
    if filePath == "" {
      CleanPlainFile("", file);
      assert "" + file == file;
    } else {
      CleanPlainFile(filePath + "/", file);
    }
  }

  /** Cleaning a path whose last element is an ordinary name keeps that name last. */
  lemma CleanPlainFile(prefix: string, file: string)
    requires prefix == "" || prefix[|prefix| - 1] == '/'
    requires PlainElement(file)
    ensures Base(Clean(prefix + file)) == file
  {
    var path := prefix + file;
    var rooted := |path| > 0 && path[0] == '/';
    var elems := Split(path, '/');
    if prefix == "" {
      assert path == file;
      SplitJoin([file], '/');
      assert elems == [file];
    } else {
      var dir := prefix[..|prefix| - 1];
      assert path == dir + "/" + file;
      SplitAppend(dir, file);
      assert elems == Split(dir, '/') + [file];
      assert elems[..|elems| - 1] == Split(dir, '/');
    }
    var stack := CleanElements(elems, rooted);
    assert stack == CleanElements(elems[..|elems| - 1], rooted) + [file];
    var body := Join(stack, '/');
    BaseOfJoin(stack[..|stack| - 1], file);
    assert stack[..|stack| - 1] + [file] == stack;
    assert Base(body) == file;
    if rooted {
      BaseAfterPrefix("/", body, file);
    }
  }

  /** Cutting `dir/file` at '/' gives the elements of dir and then file. */
  lemma SplitAppend(dir: string, file: string)
    requires '/' !in file
    ensures Split(dir + "/" + file, '/') == Split(dir, '/') + [file]
  {
    var parts := Split(dir, '/');
    JoinSnoc(parts, file, '/');
    assert forall k :: 0 <= k < |parts + [file]| ==> '/' !in (parts + [file])[k];
    SplitJoin(parts + [file], '/');
  }

  /** The last element of joined parts is the last part. */
  lemma BaseOfJoin(parts: seq<string>, file: string)
    requires '/' !in file
    ensures Base(Join(parts + [file], '/')) == file
  {
    if parts == [] {
      assert parts + [file] == [file];
    } else {
      JoinSnoc(parts, file, '/');
      var s := Join(parts, '/') + "/" + file;
      LastIndexOfAt(s, '/', |Join(parts, '/')|);
      assert s[|Join(parts, '/')| + 1..] == file;
    }
  }

  /** Putting text in front of a path keeps its last element when that element has no '/'. */
  lemma BaseAfterPrefix(prefix: string, body: string, file: string)
    requires Base(body) == file && '/' !in file && |prefix| > 0 && prefix[|prefix| - 1] == '/'
    ensures Base(prefix + body) == file
  {
    var s := prefix + body;
    match LastIndexOf(body, '/')
    case None =>
      assert body == file;
      LastIndexOfAt(s, '/', |prefix| - 1);
      assert s[|prefix|..] == body;
    case Some(i) =>
      assert s[|prefix| + i] == '/';
      assert s[|prefix| + i + 1..] == body[i + 1..];
      LastIndexOfAt(s, '/', |prefix| + i);
  }

  /** An element of a path that cleaning leaves as it is. */
  predicate PlainElement(e: string) {
    '/' !in e && e != "" && e != "." && e != ".."
  }

  /**
   * A relative one-element directory keeps its text: the key file lands at
   * `dir/<namespace>-<name>.key`.
   */
  lemma MasterKeyFileNameInDirectory(dir: string, namespace: string, name: string)
    requires PlainElement(dir) && '/' !in namespace && '/' !in name
    ensures MasterKeyFileName(dir, namespace, name) == dir + "/" + namespace + "-" + name + ".key"
  {
    var file := namespace + "-" + name + ".key";
    assert |file| >= 5;
    var elems := [dir, file];
    assert Join(elems, '/') == dir + "/" + file;
    SplitJoin(elems, '/');
    assert elems[..1] == [dir];
    assert [dir][..0] == [];
    assert CleanElements([dir], false) == [dir];
    assert CleanElements(elems, false) == CleanElements([dir], false) + [file];
  }
}

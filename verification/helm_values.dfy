/**
 * The nested chart-values map (`map[string]interface{}`) that the flag translation
 * fills in, and the helper that writes one value at a key path inside it.
 */
module HelmValues {
  import opened Basics

  /** A chart value: a string, a boolean, or a nested map of further values. */
  datatype Value = Str(s: string) | Bool(b: bool) | Node(children: map<string, Value>)

  type Values = map<string, Value>

  /** One write: the key path and the value stored at its end. */
  datatype Entry = Entry(path: seq<string>, value: Value)

  /**
   * util.SetHelmValueInMap: walk the path from the top, creating an empty map for
   * every missing intermediate key, and store x under the last key. An
   * intermediate key that holds a value other than a map is replaced by an
   * empty map as well.
   */
  function SetPath(m: Values, path: seq<string>, x: Value): Values
    requires |path| > 0
    decreases |path|
  {
    if |path| == 1 then m[path[0] := x]
    else
      var child := if path[0] in m && m[path[0]].Node? then m[path[0]].children else map[];
      m[path[0] := Node(SetPath(child, path[1..], x))]
  }

  /** The value stored at a key path, if every step of the path exists. */
  function GetPath(m: Values, path: seq<string>): Option<Value>
    requires |path| > 0
    decreases |path|
  {
    if path[0] !in m then None
    else if |path| == 1 then Some(m[path[0]])
    else if m[path[0]].Node? then GetPath(m[path[0]].children, path[1..])
    else None
  }

  /** Reading back the path just written gives the value written. */
  lemma {:induction false} GetSetSame(m: Values, path: seq<string>, x: Value)
    requires |path| > 0
    ensures GetPath(SetPath(m, path, x), path) == Some(x)
    decreases |path|
  {
    if |path| > 1 {
      var child := if path[0] in m && m[path[0]].Node? then m[path[0]].children else map[];
      GetSetSame(child, path[1..], x);
    }
  }

  /** p and q agree on their first i keys and differ at key i. */
  predicate DivergeAt(p: seq<string>, q: seq<string>, i: nat) {
    i < |p| && i < |q| && p[..i] == q[..i] && p[i] != q[i]
  }

  /** Writing at one path leaves every path that branches away from it unchanged. */
  lemma {:induction false} GetSetOther(m: Values, p: seq<string>, x: Value, q: seq<string>, i: nat)
    requires DivergeAt(p, q, i)
    ensures GetPath(SetPath(m, p, x), q) == GetPath(m, q)
    decreases i
  {
    if i > 0 {
      assert p[0] == p[..i][0] == q[..i][0] == q[0];
      assert |p| > 1 && |q| > 1;
      var child := if p[0] in m && m[p[0]].Node? then m[p[0]].children else map[];
      assert p[1..][..i - 1] == p[..i][1..] == q[..i][1..] == q[1..][..i - 1];
      GetSetOther(child, p[1..], x, q[1..], i - 1);
      if p[0] in m && m[p[0]].Node? {
      } else {
        GetPathEmpty(q[1..]);
      }
    }
  }

  /** Nothing can be read from an empty map. */
  lemma GetPathEmpty(q: seq<string>)
    requires |q| > 0
    ensures GetPath(map[], q) == None
  {
  }

  /** Apply writes in order, each one to the result of the previous (repeated SetHelmValueInMap calls). */
  function SetPaths(m: Values, entries: seq<Entry>): Values
    requires forall e <- entries :: |e.path| > 0
    decreases |entries|
  {
    if entries == [] then m
    else SetPaths(SetPath(m, entries[0].path, entries[0].value), entries[1..])
  }

  /** A single write is one SetHelmValueInMap call. */
  lemma SetPathsOne(m: Values, e: Entry)
    requires |e.path| > 0
    ensures SetPaths(m, [e]) == SetPath(m, e.path, e.value)
  {
    assert [e][1..] == [];
  }

  /** Writes applied one after another: the last write goes on top of the others. */
  lemma {:induction false} SetPathsSnoc(m: Values, entries: seq<Entry>, e: Entry)
    requires forall x <- entries :: |x.path| > 0
    requires |e.path| > 0
    ensures forall x <- entries + [e] :: |x.path| > 0
    ensures SetPaths(m, entries + [e]) == SetPath(SetPaths(m, entries), e.path, e.value)
    decreases |entries|
  {
    if entries == [] {
      assert [] + [e] == [e];
      SetPathsOne(m, e);
    } else {
      assert (entries + [e])[1..] == entries[1..] + [e];
      SetPathsSnoc(SetPath(m, entries[0].path, entries[0].value), entries[1..], e);
    }
  }

  /** Three writes in a row are the three single writes one after another. */
  lemma SetPathsThree(m: Values, a: Entry, b: Entry, c: Entry)
    requires |a.path| > 0 && |b.path| > 0 && |c.path| > 0
    ensures SetPaths(m, [a, b, c]) == SetPaths(SetPaths(SetPaths(m, [a]), [b]), [c])
  {
    SetPathsOne(m, a);
    SetPathsOne(SetPaths(m, [a]), b);
    SetPathsOne(SetPaths(SetPaths(m, [a]), [b]), c);
    SetPathsSnoc(m, [a], b);
    assert [a] + [b] == [a, b];
    SetPathsSnoc(m, [a, b], c);
    assert [a, b] + [c] == [a, b, c];
  }

  /** q leaves p at some key: the two paths name different entries from there on. */
  ghost predicate Branches(p: seq<string>, q: seq<string>) {
    exists i :: DivergeAt(p, q, i)
  }

  /** Paths whose first keys differ branch at the top. */
  lemma BranchesAtTop(p: seq<string>, q: seq<string>)
    requires |p| > 0 && |q| > 0 && p[0] != q[0]
    ensures Branches(p, q)
  {
    assert DivergeAt(p, q, 0);
  }

  /** A path that branches away from every written path reads the same before and after the writes. */
  lemma {:induction false} GetSetPathsOther(m: Values, entries: seq<Entry>, q: seq<string>)
    requires forall e <- entries :: |e.path| > 0
    requires |q| > 0
    requires forall e <- entries :: Branches(e.path, q)
    ensures GetPath(SetPaths(m, entries), q) == GetPath(m, q)
    decreases |entries|
  {
    if entries != [] {
      var e := entries[0];
      var i :| DivergeAt(e.path, q, i);
      GetSetOther(m, e.path, e.value, q, i);
      assert forall x <- entries[1..] :: x in entries;
      GetSetPathsOther(SetPath(m, e.path, e.value), entries[1..], q);
    }
  }

  /** After a run of writes, the path of the last one reads back its value. */
  lemma {:induction false} GetSetPathsLast(m: Values, entries: seq<Entry>, e: Entry)
    requires forall x <- entries :: |x.path| > 0
    requires |e.path| > 0
    ensures forall x <- entries + [e] :: |x.path| > 0
    ensures GetPath(SetPaths(m, entries + [e]), e.path) == Some(e.value)
    decreases |entries|
  {
    if entries == [] {
      assert [e][1..] == [];
      GetSetSame(m, e.path, e.value);
    } else {
      assert (entries + [e])[1..] == entries[1..] + [e];
      GetSetPathsLast(SetPath(m, entries[0].path, entries[0].value), entries[1..], e);
    }
  }
}

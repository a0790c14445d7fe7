/** A chain of scopes, innermost first. This is the shape shared by the type
    checker's `TypeEnvironment` (name to `Type`) and the interpreter's
    `Environment` (name to `Value`): one `HashMap` per scope plus an owned
    link to the parent scope. Both are plain values in Rust (cloned, never
    shared), so they are values here too. */
module Scopes {
  import opened Wrappers

  /** A chain always has a current (innermost) scope. */
  type Chain<T> = s: seq<map<string, T>> | |s| > 0 witness [map[]]

  /** Index of the innermost scope that binds `name`, or `|c|` if none does. */
  function Innermost<T>(c: seq<map<string, T>>, name: string): (k: nat)
    ensures k <= |c|
    ensures forall j | 0 <= j < k :: name !in c[j]
    ensures k < |c| ==> name in c[k]
    decreases |c|
  {
    if c == [] || name in c[0] then 0 else Innermost(c[1..], name) + 1
  }

  /** `get`: look in the current scope, then in the parent, and so on. */
  function Get<T>(c: seq<map<string, T>>, name: string): (r: Option<T>)
    ensures var k := Innermost(c, name);
            r == if k < |c| then Some(c[k][name]) else None
    decreases |c|
  {
    if c == [] then None
    else if name in c[0] then Some(c[0][name])
    else Get(c[1..], name)
  }

  /** `extend(parent)`: a new, empty current scope whose parent is `parent`. */
  function Extend<T>(parent: Chain<T>): (c: Chain<T>)
    ensures c[1..] == parent
  {
    [map[]] + parent
  }

  /** `define`: insert or overwrite in the current scope only. */
  function Define<T>(c: Chain<T>, name: string, v: T): (d: Chain<T>)
    ensures |d| == |c| && d[1..] == c[1..]
    ensures d[0].Keys == c[0].Keys + {name}
  {
    c[0 := c[0][name := v]]
  }

  /** `assign`: overwrite the binding in the nearest scope that holds `name`;
      `None` stands for the error "Undefined variable" when no scope does. */
  function Assign<T>(c: seq<map<string, T>>, name: string, v: T): (r: Option<seq<map<string, T>>>)
    ensures r.None? <==> Innermost(c, name) == |c|
    ensures r.Some? ==> |r.value| == |c|
    decreases |c|
  {
    if c == [] then None
    else if name in c[0] then Some([c[0][name := v]] + c[1..])
    else
      var rest :- Assign(c[1..], name, v);
      Some([c[0]] + rest)
  }

  /** After `assign`, the nearest scope holding the name is the only one that
      changed, and in it only that name changed. */
  lemma {:induction false} AssignChangesNearestOnly<T>(c: seq<map<string, T>>, name: string, v: T)
    requires Innermost(c, name) < |c|
    ensures Assign(c, name, v).Some?
    ensures var d := Assign(c, name, v).value;
            var k := Innermost(c, name);
            d[k] == c[k][name := v] &&
            forall j | 0 <= j < |c| && j != k :: d[j] == c[j]
    decreases |c|
  {
    if name !in c[0] {
      AssignChangesNearestOnly(c[1..], name, v);
      var d := Assign(c, name, v).value;
      var d' := Assign(c[1..], name, v).value;
      assert d == [c[0]] + d';
      forall j | 1 <= j < |c| ensures d[j] == if j == Innermost(c, name) then c[j][name := v] else c[j] {
        assert d[j] == d'[j - 1];
        assert c[1..][j - 1] == c[j];
      }
    }
  }

  /** Reading back: `get` after `define` sees the new value for that name
      and the old binding for every other name. */
  lemma GetAfterDefine<T>(c: Chain<T>, name: string, v: T, other: string)
    ensures Get(Define(c, name, v), name) == Some(v)
    ensures other != name ==> Get(Define(c, name, v), other) == Get(c, other)
  {
    var d := Define(c, name, v);
    assert Get(d, other) == if other in d[0] then Some(d[0][other]) else Get(d[1..], other);
  }

  /** A fresh child scope hides nothing of its parent. */
  lemma GetAfterExtend<T>(c: Chain<T>, name: string)
    ensures Get(Extend(c), name) == Get(c, name)
  {
    assert Extend(c)[1..] == c;
  }

  /** Reading back: `get` after a successful `assign` sees the new value for
      that name and the old binding for every other name. */
  lemma {:induction false} GetAfterAssign<T>(c: seq<map<string, T>>, name: string, v: T, other: string)
    requires Assign(c, name, v).Some?
    ensures Get(Assign(c, name, v).value, name) == Some(v)
    ensures other != name ==> Get(Assign(c, name, v).value, other) == Get(c, other)
    decreases |c|
  {
    var d := Assign(c, name, v).value;
    if name in c[0] {
      assert d[1..] == c[1..];
    } else {
      GetAfterAssign(c[1..], name, v, other);
      assert d[1..] == Assign(c[1..], name, v).value;
    }
  }

  /** One `define` per name, left to right, all into the current scope (how a
      call binds its parameters). A later duplicate name overwrites an
      earlier one. */
  function DefineAll<T>(c: Chain<T>, names: seq<string>, vs: seq<T>): (d: Chain<T>)
    requires |names| == |vs|
    ensures |d| == |c| && d[1..] == c[1..]
    decreases |names|
  {
    if names == [] then c
    else
      var n := |names| - 1;
      Define(DefineAll(c, names[..n], vs[..n]), names[n], vs[n])
  }

  /** Reading back after `DefineAll`: a name among `names` sees the value
      paired with its last occurrence; any other name its old binding. */
  lemma {:induction false} GetAfterDefineAll<T>(c: Chain<T>, names: seq<string>, vs: seq<T>, name: string)
    requires |names| == |vs|
    ensures name in names ==>
              exists k | 0 <= k < |names| ::
                names[k] == name && Get(DefineAll(c, names, vs), name) == Some(vs[k]) &&
                forall j | k < j < |names| :: names[j] != name
    ensures name !in names ==> Get(DefineAll(c, names, vs), name) == Get(c, name)
    decreases |names|
  {
    if names != [] {
      var n := |names| - 1;
      var inner := DefineAll(c, names[..n], vs[..n]);
      GetAfterDefine(inner, names[n], vs[n], name);
      if name == names[n] {
        assert names[n] == name && Get(DefineAll(c, names, vs), name) == Some(vs[n]);
      } else {
        GetAfterDefineAll(c, names[..n], vs[..n], name);
        assert name in names ==> name in names[..n] by {
          if name in names {
            var j :| 0 <= j < |names| && names[j] == name;
            assert names[..n][j] == name;
          }
        }
        if name in names {
          var k :| 0 <= k < n && names[..n][k] == name && Get(inner, name) == Some(vs[..n][k]) &&
                   forall j | k < j < n :: names[..n][j] != name;
          assert names[k] == name && vs[k] == vs[..n][k];
          assert forall j | k < j < |names| :: names[j] != name by {
            forall j | k < j < |names| ensures names[j] != name {
              if j < n { assert names[j] == names[..n][j]; }
            }
          }
        }
      }
    }
  }
}

/**
 * The code generator's scope environment (codegen.h): a stack of frames,
 * each a map from names to bindings, innermost frame last. Lookup searches
 * from the innermost frame outwards; a binding goes into the innermost
 * frame and, being a map insert, never replaces a name already there.
 */
module Scope {
  import opened Wrappers

  type Env<V> = seq<map<string, V>>

  /** getvar: the binding of `name` in the innermost frame that has one. */
  function Lookup<V>(env: Env<V>, name: string): (r: Option<V>)
    ensures r.Some? <==> exists i :: 0 <= i < |env| && name in env[i]
    ensures r.Some? ==> exists i :: 0 <= i < |env| && Innermost(env, name, i) && r.value == env[i][name]
  {
    if |env| == 0 then None
    else if name in env[|env| - 1] then
      assert Innermost(env, name, |env| - 1);
      Some(env[|env| - 1][name])
    else
      var outer := env[..|env| - 1];
      assert forall i :: 0 <= i < |outer| ==> outer[i] == env[i];
      var r := Lookup(outer, name);
      assert r.Some? ==> exists i :: 0 <= i < |env| && Innermost(env, name, i) && r.value == env[i][name] by {
        if r.Some? {
          var i :| 0 <= i < |outer| && Innermost(outer, name, i) && r.value == outer[i][name];
          assert Innermost(env, name, i);
        }
      }
      r
  }

  /** Lookup in the `i` outermost frames examines frame `i - 1` first. */
  lemma LookupPrefix<V>(env: Env<V>, i: int, name: string)
    requires 0 < i <= |env|
    ensures Lookup(env[..i], name) ==
              if name in env[i - 1] then Some(env[i - 1][name]) else Lookup(env[..i - 1], name)
  {
    assert env[..i][..i - 1] == env[..i - 1];
  }

  /** Frame `i` binds `name` and no frame inside it does. */
  predicate Innermost<V>(env: Env<V>, name: string, i: int)
    requires 0 <= i < |env|
  {
    name in env[i] && forall j :: i < j < |env| ==> name !in env[j]
  }

  /** The frame holding the binding is unique: any innermost binding frame is the one Lookup reads. */
  lemma LookupInnermost<V>(env: Env<V>, name: string, i: int)
    requires 0 <= i < |env| && Innermost(env, name, i)
    ensures Lookup(env, name) == Some(env[i][name])
  {
    assert name in env[i];
    var r := Lookup(env, name);
    assert r.Some?;
    var k :| 0 <= k < |env| && Innermost(env, name, k) && r.value == env[k][name];
    if k != i {
      assert false;
    }
  }

  /** addvar: inserts into the innermost frame, keeping an existing binding of the same name. */
  function Bind<V>(env: Env<V>, name: string, v: V): (r: Env<V>)
    requires |env| > 0
    ensures |r| == |env| && r[..|r| - 1] == env[..|env| - 1]
    ensures name in r[|r| - 1]
    ensures name in env[|env| - 1] ==> r == env
    ensures name !in env[|env| - 1] ==> r[|r| - 1] == env[|env| - 1][name := v]
  {
    var top := env[|env| - 1];
    if name in top then env else env[..|env| - 1] + [top[name := v]]
  }

  /** After a bind, the bound name resolves to the new value unless the innermost frame already had it; other names are unaffected. */
  lemma BindLookup<V>(env: Env<V>, name: string, v: V, other: string)
    requires |env| > 0
    ensures Lookup(Bind(env, name, v), name) == (if name in env[|env| - 1] then Lookup(env, name) else Some(v))
    ensures other != name ==> Lookup(Bind(env, name, v), other) == Lookup(env, other)
  {
    var r := Bind(env, name, v);
    if name !in env[|env| - 1] {
      assert r[..|r| - 1] == env[..|env| - 1];
    }
  }

  /**
   * `e1` is `e0` after bindings into its innermost frame: the same frames,
   * the outer ones untouched, the innermost one only gaining names.
   */
  ghost predicate Extends<V>(e0: Env<V>, e1: Env<V>)
  {
    && |e0| == |e1|
    && (|e0| > 0 ==>
          && e1[..|e1| - 1] == e0[..|e0| - 1]
          && Grown(e0[|e0| - 1], e1[|e1| - 1]))
  }

  /** `m1` keeps every binding of `m0`. */
  ghost predicate Grown<V>(m0: map<string, V>, m1: map<string, V>)
  {
    forall k :: k in m0 ==> k in m1 && m1[k] == m0[k]
  }

  lemma ExtendsTrans<V>(e0: Env<V>, e1: Env<V>, e2: Env<V>)
    requires Extends(e0, e1) && Extends(e1, e2)
    ensures Extends(e0, e2)
  {
  }

  lemma BindExtends<V>(env: Env<V>, name: string, v: V)
    requires |env| > 0
    ensures Extends(env, Bind(env, name, v))
  {
  }

  /**
   * push_scope, bindings into the new frame, pop_scope: the frames are
   * exactly the ones before the push, so every name resolves as it did
   * before, including one the inner frame shadowed.
   */
  lemma ScopeRestores<V>(env: Env<V>, inner: Env<V>)
    requires Extends(env + [map[]], inner)
    ensures inner[..|inner| - 1] == env
    ensures forall n :: Lookup(inner[..|inner| - 1], n) == Lookup(env, n)
  {
    assert (env + [map[]])[..|env|] == env;
  }

  /** While the inner frame is open, it shadows the outer ones. */
  lemma InnerShadows<V>(env: Env<V>, frame: map<string, V>, name: string)
    ensures Lookup(env + [frame], name) == if name in frame then Some(frame[name]) else Lookup(env, name)
  {
    assert (env + [frame])[..|env|] == env;
  }
}

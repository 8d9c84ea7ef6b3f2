/**
 * Turning a step's environment into the `KEY=VALUE` list handed to a container.
 */
module EnvUtils {
  type Env = map<string, string>

  /** One container environment entry. */
  function Entry(k: string, v: string): string {
    k + "=" + v
  }

  /**
   * The entries of an environment as a multiset: one per key, whatever the
   * order the keys are visited in (see `EntriesRemove`).
   */
  ghost function Entries(env: Env): multiset<string>
    decreases env.Keys
  {
    if env == map[] then multiset{}
    else
      var k := Pick(env);
      Entries(env - {k}) + multiset{Entry(k, env[k])}
  }

  /** Some key of a non-empty map. */
  ghost function Pick(env: Env): (k: string)
    requires env != map[]
    ensures k in env
  {
    assert env.Keys != {};
    var k :| k in env; k
  }

  /** Taking out any one key first gives the same multiset. */
  lemma {:induction false} EntriesRemove(env: Env, k: string)
    requires k in env
    ensures Entries(env) == Entries(env - {k}) + multiset{Entry(k, env[k])}
    decreases env.Keys
  {
    var j := Pick(env);
    if j != k {
      var both := env - {j} - {k};
      assert env - {k} - {j} == both;
      EntriesRemove(env - {j}, k);
      EntriesRemove(env - {k}, j);
      var ej, ek := multiset{Entry(j, env[j])}, multiset{Entry(k, env[k])};
      assert Entries(env) == Entries(both) + ek + ej;
      assert Entries(env - {k}) + ek == Entries(both) + ej + ek;
    }
  }

  /** One entry per key. */
  lemma {:induction false} EntriesSize(env: Env)
    ensures |Entries(env)| == |env|
    decreases env.Keys
  {
    if env != map[] {
      var k := Pick(env);
      EntriesRemove(env, k);
      EntriesSize(env - {k});
      assert (env - {k}).Keys == env.Keys - {k};
    }
  }

  /** An entry is present exactly when it is `k=v` for some key `k` with value `v`. */
  lemma {:induction false} EntriesMembers(env: Env, s: string)
    ensures s in Entries(env) <==> exists k :: k in env && s == Entry(k, env[k])
    decreases env.Keys
  {
    if env != map[] {
      var k := Pick(env);
      EntriesRemove(env, k);
      EntriesMembers(env - {k}, s);
      if s == Entry(k, env[k]) {
        assert s in Entries(env);
      } else if s in Entries(env) {
        assert s in Entries(env - {k});
        var j :| j in env - {k} && s == Entry(j, (env - {k})[j]);
        assert j in env && s == Entry(j, env[j]);
      } else {
        forall j | j in env
          ensures s != Entry(j, env[j])
        {
          if j != k {
            assert j in env - {k};
          }
        }
      }
    }
  }

  /**
   * `ConvertEnvMp2StrSlice`: the map is walked in some order and every entry
   * is appended as `k=v`; an empty map gives an empty list.
   */
  method ConvertEnvMp2StrSlice(env: Env) returns (ret: seq<string>)
    ensures multiset(ret) == Entries(env)
    ensures |ret| == |env|
    ensures forall k :: k in env ==> Entry(k, env[k]) in ret
    ensures forall i :: 0 <= i < |ret| ==> exists k :: k in env && ret[i] == Entry(k, env[k])
    ensures env == map[] ==> ret == []
  {
    ret := [];
    var rest := env;
    while rest != map[]
      invariant rest.Keys <= env.Keys
      invariant forall k :: k in rest ==> rest[k] == env[k]
      invariant multiset(ret) + Entries(rest) == Entries(env)
      decreases rest.Keys
    {
      assert rest.Keys != {};
      var k :| k in rest;
      EntriesRemove(rest, k);
      ret := ret + [Entry(k, rest[k])];
      rest := rest - {k};
    }
    ListedEntries(env, ret);
  }

  /** A list holding exactly the map's entries lists each entry and nothing else. */
  lemma ListedEntries(env: Env, ret: seq<string>)
    requires multiset(ret) == Entries(env)
    ensures |ret| == |env|
    ensures forall k :: k in env ==> Entry(k, env[k]) in ret
    ensures forall i :: 0 <= i < |ret| ==> exists k :: k in env && ret[i] == Entry(k, env[k])
  {
    EntriesSize(env);
    assert |multiset(ret)| == |ret|;
    forall k | k in env
      ensures Entry(k, env[k]) in ret
    {
      EntriesMembers(env, Entry(k, env[k]));
      assert Entry(k, env[k]) in multiset(ret);
    }
    forall i | 0 <= i < |ret|
      ensures exists k :: k in env && ret[i] == Entry(k, env[k])
    {
      assert ret[i] in multiset(ret);
      EntriesMembers(env, ret[i]);
    }
  }
}

/**
 * The `common` module a Lua step's script loads: conversion between Lua
 * values and Go values (the JSON bridge), and the bridge functions that read
 * and write the pipeline's environment. Lua tables are the sequence of their
 * key/value pairs in the order `ForEach` visits them; Lua numbers are kept
 * as the text Lua prints for them.
 */
module LuaLoader {
  import opened Wrappers
  import opened Text
  import Define

  /** A Lua value. The entries of a table are in visiting order and may hold nil values. */
  datatype LuaValue =
    | LNil
    | LBool(b: bool)
    | LNum(text: string)
    | LStr(s: string)
    | LTable(entries: seq<Entry>)
    | LFunction
    | LUserData

  datatype Entry = Entry(key: LuaValue, value: LuaValue)

  /** A Go value as `encoding/json` sees it; a map is its key/value pairs with distinct keys. */
  datatype Host =
    | HNull
    | HBool(b: bool)
    | HNum(text: string)
    | HStr(s: string)
    | HList(items: seq<Host>)
    | HMap(pairs: seq<(string, Host)>)

  // ---------------------------------------------------------------- tables

  /** The entries `ForEach` visits: those whose value is not nil, in order. */
  function Visible(es: seq<Entry>): (r: seq<Entry>)
    ensures forall i :: 0 <= i < |r| ==> r[i] in es && !r[i].value.LNil?
    ensures (forall i :: 0 <= i < |es| ==> !es[i].value.LNil?) ==> r == es
    ensures |r| <= |es|
  {
    if es == [] then []
    else (if es[0].value.LNil? then [] else [es[0]]) + Visible(es[1..])
  }

  /** `checkList`: a table all of whose visited keys are numbers; the empty table is one. */
  predicate CheckList(v: LuaValue): (b: bool)
    ensures b ==> v.LTable?
    ensures v.LTable? && Visible(v.entries) == [] ==> b
  {
    v.LTable? && forall i :: 0 <= i < |Visible(v.entries)| ==> Visible(v.entries)[i].key.LNum?
  }

  /** The `String()` of a table key; tables, functions and userdata print as their kind. */
  function KeyString(k: LuaValue): string {
    match k
    case LNil => "nil"
    case LBool(b) => if b then "true" else "false"
    case LNum(text) => text
    case LStr(s) => s
    case LTable(_) => "table"
    case LFunction => "function"
    case LUserData => "userdata"
  }

  // ------------------------------------------------------------ host maps

  /** The position of key `k` in a host map, if it is there. */
  function FindKey(m: seq<(string, Host)>, k: string): (r: Option<nat>)
    ensures r.None? <==> forall i :: 0 <= i < |m| ==> m[i].0 != k
    ensures r.Some? ==> r.value < |m| && m[r.value].0 == k
  {
    if m == [] then None
    else if m[0].0 == k then Some(0)
    else match FindKey(m[1..], k)
      case None => None
      case Some(i) => Some(i + 1)
  }

  /** `m[k] = v` on a Go map: the value of an existing key is replaced, a new key is added. */
  function Assign(m: seq<(string, Host)>, k: string, v: Host): (r: seq<(string, Host)>)
    ensures FindKey(m, k).None? ==> r == m + [(k, v)]
    ensures FindKey(m, k).Some? ==> r == m[FindKey(m, k).value := (k, v)]
  {
    match FindKey(m, k)
    case None => m + [(k, v)]
    case Some(i) => m[i := (k, v)]
  }

  /** The value of key `k` in a host map. */
  function Lookup(m: seq<(string, Host)>, k: string): Option<Host> {
    match FindKey(m, k)
    case None => None
    case Some(i) => Some(m[i].1)
  }

  predicate DistinctKeys(m: seq<(string, Host)>) {
    forall i, j :: 0 <= i < j < |m| ==> m[i].0 != m[j].0
  }

  /** A key is found at the first position that holds it. */
  lemma {:induction false} FindKeyAt(m: seq<(string, Host)>, k: string, j: nat)
    requires j < |m| && m[j].0 == k
    requires forall i :: 0 <= i < j ==> m[i].0 != k
    ensures FindKey(m, k) == Some(j)
    decreases j
  {
    if j > 0 {
      forall i | 0 <= i < j - 1
        ensures m[1..][i].0 != k
      {
        assert m[1..][i] == m[i + 1];
      }
      FindKeyAt(m[1..], k, j - 1);
    }
  }

  /** In a map with distinct keys, a key is found at the one position that holds it. */
  lemma FindKeyFirst(m: seq<(string, Host)>, k: string)
    requires DistinctKeys(m)
    ensures FindKey(m, k).Some? ==> forall i :: 0 <= i < |m| && i != FindKey(m, k).value ==> m[i].0 != k
  {
  }

  /** After `m[k] = v` the key reads `v`, every other key reads as before, and keys stay distinct. */
  lemma AssignLookup(m: seq<(string, Host)>, k: string, v: Host, other: string)
    requires DistinctKeys(m)
    ensures Lookup(Assign(m, k, v), k) == Some(v)
    ensures other != k ==> Lookup(Assign(m, k, v), other) == Lookup(m, other)
    ensures DistinctKeys(Assign(m, k, v))
  {
    var r := Assign(m, k, v);
    FindKeyFirst(m, k);
    FindKeyFirst(m, other);
    match FindKey(m, k)
    case None =>
      FindKeyAt(r, k, |m|);
      if other != k {
        match FindKey(m, other)
        case None =>
        case Some(j) => FindKeyAt(r, other, j);
      }
    case Some(i) =>
      FindKeyAt(r, k, i);
      if other != k {
        match FindKey(m, other)
        case None =>
        case Some(j) => FindKeyAt(r, other, j);
      }
  }

  /** The map built by assigning the pairs in order, as the marshal loop does. */
  function BuildMap(ps: seq<(string, Host)>): (r: seq<(string, Host)>)
    decreases |ps|
  {
    if ps == [] then [] else Assign(BuildMap(ps[..|ps| - 1]), ps[|ps| - 1].0, ps[|ps| - 1].1)
  }

  /** Assigning pairs with distinct keys builds the map of exactly those pairs, in order. */
  lemma {:induction false} BuildMapDistinct(ps: seq<(string, Host)>)
    requires DistinctKeys(ps)
    ensures BuildMap(ps) == ps
    decreases |ps|
  {
    if ps != [] {
      var init := ps[..|ps| - 1];
      assert DistinctKeys(init);
      BuildMapDistinct(init);
      var last := ps[|ps| - 1];
      assert forall i :: 0 <= i < |init| ==> init[i].0 != last.0;
      assert init + [last] == ps;
    }
  }

  // ------------------------------------------------------------------ marshal

  /**
   * `marshal`: a list-like table gives the list of its visited values, any
   * other table the map from each visited key's string form to its value,
   * a later key overwriting an earlier one of the same form; numbers,
   * strings and booleans keep their kind, and every other value is nil.
   */
  function Marshal(v: LuaValue): (r: Host)
    ensures v.LBool? ==> r == HBool(v.b)
    ensures v.LNum? ==> r == HNum(v.text)
    ensures v.LStr? ==> r == HStr(v.s)
    ensures v.LNil? || v.LFunction? || v.LUserData? ==> r == HNull
    ensures v.LTable? ==> (r.HList? <==> CheckList(v))
    ensures CheckList(v) ==> |r.items| == |Visible(v.entries)|
    decreases v
  {
    match v
    case LTable(es) =>
      var vis := Visible(es);
      var vals := seq(|vis|, i requires 0 <= i < |vis| => Marshal(vis[i].value));
      if CheckList(v) then HList(vals)
      else HMap(BuildMap(seq(|vis|, i requires 0 <= i < |vis| => (KeyString(vis[i].key), vals[i]))))
    case LNum(text) => HNum(text)
    case LStr(s) => HStr(s)
    case LBool(b) => HBool(b)
    case _ => HNull
  }

  /** The visited values of a table, marshalled. */
  function Vals(es: seq<Entry>): (r: seq<Host>)
    ensures |r| == |Visible(es)|
  {
    var vis := Visible(es);
    seq(|vis|, i requires 0 <= i < |vis| => Marshal(vis[i].value))
  }

  /** The visited entries of a table as key strings with marshalled values, before the map is built. */
  function Pairs(es: seq<Entry>): (r: seq<(string, Host)>)
    ensures |r| == |Visible(es)|
  {
    var vis := Visible(es);
    seq(|vis|, i requires 0 <= i < |vis| => (KeyString(vis[i].key), Marshal(vis[i].value)))
  }

  /** A table marshals to the list of its visited values when list-like, else to the map built from its pairs. */
  lemma MarshalTable(es: seq<Entry>)
    ensures CheckList(LTable(es)) ==> Marshal(LTable(es)) == HList(Vals(es))
    ensures !CheckList(LTable(es)) ==> Marshal(LTable(es)) == HMap(BuildMap(Pairs(es)))
  {
    var vis := Visible(es);
    var vals := seq(|vis|, i requires 0 <= i < |vis| => Marshal(vis[i].value));
    assert seq(|vis|, i requires 0 <= i < |vis| => (KeyString(vis[i].key), vals[i])) == Pairs(es);
  }

  /** Two assignments to the same key leave one pair, holding the later value. */
  lemma BuildMapSameKey(k: string, u: Host, w: Host)
    ensures BuildMap([(k, u), (k, w)]) == [(k, w)]
  {
    var ps := [(k, u), (k, w)];
    assert ps[..1] == [(k, u)];
    assert ps[..1][..0] == [];
    assert BuildMap(ps[..1]) == [(k, u)];
    assert FindKey([(k, u)], k) == Some(0);
  }

  /** The pairs of a two-entry table with no nil value. */
  lemma PairsOfTwo(a: LuaValue, b: LuaValue, x: LuaValue, y: LuaValue)
    requires !x.LNil? && !y.LNil?
    ensures Visible([Entry(a, x), Entry(b, y)]) == [Entry(a, x), Entry(b, y)]
    ensures Pairs([Entry(a, x), Entry(b, y)]) == [(KeyString(a), Marshal(x)), (KeyString(b), Marshal(y))]
  {
    var es := [Entry(a, x), Entry(b, y)];
    assert Visible(es) == es;
    var p := Pairs(es);
    assert p[0] == (KeyString(a), Marshal(x));
    assert p[1] == (KeyString(b), Marshal(y));
  }

  /** In the map a table marshals to, a key's value is that of the last visited key of the same form. */
  lemma MarshalMapLastWins(a: LuaValue, b: LuaValue, x: LuaValue, y: LuaValue)
    requires KeyString(a) == KeyString(b) && !x.LNil? && !y.LNil? && !a.LNum?
    ensures Marshal(LTable([Entry(a, x), Entry(b, y)])) == HMap([(KeyString(b), Marshal(y))])
  {
    var es := [Entry(a, x), Entry(b, y)];
    PairsOfTwo(a, b, x, y);
    assert !CheckList(LTable(es));
    MarshalTable(es);
    BuildMapSameKey(KeyString(b), Marshal(x), Marshal(y));
  }

  // ---------------------------------------------------------------- unmarshal

  /** `unmarshal`: a map gives a table keyed by strings, a list of n items one keyed 1 to n. */
  function Unmarshal(h: Host): (r: LuaValue)
    ensures r.LNil? <==> h.HNull?
    ensures h.HList? ==> (r.LTable? && |r.entries| == |h.items|
      && forall i :: 0 <= i < |h.items| ==> r.entries[i] == Entry(LNum(NatToString(i + 1)), Unmarshal(h.items[i])))
    ensures h.HMap? ==> (r.LTable? && |r.entries| == |h.pairs|
      && forall i :: 0 <= i < |h.pairs| ==> r.entries[i] == Entry(LStr(h.pairs[i].0), Unmarshal(h.pairs[i].1)))
    decreases h
  {
    match h
    case HMap(ps) => LTable(seq(|ps|, i requires 0 <= i < |ps| => Entry(LStr(ps[i].0), Unmarshal(ps[i].1))))
    case HList(xs) => LTable(seq(|xs|, i requires 0 <= i < |xs| => Entry(LNum(NatToString(i + 1)), Unmarshal(xs[i]))))
    case HNum(text) => LNum(text)
    case HStr(s) => LStr(s)
    case HBool(b) => LBool(b)
    case HNull => LNil
  }

  /** Go values that survive the trip into Lua and back: no nulls, no empty maps, no repeated keys. */
  predicate Plain(h: Host)
    decreases h
  {
    match h
    case HNull => false
    case HList(xs) => forall i :: 0 <= i < |xs| ==> Plain(xs[i])
    case HMap(ps) => |ps| > 0 && DistinctKeys(ps) && forall i :: 0 <= i < |ps| ==> Plain(ps[i].1)
    case _ => true
  }

  /** Unmarshalling a plain Go value into Lua and marshalling it back gives the same value. */
  lemma {:induction false} RoundTrip(h: Host)
    requires Plain(h)
    ensures Marshal(Unmarshal(h)) == h
    decreases h, 2
  {
    match h
    case HList(xs) => RoundTripList(h);
    case HMap(ps) => RoundTripMap(h);
    case _ =>
  }

  lemma {:induction false} RoundTripList(h: Host)
    requires h.HList? && Plain(h)
    ensures Marshal(Unmarshal(h)) == h
    decreases h, 0
  {
    var xs := h.items;
    var es := Unmarshal(h).entries;
    assert Visible(es) == es;
    assert CheckList(Unmarshal(h));
    MarshalTable(es);
    forall i | 0 <= i < |xs|
      ensures Vals(es)[i] == xs[i]
    {
      assert es[i].value == Unmarshal(xs[i]);
      RoundTrip(xs[i]);
    }
    assert Vals(es) == xs;
  }

  lemma {:induction false} RoundTripMap(h: Host)
    requires h.HMap? && Plain(h)
    ensures Marshal(Unmarshal(h)) == h
    decreases h, 1
  {
    MapEntries(h);
    PairsRoundTrip(h);
    BuildMapDistinct(h.pairs);
  }

  /** The pairs of the table of a plain Go map marshal back to the map's pairs. */
  lemma {:induction false} PairsRoundTrip(h: Host)
    requires h.HMap? && Plain(h)
    requires Visible(Unmarshal(h).entries) == Unmarshal(h).entries
    ensures Pairs(Unmarshal(h).entries) == h.pairs
    decreases h, 0
  {
    var ps := h.pairs;
    var es := Unmarshal(h).entries;
    forall i | 0 <= i < |ps|
      ensures Pairs(es)[i] == ps[i]
    {
      PairAt(h, i);
      RoundTrip(ps[i].1);
    }
  }

  /** The table of a plain Go map: every entry visible, string keys, so it marshals as a map. */
  lemma MapEntries(h: Host)
    requires h.HMap? && Plain(h)
    ensures var es := Unmarshal(h).entries;
      Visible(es) == es && Marshal(Unmarshal(h)) == HMap(BuildMap(Pairs(es)))
  {
    var es := Unmarshal(h).entries;
    assert Visible(es) == es;
    assert es[0].key.LStr?;
    assert !CheckList(Unmarshal(h));
    MarshalTable(es);
  }

  /** The i-th pair of the table of a Go map, before it is marshalled back. */
  lemma PairAt(h: Host, i: nat)
    requires h.HMap? && Plain(h) && i < |h.pairs|
    requires Visible(Unmarshal(h).entries) == Unmarshal(h).entries
    ensures Pairs(Unmarshal(h).entries)[i] == (h.pairs[i].0, Marshal(Unmarshal(h.pairs[i].1)))
  {
    var es := Unmarshal(h).entries;
    assert es[i] == Entry(LStr(h.pairs[i].0), Unmarshal(h.pairs[i].1));
    assert Pairs(es)[i] == (KeyString(es[i].key), Marshal(es[i].value));
  }

  /** An empty Go map comes back from Lua as an empty list: the empty table is list-like. */
  lemma EmptyMapBecomesList()
    ensures Marshal(Unmarshal(HMap([]))) == HList([])
  {
    assert Visible([]) == [];
  }

  // ------------------------------------------------------------ the bridge

  /** The names the `common` module exports. */
  const ExportNames: set<string> :=
    {"curlGet", "curlPost", "curlPostJson", "log", "jsonMarshal", "jsonUnmarshal", "getEnv", "setEnv", "fail"}

  lemma ExportCount()
    ensures |ExportNames| == 9
  {
  }

  /** `LVAsString`: strings and numbers read as their text, anything else as the empty string. */
  function AsString(v: LuaValue): (r: string)
    ensures v.LStr? ==> r == v.s
    ensures r != "" ==> v.LStr? || v.LNum?
  {
    match v
    case LStr(s) => s
    case LNum(text) => text
    case _ => ""
  }

  /** `L.ToString(n)`: the n-th argument (counted from 1) as a string; a missing one is nil. */
  function Arg(args: seq<LuaValue>, n: nat): (r: string)
    requires n >= 1
    ensures n > |args| ==> r == ""
  {
    if n <= |args| then AsString(args[n - 1]) else ""
  }

  /** A call of a bridge function by a script. */
  datatype Call = Call(name: string, args: seq<LuaValue>)

  /** `setEnv(k, v)`: the environment maps `k` to `v`. */
  function SetEnv(env: Define.Env, args: seq<LuaValue>): (r: Define.Env)
    ensures Arg(args, 1) in r && r[Arg(args, 1)] == Arg(args, 2)
    ensures r.Keys == env.Keys + {Arg(args, 1)}
    ensures forall k :: k in env && k != Arg(args, 1) ==> r[k] == env[k]
  {
    env[Arg(args, 1) := Arg(args, 2)]
  }

  /** `getEnv(k)`: the value of `k`, or the empty string when it is not set. */
  function GetEnv(env: Define.Env, args: seq<LuaValue>): (r: LuaValue)
    ensures Arg(args, 1) in env ==> r == LStr(env[Arg(args, 1)])
    ensures Arg(args, 1) !in env ==> r == LStr("")
  {
    LStr(if Arg(args, 1) in env then env[Arg(args, 1)] else "")
  }

  /** `fail(r)`: what failing the pipeline with reason `r` does. */
  function FailCall(env: Define.Env, args: seq<LuaValue>): (r: Define.Env)
    ensures r == Define.Fail(env, Arg(args, 1))
    ensures Define.PipelineFailed(r) && Define.GetFailReason(r) == Arg(args, 1)
  {
    Define.Fail(env, Arg(args, 1))
  }

  /** The environment after a bridge call: only `setEnv` and `fail` write it. */
  function ApplyCall(env: Define.Env, c: Call): (r: Define.Env)
    ensures c.name == "setEnv" ==> r == SetEnv(env, c.args)
    ensures c.name == "fail" ==> r == FailCall(env, c.args)
    ensures c.name != "setEnv" && c.name != "fail" ==> r == env
  {
    if c.name == "setEnv" then SetEnv(env, c.args)
    else if c.name == "fail" then FailCall(env, c.args)
    else env
  }

  /** The environment after a script's bridge calls, in order; no call removes a key. */
  function ApplyCalls(env: Define.Env, cs: seq<Call>): (r: Define.Env)
    ensures env.Keys <= r.Keys
    decreases |cs|
  {
    if cs == [] then env else ApplyCalls(ApplyCall(env, cs[0]), cs[1..])
  }

  /** A script reads back what it set. */
  lemma SetThenGet(env: Define.Env, k: string, v: string)
    ensures GetEnv(ApplyCall(env, Call("setEnv", [LStr(k), LStr(v)])), [LStr(k)]) == LStr(v)
  {
  }

  /** Running calls one after another is running the first, then the rest. */
  lemma {:induction false} ApplyCallsAppend(env: Define.Env, cs1: seq<Call>, cs2: seq<Call>)
    ensures ApplyCalls(env, cs1 + cs2) == ApplyCalls(ApplyCalls(env, cs1), cs2)
    decreases |cs1|
  {
    if cs1 == [] {
      assert cs1 + cs2 == cs2;
    } else {
      assert (cs1 + cs2)[1..] == cs1[1..] + cs2;
      ApplyCallsAppend(ApplyCall(env, cs1[0]), cs1[1..], cs2);
    }
  }

  /** Calls that neither set nor fail leave the environment as it was. */
  lemma {:induction false} ReadOnlyCalls(env: Define.Env, cs: seq<Call>)
    requires forall i :: 0 <= i < |cs| ==> cs[i].name != "setEnv" && cs[i].name != "fail"
    ensures ApplyCalls(env, cs) == env
    decreases |cs|
  {
    if cs != [] {
      ReadOnlyCalls(env, cs[1..]);
    }
  }

  /** A script whose last call is `fail(r)` leaves the pipeline failed with reason `r`. */
  lemma LastFailDecides(env: Define.Env, cs: seq<Call>, reason: string)
    ensures var after := ApplyCalls(env, cs + [Call("fail", [LStr(reason)])]);
      Define.PipelineFailed(after) && Define.GetFailReason(after) == reason
  {
    ApplyCallsAppend(env, cs, [Call("fail", [LStr(reason)])]);
  }
}

/**
 * The pool of Lua interpreters shared by Lua steps: a stack of saved
 * interpreters, the most recently returned one handed out first. An
 * interpreter is an opaque handle; creating a new one is an outcome
 * supplied by the caller.
 */
module LuaPool {
  import opened Wrappers

  type Vm = nat

  /** The saved interpreters, oldest first, and those that have been closed. */
  datatype Pool = Pool(saved: seq<Vm>, closed: set<Vm>)

  /** The panic value of `make` with a negative capacity, as printed by `%v`. */
  const CapOutOfRange := "runtime error: makeslice: cap out of range"

  /** `NewLuaPool(cap)`: an empty pool whatever the capacity; a negative one panics in `make`. */
  function NewLuaPool(cap: int): (r: Result<Pool, string>)
    ensures cap >= 0 <==> r.Ok?
    ensures r.Ok? ==> r.value.saved == [] && r.value.closed == {}
    ensures r.Err? ==> r.error == CapOutOfRange
  {
    if cap < 0 then Err(CapOutOfRange) else Ok(Pool([], {}))
  }

  /** `Get`: the last saved interpreter, removed from the pool; a new one when none is saved. */
  function Get(p: Pool, created: Vm): (r: (Pool, Vm))
    ensures p.saved == [] ==> r == (p, created)
    ensures p.saved != [] ==> r.1 == p.saved[|p.saved| - 1] && r.0.saved + [r.1] == p.saved
    ensures r.0.closed == p.closed
    ensures |r.0.saved| == if p.saved == [] then 0 else |p.saved| - 1
  {
    var n := |p.saved|;
    if n == 0 then (p, created)
    else (p.(saved := p.saved[..n - 1]), p.saved[n - 1])
  }

  /** `Put`: the interpreter is saved on top; the pool has no bound and evicts nothing. */
  function Put(p: Pool, x: Vm): (r: Pool)
    ensures r.saved == p.saved + [x] && r.closed == p.closed
    ensures |r.saved| == |p.saved| + 1
  {
    p.(saved := p.saved + [x])
  }

  /** `Shutdown`: every saved interpreter is closed, and all of them stay saved. */
  function Shutdown(p: Pool): (r: Pool)
    ensures r.saved == p.saved
    ensures forall i :: 0 <= i < |p.saved| ==> p.saved[i] in r.closed
    ensures forall x :: x in r.closed ==> x in p.closed || x in p.saved
  {
    p.(closed := p.closed + set i | 0 <= i < |p.saved| :: p.saved[i])
  }

  /** What is put back is what is got next, and the pool is as before. */
  lemma PutThenGet(p: Pool, x: Vm, created: Vm)
    ensures Get(Put(p, x), created) == (p, x)
  {
    assert (p.saved + [x])[..|p.saved|] == p.saved;
  }

  /** Putting back what was got restores the pool. */
  lemma GetThenPut(p: Pool, created: Vm)
    requires p.saved != []
    ensures var g := Get(p, created); Put(g.0, g.1) == p
  {
  }

  /** Interpreters put back one after another, oldest first. */
  function PutAll(p: Pool, xs: seq<Vm>): (r: Pool)
    ensures r.saved == p.saved + xs && r.closed == p.closed
    decreases |xs|
  {
    if xs == [] then p else PutAll(Put(p, xs[0]), xs[1..])
  }

  /** Take `n` interpreters, each with a new one at hand should the pool be empty. */
  function GetN(p: Pool, n: nat, created: Vm): (r: (Pool, seq<Vm>))
    ensures |r.1| == n
    decreases n
  {
    if n == 0 then (p, [])
    else
      var g := Get(p, created);
      var rest := GetN(g.0, n - 1, created);
      (rest.0, [g.1] + rest.1)
  }

  /** The stack order: interpreters put back come out newest first. */
  lemma {:induction false} LastInFirstOut(p: Pool, xs: seq<Vm>, created: Vm)
    ensures GetN(PutAll(p, xs), |xs|, created) == (p, Reverse(xs))
    decreases |xs|
  {
    if xs != [] {
      var last := xs[|xs| - 1];
      var init := xs[..|xs| - 1];
      var q := PutAll(p, xs);
      assert q == Put(PutAll(p, init), last) by {
        assert init + [last] == xs;
      }
      PutThenGet(PutAll(p, init), last, created);
      LastInFirstOut(p, init, created);
    }
  }

  function Reverse(xs: seq<Vm>): (r: seq<Vm>)
    ensures |r| == |xs|
    ensures forall i :: 0 <= i < |xs| ==> r[i] == xs[|xs| - 1 - i]
    decreases |xs|
  {
    if xs == [] then [] else [xs[|xs| - 1]] + Reverse(xs[..|xs| - 1])
  }
}

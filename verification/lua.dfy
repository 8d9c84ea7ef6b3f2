/**
 * The Lua step executor: an interpreter is taken from the pool, the
 * `common` bridge module is bound to the pipeline's environment, and the
 * step's script, rendered unless rendering is off, runs wrapped behind a
 * `require("common")`. The interpreter itself is outside the model: what a
 * script does is given as the bridge calls it makes and the error it ends
 * with.
 */
module Lua {
  import opened Wrappers
  import opened Errors
  import opened Api
  import Define
  import LuaLoader
  import LuaPool

  const Prologue := "\nlocal m = require(\"common\")\n"

  /** `wrapLuaScript`: the script between a line loading the bridge module and a final newline. */
  function WrapLuaScript(script: string): (r: string)
    ensures |r| == |Prologue| + |script| + 1
    ensures r[..|Prologue|] == Prologue
    ensures r[|Prologue|..|r| - 1] == script
    ensures r[|r| - 1] == '\n'
  {
    Prologue + script + "\n"
  }

  /** The wrapped script determines the script. */
  lemma WrapLuaScriptInjective(a: string, b: string)
    requires WrapLuaScript(a) == WrapLuaScript(b)
    ensures a == b
  {
    assert a == WrapLuaScript(a)[|Prologue|..|WrapLuaScript(a)| - 1];
  }

  /** What the interpreter does with a script: the bridge calls it makes, and how it ends. */
  datatype Outcome = Outcome(calls: seq<LuaLoader.Call>, err: Option<Error>)

  type Interpreter = string -> Outcome

  /** The step's result, the environment after it, the pool after it, and the script run, if any. */
  datatype LuaRun = LuaRun(result: RunResult, env: Define.Env, pool: LuaPool.Pool, vm: LuaPool.Vm, script: Option<string>)

  /** The script the interpreter runs: the configured one, rendered unless rendering is off. */
  function ScriptOf(flow: Flow, env: Define.Env): string
    requires flow.luaCfg.Some?
  {
    var s := flow.luaCfg.value.script;
    if flow.noEnvRender then s else Define.RenderByEnv(env, s)
  }

  /**
   * `Runner.Run` for a Lua step. The interpreter is taken from the pool
   * first and never put back. A nil Lua configuration then panics. The
   * bridge calls of the script act on the shared environment whether or not
   * the script ends in an error, and an error is wrapped.
   */
  function Run(flow: Flow, env: Define.Env, pool: LuaPool.Pool, created: LuaPool.Vm, interp: Interpreter): (r: LuaRun)
    ensures (r.pool, r.vm) == LuaPool.Get(pool, created)
    ensures flow.luaCfg.None? ==> r.result == Panicked(NilDereference) && r.env == env && r.script.None?
    ensures flow.luaCfg.Some? ==>
      var out := interp(WrapLuaScript(ScriptOf(flow, env)));
      r.script == Some(WrapLuaScript(ScriptOf(flow, env)))
      && r.env == LuaLoader.ApplyCalls(env, out.calls)
      && r.result == Returned(WrapOpt(out.err, "lua脚本执行失败"))
  {
    var (p, vm) := LuaPool.Get(pool, created);
    if flow.luaCfg.None? then LuaRun(Panicked(NilDereference), env, p, vm, None)
    else
      var script := WrapLuaScript(ScriptOf(flow, env));
      var out := interp(script);
      LuaRun(Returned(WrapOpt(out.err, "lua脚本执行失败")), LuaLoader.ApplyCalls(env, out.calls), p, vm, Some(script))
  }

  /** Every run shrinks the pool by one, or leaves an empty pool empty. */
  lemma RunShrinksPool(flow: Flow, env: Define.Env, pool: LuaPool.Pool, created: LuaPool.Vm, interp: Interpreter)
    ensures var r := Run(flow, env, pool, created, interp);
      |r.pool.saved| == (if pool.saved == [] then 0 else |pool.saved| - 1)
      && (pool.saved == [] ==> r.vm == created)
      && (pool.saved != [] ==> r.vm == pool.saved[|pool.saved| - 1])
  {
  }

  /** With rendering off the script runs as configured; with it on, with its placeholders expanded. */
  lemma ScriptRendering(flow: Flow, env: Define.Env)
    requires flow.luaCfg.Some?
    ensures flow.noEnvRender ==> ScriptOf(flow, env) == flow.luaCfg.value.script
    ensures !flow.noEnvRender ==> ScriptOf(flow, env) == Define.Expand(env, Define.Segments(flow.luaCfg.value.script))
    ensures ScriptOf(flow, map[]) == flow.luaCfg.value.script
  {
    Define.RenderIsExpand(env, flow.luaCfg.value.script);
  }

  /** The step succeeds exactly when the script ends without error; its `fail` calls do not fail the step. */
  lemma RunSucceedsIff(flow: Flow, env: Define.Env, pool: LuaPool.Pool, created: LuaPool.Vm, interp: Interpreter)
    requires flow.luaCfg.Some?
    ensures Run(flow, env, pool, created, interp).result == Returned(None)
      <==> interp(WrapLuaScript(ScriptOf(flow, env))).err.None?
  {
  }

  /** A script that calls `fail(r)` last leaves the pipeline failed with reason `r`, even if the script then errs. */
  lemma ScriptFailMarksPipeline(flow: Flow, env: Define.Env, pool: LuaPool.Pool, created: LuaPool.Vm,
                                interp: Interpreter, calls: seq<LuaLoader.Call>, reason: string)
    requires flow.luaCfg.Some?
    requires interp(WrapLuaScript(ScriptOf(flow, env))).calls == calls + [LuaLoader.Call("fail", [LuaLoader.LStr(reason)])]
    ensures var r := Run(flow, env, pool, created, interp);
      Define.PipelineFailed(r.env) && Define.GetFailReason(r.env) == reason
  {
    LuaLoader.LastFailDecides(env, calls, reason);
  }
}

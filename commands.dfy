/**
 * Command objects in the style of plumbum, which benchbuild composes its
 * sandboxed command lines from. A command is a chain: a binding of arguments
 * (`BoundCommand`), a binding of environment variables (`BoundEnvCommand`),
 * or any other command, which ends the chain.
 */
module Commands {

  type Env = map<string, string>

  datatype Command =
    | Bound(cmd: Command, args: seq<string>)
    | BoundEnv(cmd: Command, envvars: Env)
    | Other(name: string)

  /** The arguments bound at the head of `c` (none unless it is a binding). */
  function ArgsOf(c: Command): seq<string>
  {
    if c.Bound? then c.args else []
  }

  /** The command the head's arguments apply to. */
  function Callee(c: Command): Command
  {
    if c.Bound? then c.cmd else c
  }

  /**
   * `c[args]`: binding more arguments to a bound command extends its
   * argument list; any other command is wrapped in a new binding.
   */
  function Bind(c: Command, args: seq<string>): (r: Command)
    ensures r.Bound? && Callee(r) == Callee(c)
    ensures ArgsOf(r) == ArgsOf(c) + args
  {
    if c.Bound? then Bound(c.cmd, c.args + args) else Bound(c, args)
  }

  /** `c.with_env(**env)`: wraps `c` in one environment binding. */
  function WithEnv(c: Command, env: Env): Command
  {
    BoundEnv(c, env)
  }

  /** The number of nodes on the `.cmd` chain of `c`. */
  function Depth(c: Command): nat
  {
    match c
    case Bound(inner, _) => 1 + Depth(inner)
    case BoundEnv(inner, _) => 1 + Depth(inner)
    case Other(_) => 1
  }

  /** The node reached by following `.cmd` k times from `c`. */
  function NodeAt(c: Command, k: nat): Command
    requires k < Depth(c)
  {
    if k == 0 then c else NodeAt(c.cmd, k - 1)
  }

  /** `a` and `b` have the same node kinds along their chains, the same bound arguments and the same end. */
  ghost predicate SameShape(a: Command, b: Command)
  {
    match a
    case Bound(inner, args) => b.Bound? && b.args == args && SameShape(inner, b.cmd)
    case BoundEnv(inner, _) => b.BoundEnv? && SameShape(inner, b.cmd)
    case Other(_) => b == a
  }

  /** `updated` is `before` with every key of `env` set to its value in `env` and every other key kept. */
  ghost predicate Overrides(before: Env, env: Env, updated: Env)
  {
    (forall key :: key in env ==> key in updated && updated[key] == env[key]) &&
    (forall key :: key !in env ==> (key in updated <==> key in before)) &&
    (forall key :: key !in env && key in before ==> updated[key] == before[key])
  }

  /**
   * `with_env_recursive(c, **env)`: every environment binding on the chain of
   * `c` has `env` merged into its variables; bindings of arguments are passed
   * through; the command that ends the chain is left as it is.
   */
  function WithEnvRecursive(c: Command, env: Env): (r: Command)
    ensures c.Other? ==> r == c
    ensures Depth(r) == Depth(c)
  {
    match c
    case Bound(inner, args) => Bound(WithEnvRecursive(inner, env), args)
    case BoundEnv(inner, vars) => BoundEnv(WithEnvRecursive(inner, env), vars + env)
    case Other(_) => c
  }

  /** The override changes no node kind, no bound argument and not the end of the chain. */
  lemma {:induction false} WithEnvRecursiveKeepsShape(c: Command, env: Env)
    ensures SameShape(c, WithEnvRecursive(c, env))
  {
    match c
    case Bound(inner, _) => WithEnvRecursiveKeepsShape(inner, env);
    case BoundEnv(inner, _) => WithEnvRecursiveKeepsShape(inner, env);
    case Other(_) =>
  }

  /**
   * At every depth of the chain, an environment binding stays an environment
   * binding whose variables are the old ones overridden by `env`, and any
   * other node keeps its kind.
   */
  lemma {:induction false} WithEnvRecursiveOverridesEveryBinding(c: Command, env: Env, k: nat)
    requires k < Depth(c)
    ensures k < Depth(WithEnvRecursive(c, env))
    ensures NodeAt(c, k).BoundEnv? <==> NodeAt(WithEnvRecursive(c, env), k).BoundEnv?
    ensures NodeAt(c, k).Bound? <==> NodeAt(WithEnvRecursive(c, env), k).Bound?
    ensures NodeAt(c, k).BoundEnv? ==>
      Overrides(NodeAt(c, k).envvars, env, NodeAt(WithEnvRecursive(c, env), k).envvars)
  {
    if k > 0 {
      WithEnvRecursiveOverridesEveryBinding(c.cmd, env, k - 1);
    }
  }

  /** Applying the same override twice is the same as applying it once. */
  lemma {:induction false} WithEnvRecursiveIdempotent(c: Command, env: Env)
    ensures WithEnvRecursive(WithEnvRecursive(c, env), env) == WithEnvRecursive(c, env)
  {
    match c
    case Bound(inner, _) => WithEnvRecursiveIdempotent(inner, env);
    case BoundEnv(inner, vars) =>
      WithEnvRecursiveIdempotent(inner, env);
      assert (vars + env) + env == vars + env;
    case Other(_) =>
  }

  /** Two overrides in a row are one override with the later values winning. */
  lemma {:induction false} WithEnvRecursiveComposes(c: Command, env1: Env, env2: Env)
    ensures WithEnvRecursive(WithEnvRecursive(c, env1), env2) == WithEnvRecursive(c, env1 + env2)
  {
    match c
    case Bound(inner, _) => WithEnvRecursiveComposes(inner, env1, env2);
    case BoundEnv(inner, vars) =>
      WithEnvRecursiveComposes(inner, env1, env2);
      assert (vars + env1) + env2 == vars + (env1 + env2);
    case Other(_) =>
  }
}

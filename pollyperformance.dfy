/**
 * The `pollyperformance` experiment: Polly's flags plus one `-mllvm` pair
 * per configuration token, fanned out into one cloned project per thread
 * count, each with its own nine-step pipeline.
 */
module PollyPerformance {
  import opened Wrappers
  import opened Strings
  import opened Projects
  import opened Actions

  /** The fixed leading compiler flags: -O3, frame pointers kept, the PolyJIT plugin loaded, Polly on. */
  const PollyFlags: seq<string> :=
    ["-O3", "-fno-omit-frame-pointer", "-Xclang", "-load", "-Xclang", "LLVMPolyJIT.so", "-mllvm", "-polly"]

  /** The `-mllvm <token>` pairs for the configuration tokens, as a function of the tokens. */
  function LlvmArgs(configs: seq<string>): seq<string>
  {
    if configs == [] then [] else LlvmArgs(configs[..|configs| - 1]) + ["-mllvm", configs[|configs| - 1]]
  }

  /**
   * The loop that builds `config_with_llvm`: "-mllvm" before each token,
   * token order kept, so 2k flags for k tokens.
   */
  method ConfigWithLlvm(configs: seq<string>) returns (configWithLlvm: seq<string>)
    ensures |configWithLlvm| == 2 * |configs|
    ensures forall j :: 0 <= j < |configs| ==> configWithLlvm[2 * j] == "-mllvm" && configWithLlvm[2 * j + 1] == configs[j]
    ensures configWithLlvm == LlvmArgs(configs)
  {
    configWithLlvm := [];
    var n := 0;
    while n < |configs|
      invariant 0 <= n <= |configs|
      invariant |configWithLlvm| == 2 * n
      invariant forall j :: 0 <= j < n ==> configWithLlvm[2 * j] == "-mllvm" && configWithLlvm[2 * j + 1] == configs[j]
      invariant configWithLlvm == LlvmArgs(configs[..n])
    {
      assert configs[..n + 1][..n] == configs[..n];
      configWithLlvm := configWithLlvm + ["-mllvm"];
      configWithLlvm := configWithLlvm + [configs[n]];
      n := n + 1;
    }
    assert configs[..|configs|] == configs;
  }

  /** The flags a clone adds for `i` threads. */
  function ThreadFlags(i: nat): seq<string>
  {
    ["-mllvm", "-polly-num-threads=" + NatToString(i)]
  }

  /** The pipeline of the clone for `i` threads. */
  function ThreadPipeline(cp: Project, i: nat): seq<Action>
  {
    StandardPipeline(cp, NatToString(i) + " core configuration. Configure & Compile",
                     NatToString(i) + " core configuration. Run")
  }

  /** The k-th block of nine actions. */
  function BlockAt(actions: seq<Action>, k: nat): seq<Action>
    requires 9 * k + 9 <= |actions|
  {
    actions[9 * k..9 * k + 9]
  }

  /** Appending a block keeps the earlier blocks and puts the new one last. */
  lemma BlockAtAppend(actions: seq<Action>, block: seq<Action>, k: nat)
    requires |actions| % 9 == 0 && |block| == 9 && 9 * k + 9 <= |actions| + 9
    ensures 9 * k + 9 <= |actions| ==> BlockAt(actions + block, k) == BlockAt(actions, k)
    ensures 9 * k == |actions| ==> BlockAt(actions + block, k) == block
  {
  }

  /** Blocks for different thread counts carry different messages, so no two blocks are equal. */
  lemma ThreadPipelinesDiffer(cp: Project, cq: Project, i: nat, j: nat)
    requires i != j
    ensures ThreadPipeline(cp, i) != ThreadPipeline(cq, j)
  {
    var suffix := " core configuration. Run";
    var mi := NatToString(i) + suffix;
    var mj := NatToString(j) + suffix;
    assert mi != mj by {
      NatToStringInjective(i, j);
      if |NatToString(i)| == |NatToString(j)| {
        assert mi[..|NatToString(i)|] == NatToString(i);
        assert mj[..|NatToString(j)|] == NatToString(j);
      }
    }
    assert ThreadPipeline(cp, i)[6] == Echo(mi);
    assert ThreadPipeline(cq, j)[6] == Echo(mj);
  }

  /**
   * `cp` is the clone for `i` threads of `project`: every modelled field
   * copied, the thread flags after the project's flags and `run_with_time`
   * for `i` threads as its runtime extension.
   */
  ghost predicate IsThreadClone(cp: Project, i: nat, project: Project)
    reads cp, project
  {
    cp.cflags == project.cflags + ThreadFlags(i) && cp.runtimeExtension == RunWithTime(i) &&
    cp.name == project.name && cp.builddir == project.builddir &&
    cp.ldflags == project.ldflags && cp.containerLocal == project.containerLocal
  }

  /**
   * One iteration's copy for `i` threads: a deep copy of `project` with a
   * new run id, the thread flags appended and `run_with_time` for `i`
   * threads as its runtime extension.
   */
  method ThreadClone(project: Project, i: nat) returns (cp: Project)
    ensures fresh(cp) && fresh(cp.runUuid)
    ensures IsThreadClone(cp, i, project)
  {
    cp := project.Clone();
    cp.runUuid := new RunId();
    cp.cflags := cp.cflags + ["-mllvm", "-polly-num-threads=" + NatToString(i)];
    cp.runtimeExtension := RunWithTime(i);
  }

  /**
   * The loop over `range(1, jobs)`: one clone and one nine-step pipeline per
   * thread count, in increasing order; `project` itself is not changed.
   */
  method FanOut(project: Project, jobs: int) returns (actns: seq<Action>, ghost clones: seq<Project>)
    ensures |clones| == (if jobs > 1 then jobs - 1 else 0) && |actns| == 9 * |clones|
    ensures forall k :: 0 <= k < |clones| ==> BlockAt(actns, k) == ThreadPipeline(clones[k], k + 1)
    ensures forall k :: 0 <= k < |clones| ==> fresh(clones[k]) && fresh(clones[k].runUuid)
    ensures forall k :: 0 <= k < |clones| ==>
      IsThreadClone(clones[k], k + 1, project)
    ensures forall k, l :: 0 <= k < l < |clones| ==> clones[k] != clones[l] && clones[k].runUuid != clones[l].runUuid
  {
    actns, clones := [], [];
    var i := 1;
    while i < jobs
      invariant 1 <= i && (jobs > 1 ==> i <= jobs) && (jobs <= 1 ==> i == 1)
      invariant |clones| == i - 1 && |actns| == 9 * (i - 1)
      invariant forall k :: 0 <= k < |clones| ==> BlockAt(actns, k) == ThreadPipeline(clones[k], k + 1)
      invariant forall k :: 0 <= k < |clones| ==> fresh(clones[k]) && fresh(clones[k].runUuid)
      invariant forall k :: 0 <= k < |clones| ==>
        IsThreadClone(clones[k], k + 1, project)
      invariant forall k, l :: 0 <= k < l < |clones| ==> clones[k] != clones[l] && clones[k].runUuid != clones[l].runUuid
    {
      var cp := ThreadClone(project, i);
      var block := ThreadPipeline(cp, i);
      forall k | 0 <= k <= |clones|
        ensures BlockAt(actns + block, k) == ThreadPipeline((clones + [cp])[k], k + 1)
      {
        BlockAtAppend(actns, block, k);
      }
      actns := actns + block;
      clones := clones + [cp];
      i := i + 1;
    }
  }

  /**
   * `PollyPerformance.actions_for_project(project)` with `configs` the
   * configuration tokens (None when the setting is unset) and `jobs` the
   * configured job count. Without configuration nothing changes and the
   * result is None. Otherwise the project's flags become Polly's flags and
   * the token pairs, and for each i in 1..jobs-1 a deep copy with a fresh
   * run id, the thread flags and `run_with_time` for i threads contributes
   * its nine-step pipeline, in increasing i.
   */
  method ActionsForProject(project: Project, configs: Option<seq<string>>, jobs: int)
    returns (actions: Option<seq<Action>>, ghost clones: seq<Project>)
    modifies project`cflags
    ensures configs.None? ==> actions.None? && project.cflags == old(project.cflags) && clones == []
    ensures configs.Some? ==> project.cflags == PollyFlags + LlvmArgs(configs.value)
    ensures configs.Some? ==> actions.Some? && |clones| == (if jobs > 1 then jobs - 1 else 0)
    ensures actions.Some? ==> |actions.value| == 9 * |clones|
    ensures actions.Some? ==> forall k :: 0 <= k < |clones| ==> BlockAt(actions.value, k) == ThreadPipeline(clones[k], k + 1)
    ensures forall k :: 0 <= k < |clones| ==> fresh(clones[k]) && fresh(clones[k].runUuid)
    ensures forall k :: 0 <= k < |clones| ==>
      IsThreadClone(clones[k], k + 1, project)
    ensures forall k, l :: 0 <= k < l < |clones| ==> clones[k] != clones[l] && clones[k].runUuid != clones[l].runUuid
  {
    clones := [];
    if configs.None? {
      return None, clones;
    }
    var configWithLlvm := ConfigWithLlvm(configs.value);
    project.cflags := PollyFlags + configWithLlvm;
    var actns;
    actns, clones := FanOut(project, jobs);
    actions := Some(actns);
  }
}

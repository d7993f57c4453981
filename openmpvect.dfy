/** The `polly-openmpvect` experiment: Polly with OpenMP code generation and the strip-mining vectorizer. */
module OpenMPVect {
  import opened Projects
  import opened Actions

  /** The fixed compiler flags: -O3, frame pointers kept, Polly loaded, parallel and strip-mine vectorized. */
  const OpenMPVectFlags: seq<string> :=
    ["-O3", "-fno-omit-frame-pointer",
     "-Xclang", "-load",
     "-Xclang", "LLVMPolly.so",
     "-mllvm", "-polly",
     "-mllvm", "-polly-parallel",
     "-mllvm", "-polly-vectorizer=stripmine"]

  /** The fixed linker flags: link the GNU OpenMP runtime. */
  const OpenMPVectLdFlags: seq<string> := ["-lgomp"]

  /**
   * `PollyOpenMPVectorizer.actions_for_project(project)` with `jobs` the
   * configured job count: the project's compiler and linker flags are
   * replaced by the fixed lists, its runtime extension becomes
   * `run_with_time` for `jobs` threads, and the result is the nine-step
   * pipeline on the project itself, logging "Compiling... NAME" and
   * "Running... NAME". Nothing is cloned.
   */
  method ActionsForProject(project: Project, jobs: int) returns (actions: seq<Action>)
    modifies project`cflags, project`ldflags, project`runtimeExtension
    ensures project.cflags == OpenMPVectFlags && |project.cflags| == 12
    ensures project.cflags[10..] == ["-mllvm", "-polly-vectorizer=stripmine"]
    ensures project.ldflags == ["-lgomp"]
    ensures project.runtimeExtension == RunWithTime(jobs)
    ensures project.name == old(project.name) && project.builddir == old(project.builddir)
    ensures actions == StandardPipeline(project, "Compiling... " + project.name, "Running... " + project.name)
    ensures |actions| == 9 && forall k :: 0 <= k < 9 ==> KindOf(actions[k]) == StandardOrder[k]
    ensures forall k :: 0 <= k < 9 && !actions[k].Echo? ==> actions[k].project == project
  {
    project.cflags := OpenMPVectFlags;
    project.ldflags := OpenMPVectLdFlags;
    project.runtimeExtension := RunWithTime(jobs);
    actions := [MakeBuildDir(project), Echo("Compiling... " + project.name), Prepare(project), Download(project),
                Configure(project), Build(project), Echo("Running... " + project.name), Run(project), Clean(project)];
  }
}

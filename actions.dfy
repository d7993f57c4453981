/** The steps an experiment schedules for a project, in order. */
module Actions {
  import opened Projects

  /** One pipeline step; every step except `Echo` is bound to a project. */
  datatype Action =
    | MakeBuildDir(project: Project)
    | Echo(message: string)
    | Prepare(project: Project)
    | Download(project: Project)
    | Configure(project: Project)
    | Build(project: Project)
    | Run(project: Project)
    | Clean(project: Project)

  datatype Kind = MakeBuildDirStep | EchoStep | PrepareStep | DownloadStep | ConfigureStep | BuildStep | RunStep | CleanStep

  function KindOf(a: Action): Kind
  {
    match a
    case MakeBuildDir(_) => MakeBuildDirStep
    case Echo(_) => EchoStep
    case Prepare(_) => PrepareStep
    case Download(_) => DownloadStep
    case Configure(_) => ConfigureStep
    case Build(_) => BuildStep
    case Run(_) => RunStep
    case Clean(_) => CleanStep
  }

  /** The order of the build-and-measure steps. */
  const StandardOrder: seq<Kind> :=
    [MakeBuildDirStep, EchoStep, PrepareStep, DownloadStep, ConfigureStep, BuildStep, EchoStep, RunStep, CleanStep]

  /**
   * The nine-step pipeline for one project: make its build directory, log
   * `compileMessage`, prepare, download, configure, build, log
   * `runMessage`, run, clean.
   */
  function StandardPipeline(p: Project, compileMessage: string, runMessage: string): (actions: seq<Action>)
    ensures |actions| == |StandardOrder|
    ensures forall k :: 0 <= k < |actions| ==> KindOf(actions[k]) == StandardOrder[k]
    ensures forall k :: 0 <= k < |actions| && !actions[k].Echo? ==> actions[k].project == p
    ensures actions[1] == Echo(compileMessage) && actions[6] == Echo(runMessage)
  {
    [MakeBuildDir(p), Echo(compileMessage), Prepare(p), Download(p), Configure(p), Build(p),
     Echo(runMessage), Run(p), Clean(p)]
  }

  /** A pipeline's steps are determined by its project and messages: building it twice gives the same steps. */
  lemma StandardPipelineDetermined(p: Project, q: Project, c1: string, r1: string, c2: string, r2: string)
    requires StandardPipeline(p, c1, r1) == StandardPipeline(q, c2, r2)
    ensures p == q && c1 == c2 && r1 == r2
  {
    assert StandardPipeline(p, c1, r1)[0] == StandardPipeline(q, c2, r2)[0];
    assert StandardPipeline(p, c1, r1)[1] == StandardPipeline(q, c2, r2)[1];
    assert StandardPipeline(p, c1, r1)[6] == StandardPipeline(q, c2, r2)[6];
  }
}

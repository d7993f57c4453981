/** The project object that experiments configure and the sandbox relocates. */
module Projects {

  /** A run identifier (`uuid.uuid4()`): each `new RunId()` is a new identity. */
  class RunId {
    constructor () {}
  }

  /** `project.runtime_extension`: unset, or `run_with_time` bound to a thread count. */
  datatype Extension = NoExtension | RunWithTime(threads: int)

  class Project {
    var name: string
    var builddir: string
    var cflags: seq<string>
    var ldflags: seq<string>
    var runUuid: RunId
    var runtimeExtension: Extension
    /** `project.container.local`: where the project's container is unpacked. */
    var containerLocal: string

    constructor (name: string, builddir: string, containerLocal: string)
      ensures this.name == name && this.builddir == builddir && this.containerLocal == containerLocal
      ensures cflags == [] && ldflags == [] && runtimeExtension == NoExtension && fresh(runUuid)
    {
      this.name := name;
      this.builddir := builddir;
      this.containerLocal := containerLocal;
      cflags, ldflags := [], [];
      runUuid := new RunId();
      runtimeExtension := NoExtension;
    }

    /** `copy.deepcopy(project)`: a new project with the same field values. */
    method Clone() returns (cp: Project)
      ensures fresh(cp)
      ensures cp.name == name && cp.builddir == builddir && cp.cflags == cflags && cp.ldflags == ldflags
      ensures cp.runUuid == runUuid && cp.runtimeExtension == runtimeExtension && cp.containerLocal == containerLocal
    {
      cp := new Project(name, builddir, containerLocal);
      cp.cflags, cp.ldflags := cflags, ldflags;
      cp.runUuid, cp.runtimeExtension := runUuid, runtimeExtension;
    }
  }
}

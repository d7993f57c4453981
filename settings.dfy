/** The entries of benchbuild's global configuration that the run helpers write. */
module Settings {
  import opened Wrappers

  class Config {
    /** `CFG["db"]["run_id"]`: the run the current command is logged under. */
    var runId: Option<nat>
    /** `CFG["use_file"]`. */
    var useFile: int
    /** `CFG["cleanup_paths"]`: directories to remove after the experiment. */
    var cleanupPaths: seq<string>

    constructor (cleanupPaths: seq<string>)
      ensures this.runId == None && this.useFile == 0 && this.cleanupPaths == cleanupPaths
    {
      this.runId := None;
      this.useFile := 0;
      this.cleanupPaths := cleanupPaths;
    }
  }
}

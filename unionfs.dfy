/**
 * The copy-on-write sandbox: `unionfs_set_up` validates its directories and
 * mounts the writable image over the read-only base, `unionfs_tear_down`
 * unmounts with a bounded number of retries, and the `unionfs` decorator
 * runs a project function inside the merged view with the project's build
 * directory moved there.
 */
module UnionFs {
  import opened Wrappers
  import opened Settings
  import opened Projects

  predicate IsAbsolute(p: string)
  {
    |p| > 0 && p[0] == '/'
  }

  /** `os.path.join(a, b)`: an absolute `b` replaces `a`; otherwise one '/' separates them. */
  function JoinPath(a: string, b: string): string
  {
    if IsAbsolute(b) then b
    else if a == [] || a[|a| - 1] == '/' then a + b
    else a + "/" + b
  }

  /** `os.path.abspath(p)` with working directory `cwd`, without `normpath`: ".", "..", repeated and trailing slashes are kept as written. */
  function AbsPath(cwd: string, p: string): string
  {
    JoinPath(cwd, p)
  }

  /**
   * An absolute path is its own absolute path; a relative one is placed
   * under the working directory with exactly one '/' between them; so from
   * an absolute working directory every path becomes absolute.
   */
  lemma AbsPathIsAbsolute(cwd: string, p: string)
    requires IsAbsolute(cwd)
    ensures IsAbsolute(AbsPath(cwd, p))
    ensures IsAbsolute(p) ==> AbsPath(cwd, p) == p
    ensures !IsAbsolute(p) ==> cwd <= AbsPath(cwd, p) && AbsPath(cwd, p)[|AbsPath(cwd, p)| - |p|..] == p
    ensures !IsAbsolute(p) ==> AbsPath(cwd, p) == (if cwd[|cwd| - 1] == '/' then cwd + p else cwd + "/" + p)
    ensures AbsPath(cwd, AbsPath(cwd, p)) == AbsPath(cwd, p)
  {
  }

  /** `os.path.commonprefix([a, b])`: the longest common leading part of the two strings. */
  function CommonPrefix(a: string, b: string): (c: string)
    ensures c <= a && c <= b
  {
    if a == [] || b == [] || a[0] != b[0] then [] else [a[0]] + CommonPrefix(a[1..], b[1..])
  }

  /** The common prefix of a path with `b` is `b` exactly when `b` is a prefix of the path. */
  lemma {:induction false} CommonPrefixIsSecond(a: string, b: string)
    ensures CommonPrefix(a, b) == b <==> b <= a
  {
    if a != [] && b != [] && a[0] == b[0] {
      CommonPrefixIsSecond(a[1..], b[1..]);
      assert b <= a <==> b[1..] <= a[1..];
    }
  }

  /** `is_outside_of_builddir(project, path)`: the path does not start with the build directory. */
  function IsOutsideOfBuilddir(builddir: string, path: string): (outside: bool)
    ensures outside <==> !(builddir <= path)
  {
    CommonPrefixIsSecond(path, builddir);
    CommonPrefix(path, builddir) != builddir
  }

  predicate NoDuplicates(s: seq<string>)
  {
    forall i, j :: 0 <= i < j < |s| ==> s[i] != s[j]
  }

  /** `list(set(s))`, keeping first occurrences in order. */
  function Dedup(s: seq<string>): (r: seq<string>)
    ensures NoDuplicates(r)
    ensures forall x :: x in r <==> x in s
  {
    if s == [] then []
    else
      var d := Dedup(s[..|s| - 1]);
      assert s == s[..|s| - 1] + [s[|s| - 1]];
      if s[|s| - 1] in d then d else d + [s[|s| - 1]]
  }

  /** A list without duplicates is its own deduplication. */
  lemma {:induction false} DedupOfNoDuplicates(s: seq<string>)
    requires NoDuplicates(s)
    ensures Dedup(s) == s
  {
    if s != [] {
      DedupOfNoDuplicates(s[..|s| - 1]);
      assert s[|s| - 1] !in s[..|s| - 1];
    }
  }

  /** The cleanup list after `update_cleanup_paths(p)`: the old entries and `p`, each once. */
  function WithCleanupPath(paths: seq<string>, p: string): (r: seq<string>)
    ensures NoDuplicates(r)
    ensures forall x :: x in r <==> x in paths || x == p
  {
    var d := Dedup(paths);
    if p in d then d else d + [p]
  }

  /** Registering the same path again changes nothing. */
  lemma WithCleanupPathIdempotent(paths: seq<string>, p: string)
    ensures WithCleanupPath(WithCleanupPath(paths, p), p) == WithCleanupPath(paths, p)
  {
    DedupOfNoDuplicates(WithCleanupPath(paths, p));
  }

  /** `update_cleanup_paths(new_path)`: rewrites the configured cleanup list. */
  method UpdateCleanupPaths(cfg: Config, newPath: string)
    modifies cfg`cleanupPaths
    ensures cfg.cleanupPaths == WithCleanupPath(old(cfg.cleanupPaths), newPath)
  {
    var cleanupDirs := Dedup(cfg.cleanupPaths);
    if newPath !in cleanupDirs {
      cleanupDirs := cleanupDirs + [newPath];
    }
    cfg.cleanupPaths := cleanupDirs;
  }

  /** The exceptions the sandbox raises: plumbum's `ProcessExecutionError` when the `unionfs` tool fails. */
  datatype SandboxError = ValueError(msg: string) | RuntimeError(msg: string) | ProcessExecutionError(tool: string)

  /** An external tool invocation on the host. */
  datatype ToolCall =
    | UnionFsMount(options: string, branches: string, mountpoint: string)
    | Fusermount(mountpoint: string)

  /** The host file system: the directories that exist and the tools invoked so far. */
  class Host {
    var dirs: set<string>
    var calls: seq<ToolCall>

    constructor (dirs: set<string>)
      ensures this.dirs == dirs && calls == []
    {
      this.dirs := dirs;
      calls := [];
    }
  }

  /** The unionfs branch spec: the image writable, layered over the read-only base. */
  function Branches(cwd: string, roBase: string, rwImage: string): string
  {
    AbsPath(cwd, rwImage) + "=RW:" + AbsPath(cwd, roBase) + "=RO"
  }

  /**
   * `unionfs_set_up(ro_base, rw_image, mountpoint)`: creates a missing
   * mountpoint, then fails if the base is missing, then fails if the image is
   * missing, and otherwise mounts the image over the base at the mountpoint;
   * `mountFails` is whether the `unionfs` tool exits with an error, which
   * escapes as `ProcessExecutionError`.
   */
  method UnionfsSetUp(host: Host, roBase: string, rwImage: string, mountpoint: string, cwd: string, mountFails: bool)
    returns (r: Outcome<SandboxError>)
    modifies host
    ensures host.dirs == old(host.dirs) + {mountpoint}
    ensures roBase !in host.dirs ==> r == Fail(ValueError("Base directory does not exist"))
    ensures roBase in host.dirs && rwImage !in host.dirs ==> r == Fail(ValueError("Image directory does not exist"))
    ensures roBase in host.dirs && rwImage in host.dirs && mountFails ==> r == Fail(ProcessExecutionError("unionfs"))
    ensures r.Pass? <==> roBase in host.dirs && rwImage in host.dirs && !mountFails
    ensures host.calls == if roBase in host.dirs && rwImage in host.dirs
      then old(host.calls) + [UnionFsMount("allow_other,cow", Branches(cwd, roBase, rwImage), AbsPath(cwd, mountpoint))]
      else old(host.calls)
  {
    if mountpoint !in host.dirs {
      host.dirs := host.dirs + {mountpoint};
    }
    if roBase !in host.dirs {
      return Fail(ValueError("Base directory does not exist"));
    }
    if rwImage !in host.dirs {
      return Fail(ValueError("Image directory does not exist"));
    }
    var roBaseAbs := AbsPath(cwd, roBase);
    var rwImageAbs := AbsPath(cwd, rwImage);
    var mountpointAbs := AbsPath(cwd, mountpoint);
    host.calls := host.calls + [UnionFsMount("allow_other,cow", rwImageAbs + "=RW:" + roBaseAbs + "=RO", mountpointAbs)];
    if mountFails {
      return Fail(ProcessExecutionError("unionfs"));
    }
    r := Pass;
  }

  /** `attempts` unmount calls on `mountpoint`. */
  function Unmounts(mountpoint: string, attempts: nat): seq<ToolCall>
  {
    seq(attempts, _ => Fusermount(mountpoint))
  }

  /**
   * The `tries` value of the call of `unionfs_tear_down` that stops the
   * recursion, or -1 when none does. `existsAt(t)` and `mountedAt(t)` are
   * what the file system reports to the call made with `tries == t`; a call
   * goes on to the next one only when it finds the path and the path is
   * still mounted after its unmount attempt.
   */
  ghost function StopAt(tries: nat, existsAt: nat -> bool, mountedAt: nat -> bool): (s: int)
    ensures -1 <= s <= tries
  {
    if !(existsAt(tries) && mountedAt(tries)) then tries
    else if tries == 0 then -1
    else StopAt(tries - 1, existsAt, mountedAt)
  }

  /** Every call made with a `tries` value from `t` up to `tries` found the path still mounted after its attempt. */
  ghost predicate MountedThrough(t: int, tries: nat, existsAt: nat -> bool, mountedAt: nat -> bool)
  {
    forall u: nat :: t <= u <= tries ==> existsAt(u) && mountedAt(u)
  }

  /**
   * The recursion stops at the highest `tries` value whose call does not
   * find the path still mounted, and runs through every call down to
   * `tries == 0` exactly when each of them does.
   */
  lemma {:induction false} StopAtIsFirstUnmounted(tries: nat, existsAt: nat -> bool, mountedAt: nat -> bool)
    ensures var s := StopAt(tries, existsAt, mountedAt);
      MountedThrough(s + 1, tries, existsAt, mountedAt) &&
      (s == -1 <==> MountedThrough(0, tries, existsAt, mountedAt)) &&
      (s >= 0 ==> !(existsAt(s) && mountedAt(s)))
  {
    if existsAt(tries) && mountedAt(tries) && tries > 0 {
      StopAtIsFirstUnmounted(tries - 1, existsAt, mountedAt);
    }
  }

  /**
   * What `unionfs_tear_down(mountpoint, tries)` ends with: at most
   * `tries + 1` unmount attempts; a RuntimeError exactly when the path is
   * still mounted after the attempt made with `tries == 0`; a ValueError,
   * before that call attempts anything, when the stopping call finds the
   * path missing; success when its attempt left the path unmounted.
   */
  ghost predicate TearDownEnds(mountpoint: string, tries: nat, existsAt: nat -> bool, mountedAt: nat -> bool,
                               attempts: nat, r: Outcome<SandboxError>)
  {
    var s := StopAt(tries, existsAt, mountedAt);
    && attempts <= tries + 1
    && (s == -1 ==> attempts == tries + 1 && r == Fail(RuntimeError("Failed to unmount '" + mountpoint + "'")))
    && (s >= 0 && !existsAt(s) ==>
          attempts == tries - s && r == Fail(ValueError("Mountpoint does not exist: '" + mountpoint + "'")))
    && (s >= 0 && existsAt(s) ==> attempts == tries - s + 1 && r == Pass)
  }

  /**
   * `unionfs_tear_down(mountpoint, tries)`: fails if the mountpoint is
   * missing; otherwise tries to unmount it (a failing `fusermount` is only
   * logged) and, while it is still mounted, calls itself with `tries - 1`,
   * failing once no tries are left.
   */
  method UnionfsTearDown(host: Host, mountpoint: string, tries: nat, existsAt: nat -> bool, mountedAt: nat -> bool)
    returns (attempts: nat, r: Outcome<SandboxError>)
    modifies host
    ensures host.dirs == old(host.dirs)
    ensures host.calls == old(host.calls) + Unmounts(mountpoint, attempts)
    ensures TearDownEnds(mountpoint, tries, existsAt, mountedAt, attempts, r)
    decreases tries
  {
    if !existsAt(tries) {
      return 0, Fail(ValueError("Mountpoint does not exist: '" + mountpoint + "'"));
    }
    host.calls := host.calls + [Fusermount(mountpoint)];
    if mountedAt(tries) {
      if tries > 0 {
        var more;
        more, r := UnionfsTearDown(host, mountpoint, tries - 1, existsAt, mountedAt);
        attempts := more + 1;
        assert Unmounts(mountpoint, 1) + Unmounts(mountpoint, more) == Unmounts(mountpoint, attempts);
      } else {
        attempts, r := 1, Fail(RuntimeError("Failed to unmount '" + mountpoint + "'"));
      }
    } else {
      attempts, r := 1, Pass;
    }
  }

  /** How a call of the wrapped function ends. */
  datatype FuncOutcome<T> = Returns(value: T) | Raises(error: string)

  /** The exception the wrapper lets escape: a sandbox error or the function's own. */
  datatype Raised = SandboxFailure(cause: SandboxError) | FuncFailure(exception: string)

  /** The project's build directory and the working directory while the wrapped function runs. */
  datatype FuncContext = FuncContext(builddir: string, cwd: string)

  /** The image directory: under the image prefix when one is given, else under the build directory. */
  function ImageDir(cwd: string, builddir: string, imageDir: string, imagePrefix: Option<string>, relBuilddir: string): string
  {
    match imagePrefix
    case Some(prefix) => AbsPath(cwd, JoinPath(JoinPath(AbsPath(cwd, prefix), relBuilddir), imageDir))
    case None => AbsPath(cwd, JoinPath(builddir, imageDir))
  }

  /** The merged mount directory under the build directory. */
  function MountDir(cwd: string, builddir: string, mountpoint: string): string
  {
    AbsPath(cwd, JoinPath(builddir, mountpoint))
  }

  /**
   * The function `unionfs(image_dir, image_prefix, mountpoint)` wraps, called
   * on `project`: `func` is the wrapped function's outcome, `relBuilddir` is
   * the build directory relative to the configured one, and
   * `existsAt`/`mountedAt` are what the file system reports during teardown.
   * With an image prefix the image directory is always registered for
   * cleanup (the source tests the function object `is_outside_of_builddir`,
   * which is always true). The three directories are created, the image is
   * mounted over the container at the mount directory, the build directory
   * points there while `func` runs, and teardown runs however `func` ends;
   * the build directory is restored only when `func` returns and teardown
   * succeeds. `mountFails` is whether the `unionfs` tool fails: set-up then
   * raises before the `try`, so `func` does not run, no teardown happens
   * (`attempts` is 0 and `tearDown` is `Pass`) and the build directory
   * stays as it was.
   */
  method WrapInUnionFs<T>(cfg: Config, host: Host, project: Project, imageDir: string,
                          imagePrefix: Option<string>, mountpoint: string, cwd: string, relBuilddir: string,
                          mountFails: bool, func: FuncOutcome<T>, existsAt: nat -> bool, mountedAt: nat -> bool)
    returns (res: Result<T, Raised>, ctx: FuncContext, attempts: nat, tearDown: Outcome<SandboxError>)
    requires IsAbsolute(cwd)
    modifies cfg`cleanupPaths, host, project`builddir
    ensures var baseDir := AbsPath(cwd, project.containerLocal);
      var image := ImageDir(cwd, old(project.builddir), imageDir, imagePrefix, relBuilddir);
      var mountDir := MountDir(cwd, old(project.builddir), mountpoint);
      && cfg.cleanupPaths == (if imagePrefix.Some? then WithCleanupPath(old(cfg.cleanupPaths), image) else old(cfg.cleanupPaths))
      && host.dirs == old(host.dirs) + {baseDir, image, mountDir}
      && host.calls == old(host.calls) + [UnionFsMount("allow_other,cow", Branches(cwd, baseDir, image), mountDir)]
                       + Unmounts(mountDir, attempts)
      && (mountFails ==>
            res == Failure(SandboxFailure(ProcessExecutionError("unionfs"))) && attempts == 0 && tearDown == Pass &&
            project.builddir == old(project.builddir))
      && (!mountFails ==>
            ctx == FuncContext(mountDir, mountDir) &&
            TearDownEnds(mountDir, 3, existsAt, mountedAt, attempts, tearDown) &&
            project.builddir == (if res.Success? then old(project.builddir) else mountDir))
    ensures !mountFails ==>
      res == if tearDown.Fail? then Failure(SandboxFailure(tearDown.error))
             else if func.Raises? then Failure(FuncFailure(func.error))
             else Success(func.value)
  {
    var absBaseDir := AbsPath(cwd, project.containerLocal);
    var absImageDir;
    if imagePrefix.Some? {
      var prefix := AbsPath(cwd, imagePrefix.value);
      absImageDir := AbsPath(cwd, JoinPath(JoinPath(prefix, relBuilddir), imageDir));
      UpdateCleanupPaths(cfg, absImageDir);
    } else {
      absImageDir := AbsPath(cwd, JoinPath(project.builddir, imageDir));
    }
    var absMountDir := AbsPath(cwd, JoinPath(project.builddir, mountpoint));
    host.dirs := host.dirs + {absBaseDir, absImageDir, absMountDir};

    var setUp := UnionfsSetUp(host, absBaseDir, absImageDir, absMountDir, cwd, mountFails);
    AbsPathIsAbsolute(cwd, absBaseDir);
    AbsPathIsAbsolute(cwd, absImageDir);
    AbsPathIsAbsolute(cwd, absMountDir);
    ctx := FuncContext(project.builddir, cwd);
    if setUp.Fail? {
      return Failure(SandboxFailure(setUp.error)), ctx, 0, Pass;
    }

    var builddirBak := project.builddir;
    project.builddir := absMountDir;
    ctx := FuncContext(project.builddir, absMountDir);
    attempts, tearDown := UnionfsTearDown(host, absMountDir, 3, existsAt, mountedAt);
    if tearDown.Fail? {
      return Failure(SandboxFailure(tearDown.error)), ctx, attempts, tearDown;
    }
    match func
    case Raises(e) =>
      res := Failure(FuncFailure(e));
    case Returns(v) =>
      project.builddir := builddirBak;
      res := Success(v);
  }
}

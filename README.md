# benchbuild core, modelled in Dafny

A model of the core of benchbuild, a framework that builds and runs
benchmark projects under compiler experiments. The model covers:

- the sandbox command builder (`uchroot` with numbered container mounts, a
  search path and library path derived from them, and an environment
  override pushed down a command chain);
- the run ledger: run groups and runs move from `running` to `completed` or
  `failed`, and the guarded runner finalises each run exactly once for the
  outcomes it models (an exit or an interrupt);
- the union-fs lifecycle: set-up validation, the bounded unmount retry, and
  the wrapper that points a project's build directory into the union mount
  while a function runs;
- the filter that extracts `/usr/bin/time` output;
- the action pipelines of the `pollyperformance` and `polly-openmpvect`
  experiments, including the per-thread-count fan-out into cloned projects;
- the pass-sequence selection of the SCoP-detection driver and its constant
  pass lists;
- the package atom and class factory of auto-generated Gentoo portage
  projects.

The modules map to the sources as follows:

- `Commands`, `Sandbox`, `Ledger`, `UnionFs` and `Timing` model
  `benchbuild/utils/run.py`.
- `Projects`, `Actions`, `PollyPerformance` and `OpenMPVect` model the
  experiments.
- `ScopDetection` models `run_scop_detection.py`.
- `Portage` models `portage_gen.py`.
- `Wrappers`, `Strings` and `Settings` are shared helpers.
  `Settings.Config` holds the configuration values the core reads and writes:
  `db.run_id`, `use_file` and `cleanup_paths`.

Objects that the source updates in place are classes:

- the database session (`Ledger.Session`, with a commit journal);
- the configuration;
- the project (`Projects.Project`);
- the host file system and tool-call log (`UnionFs.Host`).

Commands, actions, pass lists and results are datatypes. What the file system
reports, what a process does, and the outcome of the wrapped function are
parameters of the operations.

## Model

| member | source | states |
|---|---|---|
| Commands.Bind | benchbuild/utils/run.py:352-354 | binding arguments to a command gives a bound command with the same callee, whose arguments are the old ones followed by the new ones in order |
| Commands.WithEnvRecursive | benchbuild/utils/run.py:406-423 | a node that is neither a bound command nor a bound-env command is returned untouched; the chain keeps its depth |
| Commands.WithEnvRecursiveKeepsShape | benchbuild/utils/run.py:417-423 | the override changes no node's kind and no bound command's arguments anywhere on the chain |
| Commands.WithEnvRecursiveOverridesEveryBinding | benchbuild/utils/run.py:420-422 | at every depth, a bound-env node stays one and its variables become the old ones, with the given keys overridden and all other keys kept; bound nodes stay bound |
| Commands.WithEnvRecursiveIdempotent | benchbuild/utils/run.py:406-423 | applying the same override twice equals applying it once |
| Commands.WithEnvRecursiveComposes | benchbuild/utils/run.py:406-423 | overriding with env1 and then env2 equals one override with env1 updated by env2, as `dict.update` composes |
| Sandbox.MountPointsDistinct | benchbuild/utils/run.py:367-373 | mounts with different positions get different mountpoints `prefix/i` |
| Sandbox.MountArgsAt | benchbuild/utils/run.py:380-385 | the mount arguments are 2n strings; pair k is `-M` followed by `mount_k:/prefix/k` |
| Sandbox.UchrootMounts | benchbuild/utils/run.py:357-373 | returns exactly one mountpoint per mount; the k-th is `prefix/k`, in source order |
| Sandbox.UchrootMountsInto | benchbuild/utils/run.py:376-386 | returns the same mountpoints, and the command with exactly one `-M` pair per mount appended after its existing arguments in mount order; with no mounts the command is unchanged |
| Sandbox.UchrootEnv | benchbuild/utils/run.py:389-403 | the search path has 2n+4 entries: every `/m/bin` in mount order, then every `/m` in mount order, then `/usr/bin /bin /usr/sbin /sbin`; the library path is every `/m/lib` in mount order |
| Sandbox.UchrootEnvOrder | benchbuild/utils/run.py:399-403 | adding a mount puts its `bin` entry after every earlier `bin` entry and before every mount root, its root after every earlier root and before the system directories, and its `lib` entry after every earlier one; no other entry moves |
| Sandbox.UchrootEnvTwoMounts | benchbuild/utils/run.py:389-403 | with two container mounts the paths are exactly `/mnt/0/bin /mnt/1/bin /mnt/0 /mnt/1 /usr/bin /bin /usr/sbin /sbin` and the library paths are `/mnt/0/lib /mnt/1/lib` |
| Sandbox.UchrootNoLlvm | benchbuild/utils/run.py:337-354 | gives `uchroot -C -w / -r <cwd> -u <uid> -g <gid> -E -A` followed by the caller's arguments, as one flat bound command |
| Sandbox.Uchroot | benchbuild/utils/run.py:440-457 | gives the no-LLVM command with one `-M` pair per container mount under `mnt`, wrapped with `LD_LIBRARY_PATH` and `PATH` derived from those mountpoints, then bound to `--` |
| Ledger.BeginThenEnd | benchbuild/utils/run.py:148-231 | after a run is begun and then ended with a status, the journal gives that run the status, and every other run and every group keeps the status it had before |
| Ledger.TrackedRun | benchbuild/utils/run.py:276-315 | beginning a run and calling the runner once adds one row that ends with the status and log its outcome calls for, commits exactly one begin and one end for it, and leaves every earlier run row, every other run's status and every group unchanged; it returns the combined result, or re-raises the interrupt |
| Ledger.Session.BeginRunGroup | benchbuild/utils/run.py:93-115 | a new group is added in state `running` and committed; the journal invariant is kept |
| Ledger.Session.EndRunGroup | benchbuild/utils/run.py:118-130 | the group becomes `completed` with one commit; nothing else changes |
| Ledger.Session.FailRunGroup | benchbuild/utils/run.py:133-145 | the group becomes `failed` with one commit; nothing else changes |
| Ledger.Session.Begin | benchbuild/utils/run.py:148-178 | a new run is added in state `running` with an empty log and committed |
| Ledger.Session.End | benchbuild/utils/run.py:181-204 | the run becomes `completed` with log status 0 and the captured stdout and stderr, with one commit |
| Ledger.Session.Fail | benchbuild/utils/run.py:207-231 | the run becomes `failed` with the given exit code and output logged, with one commit |
| Ledger.Add | benchbuild/utils/run.py:245-255 | adding nothing gives the left operand; otherwise exit codes add, outputs concatenate left then right, the run reference is the pair of both, and the session is the left one |
| Ledger.AddAssociative | benchbuild/utils/run.py:245-255 | adding three results in either grouping gives the same exit code, output, session and multiset of referenced runs |
| Ledger.Classify | benchbuild/utils/run.py:290-311 | an exit is accepted exactly when no exit code is required or it equals the required one; otherwise it is an execution error that keeps the code and output; an interrupt is an interrupt |
| Ledger.FinalRecordFollowsExitCode | benchbuild/utils/run.py:283-315 | with exit code 0 required, the run completes exactly when the process exits with 0; every exit logs its own code and output; an interrupt logs -1 and `KeyboardInterrupt` |
| Ledger.TrackExecution | benchbuild/utils/run.py:276-281 | begins a running run and sets the configured run id to it and `use_file` to 0 |
| Ledger.Runner | benchbuild/utils/run.py:283-315 | for each outcome a `ProcessResult` can express, the call finalises the run with exactly one commit: `end` with the raw output on an accepted exit; `fail` with the combined result on an execution error, and that result is returned; `fail` with -1 on an interrupt, which is re-raised. No other run or group changes |
| UnionFs.AbsPathIsAbsolute | benchbuild/utils/run.py:528-530 | an absolute path is unchanged, a relative one is joined to the working directory, and making a path absolute twice is the same as once |
| UnionFs.CommonPrefixIsSecond | benchbuild/utils/run.py:580 | the common prefix of a path and the build directory is the build directory exactly when the build directory is a prefix of the path |
| UnionFs.IsOutsideOfBuilddir | benchbuild/utils/run.py:577-581 | a path is outside exactly when the build directory is not a string prefix of it |
| UnionFs.Dedup | benchbuild/utils/run.py:572-574 | the result has no duplicates and the same elements as its input |
| UnionFs.WithCleanupPath | benchbuild/utils/run.py:564-575 | the new cleanup list has no duplicates and contains exactly the old entries and the new path |
| UnionFs.WithCleanupPathIdempotent | benchbuild/utils/run.py:564-575 | adding the same path twice equals adding it once |
| UnionFs.UpdateCleanupPaths | benchbuild/utils/run.py:564-575 | the configured cleanup list becomes the old one with the path added, duplicate-free |
| UnionFs.UnionfsSetUp | benchbuild/utils/run.py:508-532 | creates a missing mountpoint; fails with "Base directory does not exist" if the base is missing, checking this before the image; fails with "Image directory does not exist" if the image is missing; otherwise runs the mount once with `allow_other,cow` and the branch spec `image=RW:base=RO` on absolute paths; succeeds exactly when both exist and the mount tool succeeds, and otherwise raises its `ProcessExecutionError` |
| UnionFs.StopAtIsFirstUnmounted | benchbuild/utils/run.py:499-505 | the retry recursion passes through every call that finds the path still mounted and stops at the first call that does not, or runs down to `tries == 0` exactly when all of them do |
| UnionFs.UnionfsTearDown | benchbuild/utils/run.py:485-505 | makes at most `tries + 1` unmount attempts; raises ValueError, without attempting, when the path is missing; raises RuntimeError exactly when the path is still mounted after the attempt made with `tries == 0`; a failed unmount alone is not an error |
| UnionFs.WrapInUnionFs | benchbuild/utils/run.py:595-638 | with an image prefix, the image dir is always added to the cleanup paths. The three directories exist, and the image is mounted over the container at the mount dir. If the mount fails, its error escapes with no teardown and the build directory unchanged. Otherwise `func` runs with the build directory and working directory at the mount dir, and teardown (3 tries) runs whether `func` returns or raises. A teardown error wins over `func`'s. The build directory is restored only when the result is returned |
| Timing.FetchTimeOutput | benchbuild/utils/run.py:42-58 | every result is the parse of an input line that contains the marker; there are no more results than lines |
| Timing.FetchTimeOutputKeepsParsedLines | benchbuild/utils/run.py:56-58 | every marked line that parses contributes its parse |
| Timing.FetchTimeOutputIgnoresUnmarked | benchbuild/utils/run.py:56 | a line without the marker, added before or after the input, changes nothing |
| Timing.FetchTimeOutputAppend | benchbuild/utils/run.py:56-58 | the filter distributes over concatenation of the input, so results keep the order and multiplicity of their lines |
| Projects.Project.Clone | benchbuild/experiments/polly/pollyperformance.py:64 | a deep copy is a new object with every field equal |
| Actions.StandardPipeline | benchbuild/experiments/polly/openmpvect.py:42-52 | nine actions in the order MakeBuildDir, Echo, Prepare, Download, Configure, Build, Echo, Run, Clean; every non-Echo action is bound to the given project; the Echo messages are the given two |
| Actions.StandardPipelineDetermined | benchbuild/experiments/polly/openmpvect.py:42-52 | equal pipelines have the same project and messages |
| PollyPerformance.ConfigWithLlvm | benchbuild/experiments/polly/pollyperformance.py:51-54 | for k tokens there are 2k flags: `-mllvm` before each token, tokens in order |
| PollyPerformance.BlockAtAppend | benchbuild/experiments/polly/pollyperformance.py:71-81 | extending the action list keeps every earlier nine-action block and appends the new one as the next block |
| PollyPerformance.ThreadPipelinesDiffer | benchbuild/experiments/polly/pollyperformance.py:73-78 | blocks for different thread counts carry different Echo messages |
| PollyPerformance.ThreadClone | benchbuild/experiments/polly/pollyperformance.py:64-69 | a fresh copy with a fresh run id; name, build directory, ldflags and container are copied; the cflags are the project's followed by `-mllvm -polly-num-threads=i`; the runtime extension is `run_with_time` for i threads |
| PollyPerformance.FanOut | benchbuild/experiments/polly/pollyperformance.py:61-82 | one clone per i in 1..jobs-1, so 9·(jobs-1) actions when jobs ≥ 1 and none otherwise; block k is clone k+1's nine-step pipeline with the messages "i core configuration. Configure & Compile" and "i core configuration. Run"; all clones and their run ids are new and pairwise distinct |
| PollyPerformance.ActionsForProject | benchbuild/experiments/polly/pollyperformance.py:41-82 | without a configuration, nothing changes and the result is None; otherwise the project's cflags become the 8 fixed Polly flags followed by the token pairs, and the action list is the fan-out, built from those flags; the original project's cflags are not touched by the clones |
| OpenMPVect.ActionsForProject | benchbuild/experiments/polly/openmpvect.py:31-53 | cflags become the fixed 12 flags ending `-mllvm -polly-vectorizer=stripmine`, ldflags exactly `-lgomp`, and the runtime extension `run_with_time` for `jobs`; the result is the nine-step pipeline on the project itself, with the messages "Compiling... NAME" and "Running... NAME" |
| ScopDetection.SelectOptFlags | benchbuild/experiments/sequence-analysis/run_scop_detection.py:72-100 | the whole name table: `genetic1`/`genetic2` run their genetic heuristic on the -O3 passes followed by the canonicalisation passes; `hill_climber`/`greedy` run their heuristic on the frequent passes; `no_preparation` gives no passes, `polly-canonicalize` gives `-polly-canonicalize`, `polly-preopt-inline` and `polly-preopt` give their fixed lists, and `toposort` gives the topological generator. Exactly those four names are heuristic and only `toposort` is topological |
| ScopDetection.DefaultExactlyForUnknownNames | benchbuild/experiments/sequence-analysis/run_scop_detection.py:89-100 | `-O3 -polly-canonicalize` is selected exactly for names outside the nine known ones |
| ScopDetection.Without | benchbuild/experiments/sequence-analysis/run_scop_detection.py:55-60 | removing a pass leaves every other pass with its multiplicity, and nothing of the removed one |
| ScopDetection.WithoutAppend | benchbuild/experiments/sequence-analysis/run_scop_detection.py:55-60 | removal distributes over concatenation, so the remaining passes keep their relative order |
| ScopDetection.PreoptIsPreoptInlineWithoutInline | benchbuild/experiments/sequence-analysis/run_scop_detection.py:48-60 | `-inline` occurs once in variant 1 and not at all in variant 2; variant 2 is variant 1 with it removed, and variant 1 is variant 2 with `-inline` inserted third |
| ScopDetection.RemovingInsertedElement | benchbuild/experiments/sequence-analysis/run_scop_detection.py:48-60 | inserting a pass that a list lacks and then removing it gives the list back, and the pass then occurs once |
| ScopDetection.O3DisjointFromCanonicalize | benchbuild/experiments/sequence-analysis/run_scop_detection.py:22-39 | no pass of the -O3 list is among Polly's preparation passes, as its comment states |
| Portage.PackageAtom | benchbuild/projects/gentoo/portage_gen.py:18 | the atom starts with `DOMAIN/`; its length is the domain's plus one plus whatever of `NAME` follows the domain and one separator, and nothing when `NAME` is shorter |
| Portage.PackageAtomOfQualifiedName | benchbuild/projects/gentoo/portage_gen.py:18 | when `NAME` is the domain, one separator character and a package name, the atom is `DOMAIN/package` and exactly as long as `NAME` |
| Portage.PackageAtomIdempotent | benchbuild/projects/gentoo/portage_gen.py:18 | deriving the atom from an atom gives it back |
| Portage.RunNotSupported | benchbuild/projects/gentoo/portage_gen.py:62-69 | logs that runs are not supported, then cleans the project exactly when the `clean` setting is on, at most once and last |
| Portage.PortageFactory | benchbuild/projects/gentoo/portage_gen.py:28-78 | the generated class has the given class name, base, `NAME` and `DOMAIN`, the group `auto-gentoo`, and a `run` that does not run the project |

## Left out

- Process execution, `mkdir`, `sync`, `fusermount`, the `unionfs` binary and `os.path.exists`/`ismount` are not run. What they report is a parameter of the operations:
  - the host's directory set;
  - the oracles `existsAt`/`mountedAt`, indexed by the `tries` value of each teardown call;
  - `mountFails`, whether the `unionfs` tool fails;
  - the `ProcessResult` of a command.

  Tool invocations are recorded as `ToolCall`s. A failing `mkdir` is not modelled.
- Runner: only two outcomes are modelled, an exit and a `KeyboardInterrupt`. In the source, any other exception from `cmd.run` escapes without `end` or `fail` and leaves the run `running`. Examples are plumbum's `ProcessTimedOut` and an `OSError` when the binary cannot start (benchbuild/utils/run.py:288-314).
- Classify: `retcode` is one required code or none. plumbum also accepts a collection of codes, and the model does not.
- Logging, warnings and `datetime.now()` timestamps are not modelled, except the one `logger.info` of `run()` in portage_gen.py (benchbuild/projects/gentoo/portage_gen.py:66), which `Portage.RunNotSupported` records as a `LogInfo` effect. The log message for a missing image names the base directory (benchbuild/utils/run.py:524); since logs are not modelled, the model does not capture that either.
- Database internals are not modelled: `create_run`, `create_run_group`, queries and the serialised configuration. A run keeps only its command, experiment, status, log status and output; groups keep only their status.
- The `parse` library is not modelled. `fetch_time_output` takes the parser as a partial function parameter.
- plumbum is not modelled beyond a command tree: a bound command's `[args]` extends its argument list, any other command's `[args]` nests it, and `with_env` wraps it. plumbum returns an unbound command itself when bound to no arguments; `Commands.Bind` still nests it, though no modelled path binds an empty list to an unbound command. `with_env_recursive` mutates the commands in place; the model returns a new tree, so aliasing between shared sub-commands is not captured.
- `list_to_path` (benchbuild/utils/path.py) is not part of this model. It is taken to join with `:`.
- `os.path.abspath` is modelled as joining with the working directory, without `normpath`: `.`, `..`, repeated and trailing slashes are kept as written, so `abspath("/x/")` stays `/x/` where Python gives `/x`. `os.path.relpath` of the build directory is a parameter.
- `handle_stdin`, `run`, `uchroot_no_args`, `uchroot_with_mounts`, `in_builddir`, `store_config` and `GuardedRunException` are not modelled: they are thin plumbum or decorator wrappers outside the core operations. The `mkdir` of the `llvm` directory in `uchroot` is not modelled either.
- `project.setup_derived_filenames()` and `local.cwd`/`local.env` are not modelled. The working directory while `func` runs is recorded in `FuncContext`.
- The `unionfs` decorator's `base_dir` argument is not modelled: the wrapper mounts `project.container.local` and never reads `base_dir` (benchbuild/utils/run.py:603-604).
- The wrapper creates all three directories before calling `unionfs_set_up`, so inside the wrapper set-up can fail only through the mount tool. `UnionfsSetUp` models the missing-directory cases on its own.
- WrapInUnionFs: the source rewrites the decorator's `image_prefix` to an absolute path on the first call, through `nonlocal` (benchbuild/utils/run.py:605-607). Later calls from another working directory reuse that first resolution. The model resolves the prefix against the working directory of each call.
- UpdateCleanupPaths: Python rebuilds the list from a set, so its order is hash order. The model keeps first-occurrence order, and its contract states only the elements and the absence of duplicates.
- `re.split(r'\s*', configs)` depends on the Python version, so the configuration tokens are an input of `PollyPerformance.ActionsForProject`.
- `uuid.uuid4()` is a fresh `RunId` object. `copy.deepcopy` is `Project.Clone`, which copies the modelled fields. `functools.partial(run_with_time, …)` is recorded only as the thread count it binds.
- The heuristic generators, `polly_stats.detect_scops`, and the `getopt`/`print`/`sys.exit` handling of `main` in run_scop_detection.py are not modelled. A generated sequence is recorded as the heuristic and the candidate pool it is given.
- `AutoPortage.build`'s `emerge` calls and `run_tests` are not modelled: they run external tools. Only the package-atom expression is modelled.
- Pass names are an enumeration, with `ScopDetection.Flag` giving each one's command-line spelling. The model does not prove that distinct passes have distinct spellings. The spellings are the source's distinct literals, so disjointness of the enumerations carries over to the flag strings.

The model follows what the code does where its documentation says otherwise:

- `unionfs_tear_down` makes up to `tries + 1` unmount attempts, so 4 by default, not 3.
- The runner does not re-raise `ProcessExecutionError`: it finalises the run as failed and returns the combined result.
- Line 613 of run.py tests the function object `is_outside_of_builddir` rather than calling it, so the image directory is added to the cleanup paths whenever an image prefix is given.
- The build directory is restored only on normal return, because the restore sits after the `finally` block.
- A failed unmount hides the wrapped function's error: the teardown runs in a `finally` block, and an exception raised there replaces the one in flight (benchbuild/utils/run.py:631-635).

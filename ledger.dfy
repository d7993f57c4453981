/**
 * The run ledger: run groups and runs move from running to completed or
 * failed, each transition committed to the database session; and the
 * guarded runner of `track_execution`, which executes one command and
 * finalises its run record exactly once.
 */
module Ledger {
  import opened Wrappers
  import opened Settings

  datatype Status = Running | Completed | Failed

  /** The log row of a run: exit status and captured output, unset until the run ends. */
  datatype RunLog = RunLog(status: Option<int>, stdout: Option<string>, stderr: Option<string>)

  /** A run row: what ran, for which experiment, its status and its log. */
  datatype RunRecord = RunRecord(command: string, experiment: string, status: Status, log: RunLog)

  /** One committed transaction. */
  datatype Commit =
    | GroupBegun(group: nat)
    | GroupEnded(group: nat, status: Status)
    | RunBegun(run: nat)
    | RunEnded(run: nat, status: Status)

  /** The status the journal last committed for run `r`, if it committed any. */
  function RunStatusIn(journal: seq<Commit>, r: nat): Option<Status>
  {
    if journal == [] then None
    else
      var e := journal[|journal| - 1];
      if e.RunBegun? && e.run == r then Some(Running)
      else if e.RunEnded? && e.run == r then Some(e.status)
      else RunStatusIn(journal[..|journal| - 1], r)
  }

  /** The status the journal last committed for group `g`, if it committed any. */
  function GroupStatusIn(journal: seq<Commit>, g: nat): Option<Status>
  {
    if journal == [] then None
    else
      var e := journal[|journal| - 1];
      if e.GroupBegun? && e.group == g then Some(Running)
      else if e.GroupEnded? && e.group == g then Some(e.status)
      else GroupStatusIn(journal[..|journal| - 1], g)
  }

  lemma RunStatusAppend(journal: seq<Commit>, e: Commit, r: nat)
    ensures RunStatusIn(journal + [e], r) ==
      if e.RunBegun? && e.run == r then Some(Running)
      else if e.RunEnded? && e.run == r then Some(e.status)
      else RunStatusIn(journal, r)
  {
    assert (journal + [e])[..|journal|] == journal;
  }

  lemma GroupStatusAppend(journal: seq<Commit>, e: Commit, g: nat)
    ensures GroupStatusIn(journal + [e], g) ==
      if e.GroupBegun? && e.group == g then Some(Running)
      else if e.GroupEnded? && e.group == g then Some(e.status)
      else GroupStatusIn(journal, g)
  {
    assert (journal + [e])[..|journal|] == journal;
  }

  /**
   * A run that is begun and then ended with `status`: afterwards the journal
   * gives it `status`, and every other run and every group keeps the status
   * the journal gave it before.
   */
  lemma {:induction false} BeginThenEnd(journal: seq<Commit>, r: nat, status: Status, q: nat, g: nat)
    ensures RunStatusIn(journal + [RunBegun(r), RunEnded(r, status)], q) ==
      if q == r then Some(status) else RunStatusIn(journal, q)
    ensures GroupStatusIn(journal + [RunBegun(r), RunEnded(r, status)], g) == GroupStatusIn(journal, g)
  {
    assert journal + [RunBegun(r), RunEnded(r, status)] == (journal + [RunBegun(r)]) + [RunEnded(r, status)];
    RunStatusAppend(journal, RunBegun(r), q);
    RunStatusAppend(journal + [RunBegun(r)], RunEnded(r, status), q);
    GroupStatusAppend(journal, RunBegun(r), g);
    GroupStatusAppend(journal + [RunBegun(r)], RunEnded(r, status), g);
  }

  /**
   * The database session. Rows are numbered by creation; the journal lists
   * every committed transition in order.
   */
  class Session {
    var groups: seq<Status>
    var runs: seq<RunRecord>
    var journal: seq<Commit>

    /** Every row holds the status its last committed transition gave it, and nothing was committed for rows that do not exist. */
    ghost predicate Valid()
      reads this
    {
      (forall g :: 0 <= g < |groups| ==> GroupStatusIn(journal, g) == Some(groups[g])) &&
      (forall g: nat :: g >= |groups| ==> GroupStatusIn(journal, g) == None) &&
      (forall r :: 0 <= r < |runs| ==> RunStatusIn(journal, r) == Some(runs[r].status)) &&
      (forall r: nat :: r >= |runs| ==> RunStatusIn(journal, r) == None)
    }

    constructor ()
      ensures Valid() && groups == [] && runs == [] && journal == []
    {
      groups, runs, journal := [], [], [];
    }

    /** `begin_run_group`: a new group, running. */
    method BeginRunGroup() returns (g: nat)
      requires Valid()
      modifies this
      ensures Valid()
      ensures g == |old(groups)| && groups == old(groups) + [Running] && runs == old(runs)
      ensures journal == old(journal) + [GroupBegun(g)]
    {
      g := |groups|;
      groups := groups + [Running];
      journal := journal + [GroupBegun(g)];
      forall x: nat ensures GroupStatusIn(journal, x) == GroupStatusIn(old(journal), x) || x == g {
        GroupStatusAppend(old(journal), GroupBegun(g), x);
      }
      forall x: nat ensures RunStatusIn(journal, x) == RunStatusIn(old(journal), x) {
        RunStatusAppend(old(journal), GroupBegun(g), x);
      }
      GroupStatusAppend(old(journal), GroupBegun(g), g);
    }

    /** Sets group `g` to `status` and commits; shared by `end_run_group` and `fail_run_group`. */
    method FinishRunGroup(g: nat, status: Status)
      requires Valid() && g < |groups|
      modifies this
      ensures Valid()
      ensures groups == old(groups)[g := status] && runs == old(runs)
      ensures journal == old(journal) + [GroupEnded(g, status)]
    {
      groups := groups[g := status];
      journal := journal + [GroupEnded(g, status)];
      forall x: nat ensures GroupStatusIn(journal, x) == GroupStatusIn(old(journal), x) || x == g {
        GroupStatusAppend(old(journal), GroupEnded(g, status), x);
      }
      forall x: nat ensures RunStatusIn(journal, x) == RunStatusIn(old(journal), x) {
        RunStatusAppend(old(journal), GroupEnded(g, status), x);
      }
      GroupStatusAppend(old(journal), GroupEnded(g, status), g);
    }

    /** `end_run_group`: the group completed. */
    method EndRunGroup(g: nat)
      requires Valid() && g < |groups|
      modifies this
      ensures Valid()
      ensures groups == old(groups)[g := Completed] && runs == old(runs)
      ensures journal == old(journal) + [GroupEnded(g, Completed)]
    {
      FinishRunGroup(g, Completed);
    }

    /** `fail_run_group`: the group failed. */
    method FailRunGroup(g: nat)
      requires Valid() && g < |groups|
      modifies this
      ensures Valid()
      ensures groups == old(groups)[g := Failed] && runs == old(runs)
      ensures journal == old(journal) + [GroupEnded(g, Failed)]
    {
      FinishRunGroup(g, Failed);
    }

    /** `begin`: a new run, running, with an empty log row. */
    method Begin(command: string, experiment: string) returns (r: nat)
      requires Valid()
      modifies this
      ensures Valid()
      ensures r == |old(runs)| && groups == old(groups)
      ensures runs == old(runs) + [RunRecord(command, experiment, Running, RunLog(None, None, None))]
      ensures journal == old(journal) + [RunBegun(r)]
    {
      r := |runs|;
      runs := runs + [RunRecord(command, experiment, Running, RunLog(None, None, None))];
      journal := journal + [RunBegun(r)];
      forall x: nat ensures RunStatusIn(journal, x) == RunStatusIn(old(journal), x) || x == r {
        RunStatusAppend(old(journal), RunBegun(r), x);
      }
      forall x: nat ensures GroupStatusIn(journal, x) == GroupStatusIn(old(journal), x) {
        GroupStatusAppend(old(journal), RunBegun(r), x);
      }
      RunStatusAppend(old(journal), RunBegun(r), r);
    }

    /** Writes the final status and log of run `r` and commits; shared by `end` and `fail`. */
    method Finish(r: nat, status: Status, log: RunLog)
      requires Valid() && r < |runs|
      modifies this
      ensures Valid()
      ensures runs == old(runs)[r := old(runs)[r].(status := status, log := log)]
      ensures groups == old(groups)
      ensures journal == old(journal) + [RunEnded(r, status)]
    {
      runs := runs[r := runs[r].(status := status, log := log)];
      journal := journal + [RunEnded(r, status)];
      forall x: nat ensures RunStatusIn(journal, x) == RunStatusIn(old(journal), x) || x == r {
        RunStatusAppend(old(journal), RunEnded(r, status), x);
      }
      forall x: nat ensures GroupStatusIn(journal, x) == GroupStatusIn(old(journal), x) {
        GroupStatusAppend(old(journal), RunEnded(r, status), x);
      }
      RunStatusAppend(old(journal), RunEnded(r, status), r);
    }

    /** `end`: the run completed; its log holds status 0 and the captured output. */
    method End(r: nat, stdout: string, stderr: string)
      requires Valid() && r < |runs|
      modifies this
      ensures Valid()
      ensures runs == old(runs)[r := old(runs)[r].(status := Completed, log := RunLog(Some(0), Some(stdout), Some(stderr)))]
      ensures groups == old(groups)
      ensures journal == old(journal) + [RunEnded(r, Completed)]
    {
      Finish(r, Completed, RunLog(Some(0), Some(stdout), Some(stderr)));
    }

    /** `fail`: the run failed; its log holds `retcode` and the given output. */
    method Fail(r: nat, retcode: int, stdout: string, stderr: string)
      requires Valid() && r < |runs|
      modifies this
      ensures Valid()
      ensures runs == old(runs)[r := old(runs)[r].(status := Failed, log := RunLog(Some(retcode), Some(stdout), Some(stderr)))]
      ensures groups == old(groups)
      ensures journal == old(journal) + [RunEnded(r, Failed)]
    {
      Finish(r, Failed, RunLog(Some(retcode), Some(stdout), Some(stderr)));
    }
  }

  /** The run rows a result refers to: none, one, or the pair built by adding two results. */
  datatype RunRefs = NoRun | OneRun(id: nat) | RunPair(left: RunRefs, right: RunRefs)

  /** `RunInfo`: a command's exit code, captured output, run rows and session. */
  datatype RunInfo = RunInfo(retcode: int, stdout: string, stderr: string, dbRun: RunRefs, session: Session?)

  /**
   * `RunInfo.__add__`: adding `None` gives the left operand; otherwise exit
   * codes add up, outputs are concatenated left then right, the run rows are
   * paired and the left operand's session is kept.
   */
  function Add(lhs: RunInfo, rhs: Option<RunInfo>): (r: RunInfo)
    ensures rhs.None? ==> r == lhs
    ensures rhs.Some? ==> r.retcode == lhs.retcode + rhs.value.retcode
    ensures rhs.Some? ==> r.stdout == lhs.stdout + rhs.value.stdout && r.stderr == lhs.stderr + rhs.value.stderr
    ensures rhs.Some? ==> r.dbRun == RunPair(lhs.dbRun, rhs.value.dbRun) && r.session == lhs.session
  {
    match rhs
    case None => lhs
    case Some(info) =>
      RunInfo(lhs.retcode + info.retcode, lhs.stdout + info.stdout, lhs.stderr + info.stderr,
              RunPair(lhs.dbRun, info.dbRun), lhs.session)
  }

  /** The run rows a result refers to, counted with multiplicity. */
  function RunsOf(refs: RunRefs): multiset<nat>
  {
    match refs
    case NoRun => multiset{}
    case OneRun(id) => multiset{id}
    case RunPair(l, r) => RunsOf(l) + RunsOf(r)
  }

  /** Adding results is associative in exit code, output and the run rows referred to. */
  lemma AddAssociative(a: RunInfo, b: RunInfo, c: RunInfo)
    ensures var left := Add(Add(a, Some(b)), Some(c));
      var right := Add(a, Some(Add(b, Some(c))));
      left.retcode == right.retcode && left.stdout == right.stdout && left.stderr == right.stderr &&
      RunsOf(left.dbRun) == RunsOf(right.dbRun) && left.session == right.session
  {
    assert (a.stdout + b.stdout) + c.stdout == a.stdout + (b.stdout + c.stdout);
    assert (a.stderr + b.stderr) + c.stderr == a.stderr + (b.stderr + c.stderr);
  }

  /** What the process did: it exited with a code and output, or the user interrupted it. */
  datatype ProcessResult = Exited(code: int, stdout: string, stderr: string) | Interrupted

  /** How the runner sees a process result. */
  datatype Classified =
    | Accepted(code: int, stdout: string, stderr: string)
    | ExecutionError(code: int, stdout: string, stderr: string)
    | KeyboardInterrupt

  /**
   * `cmd.run(retcode=retcode)`: an exit code is accepted when no code is
   * required (`retcode=None`) or it is the required one; otherwise the run
   * raises `ProcessExecutionError`.
   */
  function Classify(result: ProcessResult, retcode: Option<int>): (o: Classified)
    ensures o.KeyboardInterrupt? <==> result.Interrupted?
    ensures o.Accepted? <==> result.Exited? && (retcode.None? || retcode.value == result.code)
    ensures result.Exited? ==>
              !o.KeyboardInterrupt? && o.code == result.code &&
              o.stdout == result.stdout && o.stderr == result.stderr
  {
    match result
    case Interrupted => KeyboardInterrupt
    case Exited(code, out, err) =>
      if retcode.None? || retcode.value == code then Accepted(code, out, err)
      else ExecutionError(code, out, err)
  }

  /** What a call of the runner does for its caller: it returns a result or re-raises the interrupt. */
  datatype RunnerOutcome = Returned(info: RunInfo) | ReRaised

  /** The status and log the runner finalises the run with, for each outcome. */
  function FinalRecord(o: Classified, ri: Option<RunInfo>, run: nat, session: Session?): (Status, RunLog)
  {
    match o
    case Accepted(_, out, err) => (Completed, RunLog(Some(0), Some(out), Some(err)))
    case ExecutionError(code, out, err) =>
      var info := Add(RunInfo(code, out, err, OneRun(run), session), ri);
      (Failed, RunLog(Some(info.retcode), Some(info.stdout), Some(info.stderr)))
    case KeyboardInterrupt => (Failed, RunLog(Some(-1), Some(""), Some("KeyboardInterrupt")))
  }

  /**
   * With exit code 0 required and no earlier result to add: exit 0 completes
   * the run with log status 0, any other exit fails it with that code, and an
   * interrupt fails it with the sentinel -1.
   */
  lemma FinalRecordFollowsExitCode(result: ProcessResult, run: nat, session: Session?)
    ensures var (status, log) := FinalRecord(Classify(result, Some(0)), None, run, session);
      (status == Completed <==> result.Exited? && result.code == 0) &&
      (result.Exited? ==> log == RunLog(Some(result.code), Some(result.stdout), Some(result.stderr))) &&
      (result.Interrupted? ==> log.status == Some(-1) && log.stderr == Some("KeyboardInterrupt"))
  {
  }

  /**
   * `track_execution(cmd, project, experiment)` up to its `yield`: begins a
   * run and points the configuration at it.
   */
  method TrackExecution(session: Session, cfg: Config, command: string, experiment: string)
    returns (run: nat)
    requires session.Valid()
    modifies session, cfg
    ensures session.Valid()
    ensures run == |old(session.runs)| && session.groups == old(session.groups)
    ensures session.runs == old(session.runs) + [RunRecord(command, experiment, Running, RunLog(None, None, None))]
    ensures session.journal == old(session.journal) + [RunBegun(run)]
    ensures cfg.runId == Some(run) && cfg.useFile == 0 && cfg.cleanupPaths == old(cfg.cleanupPaths)
  {
    run := session.Begin(command, experiment);
    cfg.runId := Some(run);
    cfg.useFile := 0;
  }

  /**
   * One call of `runner(retcode, ri)` for the run `run`: the process result
   * is sorted into accepted exit, `ProcessExecutionError` or
   * `KeyboardInterrupt`, and the run is finalised by exactly one commit:
   * `end` with the raw output on an accepted exit, `fail` with the combined
   * result on an execution error, `fail` with -1 and "KeyboardInterrupt" on
   * an interrupt, which is then re-raised.
   */
  method Runner(session: Session, run: nat, result: ProcessResult, retcode: Option<int>, ri: Option<RunInfo>)
    returns (out: RunnerOutcome)
    requires session.Valid() && run < |session.runs|
    modifies session
    ensures session.Valid()
    ensures session.groups == old(session.groups)
    ensures var (status, log) := FinalRecord(Classify(result, retcode), ri, run, session);
      session.runs == old(session.runs)[run := old(session.runs)[run].(status := status, log := log)] &&
      session.journal == old(session.journal) + [RunEnded(run, status)]
    ensures match Classify(result, retcode)
      case Accepted(code, o, e) => out == Returned(Add(RunInfo(code, o, e, OneRun(run), session), ri))
      case ExecutionError(code, o, e) => out == Returned(Add(RunInfo(code, o, e, OneRun(run), session), ri))
      case KeyboardInterrupt => out == ReRaised
  {
    match Classify(result, retcode)
    case Accepted(ec, stdout, stderr) =>
      var r := Add(RunInfo(ec, stdout, stderr, OneRun(run), session), ri);
      session.End(run, stdout, stderr);
      out := Returned(r);
    case ExecutionError(code, stdout, stderr) =>
      var r := Add(RunInfo(code, stdout, stderr, OneRun(run), session), ri);
      session.Fail(run, r.retcode, r.stdout, r.stderr);
      out := Returned(r);
    case KeyboardInterrupt =>
      session.Fail(run, -1, "", "KeyboardInterrupt");
      out := ReRaised;
  }

  /**
   * A guarded execution from start to end: `track_execution` begins the
   * run, and one call of its runner finalises it. The new run ends with the
   * status and log its outcome calls for, committed as exactly one begin and
   * one end; every earlier run and every group is left as it was. The
   * combined result is returned, or the interrupt is re-raised.
   */
  method TrackedRun(session: Session, cfg: Config, command: string, experiment: string,
                    result: ProcessResult, retcode: Option<int>, ri: Option<RunInfo>)
    returns (run: nat, out: RunnerOutcome)
    requires session.Valid()
    modifies session, cfg
    ensures session.Valid()
    ensures run == |old(session.runs)| && |session.runs| == run + 1 && session.groups == old(session.groups)
    ensures var (status, log) := FinalRecord(Classify(result, retcode), ri, run, session);
      session.runs[run] == RunRecord(command, experiment, status, log) &&
      session.journal == old(session.journal) + [RunBegun(run), RunEnded(run, status)] &&
      RunStatusIn(session.journal, run) == Some(status)
    ensures forall q :: 0 <= q < run ==> session.runs[q] == old(session.runs)[q]
    ensures forall q: nat :: q != run ==> RunStatusIn(session.journal, q) == RunStatusIn(old(session.journal), q)
    ensures cfg.runId == Some(run)
    ensures match Classify(result, retcode)
      case Accepted(code, o, e) => out == Returned(Add(RunInfo(code, o, e, OneRun(run), session), ri))
      case ExecutionError(code, o, e) => out == Returned(Add(RunInfo(code, o, e, OneRun(run), session), ri))
      case KeyboardInterrupt => out == ReRaised
  {
    run := TrackExecution(session, cfg, command, experiment);
    out := Runner(session, run, result, retcode, ri);
    var (status, log) := FinalRecord(Classify(result, retcode), ri, run, session);
    forall q: nat | q != run
      ensures RunStatusIn(session.journal, q) == RunStatusIn(old(session.journal), q)
    {
      BeginThenEnd(old(session.journal), run, status, q, 0);
    }
  }
}

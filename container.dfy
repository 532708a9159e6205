/**
 * Containers: the listing of all containers, the single-container commands
 * (logs, start, stop, restart, remove, exec), stats and inspection, and the
 * log streaming that reports a container's logs into an operation logger.
 */
module Containers {
  import opened Wrappers
  import opened JsonValues
  import opened Text
  import opened DockerBase
  import opened DockerLogging

  /** One entry of `get_containers`: the raw JSON of each field ('' when absent). */
  datatype ContainerInfo = ContainerInfo(id: Json, name: Json, image: Json, status: Json, created: Json, ports: Json)

  const ListCommand: seq<string> := ["docker", "ps", "-a", "--format", "{{json .}}"]

  function ContainerRow(f: map<string, Json>): ContainerInfo {
    ContainerInfo(Get(f, "ID", JStr("")), Get(f, "Names", JStr("")), Get(f, "Image", JStr("")),
                  Get(f, "Status", JStr("")), Get(f, "CreatedAt", JStr("")), Get(f, "Ports", JStr("")))
  }

  /** `get_containers`: one entry per listed container, or none when the listing fails. */
  method GetContainers(p: ProcessOutcome, decode: Decoder) returns (containers: seq<ContainerInfo>)
    ensures containers == Listing(p, decode, ContainerRow)
  {
    containers := ListRows(p, decode, ContainerRow);
  }

  /**
   * Each entry carries the ID, Names, Image, Status, CreatedAt and Ports of the document it
   * came from, in the order the command listed them.
   */
  lemma ContainerListing(p: ProcessOutcome, decode: Decoder)
    requires p.Exited? && p.code == 0
    ensures var docs := ParsedLines(Split(Strip(p.stdout), '\n'), decode);
            var rows := Listing(p, decode, ContainerRow);
            && ((forall k :: 0 <= k < |docs| ==> docs[k].JObj?) ==> |rows| == |docs|)
            && ((exists k :: 0 <= k < |docs| && !docs[k].JObj?) ==> rows == [])
            && (forall k :: 0 <= k < |rows| ==>
                  (docs[k].JObj? && rows[k].id == Get(docs[k].fields, "ID", JStr("")) && rows[k].name == Get(docs[k].fields, "Names", JStr(""))))
  {
    var docs := ParsedLines(Split(Strip(p.stdout), '\n'), decode);
    assert Listing(p, decode, ContainerRow) == Rows(docs, ContainerRow).GetOr([]);
    RowsMeaning(docs, ContainerRow);
  }

  /** The single-container commands, each run with output captured and the status unchecked. */
  datatype ContainerOp = Logs(tail: int) | Start | Stop | Restart | Remove(force: bool) | Exec(command: string)

  function OpArgv(id: string, op: ContainerOp): seq<string> {
    match op
    case Logs(tail) => ["docker", "logs", "--tail", IntText(tail), id]
    case Start => ["docker", "start", id]
    case Stop => ["docker", "stop", id]
    case Restart => ["docker", "restart", id]
    case Remove(force) =>
      var cmd := ["docker", "rm", id];
      if force then cmd[..2] + ["-f"] + cmd[2..] else cmd
    case Exec(command) => ["docker", "exec", id] + Words(command)
  }

  /**
   * Every command names the container last, except `exec`, whose command's words follow it;
   * `rm` is forced exactly when asked.
   */
  lemma OpArgvShape(id: string, op: ContainerOp)
    ensures OpArgv(id, op)[0] == "docker"
    ensures !op.Exec? ==> OpArgv(id, op)[|OpArgv(id, op)| - 1] == id
    ensures op.Exec? ==> OpArgv(id, op)[2] == id && OpArgv(id, op)[3..] == Words(op.command)
    ensures op.Remove? ==> ("-f" in OpArgv(id, op) <==> op.force || id == "-f")
  {
  }

  /** `get_container_logs`, `start_container`, `stop_container`, `restart_container`, `remove_container`, `exec_container_command`. */
  method RunContainerOp(id: string, op: ContainerOp, p: ProcessOutcome) returns (argv: seq<string>, ok: bool, output: string)
    ensures argv == OpArgv(id, op)
    ensures (ok, output) == RunCommand(p, true, false)
  {
    argv := OpArgv(id, op);
    ok, output := RunCommandUnchecked(p);
  }

  /** `get_container_stats`: the document the stats command printed, or failure with an empty object. */
  function ContainerStats(p: ProcessOutcome, decode: Decoder): (r: (bool, Json))
    ensures r.0 <==> p.Exited? && p.code == 0 && !Blank(p.stdout) && decode(Strip(p.stdout)).Some?
    ensures r.0 ==> r.1 == decode(Strip(p.stdout)).value
    ensures !r.0 ==> r.1 == EmptyObject
  {
    var (ok, output) := RunCommand(p, true, false);
    StripBlank(output);
    if ok && Strip(output) != "" && decode(Strip(output)).Some? then (true, decode(Strip(output)).value)
    else (false, EmptyObject)
  }

  // ---------------------------------------------------------------- log streaming

  /** What the container's inspection says: absent, unreadable (a `.get` on a non-object), or its state. */
  datatype LogPlan =
    | NotFound
    | Unreadable
    | Stopped
    | Following(since: Json)

  /** How `stream_container_logs` reads the inspection result. */
  function PlanFor(inspected: (bool, Json)): LogPlan {
    if !inspected.0 then NotFound
    else if !inspected.1.JObj? then Unreadable
    else
      var state := Get(inspected.1.fields, "State", EmptyObject);
      if !state.JObj? then Unreadable
      else if !Truthy(Get(state.fields, "Running", JBool(false))) then Stopped
      else Following(Get(state.fields, "StartedAt", JStr("")))
  }

  function StateLine(id: string, running: bool): string {
    "Container " + id + " state: " + (if running then "Running" else "Not running")
  }

  function PastLogsArgv(id: string): seq<string> {
    ["docker", "logs", "--timestamps", id]
  }

  function FollowArgv(id: string, since: string): seq<string> {
    ["docker", "logs", "--follow", "--timestamps", "--since", since, id]
  }

  /**
   * The logger calls `stream_container_logs` makes. `logs` is the outcome of the `docker logs`
   * run (when one happens) and `failure` the text of the exception raised, if one is.
   */
  function ContainerLogSteps(id: string, plan: LogPlan, logs: StreamOutcome, failure: string): seq<LogStep> {
    match plan
    case NotFound => [Line("Error: Container " + id + " not found"), Complete(false)]
    case Unreadable => [Line("Error streaming logs: " + failure), Complete(false)]
    case Stopped =>
      [Line(StateLine(id, false)), Line("Container is not running, showing existing logs")]
      + StreamSteps(PastLogsArgv(id), logs)
      + [Line("End of logs (container not running)"), Complete(true)]
    case Following(since) =>
      [Line(StateLine(id, true)), Line("Streaming logs for running container " + id)]
      + (if since.JStr? then StreamSteps(FollowArgv(id, since.s), logs)
         else [Line("Error running command: " + failure), Complete(false)])
  }

  /** Calls ending in `complete(b)` leave the logger completed, in the status `b` gives. */
  lemma EndsCompleted(before: seq<LogStep>, pre: seq<LogStep>, b: bool)
    ensures CompletionsOf(pre + [Complete(b)]) != []
    ensures StatusAfter(before + (pre + [Complete(b)]), Running) == (if b then Completed else Failed)
  {
    StepSnoc(pre, Complete(b), Running);
    StepSnoc(before + pre, Complete(b), Running);
    assert before + (pre + [Complete(b)]) == (before + pre) + [Complete(b)];
  }

  /** The status a logger ends with: failed when the container is missing or unreadable, completed for a stopped one, the follow run's outcome otherwise. */
  lemma ContainerLogOutcome(id: string, plan: LogPlan, logs: StreamOutcome, failure: string, before: seq<LogStep>)
    ensures CompletionsOf(ContainerLogSteps(id, plan, logs, failure)) != []
    ensures StatusAfter(before + ContainerLogSteps(id, plan, logs, failure), Running)
         == (match plan
             case NotFound => Failed
             case Unreadable => Failed
             case Stopped => Completed
             case Following(since) => if since.JStr? && StreamResult(logs).0 then Completed else Failed)
  {
    var steps := ContainerLogSteps(id, plan, logs, failure);
    match plan {
      case NotFound =>
        EndsCompleted(before, [steps[0]], false);
        assert steps == [steps[0]] + [Complete(false)];
      case Unreadable =>
        EndsCompleted(before, [steps[0]], false);
        assert steps == [steps[0]] + [Complete(false)];
      case Stopped =>
        var pre := [Line(StateLine(id, false)), Line("Container is not running, showing existing logs")]
                   + StreamSteps(PastLogsArgv(id), logs) + [Line("End of logs (container not running)")];
        EndsCompleted(before, pre, true);
        assert steps == pre + [Complete(true)];
      case Following(since) =>
        var head := [Line(StateLine(id, true)), Line("Streaming logs for running container " + id)];
        if since.JStr? {
          FollowEnds(head, FollowArgv(id, since.s), logs, before);
        } else {
          var pre := head + [Line("Error running command: " + failure)];
          EndsCompleted(before, pre, false);
          assert steps == pre + [Complete(false)];
        }
    }
  }

  /** A streaming run's last logger call is the `complete` with the run's success. */
  lemma StreamStepsLast(argv: seq<string>, logs: StreamOutcome)
    ensures |StreamSteps(argv, logs)| >= 2
    ensures StreamSteps(argv, logs)[|StreamSteps(argv, logs)| - 1] == Complete(StreamResult(logs).0)
  {
    var c := ClosingSteps(logs);
    assert |c| == 2 && c[1] == Complete(StreamResult(logs).0);
    var body := [Line(StartLine(argv))] + LineSteps(StripAll(RawLines(logs)));
    assert StreamSteps(argv, logs) == body + c;
  }

  lemma FollowEnds(head: seq<LogStep>, argv: seq<string>, logs: StreamOutcome, before: seq<LogStep>)
    ensures CompletionsOf(head + StreamSteps(argv, logs)) != []
    ensures StatusAfter(before + (head + StreamSteps(argv, logs)), Running) == (if StreamResult(logs).0 then Completed else Failed)
  {
    var steps := head + StreamSteps(argv, logs);
    StreamStepsLast(argv, logs);
    var pre := steps[..|steps| - 1];
    assert steps == pre + [Complete(StreamResult(logs).0)];
    EndsCompleted(before, pre, StreamResult(logs).0);
  }

  /**
   * `stream_container_logs`: inspects the container, reports its state, and streams its logs.
   * Returns the `docker logs` command line it ran, if any. Every plan ends with a `complete`
   * call, so the logger's end time is `now`; `stamp` is the clock's ISO text for its events.
   */
  method StreamContainerLogs(id: string, inspectRun: ProcessOutcome, decode: Decoder, logs: StreamOutcome,
                             failure: string, logger: OperationLogger?, now: int, stamp: string)
    returns (ran: Option<seq<string>>)
    requires logger != null ==> logger.Valid()
    modifies logger
    ensures var plan := PlanFor(Inspect(inspectRun, decode));
            && (logger != null ==> logger.Valid() && logger.steps == old(logger.steps) + ContainerLogSteps(id, plan, logs, failure))
            && (logger != null ==> logger.dbLog == MirrorAfter(old(logger.dbLog), ContainerLogSteps(id, plan, logs, failure)))
            && ran == RanCommand(id, plan)
    ensures logger != null ==> logger.completedAt == Some(now)
  {
    var inspected := InspectContainer(inspectRun, decode);
    var plan := PlanFor(inspected);
    match plan {
      case NotFound =>
        LogAndComplete(logger, "Error: Container " + id + " not found", false, now, stamp);
        ran := None;
      case Unreadable =>
        LogAndComplete(logger, "Error streaming logs: " + failure, false, now, stamp);
        ran := None;
      case Stopped =>
        ran := ShowPastLogs(id, logs, logger, now, stamp);
      case Following(since) =>
        ran := FollowLogs(id, since, logs, failure, logger, now, stamp);
    }
  }

  /** The `docker logs` command `stream_container_logs` runs for a plan. */
  function RanCommand(id: string, plan: LogPlan): Option<seq<string>> {
    match plan
    case Stopped => Some(PastLogsArgv(id))
    case Following(since) => if since.JStr? then Some(FollowArgv(id, since.s)) else None
    case _ => None
  }

  /** The branch for a container that is not running: its existing logs, then a final successful completion. */
  method ShowPastLogs(id: string, logs: StreamOutcome, logger: OperationLogger?, now: int, stamp: string)
    returns (ran: Option<seq<string>>)
    requires logger != null ==> logger.Valid()
    modifies logger
    ensures logger != null ==> logger.Valid() && logger.steps == old(logger.steps) + ContainerLogSteps(id, Stopped, logs, "")
    ensures logger != null ==> logger.dbLog == MirrorAfter(old(logger.dbLog), ContainerLogSteps(id, Stopped, logs, ""))
    ensures logger != null ==> logger.completedAt == Some(now)
    ensures ran == RanCommand(id, Stopped)
  {
    ghost var s0 := if logger != null then logger.steps else [];
    ghost var db0 := if logger != null then logger.dbLog else None;
    LogLine(logger, StateLine(id, false), stamp);
    LogLine(logger, "Container is not running, showing existing logs", stamp);
    var _, _ := RunCommandWithStreaming(PastLogsArgv(id), logs, logger, now, stamp);
    LogAndComplete(logger, "End of logs (container not running)", true, now, stamp);
    ran := Some(PastLogsArgv(id));
    PastLogsCalls(id, logs, s0, db0);
  }

  /** The four groups of calls `ShowPastLogs` makes, one after another, are the stopped plan's calls. */
  lemma PastLogsCalls(id: string, logs: StreamOutcome, s0: seq<LogStep>, db0: Option<DbMirror>)
    ensures var l1, l2 := Line(StateLine(id, false)), Line("Container is not running, showing existing logs");
            var run, close := StreamSteps(PastLogsArgv(id), logs), [Line("End of logs (container not running)"), Complete(true)];
            && s0 + [l1] + [l2] + run + close == s0 + ContainerLogSteps(id, Stopped, logs, "")
            && MirrorAfter(MirrorAfter(MirrorAfter(MirrorAfter(db0, [l1]), [l2]), run), close)
               == MirrorAfter(db0, ContainerLogSteps(id, Stopped, logs, ""))
  {
    var l1, l2 := Line(StateLine(id, false)), Line("Container is not running, showing existing logs");
    var run, close := StreamSteps(PastLogsArgv(id), logs), [Line("End of logs (container not running)"), Complete(true)];
    assert ContainerLogSteps(id, Stopped, logs, "") == [l1, l2] + run + close;
    Regroup(s0, l1, l2, run, close);
    MirrorChain(db0, [l1], [l2], run, close);
    assert [l1] + [l2] + run + close == [l1, l2] + run + close;
  }

  lemma RegroupPair<T>(a: seq<T>, x: T, y: T, b: seq<T>)
    ensures a + [x] + [y] + b == a + ([x, y] + b)
  {
  }

  lemma Regroup<T>(a: seq<T>, x: T, y: T, b: seq<T>, c: seq<T>)
    ensures a + [x] + [y] + b + c == a + ([x, y] + b + c)
  {
  }

  /** The branch for a running container: its logs followed since it started. */
  method FollowLogs(id: string, since: Json, logs: StreamOutcome, failure: string, logger: OperationLogger?, now: int,
                    stamp: string)
    returns (ran: Option<seq<string>>)
    requires logger != null ==> logger.Valid()
    modifies logger
    ensures logger != null ==> logger.Valid() && logger.steps == old(logger.steps) + ContainerLogSteps(id, Following(since), logs, failure)
    ensures logger != null ==> logger.dbLog == MirrorAfter(old(logger.dbLog), ContainerLogSteps(id, Following(since), logs, failure))
    ensures logger != null ==> logger.completedAt == Some(now)
    ensures ran == RanCommand(id, Following(since))
  {
    ghost var s0 := if logger != null then logger.steps else [];
    ghost var db0 := if logger != null then logger.dbLog else None;
    ghost var l1, l2 := Line(StateLine(id, true)), Line("Streaming logs for running container " + id);
    LogLine(logger, StateLine(id, true), stamp);
    LogLine(logger, "Streaming logs for running container " + id, stamp);
    MirrorCompose(db0, [l1], [l2]);
    assert [l1] + [l2] == [l1, l2];
    ghost var tail: seq<LogStep>;
    if since.JStr? {
      var _, _ := RunCommandWithStreaming(FollowArgv(id, since.s), logs, logger, now, stamp);
      ran := Some(FollowArgv(id, since.s));
      tail := StreamSteps(FollowArgv(id, since.s), logs);
    } else {
      LogAndComplete(logger, "Error running command: " + failure, false, now, stamp);
      ran := None;
      tail := [Line("Error running command: " + failure), Complete(false)];
    }
    assert ContainerLogSteps(id, Following(since), logs, failure) == [l1, l2] + tail;
    RegroupPair(s0, l1, l2, tail);
    MirrorCompose(db0, [l1, l2], tail);
  }

  /** `inspect_container` as a method call. */
  method InspectContainer(p: ProcessOutcome, decode: Decoder) returns (r: (bool, Json))
    ensures r == Inspect(p, decode)
  {
    r := Inspect(p, decode);
  }

  /** `if logger: logger.add_log_line(text)`. */
  method LogLine(logger: OperationLogger?, text: string, stamp: string)
    requires logger != null ==> logger.Valid()
    modifies logger
    ensures logger != null ==> logger.Valid() && logger.steps == old(logger.steps) + [Line(text)]
    ensures logger != null ==> logger.dbLog == MirrorAfter(old(logger.dbLog), [Line(text)])
    ensures logger != null ==> logger.completedAt == old(logger.completedAt)
  {
    if logger != null {
      logger.AddLogLine(text, stamp);
    }
  }

  /** `if logger: logger.add_log_line(text); logger.complete(success)`. */
  method LogAndComplete(logger: OperationLogger?, text: string, success: bool, now: int, stamp: string)
    requires logger != null ==> logger.Valid()
    modifies logger
    ensures logger != null ==> logger.Valid() && logger.steps == old(logger.steps) + [Line(text), Complete(success)]
    ensures logger != null ==> logger.dbLog == MirrorAfter(old(logger.dbLog), [Line(text), Complete(success)])
    ensures logger != null ==> logger.completedAt == Some(now)
  {
    if logger != null {
      logger.AddLogLine(text, stamp);
      logger.Complete(success, now, stamp);
      MirrorCompose(old(logger.dbLog), [Line(text)], [Complete(success)]);
      assert [Line(text)] + [Complete(success)] == [Line(text), Complete(success)];
    }
  }
}

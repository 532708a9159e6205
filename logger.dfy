/**
 * Operation logging: a logger collects the output lines of one Docker operation,
 * moves from running to completed or failed, mirrors both into its database log
 * once one exists, and, as a WebSocket logger, emits an event for each of them.
 */
module DockerLogging {
  import opened Wrappers
  import opened JsonValues
  import opened Text
  import opened SocketEvents

  datatype LogStatus = Running | Completed | Failed

  /** The status text the source stores and sends: 'running', 'completed' or 'failed'. */
  function StatusText(s: LogStatus): string {
    match s
    case Running => "running"
    case Completed => "completed"
    case Failed => "failed"
  }

  /** One call made on a logger: `add_log_line(text)` or `complete(success)`. */
  datatype LogStep = Line(text: string) | Complete(success: bool)

  /** The texts of the `add_log_line` calls, in order. */
  function LinesOf(steps: seq<LogStep>): seq<string> {
    if steps == [] then []
    else LinesOf(steps[..|steps| - 1]) + (if steps[|steps| - 1].Line? then [steps[|steps| - 1].text] else [])
  }

  /** The arguments of the `complete` calls, in order. */
  function CompletionsOf(steps: seq<LogStep>): seq<bool> {
    if steps == [] then []
    else CompletionsOf(steps[..|steps| - 1]) + (if steps[|steps| - 1].Complete? then [steps[|steps| - 1].success] else [])
  }

  /** The status after the calls `steps`, starting from `start`: the last `complete` decides. */
  function StatusAfter(steps: seq<LogStep>, start: LogStatus): LogStatus {
    if steps == [] then start
    else match steps[|steps| - 1]
      case Complete(s) => if s then Completed else Failed
      case Line(_) => StatusAfter(steps[..|steps| - 1], start)
  }

  lemma {:induction false} StepsAppend(a: seq<LogStep>, b: seq<LogStep>, start: LogStatus)
    ensures LinesOf(a + b) == LinesOf(a) + LinesOf(b)
    ensures CompletionsOf(a + b) == CompletionsOf(a) + CompletionsOf(b)
    ensures StatusAfter(a + b, start) == StatusAfter(b, StatusAfter(a, start))
  {
    if b == [] {
      assert a + b == a;
    } else {
      var b' := b[..|b| - 1];
      assert (a + b)[..|a + b| - 1] == a + b';
      assert (a + b)[|a + b| - 1] == b[|b| - 1];
      StepsAppend(a, b', start);
    }
  }

  /** The last `complete` call decides the status, whatever came before it. */
  lemma {:induction false} LastCompleteWins(a: seq<LogStep>, success: bool, b: seq<LogStep>, start: LogStatus)
    requires CompletionsOf(b) == []
    ensures StatusAfter(a + [Complete(success)] + b, start) == (if success then Completed else Failed)
  {
    StepsAppend(a + [Complete(success)], b, start);
    NoCompletionKeepsStatus(b, StatusAfter(a + [Complete(success)], start));
  }

  lemma {:induction false} NoCompletionKeepsStatus(b: seq<LogStep>, st: LogStatus)
    requires CompletionsOf(b) == []
    ensures StatusAfter(b, st) == st
  {
    if b != [] {
      var b' := b[..|b| - 1];
      assert b[|b| - 1].Line?;
      NoCompletionKeepsStatus(b', st);
    }
  }

  /** The database operation log that mirrors a logger after `create_db_log`. */
  datatype DbMirror = DbMirror(id: int, lines: seq<string>, completions: seq<bool>)

  /** The database log after the calls `steps`, each forwarded to it when it exists. */
  function MirrorAfter(db: Option<DbMirror>, steps: seq<LogStep>): (r: Option<DbMirror>)
    ensures r.Some? <==> db.Some?
  {
    match db
    case None => None
    case Some(m) => Some(DbMirror(m.id, m.lines + LinesOf(steps), m.completions + CompletionsOf(steps)))
  }

  /** Forwarding one call appends its text or its completion to the database log. */
  lemma MirrorOne(db: Option<DbMirror>, step: LogStep)
    ensures MirrorAfter(db, [step]) ==
              if db.None? then None
              else if step.Line? then Some(DbMirror(db.value.id, db.value.lines + [step.text], db.value.completions))
              else Some(DbMirror(db.value.id, db.value.lines, db.value.completions + [step.success]))
  {
    assert [step][..0] == [];
    assert LinesOf([step]) == (if step.Line? then [step.text] else []) by {
      assert LinesOf([step]) == LinesOf([]) + (if step.Line? then [step.text] else []);
    }
    assert CompletionsOf([step]) == (if step.Complete? then [step.success] else []) by {
      assert CompletionsOf([step]) == CompletionsOf([]) + (if step.Complete? then [step.success] else []);
    }
    if db.Some? {
      var d := db.value;
      assert d.lines + [] == d.lines;
      assert d.completions + [] == d.completions;
      assert MirrorAfter(db, [step]) == Some(DbMirror(d.id, d.lines + LinesOf([step]), d.completions + CompletionsOf([step])));
    }
  }

  /** Forwarding two runs of calls one after the other is forwarding them together. */
  lemma MirrorCompose(db: Option<DbMirror>, a: seq<LogStep>, b: seq<LogStep>)
    ensures MirrorAfter(MirrorAfter(db, a), b) == MirrorAfter(db, a + b)
  {
    StepsAppend(a, b, Running);
    if db.Some? {
      var m := db.value;
      assert m.lines + LinesOf(a) + LinesOf(b) == m.lines + LinesOf(a + b);
      assert m.completions + CompletionsOf(a) + CompletionsOf(b) == m.completions + CompletionsOf(a + b);
    }
  }

  lemma MirrorNothing(db: Option<DbMirror>)
    ensures MirrorAfter(db, []) == db
  {
    if db.Some? {
      assert db.value.lines + [] == db.value.lines;
      assert db.value.completions + [] == db.value.completions;
    }
  }

  /** The fields a WebSocket logger puts in every event. */
  datatype EventMeta = EventMeta(logId: Option<int>, operationType: string, configId: Option<int>,
                                 containerId: Option<string>, imageName: Option<string>, room: string)

  function MetaPayload(m: EventMeta): Payload {
    map["log_id" := OptNum(m.logId), "operation_type" := JStr(m.operationType), "config_id" := OptNum(m.configId),
        "container_id" := OptStr(m.containerId), "image_name" := OptStr(m.imageName)]
  }

  /** The keys every logger event carries besides its own. */
  const MetaKeys: set<string> := {"log_id", "operation_type", "config_id", "container_id", "image_name"}

  /**
   * The event one call emits; `st` is the status once the call has taken effect and `stamp` the
   * ISO text of the clock when the event is built.
   */
  function StepEvent(m: EventMeta, step: LogStep, st: LogStatus, stamp: string): (e: Emission)
    ensures e.room == Some(m.room)
    ensures step.Line? ==> e.event == "docker_log" && "line" in e.data && e.data["line"] == JStr(step.text)
    ensures step.Complete? ==> e.event == "docker_log_complete" && "success" in e.data && e.data["success"] == JBool(step.success)
    ensures "status" in e.data && e.data["status"] == JStr(StatusText(st))
    ensures "timestamp" in e.data && e.data["timestamp"] == JStr(stamp)
  {
    match step
    case Line(t) =>
      Emission("docker_log", MetaPayload(m)["line" := JStr(t)]["timestamp" := JStr(stamp)]["status" := JStr(StatusText(st))], Some(m.room))
    case Complete(s) =>
      Emission("docker_log_complete", MetaPayload(m)["success" := JBool(s)]["timestamp" := JStr(stamp)]["status" := JStr(StatusText(st))], Some(m.room))
  }

  /** Every event carries exactly the logger's fields, its own key, the timestamp and the status. */
  lemma StepEventFields(m: EventMeta, step: LogStep, st: LogStatus, stamp: string)
    ensures var e := StepEvent(m, step, st, stamp);
            && e.data.Keys == MetaKeys + {if step.Line? then "line" else "success", "timestamp", "status"}
            && e.data["log_id"] == OptNum(m.logId) && e.data["operation_type"] == JStr(m.operationType)
            && e.data["config_id"] == OptNum(m.configId) && e.data["container_id"] == OptStr(m.containerId)
            && e.data["image_name"] == OptStr(m.imageName)
  {
  }

  /**
   * The events a WebSocket logger emits for the calls `steps`, call k stamped `stamps[k]`,
   * starting from status `start`: one per call.
   */
  function StepEvents(m: EventMeta, steps: seq<LogStep>, stamps: seq<string>, start: LogStatus): (r: seq<Emission>)
    requires |stamps| == |steps|
    ensures |r| == |steps|
  {
    if steps == [] then []
    else StepEvents(m, steps[..|steps| - 1], stamps[..|steps| - 1], start)
         + [StepEvent(m, steps[|steps| - 1], StatusAfter(steps, start), stamps[|steps| - 1])]
  }

  /** One more call: how the lines, completions and status grow. */
  lemma StepSnoc(a: seq<LogStep>, s: LogStep, start: LogStatus)
    ensures LinesOf(a + [s]) == LinesOf(a) + (if s.Line? then [s.text] else [])
    ensures CompletionsOf(a + [s]) == CompletionsOf(a) + (if s.Complete? then [s.success] else [])
    ensures StatusAfter(a + [s], start) == (if s.Line? then StatusAfter(a, start) else if s.success then Completed else Failed)
  {
    assert (a + [s])[..|a|] == a;
  }

  /** One more call adds exactly one event, built with the status the call leaves and its own stamp. */
  lemma EventsSnoc(m: EventMeta, a: seq<LogStep>, stamps: seq<string>, s: LogStep, t: string, start: LogStatus)
    requires |stamps| == |a|
    ensures StepEvents(m, a + [s], stamps + [t], start) == StepEvents(m, a, stamps, start) + [StepEvent(m, s, StatusAfter(a + [s], start), t)]
  {
    assert (a + [s])[..|a|] == a;
    assert (stamps + [t])[..|a|] == stamps;
  }

  /** A non-empty sequence is its front and its last element, also behind a prefix. */
  lemma SnocSplit<T>(x: seq<T>, y: seq<T>)
    requires y != []
    ensures y == y[..|y| - 1] + [y[|y| - 1]]
    ensures x + y == (x + y[..|y| - 1]) + [y[|y| - 1]]
  {
  }

  lemma {:induction false} StepEventsAppend(m: EventMeta, a: seq<LogStep>, sa: seq<string>, b: seq<LogStep>, sb: seq<string>, start: LogStatus)
    requires |sa| == |a| && |sb| == |b|
    ensures StepEvents(m, a + b, sa + sb, start) == StepEvents(m, a, sa, start) + StepEvents(m, b, sb, StatusAfter(a, start))
  {
    if b == [] {
      assert a + b == a;
      assert sa + sb == sa;
    } else {
      var b', sb' := b[..|b| - 1], sb[..|b| - 1];
      var s, t := b[|b| - 1], sb[|b| - 1];
      var mid := StatusAfter(a, start);
      SnocSplit(a, b);
      SnocSplit(sa, sb);
      var e := StepEvent(m, s, StatusAfter(b, mid), t);
      assert StepEvents(m, b, sb, mid) == StepEvents(m, b', sb', mid) + [e] by {
        EventsSnoc(m, b', sb', s, t, mid);
      }
      assert StepEvents(m, a + b, sa + sb, start) == StepEvents(m, a + b', sa + sb', start) + [e] by {
        EventsSnoc(m, a + b', sa + sb', s, t, start);
        StepsAppend(a, b, start);
      }
      var x, y := StepEvents(m, a, sa, start), StepEvents(m, b', sb', mid);
      assert StepEvents(m, a + b', sa + sb', start) == x + y by {
        StepEventsAppend(m, a, sa, b', sb', start);
      }
      AppendAssoc(x, y, [e]);
    }
  }

  lemma AppendAssoc<T>(x: seq<T>, y: seq<T>, z: seq<T>)
    ensures (x + y) + z == x + (y + z)
  {
  }

  /**
   * Lines, status, end time and events as determined by the calls `steps` (stamped `stamps`):
   * the lines are the `add_log_line` texts, the last `complete` decides the status, an end time
   * exists exactly once `complete` was called, and, when `events`, one event was emitted per call.
   */
  ghost predicate Tracks(lines: seq<string>, status: LogStatus, completedAt: Option<int>, emitted: seq<Emission>,
                         steps: seq<LogStep>, stamps: seq<string>, events: bool, m: EventMeta)
  {
    && lines == LinesOf(steps)
    && status == StatusAfter(steps, Running)
    && (completedAt.Some? <==> CompletionsOf(steps) != [])
    && |stamps| == |steps|
    && emitted == (if events then StepEvents(m, steps, stamps, Running) else [])
  }

  /** `add_log_line` keeps the views in step with the calls. */
  lemma TracksLine(lines: seq<string>, status: LogStatus, completedAt: Option<int>, emitted: seq<Emission>,
                   steps: seq<LogStep>, stamps: seq<string>, events: bool, m: EventMeta, line: string, stamp: string)
    requires Tracks(lines, status, completedAt, emitted, steps, stamps, events, m)
    ensures Tracks(lines + [line], status, completedAt, emitted + (if events then [StepEvent(m, Line(line), status, stamp)] else []),
                   steps + [Line(line)], stamps + [stamp], events, m)
  {
    StepSnoc(steps, Line(line), Running);
    EventsSnoc(m, steps, stamps, Line(line), stamp, Running);
  }

  /** `complete` keeps the views in step with the calls. */
  lemma TracksComplete(lines: seq<string>, status: LogStatus, completedAt: Option<int>, emitted: seq<Emission>,
                       steps: seq<LogStep>, stamps: seq<string>, events: bool, m: EventMeta, success: bool, now: int, stamp: string)
    requires Tracks(lines, status, completedAt, emitted, steps, stamps, events, m)
    ensures var next := if success then Completed else Failed;
            Tracks(lines, next, Some(now), emitted + (if events then [StepEvent(m, Complete(success), next, stamp)] else []),
                   steps + [Complete(success)], stamps + [stamp], events, m)
  {
    StepSnoc(steps, Complete(success), Running);
    EventsSnoc(m, steps, stamps, Complete(success), stamp, Running);
  }

  /** Where a WebSocket logger sends its events. */
  datatype Channel = Channel(room: string, hasSocket: bool)

  /** A Docker operation logger: a `DockerLogger`, or a `WebSocketLogger` when `channel` is present. */
  class OperationLogger {
    const operationType: string
    const configId: Option<int>
    const containerId: Option<string>
    const imageName: Option<string>
    const startedAt: int
    const channel: Option<Channel>
    /** The log id a WebSocket logger sends; set once, when the logger is built. */
    const logId: Option<int>
    var logLines: seq<string>
    var status: LogStatus
    var completedAt: Option<int>
    var dbLog: Option<DbMirror>
    /** The events emitted on the logger's Socket.IO instance, in order. */
    var emitted: seq<Emission>
    /** Every `add_log_line` and `complete` call made on this logger, in order. */
    ghost var steps: seq<LogStep>
    /** The ISO clock text read at each of those calls, for the event it emits. */
    ghost var stamps: seq<string>

    /** A WebSocket logger with a Socket.IO instance emits events; other loggers do not. */
    predicate Emits() {
      channel.Some? && channel.value.hasSocket
    }

    function Meta(): EventMeta {
      EventMeta(logId, operationType, configId, containerId, imageName, if channel.Some? then channel.value.room else "")
    }

    /**
     * Lines, status, end time and emitted events are all determined by the calls made so far:
     * the lines are the `add_log_line` texts, the last `complete` decides the status,
     * an end time exists exactly once `complete` was called, and one event was emitted per call.
     */
    ghost predicate Valid()
      reads this
    {
      Tracks(logLines, status, completedAt, emitted, steps, stamps, Emits(), Meta())
    }

    /** `DockerLogger(...)`: no lines, status 'running', not completed, no database log. */
    constructor Plain(operationType: string, configId: Option<int>, containerId: Option<string>,
                      imageName: Option<string>, now: int)
      ensures Valid() && steps == []
      ensures logLines == [] && status == Running && completedAt == None && dbLog == None
      ensures channel == None && logId == None && emitted == [] && startedAt == now
      ensures this.operationType == operationType && this.configId == configId
      ensures this.containerId == containerId && this.imageName == imageName
    {
      this.operationType := operationType;
      this.configId := configId;
      this.containerId := containerId;
      this.imageName := imageName;
      this.startedAt := now;
      this.channel := None;
      this.logId := None;
      logLines := [];
      status := Running;
      completedAt := None;
      dbLog := None;
      emitted := [];
      steps := [];
      stamps := [];
    }

    /** `WebSocketLogger(...)`: as a DockerLogger, with the room defaulting to 'docker_logs' and no log id. */
    constructor WebSocket(operationType: string, configId: Option<int>, containerId: Option<string>,
                          imageName: Option<string>, now: int, socketIo: bool, room: Option<string>)
      ensures Valid() && steps == []
      ensures logLines == [] && status == Running && completedAt == None && dbLog == None
      ensures channel == Some(Channel(RoomOr(room, "docker_logs"), socketIo)) && logId == None && emitted == []
      ensures startedAt == now
      ensures this.operationType == operationType && this.configId == configId
      ensures this.containerId == containerId && this.imageName == imageName
    {
      this.operationType := operationType;
      this.configId := configId;
      this.containerId := containerId;
      this.imageName := imageName;
      this.startedAt := now;
      this.channel := Some(Channel(RoomOr(room, "docker_logs"), socketIo));
      this.logId := None;
      logLines := [];
      status := Running;
      completedAt := None;
      dbLog := None;
      emitted := [];
      steps := [];
      stamps := [];
    }

    /**
     * `add_log_line`: appends the line, keeps the status, mirrors it to the database log and emits
     * it, stamped with the clock text `stamp`.
     */
    method AddLogLine(line: string, stamp: string)
      requires Valid()
      modifies this
      ensures Valid() && steps == old(steps) + [Line(line)] && stamps == old(stamps) + [stamp]
      ensures logLines == old(logLines) + [line]
      ensures status == old(status) && completedAt == old(completedAt)
      ensures dbLog == MirrorAfter(old(dbLog), [Line(line)])
      ensures emitted == old(emitted) + (if Emits() then [StepEvent(Meta(), Line(line), status, stamp)] else [])
    {
      TracksLine(logLines, status, completedAt, emitted, steps, stamps, Emits(), Meta(), line, stamp);
      MirrorOne(dbLog, Line(line));
      var db := dbLog;
      if db.Some? {
        db := Some(DbMirror(db.value.id, db.value.lines + [line], db.value.completions));
      }
      logLines, dbLog := logLines + [line], db;
      emitted := emitted + (if Emits() then [StepEvent(Meta(), Line(line), status, stamp)] else []);
      steps, stamps := steps + [Line(line)], stamps + [stamp];
    }

    /**
     * `complete`: sets the status from `success`, records the end time `now` and leaves the lines
     * alone; its event is stamped with the clock text `stamp`.
     */
    method Complete(success: bool, now: int, stamp: string)
      requires Valid()
      modifies this
      ensures Valid() && steps == old(steps) + [LogStep.Complete(success)] && stamps == old(stamps) + [stamp]
      ensures logLines == old(logLines)
      ensures status == (if success then Completed else Failed) && completedAt == Some(now)
      ensures dbLog == MirrorAfter(old(dbLog), [LogStep.Complete(success)])
      ensures emitted == old(emitted) + (if Emits() then [StepEvent(Meta(), LogStep.Complete(success), status, stamp)] else [])
    {
      var step := LogStep.Complete(success);
      var next := if success then Completed else Failed;
      TracksComplete(logLines, status, completedAt, emitted, steps, stamps, Emits(), Meta(), success, now, stamp);
      MirrorOne(dbLog, step);
      var db := dbLog;
      if db.Some? {
        db := Some(DbMirror(db.value.id, db.value.lines, db.value.completions + [success]));
      }
      completedAt, status, dbLog := Some(now), next, db;
      emitted := emitted + (if Emits() then [StepEvent(Meta(), step, next, stamp)] else []);
      steps, stamps := steps + [step], stamps + [stamp];
    }

    /** `create_db_log`: attaches a fresh database log (assigned id `dbId`) in status 'running'. */
    method CreateDbLog(dbId: int)
      requires Valid()
      modifies this`dbLog
      ensures Valid() && dbLog == Some(DbMirror(dbId, [], []))
    {
      dbLog := Some(DbMirror(dbId, [], []));
    }

    /** `get_log_content`: the lines joined by newlines. */
    function LogContent(): string
      reads this
    {
      Join("\n", logLines)
    }
  }

  /** After any calls, a logger has completed exactly when `complete` was called, with the status its last call gave. */
  lemma CompletedStatus(l: OperationLogger)
    requires l.Valid()
    ensures l.completedAt.Some? <==> l.status != Running
  {
    StatusFollowsCompletions(l.steps);
  }

  lemma {:induction false} StatusFollowsCompletions(steps: seq<LogStep>)
    ensures CompletionsOf(steps) == [] <==> StatusAfter(steps, Running) == Running
    ensures CompletionsOf(steps) != [] ==> StatusAfter(steps, Running) == (if CompletionsOf(steps)[|CompletionsOf(steps)| - 1] then Completed else Failed)
  {
    if steps != [] {
      StatusFollowsCompletions(steps[..|steps| - 1]);
    }
  }

  /** The log content splits back into exactly the logged lines when none of them holds a newline. */
  lemma LogContentLines(l: OperationLogger)
    requires l.logLines != []
    requires forall s :: s in l.logLines ==> '\n' !in s
    ensures Split(l.LogContent(), '\n') == l.logLines
  {
    SplitJoin(l.logLines, '\n');
  }

  /** `create_logger`: a WebSocket logger only when both a Socket.IO instance and WebSocket use are asked for; a database log exactly when `useDb`. */
  method CreateLogger(operationType: string, configId: Option<int>, containerId: Option<string>,
                      imageName: Option<string>, useWebsocket: bool, socketIo: bool, room: Option<string>,
                      useDb: bool, dbId: int, now: int)
    returns (l: OperationLogger)
    ensures fresh(l) && l.Valid() && l.steps == [] && l.logLines == [] && l.status == Running
    ensures l.completedAt == None && l.emitted == [] && l.logId == None
    ensures l.channel.Some? <==> useWebsocket && socketIo
    ensures l.channel.Some? ==> l.channel.value == Channel(RoomOr(room, "docker_logs"), true)
    ensures l.dbLog == if useDb then Some(DbMirror(dbId, [], [])) else None
  {
    if useWebsocket && socketIo {
      l := new OperationLogger.WebSocket(operationType, configId, containerId, imageName, now, socketIo, room);
    } else {
      l := new OperationLogger.Plain(operationType, configId, containerId, imageName, now);
    }
    if useDb {
      l.CreateDbLog(dbId);
    }
  }
}

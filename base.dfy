/**
 * The Docker command runner shared by every manager: a blocking run, a streaming run
 * that forwards each output line to an operation logger, and the parser for
 * one-JSON-document-per-line output.
 */
module DockerBase {
  import opened Wrappers
  import opened JsonValues
  import opened Text
  import opened DockerLogging

  /** What a blocking subprocess run gave: its exit status and captured streams, or an exception. */
  datatype ProcessOutcome = Exited(code: int, stdout: string, stderr: string) | Raised(message: string)

  /**
   * `run_command`: without capture a run that raised nothing succeeds with empty output;
   * with capture success is exit status 0 and the output is stdout; with `check` a non-zero
   * exit fails with the captured stderr ("None" when nothing was captured).
   */
  function RunCommand(p: ProcessOutcome, captureOutput: bool, check: bool): (r: (bool, string))
    ensures r.0 <==> p.Exited? && (if check || captureOutput then p.code == 0 else true)
    ensures p.Raised? ==> r.1 == "Error running command: " + p.message
    ensures p.Exited? && check && p.code != 0 ==> r.1 == "Error: " + (if captureOutput then p.stderr else "None")
    ensures p.Exited? && !(check && p.code != 0) ==> r.1 == (if captureOutput then p.stdout else "")
  {
    match p
    case Raised(msg) => (false, "Error running command: " + msg)
    case Exited(code, out, err) =>
      if check && code != 0 then (false, "Error: " + (if captureOutput then err else "None"))
      else if captureOutput then (code == 0, out)
      else (true, "")
  }

  /**
   * What a streaming run gave: the raw lines read from the merged stdout/stderr pipe and the
   * exit status, or the raw lines read before an exception and the exception's message.
   */
  datatype StreamOutcome = Streamed(lines: seq<string>, code: int) | Crashed(before: seq<string>, message: string)

  function RawLines(p: StreamOutcome): seq<string> {
    match p
    case Streamed(lines, _) => lines
    case Crashed(before, _) => before
  }

  /** A line as iteration over a text pipe yields it: a newline, if any, only at the end. */
  predicate RawLine(l: string) {
    forall k :: 0 <= k < |l| - 1 ==> l[k] != '\n'
  }

  /** Each line stripped. */
  function StripAll(lines: seq<string>): (r: seq<string>)
    ensures |r| == |lines|
  {
    if lines == [] then [] else StripAll(lines[..|lines| - 1]) + [Strip(lines[|lines| - 1])]
  }

  lemma {:induction false} StripAllAt(lines: seq<string>)
    ensures forall k :: 0 <= k < |lines| ==> StripAll(lines)[k] == Strip(lines[k])
  {
    if lines != [] {
      StripAllAt(lines[..|lines| - 1]);
    }
  }

  /** One `add_log_line` call per text. */
  function LineSteps(texts: seq<string>): (r: seq<LogStep>)
    ensures |r| == |texts|
  {
    if texts == [] then [] else LineSteps(texts[..|texts| - 1]) + [Line(texts[|texts| - 1])]
  }

  lemma {:induction false} LineStepsViews(texts: seq<string>)
    ensures LinesOf(LineSteps(texts)) == texts
    ensures CompletionsOf(LineSteps(texts)) == []
  {
    if texts != [] {
      var t' := texts[..|texts| - 1];
      LineStepsViews(t');
      StepSnoc(LineSteps(t'), Line(texts[|texts| - 1]), Running);
    }
  }

  function StartLine(cmd: seq<string>): string {
    "Starting command: " + Join(" ", cmd)
  }

  /** The last line logged and the `complete` call that close a streaming run. */
  function ClosingSteps(p: StreamOutcome): seq<LogStep> {
    match p
    case Streamed(_, code) =>
      if code == 0 then [Line("Command completed successfully"), Complete(true)]
      else [Line("Command failed with return code " + IntText(code)), Complete(false)]
    case Crashed(_, msg) => [Line("Error running command: " + msg), Complete(false)]
  }

  /** The logger calls `run_command_with_streaming` makes for a run. */
  function StreamSteps(cmd: seq<string>, p: StreamOutcome): seq<LogStep> {
    [Line(StartLine(cmd))] + LineSteps(StripAll(RawLines(p))) + ClosingSteps(p)
  }

  /** What `run_command_with_streaming` returns for a run. */
  function StreamResult(p: StreamOutcome): (r: (bool, string))
    ensures r.0 <==> p.Streamed? && p.code == 0
    ensures p.Crashed? ==> r.1 == "Error running command: " + p.message
  {
    match p
    case Streamed(lines, code) => (code == 0, Join("\n", StripAll(lines)))
    case Crashed(_, msg) => (false, "Error running command: " + msg)
  }

  /**
   * A streaming run logs the start line, every output line stripped, then one closing line,
   * and completes exactly once, with the run's success.
   */
  lemma StreamStepsShape(cmd: seq<string>, p: StreamOutcome)
    ensures LinesOf(StreamSteps(cmd, p)) == [StartLine(cmd)] + StripAll(RawLines(p)) + [ClosingSteps(p)[0].text]
    ensures CompletionsOf(StreamSteps(cmd, p)) == [StreamResult(p).0]
  {
    var start := [Line(StartLine(cmd))];
    var body := LineSteps(StripAll(RawLines(p)));
    LineStepsViews(StripAll(RawLines(p)));
    SingleStepViews(Line(StartLine(cmd)));
    ClosingViews(p);
    StepsAppend(start, body, Running);
    StepsAppend(start + body, ClosingSteps(p), Running);
  }

  lemma SingleStepViews(s: LogStep)
    ensures LinesOf([s]) == (if s.Line? then [s.text] else [])
    ensures CompletionsOf([s]) == (if s.Complete? then [s.success] else [])
  {
    assert [s][..0] == [];
  }

  lemma ClosingViews(p: StreamOutcome)
    ensures LinesOf(ClosingSteps(p)) == [ClosingSteps(p)[0].text]
    ensures CompletionsOf(ClosingSteps(p)) == [StreamResult(p).0]
  {
    var close := ClosingSteps(p);
    SingleStepViews(close[0]);
    SingleStepViews(close[1]);
    StepsAppend([close[0]], [close[1]], Running);
    assert [close[0]] + [close[1]] == close;
  }

  /** A stripped raw line holds no newline. */
  lemma StripRawLine(l: string)
    requires RawLine(l)
    ensures '\n' !in Strip(l)
  {
    var r := Strip(l);
    var a := StripSlice(l);
    if k :| 0 <= k < |r| && r[k] == '\n' {
      assert false;
    }
  }

  /** The text of a streaming run splits back, at newlines, into the stripped output lines. */
  lemma StreamTextLines(p: StreamOutcome)
    requires p.Streamed? && p.lines != []
    requires forall l :: l in p.lines ==> RawLine(l)
    ensures Split(StreamResult(p).1, '\n') == StripAll(p.lines)
  {
    var out := StripAll(p.lines);
    StripAllAt(p.lines);
    forall s | s in out
      ensures '\n' !in s
    {
      var k :| 0 <= k < |out| && out[k] == s;
      StripRawLine(p.lines[k]);
    }
    SplitJoin(out, '\n');
  }

  /** `if logger: logger.add_log_line(line)` for the next output line. */
  method LogOutputLine(logger: OperationLogger?, ghost steps0: seq<LogStep>, ghost db0: Option<DbMirror>,
                       ghost output: seq<string>, line: string, stamp: string)
    requires logger != null ==> logger.Valid() && logger.steps == steps0 + LineSteps(output)
    requires logger != null ==> logger.dbLog == MirrorAfter(db0, LineSteps(output))
    modifies logger
    ensures logger != null ==> logger.Valid() && logger.steps == steps0 + LineSteps(output + [line])
    ensures logger != null ==> logger.dbLog == MirrorAfter(db0, LineSteps(output + [line]))
  {
    assert (output + [line])[..|output|] == output;
    assert LineSteps(output + [line]) == LineSteps(output) + [Line(line)];
    if logger != null {
      logger.AddLogLine(line, stamp);
      MirrorCompose(db0, LineSteps(output), [Line(line)]);
    }
  }

  /** The read loop of `run_command_with_streaming`: each raw line is stripped, kept and logged. */
  method ForwardLines(raw: seq<string>, logger: OperationLogger?, stamp: string) returns (output: seq<string>)
    requires logger != null ==> logger.Valid()
    modifies logger
    ensures output == StripAll(raw)
    ensures logger != null ==> logger.Valid() && logger.steps == old(logger.steps) + LineSteps(output)
    ensures logger != null ==> logger.dbLog == MirrorAfter(old(logger.dbLog), LineSteps(output))
  {
    output := [];
    ghost var steps0 := if logger != null then logger.steps else [];
    ghost var db0 := if logger != null then logger.dbLog else None;
    MirrorNothing(db0);
    assert steps0 + LineSteps([]) == steps0;
    var i := 0;
    while i < |raw|
      invariant 0 <= i <= |raw|
      invariant output == StripAll(raw[..i])
      invariant logger != null ==> logger.Valid() && logger.steps == steps0 + LineSteps(output)
      invariant logger != null ==> logger.dbLog == MirrorAfter(db0, LineSteps(output))
    {
      var line := Strip(raw[i]);
      assert raw[..i + 1][..i] == raw[..i];
      LogOutputLine(logger, steps0, db0, output, line, stamp);
      output := output + [line];
      i := i + 1;
    }
    assert raw[..i] == raw;
  }

  /** The calls made one after another during a run are those `StreamSteps` lists. */
  lemma StreamCalls(cmd: seq<string>, process: StreamOutcome, steps0: seq<LogStep>, db0: Option<DbMirror>,
                    output: seq<string>, closing: string, ok: bool)
    requires output == StripAll(RawLines(process))
    requires ClosingSteps(process) == [Line(closing), Complete(ok)]
    ensures steps0 + [Line(StartLine(cmd))] + LineSteps(output) + [Line(closing)] + [Complete(ok)]
         == steps0 + StreamSteps(cmd, process)
    ensures MirrorAfter(MirrorAfter(MirrorAfter(MirrorAfter(db0, [Line(StartLine(cmd))]), LineSteps(output)), [Line(closing)]), [Complete(ok)])
         == MirrorAfter(db0, StreamSteps(cmd, process))
  {
    var a, b, c, d := [Line(StartLine(cmd))], LineSteps(output), [Line(closing)], [Complete(ok)];
    StreamStepsParts(cmd, process, output, closing, ok);
    assert steps0 + a + b + c + d == steps0 + (a + b + c + d);
    MirrorChain(db0, a, b, c, d);
  }

  lemma StreamStepsParts(cmd: seq<string>, process: StreamOutcome, output: seq<string>, closing: string, ok: bool)
    requires output == StripAll(RawLines(process))
    requires ClosingSteps(process) == [Line(closing), Complete(ok)]
    ensures [Line(StartLine(cmd))] + LineSteps(output) + [Line(closing)] + [Complete(ok)] == StreamSteps(cmd, process)
  {
    assert [Line(closing)] + [Complete(ok)] == ClosingSteps(process);
  }

  lemma MirrorChain(db: Option<DbMirror>, a: seq<LogStep>, b: seq<LogStep>, c: seq<LogStep>, d: seq<LogStep>)
    ensures MirrorAfter(MirrorAfter(MirrorAfter(MirrorAfter(db, a), b), c), d) == MirrorAfter(db, a + b + c + d)
  {
    MirrorCompose(db, a, b);
    MirrorCompose(db, a + b, c);
    MirrorCompose(db, a + b + c, d);
  }

  /** `if logger: logger.add_log_line(closing); logger.complete(ok)` at the end of a run. */
  method CloseRun(logger: OperationLogger?, closing: string, ok: bool, now: int, stamp: string)
    requires logger != null ==> logger.Valid()
    modifies logger
    ensures logger != null ==> logger.Valid() && logger.steps == old(logger.steps) + [Line(closing)] + [Complete(ok)]
    ensures logger != null ==> logger.dbLog == MirrorAfter(MirrorAfter(old(logger.dbLog), [Line(closing)]), [Complete(ok)])
    ensures logger != null ==> logger.completedAt == Some(now) && logger.status == (if ok then Completed else Failed)
  {
    if logger != null {
      logger.AddLogLine(closing, stamp);
      logger.Complete(ok, now, stamp);
    }
  }

  /**
   * `run_command_with_streaming`: when a logger is given it receives exactly the calls
   * `StreamSteps` lists (and so ends completed, with the run's success); the result is
   * `StreamResult`.
   */
  method RunCommandWithStreaming(cmd: seq<string>, process: StreamOutcome, logger: OperationLogger?, now: int, stamp: string)
    returns (ok: bool, text: string)
    requires logger != null ==> logger.Valid()
    modifies logger
    ensures (ok, text) == StreamResult(process)
    ensures logger != null ==> logger.Valid() && logger.steps == old(logger.steps) + StreamSteps(cmd, process)
    ensures logger != null ==> logger.dbLog == MirrorAfter(old(logger.dbLog), StreamSteps(cmd, process))
    ensures logger != null ==> logger.completedAt == Some(now) && logger.status == (if ok then Completed else Failed)
  {
    ghost var steps0 := if logger != null then logger.steps else [];
    ghost var db0 := if logger != null then logger.dbLog else None;
    var start := StartLine(cmd);
    if logger != null {
      logger.AddLogLine(start, stamp);
    }
    var output := ForwardLines(RawLines(process), logger, stamp);
    var closing: string;
    match process {
      case Streamed(_, code) =>
        ok := code == 0;
        text := Join("\n", output);
        closing := if code == 0 then "Command completed successfully" else "Command failed with return code " + IntText(code);
      case Crashed(_, msg) =>
        ok := false;
        text := "Error running command: " + msg;
        closing := text;
    }
    assert ClosingSteps(process) == [Line(closing), Complete(ok)];
    CloseRun(logger, closing, ok, now, stamp);
    StreamCalls(cmd, process, steps0, db0, output, closing, ok);
  }

  /** The documents decoded from the non-empty lines, in order; undecodable lines are skipped. */
  function ParsedLines(lines: seq<string>, decode: Decoder): seq<Json> {
    if lines == [] then []
    else
      var last := lines[|lines| - 1];
      ParsedLines(lines[..|lines| - 1], decode) + (if last != "" && decode(last).Some? then [decode(last).value] else [])
  }

  /** Every parsed document is what some non-empty line decodes to, and there are no more documents than lines. */
  lemma {:induction false} ParsedLinesSound(lines: seq<string>, decode: Decoder)
    ensures |ParsedLines(lines, decode)| <= |lines|
    ensures forall v :: v in ParsedLines(lines, decode) ==> exists l :: l in lines && l != "" && decode(l) == Some(v)
  {
    if lines != [] {
      var pre := lines[..|lines| - 1];
      ParsedLinesSound(pre, decode);
      forall v | v in ParsedLines(lines, decode)
        ensures exists l :: l in lines && l != "" && decode(l) == Some(v)
      {
        if v in ParsedLines(pre, decode) {
          var l :| l in pre && l != "" && decode(l) == Some(v);
          assert l in lines;
        } else {
          assert lines[|lines| - 1] in lines;
        }
      }
    }
  }

  /** `parse_json_output`: the documents of the stripped output's lines. */
  method ParseJsonOutput(output: string, decode: Decoder) returns (results: seq<Json>)
    ensures results == ParsedLines(Split(Strip(output), '\n'), decode)
  {
    var lines := Split(Strip(output), '\n');
    results := [];
    var i := 0;
    while i < |lines|
      invariant 0 <= i <= |lines|
      invariant results == ParsedLines(lines[..i], decode)
    {
      var line := lines[i];
      assert lines[..i + 1][..i] == lines[..i];
      if line != "" {
        var parsed := decode(line);
        if parsed.Some? {
          results := results + [parsed.value];
        }
      }
      i := i + 1;
    }
    assert lines[..i] == lines;
  }

  /** Output that is all whitespace parses to no documents. */
  lemma ParseBlank(output: string, decode: Decoder)
    requires Blank(output)
    ensures ParsedLines(Split(Strip(output), '\n'), decode) == []
  {
    StripBlank(output);
    assert Split([], '\n') == [""];
    assert [""][..0] == [];
  }

  /** Each document encoded on its own line. */
  function EncodeAll(vs: seq<Json>, encode: Encoder): (r: seq<string>)
    ensures |r| == |vs|
    ensures forall k :: 0 <= k < |vs| ==> r[k] == encode(vs[k])
  {
    if vs == [] then [] else EncodeAll(vs[..|vs| - 1], encode) + [encode(vs[|vs| - 1])]
  }

  /** A line-per-document encoding that the decoder reads back. */
  predicate LineCodec(vs: seq<Json>, encode: Encoder, decode: Decoder) {
    forall v :: v in vs ==>
      var e := encode(v);
      e != "" && '\n' !in e && !IsSpace(e[0]) && !IsSpace(e[|e| - 1]) && decode(e) == Some(v)
  }

  lemma {:induction false} ParsedEncodings(vs: seq<Json>, encode: Encoder, decode: Decoder)
    requires LineCodec(vs, encode, decode)
    ensures ParsedLines(EncodeAll(vs, encode), decode) == vs
  {
    if vs != [] {
      var pre := vs[..|vs| - 1];
      assert LineCodec(pre, encode, decode) by {
        forall v | v in pre ensures v in vs { }
      }
      ParsedEncodings(pre, encode, decode);
      assert vs[|vs| - 1] in vs;
      assert EncodeAll(vs, encode)[..|vs| - 1] == EncodeAll(pre, encode);
      assert pre + [vs[|vs| - 1]] == vs;
    }
  }

  /** The first and last characters of a join of non-empty parts are those of its first and last part. */
  lemma {:induction false} JoinEnds(sep: string, parts: seq<string>)
    requires |parts| >= 1 && forall k :: 0 <= k < |parts| ==> parts[k] != ""
    ensures Join(sep, parts) != []
    ensures Join(sep, parts)[0] == parts[0][0]
    ensures Join(sep, parts)[|Join(sep, parts)| - 1] == parts[|parts| - 1][|parts[|parts| - 1]| - 1]
  {
    if |parts| > 1 {
      JoinEnds(sep, parts[1..]);
    }
  }

  /**
   * Documents written one per line (the `--format '{{json .}}'` output of the Docker CLI)
   * parse back to exactly those documents.
   */
  lemma ParseRoundTrip(vs: seq<Json>, encode: Encoder, decode: Decoder)
    requires vs != [] && LineCodec(vs, encode, decode)
    ensures ParsedLines(Split(Strip(Join("\n", EncodeAll(vs, encode))), '\n'), decode) == vs
  {
    var lines := EncodeAll(vs, encode);
    forall k | 0 <= k < |lines| ensures lines[k] != "" && '\n' !in lines[k] {
      assert vs[k] in vs;
    }
    assert vs[0] in vs && vs[|vs| - 1] in vs;
    JoinEnds("\n", lines);
    StripTight(Join("\n", lines));
    SplitJoin(lines, '\n');
    ParsedEncodings(vs, encode, decode);
  }

  /**
   * The rows a manager builds from parsed documents: `row` of each document's fields, in order,
   * or `None` when one document is not an object (its `.get` raises and the listing is abandoned).
   */
  function Rows<R>(docs: seq<Json>, row: map<string, Json> -> R): (r: Option<seq<R>>)
    ensures r.Some? ==> |r.value| == |docs|
  {
    if docs == [] then Some([])
    else
      var pre := Rows(docs[..|docs| - 1], row);
      var last := docs[|docs| - 1];
      if pre.None? || !last.JObj? then None else Some(pre.value + [row(last.fields)])
  }

  /** Rows exist exactly when every document is an object, and then row `k` is built from document `k`. */
  lemma {:induction false} RowsMeaning<R>(docs: seq<Json>, row: map<string, Json> -> R)
    ensures Rows(docs, row).Some? <==> forall k :: 0 <= k < |docs| ==> docs[k].JObj?
    ensures Rows(docs, row).Some? ==> forall k :: 0 <= k < |docs| ==> Rows(docs, row).value[k] == row(docs[k].fields)
  {
    if docs != [] {
      var pre := docs[..|docs| - 1];
      RowsMeaning(pre, row);
      assert forall k :: 0 <= k < |pre| ==> pre[k] == docs[k];
    }
  }

  lemma {:induction false} RowsFailurePersists<R>(docs: seq<Json>, i: nat, row: map<string, Json> -> R)
    requires 0 < i <= |docs| && Rows(docs[..i], row).None?
    ensures Rows(docs, row).None?
    decreases |docs| - i
  {
    if i < |docs| {
      assert docs[..i + 1][..i] == docs[..i];
      RowsFailurePersists(docs, i + 1, row);
    } else {
      assert docs[..i] == docs;
    }
  }

  /** The normalising loop of `get_containers`, `get_images`, `get_volumes` and `get_networks`. */
  method BuildRows<R>(docs: seq<Json>, row: map<string, Json> -> R) returns (rows: Option<seq<R>>)
    ensures rows == Rows(docs, row)
  {
    var built: seq<R> := [];
    var i := 0;
    while i < |docs|
      invariant 0 <= i <= |docs|
      invariant Rows(docs[..i], row) == Some(built)
    {
      assert docs[..i + 1][..i] == docs[..i];
      if !docs[i].JObj? {
        RowsFailurePersists(docs, i + 1, row);
        return None;
      }
      built := built + [row(docs[i].fields)];
      i := i + 1;
    }
    assert docs[..i] == docs;
    return Some(built);
  }

  /**
   * A listing: the `--format '{{json .}}'` command is run with its status checked; a failed run,
   * or any document that is not an object, gives no rows.
   */
  function Listing<R>(p: ProcessOutcome, decode: Decoder, row: map<string, Json> -> R): (r: seq<R>)
    ensures !(p.Exited? && p.code == 0) ==> r == []
  {
    var (ok, output) := RunCommand(p, true, true);
    if !ok then [] else Rows(ParsedLines(Split(Strip(output), '\n'), decode), row).GetOr([])
  }

  /** The listing loop shared by the managers: run, parse, then normalise every document. */
  method ListRows<R>(p: ProcessOutcome, decode: Decoder, row: map<string, Json> -> R) returns (rows: seq<R>)
    ensures rows == Listing(p, decode, row)
  {
    var ok, output := RunCommandChecked(p);
    if !ok {
      return [];
    }
    var docs := ParseJsonOutput(output, decode);
    var built := BuildRows(docs, row);
    rows := built.GetOr([]);
  }

  /** `run_command(cmd, capture_output=True, check=True)`. */
  method RunCommandChecked(p: ProcessOutcome) returns (ok: bool, output: string)
    ensures (ok, output) == RunCommand(p, true, true)
  {
    match p {
      case Raised(msg) =>
        ok, output := false, "Error running command: " + msg;
      case Exited(code, out, err) =>
        if code != 0 {
          ok, output := false, "Error: " + err;
        } else {
          ok, output := true, out;
        }
    }
  }

  /** `run_command(cmd, capture_output=True, check=False)`. */
  method RunCommandUnchecked(p: ProcessOutcome) returns (ok: bool, output: string)
    ensures (ok, output) == RunCommand(p, true, false)
  {
    match p {
      case Raised(msg) =>
        ok, output := false, "Error running command: " + msg;
      case Exited(code, out, _) =>
        ok, output := code == 0, out;
    }
  }

  /** `inspect_container`, `inspect_image`, `inspect_volume`, `inspect_network`: the first element of a non-empty JSON array. */
  function Inspect(p: ProcessOutcome, decode: Decoder): (r: (bool, Json))
    ensures r.0 <==> p.Exited? && p.code == 0 && !Blank(p.stdout)
                     && decode(Strip(p.stdout)).Some? && decode(Strip(p.stdout)).value.JArr?
                     && decode(Strip(p.stdout)).value.items != []
    ensures r.0 ==> r.1 == decode(Strip(p.stdout)).value.items[0]
    ensures !r.0 ==> r.1 == EmptyObject
  {
    var (ok, output) := RunCommand(p, true, false);
    StripBlank(output);
    if ok && Strip(output) != "" then
      match decode(Strip(output))
      case Some(JArr(items)) => if items != [] then (true, items[0]) else (false, EmptyObject)
      case _ => (false, EmptyObject)
    else (false, EmptyObject)
  }
}

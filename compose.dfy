/**
 * Docker Compose stacks: the compose file of a configuration lives at
 * `<compose dir>/<name>/docker-compose.yml`; it is downloaded, compared with and
 * replaced by its source, and brought up, down, restarted or pulled with
 * `docker compose -f <file> ...` run from the file's directory.
 */
module Compose {
  import opened Wrappers
  import opened JsonValues
  import opened Text
  import opened DockerBase

  // ---------------------------------------------------------------- paths

  /** `posixpath.join(a, b)`: an absolute `b` replaces `a`; otherwise one '/' separates them. */
  function PathJoin(a: string, b: string): (r: string)
    ensures StartsWith(b, "/") ==> r == b
    ensures !StartsWith(b, "/") ==> |r| >= |a| + |b| && r[|r| - |b|..] == b && r[..|a|] == a
  {
    if StartsWith(b, "/") then b
    else if a == "" || a[|a| - 1] == '/' then a + b
    else a + "/" + b
  }

  /** The index of the last '/' in `p`, or -1. */
  function LastSlash(p: string): (i: int)
    ensures -1 <= i < |p|
    ensures i >= 0 ==> p[i] == '/'
    ensures forall k :: i < k < |p| ==> p[k] != '/'
  {
    if p == [] then -1
    else if p[|p| - 1] == '/' then |p| - 1
    else LastSlash(p[..|p| - 1])
  }

  /** `s.rstrip('/')`. */
  function TrimSlashes(s: string): (r: string)
    ensures |r| <= |s| && r == s[..|r|]
    ensures r != [] ==> r[|r| - 1] != '/'
  {
    if s != [] && s[|s| - 1] == '/' then TrimSlashes(s[..|s| - 1]) else s
  }

  predicate AllSlashes(s: string) {
    forall k :: 0 <= k < |s| ==> s[k] == '/'
  }

  /** `posixpath.dirname(p)`: everything up to the last '/', with trailing slashes dropped unless only slashes remain. */
  function Dirname(p: string): (r: string)
    ensures |r| <= |p|
  {
    var head := p[..LastSlash(p) + 1];
    if head != "" && !AllSlashes(head) then TrimSlashes(head) else head
  }

  /** A file joined onto a directory has that directory as its dirname. */
  lemma DirnameJoin(d: string, f: string)
    requires d != "" && d[|d| - 1] != '/'
    requires f != "" && '/' !in f
    ensures Dirname(PathJoin(d, f)) == d
  {
    var p := d + "/" + f;
    assert !StartsWith(f, "/") by { assert f[0] in f; }
    assert PathJoin(d, f) == p;
    assert p[|d|] == '/';
    forall k | |d| < k < |p| ensures p[k] != '/' {
      assert p[k] == f[k - |d| - 1];
    }
    var i := LastSlash(p);
    assert i == |d|;
    var head := p[..i + 1];
    assert head == d + "/";
    assert head[|d| - 1] != '/';
    assert !AllSlashes(head);
    assert head[..|head| - 1] == d;
    assert TrimSlashes(head) == TrimSlashes(d);
    assert TrimSlashes(d) == d;
  }

  // ---------------------------------------------------------------- commands

  /** A command line and the directory it runs in. */
  datatype Command = Command(argv: seq<string>, cwd: string)

  datatype ComposeAction = Up | Down | Restart | Pull

  /** The compose sub-command of each action: `up -d`, `down`, `restart`, `pull`. */
  function ActionArgs(a: ComposeAction): seq<string> {
    match a
    case Up => ["up", "-d"]
    case Down => ["down"]
    case Restart => ["restart"]
    case Pull => ["pull"]
  }

  function ComposeArgv(path: string, tail: seq<string>): seq<string> {
    ["docker", "compose", "-f", path] + tail
  }

  /** `run_compose`, `stop_compose`, `restart_compose`, `pull_images`: the command each runs. */
  function ComposeCommand(path: string, a: ComposeAction): Command {
    Command(ComposeArgv(path, ActionArgs(a)), Dirname(path))
  }

  /** Each compose command names its file and runs in the file's directory; different actions run different commands. */
  lemma ComposeCommandsDistinct(path: string, a: ComposeAction, b: ComposeAction)
    ensures ComposeCommand(path, a).argv[3] == path && ComposeCommand(path, a).cwd == Dirname(path)
    ensures ComposeCommand(path, a) == ComposeCommand(path, b) <==> a == b
  {
    var ta := ActionArgs(a);
    var tb := ActionArgs(b);
    if ComposeCommand(path, a) == ComposeCommand(path, b) {
      assert ComposeArgv(path, ta)[4..] == ta;
      assert ComposeArgv(path, tb)[4..] == tb;
      assert ta == tb;
    }
  }

  /**
   * One compose action: the command is streamed without a logger (the compose
   * operations always pass none), so the outcome alone decides the result.
   */
  method RunComposeAction(path: string, a: ComposeAction, process: StreamOutcome) returns (c: Command, ok: bool, output: string)
    ensures c == ComposeCommand(path, a)
    ensures (ok, output) == StreamResult(process)
    ensures ok <==> process.Streamed? && process.code == 0
  {
    c := ComposeCommand(path, a);
    ok, output := RunCommandWithStreaming(c.argv, process, null, 0, "");
  }

  // ---------------------------------------------------------------- compose status

  /** `docker compose -f <file> ps --format json`, run from the file's directory. */
  function StatusCommand(path: string): Command {
    Command(ComposeArgv(path, ["ps", "--format", "json"]), Dirname(path))
  }

  /**
   * Whether one decoded `ps` entry reports State 'running': `Some` of the answer, or `None`
   * when the check raises in Python (indexing a list or string by 'State' after finding
   * 'State' in it, or testing membership in a number, boolean or null).
   */
  function ServiceRunning(v: Json): Option<bool> {
    match v
    case JObj(fields) => Some("State" in fields && fields["State"] == JStr("running"))
    case JArr(items) => if JStr("State") in items then None else Some(false)
    case JStr(s) => if Contains(s, "State") then None else Some(false)
    case _ => None
  }

  /** The documents of the non-blank lines, or `None` as soon as one of them does not decode. */
  function DecodeServices(lines: seq<string>, decode: Decoder): (r: Option<seq<Json>>)
    ensures r.Some? ==> |r.value| <= |lines|
  {
    if lines == [] then Some([])
    else
      var pre := DecodeServices(lines[..|lines| - 1], decode);
      var last := lines[|lines| - 1];
      if pre.None? then None
      else if Blank(last) then pre
      else if decode(last).None? then None
      else Some(pre.value + [decode(last).value])
  }

  /** How many entries report State 'running', or `None` when checking one of them raises. */
  function CountRunning(services: seq<Json>): (r: Option<nat>)
    ensures r.Some? ==> r.value <= |services|
  {
    if services == [] then Some(0)
    else
      var pre := CountRunning(services[..|services| - 1]);
      var last := ServiceRunning(services[|services| - 1]);
      if pre.None? || last.None? then None
      else Some(pre.value + (if last.value then 1 else 0))
  }

  /** The text fallback used when a line of `ps` output is not JSON. */
  function TextStatus(output: string): string {
    if Contains(output, "running") then "up"
    else if Blank(output) || Contains(output, "exited") then "down"
    else "partial"
  }

  /** `up` when every entry runs, `down` when none does, `partial` otherwise. */
  function CountStatus(up: nat, total: nat): string {
    if up == 0 then "down" else if up == total then "up" else "partial"
  }

  /** `check_compose_status` for the outcome of the `ps` command. */
  function ComposeStatus(p: ProcessOutcome, decode: Decoder): (r: string)
    ensures r in {"up", "down", "partial", "error"}
  {
    var (success, output) := RunCommand(p, true, false);
    if !success then "error"
    else if Blank(output) then "down"
    else
      match DecodeServices(Split(Strip(output), '\n'), decode)
      case None => TextStatus(output)
      case Some(services) =>
        if services == [] then "down"
        else match CountRunning(services)
          case None => "error"
          case Some(up) => CountStatus(up, |services|)
  }

  /** The count is `Some` exactly when every entry can be checked; it is the whole list exactly when every entry runs, and 0 exactly when none does. */
  lemma {:induction false} CountRunningMeaning(services: seq<Json>)
    ensures CountRunning(services).Some? <==> forall k :: 0 <= k < |services| ==> ServiceRunning(services[k]).Some?
    ensures CountRunning(services).Some? ==>
              (CountRunning(services).value == |services| <==> forall k :: 0 <= k < |services| ==> ServiceRunning(services[k]) == Some(true))
    ensures CountRunning(services).Some? ==>
              (CountRunning(services).value == 0 <==> forall k :: 0 <= k < |services| ==> ServiceRunning(services[k]) == Some(false))
  {
    if services != [] {
      var n := |services| - 1;
      var pre := services[..n];
      CountRunningMeaning(pre);
      assert forall k :: 0 <= k < n ==> pre[k] == services[k];
    }
  }

  /**
   * When the command succeeds and every line of its output is JSON whose State can be checked:
   * 'up' exactly when every service runs, 'down' exactly when none does, 'partial' otherwise.
   */
  lemma StatusFromServices(p: ProcessOutcome, decode: Decoder)
    requires p.Exited? && p.code == 0 && !Blank(p.stdout)
    requires DecodeServices(Split(Strip(p.stdout), '\n'), decode).Some?
    requires var s := DecodeServices(Split(Strip(p.stdout), '\n'), decode).value;
             s != [] && forall k :: 0 <= k < |s| ==> ServiceRunning(s[k]).Some?
    ensures var s := DecodeServices(Split(Strip(p.stdout), '\n'), decode).value;
            && (ComposeStatus(p, decode) == "up" <==> forall k :: 0 <= k < |s| ==> ServiceRunning(s[k]) == Some(true))
            && (ComposeStatus(p, decode) == "down" <==> forall k :: 0 <= k < |s| ==> ServiceRunning(s[k]) == Some(false))
            && (ComposeStatus(p, decode) == "partial" <==>
                  (exists k :: 0 <= k < |s| && ServiceRunning(s[k]) == Some(true)) &&
                  (exists k :: 0 <= k < |s| && ServiceRunning(s[k]) == Some(false)))
  {
    var s := DecodeServices(Split(Strip(p.stdout), '\n'), decode).value;
    CountRunningMeaning(s);
    assert s[0] == s[0];
  }

  /** A failed `ps` run reports 'error'; a successful run with blank output reports 'down'. */
  lemma StatusEdges(p: ProcessOutcome, decode: Decoder)
    ensures !(p.Exited? && p.code == 0) ==> ComposeStatus(p, decode) == "error"
    ensures p.Exited? && p.code == 0 && Blank(p.stdout) ==> ComposeStatus(p, decode) == "down"
  {
  }

  /**
   * When a non-blank line of a successful run is not JSON, the status falls back to the text:
   * 'up' when it mentions "running", else 'down' when it mentions "exited", else 'partial'.
   */
  lemma StatusFallback(p: ProcessOutcome, decode: Decoder)
    requires p.Exited? && p.code == 0 && !Blank(p.stdout)
    requires DecodeServices(Split(Strip(p.stdout), '\n'), decode).None?
    ensures ComposeStatus(p, decode) == (if Contains(p.stdout, "running") then "up"
                                         else if Contains(p.stdout, "exited") then "down"
                                         else "partial")
  {
  }

  /** When every line is JSON but checking some service's State raises, the status is 'error'. */
  lemma StatusCheckRaises(p: ProcessOutcome, decode: Decoder)
    requires p.Exited? && p.code == 0 && !Blank(p.stdout)
    requires DecodeServices(Split(Strip(p.stdout), '\n'), decode).Some?
    requires var s := DecodeServices(Split(Strip(p.stdout), '\n'), decode).value;
             s != [] && exists k :: 0 <= k < |s| && ServiceRunning(s[k]).None?
    ensures ComposeStatus(p, decode) == "error"
  {
    var s := DecodeServices(Split(Strip(p.stdout), '\n'), decode).value;
    CountRunningMeaning(s);
  }

  /** The decoding loop of `check_compose_status`: every non-blank line, stopping at the first that is not JSON. */
  method DecodeLines(lines: seq<string>, decode: Decoder) returns (services: Option<seq<Json>>)
    ensures services == DecodeServices(lines, decode)
  {
    var found: seq<Json> := [];
    var i := 0;
    while i < |lines|
      invariant 0 <= i <= |lines|
      invariant DecodeServices(lines[..i], decode) == Some(found)
    {
      assert lines[..i + 1][..i] == lines[..i];
      var line := lines[i];
      if !Blank(line) {
        var doc := decode(line);
        if doc.None? {
          DecodeFailurePersists(lines, i + 1, decode);
          return None;
        }
        found := found + [doc.value];
      }
      i := i + 1;
    }
    assert lines[..i] == lines;
    return Some(found);
  }

  /** The counting loop of `check_compose_status`, stopping at the first entry whose check raises. */
  method CountServices(services: seq<Json>) returns (up: Option<nat>)
    ensures up == CountRunning(services)
  {
    var n := 0;
    var j := 0;
    while j < |services|
      invariant 0 <= j <= |services|
      invariant CountRunning(services[..j]) == Some(n)
    {
      assert services[..j + 1][..j] == services[..j];
      var running := ServiceRunning(services[j]);
      if running.None? {
        CountFailurePersists(services, j + 1);
        return None;
      }
      if running.value {
        n := n + 1;
      }
      j := j + 1;
    }
    assert services[..j] == services;
    return Some(n);
  }

  /** `check_compose_status`: decodes every non-blank line, then counts the services in State 'running'. */
  method CheckComposeStatus(path: string, p: ProcessOutcome, decode: Decoder) returns (c: Command, status: string)
    ensures c == StatusCommand(path)
    ensures status == ComposeStatus(p, decode)
  {
    c := StatusCommand(path);
    var success, output := RunCommandUnchecked(p);
    if !success {
      return c, "error";
    }
    if Blank(output) {
      return c, "down";
    }
    var decoded := DecodeLines(Split(Strip(output), '\n'), decode);
    if decoded.None? {
      return c, TextStatus(output);
    }
    var services := decoded.value;
    if services == [] {
      return c, "down";
    }
    var up := CountServices(services);
    if up.None? {
      return c, "error";
    }
    status := CountStatus(up.value, |services|);
  }

  lemma {:induction false} DecodeFailurePersists(lines: seq<string>, i: nat, decode: Decoder)
    requires 0 < i <= |lines| && DecodeServices(lines[..i], decode).None?
    ensures DecodeServices(lines, decode).None?
    decreases |lines| - i
  {
    if i < |lines| {
      assert lines[..i + 1][..i] == lines[..i];
      DecodeFailurePersists(lines, i + 1, decode);
    } else {
      assert lines[..i] == lines;
    }
  }

  lemma {:induction false} CountFailurePersists(services: seq<Json>, j: nat)
    requires 0 < j <= |services| && CountRunning(services[..j]).None?
    ensures CountRunning(services).None?
    decreases |services| - j
  {
    if j < |services| {
      assert services[..j + 1][..j] == services[..j];
      CountFailurePersists(services, j + 1);
    } else {
      assert services[..j] == services;
    }
  }

  // ---------------------------------------------------------------- compose files

  /** The response to a GET of a source URL: its body, or a request error. */
  datatype Fetch = Fetched(text: string) | FetchFailed(message: string)

  /** A YAML check: `None` when the text parses, `Some(message)` otherwise. */
  type YamlCheck = string -> Option<string>

  /**
   * A file's text as `open(path, 'r').read()` returns it: universal newlines turn every "\r\n"
   * and every lone "\r" into "\n". (Writing in text mode on POSIX stores the text unchanged.)
   */
  function ReadBack(s: string): (r: string)
    ensures '\r' !in r
    ensures |r| <= |s|
    ensures '\r' !in s ==> r == s
    decreases |s|
  {
    if s == [] then []
    else if s[0] == '\r' then "\n" + ReadBack(if |s| > 1 && s[1] == '\n' then s[2..] else s[1..])
    else
      assert '\r' !in s ==> '\r' !in s[1..] by { assert s == [s[0]] + s[1..]; }
      [s[0]] + ReadBack(s[1..])
  }

  /** The same text with every "\n" written as "\r\n", as a server may send it. */
  function CrLf(t: string): string {
    if t == [] then []
    else (if t[0] == '\n' then "\r\n" else [t[0]]) + CrLf(t[1..])
  }

  /** Reading back a text whose line endings were sent as "\r\n" gives the text itself. */
  lemma {:induction false} ReadBackCrLf(t: string)
    requires '\r' !in t
    ensures ReadBack(CrLf(t)) == t
    decreases |t|
  {
    if t != [] {
      assert '\r' !in t[1..] by { assert t == [t[0]] + t[1..]; }
      ReadBackCrLf(t[1..]);
      if t[0] == '\n' {
        assert CrLf(t) == "\r\n" + CrLf(t[1..]);
        assert CrLf(t)[2..] == CrLf(t[1..]);
      } else {
        assert CrLf(t) == [t[0]] + CrLf(t[1..]);
        assert CrLf(t)[1..] == CrLf(t[1..]);
      }
    }
  }

  /**
   * `check_for_updates`: succeeds when the source and the local file can both be read, and reports
   * whether they differ once both are read back in text mode (the fetched text goes through a
   * temporary file first).
   */
  function UpdateCheck(files: map<string, string>, path: string, fetch: Fetch): (r: (bool, bool))
    ensures r.0 <==> fetch.Fetched? && path in files
    ensures r.1 <==> r.0 && ReadBack(files[path]) != ReadBack(fetch.text)
    ensures r.1 ==> files[path] != fetch.text
  {
    if fetch.FetchFailed? || path !in files then (false, false)
    else (true, ReadBack(files[path]) != ReadBack(fetch.text))
  }

  /** A source that differs from the local file only in sending "\r\n" line endings is not an update. */
  lemma LineEndingsAreNoUpdate(files: map<string, string>, path: string, text: string)
    requires '\r' !in text
    ensures UpdateCheck(files[path := text], path, Fetched(CrLf(text))) == (true, false)
  {
    ReadBackCrLf(text);
  }

  /** The compose file of configuration `name`. */
  function ComposePath(dir: string, name: string): string {
    PathJoin(PathJoin(dir, name), "docker-compose.yml")
  }

  /** The compose manager and the files it keeps, by path. */
  class ComposeManager {
    /** The directory holding one sub-directory per configuration. */
    const composeDir: string
    var files: map<string, string>

    constructor(composeDir: string, files: map<string, string>)
      ensures this.composeDir == composeDir && this.files == files
    {
      this.composeDir := composeDir;
      this.files := files;
    }

    /**
     * `download_compose_file`: a failed request writes nothing; otherwise the body is written to
     * the configuration's compose file and then read back and checked as YAML, and an invalid body
   * stays on disk.
     */
    method DownloadComposeFile(name: string, fetch: Fetch, yaml: YamlCheck) returns (ok: bool, message: string, path: Option<string>)
      modifies this`files
      ensures fetch.FetchFailed? ==>
                files == old(files) && !ok && path == None && message == "Error downloading Docker Compose file: " + fetch.message
      ensures fetch.Fetched? ==> files == old(files)[ComposePath(composeDir, name) := fetch.text]
      ensures fetch.Fetched? && yaml(ReadBack(fetch.text)).Some? ==>
                !ok && path == None && message == "Invalid Docker Compose file: " + yaml(ReadBack(fetch.text)).value
      ensures ok <==> fetch.Fetched? && yaml(ReadBack(fetch.text)).None?
      ensures ok ==> path == Some(ComposePath(composeDir, name)) && message == "Docker Compose file downloaded successfully"
    {
      if fetch.FetchFailed? {
        return false, "Error downloading Docker Compose file: " + fetch.message, None;
      }
      var configDir := PathJoin(composeDir, name);
      var composePath := PathJoin(configDir, "docker-compose.yml");
      files := files[composePath := fetch.text];
      var invalid := yaml(ReadBack(files[composePath]));
      if invalid.Some? {
        return false, "Invalid Docker Compose file: " + invalid.value, None;
      }
      return true, "Docker Compose file downloaded successfully", Some(composePath);
    }

    /** `check_for_updates`: nothing on disk changes (the temporary copy is removed again). */
    function CheckForUpdates(path: string, fetch: Fetch): (r: (bool, bool))
      reads this
      ensures r == UpdateCheck(files, path, fetch)
    {
      if fetch.FetchFailed? || path !in files then (false, false)
      else
        var local := ReadBack(files[path]);
        var remote := ReadBack(fetch.text);
        (true, local != remote)
    }

    /**
     * `update_compose_file`: a failed request or invalid YAML changes nothing; otherwise the file is
     * copied to `<path>.bak` and overwritten with the new text. A missing file fails the copy, after
     * which a `.bak` left by an earlier update is copied back over the path; a failed write restores
     * the backup just made.
     */
    method UpdateComposeFile(path: string, fetch: Fetch, yaml: YamlCheck, writeOk: bool, writeError: string)
      returns (ok: bool, message: string)
      modifies this`files
      ensures files == UpdatedFiles(old(files), path, fetch, yaml, writeOk)
      ensures ok <==> fetch.Fetched? && yaml(fetch.text).None? && path in old(files) && writeOk
      ensures ok ==> message == "Docker Compose file updated successfully"
    {
      if fetch.FetchFailed? {
        return false, "Error updating Docker Compose file: " + fetch.message;
      }
      var invalid := yaml(fetch.text);
      if invalid.Some? {
        return false, "Invalid Docker Compose file: " + invalid.value;
      }
      var backup := path + ".bak";
      if path !in files {
        if backup in files {
          files := files[path := files[backup]];
        }
        return false, "Error updating Docker Compose file: [Errno 2] No such file or directory: '" + path + "'";
      }
      files := files[backup := files[path]];
      if !writeOk {
        files := files[path := files[backup]];
        return false, "Error updating Docker Compose file: " + writeError;
      }
      files := files[path := fetch.text];
      return true, "Docker Compose file updated successfully";
    }
  }

  /** The files after `update_compose_file`. */
  function UpdatedFiles(files: map<string, string>, path: string, fetch: Fetch, yaml: YamlCheck, writeOk: bool): map<string, string> {
    var backup := path + ".bak";
    if fetch.FetchFailed? || yaml(fetch.text).Some? then files
    else if path !in files then (if backup in files then files[path := files[backup]] else files)
    else if !writeOk then files[backup := files[path]]
    else files[backup := files[path]][path := fetch.text]
  }

  /** After a successful update the source reports no further update, and the previous text is kept as `<path>.bak`. */
  lemma UpdateThenCheck(files: map<string, string>, path: string, fetch: Fetch, yaml: YamlCheck)
    requires fetch.Fetched? && yaml(fetch.text).None? && path in files
    ensures UpdateCheck(UpdatedFiles(files, path, fetch, yaml, true), path, fetch) == (true, false)
    ensures UpdatedFiles(files, path, fetch, yaml, true)[path + ".bak"] == files[path]
  {
    assert path != path + ".bak" by { assert |path| < |path + ".bak"|; }
  }

  /** A failed write leaves the compose file as it was. */
  lemma FailedWriteKeepsFile(files: map<string, string>, path: string, fetch: Fetch, yaml: YamlCheck)
    requires path in files
    ensures UpdatedFiles(files, path, fetch, yaml, false)[path] == files[path]
  {
    assert path != path + ".bak" by { assert |path| < |path + ".bak"|; }
  }

  /** After a download, the downloaded configuration's file matches its source: no update is reported. */
  lemma DownloadThenCheck(files: map<string, string>, dir: string, name: string, text: string)
    ensures UpdateCheck(files[ComposePath(dir, name) := text], ComposePath(dir, name), Fetched(text)) == (true, false)
  {
  }

  /** Compose commands for a downloaded file run in the configuration's own directory. */
  lemma ComposeRunsInConfigDir(dir: string, name: string, a: ComposeAction)
    requires PathJoin(dir, name) != "" && PathJoin(dir, name)[|PathJoin(dir, name)| - 1] != '/'
    ensures ComposeCommand(ComposePath(dir, name), a).cwd == PathJoin(dir, name)
  {
    var f := "docker-compose.yml";
    assert '/' !in f;
    DirnameJoin(PathJoin(dir, name), f);
  }
}

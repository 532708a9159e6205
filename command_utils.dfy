/**
 * The diagnostic commands of the system pages: an allow-list of nine commands, the check on their
 * arguments, and how a run is reported. Splitting the command line into words (`shlex.split`) and
 * the process itself are parameters.
 */
module CommandUtils {
  import opened Wrappers
  import opened Text

  /** One entry of the allow-list. */
  datatype CommandInfo = CommandInfo(description: string, format: string, example: string, argsRequired: bool)

  /** `ALLOWED_COMMANDS`. */
  const AllowedCommands: map<string, CommandInfo> := map[
    "ping" := CommandInfo("Test connectivity to a host", "ping [options] <host>", "ping -c 4 8.8.8.8", true),
    "ifconfig" := CommandInfo("Display network interface configuration", "ifconfig [interface]", "ifconfig eth0", false),
    "ip" := CommandInfo("Show / manipulate routing, devices, policy routing and tunnels", "ip [options] <object> <command>",
                        "ip addr show", true),
    "traceroute" := CommandInfo("Print the route packets trace to network host", "traceroute [options] <host>",
                                "traceroute google.com", true),
    "nslookup" := CommandInfo("Query DNS for domain name or IP address mapping", "nslookup <host>", "nslookup google.com", true),
    "netstat" := CommandInfo("Print network connections, routing tables, interface statistics, etc.", "netstat [options]",
                             "netstat -tuln", false),
    "df" := CommandInfo("Report file system disk space usage", "df [options]", "df -h", false),
    "free" := CommandInfo("Display amount of free and used memory in the system", "free [options]", "free -h", false),
    "uptime" := CommandInfo("Tell how long the system has been running", "uptime", "uptime", false)
  ]

  /** `is_command_allowed`: exactly the nine listed commands. */
  function IsCommandAllowed(command: string): (r: bool)
    ensures r <==> command in {"ping", "ifconfig", "ip", "traceroute", "nslookup", "netstat", "df", "free", "uptime"}
  {
    command in AllowedCommands
  }

  /** The commands that need arguments. */
  lemma ArgsRequiredExactly(command: string)
    requires IsCommandAllowed(command)
    ensures AllowedCommands[command].argsRequired <==> command in {"ping", "ip", "traceroute", "nslookup"}
  {
  }

  /**
   * `validate_command_args`: an unknown command is never valid; a known one is valid unless it
   * requires arguments and `args` is blank.
   */
  function ValidateCommandArgs(command: string, args: string): (r: bool)
    ensures !IsCommandAllowed(command) ==> !r
    ensures IsCommandAllowed(command) ==> (!r <==> AllowedCommands[command].argsRequired && Blank(args))
  {
    if command !in AllowedCommands then false
    else
      StripBlank(args);
      !(AllowedCommands[command].argsRequired && Strip(args) == "")
  }

  /** A command that takes no required arguments accepts any argument text, blank or not. */
  lemma OptionalArgsAlwaysValid(command: string, args: string)
    requires command in {"ifconfig", "netstat", "df", "free", "uptime"}
    ensures ValidateCommandArgs(command, args)
  {
  }

  /** The command line handed to the word splitter: `f"{command} {args}".strip()`. */
  function CommandLine(command: string, args: string): string {
    Strip(command + " " + args)
  }

  /** What `subprocess.run` did: finished, hit the 30-second timeout, or raised. */
  datatype RunOutcome = Completed(stdout: string, stderr: string, returncode: int) | TimedOut | Failed(message: string)

  /**
   * What `execute_command` does: rejects the request with a `ValueError` message (no process is
   * started), or starts `argv` and reports its output and exit code.
   */
  datatype Execution = Rejected(message: string) | Ran(argv: seq<string>, output: string, code: int)

  /** The reported output and exit code of a run. */
  function RunReport(run: RunOutcome): (r: (string, int))
    ensures run.Completed? ==> r == (run.stdout + run.stderr, run.returncode)
    ensures run.TimedOut? ==> r == ("Command timed out after 30 seconds", 1)
    ensures run.Failed? ==> r == ("Error executing command: " + run.message, 1)
  {
    match run
    case Completed(out, err, code) => (out + err, code)
    case TimedOut => ("Command timed out after 30 seconds", 1)
    case Failed(msg) => ("Error executing command: " + msg, 1)
  }

  /**
   * `execute_command(command, args)`: the allow-list and the arguments are checked before anything
   * runs; `lex` is `shlex.split`, whose own `ValueError` (an unclosed quote) is not caught either.
   */
  function ExecuteCommand(command: string, args: string, lex: string -> Result<seq<string>>, run: RunOutcome)
    : (r: Execution)
    ensures !IsCommandAllowed(command) ==> r == Rejected("Command '" + command + "' is not allowed")
    ensures IsCommandAllowed(command) && !ValidateCommandArgs(command, args) ==>
              r == Rejected("Invalid arguments for command '" + command + "'")
    ensures r.Ran? <==> ValidateCommandArgs(command, args) && lex(CommandLine(command, args)).Ok?
    ensures r.Ran? ==> r.argv == lex(CommandLine(command, args)).value && (r.output, r.code) == RunReport(run)
    ensures r.Ran? && !run.Completed? ==> r.code == 1
  {
    if !IsCommandAllowed(command) then Rejected("Command '" + command + "' is not allowed")
    else if !ValidateCommandArgs(command, args) then Rejected("Invalid arguments for command '" + command + "'")
    else
      match lex(CommandLine(command, args))
      case Err(e) => Rejected(e)
      case Ok(argv) =>
        var (output, code) := RunReport(run);
        Ran(argv, output, code)
  }

  /** A string that starts with something other than whitespace is its own `lstrip()`. */
  lemma TrimLeftTight(s: string)
    requires s != [] && !IsSpace(s[0])
    ensures TrimLeft(s) == s
  {
  }

  /**
   * `rstrip()` of `s + t`: a blank `t` disappears together with the trailing whitespace of `s`;
   * otherwise only the trailing whitespace of `t` goes.
   */
  lemma {:induction false} TrimRightAppend(s: string, t: string)
    ensures Blank(t) ==> TrimRight(s + t) == TrimRight(s)
    ensures !Blank(t) ==> TrimRight(s + t) == s + TrimRight(t)
    decreases |t|
  {
    if t == [] {
      assert s + t == s;
    } else {
      var u := t[..|t| - 1];
      assert (s + t)[..|s + t| - 1] == s + u;
      assert (s + t)[|s + t| - 1] == t[|t| - 1];
      TrimRightAppend(s, u);
      if IsSpace(t[|t| - 1]) {
        assert Blank(t) <==> Blank(u) by {
          if Blank(u) {
            forall i | 0 <= i < |t| ensures IsSpace(t[i]) {
              if i < |u| {
                assert t[i] == u[i];
              }
            }
          }
          if Blank(t) {
            forall i | 0 <= i < |u| ensures IsSpace(u[i]) {
              assert u[i] == t[i];
            }
          }
        }
      } else {
        assert !Blank(t);
      }
    }
  }

  /** A leading space does not change whether a string is blank. */
  lemma BlankAfterSpace(args: string)
    ensures Blank(" " + args) <==> Blank(args)
  {
    assert forall i :: 0 <= i < |args| ==> (" " + args)[i + 1] == args[i];
  }

  /** `(" " + args).rstrip()` for arguments that are not blank keeps the leading space. */
  lemma TrimRightSpaced(args: string)
    requires !Blank(args)
    ensures TrimRight(" " + args) == " " + TrimRight(args)
  {
    TrimRightAppend(" ", args);
  }

  /** A command line that starts with a non-space character only loses its trailing whitespace. */
  lemma CommandLineTrimsRight(command: string, args: string)
    requires command != [] && !IsSpace(command[0])
    ensures CommandLine(command, args) == TrimRight(command + (" " + args))
  {
    var s := command + " " + args;
    assert s[0] == command[0];
    TrimLeftTight(s);
    assert s == command + (" " + args);
  }

  /** `(command + " " + args).rstrip()` for a command word that does not end in whitespace. */
  lemma SpacedTrimRight(command: string, args: string)
    requires command != [] && !IsSpace(command[|command| - 1])
    ensures Blank(args) ==> TrimRight(command + (" " + args)) == command
    ensures !Blank(args) ==> TrimRight(command + (" " + args)) == command + " " + TrimRight(args)
  {
    TrimRightAppend(command, " " + args);
    BlankAfterSpace(args);
    if !Blank(args) {
      TrimRightSpaced(args);
      assert command + (" " + TrimRight(args)) == command + " " + TrimRight(args);
    }
  }

  /**
   * For a command word with no surrounding whitespace, blank arguments leave the bare command, and
   * other arguments follow it after one space with only their trailing whitespace removed.
   */
  lemma CommandLineShape(command: string, args: string)
    requires command != [] && !IsSpace(command[0]) && !IsSpace(command[|command| - 1])
    ensures Blank(args) ==> CommandLine(command, args) == command
    ensures !Blank(args) ==> CommandLine(command, args) == command + " " + TrimRight(args)
  {
    CommandLineTrimsRight(command, args);
    SpacedTrimRight(command, args);
  }

  /** Every allowed command is a bare word, so `execute_command(c)` with no arguments runs `lex(c)`. */
  lemma BareCommand(command: string, lex: string -> Result<seq<string>>, run: RunOutcome)
    requires IsCommandAllowed(command) && !AllowedCommands[command].argsRequired
    ensures CommandLine(command, "") == command
    ensures lex(command).Ok? ==> ExecuteCommand(command, "", lex, run) == Ran(lex(command).value, RunReport(run).0, RunReport(run).1)
  {
    assert command[0] in "pinftdu" && command[|command| - 1] in "gpetfme";
    CommandLineShape(command, "");
  }
}

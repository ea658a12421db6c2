/**
 * The shell tools: `SafeShellTool` runs a whitelisted command unless it matches a dangerous
 * pattern, `TestRunnerTool` runs a test framework and trims its output. The word list a
 * command splits into (by `shlex.split`) and the process it would start are parameters.
 */
module ShellTools {
  import opened Wrappers
  import opened PyText
  import opened Processes

  /** Commands every shell tool allows on top of its configured whitelist. */
  const BasicCommands: set<string> := {"ls", "cat", "grep", "find", "head", "tail", "wc"}

  /** Substrings that mark a command as dangerous, matched against the lower-cased command. */
  const DangerousPatterns: seq<string> := [
    "rm -rf", "rm -f", "del ", "format ", "fdisk",
    "mkfs", "dd if=", "dd of=", "> /dev/", "chmod 777",
    "chmod +x", "sudo ", "su ", "passwd", "useradd",
    "userdel", "kill -9", "killall", "pkill",
    "wget ", "curl ", "ssh ", "scp ", "rsync ",
    "mount ", "umount ", "systemctl", "service ",
    "iptables", "firewall", "netsh", "ifconfig",
    "route ", "ping -f", "nmap ", "nc ", "netcat"
  ]

  /** `any(p in hay for p in patterns)` */
  function AnyContained(hay: string, patterns: seq<string>): (b: bool)
    ensures b <==> exists i :: 0 <= i < |patterns| && Contains(hay, patterns[i])
  {
    if patterns == [] then false
    else
      var rest := AnyContained(hay, patterns[1..]);
      assert forall i :: 1 <= i < |patterns| ==> patterns[i] == patterns[1..][i - 1];
      Contains(hay, patterns[0]) || rest
  }

  /** `_is_dangerous_command` */
  function IsDangerousCommand(command: string): bool {
    AnyContained(Lower(command), DangerousPatterns)
  }

  /**
   * Some pattern is contained in `hay` exactly when some pattern occurs at some position of
   * it: applied to the danger test, a pattern anywhere in the lower-cased command blocks it,
   * whether it stands as a command, an argument or a part of a file name.
   */
  lemma AnyContainedOccurs(hay: string, patterns: seq<string>)
    ensures AnyContained(hay, patterns) <==>
      exists i, j :: 0 <= i < |patterns| && OccursAt(hay, patterns[i], j)
  {
    forall i | 0 <= i < |patterns|
      ensures Contains(hay, patterns[i]) <==> exists j :: OccursAt(hay, patterns[i], j)
    {
      ContainsAt(hay, patterns[i]);
    }
  }

  /** The danger test ignores letter case. */
  lemma DangerousIgnoresCase(command: string)
    ensures IsDangerousCommand(Lower(command)) == IsDangerousCommand(command)
  {
    LowerIdempotent(command);
  }

  /** The separator `"\\n\\n".join` puts between output sections. */
  const Separator := "\\n\\n"

  /** What a successful command with no output at all reports. */
  const NoOutput := "Command completed successfully (no output)"

  /** The sections `SafeShellTool._run` collects, before the fallback for an empty list. */
  function OutputSections(code: int, stdout: string, stderr: string): seq<string> {
    (if stdout != "" then ["Output:\\n" + stdout] else [])
    + (if stderr != "" then ["Errors:\\n" + stderr] else [])
    + (if code != 0 then ["Exit code: " + IntToString(code)] else [])
  }

  /** The joined report of a finished command. */
  function ShellOutput(code: int, stdout: string, stderr: string): string {
    var sections := OutputSections(code, stdout, stderr);
    Join(if sections == [] then [NoOutput] else sections, Separator)
  }

  /**
   * A failing command always ends its report with its exit code, and only a silent
   * successful command reports the fixed sentence.
   */
  lemma ShellOutputSpec(code: int, stdout: string, stderr: string)
    ensures code != 0 ==> EndsWithText(ShellOutput(code, stdout, stderr), "Exit code: " + IntToString(code))
    ensures OutputSections(code, stdout, stderr) == [] <==> code == 0 && stdout == "" && stderr == ""
    ensures code == 0 && stdout == "" && stderr == "" ==> ShellOutput(code, stdout, stderr) == NoOutput
  {
    var sections := OutputSections(code, stdout, stderr);
    if code != 0 {
      var front := (if stdout != "" then ["Output:\\n" + stdout] else []) + (if stderr != "" then ["Errors:\\n" + stderr] else []);
      var last := "Exit code: " + IntToString(code);
      assert sections == front + [last];
      if front != [] {
        JoinSnoc(front, last, Separator);
      } else {
        assert sections == [last];
      }
    }
  }

  /** `suffix` is the end of `s`. */
  predicate EndsWithText(s: string, suffix: string) {
    |suffix| <= |s| && s[|s| - |suffix|..] == suffix
  }

  /** The formatting step of `SafeShellTool._run`, collecting sections one `append` at a time. */
  method FormatShellOutput(code: int, stdout: string, stderr: string) returns (report: string)
    ensures report == ShellOutput(code, stdout, stderr)
  {
    var parts: seq<string> := [];
    if stdout != "" {
      parts := parts + ["Output:\\n" + stdout];
    }
    if stderr != "" {
      parts := parts + ["Errors:\\n" + stderr];
    }
    if code != 0 {
      parts := parts + ["Exit code: " + IntToString(code)];
    }
    assert parts == OutputSections(code, stdout, stderr);
    if parts == [] {
      parts := parts + [NoOutput];
    }
    report := Join(parts, Separator);
  }

  /** What the shell tool returns once it has started `argv`. */
  function ShellReport(argv: seq<string>, outcome: ProcessResult): string
    requires argv != []
  {
    match outcome
    case TimedOut => "Command timed out after 30 seconds"
    case Raised(notFound, e) => if notFound then "Command not found: " + argv[0] else "Error executing command: " + e
    case Completed(code, out, err) => ShellOutput(code, out, err)
  }

  /** The message for a first word outside the whitelist; it lists the whitelist in sorted order. */
  function NotWhitelisted(base: string, whitelist: set<string>): string {
    "Command '" + base + "' is not in the whitelist of allowed commands.\\nAllowed: " + Join(SortedStrings(whitelist), ", ")
  }

  /** An entry holding a capital letter can never be matched, since the first word is lower-cased. */
  lemma CapitalEntryNeverMatches(entry: string, word: string)
    requires HasCapital(entry)
    ensures Lower(word) != entry
  {
    LowerHasNoCapital(word);
  }

  class SafeShellTool {
    var whitelist: set<string>
    /** Stored but never consulted. */
    const requireConfirmation: bool

    /** The configured list, as a set, with the basic commands added in place. */
    constructor(whitelist: seq<string>, requireConfirmation: bool)
      ensures this.whitelist == (set w | w in whitelist) + BasicCommands
      ensures this.requireConfirmation == requireConfirmation
    {
      this.whitelist := set w | w in whitelist;
      this.requireConfirmation := requireConfirmation;
      new;
      this.whitelist := this.whitelist + BasicCommands;
    }

    /** `_is_command_allowed` */
    predicate IsCommandAllowed(command: string)
      reads this
    {
      command in whitelist
    }

    /**
     * `SafeShellTool._run`. `parts` is what `shlex.split(command.strip())` returned, or the
     * message of the exception it raised; `ran` is the word list handed to the process. The
     * whitelist check comes first, the danger check on the whole command second, and a command
     * runs only when it passes both.
     */
    method Run(command: string, parts: Result<seq<string>, string>, execute: seq<string> -> ProcessResult)
      returns (out: string, ran: Option<seq<string>>)
      ensures ran.Some? <==>
        parts.Success? && parts.value != [] && IsCommandAllowed(Lower(parts.value[0])) && !IsDangerousCommand(command)
      ensures ran.Some? ==> ran.value == parts.value && out == ShellReport(parts.value, execute(parts.value))
      ensures parts.Failure? ==> out == "Error executing command: " + parts.error
      ensures parts == Success([]) ==> out == "No command provided"
      ensures parts.Success? && parts.value != [] && !IsCommandAllowed(Lower(parts.value[0])) ==>
        out == NotWhitelisted(Lower(parts.value[0]), whitelist)
      ensures parts.Success? && parts.value != [] && IsCommandAllowed(Lower(parts.value[0])) && IsDangerousCommand(command) ==>
        out == "Command appears to be dangerous and is blocked: " + command
    {
      ran := None;
      if parts.Failure? {
        return "Error executing command: " + parts.error, None;
      }
      var words := parts.value;
      if words == [] {
        return "No command provided", None;
      }
      var base := Lower(words[0]);
      if !IsCommandAllowed(base) {
        return NotWhitelisted(base, whitelist), None;
      }
      if IsDangerousCommand(command) {
        return "Command appears to be dangerous and is blocked: " + command, None;
      }
      ran := Some(words);
      match execute(words)
      case TimedOut =>
        out := "Command timed out after 30 seconds";
      case Raised(notFound, e) =>
        out := if notFound then "Command not found: " + words[0] else "Error executing command: " + e;
      case Completed(code, stdout, stderr) =>
        out := FormatShellOutput(code, stdout, stderr);
    }
  }

  // ---------------------------------------------------------------------------------------
  // TestRunnerTool

  const TestFrameworks: set<string> := {"pytest", "python", "npm", "jest", "unittest"}

  /** The frameworks as the refusal message lists them. */
  const FrameworkListing: seq<string> := ["pytest", "python", "npm", "jest", "unittest"]

  const StdoutLimit := 5000
  const StderrLimit := 2000

  /** Keep at most `limit` characters, marking a cut with `marker`. */
  function Truncate(s: string, limit: nat, marker: string): (r: string)
    ensures |r| <= limit + |marker|
    ensures |s| <= limit ==> r == s
    ensures |s| > limit ==> |r| == limit + |marker| && r[..limit] == s[..limit] && r[limit..] == marker
  {
    if |s| > limit then s[..limit] + marker else s
  }

  /** The closing line, which depends only on whether the exit code is zero. */
  function TestSummary(code: int): string {
    if code == 0 then "\U{2705} Tests passed!"
    else "\U{274C} Tests failed (exit code: " + IntToString(code) + ")"
  }

  /** The sections for the two streams, each present only when its stream is non-empty. */
  function StreamSections(stdout: string, stderr: string): seq<string> {
    (if stdout != "" then ["Test Output:\\n" + Truncate(stdout, StdoutLimit, "\\n... (output truncated)")] else [])
    + (if stderr != "" then ["Test Errors:\\n" + Truncate(stderr, StderrLimit, "\\n... (errors truncated)")] else [])
  }

  /** The sections `TestRunnerTool._run` collects: trimmed output, trimmed errors, the summary. */
  function TestSections(code: int, stdout: string, stderr: string): seq<string> {
    StreamSections(stdout, stderr) + [TestSummary(code)]
  }

  /** A test report always ends with the summary line. */
  lemma TestReportEndsWithSummary(code: int, stdout: string, stderr: string)
    ensures EndsWithText(Join(TestSections(code, stdout, stderr), Separator), TestSummary(code))
  {
    var front := StreamSections(stdout, stderr);
    if front != [] {
      JoinSnoc(front, TestSummary(code), Separator);
    }
  }

  /** However long a stream is, its section holds at most its limit plus the header and the marker. */
  lemma StreamSectionsBounded(stdout: string, stderr: string)
    ensures |StreamSections(stdout, stderr)| <= 2
    ensures forall section :: section in StreamSections(stdout, stderr) ==> |section| <= 14 + StdoutLimit + 24
  {
    var out := if stdout != "" then ["Test Output:\\n" + Truncate(stdout, StdoutLimit, "\\n... (output truncated)")] else [];
    var err := if stderr != "" then ["Test Errors:\\n" + Truncate(stderr, StderrLimit, "\\n... (errors truncated)")] else [];
    assert forall section :: section in out ==> |section| <= 14 + StdoutLimit + 24;
    assert forall section :: section in err ==> |section| <= 14 + StderrLimit + 24;
    assert StreamSections(stdout, stderr) == out + err;
  }

  /** The formatting step of `TestRunnerTool._run`, collecting sections one `append` at a time. */
  method FormatTestOutput(code: int, stdout: string, stderr: string) returns (report: string)
    ensures report == Join(TestSections(code, stdout, stderr), Separator)
  {
    var parts: seq<string> := [];
    if stdout != "" {
      var shown := stdout;
      if |shown| > StdoutLimit {
        shown := shown[..StdoutLimit] + "\\n... (output truncated)";
      }
      assert shown == Truncate(stdout, StdoutLimit, "\\n... (output truncated)");
      parts := parts + ["Test Output:\\n" + shown];
    }
    if stderr != "" {
      var shown := stderr;
      if |shown| > StderrLimit {
        shown := shown[..StderrLimit] + "\\n... (errors truncated)";
      }
      assert shown == Truncate(stderr, StderrLimit, "\\n... (errors truncated)");
      parts := parts + ["Test Errors:\\n" + shown];
    }
    assert parts == StreamSections(stdout, stderr);
    if code == 0 {
      parts := parts + ["\U{2705} Tests passed!"];
    } else {
      parts := parts + ["\U{274C} Tests failed (exit code: " + IntToString(code) + ")"];
    }
    report := Join(parts, Separator);
  }

  /** What the test runner returns once it has started `argv`. */
  function TestReport(outcome: ProcessResult): string {
    match outcome
    case TimedOut => "Test execution timed out after 2 minutes"
    case Raised(_, e) => "Error running tests: " + e
    case Completed(code, out, err) => Join(TestSections(code, out, err), Separator)
  }

  /**
   * `TestRunnerTool._run`: the lower-cased first word must name a supported framework; the
   * word list runs unchanged, with no danger check.
   */
  method RunTests(parts: Result<seq<string>, string>, execute: seq<string> -> ProcessResult)
    returns (out: string, ran: Option<seq<string>>)
    ensures ran.Some? <==> parts.Success? && parts.value != [] && Lower(parts.value[0]) in TestFrameworks
    ensures ran.Some? ==> ran.value == parts.value && out == TestReport(execute(parts.value))
    ensures parts.Failure? ==> out == "Error running tests: " + parts.error
    ensures parts == Success([]) ==> out == "No test command provided"
    ensures parts.Success? && parts.value != [] && Lower(parts.value[0]) !in TestFrameworks ==>
      out == "Test framework '" + Lower(parts.value[0]) + "' not supported. Allowed: " + Join(FrameworkListing, ", ")
  {
    ran := None;
    if parts.Failure? {
      return "Error running tests: " + parts.error, None;
    }
    var words := parts.value;
    if words == [] {
      return "No test command provided", None;
    }
    var framework := Lower(words[0]);
    if framework !in TestFrameworks {
      return "Test framework '" + framework + "' not supported. Allowed: " + Join(FrameworkListing, ", "), None;
    }
    ran := Some(words);
    match execute(words)
    case TimedOut =>
      out := "Test execution timed out after 2 minutes";
    case Raised(_, e) =>
      out := "Error running tests: " + e;
    case Completed(code, stdout, stderr) =>
      out := FormatTestOutput(code, stdout, stderr);
  }
}

/**
 * The git tools: `GitTool` runs a whitelisted git subcommand, `GitAnalysisTool` picks one of
 * four canned analyses. Both split their input on whitespace and lower-case the first word.
 * The process a command would start is a parameter.
 */
module GitTools {
  import opened Wrappers
  import opened PyText
  import opened Processes

  /** Read-only and basic write subcommands. */
  const SafeCommands: set<string> := {
    "status", "diff", "log", "show", "blame", "branch",
    "ls-files", "ls-tree", "cat-file", "rev-parse",
    "add", "commit", "checkout", "switch", "restore"
  }

  /** Subcommands that touch remotes, rewrite history or configuration. */
  const DangerousCommands: set<string> := {
    "push", "pull", "fetch", "merge", "rebase", "reset",
    "rm", "clean", "gc", "prune", "reflog", "fsck",
    "remote", "config", "init", "clone"
  }

  /** No subcommand is both safe and dangerous. */
  lemma SafeAndDangerousDisjoint()
    ensures SafeCommands * DangerousCommands == {}
  {
  }

  /** `_is_safe_command`: in the safe set and not in the dangerous one, which is the safe set alone. */
  function IsSafeCommand(c: string): (b: bool)
    ensures b <==> c in SafeCommands
    ensures c in DangerousCommands ==> !b
  {
    SafeAndDangerousDisjoint();
    assert c in SafeCommands ==> c !in DangerousCommands;
    c in SafeCommands && c !in DangerousCommands
  }

  /** `text.strip().split()` */
  function Words(text: string): seq<string> {
    Split(Strip(text))
  }

  /** Only an all-whitespace input has no words. */
  lemma WordsEmpty(text: string)
    ensures Words(text) == [] <==> AllSpace(text)
  {
    if !AllSpace(text) {
      assert !IsSpace(Strip(text)[0]);
    }
  }

  /**
   * The parse and guard of `GitTool._run`: the argument vector to execute, or the message
   * returned instead of executing anything.
   */
  function GitCommandLine(command: string): Result<seq<string>, string> {
    var parts := Words(command);
    if parts == [] then Failure("No git command provided")
    else
      var sub := Lower(parts[0]);
      var args := if |parts| > 1 then parts[1..] else [];
      if !IsSafeCommand(sub) then Failure("Git command '" + sub + "' is not allowed for safety reasons")
      else Success(["git", sub] + args)
  }

  /**
   * An empty input is refused; otherwise the subcommand is the lower-cased first word, it runs
   * only when it is in the safe set, and every further word is passed on unchanged.
   */
  lemma GitCommandLineSpec(command: string)
    ensures AllSpace(command) ==> GitCommandLine(command) == Failure("No git command provided")
    ensures !AllSpace(command) ==>
      var sub := Lower(Words(command)[0]);
      && (sub !in SafeCommands ==>
            GitCommandLine(command) == Failure("Git command '" + sub + "' is not allowed for safety reasons"))
      && (sub in SafeCommands ==>
            GitCommandLine(command) == Success(["git", sub] + Words(command)[1..]))
  {
    WordsEmpty(command);
  }

  /** What a successful command with blank output reports instead. */
  const NoOutput := "Command completed successfully (no output)"

  /** What `GitTool._run` returns for the finished process. */
  function GitReport(command: string, outcome: ProcessResult): string {
    match outcome
    case TimedOut => "Git command timed out"
    case Raised(_, e) => "Error executing git command: " + e
    case Completed(code, out, err) =>
      if code != 0 then "Git command failed:\\nError: " + err
      else
        var output := Strip(out);
        "Git " + command + ":\\n" + (if output == [] then NoOutput else output)
  }

  /** A successful run never reports an empty output: blank output becomes a fixed sentence. */
  lemma GitReportSuccess(command: string, out: string, err: string)
    ensures AllSpace(out) ==>
      GitReport(command, Completed(0, out, err)) == "Git " + command + ":\\n" + NoOutput
    ensures !AllSpace(out) ==>
      Strip(out) != [] && GitReport(command, Completed(0, out, err)) == "Git " + command + ":\\n" + Strip(out)
  {
    var output := Strip(out);
    if AllSpace(out) {
      assert output == [];
    } else {
      assert output != [];
    }
  }

  /** `GitTool._run`, with `execute` standing for the process an argument vector starts. */
  function RunGit(command: string, execute: seq<string> -> ProcessResult): string {
    match GitCommandLine(command)
    case Failure(message) => message
    case Success(argv) => GitReport(command, execute(argv))
  }

  /** A refused command does not depend on what a process would do: nothing is executed. */
  lemma RefusedCommandRunsNothing(command: string, e1: seq<string> -> ProcessResult, e2: seq<string> -> ProcessResult)
    requires GitCommandLine(command).Failure?
    ensures RunGit(command, e1) == RunGit(command, e2) == GitCommandLine(command).error
  {
  }

  /** A dangerous subcommand, in any letter case, is refused with the safety message. */
  lemma DangerousCommandRefused(command: string, execute: seq<string> -> ProcessResult)
    requires !AllSpace(command) && Lower(Words(command)[0]) in DangerousCommands
    ensures RunGit(command, execute)
         == "Git command '" + Lower(Words(command)[0]) + "' is not allowed for safety reasons"
  {
    WordsEmpty(command);
  }

  /** Every executed vector starts with `git` and a safe, lower-case subcommand. */
  lemma ExecutedCommandIsSafe(command: string)
    requires GitCommandLine(command).Success?
    ensures var argv := GitCommandLine(command).value;
      |argv| >= 2 && argv[0] == "git" && argv[1] in SafeCommands && !HasCapital(argv[1])
  {
    LowerHasNoCapital(Words(command)[0]);
  }

  // ---------------------------------------------------------------------------------------
  // GitAnalysisTool

  datatype Analysis = RecentChanges | FileHistory(path: string) | Contributors | Stats

  const AnalysisNames: set<string> := {"recent_changes", "file_history", "contributors", "stats"}

  /** The `if`/`elif` chain of `GitAnalysisTool._run` on the lower-cased name and the remaining words. */
  function SelectAnalysis(name: string, args: seq<string>): Result<Analysis, string> {
    if name == "recent_changes" then Success(RecentChanges)
    else if name == "file_history" && args != [] then Success(FileHistory(args[0]))
    else if name == "contributors" then Success(Contributors)
    else if name == "stats" then Success(Stats)
    else Failure("Unknown analysis type: " + name)
  }

  /** The dispatch of `GitAnalysisTool._run`: which analysis to perform, or the message returned. */
  function ParseAnalysis(analysisType: string): Result<Analysis, string> {
    var parts := Words(analysisType);
    if parts == [] then Failure("No analysis type provided")
    else
      var args := if |parts| > 1 then parts[1..] else [];
      SelectAnalysis(Lower(parts[0]), args)
  }

  /**
   * A name selects an analysis exactly when it is one of the four and, for `file_history`, a
   * path follows; the path is the first remaining word and later words are ignored.
   */
  lemma SelectAnalysisSpec(name: string, args: seq<string>)
    ensures SelectAnalysis(name, args).Success? <==>
      name in AnalysisNames && (name == "file_history" ==> args != [])
    ensures SelectAnalysis(name, args).Failure? ==>
      SelectAnalysis(name, args).error == "Unknown analysis type: " + name
    ensures name == "file_history" && args != [] ==>
      SelectAnalysis(name, args) == Success(FileHistory(args[0]))
  {
  }

  /**
   * An all-whitespace input is refused; otherwise the lower-cased first word selects the
   * analysis and the remaining words, with their case kept, are its arguments.
   */
  lemma ParseAnalysisSpec(analysisType: string)
    ensures AllSpace(analysisType) ==> ParseAnalysis(analysisType) == Failure("No analysis type provided")
    ensures !AllSpace(analysisType) ==>
      ParseAnalysis(analysisType) == SelectAnalysis(Lower(Words(analysisType)[0]), Words(analysisType)[1..])
  {
    WordsEmpty(analysisType);
  }

  /** `file_history` with no path is not an error of its own: it is reported as an unknown type. */
  lemma FileHistoryWithoutPath()
    ensures SelectAnalysis("file_history", []) == Failure("Unknown analysis type: file_history")
  {
    assert "file_history" != "recent_changes" && "file_history" != "contributors" && "file_history" != "stats";
    assert "Unknown analysis type: " + "file_history" == "Unknown analysis type: file_history";
  }

  /** `GitAnalysisTool._run`, with `perform` standing for the four analyses and their processes. */
  function RunAnalysis(analysisType: string, perform: Analysis -> string): string {
    match ParseAnalysis(analysisType)
    case Failure(message) => message
    case Success(a) => perform(a)
  }
}

/** The `Git` provider of src/Riverside.CommitSharp/Git.cs: every public
    operation as one value of `Operation`, the single argument string each one
    hands to `ExecuteGitCommand`, and the decision `ExecuteGitCommand` takes
    on the finished process (exit code 0 gives standard output back verbatim,
    anything else fails with "Git command failed: " and standard error).
    The process itself is an oracle: a function from the start information to
    the exit code and the two captured streams. */
module GitCommand {
  import opened StringFacts
  import A = GitArguments

  /** One call of a public method of `Git`, with its arguments. */
  datatype Operation =
    | Reflog
    | Bisect(start: string, end: string, good: Option<string>, bad: Option<string>)
    | AddSubmodule(url: string, path: string, submoduleBranch: Option<string>)
    | UpdateSubmodules
    | Archive(commit: string, format: string, outputFile: string)
    | Describe(objectName: string)
    | Clone(repositoryUrl: string, directory: string)
    | Init
    | Add(files: string)
    | Commit(message: string, all: bool, amend: bool)
    | Push(remote: string, branch: string, force: bool, tags: bool)
    | Pull(remote: string, branch: string, rebase: bool)
    | Checkout(branchOrCommit: string, newBranch: Option<string>)
    | Merge(branch: string, noFastForward: bool)
    | Reset(commit: string, mode: string, keep: bool)
    | Status
    | Log
    | Branch(branchName: string)
    | DeleteBranch(branchName: string)
    | Stash
    | StashApply
    | Diff(options: string)
    | Tag(tagName: string, commit: string)
    | ListTags
    | CurrentBranch
    | RenameBranch(oldName: string, newName: string)
    | Rebase(branch: string)
    | CherryPick(commit: string)
    | Blame(filePath: string)
    | FileHistory(filePath: string)
    | ListRemotes
    | AddRemote(name: string, url: string)
    | RemoveRemote(name: string)
    | Prune
    | Clean(force: bool)
    | DiffCached
    | DiffHead
    | DiffCommits(commit1: string, commit2: string)

  /** The argument string each operation passes to `ExecuteGitCommand`. */
  function Arguments(op: Operation): string
  {
    match op
    case Reflog => A.Reflog()
    case Bisect(start, end, good, bad) => A.Bisect(start, end, good, bad)
    case AddSubmodule(url, path, branch) => A.AddSubmodule(url, path, branch)
    case UpdateSubmodules => A.UpdateSubmodules()
    case Archive(commit, format, outputFile) => A.Archive(commit, format, outputFile)
    case Describe(objectName) => A.Describe(objectName)
    case Clone(repositoryUrl, directory) => A.Clone(repositoryUrl, directory)
    case Init => A.Init()
    case Add(files) => A.Add(files)
    case Commit(message, all, amend) => A.Commit(message, all, amend)
    case Push(remote, branch, force, tags) => A.Push(remote, branch, force, tags)
    case Pull(remote, branch, rebase) => A.Pull(remote, branch, rebase)
    case Checkout(branchOrCommit, newBranch) => A.Checkout(branchOrCommit, newBranch)
    case Merge(branch, noFastForward) => A.Merge(branch, noFastForward)
    case Reset(commit, mode, keep) => A.Reset(commit, mode, keep)
    case Status => A.Status()
    case Log => A.Log()
    case Branch(branchName) => A.Branch(branchName)
    case DeleteBranch(branchName) => A.DeleteBranch(branchName)
    case Stash => A.Stash()
    case StashApply => A.StashApply()
    case Diff(options) => A.Diff(options)
    case Tag(tagName, commit) => A.Tag(tagName, commit)
    case ListTags => A.ListTags()
    case CurrentBranch => A.CurrentBranch()
    case RenameBranch(oldName, newName) => A.RenameBranch(oldName, newName)
    case Rebase(branch) => A.Rebase(branch)
    case CherryPick(commit) => A.CherryPick(commit)
    case Blame(filePath) => A.Blame(filePath)
    case FileHistory(filePath) => A.FileHistory(filePath)
    case ListRemotes => A.ListRemotes()
    case AddRemote(name, url) => A.AddRemote(name, url)
    case RemoveRemote(name) => A.RemoveRemote(name)
    case Prune => A.Prune()
    case Clean(force) => A.Clean(force)
    case DiffCached => A.DiffCached()
    case DiffHead => A.DiffHead()
    case DiffCommits(commit1, commit2) => A.DiffCommits(commit1, commit2)
  }

  // ---------------------------------------------------------------------
  // Executing a command

  /** The fields `ExecuteGitCommand` sets on its `ProcessStartInfo`. */
  datatype ProcessStartInfo = ProcessStartInfo(
    fileName: string,
    arguments: string,
    workingDirectory: string,
    redirectStandardOutput: bool,
    redirectStandardError: bool,
    useShellExecute: bool,
    createNoWindow: bool)

  /** What the finished process leaves behind: its exit code and everything
      read from its standard output and standard error. */
  datatype ProcessOutcome = ProcessOutcome(exitCode: int, standardOutput: string, standardError: string)

  /** The returned output, or the message of the thrown `InvalidOperationException`. */
  datatype Result = Ok(output: string) | Fail(message: string)

  const FailurePrefix: string := "Git command failed: "

  /** The exit-code decision at the end of `ExecuteGitCommand`. */
  function ExitStatusResult(outcome: ProcessOutcome): (r: Result)
    ensures r.Ok? <==> outcome.exitCode == 0
    ensures r.Ok? ==> r.output == outcome.standardOutput
    ensures r.Fail? ==> IsPrefix(FailurePrefix, r.message) && r.message[|FailurePrefix|..] == outcome.standardError
  {
    if outcome.exitCode != 0 then Fail(FailurePrefix + outcome.standardError) else Ok(outcome.standardOutput)
  }

  /** The standard-error text a failure message carries, or `None` when the
      message is not one `ExitStatusResult` produces. */
  function FailureDetail(message: string): (detail: Option<string>)
    ensures detail.Some? <==> IsPrefix(FailurePrefix, message)
  {
    if IsPrefix(FailurePrefix, message) then Some(message[|FailurePrefix|..]) else None
  }

  /** A failure message gives back exactly the standard error of the process. */
  lemma FailureDetailRoundTrip(outcome: ProcessOutcome)
    requires outcome.exitCode != 0
    ensures FailureDetail(ExitStatusResult(outcome).message) == Some(outcome.standardError)
  {
  }

  /** On a non-zero exit the standard output is dropped and the exit code's
      value does not matter: two failed runs with the same standard error give
      the same failure. On exit code 0 standard error is ignored. */
  lemma OnlyTheRelevantStreamMatters(o1: ProcessOutcome, o2: ProcessOutcome)
    ensures o1.exitCode != 0 && o2.exitCode != 0 && o1.standardError == o2.standardError
      ==> ExitStatusResult(o1) == ExitStatusResult(o2)
    ensures o1.exitCode == 0 && o2.exitCode == 0 && o1.standardOutput == o2.standardOutput
      ==> ExitStatusResult(o1) == ExitStatusResult(o2)
  {
  }

  /** A process exiting 1 with "boom" on standard error fails with that text,
      and exit code 0 returns standard output with its trailing newline. */
  lemma ExitStatusExamples()
    ensures ExitStatusResult(ProcessOutcome(1, "partial", "boom")) == Fail("Git command failed: boom")
    ensures ExitStatusResult(ProcessOutcome(0, "main\n", "warning")) == Ok("main\n")
  {
  }

  /** The provider: bound to a repository path at construction and never
      changed afterwards (the C# field is `readonly`). */
  datatype Git = Git(repositoryPath: string) {

    /** The start information of every process: `git`, the argument string
        as given, the repository path, both streams redirected, no shell. */
    function StartInfo(arguments: string): (info: ProcessStartInfo)
      ensures info.fileName == "git" && info.arguments == arguments
      ensures info.workingDirectory == repositoryPath
      ensures info.redirectStandardOutput && info.redirectStandardError
      ensures !info.useShellExecute && info.createNoWindow
    {
      ProcessStartInfo("git", arguments, repositoryPath, true, true, false, true)
    }

    /** `ExecuteGitCommand`: runs the process once and maps its outcome. */
    function ExecuteGitCommand(arguments: string, process: ProcessStartInfo -> ProcessOutcome): (r: Result)
      ensures var outcome := process(StartInfo(arguments));
        && (r.Ok? <==> outcome.exitCode == 0)
        && (r.Ok? ==> r.output == outcome.standardOutput)
        && (r.Fail? ==> r.message == FailurePrefix + outcome.standardError)
    {
      ExitStatusResult(process(StartInfo(arguments)))
    }

    /** Calling the public method for `op`. */
    function Run(op: Operation, process: ProcessStartInfo -> ProcessOutcome): (r: Result)
      ensures var outcome := process(StartInfo(Arguments(op)));
        && (r.Ok? <==> outcome.exitCode == 0)
        && (r.Ok? ==> r.output == outcome.standardOutput)
        && (r.Fail? ==> FailureDetail(r.message) == Some(outcome.standardError))
    {
      ExecuteGitCommand(Arguments(op), process)
    }
  }

  /** Whatever the operation, the process runs `git` in the repository the
      provider was built with, and its result depends on nothing but the
      outcome of that one process. */
  lemma RunsInRepository(g: Git, op: Operation, p1: ProcessStartInfo -> ProcessOutcome, p2: ProcessStartInfo -> ProcessOutcome)
    requires p1(ProcessStartInfo("git", Arguments(op), g.repositoryPath, true, true, false, true))
          == p2(ProcessStartInfo("git", Arguments(op), g.repositoryPath, true, true, false, true))
    ensures g.Run(op, p1) == g.Run(op, p2)
  {
  }
}

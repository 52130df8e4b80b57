# CommitSharp `Git` provider: a Dafny model

CommitSharp wraps the `git` command-line tool in a typed C# API. The class
`Git` (src/Riverside.CommitSharp/Git.cs) is bound to a repository path when
it is constructed. Each public method turns its typed arguments into ONE flat
argument string. It passes that string to the private `ExecuteGitCommand`,
which starts `git` in the repository directory, reads both output streams and
waits for the process to end. Exit code 0 gives back standard output
verbatim. Any other exit code throws `InvalidOperationException` with the
message `Git command failed: ` followed by standard error.

The model has three modules:

- `StringFacts` (strings.dfy): the C# nullable string (`Option<string>`),
  `string.IsNullOrEmpty`, and prefix, suffix and position predicates. It also
  defines `FirstWord`, the leading space-free word of a command line, which is
  the word `git` dispatches on.
- `GitArguments` (git_arguments.dfy): one pure function per public method,
  building exactly the string the C# interpolation builds. The multi-step
  builders (`Bisect`, `AddSubmodule`, `Checkout`, `Commit`, `Push`, `Pull`,
  `Merge`, `Reset`) mirror the source's straight-line `args +=` as a chain of
  `var` bindings. Every builder's contract states the subcommand word that
  leads its string and where each caller value sits in it, unaltered. Lemmas
  state how flags and optional tokens are appended, and in what order.
  `ParseCommit` is an inverse of `Commit`, proved in both directions.
- `GitCommand` (git_command.dfy): the `Operation` datatype has one
  constructor per public method. `Arguments` dispatches each operation to
  its builder. The `ProcessStartInfo` fields that `ExecuteGitCommand` sets
  form a datatype. `ExitStatusResult` is the exit-code decision. The provider
  is the datatype `Git`, whose only field, the repository path, is `readonly`
  in C#. The child process is an oracle, a function from the start
  information to `(exitCode, standardOutput, standardError)`. A thrown
  exception is modelled as `Fail(message)`.

Notes on the code:

- A failure carries only the message `"Git command failed: " + stderr`. The
  exit code is not carried.
- There is no separate launch failure.
- The arguments are one space-joined string, not a token array. Values are
  not quoted or escaped.
- A `Commit` message sits between double quotes exactly as given, so a
  message holding a double quote ends the quoted argument early
  (`QuoteInMessageForgesAmend`); `CommitInjective` is about strings only. 
- The lemmas `CheckoutNewBranchForgeable`, `SubmoduleBranchForgeable` and
  `FlagsForgeable` show what the missing escaping means elsewhere: a value
  that contains a flag token builds the same string as setting the flag.
- Setting `Push`'s `force` flag does not just append to the string with the
  flag off: when `tags` is also set, ` --force` goes in before ` --tags`.
  `PushFlags` states the exact shape.

## Model

| member | source | states |
|---|---|---|
| `GitArguments.Reflog` | src/Riverside.CommitSharp/Git.cs:55-58 | runs the `reflog` subcommand |
| `GitArguments.Bisect` | src/Riverside.CommitSharp/Git.cs:61-67 | starts with `bisect` and `bisect start <start> <end>`; equals that base exactly iff both `good` and `bad` are null or empty |
| `GitArguments.AddSubmodule` | src/Riverside.CommitSharp/Git.cs:70-75 | starts with `submodule add <url> <path>`; equals it iff `branch` is null or empty; otherwise ends with ` -b <branch>`, and the length leaves nothing between the two |
| `GitArguments.UpdateSubmodules` | src/Riverside.CommitSharp/Git.cs:78-81 | runs the `submodule` subcommand |
| `GitArguments.Archive` | src/Riverside.CommitSharp/Git.cs:84-87 | runs `archive`; starts `archive --format=`, then `format` verbatim at offset 17, then ` --output=` and `outputFile` verbatim; ends with ` <commit>`; length is the sum of the parts |
| `GitArguments.Describe` | src/Riverside.CommitSharp/Git.cs:94-97 | runs `describe`; the object name follows verbatim at offset 9 and ends the string |
| `GitArguments.Clone` | src/Riverside.CommitSharp/Git.cs:100-103 | runs `clone`; starts `clone <url> ` and the directory follows verbatim, so the two are one space apart; length is the sum of the parts |
| `GitArguments.Init` | src/Riverside.CommitSharp/Git.cs:106-109 | runs the `init` subcommand |
| `GitArguments.Add` | src/Riverside.CommitSharp/Git.cs:112-115 | runs `add`; the file list follows verbatim and ends the string |
| `GitArguments.Commit` | src/Riverside.CommitSharp/Git.cs:118-124 | runs `commit`; starts with `commit -m "<message>"` with the message verbatim at offset 11; length adds 6 for `--all` and 8 for `--amend` |
| `GitArguments.Push` | src/Riverside.CommitSharp/Git.cs:127-133 | runs `push`; starts with `push <remote> <branch>`, both verbatim; length adds 8 for `--force` and 7 for `--tags` |
| `GitArguments.Pull` | src/Riverside.CommitSharp/Git.cs:136-141 | runs `pull`; starts with `pull <remote> <branch>`, both verbatim; length adds 9 for `--rebase` |
| `GitArguments.Checkout` | src/Riverside.CommitSharp/Git.cs:144-149 | runs `checkout`; equals `checkout <b>` iff the new branch is null or empty; otherwise ends with ` -b <newBranch>` |
| `GitArguments.Merge` | src/Riverside.CommitSharp/Git.cs:152-157 | runs `merge`; starts with `merge <branch>`; length adds 8 for `--no-ff` |
| `GitArguments.Reset` | src/Riverside.CommitSharp/Git.cs:160-165 | runs `reset`; starts with `reset --<mode> <commit>`, mode and commit verbatim; length adds 7 for `--keep` |
| `GitArguments.Status` | src/Riverside.CommitSharp/Git.cs:168-171 | runs the `status` subcommand |
| `GitArguments.Log` | src/Riverside.CommitSharp/Git.cs:174-177 | runs the `log` subcommand |
| `GitArguments.Branch` | src/Riverside.CommitSharp/Git.cs:180-183 | runs `branch`; the name follows verbatim and ends the string |
| `GitArguments.DeleteBranch` | src/Riverside.CommitSharp/Git.cs:186-189 | runs `branch`, starting `branch -d `; the name follows verbatim |
| `GitArguments.Stash` | src/Riverside.CommitSharp/Git.cs:192-195 | runs the `stash` subcommand |
| `GitArguments.StashApply` | src/Riverside.CommitSharp/Git.cs:198-201 | runs the `stash` subcommand |
| `GitArguments.Diff` | src/Riverside.CommitSharp/Git.cs:204-207 | runs `diff`; the options follow verbatim after one space and end the string |
| `GitArguments.Tag` | src/Riverside.CommitSharp/Git.cs:210-213 | runs `tag`; starts `tag <name> ` and the commit follows verbatim, one space after the name |
| `GitArguments.ListTags` | src/Riverside.CommitSharp/Git.cs:216-219 | runs the `tag` subcommand |
| `GitArguments.CurrentBranch` | src/Riverside.CommitSharp/Git.cs:222-225 | runs the `rev-parse` subcommand |
| `GitArguments.RenameBranch` | src/Riverside.CommitSharp/Git.cs:228-231 | runs `branch`, starting `branch -m <old> `; the new name follows verbatim, one space after the old |
| `GitArguments.Rebase` | src/Riverside.CommitSharp/Git.cs:234-237 | runs `rebase`; the branch follows verbatim |
| `GitArguments.CherryPick` | src/Riverside.CommitSharp/Git.cs:240-243 | runs `cherry-pick`; the commit follows verbatim |
| `GitArguments.Blame` | src/Riverside.CommitSharp/Git.cs:246-249 | runs `blame`; the path follows verbatim |
| `GitArguments.FileHistory` | src/Riverside.CommitSharp/Git.cs:252-255 | runs `log`, starting `log --follow `; the path follows verbatim |
| `GitArguments.ListRemotes` | src/Riverside.CommitSharp/Git.cs:258-261 | runs the `remote` subcommand |
| `GitArguments.AddRemote` | src/Riverside.CommitSharp/Git.cs:264-267 | runs `remote`, starting `remote add <name> `; the URL follows verbatim, one space after the name |
| `GitArguments.RemoveRemote` | src/Riverside.CommitSharp/Git.cs:270-273 | runs `remote`, starting `remote remove `; the name follows verbatim |
| `GitArguments.Prune` | src/Riverside.CommitSharp/Git.cs:276-279 | runs the `prune` subcommand |
| `GitArguments.Clean` | src/Riverside.CommitSharp/Git.cs:282-285 | runs `clean`; always starts `clean ` (separator kept); the rest is `-f` iff forced, and the length is 6 iff not forced |
| `GitArguments.DiffCached` | src/Riverside.CommitSharp/Git.cs:288-291 | runs the `diff` subcommand |
| `GitArguments.DiffHead` | src/Riverside.CommitSharp/Git.cs:294-297 | runs the `diff` subcommand |
| `GitArguments.DiffCommits` | src/Riverside.CommitSharp/Git.cs:300-303 | is `Diff` of the two commits joined by a space; both commits verbatim, in order |
| `GitArguments.FixedCommands` | src/Riverside.CommitSharp/Git.cs:168-225 | the exact constant strings of every parameterless method: `reflog`, `init`, `status`, `log`, `submodule update --init --recursive`, `stash`, `stash apply`, `tag`, `rev-parse --abbrev-ref HEAD`, `remote -v`, `prune`, `diff --cached`, `diff HEAD` |
| `GitArguments.SeparatorKept` | src/Riverside.CommitSharp/Git.cs:282-303 | `Diff("")` is `diff ` and `Clean(false)` is `clean `, each with a trailing space; `Clean(true)` is `clean -f`; `DiffCommits(c1, c2)` is `diff c1 c2` |
| `GitArguments.BisectTokens` | src/Riverside.CommitSharp/Git.cs:61-67 | `good` and `bad` are each appended after one space, only when non-empty, and `good` always comes before `bad` |
| `GitArguments.NullAndEmptyAgree` | src/Riverside.CommitSharp/Git.cs:61-75 | a null optional value and an empty one build the same string in `Bisect`, `AddSubmodule` and `Checkout` |
| `GitArguments.CheckoutNewBranchForgeable` | src/Riverside.CommitSharp/Git.cs:144-149 | without escaping, `checkout "<b> -b <nb>"` and checkout of `<b>` with new branch `<nb>` build the same string |
| `GitArguments.SubmoduleBranchForgeable` | src/Riverside.CommitSharp/Git.cs:70-75 | without escaping, a submodule path ending in ` -b <b>` and an explicit branch `<b>` build the same string |
| `GitArguments.CommitFlagsOrder` | src/Riverside.CommitSharp/Git.cs:118-124 | relative to no flags: `--all` appends ` --all`, `--amend` appends ` --amend`, both append ` --all --amend` |
| `GitArguments.PushFlags` | src/Riverside.CommitSharp/Git.cs:127-133 | false flags give `push <remote> <branch>`; `force` adds ` --force` before any ` --tags`; `tags` appends ` --tags` last; the result is strictly longer iff a flag is set |
| `GitArguments.PullRebaseFlag` | src/Riverside.CommitSharp/Git.cs:136-141 | without `rebase` the string is `pull <remote> <branch>`; with it, that string plus ` --rebase` |
| `GitArguments.MergeNoFastForwardFlag` | src/Riverside.CommitSharp/Git.cs:152-157 | without the flag the string is `merge <branch>`; with it, that string plus ` --no-ff` |
| `GitArguments.ResetModes` | src/Riverside.CommitSharp/Git.cs:160-165 | the default mode gives `reset --mixed <commit>`; `keep` appends ` --keep`; `Reset("abc123", "hard", true)` is `reset --hard abc123 --keep` |
| `GitArguments.FlagsForgeable` | src/Riverside.CommitSharp/Git.cs:127-165 | a branch ending in ` --force` or ` --no-ff`, or a commit ending in ` --keep`, builds the same string as setting that flag |
| `GitArguments.ParseCommit` | src/Riverside.CommitSharp/Git.cs:118-124 | reads a `commit` argument string back into message and flags; a string that reads back starts with `commit -m "` followed by the message |
| `GitArguments.CommitRoundTrip` | src/Riverside.CommitSharp/Git.cs:118-124 | every string `Commit` builds reads back as exactly the message and flags it was built from |
| `GitArguments.ParseCommitSound` | src/Riverside.CommitSharp/Git.cs:118-124 | every string that reads back is exactly what `Commit` builds from the message and flags read |
| `GitArguments.CommitInjective` | src/Riverside.CommitSharp/Git.cs:118-124 | two `commit` strings are equal only when their messages and both flags are equal |
| `GitArguments.QuoteInMessageForgesAmend` | src/Riverside.CommitSharp/Git.cs:118-124 | the message is not escaped: a message `m" --amend "` builds a string that starts with the `--amend` string of message `m` |
| `GitCommand.ExitStatusResult` | src/Riverside.CommitSharp/Git.cs:46-51 | success iff exit code 0; success carries standard output unchanged; failure's message is `Git command failed: ` followed by standard error |
| `GitCommand.FailureDetail` | src/Riverside.CommitSharp/Git.cs:48 | recovers the standard-error text from a failure message; defined exactly on messages with the failure prefix |
| `GitCommand.FailureDetailRoundTrip` | src/Riverside.CommitSharp/Git.cs:46-49 | on a non-zero exit, the failure message gives back exactly the process's standard error |
| `GitCommand.OnlyTheRelevantStreamMatters` | src/Riverside.CommitSharp/Git.cs:41-51 | on failure, standard output and the exit code's value are discarded; on success, standard error is ignored |
| `GitCommand.ExitStatusExamples` | src/Riverside.CommitSharp/Git.cs:46-51 | exit 1 with `boom` on standard error fails with `Git command failed: boom`; exit 0 returns `main\n` with its newline |
| `GitCommand.Git.StartInfo` | src/Riverside.CommitSharp/Git.cs:27-36 | the process is `git`, with the argument string as given, in the repository path, both streams redirected, no shell and no window |
| `GitCommand.Git.ExecuteGitCommand` | src/Riverside.CommitSharp/Git.cs:25-52 | runs the oracle on the start information once: success iff exit 0, with standard output verbatim; otherwise the failure message |
| `GitCommand.Git.Run` | src/Riverside.CommitSharp/Git.cs:55-303 | calling a public method: success iff exit 0, with standard output verbatim; a failure's detail is that run's standard error |
| `GitCommand.RunsInRepository` | src/Riverside.CommitSharp/Git.cs:12-31 | the result of any operation depends only on what `git` does with that argument string in the path given at construction |

`GitCommand.Arguments` is the plain dispatch from an operation to its
builder. It is a helper and carries no contract of its own.

## Left out

- Process spawning: `Process.Start`, `ReadToEnd` on both streams, `WaitForExit` and disposal (Git.cs:27-44). These are OS I/O. The process is an oracle that yields the exit code and the two captured texts. The source reads all of standard output before standard error. That can deadlock when standard error fills its pipe, and it is a concurrency hazard the model cannot express.
- Launch failure: `Process.Start` throws when `git` is missing. The source does not handle this, so the model has no separate error kind for it.
- Exception type: the thrown `InvalidOperationException` is represented only by its message, in `Fail(message)`.
- Null values for the non-nullable `string` parameters: C# interpolation would render them as empty text. The model takes these parameters to be strings, and only the `string?` parameters can be null.
- The capability interfaces (`IVersionControl`, `IBranchManageable` and the others) are declarations only, with no behaviour. Their default parameter values are the ones Git.cs uses, and they are reflected in the lemmas (`DefaultResetMode`, false flags, null optionals).
- Output parsing: the source does none. Output is an opaque string.
- Timeouts, cancellation and structured argument arrays: the source has none of these.
- How `git` or the runtime splits the flat argument string into tokens is not modelled. The lemmas about forged flags are stated on the string itself.

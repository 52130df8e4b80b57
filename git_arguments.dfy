/** The argument strings that `Git` (src/Riverside.CommitSharp/Git.cs) passes to
    the `git` executable, one function per public method. Each builder returns ONE flat, space-joined string, exactly as
    the C# interpolation does: values are inserted verbatim, with no quoting
    or escaping. An optional `string?` token is appended only when it is
    neither null nor empty; a flag token only when its flag is true. */
module GitArguments {
  import opened StringFacts

  /** The literal default of `Reset`'s `mode` parameter. */
  const DefaultResetMode: string := "mixed"

  // ---------------------------------------------------------------------
  // Constant commands: the argument string does not depend on anything.

  function Reflog(): (r: string)
    ensures FirstWord(r) == "reflog"
  {
    FirstWordOf("reflog", "");
    "reflog"
  }

  function UpdateSubmodules(): (r: string)
    ensures FirstWord(r) == "submodule"
  {
    var r := "submodule update --init --recursive";
    LeadingWord("submodule", r);
    r
  }

  function Init(): (r: string)
    ensures FirstWord(r) == "init"
  {
    FirstWordOf("init", "");
    "init"
  }

  function Status(): (r: string)
    ensures FirstWord(r) == "status"
  {
    FirstWordOf("status", "");
    "status"
  }

  function Log(): (r: string)
    ensures FirstWord(r) == "log"
  {
    FirstWordOf("log", "");
    "log"
  }

  function Stash(): (r: string)
    ensures FirstWord(r) == "stash"
  {
    FirstWordOf("stash", "");
    "stash"
  }

  function StashApply(): (r: string)
    ensures FirstWord(r) == "stash"
  {
    var r := "stash apply";
    LeadingWord("stash", r);
    r
  }

  function ListTags(): (r: string)
    ensures FirstWord(r) == "tag"
  {
    FirstWordOf("tag", "");
    "tag"
  }

  function CurrentBranch(): (r: string)
    ensures FirstWord(r) == "rev-parse"
  {
    var r := "rev-parse --abbrev-ref HEAD";
    LeadingWord("rev-parse", r);
    r
  }

  function ListRemotes(): (r: string)
    ensures FirstWord(r) == "remote"
  {
    var r := "remote -v";
    LeadingWord("remote", r);
    r
  }

  function Prune(): (r: string)
    ensures FirstWord(r) == "prune"
  {
    FirstWordOf("prune", "");
    "prune"
  }

  function DiffCached(): (r: string)
    ensures FirstWord(r) == "diff"
  {
    var r := "diff --cached";
    LeadingWord("diff", r);
    r
  }

  function DiffHead(): (r: string)
    ensures FirstWord(r) == "diff"
  {
    var r := "diff HEAD";
    LeadingWord("diff", r);
    r
  }

  // ---------------------------------------------------------------------
  // Single-template commands: the subcommand, then each value verbatim.

  function Archive(commit: string, format: string, outputFile: string): (r: string)
    ensures FirstWord(r) == "archive"
    ensures IsPrefix("archive --format=", r)
    ensures OccursAt(format, r, 17)
    ensures OccursAt(" --output=", r, 17 + |format|)
    ensures OccursAt(outputFile, r, 27 + |format|)
    ensures IsSuffix(" " + commit, r)
    ensures |r| == 28 + |format| + |outputFile| + |commit|
  {
    var r := "archive --format=" + format + " --output=" + outputFile + " " + commit;
    LeadingWord("archive", r);
    assert r == "archive --format=" + format + (" --output=" + outputFile + " " + commit);
    assert r == "archive --format=" + format + " --output=" + outputFile + (" " + commit);
    r
  }

  function Describe(objectName: string): (r: string)
    ensures FirstWord(r) == "describe"
    ensures OccursAt(objectName, r, 9) && |r| == 9 + |objectName|
  {
    var r := "describe " + objectName;
    LeadingWord("describe", r);
    r
  }

  function Clone(repositoryUrl: string, directory: string): (r: string)
    ensures FirstWord(r) == "clone"
    ensures IsPrefix("clone " + repositoryUrl + " ", r)
    ensures OccursAt(repositoryUrl, r, 6) && OccursAt(directory, r, 7 + |repositoryUrl|)
    ensures |r| == 7 + |repositoryUrl| + |directory|
  {
    var r := "clone " + repositoryUrl + " " + directory;
    LeadingWord("clone", r);
    assert r == "clone " + repositoryUrl + (" " + directory);
    r
  }

  function Add(files: string): (r: string)
    ensures FirstWord(r) == "add"
    ensures OccursAt(files, r, 4) && |r| == 4 + |files|
  {
    var r := "add " + files;
    LeadingWord("add", r);
    r
  }

  function Branch(branchName: string): (r: string)
    ensures FirstWord(r) == "branch"
    ensures OccursAt(branchName, r, 7) && |r| == 7 + |branchName|
  {
    var r := "branch " + branchName;
    LeadingWord("branch", r);
    r
  }

  function DeleteBranch(branchName: string): (r: string)
    ensures FirstWord(r) == "branch"
    ensures IsPrefix("branch -d ", r)
    ensures OccursAt(branchName, r, 10) && |r| == 10 + |branchName|
  {
    var r := "branch -d " + branchName;
    LeadingWord("branch", r);
    r
  }

  function Tag(tagName: string, commit: string): (r: string)
    ensures FirstWord(r) == "tag"
    ensures IsPrefix("tag " + tagName + " ", r)
    ensures OccursAt(tagName, r, 4) && OccursAt(commit, r, 5 + |tagName|)
    ensures |r| == 5 + |tagName| + |commit|
  {
    var r := "tag " + tagName + " " + commit;
    LeadingWord("tag", r);
    assert r == "tag " + tagName + (" " + commit);
    r
  }

  function RenameBranch(oldName: string, newName: string): (r: string)
    ensures FirstWord(r) == "branch"
    ensures IsPrefix("branch -m " + oldName + " ", r)
    ensures OccursAt(oldName, r, 10) && OccursAt(newName, r, 11 + |oldName|)
    ensures |r| == 11 + |oldName| + |newName|
  {
    var r := "branch -m " + oldName + " " + newName;
    LeadingWord("branch", r);
    assert r == "branch -m " + oldName + (" " + newName);
    r
  }

  function Rebase(branch: string): (r: string)
    ensures FirstWord(r) == "rebase"
    ensures OccursAt(branch, r, 7) && |r| == 7 + |branch|
  {
    var r := "rebase " + branch;
    LeadingWord("rebase", r);
    r
  }

  function CherryPick(commit: string): (r: string)
    ensures FirstWord(r) == "cherry-pick"
    ensures OccursAt(commit, r, 12) && |r| == 12 + |commit|
  {
    var r := "cherry-pick " + commit;
    LeadingWord("cherry-pick", r);
    r
  }

  function Blame(filePath: string): (r: string)
    ensures FirstWord(r) == "blame"
    ensures OccursAt(filePath, r, 6) && |r| == 6 + |filePath|
  {
    var r := "blame " + filePath;
    LeadingWord("blame", r);
    r
  }

  /** History of one file: a `log` that follows renames. */
  function FileHistory(filePath: string): (r: string)
    ensures FirstWord(r) == "log"
    ensures IsPrefix("log --follow ", r)
    ensures OccursAt(filePath, r, 13) && |r| == 13 + |filePath|
  {
    var r := "log --follow " + filePath;
    LeadingWord("log", r);
    r
  }

  function AddRemote(name: string, url: string): (r: string)
    ensures FirstWord(r) == "remote"
    ensures IsPrefix("remote add " + name + " ", r)
    ensures OccursAt(name, r, 11) && OccursAt(url, r, 12 + |name|)
    ensures |r| == 12 + |name| + |url|
  {
    var r := "remote add " + name + " " + url;
    LeadingWord("remote", r);
    assert r == "remote add " + name + (" " + url);
    r
  }

  function RemoveRemote(name: string): (r: string)
    ensures FirstWord(r) == "remote"
    ensures IsPrefix("remote remove ", r)
    ensures OccursAt(name, r, 14) && |r| == 14 + |name|
  {
    var r := "remote remove " + name;
    LeadingWord("remote", r);
    r
  }

  /** `options` follows `diff ` verbatim; the space is there even when it is empty. */
  function Diff(options: string): (r: string)
    ensures FirstWord(r) == "diff"
    ensures OccursAt(options, r, 5) && |r| == 5 + |options|
  {
    var r := "diff " + options;
    LeadingWord("diff", r);
    r
  }

  /** Delegates to `Diff` with the two commits joined by a space. */
  function DiffCommits(commit1: string, commit2: string): (r: string)
    ensures r == Diff(commit1 + " " + commit2)
    ensures FirstWord(r) == "diff"
    ensures OccursAt(commit1, r, 5) && OccursAt(commit2, r, 6 + |commit1|)
  {
    var r := Diff(commit1 + " " + commit2);
    assert r == "diff " + commit1 + (" " + commit2);
    assert r == "diff " + commit1 + " " + commit2 + "";
    r
  }

  /** The separator after `clean` is written even when the flag is off. */
  function Clean(force: bool): (r: string)
    ensures FirstWord(r) == "clean"
    ensures IsPrefix("clean ", r)
    ensures force <==> r[6..] == "-f"
    ensures !force <==> |r| == 6
  {
    var r := "clean " + (if force then "-f" else "");
    LeadingWord("clean", r);
    r
  }

  // ---------------------------------------------------------------------
  // Builders with optional tokens

  function Bisect(start: string, end: string, good: Option<string>, bad: Option<string>): (r: string)
    ensures FirstWord(r) == "bisect"
    ensures IsPrefix("bisect start " + start + " " + end, r)
    ensures r == "bisect start " + start + " " + end <==> IsNullOrEmpty(good) && IsNullOrEmpty(bad)
  {
    var args0 := "bisect start " + start + " " + end;
    var args1 := if !IsNullOrEmpty(good) then args0 + " " + good.value else args0;
    var args2 := if !IsNullOrEmpty(bad) then args1 + " " + bad.value else args1;
    assert args2[..|args0|] == args0;
    assert args2[..7] == args0[..7] == "bisect ";
    LeadingWord("bisect", args2);
    args2
  }

  function AddSubmodule(url: string, path: string, branch: Option<string>): (r: string)
    ensures FirstWord(r) == "submodule"
    ensures IsPrefix("submodule add " + url + " " + path, r)
    ensures r == "submodule add " + url + " " + path <==> IsNullOrEmpty(branch)
    ensures !IsNullOrEmpty(branch) ==> IsSuffix(" -b " + branch.value, r)
    ensures |r| == 15 + |url| + |path| + (if IsNullOrEmpty(branch) then 0 else 4 + |branch.value|)
  {
    var args := "submodule add " + url + " " + path;
    var r := if !IsNullOrEmpty(branch) then args + " -b " + branch.value else args;
    PrefixOfPrefix(args, r[|args|..], r);
    PrefixOfPrefix("submodule ", "add " + url + " " + path, r);
    LeadingWord("submodule", r);
    r
  }

  function Checkout(branchOrCommit: string, newBranch: Option<string>): (r: string)
    ensures FirstWord(r) == "checkout"
    ensures IsPrefix("checkout " + branchOrCommit, r)
    ensures OccursAt(branchOrCommit, r, 9)
    ensures r == "checkout " + branchOrCommit <==> IsNullOrEmpty(newBranch)
    ensures !IsNullOrEmpty(newBranch) ==> IsSuffix(" -b " + newBranch.value, r)
  {
    var args := "checkout " + branchOrCommit;
    var r := if !IsNullOrEmpty(newBranch) then args + " -b " + newBranch.value else args;
    PrefixOfPrefix(args, r[|args|..], r);
    PrefixOfPrefix("checkout ", branchOrCommit, r);
    LeadingWord("checkout", r);
    assert r[..|args|] == args;
    r
  }

  // ---------------------------------------------------------------------
  // Builders with flag tokens

  function Commit(message: string, all: bool, amend: bool): (r: string)
    ensures FirstWord(r) == "commit"
    ensures IsPrefix("commit -m \"" + message + "\"", r)
    ensures OccursAt(message, r, 11)
    ensures |r| == 12 + |message| + (if all then 6 else 0) + (if amend then 8 else 0)
  {
    var args0 := "commit -m \"" + message + "\"";
    var args1 := if all then args0 + " --all" else args0;
    var args2 := if amend then args1 + " --amend" else args1;
    PrefixOfPrefix(args0, args1[|args0|..], args1);
    PrefixOfPrefix(args0, args2[|args0|..], args2);
    PrefixOfPrefix("commit ", "-m \"" + message + "\"", args2);
    LeadingWord("commit", args2);
    assert args2[..|args0|] == args0;
    args2
  }

  function Push(remote: string, branch: string, force: bool, tags: bool): (r: string)
    ensures FirstWord(r) == "push"
    ensures IsPrefix("push " + remote + " " + branch, r)
    ensures OccursAt(remote, r, 5) && OccursAt(branch, r, 6 + |remote|)
    ensures |r| == 6 + |remote| + |branch| + (if force then 8 else 0) + (if tags then 7 else 0)
  {
    var args0 := "push " + remote + " " + branch;
    var args1 := if force then args0 + " --force" else args0;
    var args2 := if tags then args1 + " --tags" else args1;
    var flags := (if force then " --force" else "") + (if tags then " --tags" else "");
    assert args2 == args0 + flags;
    TwoValues("push", "push ", remote, branch, flags);
    args2
  }

  function Pull(remote: string, branch: string, rebase: bool): (r: string)
    ensures FirstWord(r) == "pull"
    ensures IsPrefix("pull " + remote + " " + branch, r)
    ensures OccursAt(remote, r, 5) && OccursAt(branch, r, 6 + |remote|)
    ensures |r| == 6 + |remote| + |branch| + (if rebase then 9 else 0)
  {
    var args := "pull " + remote + " " + branch;
    var r := if rebase then args + " --rebase" else args;
    assert r == args + (if rebase then " --rebase" else "");
    TwoValues("pull", "pull ", remote, branch, if rebase then " --rebase" else "");
    r
  }

  function Merge(branch: string, noFastForward: bool): (r: string)
    ensures FirstWord(r) == "merge"
    ensures IsPrefix("merge " + branch, r)
    ensures OccursAt(branch, r, 6)
    ensures |r| == 6 + |branch| + (if noFastForward then 8 else 0)
  {
    var args := "merge " + branch;
    var r := if noFastForward then args + " --no-ff" else args;
    PrefixOfPrefix(args, r[|args|..], r);
    PrefixOfPrefix("merge ", branch, r);
    LeadingWord("merge", r);
    assert r[..|args|] == args;
    r
  }

  function Reset(commit: string, mode: string, keep: bool): (r: string)
    ensures FirstWord(r) == "reset"
    ensures IsPrefix("reset --" + mode + " " + commit, r)
    ensures OccursAt(mode, r, 8) && OccursAt(commit, r, 9 + |mode|)
    ensures |r| == 9 + |mode| + |commit| + (if keep then 7 else 0)
  {
    var args := "reset --" + mode + " " + commit;
    var r := if keep then args + " --keep" else args;
    PrefixOfPrefix(args, r[|args|..], r);
    PrefixOfPrefix("reset ", "--" + mode + " " + commit, r);
    LeadingWord("reset", r);
    assert r[..|args|] == args;
    assert args == "reset --" + mode + (" " + commit);
    r
  }

  // ---------------------------------------------------------------------
  // Properties of the constant and single-template builders

  /** The parameterless commands pass these constant strings. */
  lemma FixedCommands()
    ensures Reflog() == "reflog" && Init() == "init" && Status() == "status" && Log() == "log"
    ensures UpdateSubmodules() == "submodule update --init --recursive"
    ensures Stash() == "stash" && StashApply() == "stash apply"
    ensures ListTags() == "tag" && CurrentBranch() == "rev-parse --abbrev-ref HEAD"
    ensures ListRemotes() == "remote -v" && Prune() == "prune"
    ensures DiffCached() == "diff --cached" && DiffHead() == "diff HEAD"
  {
  }

  /** `Diff` and `Clean` keep the space after the subcommand when their
      argument is empty or off; `DiffCommits` is `diff`, the two commits. */
  lemma SeparatorKept(commit1: string, commit2: string)
    ensures Diff("") == "diff "
    ensures Clean(false) == "clean " && Clean(true) == "clean -f"
    ensures DiffCommits(commit1, commit2) == "diff " + commit1 + " " + commit2
  {
  }

  // ---------------------------------------------------------------------
  // Properties of the optional-token builders

  /** `good` and `bad` are each appended after one space, `good` first, and
      each only when present and non-empty. */
  lemma BisectTokens(start: string, end: string, good: Option<string>, bad: Option<string>)
    ensures var base := "bisect start " + start + " " + end;
      && (!IsNullOrEmpty(good) && !IsNullOrEmpty(bad) ==> Bisect(start, end, good, bad) == base + " " + good.value + " " + bad.value)
      && (!IsNullOrEmpty(good) && IsNullOrEmpty(bad) ==> Bisect(start, end, good, bad) == base + " " + good.value)
      && (IsNullOrEmpty(good) && !IsNullOrEmpty(bad) ==> Bisect(start, end, good, bad) == base + " " + bad.value)
  {
  }

  /** A null optional value and an empty one build the same string. */
  lemma NullAndEmptyAgree(a: string, b: string, other: Option<string>)
    ensures Bisect(a, b, None, other) == Bisect(a, b, Some(""), other)
    ensures Bisect(a, b, other, None) == Bisect(a, b, other, Some(""))
    ensures AddSubmodule(a, b, None) == AddSubmodule(a, b, Some(""))
    ensures Checkout(a, None) == Checkout(a, Some(""))
  {
  }

  /** The builders do not escape: a branch or commit name that itself holds
      ` -b <name>` builds the same string as passing `<name>` as the new branch. */
  lemma CheckoutNewBranchForgeable(branchOrCommit: string, newBranch: string)
    requires newBranch != ""
    ensures Checkout(branchOrCommit + " -b " + newBranch, None) == Checkout(branchOrCommit, Some(newBranch))
  {
  }

  /** The same holds for a submodule's branch: a path ending in ` -b <b>`
      builds the string of an explicit branch `b`. */
  lemma SubmoduleBranchForgeable(url: string, path: string, branch: string)
    requires branch != ""
    ensures AddSubmodule(url, path + " -b " + branch, None) == AddSubmodule(url, path, Some(branch))
  {
  }

  // ---------------------------------------------------------------------
  // Properties of the flag builders

  /** `--all` is appended before `--amend`. */
  lemma CommitFlagsOrder(message: string)
    ensures Commit(message, true, true) == Commit(message, false, false) + " --all --amend"
    ensures Commit(message, true, false) == Commit(message, false, false) + " --all"
    ensures Commit(message, false, true) == Commit(message, false, false) + " --amend"
  {
  }

  /** A false flag leaves the string unchanged; a true flag adds its fixed
      token, so the result is strictly longer. `--force` comes before
      `--tags`, and `--tags` is always last. */
  lemma PushFlags(remote: string, branch: string, force: bool, tags: bool)
    ensures Push(remote, branch, false, false) == "push " + remote + " " + branch
    ensures Push(remote, branch, true, tags) == Push(remote, branch, false, false) + " --force" + (if tags then " --tags" else "")
    ensures Push(remote, branch, force, true) == Push(remote, branch, force, false) + " --tags"
    ensures |Push(remote, branch, force, tags)| > |Push(remote, branch, false, false)| <==> force || tags
  {
  }

  lemma PullRebaseFlag(remote: string, branch: string)
    ensures Pull(remote, branch, false) == "pull " + remote + " " + branch
    ensures Pull(remote, branch, true) == Pull(remote, branch, false) + " --rebase"
  {
  }

  lemma MergeNoFastForwardFlag(branch: string)
    ensures Merge(branch, false) == "merge " + branch
    ensures Merge(branch, true) == Merge(branch, false) + " --no-ff"
  {
  }

  /** With the default mode the command is a mixed reset; `--keep` is
      appended after the commit. */
  lemma ResetModes(commit: string, mode: string)
    ensures Reset(commit, DefaultResetMode, false) == "reset --mixed " + commit
    ensures Reset(commit, mode, true) == Reset(commit, mode, false) + " --keep"
    ensures Reset("abc123", "hard", true) == "reset --hard abc123 --keep"
  {
    assert "reset --" + "hard" + " " + "abc123" + " --keep" == "reset --hard abc123 --keep";
  }

  /** A value that itself ends in a flag token builds the same string as the
      flag: the flat string cannot tell the two apart. */
  lemma FlagsForgeable(remote: string, branch: string, commit: string, mode: string, tags: bool)
    ensures Push(remote, branch + " --force", false, tags) == Push(remote, branch, true, tags)
    ensures Reset(commit + " --keep", mode, false) == Reset(commit, mode, true)
    ensures Merge(branch + " --no-ff", false) == Merge(branch, true)
  {
  }

  // ---------------------------------------------------------------------
  // Commit strings are decodable: unlike the other builders, the closing
  // double quote separates the message from the flags. This holds for the
  // string only: a message that itself contains a double quote closes the
  // quoted argument early once the string is split into arguments
  // (`QuoteInMessageForgesAmend`).

  /** A message `m" --amend "` builds `commit -m "m" --amend ""`, which
      starts with the string of message `m` with `--amend` set. */
  lemma QuoteInMessageForgesAmend(m: string)
    ensures IsPrefix(Commit(m, false, true), Commit(m + "\" --amend \"", false, false))
  {
  }

  datatype CommitArgs = CommitArgs(message: string, all: bool, amend: bool)

  /** Reads back the message and flags from a `commit` argument string, or
      `None` when the string is not one `Commit` builds. */
  function ParseCommit(s: string): (p: Option<CommitArgs>)
    ensures p.Some? ==> IsPrefix("commit -m \"", s) && IsPrefix(p.value.message, s[11..])
  {
    var amend := IsSuffix(" --amend", s);
    var rest1 := if amend then s[..|s| - 8] else s;
    var all := IsSuffix(" --all", rest1);
    var rest2 := if all then rest1[..|rest1| - 6] else rest1;
    if |rest2| >= 12 && IsPrefix("commit -m \"", rest2) && rest2[|rest2| - 1] == '"' then
      assert rest2 == s[..|rest2|];
      assert rest2[11..|rest2| - 1] == s[..|rest2|][11..|rest2| - 1] == s[11..|rest2| - 1];
      assert s[11..][..|rest2| - 12] == s[11..|rest2| - 1];
      Some(CommitArgs(rest2[11..|rest2| - 1], all, amend))
    else
      None
  }

  /** Every string `Commit` builds reads back as the message and flags it
      was built from. */
  lemma CommitRoundTrip(message: string, all: bool, amend: bool)
    ensures ParseCommit(Commit(message, all, amend)) == Some(CommitArgs(message, all, amend))
  {
    var base := "commit -m \"" + message + "\"";
    var withAll := if all then base + " --all" else base;
    var s := Commit(message, all, amend);
    assert s == if amend then withAll + " --amend" else withAll;
    if amend {
      assert s[..|s| - 8] == withAll;
    } else {
      assert s[|s| - 1] != 'd';
      assert " --amend"[7] == 'd';
    }
    if all {
      assert withAll[..|withAll| - 6] == base;
    } else {
      assert withAll[|withAll| - 1] != 'l';
      assert " --all"[5] == 'l';
    }
    assert base[11..|base| - 1] == message;
  }

  /** Every string that reads back is the string `Commit` builds from what
      it reads back as: `ParseCommit` and `Commit` are mutually inverse. */
  lemma ParseCommitSound(s: string)
    requires ParseCommit(s).Some?
    ensures var c := ParseCommit(s).value; Commit(c.message, c.all, c.amend) == s
  {
  }

  /** Hence two `commit` strings are equal only when message and flags are. */
  lemma CommitInjective(m1: string, all1: bool, amend1: bool, m2: string, all2: bool, amend2: bool)
    requires Commit(m1, all1, amend1) == Commit(m2, all2, amend2)
    ensures m1 == m2 && all1 == all2 && amend1 == amend2
  {
    CommitRoundTrip(m1, all1, amend1);
    CommitRoundTrip(m2, all2, amend2);
  }
}

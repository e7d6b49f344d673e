# merge-pr, modelled in Dafny

`merge-pr` merges an approved, CI-green GitHub pull request into `main` while
keeping history linear. It resolves which branch to merge, asks `gh` for the
review decision and the status-check rollup, and refuses unless the PR is
approved and, unless `--ignore-ci` is given, the joined names of the check
runs that did not succeed form an empty string (so with named checks every
check run must have succeeded). It then fetches and rebases the
branch onto `origin/main`, aborting the rebase if it fails. It force-pushes
the branch when its SHA differs from that of `origin/<branch>`, checks out `main`, merges
fast-forward only, and pushes `main`, retrying that push once after a pause.

The model covers the decision skeleton of `src/main.rs`:

- `status.dfy` (`StatusModel`): a status-rollup entry, `is_check_run`,
  `is_successy` and `is_approved`.
- `ci.dfy` (`Ci`): the CI gate. It filters the check runs that are not
  successful, joins their names with `", "`, and fails when the joined string
  is not empty. The gate tests the string, not the count, so a single blocking
  run with an empty name lets the gate through. `GatePassesIff` states this
  exactly, and `GateWithNamedChecks` gives the plain rule for named checks.
- `strings.dfy` (`Strings`): the join, plus a split at `", "` that undoes it.
  The split shows that a CI failure message lists exactly the blocking runs.
- `u64_parse.dfy` (`U64Parse`): what `str::parse::<u64>` accepts. That is an
  optional `+`, then one or more ASCII digits (leading zeros allowed), with a
  value of at most 2^64 - 1. `ParseU64Iff` characterises the accepted strings
  completely.
- `resolve.dfy` (`Resolve`): the match that turns the optional argument and
  the current branch into the branch to merge.
- `git.dfy` (`Git`): the commands of the protocol, and a `Shell` class that
  records every command it issues. Git's behaviour is an oracle: the reply to
  the k-th recorded command is `replies(k)`. The pause before the second push
  is recorded as `Sleep`, and its oracle slot is unused.
- `protocol.dfy` (`MergeProtocol`): the git protocol as a function from the
  branch and the oracle to the issued commands and the outcome, with lemmas
  on the order, the abort, the force-push and the retry.
- `merge.dfy` (`Merge`): the whole run (`Gates`, `Run`) and `MergePr`, which
  performs it step by step through a `Shell` and is proved equal to `Run`.
- `errors.dfy` (`Errors`) and `wrappers.dfy` (`Wrappers`): one error per
  failure the model distinguishes, and `Option`/`Result`/`Outcome`.

The read-only queries are inputs in a `World` record. They are
`git branch --show-current` and the two `gh pr view` calls, each taken as
already parsed. The trace records the commands from `git fetch` on.

The model follows `src/main.rs`. A conclusion of `NEUTRAL` does not count as
success. The CI state has two values (successful or not) rather than three.
The source has no fork remotes, CI polling, dry run, check for a diverged
branch before the rebase, pause after the force-push, or branch deletion.

## Model

| member | source | states |
|---|---|---|
| `StatusModel.IsCheckRun` | src/main.rs:48-50 | definition: the entry's `__typename` is "CheckRun"; no contract of its own |
| `StatusModel.IsSuccessy` | src/main.rs:52-54 | definition: status COMPLETED and conclusion SUCCESS or SKIPPED; no contract of its own, its consequences are stated by `NonSuccessyExamples` and `Ci.GateOnRawFields` |
| `StatusModel.IsApproved` | src/main.rs:65-67 | definition: the review decision is exactly "APPROVED"; no contract of its own, its consequences are stated by `Merge.NotApprovedIssuesNothing` and `Merge.ProtocolOnlyWhenApproved` |
| `Ci.Blocks` | src/main.rs:120 | definition: the filter of the gate, a check run that is not successful; no contract of its own |
| `Ci.NonSuccessNames` | src/main.rs:117-121 | the filter and map: the names of the blocking entries in rollup order; its contract only bounds their number by the rollup's length, and the lemmas below state which names |
| `Ci.Gate` | src/main.rs:116-126 | definition: Pass when CI is ignored, otherwise Fail(CiFailed(joined names)) when the joined names are not empty; no contract of its own, see `GatePassesIff`, `GateWithNamedChecks` and `GateFailureListsBlocking` |
| `Strings.Join` | src/main.rs:122 | definition of `Itertools::join`: the parts with the separator between consecutive ones; no contract of its own, see `JoinEmptyIff` and `SplitJoin` |
| `Resolve.ResolveBranch` | src/main.rs:81-100 | definition of the match on (argument, current branch); no contract of its own, see the `Resolve` lemmas below |
| `MergeProtocol.Protocol` | src/main.rs:129-139 | definition: fetch, checkout, rebase (abort on failure), then `SyncRemote`; no contract of its own, see the `MergeProtocol` lemmas below |
| `MergeProtocol.SyncRemote` | src/main.rs:143-153 | definition: rev-parse of the branch and of `origin/<branch>`, force-push when the outputs differ, then `MergeAndPush`; no contract of its own |
| `MergeProtocol.MergeAndPush` | src/main.rs:156-178 | definition: checkout main, ff-only merge, push, and on failure a pause and one more push; no contract of its own |
| `Merge.Gates` | src/main.rs:76-126 | definition: current branch, resolution, status query, approval and CI gate, giving the branch to merge or the first error; no contract of its own, see `GatesPassed` and `GitOnlyAfterGates` |
| `Merge.Run` | src/main.rs:70-179 | definition: no command when a gate fails, the protocol otherwise; no contract of its own, `MergePr` is proved equal to it |
| `StatusModel.NonSuccessyExamples` | src/main.rs:52-54 | NEUTRAL, FAILURE, CANCELLED, TIMED_OUT, ACTION_REQUIRED and empty conclusions, and queued or in-progress statuses, are never successful |
| `Ci.NonSuccessNamesAppend` | src/main.rs:117-121 | the listed names of a concatenated rollup are the concatenation of the listed names: order is kept, and each entry is judged on its own |
| `Ci.NonSuccessNamesEmptyIff` | src/main.rs:117-121 | no name is listed iff no entry is a non-successful check run |
| `Ci.NonSuccessNamesFromBlocking` | src/main.rs:117-121 | every listed name is the name of some non-successful check run |
| `Ci.NonSuccessNamesListsBlocking` | src/main.rs:117-121 | conversely, the name of every non-successful check run is listed |
| `Ci.GateOnRawFields` | src/main.rs:48-54 | with named checks, the CI gate passes iff every entry whose `__typename` is "CheckRun" has status COMPLETED and conclusion SUCCESS or SKIPPED |
| `Ci.GatePassesIff` | src/main.rs:116-126 | the gate passes iff no check run blocks, or exactly one blocks and its name is empty |
| `Ci.GateWithNamedChecks` | src/main.rs:116-126 | when all names are non-empty, the gate passes iff no check run is non-successful, wherever it stands in the rollup |
| `Ci.OnlyCheckRunsBlock` | src/main.rs:48-50 | a rollup with no CheckRun entries passes the gate |
| `Ci.GateFailureListsBlocking` | src/main.rs:117-124 | a failing gate reports the joined names, and splitting them at ", " gives back exactly the blocking check runs in rollup order |
| `Ci.IgnoredGatePasses` | src/main.rs:116 | with CI ignored the gate passes and does not depend on the rollup |
| `Ci.EmptyNameSlipsThrough` | src/main.rs:117-125 | one in-progress check run with an empty name passes the gate |
| `Strings.JoinEmptyIff` | src/main.rs:122-123 | a join with a non-empty separator is empty iff there are no parts or one empty part |
| `Strings.SplitJoin` | src/main.rs:122 | splitting at ", " undoes joining with ", " for one or more parts that do not contain ", " |
| `U64Parse.ParseU64` | src/main.rs:85 | a parsed value never exceeds 2^64 - 1 |
| `U64Parse.ParseU64Iff` | src/main.rs:85 | a string parses to n iff n fits in 64 bits and the string is an optional "+", some zeros, then the decimal rendering of n |
| `U64Parse.ParseDecimal` | src/main.rs:85 | the decimal rendering of a u64, with or without a leading "+", parses back to it |
| `U64Parse.ParseOverflow` | src/main.rs:85 | a value of 2^64 or more is rejected, with or without leading zeros or a "+" |
| `U64Parse.ParseRejectsSigns` | src/main.rs:85 | the empty string, a lone "+", a "-" sign and a doubled "+" are rejected |
| `Resolve.ResolveWithoutToken` | src/main.rs:81-83 | with no argument the run fails iff the current branch is main; on any other branch that branch is used |
| `Resolve.ResolveNumber` | src/main.rs:84-95 | a u64-parsable argument resolves iff the lookup returns a headRefName, and then to that name |
| `Resolve.ResolveName` | src/main.rs:96-98 | an argument that does not parse as a u64 is used verbatim |
| `Resolve.LookupOnlyForNumbers` | src/main.rs:84-99 | the head-branch lookup is consulted only for a u64-parsable argument, and only with that argument |
| `Resolve.ResolveExamples` | src/main.rs:81-100 | "42" resolves through the lookup; "+42" and "0042" are PR numbers; "-42", "42a" and "feature" are used verbatim |
| `Git.Shell.constructor` | src/main.rs:72 | a new shell has issued nothing and answers from the given oracle |
| `Git.Shell.Exec` | src/main.rs:129-133 | running a command appends it to the trace and returns the oracle's reply for its position |
| `Git.Shell.Pause` | src/main.rs:171-172 | the pause before the retry is recorded in the trace |
| `MergeProtocol.ProtocolCases` | src/main.rs:129-178 | the exact trace for each combination of replies |
| `MergeProtocol.ProtocolFollowsPlan` | src/main.rs:128-178 | the commands are a prefix of fetch, checkout, rebase, rev-parse twice, optional force-push, checkout main, ff-only merge, push and optional pause and push; the only other trace is fetch, checkout, rebase, abort |
| `MergeProtocol.RebaseFailureAborts` | src/main.rs:133-139 | `git rebase --abort` is issued iff the rebase failed; then it is the last command and the run fails |
| `MergeProtocol.ForcePushIff` | src/main.rs:141-153 | the force-push is issued iff all earlier steps succeeded and the branch SHA differs from the origin branch SHA |
| `MergeProtocol.FirstFailureStops` | src/main.rs:129-176 | a failed command is the last one issued, except a failed rebase, followed only by its abort, and a failed first push, followed only by the pause and the retry |
| `MergeProtocol.PushAtMostTwice` | src/main.rs:169-176 | of any two pushes, the first failed, and the second follows it after exactly a pause; so there are at most two |
| `MergeProtocol.PlanPushes` | src/main.rs:156-176 | in the planned order, a push stands only right after the merge and, when retried, two places later |
| `MergeProtocol.ProtocolOutcome` | src/main.rs:129-178 | success iff the last command is a push that succeeded; failure naming the last command iff it failed; the rebase-conflict error iff the rebase was aborted cleanly |
| `Merge.MergePr` | src/main.rs:70-179 | the step-by-step run issues exactly the commands of `Run` and ends with its outcome |
| `Merge.Execute` | src/main.rs:128-139 | from a fresh shell, fetch, checkout and rebase (or abort) issue the protocol's commands and end with its outcome |
| `Merge.SyncBranch` | src/main.rs:141-153 | the two rev-parses and the conditional force-push extend the trace as the protocol says |
| `Merge.FinishMerge` | src/main.rs:155-178 | checkout of main, ff-only merge and push with one retry extend the trace as the protocol says |
| `Merge.GitOnlyAfterGates` | src/main.rs:102-129 | protocol commands (from `git fetch` on) are issued iff the current branch was read, the branch resolved, the status was read, the PR is approved and the CI gate passed |
| `Merge.GatesPassed` | src/main.rs:103-126 | a branch that passes the gates is the resolved branch, is approved and, unless CI is ignored, passed the CI gate |
| `Merge.NotApprovedIssuesNothing` | src/main.rs:112-114 | an unapproved PR fails with NotApproved before any protocol command (from `git fetch` on) |
| `Merge.ProtocolOnlyWhenApproved` | src/main.rs:65-67 | if any protocol command is issued, the review decision `gh` reported for the resolved branch is exactly "APPROVED" |
| `Merge.IgnoreCiIgnoresRollup` | src/main.rs:116-126 | with CI ignored, replacing every rollup leaves the run unchanged |
| `Merge.HappyPath` | src/main.rs:128-178 | with all commands succeeding and equal SHAs, the run issues the plan without force-push or retry and succeeds |
| `Merge.PushRetried` | src/main.rs:169-176 | a first push that fails and a retry that succeeds give the plan with the pause and the second push, and success |

## Left out

- Creating the shell (`Shell::new()?`) cannot fail in the model; that error
  path is left out, since it only depends on the process environment.
- Argument parsing (clap) is not modelled: the parsed values are inputs (`Args`).
- The push-retry interval is not modelled. It is a floating-point number of
  seconds, and the model only records that a pause happens.
- The check that `git` and `gh` are installed (`ensure_tool`) is not
  modelled; it only probes processes.
- Process execution and output capture (xshell) are replaced by the oracle.
  Rev-parse output is the captured string; `read()` trims trailing whitespace,
  and that trimming is not modelled.
- JSON parsing (serde) is not modelled: query answers are taken already
  parsed. A failed parse is a failed query (`HeadRefQueryFailed`,
  `StatusUnavailable`). A rollup entry whose `name`, `status` or `conclusion`
  is missing fails the real parse; the model only sees entries that have all
  four fields.
- Messages are not modelled: errors are `MergeError` values. The message
  texts, the `anyhow` context chains and the `println!` before the retry are
  left out.
- Git itself is not modelled: what fetch, rebase, merge and push do to
  history is not modelled, only their success or failure and the SHAs.
- `NonSuccessNames` only bounds the number of names in its own contract.
  Which names it lists, and in what order, is stated by `NonSuccessNamesAppend`,
  `NonSuccessNamesEmptyIff`, `NonSuccessNamesFromBlocking` and
  `NonSuccessNamesListsBlocking`.

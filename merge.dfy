/** One run of the tool: find the branch, check approval and CI, then run the
    git protocol. The parsed command line, the answers of the read-only
    queries and the replies of the git commands are inputs. */
module Merge {
  import opened Wrappers
  import opened Git
  import opened Errors
  import opened StatusModel
  import opened Ci
  import opened Resolve
  import opened MergeProtocol

  /** The parsed command line (the push-retry interval is not modelled). */
  datatype Args = Args(branchOrPrNumber: Option<string>, ignoreCi: bool)

  /** What the outside world answers. */
  datatype World = World(
    currentBranch: Option<string>,         // `git branch --show-current`, None if it failed
    headRefOf: string -> HeadRefReply,     // `gh pr view <token> --json headRefName`
    statusOf: string -> Option<Status>,    // `gh pr view <branch> --json reviewDecision,statusCheckRollup`
    git: nat -> Reply)                     // the reply to the k-th command of the protocol

  /** Everything before the first git command that changes anything: the
      branch to merge, or the error that stops the run. */
  function Gates(args: Args, w: World): Result<string, MergeError>
  {
    if w.currentBranch.None? then Err(CurrentBranchUnavailable)
    else
      match ResolveBranch(args.branchOrPrNumber, w.currentBranch.value, w.headRefOf)
      case Err(e) => Err(e)
      case Ok(b) =>
        match w.statusOf(b)
        case None => Err(StatusUnavailable(b))
        case Some(s) =>
          if !IsApproved(s) then Err(NotApproved(b))
          else
            match Gate(s.statusCheckRollup, args.ignoreCi)
            case Fail(e) => Err(e)
            case Pass => Ok(b)
  }

  /** The whole run: no command at all when a gate stops it, the protocol otherwise. */
  function Run(args: Args, w: World): Transcript
  {
    match Gates(args, w)
    case Err(e) => Transcript([], Fail(e))
    case Ok(b) => Protocol(b, w.git)
  }

  /** The run, step by step, through a shell that records what it issues. */
  method MergePr(args: Args, w: World) returns (issued: seq<Command>, outcome: Outcome<MergeError>)
    ensures Transcript(issued, outcome) == Run(args, w)
  {
    if w.currentBranch.None? {
      return [], Fail(CurrentBranchUnavailable);
    }
    var resolved := ResolveBranch(args.branchOrPrNumber, w.currentBranch.value, w.headRefOf);
    if resolved.Err? {
      return [], Fail(resolved.error);
    }
    var branch := resolved.value;

    var status := w.statusOf(branch);
    if status.None? {
      return [], Fail(StatusUnavailable(branch));
    }
    if !IsApproved(status.value) {
      return [], Fail(NotApproved(branch));
    }
    var ci := Gate(status.value.statusCheckRollup, args.ignoreCi);
    if ci.Fail? {
      return [], Fail(ci.error);
    }

    var sh := new Shell(w.git);
    outcome := Execute(sh, branch);
    issued := sh.issued;
  }

  /** The git commands from `git fetch` on, through a fresh shell. */
  method Execute(sh: Shell, branch: string) returns (outcome: Outcome<MergeError>)
    requires sh.issued == []
    modifies sh
    ensures Transcript(sh.issued, outcome) == Protocol(branch, sh.replies)
  {
    var r := sh.Exec(Fetch);
    assert sh.issued == [Fetch] && r == sh.replies(0);
    if r.Failed? {
      return Fail(CommandFailed(Fetch));
    }
    r := sh.Exec(Checkout(branch));
    assert sh.issued == [Fetch, Checkout(branch)] && r == sh.replies(1);
    if r.Failed? {
      return Fail(CommandFailed(Checkout(branch)));
    }
    r := sh.Exec(Rebase(OriginMain));
    ghost var rebased := sh.issued;
    assert rebased == [Fetch, Checkout(branch), Rebase(OriginMain)] && r == sh.replies(2);
    if r.Failed? {
      r := sh.Exec(RebaseAbort);
      assert sh.issued == rebased + [RebaseAbort] && r == sh.replies(3);
      if r.Failed? {
        return Fail(CommandFailed(RebaseAbort));
      }
      return Fail(RebaseConflict(branch));
    }
    outcome := SyncBranch(sh, branch);
  }

  /** Reads the branch's SHA and its remote copy's, and force-pushes when they
      differ, after whatever the shell has issued so far; then merges. */
  method SyncBranch(sh: Shell, branch: string) returns (outcome: Outcome<MergeError>)
    modifies sh
    ensures Transcript(sh.issued, outcome) == SyncRemote(branch, sh.replies, old(sh.issued))
  {
    var branchSha := sh.Exec(RevParse(branch));
    if branchSha.Failed? {
      return Fail(CommandFailed(RevParse(branch)));
    }
    var remoteBranchSha := sh.Exec(RevParse(Remote(branch)));
    if remoteBranchSha.Failed? {
      return Fail(CommandFailed(RevParse(Remote(branch))));
    }
    if branchSha.stdout != remoteBranchSha.stdout {
      var r := sh.Exec(ForcePush);
      if r.Failed? {
        return Fail(CommandFailed(ForcePush));
      }
    }
    outcome := FinishMerge(sh, branch);
  }

  /** Checkout of main, fast-forward merge and push with one retry, after
      whatever the shell has issued so far. */
  method FinishMerge(sh: Shell, branch: string) returns (outcome: Outcome<MergeError>)
    modifies sh
    ensures Transcript(sh.issued, outcome) == MergeAndPush(branch, sh.replies, old(sh.issued))
  {
    var r := sh.Exec(Checkout(MainBranch));
    if r.Failed? {
      return Fail(CommandFailed(Checkout(MainBranch)));
    }
    r := sh.Exec(MergeFastForward(branch));
    if r.Failed? {
      return Fail(CommandFailed(MergeFastForward(branch)));
    }

    r := sh.Exec(Push);
    if r.Failed? {
      sh.Pause();
      r := sh.Exec(Push);
      if r.Failed? {
        return Fail(CommandFailed(Push));
      }
    }
    return Pass;
  }

  /** The protocol (from `git fetch` on) issues anything exactly when every
      gate passed; `git branch --show-current` is a query that always runs first. */
  lemma GitOnlyAfterGates(args: Args, w: World)
    ensures Run(args, w).commands != [] <==> Gates(args, w).Ok?
  {
    if Gates(args, w).Ok? {
      ProtocolFollowsPlan(Gates(args, w).value, w.git);
    }
  }

  /** The gates that let a branch through: it is the resolved branch, its
      review decision is APPROVED and, unless CI is ignored, the CI gate passed. */
  lemma GatesPassed(args: Args, w: World)
    requires Gates(args, w).Ok?
    ensures var b := Gates(args, w).value;
            w.currentBranch.Some? &&
            ResolveBranch(args.branchOrPrNumber, w.currentBranch.value, w.headRefOf) == Ok(b) &&
            w.statusOf(b).Some? && IsApproved(w.statusOf(b).value) &&
            (args.ignoreCi || Gate(w.statusOf(b).value.statusCheckRollup, false).Pass?)
  {
  }

  /** A pull request that is not approved stops the run before any protocol
      command (from `git fetch` on). */
  lemma NotApprovedIssuesNothing(args: Args, w: World, b: string)
    requires w.currentBranch.Some?
    requires ResolveBranch(args.branchOrPrNumber, w.currentBranch.value, w.headRefOf) == Ok(b)
    requires w.statusOf(b).Some? && !IsApproved(w.statusOf(b).value)
    ensures Run(args, w) == Transcript([], Fail(NotApproved(b)))
  {
  }

  /** Any protocol command implies that the review decision of the resolved
      branch, as `gh` reported it, is exactly "APPROVED". */
  lemma ProtocolOnlyWhenApproved(args: Args, w: World)
    requires Run(args, w).commands != []
    ensures w.currentBranch.Some?
    ensures var r := ResolveBranch(args.branchOrPrNumber, w.currentBranch.value, w.headRefOf);
            r.Ok? && w.statusOf(r.value).Some? && w.statusOf(r.value).value.reviewDecision == "APPROVED"
  {
    GitOnlyAfterGates(args, w);
    GatesPassed(args, w);
  }

  /** The status with its rollup replaced. */
  function WithRollup(s: Option<Status>, rollup: seq<StatusCheck>): Option<Status>
  {
    match s
    case None => None
    case Some(st) => Some(st.(statusCheckRollup := rollup))
  }

  /** With CI ignored, the rollup is never consulted: any other rollups give
      the same run. */
  lemma IgnoreCiIgnoresRollup(args: Args, w: World, other: string -> seq<StatusCheck>)
    requires args.ignoreCi
    ensures Run(args, w) == Run(args, w.(statusOf := b => WithRollup(w.statusOf(b), other(b))))
  {
  }

  /** An approved pull request with green checks and a clean history: fetch,
      checkout, rebase, two rev-parses, no force-push, checkout main, merge,
      one push, and success. */
  lemma HappyPath(args: Args, w: World, b: string)
    requires Gates(args, w) == Ok(b)
    requires forall k :: 0 <= k < 8 ==> w.git(k).Succeeded?
    requires w.git(3).stdout == w.git(4).stdout
    ensures Run(args, w) == Transcript(Plan(b, false, false), Pass)
  {
  }

  /** The first push of main fails and the retry succeeds: the run pauses,
      pushes again and succeeds. */
  lemma PushRetried(args: Args, w: World, b: string)
    requires Gates(args, w) == Ok(b)
    requires forall k :: 0 <= k < 7 ==> w.git(k).Succeeded?
    requires w.git(3).stdout == w.git(4).stdout
    requires w.git(7).Failed? && w.git(9).Succeeded?
    ensures Run(args, w) == Transcript(Plan(b, false, true), Pass)
  {
  }
}

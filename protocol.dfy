/** The git side of a merge, as a pure function of the branch and of the
    replies the commands get: fetch, check out the branch, rebase it onto
    origin/main (aborting the rebase if it fails), compare the branch with
    its remote copy and force-push when they differ, check out main, merge
    fast-forward only, and push, retrying the push once after a pause. */
module MergeProtocol {
  import opened Wrappers
  import opened Git
  import opened Errors

  /** The commands issued, in order, and how the run ended. */
  datatype Transcript = Transcript(commands: seq<Command>, outcome: Outcome<MergeError>)

  /** The remote-tracking name of `b`. */
  function Remote(b: string): string
  {
    "origin/" + b
  }

  /** The run of the protocol on branch `b` when the command at position k of
      the trace gets the reply `o(k)`. A failing command ends the run with an
      error naming it, except a failing rebase, which is aborted first, and a
      failing first push, which is retried once after a pause. */
  function Protocol(b: string, o: nat -> Reply): Transcript
  {
    var t0 := [Fetch];
    if o(0).Failed? then Transcript(t0, Fail(CommandFailed(Fetch))) else
    var t1 := t0 + [Checkout(b)];
    if o(1).Failed? then Transcript(t1, Fail(CommandFailed(Checkout(b)))) else
    var t2 := t1 + [Rebase(OriginMain)];
    if o(2).Failed? then
      Transcript(t2 + [RebaseAbort],
                 if o(3).Failed? then Fail(CommandFailed(RebaseAbort)) else Fail(RebaseConflict(b)))
    else SyncRemote(b, o, t2)
  }

  /** The steps from the two rev-parses to the optional force-push, after the
      commands `t`, handing on to the merge. */
  function SyncRemote(b: string, o: nat -> Reply, t: seq<Command>): Transcript
  {
    var t3 := t + [RevParse(b)];
    if o(|t|).Failed? then Transcript(t3, Fail(CommandFailed(RevParse(b)))) else
    var t4 := t3 + [RevParse(Remote(b))];
    if o(|t3|).Failed? then Transcript(t4, Fail(CommandFailed(RevParse(Remote(b))))) else
    if o(|t|).stdout == o(|t3|).stdout then MergeAndPush(b, o, t4) else
    var t5 := t4 + [ForcePush];
    if o(|t4|).Failed? then Transcript(t5, Fail(CommandFailed(ForcePush))) else
    MergeAndPush(b, o, t5)
  }

  /** The steps from `git checkout main` on, after the commands `t`. */
  function MergeAndPush(b: string, o: nat -> Reply, t: seq<Command>): Transcript
  {
    var t6 := t + [Checkout(MainBranch)];
    if o(|t|).Failed? then Transcript(t6, Fail(CommandFailed(Checkout(MainBranch)))) else
    var t7 := t6 + [MergeFastForward(b)];
    if o(|t6|).Failed? then Transcript(t7, Fail(CommandFailed(MergeFastForward(b)))) else
    var t8 := t7 + [Push];
    if o(|t7|).Succeeded? then Transcript(t8, Pass) else
    Transcript(t8 + [Sleep, Push], if o(|t8| + 1).Failed? then Fail(CommandFailed(Push)) else Pass)
  }

  /** The full order of the protocol, with or without the force-push and the retry. */
  function Plan(b: string, forced: bool, retried: bool): seq<Command>
  {
    [Fetch, Checkout(b), Rebase(OriginMain), RevParse(b), RevParse(Remote(b))]
    + (if forced then [ForcePush] else [])
    + [Checkout(MainBranch), MergeFastForward(b), Push]
    + (if retried then [Sleep, Push] else [])
  }

  /** What is issued when the rebase fails. */
  function Aborted(b: string): seq<Command>
  {
    [Fetch, Checkout(b), Rebase(OriginMain), RebaseAbort]
  }

  predicate SucceededBefore(o: nat -> Reply, n: nat)
  {
    forall k :: 0 <= k < n ==> o(k).Succeeded?
  }


  /** Every trace, spelled out with the replies that lead to it. */
  lemma ProtocolCases(b: string, o: nat -> Reply)
    ensures var t := Protocol(b, o).commands;
      var forced := SucceededBefore(o, 5) && o(3).stdout != o(4).stdout;
      var n := if forced then 6 else 5;
      if o(0).Failed? then t == [Fetch]
      else if o(1).Failed? then t == [Fetch, Checkout(b)]
      else if o(2).Failed? then t == Aborted(b)
      else if o(3).Failed? then t == Plan(b, false, false)[..4]
      else if o(4).Failed? then t == Plan(b, false, false)[..5]
      else if forced && o(5).Failed? then t == Plan(b, true, false)[..6]
      else if o(n).Failed? then t == Plan(b, forced, false)[..n + 1]
      else if o(n + 1).Failed? then t == Plan(b, forced, false)[..n + 2]
      else if o(n + 2).Succeeded? then t == Plan(b, forced, false)
      else t == Plan(b, forced, true)
  {
  }

  /** The commands follow the plan in its order, stopping early on failure;
      the one other trace is the aborted rebase. */
  lemma ProtocolFollowsPlan(b: string, o: nat -> Reply)
    ensures var t := Protocol(b, o).commands;
            |t| >= 1 && (t <= Plan(b, ForcePush in t, Sleep in t) || t == Aborted(b))
  {
    ProtocolCases(b, o);
  }

  /** The rebase is aborted exactly when it failed, and then nothing else
      follows: no rev-parse, force-push, checkout of main, merge or push. */
  lemma RebaseFailureAborts(b: string, o: nat -> Reply)
    ensures var r := Protocol(b, o);
            (RebaseAbort in r.commands <==> SucceededBefore(o, 2) && o(2).Failed?) &&
            (RebaseAbort in r.commands ==> r.commands == Aborted(b) && r.outcome.Fail?)
  {
    ProtocolCases(b, o);
  }

  /** The branch is force-pushed exactly when everything before succeeded and
      the two rev-parses returned different SHAs. */
  lemma ForcePushIff(b: string, o: nat -> Reply)
    ensures ForcePush in Protocol(b, o).commands <==> SucceededBefore(o, 5) && o(3).stdout != o(4).stdout
  {
    ProtocolCases(b, o);
  }

  /** A failed command is the last one issued, except for a failed rebase,
      followed only by its abort, and a failed first push, followed only by
      the pause and the second push. */
  lemma FirstFailureStops(b: string, o: nat -> Reply)
    ensures var t := Protocol(b, o).commands;
            forall i | 0 <= i < |t| - 1 && t[i] != Sleep && o(i).Failed? ::
              (t[i] == Rebase(OriginMain) && t[i + 1..] == [RebaseAbort]) ||
              (t[i] == Push && t[i + 1..] == [Sleep, Push])
  {
    ProtocolCases(b, o);
  }

  /** `git push` is issued at most twice: two pushes are the failed first one,
      the pause and the retry. */
  lemma PushAtMostTwice(b: string, o: nat -> Reply)
    ensures var t := Protocol(b, o).commands;
            forall i, j | 0 <= i < j < |t| && t[i] == Push && t[j] == Push ::
              j == i + 2 && t[i + 1] == Sleep && o(i).Failed?
  {
    var t := Protocol(b, o).commands;
    ProtocolCases(b, o);
    ProtocolFollowsPlan(b, o);
    var plan := Plan(b, ForcePush in t, Sleep in t);
    forall i, j | 0 <= i < j < |t| && t[i] == Push && t[j] == Push
      ensures j == i + 2 && t[i + 1] == Sleep && o(i).Failed?
    {
      if t != Aborted(b) {
        assert t[i] == plan[i] && t[j] == plan[j];
        PlanPushes(b, ForcePush in t, Sleep in t, i);
        PlanPushes(b, ForcePush in t, Sleep in t, j);
        assert t[i + 1] == plan[i + 1];
      }
    }
  }

  /** In the plan, `git push` stands right after the merge and, when retried,
      once more after the pause. */
  lemma PlanPushes(b: string, forced: bool, retried: bool, i: nat)
    requires i < |Plan(b, forced, retried)| && Plan(b, forced, retried)[i] == Push
    ensures var p := if forced then 8 else 7;
            i == p || (retried && i == p + 2)
  {
  }

  /** The run succeeds exactly when its last command is a push that succeeded;
      it fails naming its last command exactly when that command failed, and
      otherwise fails only after an aborted rebase. */
  lemma ProtocolOutcome(b: string, o: nat -> Reply)
    ensures var r := Protocol(b, o);
            var t := r.commands;
            |t| >= 1 &&
            (r.outcome.Pass? <==> t[|t| - 1] == Push && o(|t| - 1).Succeeded?) &&
            (r.outcome == Fail(CommandFailed(t[|t| - 1])) <==> o(|t| - 1).Failed?) &&
            (r.outcome == Fail(RebaseConflict(b)) <==> t == Aborted(b) && o(3).Succeeded?)
  {
    ProtocolCases(b, o);
  }
}

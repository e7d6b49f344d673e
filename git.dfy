/** The external commands the merge issues, and the shell that issues them.
    What git does with them is not modelled: the reply to each command is
    taken from an oracle, indexed by the command's position in the trace. */
module Git {

  /** The upstream the branch is rebased onto, and the branch merged into. */
  const OriginMain: string := "origin/main"
  const MainBranch: string := "main"

  datatype Command =
    | Fetch                            // git fetch
    | Checkout(branch: string)         // git checkout <branch>
    | Rebase(upstream: string)         // git rebase <upstream>
    | RebaseAbort                      // git rebase --abort
    | RevParse(rev: string)            // git rev-parse <rev>
    | ForcePush                        // git push -f
    | MergeFastForward(branch: string) // git merge <branch> --ff-only
    | Push                             // git push
    | Sleep                            // the pause before the second push (not a git command)

  /** How a command ended, with its captured standard output. */
  datatype Reply = Failed | Succeeded(stdout: string)

  /** The shell: every command it runs is appended to `issued`, and the reply
      to the k-th entry of `issued` is `replies(k)`. */
  class Shell {
    const replies: nat -> Reply
    var issued: seq<Command>

    constructor (replies: nat -> Reply)
      ensures this.replies == replies && issued == []
    {
      this.replies := replies;
      issued := [];
    }

    /** Runs `c` and reports how it ended. */
    method Exec(c: Command) returns (r: Reply)
      modifies this
      ensures issued == old(issued) + [c]
      ensures r == replies(|old(issued)|)
    {
      r := replies(|issued|);
      issued := issued + [c];
    }

    /** Blocks for a while; the pause is recorded, its oracle slot unused. */
    method Pause()
      modifies this
      ensures issued == old(issued) + [Sleep]
    {
      issued := issued + [Sleep];
    }
  }
}

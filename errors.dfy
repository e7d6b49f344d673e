/** The ways a merge run bails out, one per failure the model distinguishes
    (the command and the JSON parse of one query share an error). */
module Errors {
  import opened Git

  datatype MergeError =
    | CurrentBranchUnavailable         // `git branch --show-current` failed
    | OnMain                           // no argument while on main
    | HeadRefQueryFailed(token: string) // `gh pr view <n> --json headRefName` or its JSON failed
    | HeadRefMissing(token: string)    // the reply has no string `headRefName`
    | StatusUnavailable(branch: string) // the status query or its JSON failed
    | NotApproved(branch: string)      // review decision is not APPROVED
    | CiFailed(nonSuccess: string)     // the joined names of the blocking checks
    | RebaseConflict(branch: string)   // rebase failed and was aborted
    | CommandFailed(command: Command)  // a git command of the protocol failed
}

/** The review and CI status of a pull request as `gh pr view` reports it. */
module StatusModel {

  /** One entry of the status rollup. */
  datatype StatusCheck = StatusCheck(typeName: string, name: string, status: string, conclusion: string)

  datatype Status = Status(reviewDecision: string, statusCheckRollup: seq<StatusCheck>)

  predicate IsCheckRun(c: StatusCheck)
  {
    c.typeName == "CheckRun"
  }

  predicate IsSuccessy(c: StatusCheck)
  {
    c.status == "COMPLETED" && (c.conclusion == "SUCCESS" || c.conclusion == "SKIPPED")
  }

  predicate IsApproved(s: Status)
  {
    s.reviewDecision == "APPROVED"
  }

  /** Neutral, failed, cancelled or timed-out runs, and runs still queued or
      in progress, are all non-successful. */
  lemma NonSuccessyExamples(c: StatusCheck)
    ensures c.conclusion in {"NEUTRAL", "FAILURE", "CANCELLED", "TIMED_OUT", "ACTION_REQUIRED", ""} ==> !IsSuccessy(c)
    ensures c.status in {"QUEUED", "IN_PROGRESS", "WAITING", "REQUESTED", "PENDING"} ==> !IsSuccessy(c)
  {
  }
}

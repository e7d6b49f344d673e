/** Which branch to merge: the optional argument, combined with the branch
    currently checked out. A numeric argument is a pull-request number whose
    head branch is looked up; anything else is a branch name. */
module Resolve {
  import opened Wrappers
  import opened U64Parse
  import opened Git
  import opened Errors

  /** The reply to `gh pr view <n> --json headRefName`, once parsed. */
  datatype HeadRefReply =
    | QueryFailed               // the command or the JSON parse failed
    | NoHeadRefName             // no string at `/headRefName`
    | HeadRefName(name: string)

  /** `lookup(t)` is the reply to the head-branch query for the token `t`. */
  function ResolveBranch(token: Option<string>, current: string, lookup: string -> HeadRefReply): Result<string, MergeError>
  {
    match token
    case None => if current == MainBranch then Err(OnMain) else Ok(current)
    case Some(t) =>
      if ParseU64(t).Some? then
        match lookup(t)
        case QueryFailed => Err(HeadRefQueryFailed(t))
        case NoHeadRefName => Err(HeadRefMissing(t))
        case HeadRefName(name) => Ok(name)
      else Ok(t)
  }

  /** Without an argument the current branch is merged, unless it is main. */
  lemma ResolveWithoutToken(current: string, lookup: string -> HeadRefReply)
    ensures ResolveBranch(None, current, lookup) == Err(OnMain) <==> current == MainBranch
    ensures current != MainBranch ==> ResolveBranch(None, current, lookup) == Ok(current)
  {
  }

  /** A pull-request number resolves to the head branch the lookup returns,
      and fails when the lookup does not return one. */
  lemma ResolveNumber(t: string, current: string, lookup: string -> HeadRefReply)
    requires ParseU64(t).Some?
    ensures ResolveBranch(Some(t), current, lookup).Ok? <==> lookup(t).HeadRefName?
    ensures lookup(t).HeadRefName? ==> ResolveBranch(Some(t), current, lookup) == Ok(lookup(t).name)
  {
  }

  /** Any other argument is the branch itself, whatever the current branch. */
  lemma ResolveName(t: string, current: string, lookup: string -> HeadRefReply)
    requires ParseU64(t).None?
    ensures ResolveBranch(Some(t), current, lookup) == Ok(t)
  {
  }

  /** The lookup is consulted only for tokens that parse as a u64, and only
      with that token. */
  lemma LookupOnlyForNumbers(token: Option<string>, current: string, l1: string -> HeadRefReply, l2: string -> HeadRefReply)
    requires token.Some? && ParseU64(token.value).Some? ==> l1(token.value) == l2(token.value)
    ensures ResolveBranch(token, current, l1) == ResolveBranch(token, current, l2)
  {
  }

  /** "42", "+42" and "0042" are PR numbers; "-42", "42a" and "feature" are branch names. */
  lemma ResolveExamples(current: string, lookup: string -> HeadRefReply)
    requires lookup("42") == HeadRefName("feature-x")
    ensures ResolveBranch(Some("42"), current, lookup) == Ok("feature-x")
    ensures ResolveBranch(Some("+42"), current, lookup) == Err(HeadRefQueryFailed("+42")) <==> lookup("+42") == QueryFailed
    ensures ParseU64("0042") == Some(42)
    ensures ResolveBranch(Some("-42"), current, lookup) == Ok("-42")
    ensures ResolveBranch(Some("42a"), current, lookup) == Ok("42a")
    ensures ResolveBranch(Some("feature"), current, lookup) == Ok("feature")
  {
    ParseDecimal(42);
    assert Decimal(42) == "42";
    assert "+42" == "+" + Decimal(42);
    assert "0042" == Zeros(2) + Decimal(42);
    ShapeParses(42, 2);
    ParseRejectsSigns("42");
    assert "-42" == "-" + "42";
    assert !IsDigit("42a"[2]);
    assert !IsDigit("feature"[0]);
  }
}

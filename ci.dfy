/** The CI gate: the names of the check runs that are not successful, joined
    with ", ", block the merge unless that string is empty. */
module Ci {
  import opened Wrappers
  import opened Strings
  import opened StatusModel
  import opened Errors

  /** The filter of the gate: a check run that is not successful. */
  predicate Blocks(c: StatusCheck)
  {
    IsCheckRun(c) && !IsSuccessy(c)
  }

  /** Names of the blocking entries of `rollup`, in rollup order. */
  function NonSuccessNames(rollup: seq<StatusCheck>): (names: seq<string>)
    ensures |names| <= |rollup|
  {
    if rollup == [] then []
    else (if Blocks(rollup[0]) then [rollup[0].name] else []) + NonSuccessNames(rollup[1..])
  }

  /** The gate: skipped entirely when CI is ignored; otherwise fails with the
      joined names when that string is not empty. */
  function Gate(rollup: seq<StatusCheck>, ignoreCi: bool): Outcome<MergeError>
  {
    if ignoreCi then Pass
    else
      var nonSuccess := Join(NonSuccessNames(rollup), CommaSpace);
      if nonSuccess != "" then Fail(CiFailed(nonSuccess)) else Pass
  }

  /** The names of a concatenation are the concatenation of the names: the
      filter keeps rollup order and looks at each entry on its own. */
  lemma {:induction false} NonSuccessNamesAppend(a: seq<StatusCheck>, b: seq<StatusCheck>)
    ensures NonSuccessNames(a + b) == NonSuccessNames(a) + NonSuccessNames(b)
  {
    if a == [] {
      assert a + b == b;
    } else {
      assert (a + b)[0] == a[0] && (a + b)[1..] == a[1..] + b;
      NonSuccessNamesAppend(a[1..], b);
    }
  }

  /** No names at all exactly when no entry blocks. */
  lemma {:induction false} NonSuccessNamesEmptyIff(rollup: seq<StatusCheck>)
    ensures NonSuccessNames(rollup) == [] <==> forall i :: 0 <= i < |rollup| ==> !Blocks(rollup[i])
  {
    if rollup != [] {
      NonSuccessNamesEmptyIff(rollup[1..]);
      assert forall i :: 1 <= i < |rollup| ==> rollup[i] == rollup[1..][i - 1];
    }
  }

  /** Every listed name is the name of some blocking entry. */
  lemma {:induction false} NonSuccessNamesFromBlocking(rollup: seq<StatusCheck>, j: nat)
    requires j < |NonSuccessNames(rollup)|
    ensures exists i :: 0 <= i < |rollup| && Blocks(rollup[i]) && rollup[i].name == NonSuccessNames(rollup)[j]
  {
    var head := if Blocks(rollup[0]) then [rollup[0].name] else [];
    if j < |head| {
      assert Blocks(rollup[0]) && rollup[0].name == NonSuccessNames(rollup)[j];
    } else {
      NonSuccessNamesFromBlocking(rollup[1..], j - |head|);
      var i :| 0 <= i < |rollup[1..]| && Blocks(rollup[1..][i]) && rollup[1..][i].name == NonSuccessNames(rollup[1..])[j - |head|];
      assert rollup[i + 1] == rollup[1..][i];
    }
  }

  /** Conversely, the name of every blocking entry is listed. */
  lemma NonSuccessNamesListsBlocking(rollup: seq<StatusCheck>, i: nat)
    requires i < |rollup| && Blocks(rollup[i])
    ensures rollup[i].name in NonSuccessNames(rollup)
  {
    assert rollup == rollup[..i] + [rollup[i]] + rollup[i + 1..];
    NonSuccessNamesAppend(rollup[..i] + [rollup[i]], rollup[i + 1..]);
    NonSuccessNamesAppend(rollup[..i], [rollup[i]]);
    assert NonSuccessNames([rollup[i]]) == [rollup[i].name];
  }

  /** The gate passes exactly when no check run is blocking, or when a single
      one is and its name is empty (the test is on the joined string, not on
      the number of blocking runs). */
  lemma GatePassesIff(rollup: seq<StatusCheck>)
    ensures Gate(rollup, false).Pass? <==> NonSuccessNames(rollup) == [] || NonSuccessNames(rollup) == [""]
  {
    JoinEmptyIff(NonSuccessNames(rollup), CommaSpace);
  }

  /** With named checks, the gate fails exactly when some check run is not
      successful, wherever it stands in the rollup. */
  lemma GateWithNamedChecks(rollup: seq<StatusCheck>)
    requires forall i :: 0 <= i < |rollup| ==> rollup[i].name != ""
    ensures Gate(rollup, false).Pass? <==> forall i :: 0 <= i < |rollup| ==> !Blocks(rollup[i])
  {
    GatePassesIff(rollup);
    NonSuccessNamesEmptyIff(rollup);
    if NonSuccessNames(rollup) == [""] {
      NonSuccessNamesFromBlocking(rollup, 0);
    }
  }

  /** The gate in terms of the raw fields of the rollup: with named checks it
      passes exactly when every entry whose `__typename` is "CheckRun" has
      status COMPLETED and conclusion SUCCESS or SKIPPED; entries of any
      other type, and any other status or conclusion, never let a blocking
      run through. */
  lemma GateOnRawFields(rollup: seq<StatusCheck>)
    requires forall i :: 0 <= i < |rollup| ==> rollup[i].name != ""
    ensures Gate(rollup, false).Pass? <==>
            forall i :: 0 <= i < |rollup| && rollup[i].typeName == "CheckRun" ==>
              rollup[i].status == "COMPLETED" && rollup[i].conclusion in {"SUCCESS", "SKIPPED"}
  {
    GateWithNamedChecks(rollup);
  }

  /** Only check runs can block: a rollup without any passes. */
  lemma OnlyCheckRunsBlock(rollup: seq<StatusCheck>)
    requires forall i :: 0 <= i < |rollup| ==> !IsCheckRun(rollup[i])
    ensures Gate(rollup, false) == Pass
  {
    NonSuccessNamesEmptyIff(rollup);
  }

  /** A failing gate reports the names of exactly the blocking check runs, in
      rollup order: splitting its message at ", " gives them back, as long as
      no name itself contains ", ". */
  lemma GateFailureListsBlocking(rollup: seq<StatusCheck>)
    requires Gate(rollup, false).Fail?
    requires forall i :: 0 <= i < |rollup| ==> FreeOfCommaSpace(rollup[i].name)
    ensures Gate(rollup, false).error.CiFailed?
    ensures Split(Gate(rollup, false).error.nonSuccess) == NonSuccessNames(rollup)
  {
    var names := NonSuccessNames(rollup);
    forall j | 0 <= j < |names| ensures FreeOfCommaSpace(names[j]) {
      NonSuccessNamesFromBlocking(rollup, j);
    }
    SplitJoin(names);
  }

  /** With CI ignored the rollup is never looked at: the gate cannot fail. */
  lemma IgnoredGatePasses(rollup: seq<StatusCheck>, other: seq<StatusCheck>)
    ensures Gate(rollup, true) == Pass && Gate(rollup, true) == Gate(other, true)
  {
  }

  /** A single in-progress check run with an empty name lets the gate through. */
  lemma EmptyNameSlipsThrough()
    ensures Gate([StatusCheck("CheckRun", "", "IN_PROGRESS", "")], false) == Pass
  {
    var c := StatusCheck("CheckRun", "", "IN_PROGRESS", "");
    assert [c][1..] == [];
  }
}

/** Joining a list of names with a separator (what `Itertools::join` does to
    the names of the failing checks) and the splitting that undoes it. */
module Strings {

  /** The separator the CI gate joins names with. */
  const CommaSpace: string := ", "

  /** `parts` glued together with `sep` between consecutive elements:
      nothing for no parts, the element itself for one part. */
  function Join(parts: seq<string>, sep: string): string
  {
    if |parts| == 0 then ""
    else if |parts| == 1 then parts[0]
    else parts[0] + sep + Join(parts[1..], sep)
  }

  /** No occurrence of ", " inside `p`. */
  predicate FreeOfCommaSpace(p: string)
  {
    forall i :: 0 <= i < |p| - 1 ==> !(p[i] == ',' && p[i + 1] == ' ')
  }

  /** Cuts `s` at every occurrence of ", ", scanning from the left. */
  function Split(s: string): (parts: seq<string>)
    ensures |parts| >= 1
    decreases |s|
  {
    if |s| == 0 then [""]
    else if |s| >= 2 && s[0] == ',' && s[1] == ' ' then [""] + Split(s[2..])
    else
      var rest := Split(s[1..]);
      [[s[0]] + rest[0]] + rest[1..]
  }

  /** A joined string is empty exactly when there was nothing to join, or a
      single empty element: with two or more parts the separator shows. */
  lemma JoinEmptyIff(parts: seq<string>, sep: string)
    requires sep != ""
    ensures Join(parts, sep) == "" <==> (parts == [] || parts == [""])
  {
  }

  /** A piece without ", " is not cut. */
  lemma {:induction false} SplitFree(p: string)
    requires FreeOfCommaSpace(p)
    ensures Split(p) == [p]
  {
    if |p| > 0 {
      assert !(|p| >= 2 && p[0] == ',' && p[1] == ' ');
      var tail := p[1..];
      assert FreeOfCommaSpace(tail) by {
        forall i | 0 <= i < |tail| - 1 ensures !(tail[i] == ',' && tail[i + 1] == ' ') {
          assert tail[i] == p[i + 1] && tail[i + 1] == p[i + 2];
        }
      }
      SplitFree(tail);
      assert [p[0]] + tail == p;
    }
  }

  /** Splitting stops exactly at the first separator after a piece without ", ". */
  lemma {:induction false} SplitAfterPiece(p: string, rest: string)
    requires FreeOfCommaSpace(p)
    ensures Split(p + CommaSpace + rest) == [p] + Split(rest)
  {
    var s := p + CommaSpace + rest;
    if |p| == 0 {
      assert s == ", " + rest;
      assert s[2..] == rest;
    } else {
      var tail := p[1..];
      assert FreeOfCommaSpace(tail) by {
        forall i | 0 <= i < |tail| - 1 ensures !(tail[i] == ',' && tail[i + 1] == ' ') {
          assert tail[i] == p[i + 1] && tail[i + 1] == p[i + 2];
        }
      }
      assert s[0] == p[0];
      assert s[1..] == tail + CommaSpace + rest;
      if |p| == 1 {
        assert s[1] == ',';
      } else {
        assert s[1] == p[1];
      }
      SplitAfterPiece(tail, rest);
      assert [p[0]] + tail == p;
    }
  }

  /** Splitting undoes joining with ", ", as long as there is at least one
      part and no part contains ", " itself. */
  lemma {:induction false} SplitJoin(parts: seq<string>)
    requires |parts| >= 1
    requires forall i :: 0 <= i < |parts| ==> FreeOfCommaSpace(parts[i])
    ensures Split(Join(parts, CommaSpace)) == parts
  {
    if |parts| == 1 {
      SplitFree(parts[0]);
    } else {
      SplitJoin(parts[1..]);
      SplitAfterPiece(parts[0], Join(parts[1..], CommaSpace));
      assert [parts[0]] + parts[1..] == parts;
    }
  }
}

/**
  The parts of Go's `strings` package that the modelled code relies on,
  over strings of Unicode code points.  Go strings are UTF-8 bytes; for
  valid UTF-8 text, searching and splitting on code points and on bytes
  give the same pieces.
*/
module GoStrings {

  /** `unicode.IsSpace`: the Latin-1 spaces and the Unicode White_Space characters. */
  predicate IsSpace(c: char)
  {
    c == '\t' || c == '\n' || c == '\U{000B}' || c == '\U{000C}' || c == '\r' || c == ' '
    || c == '\U{0085}' || c == '\U{00A0}' || c == '\U{1680}'
    || ('\U{2000}' <= c <= '\U{200A}')
    || c == '\U{2028}' || c == '\U{2029}' || c == '\U{202F}' || c == '\U{205F}' || c == '\U{3000}'
  }

  predicate AllSpace(s: string)
  {
    forall j :: 0 <= j < |s| ==> IsSpace(s[j])
  }

  predicate NoSpace(s: string)
  {
    forall j :: 0 <= j < |s| ==> !IsSpace(s[j])
  }

  /** Number of white-space characters at the start of `s`. */
  function LeadCount(s: string): (n: nat)
    ensures n <= |s|
    ensures forall j :: 0 <= j < n ==> IsSpace(s[j])
    ensures n < |s| ==> !IsSpace(s[n])
  {
    if |s| > 0 && IsSpace(s[0]) then 1 + LeadCount(s[1..]) else 0
  }

  /** Number of white-space characters at the end of `s`. */
  function TrailCount(s: string): (n: nat)
    ensures n <= |s|
    ensures forall j :: |s| - n <= j < |s| ==> IsSpace(s[j])
    ensures n < |s| ==> !IsSpace(s[|s| - n - 1])
  {
    if |s| > 0 && IsSpace(s[|s| - 1]) then 1 + TrailCount(s[..|s| - 1]) else 0
  }

  /** `strings.TrimSpace`: drops leading and trailing white space. */
  function TrimSpace(s: string): (r: string)
  {
    var a := LeadCount(s);
    s[a..|s| - TrailCount(s[a..])]
  }

  /** TrimSpace keeps exactly a window of `s` whose ends are not spaces and outside which all is space. */
  lemma TrimSpaceWindow(s: string) returns (a: nat, b: nat)
    ensures a <= b <= |s| && TrimSpace(s) == s[a..b]
    ensures forall j :: 0 <= j < a ==> IsSpace(s[j])
    ensures forall j :: b <= j < |s| ==> IsSpace(s[j])
    ensures a < b ==> !IsSpace(s[a]) && !IsSpace(s[b - 1])
  {
    a := LeadCount(s);
    var t := TrailCount(s[a..]);
    b := |s| - t;
    assert forall j :: b <= j < |s| ==> s[j] == s[a..][j - a];
    if a < b {
      assert s[b - 1] == s[a..][|s[a..]| - t - 1];
    }
  }

  /** An occurrence of a separator that starts and ends with non-space characters survives trimming. */
  lemma TrimSpaceKeepsOccurrence(s: string, sep: string, i: int)
    requires OccursAt(s, sep, i) && |sep| > 0
    requires !IsSpace(sep[0]) && !IsSpace(sep[|sep| - 1])
    ensures Contains(TrimSpace(s), sep)
  {
    var a, b := TrimSpaceWindow(s);
    assert s[i] == sep[0] && s[i + |sep| - 1] == sep[|sep| - 1];
    assert a <= i && i + |sep| <= b;
    var t := s[a..b];
    assert forall k :: i - a <= k < i - a + |sep| ==> t[k] == s[k + a];
    assert t[i - a..i - a + |sep|] == sep;
    assert OccursAt(t, sep, i - a);
  }

  /** The same, for a separator known only to occur somewhere. */
  lemma TrimSpaceKeepsContains(s: string, sep: string)
    requires Contains(s, sep) && |sep| > 0
    requires !IsSpace(sep[0]) && !IsSpace(sep[|sep| - 1])
    ensures Contains(TrimSpace(s), sep)
  {
    var i :| 0 <= i <= |s| && OccursAt(s, sep, i);
    TrimSpaceKeepsOccurrence(s, sep, i);
  }

  lemma TrimSpaceEmpty(s: string)
    ensures TrimSpace(s) == [] <==> AllSpace(s)
  {
    var a, b := TrimSpaceWindow(s);
    if TrimSpace(s) == [] {
      assert a == b;
    } else {
      assert !IsSpace(s[a]);
    }
  }

  /** A string without outer white space is its own trim. */
  lemma TrimSpaceOfTrimmed(s: string)
    requires s == [] || (!IsSpace(s[0]) && !IsSpace(s[|s| - 1]))
    ensures TrimSpace(s) == s
  {
    var a, b := TrimSpaceWindow(s);
    if s != [] {
      assert a == 0;
      assert b == |s|;
    }
  }

  predicate HasPrefix(s: string, p: string)
  {
    |p| <= |s| && s[..|p|] == p
  }

  predicate HasSuffix(s: string, p: string)
  {
    |p| <= |s| && s[|s| - |p|..] == p
  }

  /** `strings.TrimSuffix`. */
  function TrimSuffix(s: string, suffix: string): (r: string)
    ensures HasSuffix(s, suffix) ==> r + suffix == s
    ensures !HasSuffix(s, suffix) ==> r == s
  {
    if HasSuffix(s, suffix) then s[..|s| - |suffix|] else s
  }

  predicate OccursAt(s: string, sep: string, i: int)
  {
    0 <= i && i + |sep| <= |s| && s[i..i + |sep|] == sep
  }

  /** `strings.Contains`. */
  predicate Contains(s: string, sep: string)
  {
    exists i :: 0 <= i <= |s| && OccursAt(s, sep, i)
  }

  /** First occurrence of `sep` at or after `from`, or -1. */
  function IndexFrom(s: string, sep: string, from: nat): (r: int)
    requires from <= |s|
    ensures r == -1 || (from <= r && OccursAt(s, sep, r))
    ensures r == -1 ==> forall j :: from <= j ==> !OccursAt(s, sep, j)
    ensures r != -1 ==> forall j :: from <= j < r ==> !OccursAt(s, sep, j)
    decreases |s| - from
  {
    if from + |sep| > |s| then -1
    else if s[from..from + |sep|] == sep then from
    else if from == |s| then -1
    else IndexFrom(s, sep, from + 1)
  }

  /** `strings.Index`: the position of the leftmost occurrence, or -1. */
  function Index(s: string, sep: string): (r: int)
    ensures r == -1 <==> !Contains(s, sep)
    ensures r != -1 ==> OccursAt(s, sep, r) && forall j :: 0 <= j < r ==> !OccursAt(s, sep, j)
  {
    IndexFrom(s, sep, 0)
  }

  /** The text before the first occurrence of `sep` (all of `s` when there is none). */
  function Before(s: string, sep: string): (r: string)
    ensures HasPrefix(s, r)
    ensures !Contains(r, sep) || (|sep| == 0 && r == [])
  {
    var i := Index(s, sep);
    if i == -1 then s
    else
      assert forall k :: OccursAt(s[..i], sep, k) ==> OccursAt(s, sep, k) by {
        forall k | OccursAt(s[..i], sep, k) ensures OccursAt(s, sep, k) {
          assert s[..i][k..k + |sep|] == s[k..k + |sep|];
        }
      }
      s[..i]
  }

  /** Nothing is cut off exactly when the separator does not occur. */
  lemma BeforeWhole(s: string, sep: string)
    requires |sep| > 0
    ensures Before(s, sep) == s <==> !Contains(s, sep)
  {
    if Contains(s, sep) {
      assert |Before(s, sep)| == Index(s, sep) < |s|;
    }
  }

  /** An occurrence whose first character appears nowhere before it is the first occurrence. */
  lemma FirstOccurrence(s: string, sep: string, i: nat)
    requires |sep| > 0 && OccursAt(s, sep, i) && sep[0] !in s[..i]
    ensures Contains(s, sep)
    ensures Before(s, sep) == s[..i] && After(s, sep) == s[i + |sep|..]
  {
    forall j | 0 <= j < i
      ensures !OccursAt(s, sep, j)
    {
      if j + |sep| <= |s| {
        assert s[j..j + |sep|][0] == s[j] && s[j] == s[..i][j];
      }
    }
    assert Index(s, sep) == i;
  }

  /** A separator that shares no character at some position with `s` does not occur in it. */
  lemma AbsentCharNotContained(s: string, sep: string, j: nat)
    requires j < |sep| && sep[j] !in s
    ensures !Contains(s, sep)
  {
    forall i | 0 <= i <= |s|
      ensures !OccursAt(s, sep, i)
    {
      if i + |sep| <= |s| {
        assert s[i..i + |sep|][j] == s[i + j] && s[i + j] in s;
      }
    }
  }

  /** The text after the first occurrence of `sep`. */
  function After(s: string, sep: string): (r: string)
    requires Contains(s, sep)
    ensures s == Before(s, sep) + sep + r
  {
    var i := Index(s, sep);
    assert s == s[..i] + s[i..i + |sep|] + s[i + |sep|..];
    s[i + |sep|..]
  }

  /** `strings.Split` with a non-empty separator: the pieces between successive leftmost occurrences. */
  function Split(s: string, sep: string): (r: seq<string>)
    requires |sep| > 0
    ensures |r| >= 1
    decreases |s|
  {
    if !Contains(s, sep) then [s]
    else [Before(s, sep)] + Split(After(s, sep), sep)
  }

  /** `strings.Join`. */
  function Join(parts: seq<string>, sep: string): (r: string)
  {
    if |parts| == 0 then []
    else if |parts| == 1 then parts[0]
    else parts[0] + sep + Join(parts[1..], sep)
  }

  /** Joining one more part appends the separator and the part. */
  lemma {:induction false} JoinSnoc(parts: seq<string>, last: string, sep: string)
    requires |parts| >= 1
    ensures Join(parts + [last], sep) == Join(parts, sep) + sep + last
    decreases |parts|
  {
    if |parts| == 1 {
      assert (parts + [last])[1..] == [last];
    } else {
      assert (parts + [last])[1..] == parts[1..] + [last];
      JoinSnoc(parts[1..], last, sep);
    }
  }

  /** Split yields the input alone exactly when the separator does not occur. */
  lemma SplitSingle(s: string, sep: string)
    requires |sep| > 0
    ensures |Split(s, sep)| == 1 <==> !Contains(s, sep)
    ensures !Contains(s, sep) ==> Split(s, sep) == [s]
  {
  }

  /** The first piece of a split is the text before the first separator. */
  lemma SplitHead(s: string, sep: string)
    requires |sep| > 0
    ensures Split(s, sep)[0] == Before(s, sep)
  {
    if Contains(s, sep) {
      SplitFirstTwo(s, sep);
    } else {
      SplitSingle(s, sep);
      BeforeWhole(s, sep);
    }
  }

  /** The first two pieces of a split: before the first occurrence, and between the first and second. */
  lemma SplitFirstTwo(s: string, sep: string)
    requires |sep| > 0 && Contains(s, sep)
    ensures |Split(s, sep)| >= 2
    ensures Split(s, sep)[0] == Before(s, sep)
    ensures Split(s, sep)[1] == Before(After(s, sep), sep)
  {
    var rest := After(s, sep);
    if Contains(rest, sep) {
      assert Split(rest, sep)[0] == Before(rest, sep);
    } else {
      assert Split(rest, sep) == [rest];
    }
  }

  /** Joining the pieces of a split with the same separator gives the input back. */
  lemma {:induction false} JoinSplit(s: string, sep: string)
    requires |sep| > 0
    ensures Join(Split(s, sep), sep) == s
    decreases |s|
  {
    if Contains(s, sep) {
      var rest := After(s, sep);
      JoinSplit(rest, sep);
      var tail := Split(rest, sep);
      assert Split(s, sep) == [Before(s, sep)] + tail;
      assert Join(Split(s, sep), sep) == Before(s, sep) + sep + Join(tail, sep);
    }
  }

  /** No piece of a split contains the separator. */
  lemma {:induction false} SplitPiecesFree(s: string, sep: string)
    requires |sep| > 0
    ensures forall k :: 0 <= k < |Split(s, sep)| ==> !Contains(Split(s, sep)[k], sep)
    decreases |s|
  {
    if Contains(s, sep) {
      SplitPiecesFree(After(s, sep), sep);
    }
  }
}

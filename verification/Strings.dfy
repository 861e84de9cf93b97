/** The string operations of Go's strings package that the naming code uses, over single characters. */
module Strings {
  /** Position of the first `c`, or |s|. */
  function IndexOf(s: string, c: char): (i: nat)
    ensures i <= |s| && forall j :: 0 <= j < i ==> s[j] != c
    ensures i < |s| ==> s[i] == c
  {
    if s == "" || s[0] == c then 0 else 1 + IndexOf(s[1..], c)
  }

  lemma InSlice(s: string, lo: int, i: int, hi: int)
    ensures 0 <= lo <= i < hi <= |s| ==> s[i] in s[lo..hi]
  {
    if 0 <= lo <= i < hi <= |s| { assert s[lo..hi][i - lo] == s[i]; }
  }

  lemma IndexOfUnique(s: string, c: char, i: nat)
    requires i <= |s| && (forall j :: 0 <= j < i ==> s[j] != c) && (i < |s| ==> s[i] == c)
    ensures IndexOf(s, c) == i
  {
  }

  /** The part before the first `c`. */
  function Before(s: string, c: char): (r: string)
    ensures c !in r
  {
    s[..IndexOf(s, c)]
  }

  function Split(s: string, c: char): (parts: seq<string>)
    ensures |parts| >= 1
    decreases |s|
  {
    var i := IndexOf(s, c);
    if i == |s| then [s] else [s[..i]] + Split(s[i + 1..], c)
  }

  function Join(parts: seq<string>, c: char): string {
    if parts == [] then ""
    else if |parts| == 1 then parts[0]
    else parts[0] + [c] + Join(parts[1..], c)
  }

  lemma SplitStep(s: string, c: char, i: nat)
    requires i < |s| && (forall j :: 0 <= j < i ==> s[j] != c) && s[i] == c
    ensures Split(s, c) == [s[..i]] + Split(s[i + 1..], c)
  {
    IndexOfUnique(s, c, i);
  }

  lemma SplitWhole(s: string, c: char)
    requires c !in s
    ensures Split(s, c) == [s]
  {
    IndexOfUnique(s, c, |s|);
  }

  lemma SplitUnfolds(s: string, c: char)
    ensures var i := IndexOf(s, c);
            Split(s, c) == if i == |s| then [s] else [s[..i]] + Split(s[i + 1..], c)
  {
    hide IndexOf;
  }

  lemma {:induction false} JoinSplit(s: string, c: char)
    ensures Join(Split(s, c), c) == s
    decreases |s|
  {
    var i := IndexOf(s, c);
    SplitUnfolds(s, c);
    hide Split, IndexOf;
    if i < |s| {
      JoinSplit(s[i + 1..], c);
      assert Split(s, c)[1..] == Split(s[i + 1..], c);
      assert s == s[..i] + [c] + s[i + 1..];
    }
  }

  /** Splitting at the last separator first. */
  lemma {:induction false} SplitAppend(x: string, c: char, y: string)
    requires c !in y
    ensures Split(x + [c] + y, c) == Split(x, c) + [y]
    decreases |x|
  {
    var s := x + [c] + y;
    var i := IndexOf(x, c);
    assert s[..i] == x[..i];
    assert forall j :: 0 <= j < i ==> s[j] == x[j];
    SplitStep(s, c, i);
    hide Split, IndexOf;
    if i == |x| {
      assert s[i + 1..] == y;
      assert x == x[..i];
      SplitWhole(x, c);
      SplitWhole(y, c);
    } else {
      SplitStep(x, c, i);
      assert s[i + 1..] == x[i + 1..] + [c] + y;
      SplitAppend(x[i + 1..], c, y);
    }
  }

  function TrimLeft(s: string, cut: set<char>): (r: string)
    ensures r != "" ==> r[0] !in cut
  {
    if s != "" && s[0] in cut then TrimLeft(s[1..], cut) else s
  }

  function TrimRight(s: string, cut: set<char>): (r: string)
    ensures r != "" ==> r[|r| - 1] !in cut
  {
    if s != "" && s[|s| - 1] in cut then TrimRight(s[..|s| - 1], cut) else s
  }

  function Trim(s: string, cut: set<char>): (r: string)
  {
    TrimRight(TrimLeft(s, cut), cut)
  }

  lemma {:induction false} TrimLeftIsSuffix(s: string, cut: set<char>)
    ensures |TrimLeft(s, cut)| <= |s| && TrimLeft(s, cut) == s[|s| - |TrimLeft(s, cut)|..]
  {
    if s != "" && s[0] in cut { TrimLeftIsSuffix(s[1..], cut); }
  }

  lemma {:induction false} TrimRightIsPrefix(s: string, cut: set<char>)
    ensures |TrimRight(s, cut)| <= |s| && TrimRight(s, cut) == s[..|TrimRight(s, cut)|]
  {
    if s != "" && s[|s| - 1] in cut { TrimRightIsPrefix(s[..|s| - 1], cut); }
  }

  /** Trimming yields a slice that neither begins nor ends in the cut set. */
  lemma TrimIsSlice(s: string, cut: set<char>) returns (lo: nat, hi: nat)
    ensures lo <= hi <= |s| && Trim(s, cut) == s[lo..hi]
    ensures Trim(s, cut) != "" ==> Trim(s, cut)[0] !in cut && Trim(s, cut)[|Trim(s, cut)| - 1] !in cut
  {
    var l := TrimLeft(s, cut);
    TrimLeftIsSuffix(s, cut);
    TrimRightIsPrefix(l, cut);
    lo := |s| - |l|;
    hi := lo + |Trim(s, cut)|;
  }

  lemma TrimRightFixes(s: string, cut: set<char>)
    requires s != "" ==> s[|s| - 1] !in cut
    ensures TrimRight(s, cut) == s
  {
  }

  lemma TrimFixes(s: string, cut: set<char>)
    requires s != "" ==> s[0] !in cut && s[|s| - 1] !in cut
    ensures Trim(s, cut) == s
  {
  }

  lemma {:induction false} TrimLeftStops(x: string, y: string, cut: set<char>)
    requires y != "" && y[0] !in cut
    ensures TrimLeft(x + y, cut) == TrimLeft(x, cut) + y
  {
    if x == "" {
      assert x + y == y;
    } else if x[0] in cut {
      assert (x + y)[1..] == x[1..] + y;
      TrimLeftStops(x[1..], y, cut);
    }
  }

  function TrimSuffix(s: string, suffix: string): (r: string)
    ensures |r| <= |s| && r == s[..|r|]
  {
    if |suffix| <= |s| && s[|s| - |suffix|..] == suffix then s[..|s| - |suffix|] else s
  }

  function Lower(c: char): char {
    if 'A' <= c <= 'Z' then ((c as int) + 32) as char else c
  }

  function ToLower(s: string): (r: string)
    ensures |r| == |s|
  {
    seq(|s|, i requires 0 <= i < |s| => Lower(s[i]))
  }

  /** Folding maps A..Z to a..z, place by place, and leaves everything else. */
  lemma ToLowerFolds(s: string, i: nat)
    requires i < |s|
    ensures 'A' <= s[i] <= 'Z' ==> ToLower(s)[i] as nat - 'a' as nat == s[i] as nat - 'A' as nat
    ensures !('A' <= s[i] <= 'Z') ==> ToLower(s)[i] == s[i]
    ensures ToLower(ToLower(s)) == ToLower(s)
  {
    assert forall k :: 0 <= k < |s| ==> Lower(Lower(s[k])) == Lower(s[k]);
  }
}

/** The functions of Go's `strings` package that the data path relies on, for a separator of
    one character. */
module GoStrings {

  predicate Free(s: string, sep: char) {
    sep !in s
  }

  function IndexOf(s: string, sep: char): (i: nat)
    ensures i <= |s|
    ensures Free(s[..i], sep)
    ensures i < |s| ==> s[i] == sep
  {
    if s == [] || s[0] == sep then 0
    else
      var i := 1 + IndexOf(s[1..], sep);
      assert s[..i] == [s[0]] + s[1..][..i - 1];
      i
  }

  lemma IndexOfConcat(a: string, sep: char, b: string)
    requires Free(a, sep)
    ensures IndexOf(a + [sep] + b, sep) == |a|
  {
    var s := a + [sep] + b;
    assert s[|a|] == sep && forall k | 0 <= k < |a| :: s[k] == a[k];
    assert forall k | 0 <= k < IndexOf(s, sep) :: s[..IndexOf(s, sep)][k] == s[k];
  }

  /** strings.Cut. */
  function Cut(s: string, sep: char): (r: (string, string, bool))
    ensures r.2 ==> s == r.0 + [sep] + r.1
    ensures !r.2 ==> r.0 == s && r.1 == ""
    ensures Free(r.0, sep)
    ensures r.2 <==> !Free(s, sep)
  {
    var i := IndexOf(s, sep);
    if i < |s| then (s[..i], s[i + 1..], true)
    else
      assert s[..i] == s;
      (s, "", false)
  }

  lemma CutConcat(a: string, sep: char, b: string)
    requires Free(a, sep)
    ensures Cut(a + [sep] + b, sep) == (a, b, true)
  {
    IndexOfConcat(a, sep, b);
    var s := a + [sep] + b;
    assert s[..|a|] == a && s[|a| + 1..] == b;
  }

  /** strings.Split. */
  function Split(s: string, sep: char): (parts: seq<string>)
    ensures |parts| > 0
    ensures forall k | 0 <= k < |parts| :: Free(parts[k], sep)
    decreases |s|
  {
    var (head, tail, found) := Cut(s, sep);
    if found then [head] + Split(tail, sep) else [s]
  }

  /** strings.Join. */
  function Join(parts: seq<string>, sep: char): string
    requires |parts| > 0
  {
    if |parts| == 1 then parts[0] else parts[0] + [sep] + Join(parts[1..], sep)
  }

  lemma {:induction false} SplitOfJoin(parts: seq<string>, sep: char)
    requires |parts| > 0 && forall k | 0 <= k < |parts| :: Free(parts[k], sep)
    ensures Split(Join(parts, sep), sep) == parts
  {
    if |parts| > 1 {
      CutConcat(parts[0], sep, Join(parts[1..], sep));
      SplitOfJoin(parts[1..], sep);
    }
  }

  lemma {:induction false} JoinOfSplit(s: string, sep: char)
    ensures Join(Split(s, sep), sep) == s
    decreases |s|
  {
    var (head, tail, found) := Cut(s, sep);
    if found { JoinOfSplit(tail, sep); }
  }

  /** strings.ReplaceAll, one character for another. */
  function ReplaceAll(s: string, from: char, to: char): (r: string)
    ensures |r| == |s|
    ensures forall i | 0 <= i < |s| :: r[i] == if s[i] == from then to else s[i]
  {
    seq(|s|, i requires 0 <= i < |s| => if s[i] == from then to else s[i])
  }

  lemma {:induction false} ReplaceConcat(a: string, b: string, from: char, to: char)
    ensures ReplaceAll(a + b, from, to) == ReplaceAll(a, from, to) + ReplaceAll(b, from, to)
  {
  }

  /** Replacing the separator of joined parts that do not contain it joins them by the new one. */
  lemma {:induction false} ReplaceInJoin(parts: seq<string>, from: char, to: char)
    requires |parts| > 0 && forall k | 0 <= k < |parts| :: Free(parts[k], from)
    ensures ReplaceAll(Join(parts, from), from, to) == Join(parts, to)
  {
    assert ReplaceAll(parts[0], from, to) == parts[0] by { assert Free(parts[0], from); }
    if |parts| > 1 {
      ReplaceInJoin(parts[1..], from, to);
      ReplaceConcat(parts[0] + [from], Join(parts[1..], from), from, to);
      ReplaceConcat(parts[0], [from], from, to);
    }
  }
}

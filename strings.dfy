/** String helpers with the semantics of the JavaScript built-ins the source uses. */
module Strings {

  /** `s.startsWith(p)` */
  predicate StartsWith(s: string, p: string) {
    |p| <= |s| && s[..|p|] == p
  }

  /** `s.includes(sub)`: some occurrence of `sub` starts somewhere in `s`. */
  predicate Contains(s: string, sub: string)
    decreases |s|
  {
    StartsWith(s, sub) || (|s| > 0 && Contains(s[1..], sub))
  }

  /** `s || d` for a string: JavaScript treats the empty string as falsy. */
  function OrElse(s: string, d: string): (r: string)
    ensures r == s || r == d
    ensures r == "" ==> d == ""
  {
    if s != "" then s else d
  }

  function DigitChar(d: nat): (c: char)
    requires d < 10
  {
    "0123456789"[d]
  }

  /** `String(n)` / template interpolation of a non-negative integer. */
  function NatToString(n: nat): (s: string)
    ensures |s| > 0
    ensures forall i :: 0 <= i < |s| ==> '0' <= s[i] <= '9'
    decreases n
  {
    if n < 10 then [DigitChar(n)] else NatToString(n / 10) + [DigitChar(n % 10)]
  }

  /** `parts.join(sep)` */
  function Join(parts: seq<string>, sep: string): string
    decreases |parts|
  {
    if |parts| == 0 then ""
    else if |parts| == 1 then parts[0]
    else parts[0] + sep + Join(parts[1..], sep)
  }

  /** Where the k-th part starts inside `Join(parts, sep)`. */
  function JoinOffset(parts: seq<string>, sep: string, k: nat): nat
    requires k <= |parts|
    decreases k
  {
    if k == 0 then 0 else JoinOffset(parts, sep, k - 1) + |parts[k - 1]| + |sep|
  }

  /** Where `Join` puts part k, and the separator that follows it. */
  ghost predicate PartPlaced(parts: seq<string>, sep: string, k: nat)
    requires k < |parts|
  {
    var j := Join(parts, sep);
    var o := JoinOffset(parts, sep, k);
    && o + |parts[k]| <= |j|
    && j[o..o + |parts[k]|] == parts[k]
    && (k + 1 < |parts| ==>
          && JoinOffset(parts, sep, k + 1) + |parts[k + 1]| <= |j|
          && j[o + |parts[k]|..JoinOffset(parts, sep, k + 1)] == sep)
  }

  /** The joined string is every part, in order, separated by exactly one `sep`. */
  lemma {:induction false} JoinPartAt(parts: seq<string>, sep: string, k: nat)
    requires k < |parts|
    ensures PartPlaced(parts, sep, k)
    decreases |parts|
  {
    if |parts| > 1 {
      if k == 0 {
        JoinFirstPart(parts, sep);
      } else {
        JoinPartAt(parts[1..], sep, k - 1);
        JoinPartShift(parts, sep, k);
      }
    }
  }

  lemma JoinFirstPart(parts: seq<string>, sep: string)
    requires |parts| > 1
    ensures PartPlaced(parts, sep, 0)
  {
    var tail := parts[1..];
    var pre := parts[0] + sep;
    var jt := Join(tail, sep);
    assert Join(parts, sep) == pre + jt;
    JoinNonEmpty(tail, sep);
    assert (pre + jt)[..|parts[0]|] == parts[0];
    assert (pre + jt)[|parts[0]|..|pre|] == sep;
  }

  lemma {:induction false} JoinNonEmpty(parts: seq<string>, sep: string)
    requires |parts| > 0
    ensures |parts[0]| <= |Join(parts, sep)| && Join(parts, sep)[..|parts[0]|] == parts[0]
  {
    if |parts| > 1 {
      assert Join(parts, sep) == parts[0] + (sep + Join(parts[1..], sep));
    }
  }

  lemma JoinPartShift(parts: seq<string>, sep: string, k: nat)
    requires 0 < k < |parts|
    requires PartPlaced(parts[1..], sep, k - 1)
    ensures PartPlaced(parts, sep, k)
  {
    var tail := parts[1..];
    var pre := parts[0] + sep;
    var jt := Join(tail, sep);
    assert Join(parts, sep) == pre + jt;
    assert tail[k - 1] == parts[k];
    JoinOffsetShift(parts, sep, k);
    var o := JoinOffset(tail, sep, k - 1);
    SliceOfAppend(pre, jt, o, o + |parts[k]|);
    if k + 1 < |parts| {
      assert tail[k] == parts[k + 1];
      JoinOffsetShift(parts, sep, k + 1);
      SliceOfAppend(pre, jt, o + |parts[k]|, JoinOffset(tail, sep, k));
    }
  }

  lemma SliceOfAppend(a: string, b: string, i: nat, j: nat)
    requires i <= j <= |b|
    ensures (a + b)[|a| + i..|a| + j] == b[i..j]
  {
  }

  /** Dropping the first part moves every later offset back by that part and one separator. */
  lemma {:induction false} JoinOffsetShift(parts: seq<string>, sep: string, k: nat)
    requires 1 <= k <= |parts|
    ensures JoinOffset(parts, sep, k) == |parts[0]| + |sep| + JoinOffset(parts[1..], sep, k - 1)
    decreases k
  {
    if k > 1 {
      JoinOffsetShift(parts, sep, k - 1);
    }
  }

  /** Parts sit at strictly increasing offsets: a later part never starts before an earlier one ends. */
  lemma {:induction false} JoinOffsetsIncrease(parts: seq<string>, sep: string, i: nat, k: nat)
    requires i < k <= |parts|
    ensures JoinOffset(parts, sep, i) + |parts[i]| + |sep| <= JoinOffset(parts, sep, k)
    decreases k - i
  {
    if i + 1 < k {
      JoinOffsetsIncrease(parts, sep, i, k - 1);
    }
  }
}

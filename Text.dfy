/** The few string operations of JavaScript that the core relies on. */
module Text {

  /** `t` occurs in `s` starting at index `i`. */
  predicate OccursAt(s: string, t: string, i: int) {
    0 <= i && i + |t| <= |s| && s[i..i + |t|] == t
  }

  /** `s.includes(t)`. */
  predicate Contains(s: string, t: string) {
    exists i :: 0 <= i <= |s| - |t| && OccursAt(s, t, i)
  }

  /** A string in which the first character of `t` never appears cannot contain `t`. */
  lemma FirstCharAbsent(s: string, t: string)
    requires |t| > 0 && t[0] !in s
    ensures !Contains(s, t)
  {
  }

  /** The index of the first `c` in `s`, or `|s|` when there is none (`indexOf`, with -1 read as `|s|`). */
  function IndexOf(s: string, c: char): (i: nat)
    ensures i <= |s|
    ensures i < |s| ==> s[i] == c
    ensures forall j :: 0 <= j < i ==> s[j] != c
    ensures i == |s| <==> c !in s
  {
    if |s| == 0 then 0
    else if s[0] == c then 0
    else 1 + IndexOf(s[1..], c)
  }

  /** `s.replace(c, '')` with a one-character pattern: only the FIRST occurrence is
      removed. What comes before it is kept, what comes after it moves up by one. */
  function RemoveFirst(s: string, c: char): (r: string)
    ensures c !in s ==> r == s
    ensures c in s ==> |r| == |s| - 1
    ensures c in s ==> var i := IndexOf(s, c);
      r[..i] == s[..i] && forall k :: i <= k < |r| ==> r[k] == s[k + 1]
  {
    var i := IndexOf(s, c);
    if i == |s| then s else s[..i] + s[i + 1..]
  }

  /** Removing the first `c` takes exactly one `c` out of the characters of `s`. */
  lemma RemoveFirstCount(s: string, c: char)
    ensures multiset(RemoveFirst(s, c)) == if c in s then multiset(s) - multiset{c} else multiset(s)
  {
    var i := IndexOf(s, c);
    if c in s {
      assert s == s[..i] + [c] + s[i + 1..];
    }
  }

  /** `s.split(c)[0]`: everything before the first `c`, or all of `s` when there is none. */
  function Before(s: string, c: char): (r: string)
    ensures |r| <= |s| && r == s[..|r|]
    ensures c !in r
    ensures c in s ==> s[|r|] == c
    ensures c !in s ==> r == s
  {
    s[..IndexOf(s, c)]
  }
}

/** The two JavaScript array built-ins the pager relies on for its listener
    table and its anchor lookup: `Array.prototype.indexOf` and
    `Array.prototype.splice(start, 1)`. */
module JsArray {

  /** `s.indexOf(x)`: the first position holding `x`, or -1. */
  function IndexOf<T(==)>(s: seq<T>, x: T): (i: int)
    ensures -1 <= i < |s|
    ensures i == -1 <==> x !in s
    ensures 0 <= i ==> s[i] == x && x !in s[..i]
  {
    if |s| == 0 then -1
    else if s[0] == x then 0
    else
      var j := IndexOf(s[1..], x);
      assert s[1..][..if j < 0 then 0 else j] == s[1..1 + if j < 0 then 0 else j];
      if j == -1 then -1 else 1 + j
  }

  /** The position `splice` actually starts at: a negative start counts from
      the end and is clamped at 0, a start past the end is clamped to it. */
  function SpliceStart(len: nat, start: int): (k: nat)
    ensures k <= len
    ensures 0 <= start <= len ==> k == start
    ensures start < 0 && 0 <= len + start ==> k == len + start
  {
    if start < 0 then (if len + start < 0 then 0 else len + start)
    else if start > len then len
    else start
  }

  /** `s.splice(start, 1)` applied to `s`: the array left behind. */
  function SpliceOne<T>(s: seq<T>, start: int): (r: seq<T>)
    ensures var k := SpliceStart(|s|, start);
            if k < |s| then r == s[..k] + s[k + 1..] && |r| == |s| - 1 else r == s
  {
    var k := SpliceStart(|s|, start);
    if k < |s| then s[..k] + s[k + 1..] else s
  }

  /** `splice(-1, 1)` removes the last element of a non-empty array and
      leaves an empty one alone. */
  lemma SpliceMinusOne<T>(s: seq<T>)
    ensures |s| > 0 ==> SpliceOne(s, -1) == s[..|s| - 1]
    ensures |s| == 0 ==> SpliceOne(s, -1) == s
  {
    if |s| > 0 {
      assert SpliceStart(|s|, -1) == |s| - 1;
      assert s[|s|..] == [];
    }
  }
}

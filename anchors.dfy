/** Page identifiers and anchors. Each page's `data-anchor` text becomes its
    id by replacing the FIRST run of whitespace with a dash (the regular
    expression `/\s+/` has no `g` flag); pageable.js then lower-cases it and
    index.js does not. The anchor list holds `"#" + id` in page order, and
    anchor lookups use `indexOf` on it. */
module Anchors {
  import opened JsArray

  /** JavaScript's `\s` class. */
  predicate IsSpace(c: char)
  {
    || c == ' ' || c == '\t' || c == '\n' || c == '\r' || c == '\U{B}' || c == '\U{C}'
    || c == '\U{A0}' || c == '\U{1680}' || ('\U{2000}' <= c <= '\U{200A}')
    || c == '\U{2028}' || c == '\U{2029}' || c == '\U{202F}' || c == '\U{205F}'
    || c == '\U{3000}' || c == '\U{FEFF}'
  }

  predicate NoSpace(s: string)
  {
    forall k :: 0 <= k < |s| ==> !IsSpace(s[k])
  }

  /** Where the first whitespace character is, or `|s|` when there is none. */
  function FirstSpace(s: string): (i: nat)
    ensures i <= |s|
    ensures NoSpace(s[..i])
    ensures i < |s| ==> IsSpace(s[i])
  {
    if |s| == 0 then 0
    else if IsSpace(s[0]) then 0
    else
      var j := FirstSpace(s[1..]);
      assert s[..1 + j] == [s[0]] + s[1..][..j];
      1 + j
  }

  /** Where the run of whitespace starting at `i` ends. */
  function RunEnd(s: string, i: nat): (j: nat)
    requires i <= |s|
    ensures i <= j <= |s|
    ensures forall k :: i <= k < j ==> IsSpace(s[k])
    ensures j < |s| ==> !IsSpace(s[j])
    decreases |s| - i
  {
    if i < |s| && IsSpace(s[i]) then RunEnd(s, i + 1) else i
  }

  /** `String.prototype.toLowerCase` on the ASCII letters. */
  function LowerAscii(s: string): (r: string)
    ensures |r| == |s|
    ensures forall k :: 0 <= k < |s| && !('A' <= s[k] <= 'Z') ==> r[k] == s[k]
    ensures forall k :: 0 <= k < |s| && 'A' <= s[k] <= 'Z' ==> r[k] == (s[k] as int + 32) as char
    ensures forall k :: 0 <= k < |r| ==> !('A' <= r[k] <= 'Z')
  {
    if |s| == 0 then []
    else [if 'A' <= s[0] <= 'Z' then (s[0] as int + 32) as char else s[0]] + LowerAscii(s[1..])
  }

  /** `anchor.replace(/\s+/, "-")`, followed by `toLowerCase()` when `lower`. */
  function Slug(anchor: string, lower: bool): (id: string)
    ensures |id| <= |anchor|
    ensures !lower && NoSpace(anchor) ==> id == anchor
    ensures lower ==> forall k :: 0 <= k < |id| ==> !('A' <= id[k] <= 'Z')
  {
    var i := FirstSpace(anchor);
    var replaced := if i == |anchor| then anchor else anchor[..i] + "-" + anchor[RunEnd(anchor, i)..];
    if lower then LowerAscii(replaced) else replaced
  }

  /** The page ids, in page order. */
  function Ids(pages: seq<string>, lower: bool): (ids: seq<string>)
    ensures |ids| == |pages|
    ensures forall k :: 0 <= k < |pages| ==> |ids[k]| <= |pages[k]|
    ensures !lower ==> forall k :: 0 <= k < |pages| && NoSpace(pages[k]) ==> ids[k] == pages[k]
    ensures lower ==> forall k, c :: 0 <= k < |pages| && 0 <= c < |ids[k]| ==> !('A' <= ids[k][c] <= 'Z')
    ensures forall k :: 0 <= k < |pages| ==> ids[k] == Slug(pages[k], lower)
  {
    seq(|pages|, k requires 0 <= k < |pages| => Slug(pages[k], lower))
  }

  /** The anchor list: `"#" + id` for every page, in page order. */
  function AnchorList(ids: seq<string>): (anchors: seq<string>)
    ensures |anchors| == |ids|
    ensures forall k :: 0 <= k < |ids| ==> |anchors[k]| > 0 && anchors[k][0] == '#' && anchors[k][1..] == ids[k]
  {
    seq(|ids|, k requires 0 <= k < |ids| => "#" + ids[k])
  }

  /** Only the first run of whitespace becomes a dash: the text before it is
      kept, and everything after it, including any later whitespace, is
      copied unchanged. A name without whitespace is its own id. */
  lemma SlugReplacesFirstRunOnly(anchor: string)
    ensures NoSpace(anchor) ==> Slug(anchor, false) == anchor
    ensures !NoSpace(anchor) ==>
              exists i, j :: 0 <= i < j <= |anchor| && NoSpace(anchor[..i]) &&
                (forall k :: i <= k < j ==> IsSpace(anchor[k])) &&
                (j < |anchor| ==> !IsSpace(anchor[j])) &&
                Slug(anchor, false) == anchor[..i] + "-" + anchor[j..]
  {
    var i := FirstSpace(anchor);
    if i == |anchor| {
      assert anchor[..i] == anchor;
    } else {
      var j := RunEnd(anchor, i);
      assert IsSpace(anchor[i]);
      assert i < j;
    }
  }

  /** The current version's id is the earlier version's id with its ASCII
      letters lowered: lower-casing comes after the replacement and changes
      nothing else. */
  lemma {:induction false} SlugLowersTheReplacement(anchor: string)
    ensures Slug(anchor, true) == LowerAscii(Slug(anchor, false))
  {
  }

  /** Two words separated by one space give a dashed id. */
  lemma SlugOfTwoWords()
    ensures Slug("About us", false) == "About-us"
  {
    var a := "About us";
    assert FirstSpace(a[5..]) == 0;
    assert FirstSpace(a) == 5;
    assert RunEnd(a, 6) == 6;
    assert a[..5] + "-" + a[6..] == "About-us";
  }

  /** A second run of whitespace survives: the replacement is not global. */
  lemma SlugKeepsSecondRun()
    ensures Slug("a b  c", false) == "a-b  c"
  {
    var b := "a b  c";
    assert FirstSpace(b[1..]) == 0;
    assert FirstSpace(b) == 1;
    assert RunEnd(b, 2) == 2;
    assert b[..1] + "-" + b[2..] == "a-b  c";
  }

  /** pageable.js lower-cases the dashed id. */
  lemma SlugLowerCases()
    ensures Slug("A B", true) == "a-b"
  {
    var c := "A B";
    assert FirstSpace(c[1..]) == 0;
    assert FirstSpace(c) == 1;
    assert RunEnd(c, 2) == 2;
    assert c[..1] + "-" + c[2..] == "A-B";
    assert LowerAscii("B") == "b";
    assert LowerAscii("-B") == "-b";
  }

  /** With distinct ids, looking up the anchor of page `k` finds `k`: the
      lookup behind `scrollToAnchor` and the location-hash restore. */
  lemma {:induction false} AnchorLookupFindsPage(ids: seq<string>, k: int)
    requires 0 <= k < |ids|
    requires forall a, b :: 0 <= a < b < |ids| ==> ids[a] != ids[b]
    ensures IndexOf(AnchorList(ids), "#" + ids[k]) == k
  {
    var anchors := AnchorList(ids);
    var x := "#" + ids[k];
    var i := IndexOf(anchors, x);
    assert anchors[k] == x;
    forall j | 0 <= j < i
      ensures anchors[j] != x
    {
      assert anchors[..i][j] == anchors[j];
    }
    var a := anchors[i];
    assert a[1..] == ids[i];
    assert a[1..] == ids[k];
  }

  /** A hash that does not start with `#` never names a page. */
  lemma HashWithoutMarkIsUnknown(ids: seq<string>, hash: string)
    requires |hash| == 0 || hash[0] != '#'
    ensures IndexOf(AnchorList(ids), hash) == -1
  {
    var anchors := AnchorList(ids);
    forall j | 0 <= j < |anchors|
      ensures anchors[j] != hash
    {
      assert anchors[j][0] == '#';
    }
  }
}

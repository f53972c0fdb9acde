/** String operations the backend takes from Python's `str`: slicing with
    clamped bounds, `sep.join`, `str(n)` for a non-negative int, and
    `strip()`. */
module Text {

  /** Python's `s[i:j]` for non-negative bounds: both bounds are clamped to
      the length, and an inverted range is empty. */
  function Slice(s: string, i: nat, j: nat): (r: string)
    ensures i <= j <= |s| ==> r == s[i..j]
    ensures j <= i ==> r == ""
    ensures |r| <= |s|
  {
    var lo := if i < |s| then i else |s|;
    var hi := if j < |s| then j else |s|;
    if lo <= hi then s[lo..hi] else ""
  }

  /** `x` stands in `s` starting at position `k`. */
  predicate OccursAt(x: string, s: string, k: nat)
  {
    k + |x| <= |s| && s[k..k + |x|] == x
  }

  /** Python's substring test `x in s`. */
  predicate IsInfix(x: string, s: string)
  {
    exists k: nat :: k <= |s| && OccursAt(x, s, k)
  }

  lemma OccursBetween(pre: string, x: string, post: string)
    ensures OccursAt(x, pre + x + post, |pre|)
  {
    assert (pre + x + post)[|pre|..|pre| + |x|] == x;
  }

  /** `x` put between `pre` and `post`: the three parts can be read back. */
  lemma Framed(pre: string, x: string, post: string)
    ensures (pre + x + post)[..|pre|] == pre
    ensures OccursAt(x, pre + x + post, |pre|)
    ensures (pre + x + post)[|pre| + |x|..] == post
  {
    OccursBetween(pre, x, post);
  }

  /** An occurrence in a prefix is an occurrence in the whole string. */
  lemma OccursBefore(x: string, s: string, k: nat, post: string)
    requires OccursAt(x, s, k)
    ensures OccursAt(x, s + post, k)
  {
    assert (s + post)[k..k + |x|] == s[k..k + |x|];
  }

  /** An f-string with one interpolated value `h0` between the fixed
      texts `p0` and `p1`: each part can be read back at its position. */
  function Format1(p0: string, h0: string, p1: string): (r: string)
    ensures |r| == |p0| + |h0| + |p1|
    ensures OccursAt(p0, r, 0)
    ensures OccursAt(h0, r, |p0|)
    ensures r[|p0| + |h0|..] == p1
  {
    Template1(p0, h0, p1);
    p0 + h0 + p1
  }

  /** An f-string with 2 interpolated values, read back part by part. */
  function Format2(p0: string, h0: string, p1: string, h1: string, p2: string): (r: string)
    ensures |r| == |p0| + |h0| + |p1| + |h1| + |p2|
    ensures OccursAt(p0, r, 0)
    ensures OccursAt(h0, r, |p0|)
    ensures OccursAt(h1, r, |p0| + |h0| + |p1|)
    ensures r[|p0| + |h0| + |p1| + |h1|..] == p2
  {
    Template2(p0, h0, p1, h1, p2);
    p0 + h0 + p1 + h1 + p2
  }

  /** An f-string with 3 interpolated values, read back part by part. */
  function Format3(p0: string, h0: string, p1: string, h1: string, p2: string, h2: string, p3: string): (r: string)
    ensures |r| == |p0| + |h0| + |p1| + |h1| + |p2| + |h2| + |p3|
    ensures OccursAt(p0, r, 0)
    ensures OccursAt(h0, r, |p0|)
    ensures OccursAt(h1, r, |p0| + |h0| + |p1|)
    ensures OccursAt(h2, r, |p0| + |h0| + |p1| + |h1| + |p2|)
    ensures r[|p0| + |h0| + |p1| + |h1| + |p2| + |h2|..] == p3
  {
    Template3(p0, h0, p1, h1, p2, h2, p3);
    p0 + h0 + p1 + h1 + p2 + h2 + p3
  }

  /** An f-string with 4 interpolated values, read back part by part. */
  function Format4(p0: string, h0: string, p1: string, h1: string, p2: string, h2: string, p3: string, h3: string, p4: string): (r: string)
    ensures |r| == |p0| + |h0| + |p1| + |h1| + |p2| + |h2| + |p3| + |h3| + |p4|
    ensures OccursAt(p0, r, 0)
    ensures OccursAt(h0, r, |p0|)
    ensures OccursAt(h1, r, |p0| + |h0| + |p1|)
    ensures OccursAt(h2, r, |p0| + |h0| + |p1| + |h1| + |p2|)
    ensures OccursAt(h3, r, |p0| + |h0| + |p1| + |h1| + |p2| + |h2| + |p3|)
    ensures r[|p0| + |h0| + |p1| + |h1| + |p2| + |h2| + |p3| + |h3|..] == p4
  {
    Template4(p0, h0, p1, h1, p2, h2, p3, h3, p4);
    p0 + h0 + p1 + h1 + p2 + h2 + p3 + h3 + p4
  }

  /** An f-string with 5 interpolated values, read back part by part. */
  function Format5(p0: string, h0: string, p1: string, h1: string, p2: string, h2: string, p3: string, h3: string, p4: string, h4: string, p5: string): (r: string)
    ensures |r| == |p0| + |h0| + |p1| + |h1| + |p2| + |h2| + |p3| + |h3| + |p4| + |h4| + |p5|
    ensures OccursAt(p0, r, 0)
    ensures OccursAt(h0, r, |p0|)
    ensures OccursAt(h1, r, |p0| + |h0| + |p1|)
    ensures OccursAt(h2, r, |p0| + |h0| + |p1| + |h1| + |p2|)
    ensures OccursAt(h3, r, |p0| + |h0| + |p1| + |h1| + |p2| + |h2| + |p3|)
    ensures OccursAt(h4, r, |p0| + |h0| + |p1| + |h1| + |p2| + |h2| + |p3| + |h3| + |p4|)
    ensures r[|p0| + |h0| + |p1| + |h1| + |p2| + |h2| + |p3| + |h3| + |p4| + |h4|..] == p5
  {
    Template5(p0, h0, p1, h1, p2, h2, p3, h3, p4, h4, p5);
    p0 + h0 + p1 + h1 + p2 + h2 + p3 + h3 + p4 + h4 + p5
  }

  /** An f-string with 6 interpolated values, read back part by part. */
  function Format6(p0: string, h0: string, p1: string, h1: string, p2: string, h2: string, p3: string, h3: string, p4: string, h4: string, p5: string, h5: string, p6: string): (r: string)
    ensures |r| == |p0| + |h0| + |p1| + |h1| + |p2| + |h2| + |p3| + |h3| + |p4| + |h4| + |p5| + |h5| + |p6|
    ensures OccursAt(p0, r, 0)
    ensures OccursAt(h0, r, |p0|)
    ensures OccursAt(h1, r, |p0| + |h0| + |p1|)
    ensures OccursAt(h2, r, |p0| + |h0| + |p1| + |h1| + |p2|)
    ensures OccursAt(h3, r, |p0| + |h0| + |p1| + |h1| + |p2| + |h2| + |p3|)
    ensures OccursAt(h4, r, |p0| + |h0| + |p1| + |h1| + |p2| + |h2| + |p3| + |h3| + |p4|)
    ensures OccursAt(h5, r, |p0| + |h0| + |p1| + |h1| + |p2| + |h2| + |p3| + |h3| + |p4| + |h4| + |p5|)
    ensures r[|p0| + |h0| + |p1| + |h1| + |p2| + |h2| + |p3| + |h3| + |p4| + |h4| + |p5| + |h5|..] == p6
  {
    Template6(p0, h0, p1, h1, p2, h2, p3, h3, p4, h4, p5, h5, p6);
    p0 + h0 + p1 + h1 + p2 + h2 + p3 + h3 + p4 + h4 + p5 + h5 + p6
  }

  /** An f-string with 7 interpolated values, read back part by part. */
  function Format7(p0: string, h0: string, p1: string, h1: string, p2: string, h2: string, p3: string, h3: string, p4: string, h4: string, p5: string, h5: string, p6: string, h6: string, p7: string): (r: string)
    ensures |r| == |p0| + |h0| + |p1| + |h1| + |p2| + |h2| + |p3| + |h3| + |p4| + |h4| + |p5| + |h5| + |p6| + |h6| + |p7|
    ensures OccursAt(p0, r, 0)
    ensures OccursAt(h0, r, |p0|)
    ensures OccursAt(h1, r, |p0| + |h0| + |p1|)
    ensures OccursAt(h2, r, |p0| + |h0| + |p1| + |h1| + |p2|)
    ensures OccursAt(h3, r, |p0| + |h0| + |p1| + |h1| + |p2| + |h2| + |p3|)
    ensures OccursAt(h4, r, |p0| + |h0| + |p1| + |h1| + |p2| + |h2| + |p3| + |h3| + |p4|)
    ensures OccursAt(h5, r, |p0| + |h0| + |p1| + |h1| + |p2| + |h2| + |p3| + |h3| + |p4| + |h4| + |p5|)
    ensures OccursAt(h6, r, |p0| + |h0| + |p1| + |h1| + |p2| + |h2| + |p3| + |h3| + |p4| + |h4| + |p5| + |h5| + |p6|)
    ensures r[|p0| + |h0| + |p1| + |h1| + |p2| + |h2| + |p3| + |h3| + |p4| + |h4| + |p5| + |h5| + |p6| + |h6|..] == p7
  {
    Template7(p0, h0, p1, h1, p2, h2, p3, h3, p4, h4, p5, h5, p6, h6, p7);
    p0 + h0 + p1 + h1 + p2 + h2 + p3 + h3 + p4 + h4 + p5 + h5 + p6 + h6 + p7
  }

  lemma Template1(p0: string, h0: string, p1: string)
    ensures var r := p0 + h0 + p1;
      OccursAt(p0, r, 0)
      && OccursAt(h0, r, |p0|)
      && r[|p0| + |h0|..] == p1
  {
    Framed(p0, h0, p1);
    assert OccursAt(p0, p0 + h0 + p1, 0);
  }

  lemma Template2(p0: string, h0: string, p1: string, h1: string, p2: string)
    ensures var r := p0 + h0 + p1 + h1 + p2;
      OccursAt(p0, r, 0)
      && OccursAt(h0, r, |p0|)
      && OccursAt(h1, r, |p0| + |h0| + |p1|)
      && r[|p0| + |h0| + |p1| + |h1|..] == p2
  {
    Template1(p0, h0, p1);
    var pre := p0 + h0 + p1;
    Framed(pre, h1, p2);
    OccursBefore(h0, pre, |p0|, h1);
    OccursBefore(h0, pre + h1, |p0|, p2);
    OccursBefore(p0, pre, 0, h1);
    OccursBefore(p0, pre + h1, 0, p2);
  }

  lemma Template3(p0: string, h0: string, p1: string, h1: string, p2: string, h2: string, p3: string)
    ensures var r := p0 + h0 + p1 + h1 + p2 + h2 + p3;
      OccursAt(p0, r, 0)
      && OccursAt(h0, r, |p0|)
      && OccursAt(h1, r, |p0| + |h0| + |p1|)
      && OccursAt(h2, r, |p0| + |h0| + |p1| + |h1| + |p2|)
      && r[|p0| + |h0| + |p1| + |h1| + |p2| + |h2|..] == p3
  {
    Template2(p0, h0, p1, h1, p2);
    var pre := p0 + h0 + p1 + h1 + p2;
    Framed(pre, h2, p3);
    OccursBefore(h0, pre, |p0|, h2);
    OccursBefore(h0, pre + h2, |p0|, p3);
    OccursBefore(h1, pre, |p0| + |h0| + |p1|, h2);
    OccursBefore(h1, pre + h2, |p0| + |h0| + |p1|, p3);
    OccursBefore(p0, pre, 0, h2);
    OccursBefore(p0, pre + h2, 0, p3);
  }

  lemma Template4(p0: string, h0: string, p1: string, h1: string, p2: string, h2: string, p3: string, h3: string, p4: string)
    ensures var r := p0 + h0 + p1 + h1 + p2 + h2 + p3 + h3 + p4;
      OccursAt(p0, r, 0)
      && OccursAt(h0, r, |p0|)
      && OccursAt(h1, r, |p0| + |h0| + |p1|)
      && OccursAt(h2, r, |p0| + |h0| + |p1| + |h1| + |p2|)
      && OccursAt(h3, r, |p0| + |h0| + |p1| + |h1| + |p2| + |h2| + |p3|)
      && r[|p0| + |h0| + |p1| + |h1| + |p2| + |h2| + |p3| + |h3|..] == p4
  {
    Template3(p0, h0, p1, h1, p2, h2, p3);
    var pre := p0 + h0 + p1 + h1 + p2 + h2 + p3;
    Framed(pre, h3, p4);
    OccursBefore(h0, pre, |p0|, h3);
    OccursBefore(h0, pre + h3, |p0|, p4);
    OccursBefore(h1, pre, |p0| + |h0| + |p1|, h3);
    OccursBefore(h1, pre + h3, |p0| + |h0| + |p1|, p4);
    OccursBefore(h2, pre, |p0| + |h0| + |p1| + |h1| + |p2|, h3);
    OccursBefore(h2, pre + h3, |p0| + |h0| + |p1| + |h1| + |p2|, p4);
    OccursBefore(p0, pre, 0, h3);
    OccursBefore(p0, pre + h3, 0, p4);
  }

  lemma Template5(p0: string, h0: string, p1: string, h1: string, p2: string, h2: string, p3: string, h3: string, p4: string, h4: string, p5: string)
    ensures var r := p0 + h0 + p1 + h1 + p2 + h2 + p3 + h3 + p4 + h4 + p5;
      OccursAt(p0, r, 0)
      && OccursAt(h0, r, |p0|)
      && OccursAt(h1, r, |p0| + |h0| + |p1|)
      && OccursAt(h2, r, |p0| + |h0| + |p1| + |h1| + |p2|)
      && OccursAt(h3, r, |p0| + |h0| + |p1| + |h1| + |p2| + |h2| + |p3|)
      && OccursAt(h4, r, |p0| + |h0| + |p1| + |h1| + |p2| + |h2| + |p3| + |h3| + |p4|)
      && r[|p0| + |h0| + |p1| + |h1| + |p2| + |h2| + |p3| + |h3| + |p4| + |h4|..] == p5
  {
    Template4(p0, h0, p1, h1, p2, h2, p3, h3, p4);
    var pre := p0 + h0 + p1 + h1 + p2 + h2 + p3 + h3 + p4;
    Framed(pre, h4, p5);
    OccursBefore(h0, pre, |p0|, h4);
    OccursBefore(h0, pre + h4, |p0|, p5);
    OccursBefore(h1, pre, |p0| + |h0| + |p1|, h4);
    OccursBefore(h1, pre + h4, |p0| + |h0| + |p1|, p5);
    OccursBefore(h2, pre, |p0| + |h0| + |p1| + |h1| + |p2|, h4);
    OccursBefore(h2, pre + h4, |p0| + |h0| + |p1| + |h1| + |p2|, p5);
    OccursBefore(h3, pre, |p0| + |h0| + |p1| + |h1| + |p2| + |h2| + |p3|, h4);
    OccursBefore(h3, pre + h4, |p0| + |h0| + |p1| + |h1| + |p2| + |h2| + |p3|, p5);
    OccursBefore(p0, pre, 0, h4);
    OccursBefore(p0, pre + h4, 0, p5);
  }

  lemma Template6(p0: string, h0: string, p1: string, h1: string, p2: string, h2: string, p3: string, h3: string, p4: string, h4: string, p5: string, h5: string, p6: string)
    ensures var r := p0 + h0 + p1 + h1 + p2 + h2 + p3 + h3 + p4 + h4 + p5 + h5 + p6;
      OccursAt(p0, r, 0)
      && OccursAt(h0, r, |p0|)
      && OccursAt(h1, r, |p0| + |h0| + |p1|)
      && OccursAt(h2, r, |p0| + |h0| + |p1| + |h1| + |p2|)
      && OccursAt(h3, r, |p0| + |h0| + |p1| + |h1| + |p2| + |h2| + |p3|)
      && OccursAt(h4, r, |p0| + |h0| + |p1| + |h1| + |p2| + |h2| + |p3| + |h3| + |p4|)
      && OccursAt(h5, r, |p0| + |h0| + |p1| + |h1| + |p2| + |h2| + |p3| + |h3| + |p4| + |h4| + |p5|)
      && r[|p0| + |h0| + |p1| + |h1| + |p2| + |h2| + |p3| + |h3| + |p4| + |h4| + |p5| + |h5|..] == p6
  {
    Template5(p0, h0, p1, h1, p2, h2, p3, h3, p4, h4, p5);
    var pre := p0 + h0 + p1 + h1 + p2 + h2 + p3 + h3 + p4 + h4 + p5;
    Framed(pre, h5, p6);
    OccursBefore(h0, pre, |p0|, h5);
    OccursBefore(h0, pre + h5, |p0|, p6);
    OccursBefore(h1, pre, |p0| + |h0| + |p1|, h5);
    OccursBefore(h1, pre + h5, |p0| + |h0| + |p1|, p6);
    OccursBefore(h2, pre, |p0| + |h0| + |p1| + |h1| + |p2|, h5);
    OccursBefore(h2, pre + h5, |p0| + |h0| + |p1| + |h1| + |p2|, p6);
    OccursBefore(h3, pre, |p0| + |h0| + |p1| + |h1| + |p2| + |h2| + |p3|, h5);
    OccursBefore(h3, pre + h5, |p0| + |h0| + |p1| + |h1| + |p2| + |h2| + |p3|, p6);
    OccursBefore(h4, pre, |p0| + |h0| + |p1| + |h1| + |p2| + |h2| + |p3| + |h3| + |p4|, h5);
    OccursBefore(h4, pre + h5, |p0| + |h0| + |p1| + |h1| + |p2| + |h2| + |p3| + |h3| + |p4|, p6);
    OccursBefore(p0, pre, 0, h5);
    OccursBefore(p0, pre + h5, 0, p6);
  }

  lemma Template7(p0: string, h0: string, p1: string, h1: string, p2: string, h2: string, p3: string, h3: string, p4: string, h4: string, p5: string, h5: string, p6: string, h6: string, p7: string)
    ensures var r := p0 + h0 + p1 + h1 + p2 + h2 + p3 + h3 + p4 + h4 + p5 + h5 + p6 + h6 + p7;
      OccursAt(p0, r, 0)
      && OccursAt(h0, r, |p0|)
      && OccursAt(h1, r, |p0| + |h0| + |p1|)
      && OccursAt(h2, r, |p0| + |h0| + |p1| + |h1| + |p2|)
      && OccursAt(h3, r, |p0| + |h0| + |p1| + |h1| + |p2| + |h2| + |p3|)
      && OccursAt(h4, r, |p0| + |h0| + |p1| + |h1| + |p2| + |h2| + |p3| + |h3| + |p4|)
      && OccursAt(h5, r, |p0| + |h0| + |p1| + |h1| + |p2| + |h2| + |p3| + |h3| + |p4| + |h4| + |p5|)
      && OccursAt(h6, r, |p0| + |h0| + |p1| + |h1| + |p2| + |h2| + |p3| + |h3| + |p4| + |h4| + |p5| + |h5| + |p6|)
      && r[|p0| + |h0| + |p1| + |h1| + |p2| + |h2| + |p3| + |h3| + |p4| + |h4| + |p5| + |h5| + |p6| + |h6|..] == p7
  {
    Template6(p0, h0, p1, h1, p2, h2, p3, h3, p4, h4, p5, h5, p6);
    var pre := p0 + h0 + p1 + h1 + p2 + h2 + p3 + h3 + p4 + h4 + p5 + h5 + p6;
    Framed(pre, h6, p7);
    OccursBefore(h0, pre, |p0|, h6);
    OccursBefore(h0, pre + h6, |p0|, p7);
    OccursBefore(h1, pre, |p0| + |h0| + |p1|, h6);
    OccursBefore(h1, pre + h6, |p0| + |h0| + |p1|, p7);
    OccursBefore(h2, pre, |p0| + |h0| + |p1| + |h1| + |p2|, h6);
    OccursBefore(h2, pre + h6, |p0| + |h0| + |p1| + |h1| + |p2|, p7);
    OccursBefore(h3, pre, |p0| + |h0| + |p1| + |h1| + |p2| + |h2| + |p3|, h6);
    OccursBefore(h3, pre + h6, |p0| + |h0| + |p1| + |h1| + |p2| + |h2| + |p3|, p7);
    OccursBefore(h4, pre, |p0| + |h0| + |p1| + |h1| + |p2| + |h2| + |p3| + |h3| + |p4|, h6);
    OccursBefore(h4, pre + h6, |p0| + |h0| + |p1| + |h1| + |p2| + |h2| + |p3| + |h3| + |p4|, p7);
    OccursBefore(h5, pre, |p0| + |h0| + |p1| + |h1| + |p2| + |h2| + |p3| + |h3| + |p4| + |h4| + |p5|, h6);
    OccursBefore(h5, pre + h6, |p0| + |h0| + |p1| + |h1| + |p2| + |h2| + |p3| + |h3| + |p4| + |h4| + |p5|, p7);
    OccursBefore(p0, pre, 0, h6);
    OccursBefore(p0, pre + h6, 0, p7);
  }

  /** An occurrence survives putting text around it. */
  lemma OccursWithin(x: string, s: string, k: nat, pre: string, post: string)
    requires OccursAt(x, s, k)
    ensures OccursAt(x, pre + s + post, |pre| + k)
  {
    assert (pre + s + post)[|pre| + k..|pre| + k + |x|] == s[k..k + |x|];
  }

  /** A substring of a substring of `s` is a substring of `s`. */
  lemma InfixTransitive(x: string, y: string, s: string)
    requires IsInfix(x, y) && IsInfix(y, s)
    ensures IsInfix(x, s)
  {
    var i: nat :| i <= |y| && OccursAt(x, y, i);
    var j: nat :| j <= |s| && OccursAt(y, s, j);
    forall k | 0 <= k < |x|
      ensures s[j + i + k] == x[k]
    {
      assert s[j..j + |y|][i + k] == y[i + k];
      assert y[i..i + |x|][k] == x[k];
    }
    assert s[j + i..j + i + |x|] == x;
    assert OccursAt(x, s, j + i);
  }

  /** Python's `sep.join(parts)`. */
  function Join(parts: seq<string>, sep: string): (r: string)
    ensures parts == [] ==> r == ""
    ensures |parts| == 1 ==> r == parts[0]
    ensures |parts| == 2 ==> r == parts[0] + sep + parts[1]
  {
    if parts == [] then ""
    else if |parts| == 1 then parts[0]
    else Join(parts[..|parts| - 1], sep) + sep + parts[|parts| - 1]
  }

  /** Joining also peels off from the front: the first part, the
      separator, then the join of the other parts. With the cases of
      `Join` itself this fixes the whole layout: the parts in order, one
      separator between each two. */
  lemma {:induction false} JoinCons(first: string, rest: seq<string>, sep: string)
    requires rest != []
    ensures Join([first] + rest, sep) == first + sep + Join(rest, sep)
    decreases |rest|
  {
    var parts := [first] + rest;
    if |rest| >= 2 {
      var init := rest[..|rest| - 1];
      JoinCons(first, init, sep);
      assert parts[..|parts| - 1] == [first] + init;
      assert parts[|parts| - 1] == rest[|rest| - 1];
    }
  }

  /** Every part can be found in the joined string. */
  lemma {:induction false} JoinMentionsEach(parts: seq<string>, sep: string)
    ensures forall k :: 0 <= k < |parts| ==> IsInfix(parts[k], Join(parts, sep))
  {
    if |parts| >= 2 {
      var init, last := parts[..|parts| - 1], parts[|parts| - 1];
      var j := Join(init, sep);
      JoinMentionsEach(init, sep);
      assert Join(parts, sep) == j + (sep + last);
      forall k | 0 <= k < |parts|
        ensures IsInfix(parts[k], Join(parts, sep))
      {
        if k < |parts| - 1 {
          assert IsInfix(init[k], j);
          var p: nat :| p <= |j| && OccursAt(init[k], j, p);
          OccursWithin(init[k], j, p, "", sep + last);
          assert "" + j + (sep + last) == Join(parts, sep);
          assert OccursAt(parts[k], Join(parts, sep), p);
        } else {
          OccursBetween(j + sep, last, "");
          assert j + sep + last + "" == Join(parts, sep);
          assert OccursAt(parts[k], Join(parts, sep), |j + sep|);
        }
      }
    } else if |parts| == 1 {
      assert OccursAt(parts[0], Join(parts, sep), 0);
    }
  }

  predicate IsDigit(c: char)
  {
    '0' <= c <= '9'
  }

  predicate AllDigits(s: string)
  {
    forall i :: 0 <= i < |s| ==> IsDigit(s[i])
  }

  function DigitChar(d: nat): (c: char)
    requires d < 10
    ensures IsDigit(c)
  {
    (48 + d) as char
  }

  /** Python's `str(n)` for `n >= 0`: decimal digits, no leading zero. */
  function NatToString(n: nat): (r: string)
    ensures |r| >= 1 && AllDigits(r)
    ensures r[0] == '0' <==> n == 0
    ensures n < 10 <==> |r| == 1
  {
    if n < 10 then [DigitChar(n)]
    else NatToString(n / 10) + [DigitChar(n % 10)]
  }

  /** The value of a string of decimal digits (the inverse of `NatToString`). */
  function DigitsValue(s: string): nat
    requires AllDigits(s)
  {
    if s == [] then 0
    else DigitsValue(s[..|s| - 1]) * 10 + ((s[|s| - 1] as int) - 48)
  }

  lemma {:induction false} NatToStringRoundTrip(n: nat)
    ensures DigitsValue(NatToString(n)) == n
  {
    if n >= 10 {
      var r := NatToString(n);
      NatToStringRoundTrip(n / 10);
      assert r[..|r| - 1] == NatToString(n / 10);
    }
  }

  lemma NatToStringInjective(m: nat, n: nat)
    ensures NatToString(m) == NatToString(n) ==> m == n
  {
    NatToStringRoundTrip(m);
    NatToStringRoundTrip(n);
  }

  /** Python's `str.isspace()` for one character: the characters that
      `str.strip()` with no argument removes. */
  predicate IsSpace(c: char)
  {
    ('\t' <= c <= '\r') || ('\U{1C}' <= c <= ' ') || c == '\U{85}' || c == '\U{A0}'
    || c == '\U{1680}' || ('\U{2000}' <= c <= '\U{200A}') || c == '\U{2028}'
    || c == '\U{2029}' || c == '\U{202F}' || c == '\U{205F}' || c == '\U{3000}'
  }

  /** `s.lstrip()`: the longest suffix of `s` that does not start with whitespace. */
  function TrimStart(s: string): (r: string)
    ensures |r| <= |s| && r == s[|s| - |r|..]
    ensures r != [] ==> !IsSpace(r[0])
    ensures forall i :: 0 <= i < |s| - |r| ==> IsSpace(s[i])
  {
    if s != [] && IsSpace(s[0]) then TrimStart(s[1..]) else s
  }

  /** `s.rstrip()`: the longest prefix of `s` that does not end with whitespace. */
  function TrimEnd(s: string): (r: string)
    ensures |r| <= |s| && r == s[..|r|]
    ensures r != [] ==> !IsSpace(r[|r| - 1])
    ensures forall i :: |r| <= i < |s| ==> IsSpace(s[i])
  {
    if s != [] && IsSpace(s[|s| - 1]) then TrimEnd(s[..|s| - 1]) else s
  }

  /** Python's `s.strip()`: the part of `s` left after its leading and
      trailing whitespace, found where the leading whitespace ends; all that
      is removed is whitespace, and what is kept neither starts nor ends
      with whitespace. */
  function Strip(s: string): (r: string)
    ensures r != [] ==> !IsSpace(r[0]) && !IsSpace(r[|r| - 1])
    ensures var k := |s| - |TrimStart(s)|;
      && OccursAt(r, s, k)
      && (forall i :: 0 <= i < k ==> IsSpace(s[i]))
      && (forall i :: k + |r| <= i < |s| ==> IsSpace(s[i]))
    ensures IsInfix(r, s)
  {
    var t := TrimStart(s);
    var r := TrimEnd(t);
    StripLayout(s, t, r);
    r
  }

  /** Where the stripped text sits: a prefix `r` of a suffix `t` of `s`,
      followed in `t` by whitespace only, occurs in `s` where `t` starts and
      is followed in `s` by whitespace only. */
  lemma StripLayout(s: string, t: string, r: string)
    requires |t| <= |s| && t == s[|s| - |t|..]
    requires |r| <= |t| && r == t[..|r|]
    requires forall i :: |r| <= i < |t| ==> IsSpace(t[i])
    ensures OccursAt(r, s, |s| - |t|)
    ensures forall i :: |s| - |t| + |r| <= i < |s| ==> IsSpace(s[i])
  {
    var k := |s| - |t|;
    assert s[k..k + |r|] == r;
    forall i | k + |r| <= i < |s|
      ensures IsSpace(s[i])
    {
      assert s[i] == t[i - k];
    }
  }
}

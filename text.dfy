/**
 * String building blocks shared by every renderer: JavaScript's
 * `Array.prototype.join`, template-string interpolation of `undefined`,
 * and the split of a document into its physical lines.
 */
module Text {
  import opened Wrappers

  /** `xs.join(sep)`: the elements in order, `sep` between neighbours. */
  function Join(sep: string, xs: seq<string>): string {
    if |xs| == 0 then ""
    else if |xs| == 1 then xs[0]
    else xs[0] + sep + Join(sep, xs[1..])
  }

  /** `${value}` in a template string: an absent value prints as `undefined`. */
  function Shown(value: Option<string>): string {
    match value
    case Some(s) => s
    case None => "undefined"
  }

  /**
   * How `Array.prototype.join` (and so `${array}`) prints one element:
   * an `undefined` element prints as the empty string.
   */
  function JoinedElement(value: Option<string>): string {
    match value
    case Some(s) => s
    case None => ""
  }

  /** True when `s` holds no line break. */
  predicate SingleLine(s: string) {
    '\n' !in s
  }

  /** True when no element of `xs` holds a line break. */
  predicate AllSingleLine(xs: seq<string>) {
    forall i :: 0 <= i < |xs| ==> SingleLine(xs[i])
  }

  /** `s.split("\n")`: the physical lines of `s`; the empty string is one empty line. */
  function Lines(s: string): (r: seq<string>)
    ensures |r| >= 1
  {
    if s == "" then [""]
    else
      var rest := Lines(s[1..]);
      if s[0] == '\n' then [""] + rest
      else [[s[0]] + rest[0]] + rest[1..]
  }

  /** The lines of each element of `xs`, element by element. */
  function LinesEach(xs: seq<string>): (r: seq<seq<string>>)
    ensures |r| == |xs|
  {
    seq(|xs|, i requires 0 <= i < |xs| => Lines(xs[i]))
  }

  /** The concatenation of a sequence of line lists. */
  function Flatten(xss: seq<seq<string>>): seq<string> {
    if xss == [] then [] else xss[0] + Flatten(xss[1..])
  }

  /** True when `sub` occurs in `s` starting at position `k`. */
  ghost predicate OccursAt(s: string, sub: string, k: int) {
    0 <= k <= |s| - |sub| && s[k..k + |sub|] == sub
  }

  /** True when `sub` occurs in `s` as a contiguous piece. */
  ghost predicate Contains(s: string, sub: string) {
    exists k :: OccursAt(s, sub, k)
  }

  /** A string without line breaks is a single line. */
  lemma {:induction false} LinesOfSingleLine(s: string)
    requires SingleLine(s)
    ensures Lines(s) == [s]
  {
    if s != "" {
      assert SingleLine(s[1..]) by {
        assert forall i :: 0 <= i < |s[1..]| ==> s[1..][i] == s[i + 1];
      }
      LinesOfSingleLine(s[1..]);
      assert [s[0]] + s[1..] == s;
    }
  }

  /** Splitting at a line break splits the line lists: the break separates exactly `a` from `b`. */
  lemma {:induction false} LinesAcrossBreak(a: string, b: string)
    ensures Lines(a + "\n" + b) == Lines(a) + Lines(b)
  {
    if a == "" {
      assert a + "\n" + b == "\n" + b;
      assert ("\n" + b)[1..] == b;
    } else {
      var s := a + "\n" + b;
      assert s[1..] == a[1..] + "\n" + b;
      assert s[0] == a[0];
      LinesAcrossBreak(a[1..], b);
    }
  }

  /**
   * Joining with line breaks and splitting again loses nothing and adds
   * nothing: the lines of the whole are the lines of the parts, in order.
   */
  lemma {:induction false} LinesOfJoin(xs: seq<string>)
    requires |xs| > 0
    ensures Lines(Join("\n", xs)) == Flatten(LinesEach(xs))
  {
    if |xs| == 1 {
      assert Flatten(LinesEach(xs)) == Lines(xs[0]) + Flatten([]);
    } else {
      LinesAcrossBreak(xs[0], Join("\n", xs[1..]));
      LinesOfJoin(xs[1..]);
      assert LinesEach(xs)[1..] == LinesEach(xs[1..]);
    }
  }

  /** When no part holds a line break, the joined text splits back into exactly the parts. */
  lemma {:induction false} LinesOfJoinSingleLines(xs: seq<string>)
    requires |xs| > 0 && AllSingleLine(xs)
    ensures Lines(Join("\n", xs)) == xs
  {
    LinesOfSingleLine(xs[0]);
    if |xs| > 1 {
      LinesAcrossBreak(xs[0], Join("\n", xs[1..]));
      LinesOfJoinSingleLines(xs[1..]);
    }
  }

  /** Appending one element to a non-empty join adds one separator and the element. */
  lemma {:induction false} JoinSnoc(sep: string, xs: seq<string>, y: string)
    requires |xs| > 0
    ensures Join(sep, xs + [y]) == Join(sep, xs) + sep + y
  {
    if |xs| > 1 {
      assert (xs + [y])[1..] == xs[1..] + [y];
      JoinSnoc(sep, xs[1..], y);
    }
  }

  /** Joining two non-empty lists is joining each and putting one separator between. */
  lemma {:induction false} JoinAppend(sep: string, xs: seq<string>, ys: seq<string>)
    requires |xs| > 0 && |ys| > 0
    ensures Join(sep, xs + ys) == Join(sep, xs) + sep + Join(sep, ys)
  {
    if |xs| == 1 {
      assert (xs + ys)[1..] == ys;
    } else {
      assert (xs + ys)[1..] == xs[1..] + ys;
      JoinAppend(sep, xs[1..], ys);
    }
  }

  /** A piece of a piece is a piece of the whole. */
  lemma ContainsInside(a: string, s: string, b: string, sub: string)
    requires Contains(s, sub)
    ensures Contains(a + s + b, sub)
  {
    var k :| OccursAt(s, sub, k);
    var w := a + s + b;
    assert w[|a| + k..|a| + k + |sub|] == s[k..k + |sub|];
    assert OccursAt(w, sub, |a| + k);
  }

  /** A string occurs in itself. */
  lemma ContainsSelf(s: string)
    ensures Contains(s, s)
  {
    assert OccursAt(s, s, 0) by { assert s[0..|s|] == s; }
  }

  /** A text is at least as long as any of its pieces. */
  lemma ContainsLength(s: string, sub: string)
    requires Contains(s, sub)
    ensures |sub| <= |s|
  {
    var k :| OccursAt(s, sub, k);
  }

  /** A piece of a piece of a text is a piece of the text. */
  lemma ContainsTransitive(a: string, b: string, c: string)
    requires Contains(a, b) && Contains(b, c)
    ensures Contains(a, c)
  {
    var i :| OccursAt(a, b, i);
    var j :| OccursAt(b, c, j);
    assert a[i..i + |b|] == b;
    var x, y := a[i + j..i + j + |c|], b[j..j + |c|];
    forall k | 0 <= k < |c|
      ensures x[k] == y[k]
    {
      assert a[i..i + |b|][j + k] == a[i + j + k];
    }
    assert x == y;
    assert OccursAt(a, c, i + j);
  }

  /** Every element of a joined list occurs in the joined text. */
  lemma {:induction false} JoinContains(sep: string, xs: seq<string>, i: nat)
    requires i < |xs|
    ensures Contains(Join(sep, xs), xs[i])
  {
    assert OccursAt(xs[i], xs[i], 0) by { assert xs[i][0..|xs[i]|] == xs[i]; }
    if |xs| == 1 {
    } else if i == 0 {
      ContainsInside("", xs[0], sep + Join(sep, xs[1..]), xs[0]);
      assert "" + xs[0] + (sep + Join(sep, xs[1..])) == Join(sep, xs);
    } else {
      JoinContains(sep, xs[1..], i - 1);
      ContainsInside(xs[0] + sep, Join(sep, xs[1..]), "", xs[i]);
      assert xs[0] + sep + Join(sep, xs[1..]) + "" == Join(sep, xs);
    }
  }
}

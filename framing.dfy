/**
 * The brace-counting rule by which the JSON stream framer decides where
 * one top-level object ends, stated as pure functions, and the facts
 * about it that the framer relies on.
 *
 * Depth is counted from the start of the buffer: `{` adds one, `}`
 * subtracts one, every other character leaves it alone. An object is
 * complete at the first `}` that brings the depth back to zero. Braces
 * inside JSON string literals are counted like any other brace.
 */
module Framing {
  import opened Wrappers

  /** The change of nesting depth caused by one character. */
  function Delta(c: char): int
  {
    if c == '{' then 1 else if c == '}' then -1 else 0
  }

  /** The nesting depth after scanning all of `s` from depth zero. */
  function Depth(s: string): int
  {
    if s == [] then 0 else Depth(s[..|s| - 1]) + Delta(s[|s| - 1])
  }

  /** The prefix `s[..k]` ends with a `}` that closes the outermost object. */
  predicate ClosesAt(s: string, k: nat)
    requires k <= |s|
  {
    0 < k && s[k - 1] == '}' && Depth(s[..k]) == 0
  }

  lemma DepthStep(s: string, i: nat)
    requires i < |s|
    ensures Depth(s[..i + 1]) == Depth(s[..i]) + Delta(s[i])
  {
    assert s[..i + 1][..i] == s[..i];
  }

  /**
   * Scans `s` from index `i`, where the depth so far is `d`, and returns
   * the end index of the first complete object at or after `i`.
   */
  function Scan(s: string, i: nat, d: int): (r: Option<nat>)
    requires i <= |s| && d == Depth(s[..i])
    ensures r.Some? ==> i < r.value <= |s| && ClosesAt(s, r.value)
    ensures r.Some? ==> forall k :: i < k < r.value ==> !ClosesAt(s, k)
    ensures r.None? ==> forall k :: i < k <= |s| ==> !ClosesAt(s, k)
    decreases |s| - i
  {
    if i == |s| then None
    else
      DepthStep(s, i);
      var d' := d + Delta(s[i]);
      if s[i] == '}' && d' == 0 then Some(i + 1) else Scan(s, i + 1, d')
  }

  /**
   * The end index of the first complete object of `s`: the least `k`
   * such that `s[..k]` closes the outermost object, or None when no
   * prefix of `s` does.
   */
  function FirstObjectEnd(s: string): (r: Option<nat>)
    ensures r.Some? ==> 0 < r.value <= |s| && ClosesAt(s, r.value)
    ensures r.Some? ==> forall k :: 0 < k < r.value ==> !ClosesAt(s, k)
    ensures r.None? ==> forall k :: 0 < k <= |s| ==> !ClosesAt(s, k)
  {
    Scan(s, 0, 0)
  }

  /** Whether `s[..k]` closes an object depends only on `s[..k]`. */
  lemma ClosesAtPrefix(p: string, t: string, k: nat)
    requires k <= |p|
    ensures ClosesAt(p + t, k) <==> ClosesAt(p, k)
  {
    assert (p + t)[..k] == p[..k];
  }

  /**
   * Bytes appended after a complete object do not move its end: the
   * first object of `p` is also the first object of `p + t`.
   */
  lemma FirstObjectEndExtends(p: string, t: string)
    requires FirstObjectEnd(p).Some?
    ensures FirstObjectEnd(p + t) == FirstObjectEnd(p)
  {
    var k := FirstObjectEnd(p).value;
    ClosesAtPrefix(p, t, k);
    var r := FirstObjectEnd(p + t);
    if r.Some? && r.value < k {
      ClosesAtPrefix(p, t, r.value);
    }
  }

  /** The first object of `s`, taken on its own, is one complete object. */
  lemma FirstObjectIsWhole(s: string)
    requires FirstObjectEnd(s).Some?
    ensures var k := FirstObjectEnd(s).value; FirstObjectEnd(s[..k]) == Some(k)
  {
    var k := FirstObjectEnd(s).value;
    assert s == s[..k] + s[k..];
    var r := FirstObjectEnd(s[..k]);
    ClosesAtPrefix(s[..k], s[k..], k);
    if r.Some? && r.value < k {
      ClosesAtPrefix(s[..k], s[k..], r.value);
    }
  }

  /** An object with no nested braces: `{`, then no brace at all, then `}`. */
  predicate Flat(s: string)
  {
    && |s| >= 2 && s[0] == '{' && s[|s| - 1] == '}'
    && forall i :: 0 < i < |s| - 1 ==> s[i] != '{' && s[i] != '}'
  }

  lemma {:induction false} FlatDepth(s: string, i: nat)
    requires Flat(s) && 0 < i < |s|
    ensures Depth(s[..i]) == 1
    decreases i
  {
    DepthStep(s, i - 1);
    if i == 1 {
      assert s[..0] == [];
    } else {
      FlatDepth(s, i - 1);
    }
  }

  /** A flat object is framed whole: its first complete object is itself. */
  lemma FlatObjectEnd(s: string)
    requires Flat(s)
    ensures FirstObjectEnd(s) == Some(|s|)
  {
    var k := |s|;
    FlatDepth(s, k - 1);
    DepthStep(s, k - 1);
    assert s[..k] == s;
    assert ClosesAt(s, k);
  }

  /** Without a closing brace there is no complete object. */
  lemma NoCloseNoObject(s: string)
    requires forall i :: 0 <= i < |s| ==> s[i] != '}'
    ensures FirstObjectEnd(s) == None
  {
  }

  /**
   * Every complete object that can be cut from the front of `s`, one
   * after another, in input order.
   */
  function Frames(s: string): seq<string>
    decreases |s|
  {
    match FirstObjectEnd(s)
    case None => []
    case Some(k) => [s[..k]] + Frames(s[k..])
  }

  /** What is left of `s` once all of its complete objects are cut off. */
  function Residue(s: string): string
    decreases |s|
  {
    match FirstObjectEnd(s)
    case None => s
    case Some(k) => Residue(s[k..])
  }

  function Flatten(ss: seq<string>): string
  {
    if ss == [] then [] else ss[0] + Flatten(ss[1..])
  }

  /**
   * Framing loses, duplicates and reorders nothing: the objects, in
   * order, followed by the retained tail, spell out the input exactly.
   */
  lemma {:induction false} FramesCover(s: string)
    ensures Flatten(Frames(s)) + Residue(s) == s
    decreases |s|
  {
    match FirstObjectEnd(s)
    case None =>
      assert Frames(s) == [];
    case Some(k) =>
      FramesCover(s[k..]);
      var fs := Frames(s);
      assert fs == [s[..k]] + Frames(s[k..]);
      assert fs[1..] == Frames(s[k..]);
      calc {
        Flatten(fs) + Residue(s);
        s[..k] + Flatten(Frames(s[k..])) + Residue(s[k..]);
        s[..k] + (Flatten(Frames(s[k..])) + Residue(s[k..]));
        s[..k] + s[k..];
        s;
      }
  }

  /**
   * Each frame is exactly one complete object: it closes the outermost
   * object at its last character and at no earlier one.
   */
  lemma {:induction false} FramesAreObjects(s: string, j: nat)
    requires j < |Frames(s)|
    ensures FirstObjectEnd(Frames(s)[j]) == Some(|Frames(s)[j]|)
    ensures Frames(s)[j] != [] && Frames(s)[j][|Frames(s)[j]| - 1] == '}'
    decreases |s|
  {
    var k := FirstObjectEnd(s).value;
    assert Frames(s) == [s[..k]] + Frames(s[k..]);
    if j == 0 {
      FirstObjectIsWhole(s);
    } else {
      FramesAreObjects(s[k..], j - 1);
    }
  }

  /** The retained tail never holds a complete object. */
  lemma {:induction false} ResidueIsIncomplete(s: string)
    ensures FirstObjectEnd(Residue(s)) == None
    decreases |s|
  {
    match FirstObjectEnd(s)
    case None =>
    case Some(k) => ResidueIsIncomplete(s[k..]);
  }
}

/** Splitting and joining text, as str.split and str.join do. */
module Text {
  /** The pieces between the occurrences of one character; the empty text has one empty piece. */
  function Split(s: string, c: char): (r: seq<string>)
    ensures |r| > 0
  {
    if |s| == 0 then [""]
    else
      var r := Split(s[1..], c);
      if s[0] == c then [""] + r else [[s[0]] + r[0]] + r[1..]
  }

  function Join(parts: seq<string>, sep: string): string
    requires |parts| > 0
  {
    if |parts| == 1 then parts[0] else parts[0] + sep + Join(parts[1..], sep)
  }

  predicate Free(s: string, c: char) {
    c !in s
  }

  lemma {:induction false} SplitFree(s: string, c: char)
    requires Free(s, c)
    ensures Split(s, c) == [s]
  {
    if |s| > 0 {
      SplitFree(s[1..], c);
      assert [s[0]] + s[1..] == s;
    }
  }

  lemma {:induction false} SplitFirst(s: string, c: char, rest: string)
    requires Free(s, c)
    ensures Split(s + [c] + rest, c) == [s] + Split(rest, c)
  {
    if |s| == 0 {
      assert (s + [c] + rest)[1..] == rest;
    } else {
      SplitFirst(s[1..], c, rest);
      assert (s + [c] + rest)[1..] == s[1..] + [c] + rest;
      assert [s[0]] + s[1..] == s;
    }
  }

  /** Splitting undoes joining when no part contains the separator. */
  lemma {:induction false} SplitJoin(parts: seq<string>, c: char)
    requires |parts| > 0 && forall i | 0 <= i < |parts| :: Free(parts[i], c)
    ensures Split(Join(parts, [c]), c) == parts
  {
    if |parts| == 1 {
      SplitFree(parts[0], c);
    } else {
      SplitJoin(parts[1..], c);
      SplitFirst(parts[0], c, Join(parts[1..], [c]));
    }
  }

  /** Joining undoes splitting, always. */
  lemma {:induction false} JoinSplit(s: string, c: char)
    ensures Join(Split(s, c), [c]) == s
  {
    if |s| > 0 {
      JoinSplit(s[1..], c);
      var r := Split(s[1..], c);
      if s[0] == c {
        assert ([""] + r)[1..] == r;
      } else if |r| > 1 {
        assert ([[s[0]] + r[0]] + r[1..])[1..] == r[1..];
      }
    }
  }

  lemma {:induction false} SplitPiecesFree(s: string, c: char)
    ensures forall i | 0 <= i < |Split(s, c)| :: Free(Split(s, c)[i], c)
  {
    if |s| > 0 { SplitPiecesFree(s[1..], c); }
  }

  // ---------- substrings ----------

  predicate HasAt(s: string, i: nat, x: string) {
    i + |x| <= |s| && s[i..i + |x|] == x
  }

  predicate Contains(s: string, x: string) {
    exists i | 0 <= i <= |s| :: HasAt(s, i, x)
  }

  lemma ContainsTail(s: string, x: string)
    requires |s| > 0 && Contains(s[1..], x)
    ensures Contains(s, x)
  {
    var i :| 0 <= i <= |s[1..]| && HasAt(s[1..], i, x);
    assert HasAt(s, i + 1, x);
  }

  lemma ContainsSelf(s: string)
    ensures Contains(s, s)
  {
    assert HasAt(s, 0, s);
  }

  lemma ContainsTrans(s: string, x: string, y: string)
    requires Contains(s, x) && Contains(x, y)
    ensures Contains(s, y)
  {
    var i :| 0 <= i <= |s| && HasAt(s, i, x);
    var j :| 0 <= j <= |x| && HasAt(x, j, y);
    forall k | 0 <= k < |y| ensures s[i + j + k] == y[k] {
      assert x[j..j + |y|][k] == x[j + k] && s[i..i + |x|][j + k] == s[i + (j + k)];
    }
    assert HasAt(s, i + j, y);
  }

  // ---------- str.replace ----------

  function Replace(s: string, x: string, v: string): string
    requires |x| > 0
  {
    if |s| < |x| then s
    else if s[..|x|] == x then v + Replace(s[|x|..], x, v)
    else [s[0]] + Replace(s[1..], x, v)
  }

  lemma {:induction false} ReplaceNone(s: string, x: string, v: string)
    requires |x| > 0 && !Contains(s, x)
    ensures Replace(s, x, v) == s
  {
    if |s| >= |x| {
      assert !HasAt(s, 0, x);
      assert !Contains(s[1..], x) by { if Contains(s[1..], x) { ContainsTail(s, x); } }
      ReplaceNone(s[1..], x, v);
      assert [s[0]] + s[1..] == s;
    }
  }

  lemma {:induction false} ReplaceWhole(x: string, v: string)
    requires |x| > 0
    ensures Replace(x, x, v) == v
  {
    assert x[..|x|] == x && x[|x|..] == "";
  }

  lemma {:induction false} ReplaceBySelf(s: string, x: string)
    requires |x| > 0
    ensures Replace(s, x, x) == s
  {
    if |s| >= |x| {
      if s[..|x|] == x {
        ReplaceBySelf(s[|x|..], x);
        assert s[..|x|] + s[|x|..] == s;
      } else {
        ReplaceBySelf(s[1..], x);
        assert [s[0]] + s[1..] == s;
      }
    }
  }

  predicate StartsWith(s: string, x: string) {
    |x| <= |s| && s[..|x|] == x
  }

  lemma {:induction false} ReplaceHit(x: string, r: string, v: string)
    requires |x| > 0
    ensures Replace(x + r, x, v) == v + Replace(r, x, v)
  {
    assert (x + r)[..|x|] == x && (x + r)[|x|..] == r;
  }

  lemma {:induction false} ReplaceMiss(a: char, r: string, x: string, v: string)
    requires |x| > 0 && !StartsWith([a] + r, x)
    ensures Replace([a] + r, x, v) == [a] + Replace(r, x, v)
  {
    assert ([a] + r)[1..] == r;
    if |r| + 1 < |x| { assert Replace(r, x, v) == r; }
  }

  /** No occurrence of x starts in t and reaches the character c behind it. */
  lemma NotAcross(t: string, c: char, rest: string, x: string)
    requires Free(x, c)
    ensures StartsWith(t + ([c] + rest), x) <==> StartsWith(t, x)
  {
    var s := t + ([c] + rest);
    if |t| < |x| <= |s| {
      assert s[|t|] == c && s[..|x|][|t|] == c;
    } else if |x| <= |t| {
      assert s[..|x|] == t[..|x|];
    }
  }

  /** Replacing a text without the character c works on either side of a c separately. */
  lemma {:induction false} ReplaceAcross(t: string, c: char, rest: string, x: string, v: string)
    requires |x| > 0 && Free(x, c)
    ensures Replace(t + ([c] + rest), x, v) == Replace(t, x, v) + ([c] + Replace(rest, x, v))
    decreases |t|, 1
  {
    NotAcross(t, c, rest, x);
    if |t| == 0 {
      assert t + ([c] + rest) == [c] + rest;
      ReplaceMiss(c, rest, x, v);
      assert Replace(t, x, v) + ([c] + Replace(rest, x, v)) == [c] + Replace(rest, x, v);
    } else if StartsWith(t, x) {
      ReplaceAcrossHit(t[|x|..], c, rest, x, v);
      assert t == x + t[|x|..];
    } else {
      ReplaceAcrossMiss(t[0], t[1..], c, rest, x, v);
      assert t == [t[0]] + t[1..];
    }
  }

  lemma {:induction false} ReplaceAcrossHit(t: string, c: char, rest: string, x: string, v: string)
    requires |x| > 0 && Free(x, c)
    ensures Replace(x + t + ([c] + rest), x, v) == Replace(x + t, x, v) + ([c] + Replace(rest, x, v))
    decreases |t| + 1, 0
  {
    var tail, tail' := [c] + rest, [c] + Replace(rest, x, v);
    ReplaceAcross(t, c, rest, x, v);
    Associates(x, t, tail);
    ReplaceHit(x, t + tail, v);
    ReplaceHit(x, t, v);
    Associates(v, Replace(t, x, v), tail');
  }

  lemma Associates(a: string, b: string, c: string)
    ensures (a + b) + c == a + (b + c)
  {
  }

  lemma {:induction false} ReplaceAcrossMiss(a: char, t: string, c: char, rest: string, x: string, v: string)
    requires |x| > 0 && Free(x, c) && !StartsWith([a] + t, x)
    ensures Replace([a] + t + ([c] + rest), x, v) == Replace([a] + t, x, v) + ([c] + Replace(rest, x, v))
    decreases |t| + 1, 0
  {
    var tail, tail' := [c] + rest, [c] + Replace(rest, x, v);
    ReplaceAcross(t, c, rest, x, v);
    NotAcross([a] + t, c, rest, x);
    Associates([a], t, tail);
    ReplaceMiss(a, t + tail, x, v);
    ReplaceMiss(a, t, x, v);
    Associates([a], Replace(t, x, v), tail');
  }
}

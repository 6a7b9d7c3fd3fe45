/**
 * Property paths as sequences of string segments, and the dotted string that
 * `Array.prototype.join('.')` makes of them.
 */
module Segments {

  /** A segment that holds no separator character. */
  predicate DotFree(s: string) {
    '.' !in s
  }

  predicate AllDotFree(segs: seq<string>) {
    forall i :: 0 <= i < |segs| ==> DotFree(segs[i])
  }

  /**
   * `segs.join('.')`: the empty array joins to the empty string, one segment
   * to itself, and otherwise the segments appear in order, separated by '.'.
   */
  function JoinDots(segs: seq<string>): (r: string)
    ensures |segs| == 0 ==> r == ""
    ensures |segs| == 1 ==> r == segs[0]
    ensures |segs| > 0 ==> segs[0] <= r
    ensures |segs| > 1 ==> |segs[0]| < |r| && r[|segs[0]|] == '.'
  {
    if |segs| == 0 then ""
    else if |segs| == 1 then segs[0]
    else segs[0] + "." + JoinDots(segs[1..])
  }

  /**
   * `s.split('.')`, the reference inverse of `JoinDots`: the maximal dot-free
   * runs of `s`, in order. As in JavaScript, it never returns an empty array.
   */
  function SplitDots(s: string): (r: seq<string>)
    ensures |r| >= 1
    ensures AllDotFree(r)
    decreases |s|
  {
    if s == "" then [""]
    else
      var rest := SplitDots(s[1..]);
      if s[0] == '.' then [""] + rest
      else [[s[0]] + rest[0]] + rest[1..]
  }

  /** Splitting a dot-free prefix glued to `t` extends the first piece of `t`. */
  lemma {:induction false} SplitDotFreePrefix(a: string, t: string)
    requires DotFree(a)
    ensures SplitDots(a + t) == [a + SplitDots(t)[0]] + SplitDots(t)[1..]
    decreases |a|
  {
    if a != "" {
      var a' := a[1..];
      assert (a + t)[1..] == a' + t;
      assert (a + t)[0] == a[0] && a[0] != '.';
      assert DotFree(a') by { assert forall k :: 0 <= k < |a'| ==> a'[k] == a[k + 1]; }
      SplitDotFreePrefix(a', t);
      assert [a[0]] + (a' + SplitDots(t)[0]) == a + SplitDots(t)[0];
    } else {
      var r := SplitDots(t);
      assert a + t == t && a + r[0] == r[0];
      assert [r[0]] + r[1..] == r;
    }
  }

  /** Joining then splitting gives back the segments, provided none holds a '.'. */
  lemma {:induction false} SplitJoin(segs: seq<string>)
    requires |segs| > 0 && AllDotFree(segs)
    ensures SplitDots(JoinDots(segs)) == segs
    decreases |segs|
  {
    var a := segs[0];
    assert DotFree(a);
    if |segs| == 1 {
      SplitDotFreePrefix(a, "");
      assert a + "" == a;
    } else {
      var rest := segs[1..];
      assert AllDotFree(rest) by { assert forall k :: 0 <= k < |rest| ==> rest[k] == segs[k + 1]; }
      SplitJoin(rest);
      var t := "." + JoinDots(rest);
      assert t[1..] == JoinDots(rest);
      assert SplitDots(t) == [""] + rest;
      SplitDotFreePrefix(a, t);
      assert a + t == segs[0] + "." + JoinDots(rest);
      assert a + "" == a;
      assert [a] + rest == segs;
    }
  }

  /** Splitting then joining gives back the string: nothing is lost by `SplitDots`. */
  lemma {:induction false} JoinSplit(s: string)
    ensures JoinDots(SplitDots(s)) == s
    decreases |s|
  {
    if s != "" {
      var rest := SplitDots(s[1..]);
      JoinSplit(s[1..]);
      if s[0] == '.' {
        assert ([""] + rest)[1..] == rest;
        assert s == "" + "." + s[1..];
      } else {
        var r := [[s[0]] + rest[0]] + rest[1..];
        assert r[1..] == rest[1..];
        if |rest| == 1 {
          assert s == [s[0]] + s[1..];
        } else {
          assert rest[1..][1..] == rest[2..];
          assert JoinDots(rest) == rest[0] + "." + JoinDots(rest[1..]);
          assert s == [s[0]] + s[1..];
        }
      }
    }
  }
}

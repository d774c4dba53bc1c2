/**
 * Bounded FIFO windows. Three places keep "the latest N" of something:
 * the server log (append, then drop the oldest once over 100), the dashboard
 * chart (push, then shift once over 60) and the dashboard log panel (append,
 * then remove first children while over 100). `Slide` is the one-step
 * push-then-shift those use; `Keep` is the reference meaning, "the last `cap`
 * elements".
 */
module Window {

  /** Append `x`, then drop the first element if the result is longer than `cap`. */
  function Slide<T>(s: seq<T>, x: T, cap: nat): (r: seq<T>)
    ensures cap > 0 ==> |r| > 0 && r[|r| - 1] == x
    ensures |s| < cap ==> r == s + [x]
    ensures |s| >= cap ==> |r| == |s|
  {
    var t := s + [x];
    if |t| > cap then t[1..] else t
  }

  /** The last `cap` elements of `s` (all of `s` when it is no longer than that). */
  function Keep<T>(s: seq<T>, cap: nat): (r: seq<T>)
    ensures |r| <= cap && |r| <= |s|
    ensures |s| <= cap ==> r == s
    ensures |s| >= cap ==> |r| == cap
    ensures |s| > 0 && cap > 0 ==> |r| > 0 && r[|r| - 1] == s[|s| - 1]
  {
    if |s| > cap then s[|s| - cap..] else s
  }

  /** Pushing `xs` one at a time through `Slide`. */
  function SlideAll<T>(s: seq<T>, xs: seq<T>, cap: nat): seq<T>
    decreases |xs|
  {
    if xs == [] then s else SlideAll(Slide(s, xs[0], cap), xs[1..], cap)
  }

  /**
   * On a window that respects its capacity, one push-then-shift keeps exactly
   * the last `cap` elements: the new element is last, the length is bounded,
   * and when the window was full exactly the oldest element is gone.
   */
  lemma SlideKeeps<T>(s: seq<T>, x: T, cap: nat)
    requires |s| <= cap
    ensures Slide(s, x, cap) == Keep(s + [x], cap)
    ensures |Slide(s, x, cap)| <= cap
    ensures cap > 0 ==> Slide(s, x, cap)[|Slide(s, x, cap)| - 1] == x
    ensures |s| < cap ==> Slide(s, x, cap) == s + [x]
    ensures |s| == cap > 0 ==> Slide(s, x, cap) == s[1..] + [x]
  {
  }

  /** Trimming twice to the same capacity is trimming once. */
  lemma KeepAppend<T>(a: seq<T>, b: seq<T>, cap: nat)
    ensures Keep(Keep(a, cap) + b, cap) == Keep(a + b, cap)
  {
    var d := if |a| > cap then |a| - cap else 0;
    assert Keep(a, cap) == a[d..];
    assert a[d..] + b == (a + b)[d..];
  }

  /**
   * Any number of pushes into a window that respects its capacity leave the
   * last `cap` elements of everything pushed (so after 61 pushes into an empty
   * 60-window the first one pushed is the one evicted).
   */
  lemma {:induction false} SlideAllKeeps<T>(s: seq<T>, xs: seq<T>, cap: nat)
    requires |s| <= cap
    ensures SlideAll(s, xs, cap) == Keep(s + xs, cap)
    decreases |xs|
  {
    if xs == [] {
      assert s + xs == s;
    } else {
      var u, rest := s + [xs[0]], xs[1..];
      assert u + rest == s + xs by {
        assert xs == [xs[0]] + rest;
      }
      var t := Slide(s, xs[0], cap);
      assert SlideAll(s, xs, cap) == SlideAll(t, rest, cap);
      SlideKeeps(s, xs[0], cap);
      SlideAllKeeps(t, rest, cap);
      KeepAppend(u, rest, cap);
    }
  }
}

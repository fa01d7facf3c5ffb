/** The bounded price windows with O(1) running sums that the trend strategy,
    the live trader and the parameter sweep all use: a deque with a maximum
    length plus a separately maintained sum.  Prices are exact reals, so the
    running sum never drifts from the true sum. */
module Rolling {

  /** The arithmetic sum of a window, element by element from the oldest. */
  function Sum(s: seq<real>): real
  {
    if s == [] then 0.0 else Sum(s[..|s| - 1]) + s[|s| - 1]
  }

  lemma SumAppend(s: seq<real>, x: real)
    ensures Sum(s + [x]) == Sum(s) + x
  {
    assert (s + [x])[..|s|] == s;
  }

  /** Dropping the oldest sample subtracts it from the sum. */
  lemma {:induction false} SumDropFirst(s: seq<real>)
    requires |s| > 0
    ensures Sum(s[1..]) == Sum(s) - s[0]
  {
    if |s| > 1 {
      var init := s[..|s| - 1];
      SumDropFirst(init);
      assert init[1..] == s[1..][..|s[1..]| - 1];
    }
  }

  /** Appending to a deque created with `maxlen = cap`: when it is full the
      oldest element falls out. */
  function Slide(samples: seq<real>, cap: nat, x: real): (r: seq<real>)
    requires 0 < cap && |samples| <= cap
    ensures |r| <= cap && r != [] && r[|r| - 1] == x
    ensures |r| == if |samples| == cap then cap else |samples| + 1
  {
    if |samples| == cap then samples[1..] + [x] else samples + [x]
  }

  /** The older elements after a push: the deque minus its oldest element
      when it was full, the whole deque otherwise. */
  lemma SlideKeepsOrder(samples: seq<real>, cap: nat, x: real)
    requires 0 < cap && |samples| <= cap
    ensures var r := Slide(samples, cap, x);
      r[..|r| - 1] == if |samples| == cap then samples[1..] else samples
  {
  }

  /** The running-sum update the source performs beside the append: subtract
      the oldest sample when the deque is full, then add the new one. */
  function PushSum(samples: seq<real>, sum: real, cap: nat, x: real): real
    requires 0 < cap && |samples| <= cap
  {
    (if |samples| == cap then sum - samples[0] else sum) + x
  }

  /** The running sum stays equal to the sum of the window. */
  lemma PushSumCorrect(samples: seq<real>, sum: real, cap: nat, x: real)
    requires 0 < cap && |samples| <= cap && sum == Sum(samples)
    ensures PushSum(samples, sum, cap, x) == Sum(Slide(samples, cap, x))
  {
    if |samples| == cap {
      SumDropFirst(samples);
      SumAppend(samples[1..], x);
    } else {
      SumAppend(samples, x);
    }
  }

  /** The last `n` elements of a history (all of it when it is shorter). */
  function LastN(h: seq<real>, n: nat): seq<real>
  {
    if |h| <= n then h else h[|h| - n..]
  }

  /** Feeding a whole history through `Slide`, starting from an empty deque. */
  function SlideAll(h: seq<real>, cap: nat): (r: seq<real>)
    requires 0 < cap
    ensures |r| <= cap
  {
    if h == [] then [] else Slide(SlideAll(h[..|h| - 1], cap), cap, h[|h| - 1])
  }

  /** The window after any sequence of pushes holds exactly the last `cap`
      values pushed, oldest first. */
  lemma {:induction false} SlideAllIsLastN(h: seq<real>, cap: nat)
    requires 0 < cap
    ensures SlideAll(h, cap) == LastN(h, cap)
  {
    if h != [] {
      SlideAllIsLastN(h[..|h| - 1], cap);
      if |h| <= cap {
        SlideShort(h, cap);
      } else {
        SlideFull(h, cap);
      }
    }
  }

  /** Before the window is full, a push appends. */
  lemma SlideShort(h: seq<real>, cap: nat)
    requires 0 < |h| <= cap
    ensures Slide(h[..|h| - 1], cap, h[|h| - 1]) == h
  {
  }

  /** A full window of the last `cap` values slides to the last `cap`
      values of the longer history. */
  lemma SlideFull(h: seq<real>, cap: nat)
    requires 0 < cap < |h|
    ensures Slide(h[..|h| - 1][|h| - 1 - cap..], cap, h[|h| - 1]) == h[|h| - cap..]
  {
    var w := h[..|h| - 1][|h| - 1 - cap..];
    assert w[1..] == h[|h| - cap..|h| - 1];
  }

  /** Hence, once the window is full, its mean is the arithmetic mean of the
      last `cap` values pushed, and before that it is not full. */
  lemma WindowMean(h: seq<real>, cap: nat)
    requires 0 < cap
    ensures (|SlideAll(h, cap)| == cap) == (|h| >= cap)
    ensures |h| >= cap ==> Sum(SlideAll(h, cap)) / cap as real == Sum(h[|h| - cap..]) / cap as real
  {
    SlideAllIsLastN(h, cap);
  }
}

/** Sample grids: the lists of instants at which the tide level is evaluated.
    An instant is written as its signed offset in whole minutes from a reference
    instant (the request's "now", or a midnight), so every grid is a `seq<int>`. */
module Sampling {

  datatype Option<T> = None | Some(value: T)

  /** Every element is strictly smaller than every later one (chronological order). */
  predicate StrictlyIncreasing(s: seq<int>) {
    forall i, j :: 0 <= i < j < |s| ==> s[i] < s[j]
  }

  /** Consecutive elements are exactly `step` minutes apart. */
  predicate EvenlySpaced(s: seq<int>, step: int) {
    forall i :: 1 <= i < |s| ==> s[i] - s[i - 1] == step
  }

  /** An evenly spaced grid with a positive step is chronological. */
  lemma {:induction false} EvenlySpacedIncreasing(s: seq<int>, step: int)
    requires step > 0
    requires EvenlySpaced(s, step)
    ensures StrictlyIncreasing(s)
  {
    forall i, j | 0 <= i < j < |s|
      ensures s[i] < s[j]
    {
      var k := i + 1;
      while k < j
        invariant i < k <= j
        invariant s[i] < s[k]
      {
        assert s[k + 1] - s[k] == step;
        k := k + 1;
      }
    }
  }

  /** The list read back to front: the `[::-1]` slice. */
  function Reverse<T>(s: seq<T>): (r: seq<T>)
    ensures |r| == |s|
    ensures forall j :: 0 <= j < |s| ==> r[j] == s[|s| - 1 - j]
  {
    if |s| == 0 then [] else Reverse(s[1..]) + [s[0]]
  }

  /** Reversing twice gives back the original list. */
  lemma ReverseInvolution<T>(s: seq<T>)
    ensures Reverse(Reverse(s)) == s
  {
    var rr := Reverse(Reverse(s));
    assert forall j :: 0 <= j < |s| ==> rr[j] == s[j];
  }

  /** The forward window: `now + step*i` for `i` in `range(n)`. */
  function ForwardOffsets(step: nat, n: nat): (ts: seq<int>)
    ensures |ts| == n
    ensures n > 0 ==> ts[0] == 0 && ts[n - 1] == step * (n - 1)
    ensures EvenlySpaced(ts, step)
    ensures forall j :: 0 <= j < |ts| ==> 0 <= ts[j] <= step * (n - 1)
    ensures step > 0 ==> StrictlyIncreasing(ts)
  {
    var ts := seq(n, i => step * i);
    forall j | 1 <= j < n ensures ts[j] - ts[j - 1] == step {
      MulStep(step, j - 1);
    }
    forall j | 0 <= j < n ensures 0 <= ts[j] <= step * (n - 1) {
      MulMonotone(step, 0, j);
      MulMonotone(step, j, n - 1);
    }
    if step > 0 then EvenlySpacedIncreasing(ts, step); ts else ts
  }

  /** The list built for a past window, before reversal: `now - step*i` for `i` in `range(n)`,
      newest instant first. */
  function BackwardFromNow(step: nat, n: nat): (ts: seq<int>)
    ensures |ts| == n
    ensures forall i :: 0 <= i < n ==> ts[i] == -(step * i)
  {
    seq(n, i => -(step * i))
  }

  /** The backward window as returned: `BackwardFromNow` reversed, so the oldest instant
      comes first and the window ends at now. */
  function BackwardOffsets(step: nat, n: nat): (ts: seq<int>)
    ensures |ts| == n
    ensures forall j :: 0 <= j < n ==> ts[j] == -(step * (n - 1 - j))
    ensures n > 0 ==> ts[0] == -(step * (n - 1)) && ts[n - 1] == 0
    ensures EvenlySpaced(ts, step)
    ensures forall j :: 0 <= j < |ts| ==> -(step * (n - 1)) <= ts[j] <= 0
    ensures step > 0 ==> StrictlyIncreasing(ts)
  {
    var ts := Reverse(BackwardFromNow(step, n));
    forall j | 1 <= j < n ensures ts[j] - ts[j - 1] == step {
      MulStep(step, n - 1 - j);
    }
    forall j | 0 <= j < n ensures -(step * (n - 1)) <= ts[j] <= 0 {
      MulMonotone(step, 0, n - 1 - j);
      MulMonotone(step, n - 1 - j, n - 1);
    }
    if step > 0 then EvenlySpacedIncreasing(ts, step); ts else ts
  }

  /** The backward window is the forward window of the same cadence and count, shifted
      so that its last instant, rather than its first, falls on now. */
  lemma BackwardIsShiftedForward(step: nat, n: nat)
    requires n > 0
    ensures forall j :: 0 <= j < n ==>
      BackwardOffsets(step, n)[j] == ForwardOffsets(step, n)[j] - step * (n - 1)
  {
    var b := BackwardOffsets(step, n);
    var f := ForwardOffsets(step, n);
    forall j | 0 <= j < n
      ensures b[j] == f[j] - step * (n - 1)
    {
      assert f[j] == step * j;
      assert step * (n - 1 - j) == step * (n - 1) - step * j;
    }
  }

  /** A grid is determined by its start and its step: any list that starts at now and is
      evenly spaced by `step` is the forward window. */
  lemma {:induction false} ForwardOffsetsUnique(s: seq<int>, step: nat)
    requires |s| > 0 && s[0] == 0
    requires EvenlySpaced(s, step)
    ensures s == ForwardOffsets(step, |s|)
  {
    var f := ForwardOffsets(step, |s|);
    forall j | 0 <= j < |s|
      ensures s[j] == f[j]
    {
      var k := 0;
      while k < j
        invariant 0 <= k <= j
        invariant s[k] == step * k
      {
        assert s[k + 1] - s[k] == step;
        MulStep(step, k);
        k := k + 1;
      }
    }
  }

  /** Batch evaluation: the level at every instant of a grid, in the grid's order.
      The level function (the harmonic sum) is a parameter of the model. */
  function Synthesize(level: int -> real, ts: seq<int>): (levels: seq<real>)
    ensures |levels| == |ts|
    ensures forall j :: 0 <= j < |ts| ==> levels[j] == level(ts[j])
  {
    seq(|ts|, j requires 0 <= j < |ts| => level(ts[j]))
  }

  lemma MulStep(a: int, x: int)
    ensures a * (x + 1) == a * x + a
  {
  }

  lemma MulMonotone(a: nat, x: int, y: int)
    requires x <= y
    ensures a * x <= a * y
  {
  }
}

/**
 * How the list's grid changes when an operation rewires `next` links without
 * creating nodes: reversing the time order, and cutting out a run of steps.
 * Each lemma takes the store before and the links after and concludes the
 * store invariant for the new grid and what the new grid holds.
 */
module Reshapes {
  import opened Signals
  import opened Grids

  /** Where a node's `next` link goes once time runs backwards: one step earlier, or Null for step 0. */
  function Backward(g: seq<seq<int>>, t: int, c: int): int
  {
    if 0 < t < |g| && 0 <= c < |g[t - 1]| then g[t - 1][c] else Null
  }

  /** The step numbers once time runs backwards over n steps. */
  function MirroredSteps(stepOf: seq<int>, n: int): (r: seq<int>)
    ensures |r| == |stepOf| && forall x | 0 <= x < |stepOf| :: r[x] == n - 1 - stepOf[x]
  {
    seq(|stepOf|, x requires 0 <= x < |stepOf| => n - 1 - stepOf[x])
  }

  /** The step numbers once the first s steps are dropped. */
  function ShiftedSteps(stepOf: seq<int>, s: int): (r: seq<int>)
    ensures |r| == |stepOf| && forall x | 0 <= x < |stepOf| :: r[x] == stepOf[x] - s
  {
    seq(|stepOf|, x requires 0 <= x < |stepOf| => stepOf[x] - s)
  }

  /** The nodes of steps 0..j have their `next` links turned around. */
  ghost predicate BackwardUpTo(g: seq<seq<int>>, w: int, next: seq<int>, j: int)
    requires InStore(g, w, |next|)
  {
    forall t, c {:trigger next[g[t][c]]} | 0 <= t <= j && t < |g| && 0 <= c < w :: next[g[t][c]] == Backward(g, t, c)
  }

  /** The nodes of the steps after j still have their `next` links pointing forward. */
  ghost predicate ForwardAfter(g: seq<seq<int>>, w: int, next: seq<int>, j: int)
    requires InStore(g, w, |next|)
  {
    forall t, c {:trigger next[g[t][c]]} | 0 <= t < |g| && j < t && 0 <= c < w :: next[g[t][c]] == Forward(g, t, c)
  }

  /**
   * Turning step j+1's links back at step j (step 0's at Null), and touching
   * nothing outside step j+1, moves the boundary between reversed and forward
   * steps by one.
   */
  lemma TurnStep(g: seq<seq<int>>, w: int, stepOf: seq<int>, next: seq<int>, next': seq<int>, j: int)
    requires InStore(g, w, |next|) && |next'| == |next| && |stepOf| == |next|
    requires forall t, c | 0 <= t < |g| && 0 <= c < w :: stepOf[g[t][c]] == t
    requires -1 <= j && j + 1 < |g|
    requires BackwardUpTo(g, w, next, j) && ForwardAfter(g, w, next, j)
    requires forall c {:trigger next'[g[j + 1][c]]} | 0 <= c < w :: next'[g[j + 1][c]] == if j < 0 then Null else g[j][c]
    requires forall x {:trigger next'[x]} | 0 <= x < |next| && stepOf[x] != j + 1 :: next'[x] == next[x]
    ensures BackwardUpTo(g, w, next', j + 1) && ForwardAfter(g, w, next', j + 1)
  {
    forall t, c | 0 <= t <= j + 1 && t < |g| && 0 <= c < w
      ensures next'[g[t][c]] == Backward(g, t, c)
    {
      if t <= j {
        assert stepOf[g[t][c]] == t;
      }
    }
    forall t, c | 0 <= t < |g| && j + 1 < t && 0 <= c < w
      ensures next'[g[t][c]] == Forward(g, t, c)
    {
      assert stepOf[g[t][c]] == t;
    }
  }

  /**
   * Turning the last two steps back at once, with everything before them
   * already turned, turns the whole grid around.
   */
  lemma TurnLastTwo(g: seq<seq<int>>, w: int, stepOf: seq<int>, next: seq<int>, next': seq<int>,
                     last: seq<int>, middle: seq<int>, before: seq<int>)
    requires InStore(g, w, |next|) && |next'| == |next| && |stepOf| == |next| && |g| >= 3
    requires last == g[|g| - 1] && middle == g[|g| - 2] && before == g[|g| - 3]
    requires forall t, c | 0 <= t < |g| && 0 <= c < w :: stepOf[g[t][c]] == t
    requires BackwardUpTo(g, w, next, |g| - 3)
    requires forall c | 0 <= c < w :: next'[last[c]] == middle[c]
    requires forall c | 0 <= c < w :: next'[middle[c]] == before[c]
    requires forall x {:trigger next'[x]} | 0 <= x < |next| && stepOf[x] != |g| - 1 && stepOf[x] != |g| - 2 ::
      next'[x] == next[x]
    ensures BackwardUpTo(g, w, next', |g| - 1)
  {
    forall t, c | 0 <= t <= |g| - 1 && t < |g| && 0 <= c < w
      ensures next'[g[t][c]] == Backward(g, t, c)
    {
      if t < |g| - 2 {
        assert stepOf[g[t][c]] == t;
      }
    }
  }

  /** The steps of `g` in reverse order are shaped when stepOf is mirrored. */
  lemma ReversedShaped(g: seq<seq<int>>, w: int, stepOf: seq<int>, chanOf: seq<int>, nextChannel: seq<int>)
    requires Shaped(g, w, stepOf, chanOf, nextChannel)
    ensures Shaped(Reversed(g), w, MirroredSteps(stepOf, |g|), chanOf, nextChannel)
  {
    var r := Reversed(g);
    forall t, c | 0 <= t < |r| && 0 <= c < w
      ensures 0 <= r[t][c] < |stepOf| && MirroredSteps(stepOf, |g|)[r[t][c]] == t && chanOf[r[t][c]] == c
    {
      assert r[t] == g[|g| - 1 - t];
    }
    forall t | 0 <= t < |r|
      ensures |r[t]| == w && ChannelChain(nextChannel, r[t])
    {
      assert r[t] == g[|g| - 1 - t];
    }
  }

  /** Frame t of a grid is the amplitudes of its step t. */
  lemma FrameIsRow(g: seq<seq<int>>, w: int, audio: seq<real>, t: int)
    requires InStore(g, w, |audio|) && w >= 0 && 0 <= t < |g|
    ensures FramesOf(g, w, audio)[t] == Amplitudes(g[t], audio)
  {
    var f := FramesOf(g, w, audio);
    assert |f[t]| == w == |g[t]|;
    assert forall c | 0 <= c < w :: f[t][c] == audio[g[t][c]];
  }

  /** The frames of the reversed grid are the frames of the grid reversed. */
  lemma ReversedFrames(g: seq<seq<int>>, w: int, audio: seq<real>)
    requires InStore(g, w, |audio|) && w >= 0
    requires InStore(Reversed(g), w, |audio|)
    ensures FramesOf(Reversed(g), w, audio) == Reversed(FramesOf(g, w, audio))
  {
    var f, fr := FramesOf(g, w, audio), FramesOf(Reversed(g), w, audio);
    forall t | 0 <= t < |g|
      ensures fr[t] == Reversed(f)[t]
    {
      var k := |g| - 1 - t;
      assert Reversed(g)[t] == g[k] && Reversed(f)[t] == f[k];
      FrameIsRow(Reversed(g), w, audio, t);
      FrameIsRow(g, w, audio, k);
    }
  }

  /**
   * Pointing every node of step t at step t-1 (step 0 at Null), swapping head
   * and tail and mirroring stepOf turns a store of `g` into one of `g` reversed.
   */
  lemma ReversedStore(g: seq<seq<int>>, w: int, audio: seq<real>, next: seq<int>, next': seq<int>,
                      nextChannel: seq<int>, stepOf: seq<int>, chanOf: seq<int>,
                      head: int, tail: int)
    requires Store(g, w, audio, next, nextChannel, stepOf, chanOf, head, tail, |g| - 1)
    requires |next'| == |next|
    requires BackwardUpTo(g, w, next', |g| - 1)
    ensures Store(Reversed(g), w, audio, next', nextChannel, MirroredSteps(stepOf, |g|), chanOf, tail, head, |g| - 1)
    ensures Chained(Reversed(g), w, next', |g|)
    ensures FramesOf(Reversed(g), w, audio) == Reversed(FramesOf(g, w, audio))
  {
    var r := Reversed(g);
    ReversedShaped(g, w, stepOf, chanOf, nextChannel);
    forall t, c | 0 <= t < |r| && 0 <= c < w
      ensures next'[r[t][c]] == Forward(r, t, c)
    {
      assert r[t] == g[|g| - 1 - t];
      if t + 1 < |r| {
        assert r[t + 1] == g[|g| - 2 - t];
      }
    }
    ReversedFrames(g, w, audio);
  }

  /** The steps s..e of a shaped grid are shaped when stepOf counts from s. */
  lemma ClippedShaped(g: seq<seq<int>>, w: int, s: int, e: int, stepOf: seq<int>, chanOf: seq<int>, nextChannel: seq<int>)
    requires Shaped(g, w, stepOf, chanOf, nextChannel) && 0 <= s <= e < |g|
    ensures Shaped(g[s..e + 1], w, ShiftedSteps(stepOf, s), chanOf, nextChannel)
  {
    var r := g[s..e + 1];
    forall t, c | 0 <= t < |r| && 0 <= c < w
      ensures 0 <= r[t][c] < |stepOf| && ShiftedSteps(stepOf, s)[r[t][c]] == t && chanOf[r[t][c]] == c
    {
      assert r[t] == g[s + t];
    }
    forall t | 0 <= t < |r|
      ensures |r[t]| == w && ChannelChain(nextChannel, r[t])
    {
      assert r[t] == g[s + t];
    }
  }

  /** The frames of steps s..e are those steps of the grid's frames. */
  lemma ClippedFrames(g: seq<seq<int>>, w: int, audio: seq<real>, s: int, e: int)
    requires InStore(g, w, |audio|) && w >= 0 && 0 <= s <= e < |g|
    requires InStore(g[s..e + 1], w, |audio|)
    ensures FramesOf(g[s..e + 1], w, audio) == FramesOf(g, w, audio)[s..e + 1]
  {
    var f := FramesOf(g, w, audio)[s..e + 1];
    var h := FramesOf(g[s..e + 1], w, audio);
    forall t, c | 0 <= t < |h| && 0 <= c < w
      ensures h[t][c] == f[t][c]
    {
      assert g[s..e + 1][t] == g[s + t];
    }
    SameRows(h, f, w);
  }

  /** Cutting the links after step e and keeping the rest chains steps s..e of `g` on their own. */
  lemma ClippedChain(g: seq<seq<int>>, w: int, next: seq<int>, next': seq<int>,
                     stepOf: seq<int>, chanOf: seq<int>, nextChannel: seq<int>, s: int, e: int)
    requires Shaped(g, w, stepOf, chanOf, nextChannel) && |next| == |stepOf| && Chained(g, w, next, |g| - 1)
    requires 0 <= s <= e < |g| && |next'| == |next|
    requires forall c | 0 <= c < w :: next'[g[e][c]] == Null
    requires forall x {:trigger next'[x]} | 0 <= x < |next| && stepOf[x] != e :: next'[x] == next[x]
    ensures InStore(g[s..e + 1], w, |next'|)
    ensures Chained(g[s..e + 1], w, next', e - s + 1)
  {
    var r := g[s..e + 1];
    forall t, c | 0 <= t < |r| && 0 <= c < w
      ensures next'[r[t][c]] == Forward(r, t, c)
    {
      assert r[t] == g[s + t];
      if t + 1 < |r| {
        assert r[t + 1] == g[s + t + 1];
        assert stepOf[g[s + t][c]] == s + t;
      }
    }
  }

  /**
   * Ending step e's `next` links at Null, starting the list at step s and
   * counting steps from s turns a store of `g` into one of steps s..e of `g`.
   */
  lemma ClippedStore(g: seq<seq<int>>, w: int, audio: seq<real>, next: seq<int>, next': seq<int>,
                     nextChannel: seq<int>, stepOf: seq<int>, chanOf: seq<int>,
                     head: int, tail: int, s: int, e: int,
                     r: seq<seq<int>>, steps: seq<int>, head': int, tail': int)
    requires Store(g, w, audio, next, nextChannel, stepOf, chanOf, head, tail, |g| - 1)
    requires 0 <= s <= e < |g|
    requires |next'| == |next|
    requires forall c | 0 <= c < w :: next'[g[e][c]] == Null
    requires forall x {:trigger next'[x]} | 0 <= x < |next| && stepOf[x] != e :: next'[x] == next[x]
    requires r == g[s..e + 1] && steps == ShiftedSteps(stepOf, s) && head' == g[s][0] && tail' == g[e][0]
    ensures Store(r, w, audio, next', nextChannel, steps, chanOf, head', tail', |r| - 1)
    ensures Chained(r, w, next', |r|)
    ensures FramesOf(r, w, audio) == FramesOf(g, w, audio)[s..e + 1]
  {
    ClippedShaped(g, w, s, e, stepOf, chanOf, nextChannel);
    ClippedChain(g, w, next, next', stepOf, chanOf, nextChannel, s, e);
    assert |r| == e - s + 1;
    ChainedBelow(r, w, next', |r|, |r| - 1);
    assert r[0] == g[s];
    assert r[|r| - 1] == g[e];
    ClippedFrames(g, w, audio, s, e);
  }
}

/**
 * How the list's grid changes when another clip is spliced into it: the steps
 * after the splice point are detached as a segment, new steps are appended
 * after the splice point, and the segment is linked back after them. While
 * it is detached the segment's nodes are numbered with negative steps, so
 * that no appended step can be mistaken for one of them.
 */
module Splices {
  import opened Signals
  import opened Grids

  /** The step numbers once the steps after s are detached: step s + 1 + k becomes -1 - k. */
  function DetachedSteps(stepOf: seq<int>, s: int): (r: seq<int>)
    ensures |r| == |stepOf|
    ensures forall x | 0 <= x < |stepOf| :: r[x] == if stepOf[x] > s then s - stepOf[x] else stepOf[x]
  {
    seq(|stepOf|, x requires 0 <= x < |stepOf| => if stepOf[x] > s then s - stepOf[x] else stepOf[x])
  }

  /** The step numbers once a detached segment follows n steps: step -1 - k becomes n + k. */
  function RejoinedSteps(stepOf: seq<int>, n: int): (r: seq<int>)
    ensures |r| == |stepOf|
    ensures forall x | 0 <= x < |stepOf| :: r[x] == if stepOf[x] < 0 then n - 1 - stepOf[x] else stepOf[x]
  {
    seq(|stepOf|, x requires 0 <= x < |stepOf| => if stepOf[x] < 0 then n - 1 - stepOf[x] else stepOf[x])
  }

  /**
   * A detached run of steps `seg`: its nodes are in the store, numbered
   * -1 - k for the k-th step, chained by nextChannel, and each node's `next`
   * is the same channel one step later, the last step's Null.
   */
  ghost predicate Segment(seg: seq<seq<int>>, w: int, next: seq<int>, nextChannel: seq<int>,
                          stepOf: seq<int>, chanOf: seq<int>)
  {
    && |next| == |stepOf| && |nextChannel| == |stepOf| && |chanOf| == |stepOf|
    && InStore(seg, w, |stepOf|)
    && (forall k, c | 0 <= k < |seg| && 0 <= c < w :: stepOf[seg[k][c]] == -1 - k && chanOf[seg[k][c]] == c)
    && (forall k | 0 <= k < |seg| :: ChannelChain(nextChannel, seg[k]))
    && Chained(seg, w, next, |seg|)
  }

  /** The frames of two runs of steps laid end to end. */
  lemma FramesOfConcat(a: seq<seq<int>>, b: seq<seq<int>>, w: int, audio: seq<real>)
    requires w >= 0 && InStore(a, w, |audio|) && InStore(b, w, |audio|)
    ensures InStore(a + b, w, |audio|)
    ensures FramesOf(a + b, w, audio) == FramesOf(a, w, audio) + FramesOf(b, w, audio)
  {
    var g := a + b;
    forall t, c | 0 <= t < |g| && 0 <= c < w
      ensures 0 <= g[t][c] < |audio|
    {
      if t >= |a| { assert g[t] == b[t - |a|]; }
    }
    var h := FramesOf(g, w, audio);
    var f := FramesOf(a, w, audio) + FramesOf(b, w, audio);
    forall t, c | 0 <= t < |h| && 0 <= c < w
      ensures h[t][c] == f[t][c]
    {
      if t >= |a| { assert g[t] == b[t - |a|]; }
    }
    SameRows(h, f, w);
  }

  /** The steps 0..s of a store, with the later steps renumbered, form a store whose tail is step s. */
  lemma DetachedPrefix(g: seq<seq<int>>, w: int, audio: seq<real>, next: seq<int>, nextChannel: seq<int>,
                       stepOf: seq<int>, chanOf: seq<int>, head: int, tail: int, s: int)
    requires Store(g, w, audio, next, nextChannel, stepOf, chanOf, head, tail, |g| - 1)
    requires 0 <= s && s + 1 < |g|
    ensures Store(g[..s + 1], w, audio, next, nextChannel, DetachedSteps(stepOf, s), chanOf, head, g[s][0], s)
  {
    var p := g[..s + 1];
    var steps := DetachedSteps(stepOf, s);
    forall t, c | 0 <= t < |p| && 0 <= c < w
      ensures 0 <= p[t][c] < |stepOf| && steps[p[t][c]] == t && chanOf[p[t][c]] == c
    {
      assert p[t] == g[t];
    }
    forall t, c | 0 <= t < s && 0 <= c < w
      ensures next[p[t][c]] == Forward(p, t, c)
    {
      assert p[t] == g[t] && p[t + 1] == g[t + 1];
    }
    forall t | 0 <= t < |p|
      ensures |p[t]| == w && ChannelChain(nextChannel, p[t])
    {
      assert p[t] == g[t];
    }
    assert p[0] == g[0] && p[|p| - 1] == g[s];
  }

  /** The steps after s of a chained store, renumbered, form a detached segment. */
  lemma DetachedSegment(g: seq<seq<int>>, w: int, next: seq<int>, nextChannel: seq<int>,
                        stepOf: seq<int>, chanOf: seq<int>, s: int)
    requires Shaped(g, w, stepOf, chanOf, nextChannel) && |next| == |stepOf|
    requires Chained(g, w, next, |g|)
    requires 0 <= s && s + 1 < |g|
    ensures Segment(g[s + 1..], w, next, nextChannel, DetachedSteps(stepOf, s), chanOf)
  {
    var q := g[s + 1..];
    var steps := DetachedSteps(stepOf, s);
    forall k, c | 0 <= k < |q| && 0 <= c < w
      ensures 0 <= q[k][c] < |stepOf| && steps[q[k][c]] == -1 - k && chanOf[q[k][c]] == c
      ensures next[q[k][c]] == Forward(q, k, c)
    {
      assert q[k] == g[s + 1 + k];
      if k + 1 < |q| { assert q[k + 1] == g[s + 2 + k]; }
    }
    forall k | 0 <= k < |q|
      ensures |q[k]| == w && ChannelChain(nextChannel, q[k])
    {
      assert q[k] == g[s + 1 + k];
    }
  }

  /**
   * Detaching the steps after s (s + 1 < |g|) from a chained store leaves a
   * store of steps 0..s whose tail is step s, and a segment of the rest;
   * together they hold the same frames.
   */
  lemma DetachedStore(g: seq<seq<int>>, w: int, audio: seq<real>, next: seq<int>, nextChannel: seq<int>,
                      stepOf: seq<int>, chanOf: seq<int>, head: int, tail: int, s: int,
                      prefix: seq<seq<int>>, seg: seq<seq<int>>, steps: seq<int>, tail': int)
    requires Store(g, w, audio, next, nextChannel, stepOf, chanOf, head, tail, |g| - 1)
    requires Chained(g, w, next, |g|)
    requires 0 <= s && s + 1 < |g|
    requires prefix == g[..s + 1] && seg == g[s + 1..] && steps == DetachedSteps(stepOf, s) && tail' == g[s][0]
    ensures Store(prefix, w, audio, next, nextChannel, steps, chanOf, head, tail', |prefix| - 1)
    ensures Segment(seg, w, next, nextChannel, steps, chanOf)
    ensures FramesOf(prefix, w, audio) == FramesOf(g, w, audio)[..s + 1]
    ensures FramesOf(seg, w, audio) == FramesOf(g, w, audio)[s + 1..]
  {
    DetachedPrefix(g, w, audio, next, nextChannel, stepOf, chanOf, head, tail, s);
    DetachedSegment(g, w, next, nextChannel, stepOf, chanOf, s);
    assert g == prefix + seg;
    FramesOfConcat(prefix, seg, w, audio);
    var f, fp, fs := FramesOf(g, w, audio), FramesOf(prefix, w, audio), FramesOf(seg, w, audio);
    assert |fp| == s + 1 && f == fp + fs;
    assert f[..s + 1] == fp && f[s + 1..] == fs;
  }

  /**
   * A detached segment survives appending a step: the store only grew and
   * no `next` link changed outside the (non-negative) step `step`.
   */
  lemma SegmentKept(seg: seq<seq<int>>, w: int,
                    audio: seq<real>, next: seq<int>, nextChannel: seq<int>, stepOf: seq<int>, chanOf: seq<int>,
                    audio': seq<real>, next': seq<int>, nextChannel': seq<int>, stepOf': seq<int>, chanOf': seq<int>,
                    step: int)
    requires w >= 0 && Segment(seg, w, next, nextChannel, stepOf, chanOf) && |audio| == |stepOf|
    requires Kept(audio, next, nextChannel, stepOf, chanOf, audio', next', nextChannel', stepOf', chanOf', step)
    requires step >= 0
    ensures Segment(seg, w, next', nextChannel', stepOf', chanOf')
    ensures FramesOf(seg, w, audio') == FramesOf(seg, w, audio)
  {
    forall k, c | 0 <= k < |seg| && 0 <= c < w
      ensures 0 <= seg[k][c] < |stepOf'|
      ensures stepOf'[seg[k][c]] == -1 - k && chanOf'[seg[k][c]] == c
      ensures next'[seg[k][c]] == Forward(seg, k, c)
      ensures audio'[seg[k][c]] == audio[seg[k][c]]
    {
      var x := seg[k][c];
      assert stepOf'[x] == stepOf'[..|audio|][x] && chanOf'[x] == chanOf'[..|audio|][x];
      assert audio'[x] == audio'[..|audio|][x];
    }
    forall k | 0 <= k < |seg|
      ensures ChannelChain(nextChannel', seg[k])
    {
      forall c | 0 <= c < |seg[k]|
        ensures nextChannel'[seg[k][c]] == nextChannel[seg[k][c]]
      {
        assert nextChannel'[seg[k][c]] == nextChannel'[..|audio|][seg[k][c]];
      }
    }
    var f, f' := FramesOf(seg, w, audio), FramesOf(seg, w, audio');
    SameRows(f', f, w);
  }

  /**
   * Pointing the last step of a store at the first step of a detached
   * segment, and numbering the segment's steps after the store's, gives a
   * fully chained store of both, holding the frames of one then the other.
   */
  lemma RejoinedStore(g: seq<seq<int>>, seg: seq<seq<int>>, last: seq<int>, w: int, audio: seq<real>,
                      next: seq<int>, next': seq<int>, nextChannel: seq<int>, stepOf: seq<int>, chanOf: seq<int>,
                      head: int, tail: int, r: seq<seq<int>>, steps: seq<int>, tail': int)
    requires Store(g, w, audio, next, nextChannel, stepOf, chanOf, head, tail, |g| - 1)
    requires Segment(seg, w, next, nextChannel, stepOf, chanOf)
    requires |g| > 0 && last == g[|g| - 1] && |seg| > 0
    requires |next'| == |next|
    requires forall c | 0 <= c < w :: next'[last[c]] == seg[0][c]
    requires forall x {:trigger next'[x]} | 0 <= x < |next| && stepOf[x] != |g| - 1 :: next'[x] == next[x]
    requires r == g + seg && steps == RejoinedSteps(stepOf, |g|) && tail' == seg[|seg| - 1][0]
    ensures Store(r, w, audio, next', nextChannel, steps, chanOf, head, tail', |r| - 1)
    ensures Chained(r, w, next', |r|)
    ensures FramesOf(r, w, audio) == FramesOf(g, w, audio) + FramesOf(seg, w, audio)
  {
    RejoinedShape(g, seg, w, stepOf, chanOf, nextChannel, r, steps);
    RejoinedChain(g, seg, last, w, next, next', stepOf, r);
    ChainedBelow(r, w, next', |r|, |r| - 1);
    assert r[0] == g[0];
    assert r[|r| - 1] == seg[|seg| - 1];
    FramesOfConcat(g, seg, w, audio);
  }

  /** A store's steps followed by a detached segment's, renumbered after them, are shaped. */
  lemma RejoinedShape(g: seq<seq<int>>, seg: seq<seq<int>>, w: int, stepOf: seq<int>, chanOf: seq<int>,
                      nextChannel: seq<int>, r: seq<seq<int>>, steps: seq<int>)
    requires Shaped(g, w, stepOf, chanOf, nextChannel)
    requires InStore(seg, w, |stepOf|)
    requires forall k, c | 0 <= k < |seg| && 0 <= c < w :: stepOf[seg[k][c]] == -1 - k && chanOf[seg[k][c]] == c
    requires forall k | 0 <= k < |seg| :: ChannelChain(nextChannel, seg[k])
    requires r == g + seg && steps == RejoinedSteps(stepOf, |g|)
    ensures Shaped(r, w, steps, chanOf, nextChannel)
  {
    forall t, c | 0 <= t < |r| && 0 <= c < w
      ensures 0 <= r[t][c] < |stepOf| && steps[r[t][c]] == t && chanOf[r[t][c]] == c
    {
      if t < |g| { assert r[t] == g[t]; } else { assert r[t] == seg[t - |g|]; }
    }
    forall t | 0 <= t < |r|
      ensures |r[t]| == w && ChannelChain(nextChannel, r[t])
    {
      if t < |g| { assert r[t] == g[t]; } else { assert r[t] == seg[t - |g|]; }
    }
  }

  /**
   * Pointing the last step of a store chained below it at a segment's first
   * step chains the store and the segment together.
   */
  lemma RejoinedChain(g: seq<seq<int>>, seg: seq<seq<int>>, last: seq<int>, w: int,
                      next: seq<int>, next': seq<int>, stepOf: seq<int>, r: seq<seq<int>>)
    requires InStore(g, w, |next|) && InStore(seg, w, |next|) && |stepOf| == |next|
    requires forall t, c | 0 <= t < |g| && 0 <= c < w :: stepOf[g[t][c]] == t
    requires forall k, c | 0 <= k < |seg| && 0 <= c < w :: stepOf[seg[k][c]] == -1 - k
    requires Chained(g, w, next, |g| - 1) && Chained(seg, w, next, |seg|)
    requires |g| > 0 && last == g[|g| - 1] && |seg| > 0
    requires |next'| == |next|
    requires forall c | 0 <= c < w :: next'[last[c]] == seg[0][c]
    requires forall x {:trigger next'[x]} | 0 <= x < |next| && stepOf[x] != |g| - 1 :: next'[x] == next[x]
    requires r == g + seg
    ensures InStore(r, w, |next'|) && Chained(r, w, next', |r|)
  {
    forall t, c | 0 <= t < |r| && 0 <= c < w
      ensures 0 <= r[t][c] < |next'|
    {
      if t < |g| { assert r[t] == g[t]; } else { assert r[t] == seg[t - |g|]; }
    }
    forall t, c | 0 <= t < |r| && 0 <= c < w
      ensures next'[r[t][c]] == Forward(r, t, c)
    {
      if t < |g| {
        assert r[t] == g[t];
        if t + 1 < |g| {
          assert r[t + 1] == g[t + 1];
        } else {
          assert r[t + 1] == seg[0];
        }
      } else {
        assert r[t] == seg[t - |g|];
        if t + 1 < |r| { assert r[t + 1] == seg[t + 1 - |g|]; }
      }
    }
  }
}

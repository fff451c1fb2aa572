/**
 * The shape of a multi-linked list's node graph, stated over plain values so
 * that the list's operations can be proved step by step. A grid `g` names, for
 * every time-step t and channel c, the node g[t][c] in a node store whose
 * links are the sequences `next` and `nextChannel`.
 */
module Grids {
  import opened Signals

  /** The node index that stands for a null reference. */
  const Null: int := -1

  /** Every step of `g` names `w` nodes of a store of `size` nodes. */
  ghost predicate InStore(g: seq<seq<int>>, w: int, size: int)
  {
    && (forall t | 0 <= t < |g| :: |g[t]| == w)
    && (forall t, c | 0 <= t < |g| && 0 <= c < w :: 0 <= g[t][c] < size)
  }

  /** `nodes` are in the store and each one's nextChannel is the one after it, the last one's Null. */
  ghost predicate ChannelChain(nextChannel: seq<int>, nodes: seq<int>)
  {
    && (forall c | 0 <= c < |nodes| :: 0 <= nodes[c] < |nextChannel|)
    && (forall c {:trigger nextChannel[nodes[c]]} | 0 <= c < |nodes| ::
          nextChannel[nodes[c]] == if c + 1 < |nodes| then nodes[c + 1] else Null)
  }

  /**
   * The nodes of each step are chained by nextChannel in channel order, and
   * stepOf and chanOf say where each node sits (so no node is used twice).
   */
  ghost predicate Shaped(g: seq<seq<int>>, w: int, stepOf: seq<int>, chanOf: seq<int>, nextChannel: seq<int>)
  {
    && |chanOf| == |stepOf| && |nextChannel| == |stepOf|
    && InStore(g, w, |stepOf|)
    && (forall t, c | 0 <= t < |g| && 0 <= c < w :: stepOf[g[t][c]] == t && chanOf[g[t][c]] == c)
    && (forall t | 0 <= t < |g| :: ChannelChain(nextChannel, g[t]))
  }

  /** Where a node's `next` link should go: the same channel one step later, or Null after the last step. */
  function Forward(g: seq<seq<int>>, t: int, c: int): int
  {
    if 0 <= t && t + 1 < |g| && 0 <= c < |g[t + 1]| then g[t + 1][c] else Null
  }

  /** The channel-0 node of step t, or Null past the last step: where a walk along `next` is after t steps. */
  function StepHead(g: seq<seq<int>>, t: int): int
  {
    if 0 <= t < |g| && |g[t]| > 0 then g[t][0] else Null
  }

  /** The nodes of every step before `upTo` have their `next` links where Forward says. */
  ghost predicate Chained(g: seq<seq<int>>, w: int, next: seq<int>, upTo: int)
    requires InStore(g, w, |next|)
  {
    forall t, c {:trigger next[g[t][c]]} | 0 <= t < |g| && t < upTo && 0 <= c < w :: next[g[t][c]] == Forward(g, t, c)
  }

  /**
   * A node store holding grid `g`: all link sequences as long as `audio`, the
   * grid shaped, every step before `upTo` chained, and `head` and `tail` the
   * channel-0 nodes of the first and last steps.
   */
  ghost predicate Store(g: seq<seq<int>>, w: int, audio: seq<real>, next: seq<int>, nextChannel: seq<int>,
                        stepOf: seq<int>, chanOf: seq<int>, head: int, tail: int, upTo: int)
  {
    && w >= 1 && |next| == |audio| && |stepOf| == |audio|
    && Shaped(g, w, stepOf, chanOf, nextChannel)
    && Chained(g, w, next, upTo)
    && head == (if |g| == 0 then Null else g[0][0])
    && tail == (if |g| == 0 then Null else g[|g| - 1][0])
  }

  /** The amplitudes held by `nodes`, in order. */
  ghost function Amplitudes(nodes: seq<int>, audio: seq<real>): (r: seq<real>)
    requires forall c | 0 <= c < |nodes| :: 0 <= nodes[c] < |audio|
    ensures |r| == |nodes| && forall c | 0 <= c < |nodes| :: r[c] == audio[nodes[c]]
  {
    seq(|nodes|, c requires 0 <= c < |nodes| => audio[nodes[c]])
  }

  /** The frames a grid holds: the amplitude of each of its nodes, step by step. */
  ghost function FramesOf(g: seq<seq<int>>, w: int, audio: seq<real>): (f: seq<seq<real>>)
    requires InStore(g, w, |audio|) && w >= 0
    ensures |f| == |g| && Rectangular(f, w)
    ensures forall t, c | 0 <= t < |g| && 0 <= c < w :: f[t][c] == audio[g[t][c]]
    decreases |g|
  {
    if |g| == 0 then [] else FramesOf(g[..|g| - 1], w, audio) + [Amplitudes(g[|g| - 1], audio)]
  }

  /**
   * The node indices of a time-step appended to a store of `base` nodes: the
   * channels are created last to first, so channel c lands at base + w - 1 - c.
   */
  function NewStepNodes(base: int, w: nat): (r: seq<int>)
    ensures |r| == w
    ensures forall c | 0 <= c < w :: r[c] == base + w - 1 - c
  {
    seq(w, c requires 0 <= c < w => base + w - 1 - c)
  }

  /** A channel chain stays one when the store grows. */
  lemma ChainGrows(nextChannel: seq<int>, nextChannel': seq<int>, nodes: seq<int>)
    requires ChannelChain(nextChannel, nodes)
    requires |nextChannel| <= |nextChannel'| && nextChannel'[..|nextChannel|] == nextChannel
    ensures ChannelChain(nextChannel', nodes)
  {
    forall c | 0 <= c < |nodes|
      ensures nextChannel'[nodes[c]] == nextChannel[nodes[c]]
    {
      assert nextChannel'[..|nextChannel|][nodes[c]] == nextChannel'[nodes[c]];
    }
  }

  /** The nodes of a fresh step, each linked to the one created before it, form a channel chain. */
  lemma NewStepChain(base: int, w: nat, nextChannel: seq<int>)
    requires 0 <= base && base + w <= |nextChannel|
    requires forall x | base <= x < base + w :: nextChannel[x] == (if x > base then x - 1 else Null)
    ensures ChannelChain(nextChannel, NewStepNodes(base, w))
  {
    var row := NewStepNodes(base, w);
    forall c | 0 <= c < w
      ensures nextChannel[row[c]] == if c + 1 < w then row[c + 1] else Null
    {
      if c + 1 < w {
        assert row[c + 1] == row[c] - 1;
      }
    }
  }

  /** Appending a step of fresh nodes, created as NewStepNodes lays them out, keeps the grid shaped. */
  lemma AppendShaped(g: seq<seq<int>>, w: nat, base: int,
                     stepOf: seq<int>, chanOf: seq<int>, nextChannel: seq<int>,
                     stepOf': seq<int>, chanOf': seq<int>, nextChannel': seq<int>)
    requires Shaped(g, w, stepOf, chanOf, nextChannel) && |stepOf| == base
    requires |stepOf'| == base + w && |chanOf'| == base + w && |nextChannel'| == base + w
    requires stepOf'[..base] == stepOf && chanOf'[..base] == chanOf && nextChannel'[..base] == nextChannel
    requires forall x | base <= x < base + w :: stepOf'[x] == |g| && chanOf'[x] == base + w - 1 - x
    requires ChannelChain(nextChannel', NewStepNodes(base, w))
    ensures Shaped(g + [NewStepNodes(base, w)], w, stepOf', chanOf', nextChannel')
  {
    var g' := g + [NewStepNodes(base, w)];
    forall t, c | 0 <= t < |g'| && 0 <= c < w
      ensures 0 <= g'[t][c] < |stepOf'|
      ensures stepOf'[g'[t][c]] == t && chanOf'[g'[t][c]] == c
    {
      if t < |g| {
        var x := g[t][c];
        assert g'[t] == g[t];
        assert stepOf'[x] == stepOf[x] && chanOf'[x] == chanOf[x];
      } else {
        assert g'[t] == NewStepNodes(base, w);
      }
    }
    forall t | 0 <= t < |g'|
      ensures ChannelChain(nextChannel', g'[t])
    {
      if t < |g| {
        assert g'[t] == g[t];
        ChainGrows(nextChannel, nextChannel', g[t]);
      }
    }
  }

  /**
   * After the old last step's nodes are linked to a freshly appended step,
   * and nothing else outside that step changed, every step is chained.
   */
  lemma AppendChained(g: seq<seq<int>>, w: nat, base: int, stepOf: seq<int>, next: seq<int>, next': seq<int>)
    requires w >= 1 && InStore(g, w, base) && |next| == base && |stepOf| == base && |next'| == base + w
    requires forall t, c | 0 <= t < |g| && 0 <= c < w :: stepOf[g[t][c]] == t
    requires Chained(g, w, next, |g| - 1)
    requires forall x | 0 <= x < base && stepOf[x] != |g| - 1 :: next'[x] == next[x]
    requires |g| > 0 ==> forall c | 0 <= c < w :: next'[g[|g| - 1][c]] == NewStepNodes(base, w)[c]
    requires forall x | base <= x < base + w :: next'[x] == Null
    ensures InStore(g + [NewStepNodes(base, w)], w, |next'|)
    ensures Chained(g + [NewStepNodes(base, w)], w, next', |g| + 1)
  {
    var row := NewStepNodes(base, w);
    var g' := g + [row];
    forall t, c | 0 <= t < |g'| && 0 <= c < w
      ensures 0 <= g'[t][c] < |next'|
      ensures next'[g'[t][c]] == Forward(g', t, c)
    {
      if t < |g| {
        assert g'[t] == g[t];
        if t + 1 < |g| {
          assert g'[t + 1] == g[t + 1];
          assert next'[g[t][c]] == next[g[t][c]];
        } else {
          assert g'[t + 1] == row;
        }
      } else {
        assert g'[t] == row;
      }
    }
  }

  /** The frames of a grid with one more step are the old frames plus that step's amplitudes. */
  lemma AppendFrames(g: seq<seq<int>>, w: nat, audio: seq<real>, audio': seq<real>, row: seq<int>, samples: seq<real>)
    requires InStore(g, w, |audio|) && |audio| <= |audio'| && audio'[..|audio|] == audio
    requires |row| == w && |samples| == w
    requires forall c | 0 <= c < w :: 0 <= row[c] < |audio'| && audio'[row[c]] == samples[c]
    ensures InStore(g + [row], w, |audio'|)
    ensures FramesOf(g + [row], w, audio') == FramesOf(g, w, audio) + [samples]
  {
    var g' := g + [row];
    assert g'[..|g|] == g && g'[|g|] == row;
    FramesOverLongerAudio(g, w, audio, audio');
    assert Amplitudes(row, audio') == samples;
  }

  /** Growing the audio store past a grid's nodes leaves the grid's frames as they were. */
  lemma FramesOverLongerAudio(g: seq<seq<int>>, w: nat, audio: seq<real>, audio': seq<real>)
    requires InStore(g, w, |audio|) && |audio| <= |audio'| && audio'[..|audio|] == audio
    ensures InStore(g, w, |audio'|)
    ensures FramesOf(g, w, audio') == FramesOf(g, w, audio)
  {
    var f', f := FramesOf(g, w, audio'), FramesOf(g, w, audio);
    forall t | 0 <= t < |g|
      ensures f'[t] == f[t]
    {
      forall c | 0 <= c < w
        ensures f'[t][c] == f[t][c]
      {
        assert audio'[g[t][c]] == audio[g[t][c]];
      }
    }
  }

  /**
   * The facts a walk along step t of a grown store needs: the step's nodes
   * still form a channel chain and still know their step and channel.
   */
  lemma StepAfterGrowth(g: seq<seq<int>>, w: int, t: int, stepOf: seq<int>, chanOf: seq<int>, nextChannel: seq<int>,
                        stepOf': seq<int>, chanOf': seq<int>, nextChannel': seq<int>)
    requires Shaped(g, w, stepOf, chanOf, nextChannel) && 0 <= t < |g|
    requires |stepOf| <= |stepOf'| && |chanOf'| == |stepOf'| && |nextChannel'| == |stepOf'|
    requires stepOf'[..|stepOf|] == stepOf && chanOf'[..|stepOf|] == chanOf && nextChannel'[..|stepOf|] == nextChannel
    ensures |g[t]| == w && ChannelChain(nextChannel', g[t])
    ensures forall c | 0 <= c < w :: stepOf'[g[t][c]] == t && chanOf'[g[t][c]] == c
  {
    ChainGrows(nextChannel, nextChannel', g[t]);
    forall c | 0 <= c < w
      ensures stepOf'[g[t][c]] == t && chanOf'[g[t][c]] == c
    {
      var x := g[t][c];
      assert stepOf'[x] == stepOf[x] && chanOf'[x] == chanOf[x];
    }
  }

  /**
   * Appending a step of fresh nodes laid out as NewStepNodes says, after the
   * old last step has been linked to it, gives a fully chained store whose
   * frames are the old ones plus `samples`.
   */
  lemma AppendedStore(g: seq<seq<int>>, w: nat, samples: seq<real>,
                   audio: seq<real>, next: seq<int>, nextChannel: seq<int>, stepOf: seq<int>, chanOf: seq<int>,
                   head: int, tail: int,
                   audio': seq<real>, next': seq<int>, nextChannel': seq<int>, stepOf': seq<int>, chanOf': seq<int>,
                   head': int, tail': int, g': seq<seq<int>>)
    requires w >= 1 && |samples| == w
    requires Store(g, w, audio, next, nextChannel, stepOf, chanOf, head, tail, |g| - 1)
    requires |audio'| == |audio| + w && |next'| == |audio'| && |stepOf'| == |audio'|
    requires |chanOf'| == |audio'| && |nextChannel'| == |audio'|
    requires audio'[..|audio|] == audio && nextChannel'[..|audio|] == nextChannel
    requires stepOf'[..|audio|] == stepOf && chanOf'[..|audio|] == chanOf
    requires forall x | |audio| <= x < |audio'| :: audio'[x] == samples[|audio| + w - 1 - x]
    requires forall x | |audio| <= x < |audio'| :: next'[x] == Null
    requires ChannelChain(nextChannel', NewStepNodes(|audio|, w))
    requires forall x | |audio| <= x < |audio'| :: stepOf'[x] == |g|
    requires forall x | |audio| <= x < |audio'| :: chanOf'[x] == |audio| + w - 1 - x
    requires forall x | 0 <= x < |audio| && stepOf[x] != |g| - 1 :: next'[x] == next[x]
    requires |g| > 0 ==> forall c | 0 <= c < w :: next'[g[|g| - 1][c]] == NewStepNodes(|audio|, w)[c]
    requires head' == (if |g| == 0 then |audio| + w - 1 else head) && tail' == |audio| + w - 1
    requires g' == g + [NewStepNodes(|audio|, w)]
    ensures Store(g', w, audio', next', nextChannel', stepOf', chanOf', head', tail', |g'| - 1)
    ensures Chained(g', w, next', |g'|)
    ensures FramesOf(g', w, audio') == FramesOf(g, w, audio) + [samples]
    ensures Kept(audio, next, nextChannel, stepOf, chanOf, audio', next', nextChannel', stepOf', chanOf', |g| - 1)
  {
    AppendedLinks(g, w, audio, next, nextChannel, stepOf, chanOf, head, tail,
                  |audio'|, next', nextChannel', stepOf', chanOf', head', tail', g');
    AppendedFrames(g, w, samples, audio, audio', g');
  }

  /** The linking half of AppendedStore: the grown grid is a fully chained store. */
  lemma AppendedLinks(g: seq<seq<int>>, w: nat,
                      audio: seq<real>, next: seq<int>, nextChannel: seq<int>, stepOf: seq<int>, chanOf: seq<int>,
                      head: int, tail: int,
                      size: int, next': seq<int>, nextChannel': seq<int>, stepOf': seq<int>, chanOf': seq<int>,
                      head': int, tail': int, g': seq<seq<int>>)
    requires w >= 1
    requires Store(g, w, audio, next, nextChannel, stepOf, chanOf, head, tail, |g| - 1)
    requires size == |audio| + w && |next'| == size && |stepOf'| == size
    requires |chanOf'| == size && |nextChannel'| == size
    requires nextChannel'[..|audio|] == nextChannel
    requires stepOf'[..|audio|] == stepOf && chanOf'[..|audio|] == chanOf
    requires forall x | |audio| <= x < size :: next'[x] == Null
    requires ChannelChain(nextChannel', NewStepNodes(|audio|, w))
    requires forall x | |audio| <= x < size :: stepOf'[x] == |g|
    requires forall x | |audio| <= x < size :: chanOf'[x] == |audio| + w - 1 - x
    requires forall x | 0 <= x < |audio| && stepOf[x] != |g| - 1 :: next'[x] == next[x]
    requires |g| > 0 ==> forall c | 0 <= c < w :: next'[g[|g| - 1][c]] == NewStepNodes(|audio|, w)[c]
    requires head' == (if |g| == 0 then |audio| + w - 1 else head) && tail' == |audio| + w - 1
    requires g' == g + [NewStepNodes(|audio|, w)]
    ensures InStore(g', w, size)
    ensures Chained(g', w, next', |g'|)
    ensures Shaped(g', w, stepOf', chanOf', nextChannel')
    ensures head' == g'[0][0] && tail' == g'[|g'| - 1][0]
  {
    var base := |audio|;
    AppendShaped(g, w, base, stepOf, chanOf, nextChannel, stepOf', chanOf', nextChannel');
    AppendChained(g, w, base, stepOf, next, next');
    assert g'[|g'| - 1] == NewStepNodes(base, w);
    if |g| > 0 {
      assert g'[0] == g[0];
    }
  }

  /** The frames half of AppendedStore: the grown grid holds the old frames and then `samples`. */
  lemma AppendedFrames(g: seq<seq<int>>, w: nat, samples: seq<real>, audio: seq<real>, audio': seq<real>,
                       g': seq<seq<int>>)
    requires InStore(g, w, |audio|) && |samples| == w
    requires |audio'| == |audio| + w && audio'[..|audio|] == audio
    requires forall x | |audio| <= x < |audio'| :: audio'[x] == samples[|audio| + w - 1 - x]
    requires g' == g + [NewStepNodes(|audio|, w)]
    ensures InStore(g', w, |audio'|)
    ensures FramesOf(g', w, audio') == FramesOf(g, w, audio) + [samples]
  {
    var row := NewStepNodes(|audio|, w);
    forall c | 0 <= c < w
      ensures 0 <= row[c] < |audio'| && audio'[row[c]] == samples[c]
    {
    }
    AppendFrames(g, w, audio, audio', row, samples);
  }

  /**
   * The store grew from the unprimed sequences to the primed ones: every old
   * node keeps its amplitude, its nextChannel link, its step and its channel,
   * and its next link too unless it belongs to step `step`.
   */
  ghost predicate Kept(audio: seq<real>, next: seq<int>, nextChannel: seq<int>, stepOf: seq<int>, chanOf: seq<int>,
                       audio': seq<real>, next': seq<int>, nextChannel': seq<int>, stepOf': seq<int>, chanOf': seq<int>,
                       step: int)
  {
    && |next| == |audio| && |nextChannel| == |audio| && |stepOf| == |audio| && |chanOf| == |audio|
    && |audio| <= |audio'| && |next'| == |audio'| && |nextChannel'| == |audio'|
    && |stepOf'| == |audio'| && |chanOf'| == |audio'|
    && audio'[..|audio|] == audio && nextChannel'[..|audio|] == nextChannel
    && stepOf'[..|audio|] == stepOf && chanOf'[..|audio|] == chanOf
    && (forall x {:trigger next'[x]} | 0 <= x < |audio| && stepOf[x] != step :: next'[x] == next[x])
  }

  /** A store chained below `upTo` is chained below any smaller bound. */
  lemma ChainedBelow(g: seq<seq<int>>, w: int, next: seq<int>, upTo: int, upTo': int)
    requires InStore(g, w, |next|) && Chained(g, w, next, upTo) && upTo' <= upTo
    ensures Chained(g, w, next, upTo')
  {
  }
}

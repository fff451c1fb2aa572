/**
 * The echo as it happens in the node store: a walk over the time-steps that
 * rewrites the amplitudes of one step at a time. These lemmas carry the
 * boundary between echoed and untouched steps through the walk and connect
 * its end to the reference definition Echo.
 */
module Echoes {
  import opened Signals
  import opened Grids

  /** The steps before k hold their echoed amplitudes. */
  ghost predicate EchoedBefore(g: seq<seq<int>>, w: int, audio: seq<real>, f0: seq<seq<real>>, d: nat, p: real, k: int)
    requires InStore(g, w, |audio|) && Rectangular(f0, w) && |f0| == |g|
  {
    forall t, c {:trigger audio[g[t][c]]} | 0 <= t < |g| && t < k && 0 <= c < w ::
      audio[g[t][c]] == EchoAt(f0, w, d, p, t, c)
  }

  /** The steps from k on still hold their original amplitudes. */
  ghost predicate UntouchedFrom(g: seq<seq<int>>, w: int, audio: seq<real>, f0: seq<seq<real>>, k: int)
    requires InStore(g, w, |audio|) && Rectangular(f0, w) && |f0| == |g|
  {
    forall t, c {:trigger audio[g[t][c]]} | 0 <= t < |g| && k <= t && 0 <= c < w :: audio[g[t][c]] == f0[t][c]
  }

  /** Before the walk, the first d steps already are what the echo leaves them. */
  lemma EchoStart(g: seq<seq<int>>, w: int, audio: seq<real>, d: nat, p: real)
    requires InStore(g, w, |audio|) && w >= 0 && d <= |g|
    ensures EchoedBefore(g, w, audio, FramesOf(g, w, audio), d, p, d)
    ensures UntouchedFrom(g, w, audio, FramesOf(g, w, audio), d)
  {
  }

  /**
   * Adding to step d+j the current amplitudes of step j times p, and nothing
   * else, echoes step d+j.
   */
  lemma EchoAdvance(g: seq<seq<int>>, w: int, stepOf: seq<int>, audio: seq<real>, audio': seq<real>,
                    f0: seq<seq<real>>, d: nat, p: real, j: int)
    requires InStore(g, w, |audio|) && |audio'| == |audio| && |stepOf| == |audio|
    requires forall t, c | 0 <= t < |g| && 0 <= c < w :: stepOf[g[t][c]] == t
    requires Rectangular(f0, w) && |f0| == |g| && 0 <= j && d + j < |g|
    requires EchoedBefore(g, w, audio, f0, d, p, d + j) && UntouchedFrom(g, w, audio, f0, d + j)
    requires forall c {:trigger audio'[g[d + j][c]]} | 0 <= c < w ::
      audio'[g[d + j][c]] == Mix(audio[g[d + j][c]], audio[g[j][c]], p)
    requires forall x {:trigger audio'[x]} | 0 <= x < |audio| && stepOf[x] != d + j :: audio'[x] == audio[x]
    ensures EchoedBefore(g, w, audio', f0, d, p, d + j + 1) && UntouchedFrom(g, w, audio', f0, d + j + 1)
  {
    forall t, c | 0 <= t < |g| && t < d + j + 1 && 0 <= c < w
      ensures audio'[g[t][c]] == EchoAt(f0, w, d, p, t, c)
    {
      if t < d + j {
        assert stepOf[g[t][c]] == t;
      } else if d == 0 {
        assert audio[g[j][c]] == f0[j][c];
      } else {
        assert audio[g[j][c]] == EchoAt(f0, w, d, p, j, c);
      }
    }
    forall t, c | 0 <= t < |g| && d + j + 1 <= t && 0 <= c < w
      ensures audio'[g[t][c]] == f0[t][c]
    {
      assert stepOf[g[t][c]] == t;
    }
  }

  /** Once every step is echoed, the store's frames are the echo of the original frames. */
  lemma EchoDone(g: seq<seq<int>>, w: int, audio: seq<real>, f0: seq<seq<real>>, d: nat, p: real)
    requires InStore(g, w, |audio|) && w >= 0 && Rectangular(f0, w) && |f0| == |g|
    requires EchoedBefore(g, w, audio, f0, d, p, |g|)
    ensures FramesOf(g, w, audio) == Echo(f0, w, d, p)
  {
    SameRows(FramesOf(g, w, audio), Echo(f0, w, d, p), w);
  }
}

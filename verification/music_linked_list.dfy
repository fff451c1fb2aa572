/**
 * A multi-channel audio clip stored as a multi-linked list: one node per
 * (time-step, channel), each node linked to the same channel at the next
 * time-step (`next`) and to the next channel at the same time-step
 * (`nextChannel`). The nodes live in a per-list node store indexed by
 * integers; `Null` (-1) plays the role of a null reference.
 */
module MusicLists {
  import opened Signals
  import opened Grids
  import opened Reshapes
  import opened Echoes
  import opened Splices

  /**
   * How many times a loop `for (i = 0; i < x; i++)` runs: the least count
   * that is not below x.
   */
  function StepsBefore(x: real): (n: nat)
    ensures !((n as real) < x)
    ensures n == 0 || ((n - 1) as real) < x
  {
    if x <= 0.0 then 0
    else if x.Floor as real == x then x.Floor
    else x.Floor + 1
  }

  /** How an operation that can throw ended. */
  datatype Status = Success | IllegalArgument | IndexOutOfBounds

  class MusicLinkedList {
    const numChannels: int
    var sampleRate: real
    var numSamples: int
    var head: int
    var tail: int

    // The node store: node x holds audio[x], next[x] and nextChannel[x].
    var audio: seq<real>
    var next: seq<int>
    var nextChannel: seq<int>

    // grid[t][c] is the node of time-step t, channel c, for the time-steps
    // reachable from head; stepOf and chanOf invert it on those nodes.
    ghost var grid: seq<seq<int>>
    ghost var stepOf: seq<int>
    ghost var chanOf: seq<int>

    ghost predicate ArenaSized()
      reads this
    {
      |next| == |audio| && |nextChannel| == |audio| && |stepOf| == |audio| && |chanOf| == |audio|
    }

    /**
     * The list is a grid: each time-step holds numChannels nodes chained by
     * nextChannel, each node's next is the same channel one step later, head
     * and tail are the channel-0 nodes of the first and last steps. The last
     * step's next links are left unconstrained (appending overwrites them).
     */
    ghost predicate Linked()
      reads this
    {
      && numChannels >= 1
      && |grid| <= numSamples
      && Store(grid, numChannels, audio, next, nextChannel, stepOf, chanOf, head, tail, |grid| - 1)
    }

    /** The object invariant: a grid whose last time-step ends every channel. */
    ghost predicate Valid()
      reads this
    {
      Linked() && Chained(grid, numChannels, next, |grid|)
    }

    /** The clip's content: one frame per time-step, one amplitude per channel. */
    ghost function Frames(): (f: seq<seq<real>>)
      reads this
      requires Linked()
      ensures |f| == |grid| && Rectangular(f, numChannels)
    {
      FramesOf(grid, numChannels, audio)
    }

    /** The node of step t, channel c, or Null past the last step. */
    ghost function NodeAt(t: int, c: int): int
      reads this
      requires Linked() && 0 <= t && 0 <= c < numChannels
    {
      if t < |grid| then grid[t][c] else Null
    }

    /** The links a walk along `next` follows: every step's nodes point at the next step's. */
    ghost predicate Walkable()
      reads this`grid, this`next
    {
      numChannels >= 1 && InStore(grid, numChannels, |next|) && Chained(grid, numChannels, next, |grid|)
    }

    /** The all-channel iterator can be created (it dereferences head otherwise). */
    ghost predicate CanIterate()
      reads this
    {
      |grid| > 0 || numChannels == 1
    }

    constructor (sampleRate: real, numChannels: int)
      requires numChannels >= 1
      ensures Valid() && Frames() == []
      ensures this.sampleRate == sampleRate && this.numChannels == numChannels
      ensures numSamples == 0 && head == Null && tail == Null
    {
      this.sampleRate := sampleRate;
      this.numChannels := numChannels;
      numSamples := 0;
      head := Null;
      tail := Null;
      audio, next, nextChannel := [], [], [];
      grid, stepOf, chanOf := [], [], [];
    }

    /** Allocates one node (the node constructor); `step` and `channel` record where it goes. */
    method NewSample(value: real, nextNode: int, nextChannelNode: int, ghost step: int, ghost channel: int)
      returns (node: int)
      modifies this`audio, this`next, this`nextChannel, this`stepOf, this`chanOf
      ensures node == old(|audio|)
      ensures audio == old(audio) + [value] && next == old(next) + [nextNode]
      ensures nextChannel == old(nextChannel) + [nextChannelNode]
      ensures stepOf == old(stepOf) + [step] && chanOf == old(chanOf) + [channel]
    {
      node := |audio|;
      audio := audio + [value];
      next := next + [nextNode];
      nextChannel := nextChannel + [nextChannelNode];
      stepOf := stepOf + [step];
      chanOf := chanOf + [channel];
    }

    /**
     * Creates the nodes of one time-step, last channel first, each linked to
     * the channel after it, and returns the channel-0 node.
     */
    method NewTimeStep(samples: seq<real>, ghost step: int) returns (first: int)
      requires ArenaSized() && |samples| == numChannels >= 1
      modifies this`audio, this`next, this`nextChannel, this`stepOf, this`chanOf
      ensures ArenaSized() && |audio| == old(|audio|) + numChannels
      ensures first == old(|audio|) + numChannels - 1
      ensures audio[..old(|audio|)] == old(audio) && next[..old(|audio|)] == old(next)
      ensures nextChannel[..old(|audio|)] == old(nextChannel)
      ensures stepOf[..old(|audio|)] == old(stepOf) && chanOf[..old(|audio|)] == old(chanOf)
      ensures forall x | old(|audio|) <= x < |audio| :: audio[x] == samples[old(|audio|) + numChannels - 1 - x]
      ensures forall x | old(|audio|) <= x < |audio| :: next[x] == Null
      ensures forall x | old(|audio|) <= x < |audio| :: stepOf[x] == step
      ensures forall x | old(|audio|) <= x < |audio| :: chanOf[x] == old(|audio|) + numChannels - 1 - x
      ensures ChannelChain(nextChannel, NewStepNodes(old(|audio|), numChannels))
    {
      ghost var base := |audio|;
      first := Null;
      var i := |samples| - 1;
      while i >= 0
        invariant -1 <= i < numChannels
        invariant ArenaSized() && |audio| == base + numChannels - 1 - i
        invariant first == (if i == numChannels - 1 then Null else |audio| - 1)
        invariant audio[..base] == old(audio) && next[..base] == old(next)
        invariant nextChannel[..base] == old(nextChannel)
        invariant stepOf[..base] == old(stepOf) && chanOf[..base] == old(chanOf)
        invariant forall x | base <= x < |audio| ::
          && audio[x] == samples[base + numChannels - 1 - x]
          && next[x] == Null
          && nextChannel[x] == (if x > base then x - 1 else Null)
          && stepOf[x] == step
          && chanOf[x] == base + numChannels - 1 - x
      {
        first := NewSample(samples[i], Null, first, step, i);
        i := i - 1;
      }
      NewStepChain(base, numChannels, nextChannel);
    }

    /**
     * Walks the step `last` (the nodes of step `step`, channel by channel) and
     * the step `row` starting at `first` together, pointing each node of
     * `last` at the node of `row` on the same channel.
     */
    method LinkStep(first: int, ghost last: seq<int>, ghost row: seq<int>, ghost step: int)
      requires |last| == numChannels && |row| == numChannels && numChannels >= 1
      requires |next| == |nextChannel| && |stepOf| == |nextChannel| && |chanOf| == |nextChannel|
      requires tail == last[0] && first == row[0]
      requires ChannelChain(nextChannel, last) && ChannelChain(nextChannel, row)
      requires forall c | 0 <= c < numChannels :: stepOf[last[c]] == step && chanOf[last[c]] == c
      modifies this`next
      ensures |next| == old(|next|)
      ensures forall c | 0 <= c < numChannels :: next[last[c]] == row[c]
      ensures forall x | 0 <= x < |next| && stepOf[x] != step :: next[x] == old(next[x])
    {
      var temp := tail;
      var newSample := first;
      ghost var k := 0;
      while temp != Null
        invariant 0 <= k <= numChannels && |next| == old(|next|)
        invariant k < numChannels ==> temp == last[k] && newSample == row[k]
        invariant k == numChannels ==> temp == Null
        invariant forall c | 0 <= c < k :: next[last[c]] == row[c]
        invariant forall x | 0 <= x < |next| && (stepOf[x] != step || chanOf[x] >= k) :: next[x] == old(next[x])
        decreases numChannels - k
      {
        next := next[temp := newSample];
        temp := nextChannel[temp];
        newSample := nextChannel[newSample];
        k := k + 1;
      }
    }

    /**
     * Appends one time-step holding `samples`, one amplitude per channel, and
     * links every channel of the old last step to it. A wrong number of
     * amplitudes is refused and leaves the list as it was.
     */
    method AddSample(samples: seq<real>) returns (status: Status)
      requires Linked()
      modifies this
      ensures status == (if |samples| == numChannels then Success else IllegalArgument)
      ensures status == IllegalArgument ==> unchanged(this)
      ensures status == Success ==>
        && Valid()
        && Frames() == old(Frames()) + [samples]
        && grid == old(grid) + [NewStepNodes(old(|audio|), numChannels)]
        && numSamples == old(numSamples) + 1
        && sampleRate == old(sampleRate)
        && Kept(old(audio), old(next), old(nextChannel), old(stepOf), old(chanOf),
                audio, next, nextChannel, stepOf, chanOf, old(|grid|) - 1)
    {
      if |samples| != numChannels {
        return IllegalArgument;
      }
      PushStep(samples);
      status := Success;
    }

    /** The work of AddSample once the number of amplitudes is known to be right. */
    method PushStep(samples: seq<real>)
      requires Linked() && |samples| == numChannels
      modifies this
      ensures Valid()
      ensures Frames() == old(Frames()) + [samples]
      ensures grid == old(grid) + [NewStepNodes(old(|audio|), numChannels)]
      ensures numSamples == old(numSamples) + 1 && sampleRate == old(sampleRate)
      ensures Kept(old(audio), old(next), old(nextChannel), old(stepOf), old(chanOf),
                   audio, next, nextChannel, stepOf, chanOf, old(|grid|) - 1)
    {
      if tail == Null {
        StartSteps(samples);
      } else {
        ExtendSteps(samples);
      }
    }

    /** Adds the first time-step of an empty list. */
    method StartSteps(samples: seq<real>)
      requires Linked() && |samples| == numChannels && tail == Null
      modifies this
      ensures Valid()
      ensures Frames() == old(Frames()) + [samples]
      ensures grid == old(grid) + [NewStepNodes(old(|audio|), numChannels)]
      ensures numSamples == old(numSamples) + 1 && sampleRate == old(sampleRate)
      ensures Kept(old(audio), old(next), old(nextChannel), old(stepOf), old(chanOf),
                   audio, next, nextChannel, stepOf, chanOf, old(|grid|) - 1)
    {
      ghost var g0, a0, n0, nc0, s0, c0 := grid, audio, next, nextChannel, stepOf, chanOf;
      tail := NewTimeStep(samples, |grid|);
      head := tail;
      numSamples, grid := numSamples + 1, g0 + [NewStepNodes(|a0|, numChannels)];
      AppendedStore(g0, numChannels, samples, a0, n0, nc0, s0, c0, old(head), old(tail),
                    audio, next, nextChannel, stepOf, chanOf, head, tail, grid);
    }

    /** Adds a time-step after the last one and links the old last step to it. */
    method ExtendSteps(samples: seq<real>)
      requires Linked() && |samples| == numChannels && tail != Null
      modifies this
      ensures Valid()
      ensures Frames() == old(Frames()) + [samples]
      ensures grid == old(grid) + [NewStepNodes(old(|audio|), numChannels)]
      ensures numSamples == old(numSamples) + 1 && sampleRate == old(sampleRate)
      ensures Kept(old(audio), old(next), old(nextChannel), old(stepOf), old(chanOf),
                   audio, next, nextChannel, stepOf, chanOf, old(|grid|) - 1)
    {
      ghost var g0, a0, n0, nc0, s0, c0 := grid, audio, next, nextChannel, stepOf, chanOf;
      var newSample := GrowAndLink(samples);
      tail := newSample;
      numSamples, grid := numSamples + 1, g0 + [NewStepNodes(|a0|, numChannels)];
      AppendedStore(g0, numChannels, samples, a0, n0, nc0, s0, c0, old(head), old(tail),
                    audio, next, nextChannel, stepOf, chanOf, head, tail, grid);
    }

    /**
     * Creates the nodes of a new time-step and points the last step's next
     * links at them; returns the new step's channel-0 node. Only the node
     * store changes.
     */
    method GrowAndLink(samples: seq<real>) returns (first: int)
      requires Linked() && |samples| == numChannels && |grid| > 0
      modifies this`audio, this`next, this`nextChannel, this`stepOf, this`chanOf
      ensures first == old(|audio|) + numChannels - 1
      ensures |audio| == old(|audio|) + numChannels && |next| == |audio| && |stepOf| == |audio|
      ensures |chanOf| == |audio| && |nextChannel| == |audio|
      ensures audio[..old(|audio|)] == old(audio) && nextChannel[..old(|audio|)] == old(nextChannel)
      ensures stepOf[..old(|audio|)] == old(stepOf) && chanOf[..old(|audio|)] == old(chanOf)
      ensures forall x | old(|audio|) <= x < |audio| :: audio[x] == samples[old(|audio|) + numChannels - 1 - x]
      ensures forall x | old(|audio|) <= x < |audio| :: next[x] == Null
      ensures ChannelChain(nextChannel, NewStepNodes(old(|audio|), numChannels))
      ensures forall x | old(|audio|) <= x < |audio| :: stepOf[x] == |grid|
      ensures forall x | old(|audio|) <= x < |audio| :: chanOf[x] == old(|audio|) + numChannels - 1 - x
      ensures forall x | 0 <= x < old(|audio|) && old(stepOf[x]) != |grid| - 1 :: next[x] == old(next[x])
      ensures forall c | 0 <= c < numChannels :: next[grid[|grid| - 1][c]] == NewStepNodes(old(|audio|), numChannels)[c]
    {
      ghost var g0, nc0, s0, c0 := grid, nextChannel, stepOf, chanOf;
      ghost var row := NewStepNodes(|audio|, numChannels);
      first := NewTimeStep(samples, |grid|);
      StepAfterGrowth(g0, numChannels, |g0| - 1, s0, c0, nc0, stepOf, chanOf, nextChannel);
      LinkStep(first, g0[|g0| - 1], row, |g0| - 1);
    }
  
    /**
     * Appends a time-step of a one-channel list holding `value`; the first
     * node of an empty list is created exactly as AddSample creates it.
     */
    method AddMonoSample(value: real)
      requires Linked() && numChannels == 1
      modifies this
      ensures Valid()
      ensures Frames() == old(Frames()) + [[value]]
      ensures numSamples == old(numSamples) + 1 && sampleRate == old(sampleRate)
    {
      if tail == Null {
        StartSteps([value]);
      } else {
        ExtendMono(value);
      }
    }

    /** Adds a one-channel time-step after the last one. */
    method ExtendMono(value: real)
      requires Linked() && numChannels == 1 && tail != Null
      modifies this
      ensures Valid()
      ensures Frames() == old(Frames()) + [[value]]
      ensures numSamples == old(numSamples) + 1 && sampleRate == old(sampleRate)
    {
      ghost var g0, a0, n0, nc0, s0, c0 := grid, audio, next, nextChannel, stepOf, chanOf;
      var newSample := LinkMonoNode(value);
      tail := newSample;
      numSamples, grid := numSamples + 1, g0 + [NewStepNodes(|a0|, numChannels)];
      AppendedStore(g0, numChannels, [value], a0, n0, nc0, s0, c0, old(head), old(tail),
                    audio, next, nextChannel, stepOf, chanOf, head, tail, grid);
    }

    /** Creates the node of a one-channel time-step and links the old tail to it. */
    method LinkMonoNode(value: real) returns (node: int)
      requires Linked() && numChannels == 1
      modifies this`audio, this`next, this`nextChannel, this`stepOf, this`chanOf
      ensures node == old(|audio|) + numChannels - 1
      ensures |audio| == old(|audio|) + numChannels && |next| == |audio| && |stepOf| == |audio|
      ensures |chanOf| == |audio| && |nextChannel| == |audio|
      ensures audio[..old(|audio|)] == old(audio) && nextChannel[..old(|audio|)] == old(nextChannel)
      ensures stepOf[..old(|audio|)] == old(stepOf) && chanOf[..old(|audio|)] == old(chanOf)
      ensures forall x | old(|audio|) <= x < |audio| :: audio[x] == [value][old(|audio|) + numChannels - 1 - x]
      ensures forall x | old(|audio|) <= x < |audio| :: next[x] == Null
      ensures ChannelChain(nextChannel, NewStepNodes(old(|audio|), numChannels))
      ensures forall x | old(|audio|) <= x < |audio| :: stepOf[x] == |grid|
      ensures forall x | old(|audio|) <= x < |audio| :: chanOf[x] == old(|audio|) + numChannels - 1 - x
      ensures forall x | 0 <= x < old(|audio|) && old(stepOf[x]) != |grid| - 1 :: next[x] == old(next[x])
      ensures |grid| > 0 ==> forall c | 0 <= c < numChannels ::
        next[grid[|grid| - 1][c]] == NewStepNodes(old(|audio|), numChannels)[c]
    {
      node := NewSample(value, Null, Null, |grid|, 0);
      if tail != Null {
        next := next[tail := node];
      }
    }

    /**
     * Drains the all-channel iterator: walks every channel of the list from
     * its first time-step and returns one frame per time-step.
     */
    method AllChannels() returns (rows: seq<seq<real>>)
      requires Valid() && CanIterate()
      ensures rows == Frames()
    {
      var current := new int[numChannels];
      current[0] := head;
      var i := 1;
      while i < numChannels
        invariant 1 <= i <= numChannels
        invariant forall j | 0 <= j < i :: current[j] == NodeAt(0, j)
      {
        current[i] := nextChannel[current[i - 1]];
        i := i + 1;
      }
      ghost var t := 0;
      rows := [];
      while current[0] != Null
        invariant 0 <= t <= |grid| && rows == Frames()[..t]
        invariant forall j | 0 <= j < numChannels :: current[j] == NodeAt(t, j)
        decreases |grid| - t
      {
        var frame := ReadFrame(current, t);
        PrefixGrows(Frames(), t);
        rows := rows + [frame];
        t := t + 1;
      }
    }

    /**
     * One step of the all-channel iterator: reads the amplitude under each
     * cursor and moves every cursor to the next time-step.
     */
    method ReadFrame(current: array<int>, ghost t: int) returns (frame: seq<real>)
      requires Valid() && 0 <= t < |grid| && current.Length == numChannels
      requires forall j | 0 <= j < numChannels :: current[j] == grid[t][j]
      modifies current
      ensures frame == Frames()[t]
      ensures forall j | 0 <= j < numChannels :: current[j] == NodeAt(t + 1, j)
    {
      var values := new real[numChannels];
      var k := 0;
      while k < numChannels
        invariant 0 <= k <= numChannels
        invariant forall j | 0 <= j < k :: values[j] == Frames()[t][j] && current[j] == NodeAt(t + 1, j)
        invariant forall j | k <= j < numChannels :: current[j] == grid[t][j]
      {
        values[k] := audio[current[k]];
        current[k] := next[current[k]];
        k := k + 1;
      }
      frame := values[..];
    }

    /**
     * Drains the iterator over one channel. A channel past the last one is
     * refused; a negative channel reads channel 0, and the channel equal to
     * the number of channels yields nothing.
     */
    method ChannelSamples(channel: int) returns (status: Status, samples: seq<real>)
      requires Valid()
      requires channel <= 0 || channel > numChannels || |grid| > 0
      ensures status == (if channel > numChannels then IndexOutOfBounds else Success)
      ensures channel > numChannels || channel == numChannels ==> samples == []
      ensures 0 <= channel < numChannels ==> samples == Column(Frames(), numChannels, channel)
      ensures channel < 0 ==> samples == Column(Frames(), numChannels, 0)
    {
      if channel > numChannels {
        return IndexOutOfBounds, [];
      }
      status := Success;
      var current := head;
      var i := 0;
      while i < channel
        invariant 0 <= i && (channel >= 0 ==> i <= channel)
        invariant |grid| > 0 ==> current == (if i < numChannels then grid[0][i] else Null)
        invariant |grid| == 0 ==> current == Null && i == 0
        invariant channel < 0 ==> i == 0
      {
        current := nextChannel[current];
        i := i + 1;
      }
      ghost var c := if channel < 0 then 0 else channel;
      ghost var t := 0;
      samples := [];
      while current != Null
        invariant c < numChannels ==> 0 <= t <= |grid| && current == NodeAt(t, c)
        invariant c < numChannels ==> samples == Column(Frames(), numChannels, c)[..t]
        invariant c == numChannels ==> current == Null && samples == []
        decreases |grid| - t
      {
        samples := samples + [audio[current]];
        current := next[current];
        t := t + 1;
      }
    }

    /** A new list with the same rate, channels and time-steps. */
    method Clone() returns (copy: MusicLinkedList)
      requires Valid() && CanIterate()
      ensures fresh(copy) && copy.Valid()
      ensures copy.Frames() == Frames()
      ensures copy.sampleRate == sampleRate && copy.numChannels == numChannels
      ensures copy.numSamples == |grid|
    {
      copy := new MusicLinkedList(sampleRate, numChannels);
      var rows := AllChannels();
      var i := 0;
      while i < |rows|
        invariant 0 <= i <= |rows| && fresh(copy) && copy.Valid()
        invariant copy.Frames() == rows[..i] && copy.numSamples == i
        invariant copy.sampleRate == sampleRate && copy.numChannels == numChannels
        modifies copy
      {
        PrefixGrows(rows, i);
        copy.PushFrame(rows[i]);
        i := i + 1;
      }
      assert rows[..i] == rows;
    }

    /** AddSample with a frame of the right width, as the list-building loops use it. */
    method PushFrame(row: seq<real>)
      requires Valid() && |row| == numChannels
      modifies this
      ensures Valid() && Frames() == old(Frames()) + [row]
      ensures numSamples == old(numSamples) + 1 && |grid| == old(|grid|) + 1 && sampleRate == old(sampleRate)
    {
      var status := AddSample(row);
    }

    /** Plays the clip faster (or slower) by scaling its sample rate. */
    method ChangeSpeed(percentChange: real)
      modifies this`sampleRate
      ensures sampleRate == old(sampleRate) * percentChange
    {
      sampleRate := sampleRate * percentChange;
    }

    /** The clip's length in seconds: the time of its last time-step. */
    function Duration(): (d: real)
      reads this
      requires sampleRate != 0.0
      ensures d * sampleRate == (numSamples - 1) as real
    {
      (numSamples - 1) as real / sampleRate
    }

    /**
     * Follows the channel-0 `next` links from `from`, the node of step t0,
     * as often as a loop `for (i = 0; i < x; i++)` runs.
     */
    method Advance(from: int, ghost t0: int, x: real) returns (pointer: int)
      requires Walkable() && 0 <= t0 && t0 + StepsBefore(x) <= |grid|
      requires from == StepHead(grid, t0)
      ensures pointer == StepHead(grid, t0 + StepsBefore(x))
    {
      pointer := from;
      var i := 0;
      while (i as real) < x
        invariant 0 <= i <= StepsBefore(x)
        invariant pointer == StepHead(grid, t0 + i)
        decreases StepsBefore(x) - i
      {
        pointer := next[pointer];
        i := i + 1;
      }
    }

    /** Walks the nodes of one step from `first`, setting every `next` link to Null. */
    method ClearNext(first: int, ghost nodes: seq<int>, ghost step: int)
      requires |nodes| == numChannels >= 1 && first == nodes[0]
      requires |next| == |nextChannel| && |stepOf| == |nextChannel|
      requires ChannelChain(nextChannel, nodes)
      requires forall c | 0 <= c < numChannels :: stepOf[nodes[c]] == step
      modifies this`next
      ensures |next| == old(|next|)
      ensures forall c | 0 <= c < numChannels :: next[nodes[c]] == Null
      ensures forall x | 0 <= x < |next| && stepOf[x] != step :: next[x] == old(next[x])
    {
      var crawler := first;
      for i := 0 to numChannels
        invariant |next| == old(|next|)
        invariant crawler == (if i < numChannels then nodes[i] else Null)
        invariant forall c | 0 <= c < i :: next[nodes[c]] == Null
        invariant forall x | 0 <= x < |next| && stepOf[x] != step :: next[x] == old(next[x])
      {
        next := next[crawler := Null];
        crawler := nextChannel[crawler];
      }
    }

    /**
     * Walks the nodes of two steps together from `source` and `target`,
     * pointing each node of the first at the node of the second on the same
     * channel.
     */
    method PointNext(source: int, target: int, ghost from: seq<int>, ghost to: seq<int>, ghost step: int)
      requires |from| == numChannels >= 1 && |to| == numChannels
      requires source == from[0] && target == to[0]
      requires |next| == |nextChannel| && |stepOf| == |nextChannel| && |chanOf| == |nextChannel|
      requires ChannelChain(nextChannel, from) && ChannelChain(nextChannel, to)
      requires forall c | 0 <= c < numChannels :: stepOf[from[c]] == step && chanOf[from[c]] == c
      modifies this`next
      ensures |next| == old(|next|)
      ensures forall c | 0 <= c < numChannels :: next[from[c]] == to[c]
      ensures forall x | 0 <= x < |next| && stepOf[x] != step :: next[x] == old(next[x])
    {
      var fromCrawler, toCrawler := source, target;
      for i := 0 to numChannels
        invariant |next| == old(|next|)
        invariant fromCrawler == (if i < numChannels then from[i] else Null)
        invariant toCrawler == (if i < numChannels then to[i] else Null)
        invariant forall c | 0 <= c < i :: next[from[c]] == to[c]
        invariant forall x | 0 <= x < |next| && (stepOf[x] != step || chanOf[x] >= i) :: next[x] == old(next[x])
      {
        next := next[fromCrawler := toCrawler];
        fromCrawler := nextChannel[fromCrawler];
        toCrawler := nextChannel[toCrawler];
      }
    }

    /**
     * Walks three consecutive steps together, pointing each node of the last
     * at the middle step and each node of the middle at the first.
     */
    method PointBackTwice(third: int, second: int, first: int,
                          ghost s3: seq<int>, ghost s2: seq<int>, ghost s1: seq<int>, ghost step: int)
      requires |s3| == numChannels >= 1 && |s2| == numChannels && |s1| == numChannels
      requires third == s3[0] && second == s2[0] && first == s1[0]
      requires |next| == |nextChannel| && |stepOf| == |nextChannel| && |chanOf| == |nextChannel|
      requires ChannelChain(nextChannel, s3) && ChannelChain(nextChannel, s2) && ChannelChain(nextChannel, s1)
      requires forall c | 0 <= c < numChannels :: stepOf[s3[c]] == step && chanOf[s3[c]] == c
      requires forall c | 0 <= c < numChannels :: stepOf[s2[c]] == step - 1 && chanOf[s2[c]] == c
      modifies this`next
      ensures |next| == old(|next|)
      ensures forall c | 0 <= c < numChannels :: next[s3[c]] == s2[c]
      ensures forall c | 0 <= c < numChannels :: next[s2[c]] == s1[c]
      ensures forall x | 0 <= x < |next| && stepOf[x] != step && stepOf[x] != step - 1 :: next[x] == old(next[x])
    {
      var crawler1, crawler2, crawler3 := first, second, third;
      for i := 0 to numChannels
        invariant |next| == old(|next|)
        invariant crawler1 == (if i < numChannels then s1[i] else Null)
        invariant crawler2 == (if i < numChannels then s2[i] else Null)
        invariant crawler3 == (if i < numChannels then s3[i] else Null)
        invariant forall c | 0 <= c < i :: next[s3[c]] == s2[c] && next[s2[c]] == s1[c]
        invariant forall x | 0 <= x < |next| && ((stepOf[x] != step && stepOf[x] != step - 1) || chanOf[x] >= i) ::
          next[x] == old(next[x])
      {
        next := next[crawler3 := crawler2];
        next := next[crawler2 := crawler1];
        crawler1 := nextChannel[crawler1];
        crawler2 := nextChannel[crawler2];
        crawler3 := nextChannel[crawler3];
      }
    }

    /**
     * Turns every `next` link around: step 0's links end at Null and every
     * later step's nodes point one step back.
     */
    method ReverseLinks()
      requires Valid() && numSamples == |grid| >= 3
      modifies this`next
      ensures |next| == old(|next|)
      ensures BackwardUpTo(grid, numChannels, next, |grid| - 1)
    {
      var sample1 := head;
      var sample2 := next[sample1];
      var sample3 := next[sample2];
      TurnFirst(sample1);
      var j := 0;
      while j < numSamples - 3
        invariant 0 <= j <= numSamples - 3 && |next| == old(|next|)
        invariant sample1 == grid[j][0] && sample2 == grid[j + 1][0] && sample3 == grid[j + 2][0]
        invariant BackwardUpTo(grid, numChannels, next, j) && ForwardAfter(grid, numChannels, next, j)
      {
        TurnBack(sample2, sample1, j);
        sample1 := sample2;
        sample2 := sample3;
        sample3 := next[sample3];
        j := j + 1;
      }
      TurnLast(sample3, sample2, sample1);
    }

    /** The first loop of Reverse: ends the `next` links of step 0 at Null. */
    method TurnFirst(first: int)
      requires Valid() && |grid| > 0 && first == grid[0][0]
      modifies this`next
      ensures |next| == old(|next|)
      ensures BackwardUpTo(grid, numChannels, next, 0) && ForwardAfter(grid, numChannels, next, 0)
    {
      ghost var n0 := next;
      ClearNext(first, grid[0], 0);
      TurnStep(grid, numChannels, stepOf, n0, next, -1);
    }

    /** One pass of the middle loop of Reverse: points step j+1 back at step j. */
    method TurnBack(later: int, earlier: int, ghost j: int)
      requires numChannels >= 1 && Shaped(grid, numChannels, stepOf, chanOf, nextChannel) && |next| == |stepOf|
      requires 0 <= j && j + 1 < |grid| && later == grid[j + 1][0] && earlier == grid[j][0]
      requires BackwardUpTo(grid, numChannels, next, j) && ForwardAfter(grid, numChannels, next, j)
      modifies this`next
      ensures |next| == old(|next|)
      ensures BackwardUpTo(grid, numChannels, next, j + 1) && ForwardAfter(grid, numChannels, next, j + 1)
    {
      ghost var n1 := next;
      PointNext(later, earlier, grid[j + 1], grid[j], j + 1);
      TurnStep(grid, numChannels, stepOf, n1, next, j);
    }

    /** The last loop of Reverse: points the last step back at the one before, and that one back again. */
    method TurnLast(third: int, second: int, first: int)
      requires numChannels >= 1 && Shaped(grid, numChannels, stepOf, chanOf, nextChannel) && |next| == |stepOf|
      requires |grid| >= 3 && third == grid[|grid| - 1][0] && second == grid[|grid| - 2][0] && first == grid[|grid| - 3][0]
      requires BackwardUpTo(grid, numChannels, next, |grid| - 3)
      modifies this`next
      ensures |next| == old(|next|)
      ensures BackwardUpTo(grid, numChannels, next, |grid| - 1)
    {
      ghost var n2 := next;
      ghost var n := |grid|;
      PointBackTwice(third, second, first, grid[n - 1], grid[n - 2], grid[n - 3], n - 1);
      TurnLastTwo(grid, numChannels, stepOf, n2, next, grid[n - 1], grid[n - 2], grid[n - 3]);
    }

    /** Reverses the clip in time by turning its links around. */
    method Reverse()
      requires Valid() && numSamples == |grid| >= 3
      modifies this`next, this`head, this`tail, this`stepOf, this`grid
      ensures Valid()
      ensures Frames() == Reversed(old(Frames()))
      ensures head == old(tail) && tail == old(head)
    {
      ghost var g0, n0, s0 := grid, next, stepOf;
      ReverseLinks();
      ReversedStore(g0, numChannels, audio, n0, next, nextChannel, s0, chanOf, head, tail);
      var temp := tail;
      tail := head;
      head := temp;
      stepOf := MirroredSteps(s0, |g0|);
      grid := Reversed(g0);
    }

    /**
     * Keeps only the time-steps from `startTime` for `duration` seconds: the
     * step reached after startTime * sampleRate steps becomes the first, the
     * step duration * sampleRate steps further becomes the last, and its
     * `next` links are cut. The sample count is left as it was.
     */
    method Clip(startTime: real, duration: real)
      requires Valid()
      requires StepsBefore(startTime * sampleRate) + StepsBefore(duration * sampleRate) < |grid|
      modifies this`head, this`tail, this`next, this`stepOf, this`grid
      ensures Valid()
      ensures Frames() == old(Frames()[StepsBefore(startTime * sampleRate)..
                                       StepsBefore(startTime * sampleRate) + StepsBefore(duration * sampleRate) + 1])
    {
      ClipSteps(startTime * sampleRate, duration * sampleRate);
    }

    /**
     * Clip with its two loop bounds, startTime * sampleRate and
     * duration * sampleRate, computed.
     */
    method ClipSteps(startSteps: real, durationSteps: real)
      requires Valid() && StepsBefore(startSteps) + StepsBefore(durationSteps) < |grid|
      modifies this`head, this`tail, this`next, this`stepOf, this`grid
      ensures Valid()
      ensures Frames() == old(Frames()[StepsBefore(startSteps)..StepsBefore(startSteps) + StepsBefore(durationSteps) + 1])
    {
      ghost var s := StepsBefore(startSteps);
      ghost var e := s + StepsBefore(durationSteps);
      ghost var h0, f0 := head, Frames();
      var pointer := Advance(head, 0, startSteps);
      head := pointer;
      pointer := Advance(pointer, s, durationSteps);
      CutAfter(pointer, s, e, h0);
      assert Frames() == f0[s..e + 1];
    }

    /**
     * The end of Clip: with head already moved to step s, makes `last`, the
     * channel-0 node of step e, the tail and ends its step's `next` links.
     */
    method CutAfter(last: int, ghost s: int, ghost e: int, ghost oldHead: int)
      requires numChannels >= 1 && |grid| <= numSamples && 0 <= s <= e < |grid|
      requires Store(grid, numChannels, audio, next, nextChannel, stepOf, chanOf, oldHead, tail, |grid| - 1)
      requires head == grid[s][0] && last == grid[e][0]
      modifies this`tail, this`next, this`stepOf, this`grid
      ensures Valid()
      ensures Frames() == old(FramesOf(grid, numChannels, audio)[s..e + 1])
    {
      ghost var g0, n0, s0 := grid, next, stepOf;
      ghost var t0 := tail;
      ClearNext(last, g0[e], e);
      tail, stepOf, grid := last, ShiftedSteps(s0, s), g0[s..e + 1];
      ClippedStore(g0, numChannels, audio, n0, next, nextChannel, s0, chanOf, oldHead, t0, s, e,
                   grid, stepOf, head, tail);
    }

    /**
     * Splices `other` in after the step reached after startTime * sampleRate
     * steps: the steps after it are detached, other's frames are appended
     * one by one, and the detached steps are linked back after them.
     */
    method SpliceIn(startTime: real, other: MusicLinkedList)
      requires Valid() && other.Valid() && other.CanIterate() && other != this
      requires other.sampleRate == sampleRate && other.numChannels == numChannels
      requires StepsBefore(startTime * sampleRate) + 1 < |grid|
      modifies this
      ensures Valid()
      ensures Frames() == old(Frames()[..StepsBefore(startTime * sampleRate) + 1] + other.Frames()
                              + Frames()[StepsBefore(startTime * sampleRate) + 1..])
      ensures numSamples == old(numSamples + |other.grid|) && sampleRate == old(sampleRate)
      ensures head == old(head) && tail == old(tail)
    {
      SpliceAt(startTime * sampleRate, other);
    }

    /** SpliceIn with its loop bound, startTime * sampleRate, computed. */
    method SpliceAt(startSteps: real, other: MusicLinkedList)
      requires Valid() && other.Valid() && other.CanIterate() && other != this
      requires other.numChannels == numChannels
      requires StepsBefore(startSteps) + 1 < |grid|
      modifies this
      ensures Valid()
      ensures Frames() == old(Frames()[..StepsBefore(startSteps) + 1] + other.Frames()
                              + Frames()[StepsBefore(startSteps) + 1..])
      ensures numSamples == old(numSamples + |other.grid|) && sampleRate == old(sampleRate)
      ensures head == old(head) && tail == old(tail)
    {
      var pointer := Advance(head, 0, startSteps);
      SpliceAfter(pointer, StepsBefore(startSteps), other);
    }

    /** The body of SpliceIn once `pointer`, the channel-0 node of step s, is found. */
    method SpliceAfter(pointer: int, ghost s: int, other: MusicLinkedList)
      requires Valid() && other.Valid() && other.CanIterate() && other != this
      requires other.numChannels == numChannels
      requires 0 <= s && s + 1 < |grid| && pointer == grid[s][0]
      modifies this
      ensures Valid()
      ensures Frames() == old(Frames()[..s + 1] + other.Frames() + Frames()[s + 1..])
      ensures numSamples == old(numSamples + |other.grid|) && sampleRate == old(sampleRate)
      ensures head == old(head) && tail == old(tail)
    {
      var tempHead, tempTail, seg := Detach(pointer, s);
      InsertClip(other, tempHead, tempTail, seg);
    }

    /**
     * With the steps after the splice point detached as `seg`, appends
     * other's frames and links `seg` back after them.
     */
    method InsertClip(other: MusicLinkedList, tempHead: int, tempTail: int, ghost seg: seq<seq<int>>)
      requires Linked() && |grid| > 0 && |grid| + |seg| <= numSamples && other != this
      requires other.Valid() && other.CanIterate() && other.numChannels == numChannels
      requires Segment(seg, numChannels, next, nextChannel, stepOf, chanOf) && |seg| > 0
      requires tempHead == seg[0][0] && tempTail == seg[|seg| - 1][0]
      modifies this
      ensures Valid()
      ensures Frames() == old(Frames() + other.Frames() + FramesOf(seg, numChannels, audio))
      ensures numSamples == old(numSamples + |other.grid|) && sampleRate == old(sampleRate)
      ensures head == old(head) && tail == tempTail
    {
      AppendClip(other, seg);
      Rejoin(tempHead, tempTail, seg);
    }

    /**
     * Makes step s the last one: `pointer`, its channel-0 node, becomes the
     * tail, and the later steps are returned as a detached segment together
     * with the channel-0 nodes of its first and last steps.
     */
    method Detach(pointer: int, ghost s: int) returns (tempHead: int, tempTail: int, ghost seg: seq<seq<int>>)
      requires Valid() && 0 <= s && s + 1 < |grid| && pointer == grid[s][0]
      modifies this`tail, this`stepOf, this`grid
      ensures Linked() && |grid| + |seg| <= numSamples
      ensures grid == old(grid[..s + 1]) && seg == old(grid[s + 1..])
      ensures Segment(seg, numChannels, next, nextChannel, stepOf, chanOf)
      ensures tempHead == seg[0][0] && tempTail == seg[|seg| - 1][0] && tempTail == old(tail)
      ensures Frames() == old(Frames()[..s + 1]) && FramesOf(seg, numChannels, audio) == old(Frames()[s + 1..])
    {
      ghost var g0, s0, t0 := grid, stepOf, tail;
      assert t0 == g0[|g0| - 1][0];
      tempHead := next[pointer];
      tempTail := tail;
      tail, stepOf, grid := pointer, DetachedSteps(stepOf, s), grid[..s + 1];
      seg := g0[s + 1..];
      assert |seg| == |g0| - (s + 1) && seg[|seg| - 1] == g0[|g0| - 1];
      DetachedStore(g0, numChannels, audio, next, nextChannel, s0, chanOf, head, t0, s, grid, seg, stepOf, tail);
    }

    /**
     * Drains other's all-channel iterator and appends each frame, leaving a
     * detached segment as it was.
     */
    method AppendClip(other: MusicLinkedList, ghost seg: seq<seq<int>>)
      requires Linked() && |grid| > 0 && other != this
      requires other.Valid() && other.CanIterate() && other.numChannels == numChannels
      requires Segment(seg, numChannels, next, nextChannel, stepOf, chanOf)
      modifies this
      ensures Linked() && |grid| == old(|grid|) + old(|other.grid|)
      ensures Frames() == old(Frames() + other.Frames())
      ensures Segment(seg, numChannels, next, nextChannel, stepOf, chanOf)
      ensures FramesOf(seg, numChannels, audio) == old(FramesOf(seg, numChannels, audio))
      ensures numSamples == old(numSamples + |other.grid|) && sampleRate == old(sampleRate)
      ensures head == old(head)
    {
      var rows := other.AllChannels();
      AppendRows(rows, seg);
    }

    /** Appends `rows` one time-step at a time, leaving a detached segment as it was. */
    method AppendRows(rows: seq<seq<real>>, ghost seg: seq<seq<int>>)
      requires Linked() && |grid| > 0 && Rectangular(rows, numChannels)
      requires Segment(seg, numChannels, next, nextChannel, stepOf, chanOf)
      modifies this
      ensures Linked() && |grid| == old(|grid|) + |rows|
      ensures Frames() == old(Frames()) + rows
      ensures Segment(seg, numChannels, next, nextChannel, stepOf, chanOf)
      ensures FramesOf(seg, numChannels, audio) == old(FramesOf(seg, numChannels, audio))
      ensures numSamples == old(numSamples) + |rows| && sampleRate == old(sampleRate)
      ensures head == old(head)
    {
      var i := 0;
      while i < |rows|
        invariant 0 <= i <= |rows| && Linked() && |grid| == old(|grid|) + i
        invariant head == old(head)
        invariant Frames() == old(Frames()) + rows[..i]
        invariant Segment(seg, numChannels, next, nextChannel, stepOf, chanOf)
        invariant FramesOf(seg, numChannels, audio) == old(FramesOf(seg, numChannels, audio))
        invariant numSamples == old(numSamples) + i && sampleRate == old(sampleRate)
      {
        PrefixGrows(rows, i);
        AppendRow(rows[i], seg);
        i := i + 1;
      }
      assert rows[..i] == rows;
    }

    /** One step of AppendRows: adds a frame of the right width, leaving a detached segment as it was. */
    method AppendRow(row: seq<real>, ghost seg: seq<seq<int>>)
      requires Linked() && |grid| > 0 && |row| == numChannels
      requires Segment(seg, numChannels, next, nextChannel, stepOf, chanOf)
      modifies this
      ensures Linked() && |grid| == old(|grid|) + 1 && head == old(head)
      ensures Frames() == old(Frames()) + [row]
      ensures Segment(seg, numChannels, next, nextChannel, stepOf, chanOf)
      ensures FramesOf(seg, numChannels, audio) == old(FramesOf(seg, numChannels, audio))
      ensures numSamples == old(numSamples) + 1 && sampleRate == old(sampleRate)
    {
      ghost var a0, n0, nc0, s0, c0, step := audio, next, nextChannel, stepOf, chanOf, |grid| - 1;
      var status := AddSample(row);
      SegmentKept(seg, numChannels, a0, n0, nc0, s0, c0, audio, next, nextChannel, stepOf, chanOf, step);
    }

    /**
     * Links the last step to the first step of a detached segment, node by
     * node along the channels, and makes the segment's last step the tail.
     */
    method Rejoin(tempHead: int, tempTail: int, ghost seg: seq<seq<int>>)
      requires Linked() && |grid| > 0 && |grid| + |seg| <= numSamples
      requires Segment(seg, numChannels, next, nextChannel, stepOf, chanOf) && |seg| > 0
      requires tempHead == seg[0][0] && tempTail == seg[|seg| - 1][0]
      modifies this`next, this`tail, this`stepOf, this`grid
      ensures Valid()
      ensures Frames() == old(Frames() + FramesOf(seg, numChannels, audio))
      ensures tail == tempTail
    {
      ghost var g0, n0, s0, t0 := grid, next, stepOf, tail;
      ghost var f0 := FramesOf(g0, numChannels, audio) + FramesOf(seg, numChannels, audio);
      PointNext(tail, tempHead, g0[|g0| - 1], seg[0], |g0| - 1);
      tail, stepOf, grid := tempTail, RejoinedSteps(s0, |g0|), g0 + seg;
      RejoinedStore(g0, seg, g0[|g0| - 1], numChannels, audio, n0, next, nextChannel, s0, chanOf, head, t0,
                    grid, stepOf, tail);
      assert Linked() && Frames() == f0;
    }

    /**
     * Adds to every amplitude of one step (from `to`, step u) the amplitude
     * of the same channel at another step (from `from`, step v) times
     * `percent`.
     */
    method EchoStep(to: int, from: int, percent: real, ghost u: int, ghost v: int)
      requires numChannels >= 1 && Shaped(grid, numChannels, stepOf, chanOf, nextChannel) && |audio| == |stepOf|
      requires 0 <= v <= u < |grid| && to == grid[u][0] && from == grid[v][0]
      modifies this`audio
      ensures |audio| == old(|audio|)
      ensures forall c | 0 <= c < numChannels ::
        audio[grid[u][c]] == Mix(old(audio[grid[u][c]]), old(audio[grid[v][c]]), percent)
      ensures forall x | 0 <= x < |audio| && stepOf[x] != u :: audio[x] == old(audio[x])
    {
      var toCrawler, fromCrawler := to, from;
      for i := 0 to numChannels
        invariant |audio| == old(|audio|)
        invariant toCrawler == (if i < numChannels then grid[u][i] else Null)
        invariant fromCrawler == (if i < numChannels then grid[v][i] else Null)
        invariant forall c | 0 <= c < i ::
          audio[grid[u][c]] == Mix(old(audio[grid[u][c]]), old(audio[grid[v][c]]), percent)
        invariant forall x | 0 <= x < |audio| && (stepOf[x] != u || chanOf[x] >= i) :: audio[x] == old(audio[x])
      {
        audio := audio[toCrawler := Mix(audio[toCrawler], audio[fromCrawler], percent)];
        toCrawler := nextChannel[toCrawler];
        fromCrawler := nextChannel[fromCrawler];
      }
    }

    /**
     * Adds an echo: walking forward in time, every step from the delay on
     * receives the current amplitudes of the step `delay * sampleRate` steps
     * earlier, times `percent`.
     */
    method AddEcho(delay: real, percent: real)
      requires Valid() && StepsBefore(delay * sampleRate) <= |grid|
      modifies this`audio
      ensures Valid()
      ensures Frames() == old(Echo(Frames(), numChannels, StepsBefore(delay * sampleRate), percent))
    {
      EchoFrom(delay * sampleRate, percent);
    }

    /** AddEcho with its loop bound, delay * sampleRate, computed. */
    method EchoFrom(delaySteps: real, percent: real)
      requires Valid() && StepsBefore(delaySteps) <= |grid|
      modifies this`audio
      ensures Valid()
      ensures Frames() == old(Echo(Frames(), numChannels, StepsBefore(delaySteps), percent))
    {
      ghost var f0 := Frames();
      ghost var d := StepsBefore(delaySteps);
      var fromPointer := head;
      var toPointer := Advance(head, 0, delaySteps);
      EchoStart(grid, numChannels, audio, d, percent);
      EchoWalk(toPointer, fromPointer, percent, d, f0);
      EchoDone(grid, numChannels, audio, f0, d, percent);
    }

    /**
     * The loop of AddEcho: walks `to` from step d and `from` from step 0 to
     * the end of the list, echoing one step at a time.
     */
    method EchoWalk(to: int, from: int, percent: real, ghost d: nat, ghost f0: seq<seq<real>>)
      requires Walkable() && Shaped(grid, numChannels, stepOf, chanOf, nextChannel) && |audio| == |stepOf|
      requires Rectangular(f0, numChannels) && |f0| == |grid| && d <= |grid|
      requires to == StepHead(grid, d) && from == StepHead(grid, 0)
      requires EchoedBefore(grid, numChannels, audio, f0, d, percent, d)
      requires UntouchedFrom(grid, numChannels, audio, f0, d)
      modifies this`audio
      ensures |audio| == old(|audio|)
      ensures EchoedBefore(grid, numChannels, audio, f0, d, percent, |grid|)
    {
      var toPointer, fromPointer := to, from;
      ghost var j := 0;
      while toPointer != Null
        invariant 0 <= j && d + j <= |grid| && |audio| == old(|audio|)
        invariant toPointer == StepHead(grid, d + j)
        invariant fromPointer == StepHead(grid, j)
        invariant EchoedBefore(grid, numChannels, audio, f0, d, percent, d + j)
        invariant UntouchedFrom(grid, numChannels, audio, f0, d + j)
        decreases |grid| - j
      {
        ghost var a1 := audio;
        EchoStep(toPointer, fromPointer, percent, d + j, j);
        EchoAdvance(grid, numChannels, stepOf, a1, audio, f0, d, percent, j);
        toPointer := next[toPointer];
        fromPointer := next[fromPointer];
        j := j + 1;
      }
    }

    /**
     * Replaces the list's nodes by those of `built`, the way a rebuilt list
     * is swapped in: head, tail and sample count (and the node store they
     * live in) are built's.
     */
    method TakeNodes(built: MusicLinkedList)
      requires built != this && built.Valid() && built.numChannels == numChannels
      modifies this
      ensures Valid() && Frames() == old(built.Frames())
      ensures numSamples == old(built.numSamples) && sampleRate == old(sampleRate)
      ensures head == old(built.head) && tail == old(built.tail)
    {
      ghost var f0 := built.Frames();
      head, tail, numSamples := built.head, built.tail, built.numSamples;
      audio, next, nextChannel := built.audio, built.next, built.nextChannel;
      grid, stepOf, chanOf := built.grid, built.stepOf, built.chanOf;
      assert Store(grid, numChannels, audio, next, nextChannel, stepOf, chanOf, head, tail, |grid| - 1);
      assert Valid() && Frames() == f0;
    }

    /**
     * Mixes every time-step down to the sum of its channels, copied to every
     * channel; with allowClipping the sums are clamped into [-1, 1], and
     * otherwise the whole clip is divided by its peak when that exceeds 1.
     */
    method MakeMono(allowClipping: bool)
      requires Valid() && CanIterate() && numSamples == |grid|
      modifies this
      ensures Valid()
      ensures Frames() == ClipOrRescale(MonoSums(old(Frames()), numChannels), allowClipping)
      ensures numSamples == old(numSamples) && sampleRate == old(sampleRate)
    {
      var rows := AllChannels();
      var built, biggestWave := MixMono(rows, allowClipping);
      AdoptMix(built, allowClipping, biggestWave);
    }

    /**
     * Adds `other` to this clip channel by channel over this clip's
     * time-steps, clamping or rescaling the sums as MakeMono does.
     */
    method Combine(other: MusicLinkedList, allowClipping: bool)
      requires Valid() && CanIterate() && numSamples == |grid|
      requires other.Valid() && other.CanIterate() && |other.grid| >= numSamples
      requires other.numChannels >= numChannels
      modifies this
      ensures Valid()
      ensures Frames() == ClipOrRescale(ChannelSums(old(Frames()), old(other.Frames()), numChannels), allowClipping)
      ensures numSamples == old(numSamples) && sampleRate == old(sampleRate)
    {
      var ogRows := AllChannels();
      var newRows := other.AllChannels();
      var built, biggestWave := MixPairs(ogRows, newRows, allowClipping);
      AdoptMix(built, allowClipping, biggestWave);
    }

    /**
     * The end of MakeMono and Combine: swaps in the mixed list, then, when
     * not clipping and the peak exceeds 1, rescales it.
     */
    method AdoptMix(built: MusicLinkedList, allowClipping: bool, biggestWave: real)
      requires built != this && built.Valid() && built.numChannels == numChannels
      requires built.numSamples == |built.grid|
      requires !allowClipping ==> biggestWave == Peak(built.Frames())
      modifies this
      ensures Valid()
      ensures Frames() == if !allowClipping && biggestWave > 1.0 then Scaled(old(built.Frames()), biggestWave)
                          else old(built.Frames())
      ensures numSamples == old(built.numSamples) && sampleRate == old(sampleRate)
    {
      TakeNodes(built);
      if !allowClipping && biggestWave > 1.0 {
        assert Frames() != [];
        Rescale(biggestWave);
      }
    }

    /** Divides every amplitude by `biggestWave`, rebuilding the list. */
    method Rescale(biggestWave: real)
      requires Valid() && CanIterate() && numSamples == |grid| && biggestWave > 1.0
      modifies this
      ensures Valid() && Frames() == Scaled(old(Frames()), biggestWave)
      ensures numSamples == old(numSamples) && sampleRate == old(sampleRate)
    {
      var rows := AllChannels();
      var rescaled := ScaledList(rows, biggestWave);
      TakeNodes(rescaled);
    }

    /** A new list, at this list's rate, of the frames `rows` divided by `divisor`. */
    method ScaledList(rows: seq<seq<real>>, divisor: real) returns (rescaled: MusicLinkedList)
      requires numChannels >= 1 && |rows| == numSamples && Rectangular(rows, numChannels) && divisor != 0.0
      ensures fresh(rescaled) && rescaled.Valid() && rescaled.numChannels == numChannels
      ensures rescaled.Frames() == Scaled(rows, divisor) && rescaled.numSamples == |rows|
    {
      rescaled := new MusicLinkedList(sampleRate, numChannels);
      ghost var target := Scaled(rows, divisor);
      for t := 0 to numSamples
        invariant fresh(rescaled) && rescaled.Valid() && rescaled.numChannels == numChannels
        invariant rescaled.Frames() == target[..t] && rescaled.numSamples == t
      {
        PrefixGrows(target, t);
        var postScalingSamples := ScaleFrame(rows[t], divisor);
        rescaled.PushFrame(postScalingSamples);
      }
      assert target[..numSamples] == target;
    }

    /** One frame divided by `divisor`, channel by channel. */
    method ScaleFrame(preScalingSamples: seq<real>, divisor: real) returns (postScalingSamples: seq<real>)
      requires |preScalingSamples| == numChannels >= 0 && divisor != 0.0
      ensures postScalingSamples == ScaledFrame(preScalingSamples, divisor)
    {
      var post := new real[numChannels];
      for i := 0 to numChannels
        invariant forall j | 0 <= j < i :: post[j] == preScalingSamples[j] / divisor
      {
        post[i] := preScalingSamples[i] / divisor;
      }
      postScalingSamples := post[..];
    }

    /**
     * The first pass of MakeMono: a new list whose every time-step is the
     * sum of a frame of `rows` on every channel (clamped with
     * allowClipping), and the peak magnitude of those sums.
     */
    method MixMono(rows: seq<seq<real>>, allowClipping: bool) returns (built: MusicLinkedList, biggestWave: real)
      requires numChannels >= 1 && |rows| == numSamples && Rectangular(rows, numChannels)
      ensures fresh(built) && built.Valid() && built.numChannels == numChannels
      ensures built.numSamples == |rows| == |built.grid|
      ensures built.Frames() == if allowClipping then Clamped(MonoSums(rows, numChannels)) else MonoSums(rows, numChannels)
      ensures !allowClipping ==> biggestWave == Peak(MonoSums(rows, numChannels))
    {
      built := new MusicLinkedList(numSamples as real, numChannels);
      biggestWave := 0.0;
      ghost var sums := MonoSums(rows, numChannels);
      ghost var target := if allowClipping then Clamped(sums) else sums;
      for t := 0 to numSamples
        invariant fresh(built) && built.Valid() && built.numChannels == numChannels
        invariant built.numSamples == t == |built.grid| && built.Frames() == target[..t]
        invariant biggestWave >= 0.0 && (!allowClipping ==> biggestWave == Peak(sums[..t]))
      {
        if !allowClipping {
          MonoPeakExtend(rows, numChannels, t);
        }
        PrefixGrows(target, t);
        var newAudio;
        newAudio, biggestWave := MonoFrame(rows[t], allowClipping, biggestWave);
        built.PushFrame(newAudio);
      }
      assert target[..numSamples] == target;
    }

    /**
     * One step of MakeMono's first pass: the frame's sum, clamped with
     * allowClipping and otherwise folded into the running peak, copied to
     * every channel.
     */
    method MonoFrame(separateAudio: seq<real>, allowClipping: bool, biggestIn: real)
      returns (newAudio: seq<real>, biggestWave: real)
      requires numChannels >= 0 && biggestIn >= 0.0
      ensures newAudio == if allowClipping then ClampedFrame(Replicate(Sum(separateAudio), numChannels))
                          else Replicate(Sum(separateAudio), numChannels)
      ensures biggestWave == if allowClipping then biggestIn else Max(biggestIn, Abs(Sum(separateAudio)))
    {
      var combinedAudio := FrameSum(separateAudio);
      biggestWave := biggestIn;
      if allowClipping {
        if combinedAudio > 1.0 {
          combinedAudio := 1.0;
        } else if combinedAudio < -1.0 {
          combinedAudio := -1.0;
        }
        ClampedReplicate(Sum(separateAudio), numChannels);
      } else {
        if combinedAudio > biggestWave {
          biggestWave := combinedAudio;
        } else if combinedAudio * -1.0 > biggestWave {
          biggestWave := combinedAudio * -1.0;
        }
      }
      newAudio := FilledFrame(combinedAudio);
    }

    /** The sum of a frame's amplitudes, accumulated channel by channel. */
    method FrameSum(separateAudio: seq<real>) returns (combinedAudio: real)
      ensures combinedAudio == Sum(separateAudio)
    {
      combinedAudio := 0.0;
      for i := 0 to |separateAudio|
        invariant combinedAudio == Sum(separateAudio[..i])
      {
        assert separateAudio[..i + 1][..i] == separateAudio[..i];
        combinedAudio := combinedAudio + separateAudio[i];
      }
      assert separateAudio[..|separateAudio|] == separateAudio;
    }

    /** A frame holding `value` on every channel. */
    method FilledFrame(value: real) returns (newAudio: seq<real>)
      requires numChannels >= 0
      ensures newAudio == Replicate(value, numChannels)
    {
      var frame := new real[numChannels];
      for i := 0 to numChannels
        invariant forall j | 0 <= j < i :: frame[j] == value
      {
        frame[i] := value;
      }
      newAudio := frame[..];
    }

    /**
     * The first pass of Combine: a new list whose every time-step is the
     * channel-by-channel sum of a frame of `ogRows` and one of `newRows`
     * (clamped with allowClipping), and the peak magnitude of those sums.
     */
    method MixPairs(ogRows: seq<seq<real>>, newRows: seq<seq<real>>, allowClipping: bool)
      returns (built: MusicLinkedList, biggestWave: real)
      requires numChannels >= 1 && |ogRows| == numSamples && Rectangular(ogRows, numChannels)
      requires |newRows| >= numSamples && forall t | 0 <= t < |newRows| :: |newRows[t]| >= numChannels
      ensures fresh(built) && built.Valid() && built.numChannels == numChannels
      ensures built.numSamples == |ogRows| == |built.grid|
      ensures built.Frames() == if allowClipping then Clamped(ChannelSums(ogRows, newRows, numChannels))
                                else ChannelSums(ogRows, newRows, numChannels)
      ensures !allowClipping ==> biggestWave == Peak(ChannelSums(ogRows, newRows, numChannels))
    {
      built := new MusicLinkedList(numSamples as real, numChannels);
      biggestWave := 0.0;
      ghost var sums := ChannelSums(ogRows, newRows, numChannels);
      ghost var target := if allowClipping then Clamped(sums) else sums;
      for t := 0 to numSamples
        invariant fresh(built) && built.Valid() && built.numChannels == numChannels
        invariant built.numSamples == t == |built.grid| && built.Frames() == target[..t]
        invariant biggestWave >= 0.0 && (!allowClipping ==> biggestWave == Peak(sums[..t]))
      {
        if !allowClipping {
          PeakExtend(sums, t);
        }
        PrefixGrows(target, t);
        var combinedSamples;
        combinedSamples, biggestWave := CombineFrame(ogRows[t], newRows[t], allowClipping, biggestWave);
        built.PushFrame(combinedSamples);
      }
      assert target[..numSamples] == target;
    }

    /**
     * One step of Combine's first pass: the channel-by-channel sums of two
     * frames, each clamped with allowClipping and otherwise folded into the
     * running peak.
     */
    method CombineFrame(ogSamples: seq<real>, newSamples: seq<real>, allowClipping: bool, biggestIn: real)
      returns (combined: seq<real>, biggestWave: real)
      requires numChannels >= 0 && |ogSamples| >= numChannels && |newSamples| >= numChannels && biggestIn >= 0.0
      ensures combined == if allowClipping then ClampedFrame(FrameSums(ogSamples, newSamples, numChannels))
                          else FrameSums(ogSamples, newSamples, numChannels)
      ensures biggestWave == if allowClipping then biggestIn
                             else Max(biggestIn, MaxAbs(FrameSums(ogSamples, newSamples, numChannels)))
    {
      ghost var sums := FrameSums(ogSamples, newSamples, numChannels);
      var combinedSamples := new real[numChannels];
      biggestWave := biggestIn;
      for i := 0 to numChannels
        invariant forall j | 0 <= j < i :: combinedSamples[j] == if allowClipping then Clamp(sums[j]) else sums[j]
        invariant biggestWave == if allowClipping then biggestIn else Max(biggestIn, MaxAbs(sums[..i]))
      {
        combinedSamples[i] := ogSamples[i] + newSamples[i];
        if allowClipping {
          if combinedSamples[i] > 1.0 {
            combinedSamples[i] := 1.0;
          } else if combinedSamples[i] < -1.0 {
            combinedSamples[i] := -1.0;
          }
        } else {
          if combinedSamples[i] > biggestWave {
            biggestWave := combinedSamples[i];
          } else if combinedSamples[i] * -1.0 > biggestWave {
            biggestWave := combinedSamples[i] * -1.0;
          }
        }
        MaxAbsExtend(sums, i);
      }
      assert sums[..numChannels] == sums;
      combined := combinedSamples[..];
    }
  }
}

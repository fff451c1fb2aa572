# Multi-linked music list, modelled in Dafny

`MusicLinkedList` stores a multi-channel audio clip as a grid of nodes.
There is one node per (time-step, channel). Each node holds one amplitude
and two links:

- `next` goes to the same channel one time-step later.
- `nextChannel` goes to the next channel at the same time-step.

`head` and `tail` are the channel-0 nodes of the first and last time-steps.
The list offers these operations:

- appending a frame (one amplitude per channel);
- reading the clip back frame by frame or channel by channel;
- reversal;
- clipping to a time window;
- splicing another clip in after a given time;
- an in-place echo;
- a mono mix-down, and a channel-by-channel mix with another clip, each
  either clamping values into [-1, 1] or rescaling the whole clip by its
  peak;
- speed change, duration and cloning.

The model keeps the source's imperative form. `MusicLists.MusicLinkedList`
is a class whose node store is three fields: `audio`, `next` and
`nextChannel`. Node `x` is entry `x` of each of them, and `Null` (-1) stands
for a null reference. A ghost `grid` names the node of every (step, channel)
reachable from `head`. Ghost `stepOf` and `chanOf` invert `grid`.

`Valid()` is the object invariant. It says that:

- every step is a `nextChannel` chain of `numChannels` nodes;
- every `next` link goes to the same channel one step later;
- the last step's `next` links are `Null`;
- `head` and `tail` are the first and last steps.

`Frames()` is the clip's content as a sequence of frames.

Every operation is a method, and its loops carry invariants. Each method is
proved against a specification function on frames, defined in these
modules:

- `Signals`: reversal, the echo recurrence, sums, peaks, clamping and
  rescaling.
- `Grids`: the shape of the node store and the frames it holds.
- `Reshapes`: how a grid changes when it is reversed or clipped.
- `Splices`: how a grid changes when a clip is spliced in.
- `Echoes`: the invariant of the echo walk.

The lemmas in these modules state the properties of those functions.

How the source's arguments are modelled:

- Times in seconds are turned into step counts the way the source's loops
  do: `for (i = 0; i < x * rate; i++)` runs `StepsBefore(x * rate)` times,
  which is ceil(x * rate) and never below 0.
- A clip window is inclusive at both ends, as the comment of `clip` says:
  `clip(start, duration)` keeps steps s .. s + d, which is
  `StepsBefore(duration * rate) + 1` steps. For `clip(4, 2)` at rate R this
  is seconds 4 to 6, that is 2R + 1 steps.
- Amplitudes and rates are `real`.
- The exceptions thrown by `addSample` (a frame of the wrong width) and by
  `iterator(int)` (a channel above the channel count) are a `Status`
  result. The iterators' `NoSuchElementException` is not modelled: iteration
  is modelled by draining the iterator (see "## Left out").
- A null dereference the source would hit is excluded by a precondition.
  Each precondition is the exact condition under which the loop stays on
  the list.

### Where the model follows the code rather than its comments

- **Echo is cumulative.** `addEcho` reads from a node that the same walk
  may already have changed. So an echo is itself echoed again after every
  further delay: the amplitude at step t is `x[t] + p * e[t - d]`, not
  `x[t] + p * x[t - d]`. `Signals.EchoIsGeometricSeries` states the
  resulting geometric series.
- **Echo does not clip.** The method comment promises values clipped to
  [-1, 1], but the code does not clip, and neither does the model.
- **Clip leaves `numSamples` stale.** The comment of `clip` calls the
  result of `clip(4, 2)` "a 2-second sound". That holds for its steps
  (2R + 1 of them), but `clip` never writes `numSamples`, so
  `getDuration()`, `(numSamples - 1) / rate`, still reports the old
  length. The model leaves `numSamples` unchanged too, and `Duration()`
  reports the old length as well. So `Valid()` only asks that
  `|grid| <= numSamples`, and the operations whose loops are bounded by
  `numSamples` require it to equal the number of steps.

### Other notes

- **The mix-down's scratch list gets an odd sample rate.** `makeMono` and
  `combine` build their scratch list with `numSamples` as its sample rate.
  Only that list's nodes are adopted, so this clip's rate is unchanged, as
  the model states.

## Model

| member | source | states |
|---|---|---|
| MusicLists.MusicLinkedList.constructor | src/MusicLinkedList.java:16-22 | a new list is valid and empty, with the given rate and channel count and null head and tail |
| MusicLists.MusicLinkedList.Duration | src/MusicLinkedList.java:55-57 | the duration times the sample rate is numSamples - 1 |
| MusicLists.MusicLinkedList.ChangeSpeed | src/MusicLinkedList.java:145-147 | the sample rate is multiplied by the factor and nothing else changes |
| MusicLists.MusicLinkedList.AddMonoSample | src/MusicLinkedList.java:205-215 | on a one-channel list, the frame [value] is appended, the list stays valid and numSamples grows by one |
| MusicLists.MusicLinkedList.ExtendMono | src/MusicLinkedList.java:209-214 | appending to a non-empty one-channel list links the old tail to the new node and appends [value] |
| MusicLists.MusicLinkedList.LinkMonoNode | src/MusicLinkedList.java:210-211 | one fresh node holds value with a null next; only the old last step's next changes, and it now points at the new node |
| MusicLists.MusicLinkedList.AddSample | src/MusicLinkedList.java:223-252 | a frame of the wrong width gives IllegalArgument and changes nothing; otherwise the frame is appended after the old frames, the list stays valid, numSamples grows by one, and no old node changes except the old last step's next links |
| MusicLists.MusicLinkedList.PushFrame | src/MusicLinkedList.java:384 | addSample with a frame of the right width, as the list-building loops call it (also lines 403, 449, 467 and 488): the list stays valid, the frame is appended after the old frames, and numSamples and the step count each grow by one, with the rate kept |
| MusicLists.MusicLinkedList.PushStep | src/MusicLinkedList.java:227-249 | a frame of the right width is appended, and the new grid is the old one plus one step of fresh nodes |
| MusicLists.MusicLinkedList.StartSteps | src/MusicLinkedList.java:227-231 | on an empty list the frame's nodes become both the head and the tail step |
| MusicLists.MusicLinkedList.ExtendSteps | src/MusicLinkedList.java:232-248 | on a non-empty list the new step is linked after the tail step and becomes the tail |
| MusicLists.MusicLinkedList.NewTimeStep | src/MusicLinkedList.java:237-239 | the node store grows by one node per channel, built from the last channel down and chained by nextChannel; node c holds samples[c] and a null next; old nodes are unchanged |
| MusicLists.MusicLinkedList.NewSample | src/MusicLinkedList.java:510-514 | a node with the given amplitude and links is appended to the node store |
| MusicLists.MusicLinkedList.GrowAndLink | src/MusicLinkedList.java:233-247 | the old last step's next links point at the new step channel by channel; no other link changes |
| MusicLists.MusicLinkedList.LinkStep | src/MusicLinkedList.java:243-247 | walking both steps along nextChannel sets next of channel c of the last step to channel c of the new step and changes no other step's links |
| MusicLists.MusicLinkedList.AllChannels | src/MusicLinkedList.java:559-587 | draining the all-channel iterator yields exactly the clip's frames, in order |
| MusicLists.MusicLinkedList.ReadFrame | src/MusicLinkedList.java:576-586 | one next() call returns frame t and moves every channel cursor to step t + 1 (null after the last step) |
| MusicLists.MusicLinkedList.ChannelSamples | src/MusicLinkedList.java:269-275 | a channel above numChannels gives IndexOutOfBounds; channel numChannels yields nothing; a channel in range yields that channel's amplitudes over all steps; a negative channel reads channel 0 |
| MusicLists.MusicLinkedList.Clone | src/MusicLinkedList.java:483-491 | the copy is a fresh valid list with the same frames, rate and channel count, and numSamples equal to its step count |
| MusicLists.MusicLinkedList.Reverse | src/MusicLinkedList.java:89-137 | the frames come out in reverse order, the list stays valid, and head and tail are swapped |
| MusicLists.MusicLinkedList.ReverseLinks | src/MusicLinkedList.java:90-132 | after the three loops, every next link points one step back and the first step's links are null |
| MusicLists.MusicLinkedList.TurnFirst | src/MusicLinkedList.java:96-100 | the first step's next links become null; later links still point forward |
| MusicLists.MusicLinkedList.TurnBack | src/MusicLinkedList.java:106-119 | one pass turns step j + 1's links back to step j, extending the reversed prefix by one step |
| MusicLists.MusicLinkedList.TurnLast | src/MusicLinkedList.java:121-132 | the final loop turns the last two steps back, so every step points backwards |
| MusicLists.MusicLinkedList.PointBackTwice | src/MusicLinkedList.java:126-132 | channel by channel, the last step points at the middle one and the middle one at the one before, and no other step's links change |
| MusicLists.MusicLinkedList.PointNext | src/MusicLinkedList.java:333-339 | channel by channel, one step's next links point at another step's nodes, and no other step's links change |
| MusicLists.MusicLinkedList.ClearNext | src/MusicLinkedList.java:296-300 | every channel's next link of one step becomes null, and no other step's links change |
| MusicLists.MusicLinkedList.Advance | src/MusicLinkedList.java:287-289 | following next StepsBefore(x) times from step t0 reaches step t0 + StepsBefore(x), or null just past the end |
| MusicLists.MusicLinkedList.Clip | src/MusicLinkedList.java:285-301 | the list keeps exactly frames s .. s + d, where s and d are the step counts of the start and the duration, and stays valid |
| MusicLists.MusicLinkedList.ClipSteps | src/MusicLinkedList.java:286-300 | the same window, in step counts |
| MusicLists.MusicLinkedList.CutAfter | src/MusicLinkedList.java:294-300 | with the head at step s, making step e the tail and ending its links leaves a valid list of steps s .. e |
| MusicLists.MusicLinkedList.SpliceIn | src/MusicLinkedList.java:310-343 | the frames become those up to and including step s, then the other clip's frames, then the rest; numSamples grows by the other clip's length; head and tail are the original ones |
| MusicLists.MusicLinkedList.SpliceAt | src/MusicLinkedList.java:316-342 | the same splice, with the start in step counts; head and tail are the original ones |
| MusicLists.MusicLinkedList.SpliceAfter | src/MusicLinkedList.java:322-342 | the splice after the node of step s: frames up to step s, the other clip's, then the rest; head and tail are the original ones |
| MusicLists.MusicLinkedList.Detach | src/MusicLinkedList.java:322-324 | the list ends at step s, and the later steps form an untouched detached segment holding the remaining frames |
| MusicLists.MusicLinkedList.InsertClip | src/MusicLinkedList.java:326-342 | appending the other clip and then rejoining the segment gives old frames + other frames + segment frames; the head is kept and the segment's last step is the tail |
| MusicLists.MusicLinkedList.AppendClip | src/MusicLinkedList.java:327-330 | draining the other clip's iterator into addSample appends its frames and leaves the detached segment intact |
| MusicLists.MusicLinkedList.AppendRows | src/MusicLinkedList.java:328-330 | appending each row in turn appends all rows and keeps the detached segment and its frames |
| MusicLists.MusicLinkedList.AppendRow | src/MusicLinkedList.java:329 | one addSample of the splice loop: the frame is appended after the old frames, numSamples grows by one, the head and rate are kept, and the detached segment stays a segment holding the same frames |
| MusicLists.MusicLinkedList.Rejoin | src/MusicLinkedList.java:333-342 | linking the tail step to the segment's first step gives a valid list whose frames are the list's then the segment's, and whose tail is the segment's last step |
| MusicLists.MusicLinkedList.AddEcho | src/MusicLinkedList.java:66-83 | the frames become Echo(old frames, d, percent): steps before d are unchanged, and each later step adds percent times the already-echoed step d earlier |
| MusicLists.MusicLinkedList.EchoFrom | src/MusicLinkedList.java:67-82 | the same echo, with the delay in steps |
| MusicLists.MusicLinkedList.EchoWalk | src/MusicLinkedList.java:72-82 | the walk of the two pointers extends the echoed prefix to the whole list |
| MusicLists.MusicLinkedList.EchoStep | src/MusicLinkedList.java:73-79 | each channel of step u gains percent times the same channel of step v, and no other step changes |
| MusicLists.MusicLinkedList.MakeMono | src/MusicLinkedList.java:352-412 | the frames become ClipOrRescale of the per-step channel sums copied to every channel, and numSamples and the rate are kept |
| MusicLists.MusicLinkedList.MixMono | src/MusicLinkedList.java:353-385 | the first pass builds a list of the per-step sums, clamped when clipping is allowed, and otherwise reports their peak magnitude |
| MusicLists.MusicLinkedList.MonoFrame | src/MusicLinkedList.java:358-382 | one step gives the clamped or plain sum copied to every channel; without clipping the running peak becomes the larger of itself and the sum's magnitude |
| MusicLists.MusicLinkedList.FrameSum | src/MusicLinkedList.java:359-363 | the loop adds up the frame's amplitudes |
| MusicLists.MusicLinkedList.FilledFrame | src/MusicLinkedList.java:379-382 | every channel of the new frame holds the value |
| MusicLists.MusicLinkedList.AdoptMix | src/MusicLinkedList.java:387-411 | the clip takes the built list's frames, divided by the peak when clipping is off and the peak exceeds 1 |
| MusicLists.MusicLinkedList.Rescale | src/MusicLinkedList.java:393-409 | every amplitude is divided by the peak, and numSamples and the rate are kept |
| MusicLists.MusicLinkedList.ScaledList | src/MusicLinkedList.java:393-404 | the rebuilt list holds every frame divided by the divisor |
| MusicLists.MusicLinkedList.ScaleFrame | src/MusicLinkedList.java:398-402 | each channel of the frame is divided by the divisor |
| MusicLists.MusicLinkedList.TakeNodes | src/MusicLinkedList.java:387-389 | the list adopts the built list's nodes, head, tail and numSamples, and so its frames, and keeps its own rate |
| MusicLists.MusicLinkedList.Combine | src/MusicLinkedList.java:422-476 | the frames become ClipOrRescale of the channel-by-channel sums with the other clip over this clip's steps, and numSamples and the rate are kept |
| MusicLists.MusicLinkedList.MixPairs | src/MusicLinkedList.java:426-450 | the first pass builds a list of the per-channel sums, clamped when clipping is allowed, and otherwise reports their peak magnitude |
| MusicLists.MusicLinkedList.CombineFrame | src/MusicLinkedList.java:430-447 | one step gives the per-channel sums, clamped or not; without clipping the running peak becomes the larger of itself and the frame's largest magnitude |
| MusicLists.StepsBefore | src/MusicLinkedList.java:69 | the count of a loop `i < x` from 0: the least natural number that is not below x |
| Grids.FramesOf | src/MusicLinkedList.java:498-515 | frame t, channel c is the amplitude of the node at step t, channel c |
| Grids.Amplitudes | src/MusicLinkedList.java:578-582 | a step's frame is the amplitudes of its nodes, channel by channel |
| Grids.NewStepNodes | src/MusicLinkedList.java:237-239 | the nodes of a new step are the freshly made ones, channel c being the one made for audio[c] |
| Grids.NewStepChain | src/MusicLinkedList.java:237-239 | the fresh nodes form a nextChannel chain from channel 0 to the last channel |
| Grids.AppendShaped | src/MusicLinkedList.java:227-240 | a grid grown by a fresh step is still shaped: steps are nextChannel chains and every node knows its step and channel |
| Grids.AppendChained | src/MusicLinkedList.java:243-247 | after the tail step's links point at the new step, every step's next links go one step on and the new step's are null |
| Grids.AppendFrames | src/MusicLinkedList.java:223-252 | the grown grid holds the old frames followed by the new one |
| Grids.AppendedStore | src/MusicLinkedList.java:223-252 | appending a linked fresh step gives a valid store whose frames are the old ones plus the sample, and keeps the other nodes |
| Grids.AppendedLinks | src/MusicLinkedList.java:227-248 | the grown grid is shaped and fully chained, and head and tail are its first and last steps |
| Grids.AppendedFrames | src/MusicLinkedList.java:228-239 | the grown grid holds the old frames followed by the sample |
| Reshapes.TurnStep | src/MusicLinkedList.java:110-115 | turning step j + 1's links back extends the backward prefix by one and keeps later links forward |
| Reshapes.TurnLastTwo | src/MusicLinkedList.java:126-132 | turning the last two steps back completes the backward chain |
| Reshapes.ReversedShaped | src/MusicLinkedList.java:89-137 | the reversed grid, with steps renumbered from the end, is still shaped |
| Reshapes.ReversedFrames | src/MusicLinkedList.java:89-137 | the reversed grid holds the reversed frames |
| Reshapes.ReversedStore | src/MusicLinkedList.java:134-136 | with every link pointing back, the reversed grid is a valid store whose head is the old tail and whose tail is the old head |
| Reshapes.ClippedShaped | src/MusicLinkedList.java:285-301 | the window s .. e of a shaped grid, renumbered from s, is shaped |
| Reshapes.ClippedFrames | src/MusicLinkedList.java:285-301 | the window holds frames s .. e |
| Reshapes.ClippedStore | src/MusicLinkedList.java:290-300 | ending step e's links and starting at step s gives a valid store of frames s .. e |
| Splices.DetachedPrefix | src/MusicLinkedList.java:322-324 | steps 0 .. s form a store whose tail is step s |
| Splices.DetachedSegment | src/MusicLinkedList.java:322-323 | the steps after s form a chained segment |
| Splices.DetachedStore | src/MusicLinkedList.java:322-324 | detaching after step s leaves a store of the first s + 1 frames and a segment holding the remaining frames |
| Splices.SegmentKept | src/MusicLinkedList.java:328-330 | appending steps leaves a detached segment and its frames unchanged |
| Splices.RejoinedStore | src/MusicLinkedList.java:333-342 | linking the tail step to the segment gives a valid store holding the store's frames then the segment's |
| Splices.RejoinedShape | src/MusicLinkedList.java:333-342 | the joined grid, with the segment renumbered after the store, is shaped |
| Splices.RejoinedChain | src/MusicLinkedList.java:335-339 | the joined grid is fully chained by next |
| Echoes.EchoStart | src/MusicLinkedList.java:67-71 | before the walk, the steps below d are already final and none of the others has changed |
| Echoes.EchoAdvance | src/MusicLinkedList.java:72-82 | updating step d + j from step j extends the echoed prefix by one step |
| Echoes.EchoDone | src/MusicLinkedList.java:72-82 | when the walk reaches the end, the frames are Echo of the original frames |
| Signals.Reversed | src/MusicLinkedList.java:89-137 | frame i of the reversed clip is frame n - 1 - i |
| Signals.ReversedTwice | src/MusicLinkedList.java:89-137 | reversing twice gives back the clip |
| Signals.ReversedRectangular | src/MusicLinkedList.java:89-137 | reversing keeps every frame's width |
| Signals.Column | src/MusicLinkedList.java:541-548 | one channel's amplitudes, one per step |
| Signals.Echo | src/MusicLinkedList.java:66-83 | the echoed clip has the same shape as the clip |
| Signals.TapsShift | src/MusicLinkedList.java:66-83 | a sum of k + 1 echo taps at step t is x[t] plus percent times the sum of k taps at step t - d |
| Signals.EchoIsGeometricSeries | src/MusicLinkedList.java:66-83 | the cumulative echo at step t is x[t] + p x[t-d] + p^2 x[t-2d] + ..., down to the first delay; the last tap sits at step t - k d |
| Signals.EchoOfImpulse | src/MusicLinkedList.java:66-83 | with a delay of one step, a unit impulse echoes to p^t at step t |
| Signals.EchoKeepsLead | src/MusicLinkedList.java:69-71 | steps before the delay are unchanged by the echo |
| Signals.Clamp | src/MusicLinkedList.java:365-370 | the clamped value lies in [-1, 1], equals the value when it is already inside, and is 1 or -1 beyond the bounds |
| Signals.ClampedFrame | src/MusicLinkedList.java:434-439 | every clamped amplitude lies in [-1, 1] |
| Signals.MaxAbsIsLeastBound | src/MusicLinkedList.java:441-445 | the running biggest wave of a frame bounds every magnitude and is attained when positive |
| Signals.PeakIsLeastBound | src/MusicLinkedList.java:372-376 | the peak bounds the magnitude of every amplitude and is never negative |
| Signals.PeakAtMost | src/MusicLinkedList.java:372-376 | any bound on all magnitudes bounds the peak |
| Signals.PeakAttained | src/MusicLinkedList.java:372-376 | a positive peak is the magnitude of some amplitude |
| Signals.PeakExtend | src/MusicLinkedList.java:427-447 | the peak of one more step is the larger of the old peak and that step's largest magnitude |
| Signals.MaxAbsExtend | src/MusicLinkedList.java:431-446 | the largest magnitude over one more channel is the larger of the old one and that channel's magnitude |
| Signals.MonoPeakExtend | src/MusicLinkedList.java:357-377 | the peak of the mono sums over one more step is the larger of the old peak and that step's sum magnitude |
| Signals.MonoSums | src/MusicLinkedList.java:357-385 | every channel of step t holds the sum of step t's channels |
| Signals.ChannelSums | src/MusicLinkedList.java:427-450 | channel c of step t is the sum of both clips' channel c at step t |
| Signals.Replicate | src/MusicLinkedList.java:379-382 | every channel holds the value |
| Signals.MaxAbsReplicate | src/MusicLinkedList.java:372-376 | a frame of one repeated value has that value's magnitude as its largest magnitude |
| Signals.ClampedReplicate | src/MusicLinkedList.java:365-382 | clamping a copied sum equals copying the clamped sum |
| Signals.ClipOrRescale | src/MusicLinkedList.java:391-411 | the mixing policy keeps the number of steps and each step's width |
| Signals.ClipOrRescaleInRange | src/MusicLinkedList.java:346-351 | whichever policy is chosen, every mixed amplitude lies in [-1, 1] |
| Signals.ClipOrRescaleKeepsQuietSignal | src/MusicLinkedList.java:391-392 | a clip already inside [-1, 1] comes out unchanged under either policy |
| Signals.RescaleIsUniform | src/MusicLinkedList.java:392-404 | without clipping, a clip louder than 1 is scaled uniformly: every output times the peak is the input, and some output has magnitude exactly 1 |
| Signals.ScaledUndone | src/MusicLinkedList.java:400-402 | multiplying the scaled clip by the divisor gives back the clip |
| Signals.ScaledPeakIsUnit | src/MusicLinkedList.java:392-404 | dividing by the peak brings the loudest amplitude to magnitude 1 |
| Signals.DividedByBoundInRange | src/MusicLinkedList.java:401 | an amplitude divided by a bound on its magnitude lies in [-1, 1] |
| Signals.PeakOverItselfIsUnit | src/MusicLinkedList.java:401 | the amplitude that reaches the peak becomes 1 or -1 |
| Signals.MonoMixIsMono | src/MusicLinkedList.java:346-351 | after makeMono every channel of a step holds the same value |

## Left out

- `changeSampleRate` (src/MusicLinkedList.java:156-198) is not modelled. It resamples with double-precision time arithmetic, and its loop bounds depend on floating-point rounding.
- MusicLists.MusicLinkedList.SpliceIn requires the other clip to have this clip's sample rate, because it would otherwise call `changeSampleRate`.
- MusicLists.MusicLinkedList.SpliceIn requires the other clip to be a different list. Splicing a list into itself makes the source drain an iterator over a list that the same loop is growing.
- MusicLists.MusicLinkedList.SpliceIn requires the same channel count in both clips. With other counts, `addSample` throws part-way through, after the list has already been cut.
- Floating point: amplitudes, rates and times are `real`. The model does not capture `float` rounding, overflow to infinity or NaN.
- MusicLists.MusicLinkedList.Duration requires a non-zero sample rate. In Java a zero rate gives an infinite or NaN duration.
- The `Iterator` objects are modelled by draining them. `AllChannels` and `ChannelSamples` return the whole sequence the iterator would yield, and `ReadFrame` is one `next()` call. Partial iteration and `NoSuchElementException` on an exhausted iterator are left out.
- The `MusicList` interface and its getters (`getNumChannels`, `getSampleRate`, `getNumSamples`) are left out. The getters are plain field reads.
- `combine` takes any `MusicList`; the model takes another `MusicLinkedList`.
- MusicLists.MusicLinkedList.constructor requires at least one channel. With zero channels the source's iterator constructor fails on its first array write.
- MusicLists.MusicLinkedList.AddMonoSample requires a one-channel list. On a multi-channel list the source appends a single node, which breaks the grid. The model does not describe the broken list that results.
- MusicLists.MusicLinkedList.Reverse requires at least three steps and `numSamples` equal to the step count. With fewer steps, or a stale count, the source dereferences null.
- MusicLists.MusicLinkedList.MakeMono and MusicLists.MusicLinkedList.Combine require `numSamples` to equal the step count. A stale count after `clip` makes the source's iterator throw part-way.
- MusicLists.MusicLinkedList.Combine requires the other clip to have at least this clip's steps and channels, which is the condition under which the source's iterator reads stay inside the other clip.
- MusicLists.MusicLinkedList.ChannelSamples requires a non-empty list when the channel is between 1 and numChannels, because the single-channel iterator's constructor follows nextChannel from a null head otherwise.
- MusicLists.MusicLinkedList.Clone and the other iterating operations require `CanIterate()`. That is, the list is non-empty or has one channel, because the all-channel iterator's constructor dereferences a null head otherwise.
- The node store: each list has its own store of nodes rather than one shared heap. `makeMono` and `combine` adopt the rebuilt list's store along with its head and tail. So the model does not capture two lists sharing nodes. The source only shares nodes with the discarded scratch lists.
- `Sample` node objects are entries of the store, not separate objects. Node identity is the store index.

/** Down-mixing a decoded audio buffer to the single sample sequence handed to the tempo detector. */
module MusicalProperties {

  /** Channel data of a decoded audio buffer: at least one channel, all of the same length. */
  predicate IsAudioBuffer(channels: seq<seq<real>>) {
    |channels| >= 1 && forall c | 0 <= c < |channels| :: |channels[c]| == |channels[0]|
  }

  /** Reference definition of the down-mix: the sample-wise mean of exactly two channels; for
      any other channel count, channel 0 as it is. */
  function MonoMix(channels: seq<seq<real>>): (r: seq<real>)
    requires IsAudioBuffer(channels)
  {
    if |channels| == 2 then
      seq(|channels[0]|, i requires 0 <= i < |channels[0]| => (channels[0][i] + channels[1][i]) / 2.0)
    else
      channels[0]
  }

  /** The merge loop of `computeMusicalProperties` (the detector call that follows is not modelled). */
  method MergeChannels(channels: seq<seq<real>>) returns (audioData: seq<real>)
    requires IsAudioBuffer(channels)
    ensures |audioData| == |channels[0]|
    ensures |channels| == 2 ==> forall i | 0 <= i < |audioData| :: audioData[i] == (channels[0][i] + channels[1][i]) / 2.0
    ensures |channels| != 2 ==> audioData == channels[0]
    ensures audioData == MonoMix(channels)
  {
    audioData := [];
    if |channels| == 2 {
      var ch1 := channels[0];
      var ch2 := channels[1];
      var length := |ch1|;
      for i := 0 to length
        invariant |audioData| == i
        invariant forall k | 0 <= k < i :: audioData[k] == (ch1[k] + ch2[k]) / 2.0
      {
        audioData := audioData + [(ch1[i] + ch2[i]) / 2.0];
      }
    } else {
      audioData := channels[0];
    }
  }

  /** Two identical channels mix to that channel, i.e. to the same samples as a mono buffer. */
  lemma IdenticalChannels(ch: seq<real>)
    ensures MonoMix([ch, ch]) == ch == MonoMix([ch])
  {
  }

  /** The mean does not depend on which channel is left and which is right. */
  lemma SwapChannels(left: seq<real>, right: seq<real>)
    requires |left| == |right|
    ensures MonoMix([left, right]) == MonoMix([right, left])
  {
  }

  /** Each mixed sample lies between the two input samples, so a mix of samples in [-1, 1] stays in [-1, 1]. */
  lemma MixBetween(left: seq<real>, right: seq<real>, i: int)
    requires |left| == |right| && 0 <= i < |left|
    ensures var m := MonoMix([left, right])[i];
      (left[i] <= m <= right[i]) || (right[i] <= m <= left[i])
    ensures -1.0 <= left[i] <= 1.0 && -1.0 <= right[i] <= 1.0 ==> -1.0 <= MonoMix([left, right])[i] <= 1.0
  {
  }

  /** With three or more channels, only channel 0 is heard: changing any other channel changes nothing. */
  lemma ExtraChannelsIgnored(channels: seq<seq<real>>, c: nat, other: seq<real>)
    requires IsAudioBuffer(channels) && |channels| != 2 && 1 <= c < |channels| && |other| == |channels[0]|
    ensures MonoMix(channels[c := other]) == MonoMix(channels)
  {
  }
}

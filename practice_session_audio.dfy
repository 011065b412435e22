/** The practice-session audio component: which detected beats are "off" with respect to the
    tempo the player says they meant to play, the component's state when a new recording is
    chosen, and the tempo label. */
module PracticeAudio {
  import opened Wrappers

  /** Largest accepted distance, in seconds, between a beat gap and the expected gap. */
  const Tolerance: real := 0.1

  function Abs(x: real): real {
    if x < 0.0 then -x else x
  }

  /** `!expectedTempo` is false: a tempo is present and non-zero. (NaN, the remaining falsy
      number, is never stored: see ParseExpectedTempo.) */
  predicate TempoSet(expectedTempo: Option<real>) {
    expectedTempo.Some? && expectedTempo.value != 0.0
  }

  /** Seconds between two beats at the given tempo in beats per minute. */
  function ExpectedGap(tempo: real): real
    requires tempo != 0.0
  {
    60.0 / tempo
  }

  /** Beat `i` is off when its gap to beat `i - 1` differs from the expected gap by more than the tolerance. */
  predicate Deviates(beats: seq<real>, expectedGap: real, i: int)
    requires 1 <= i < |beats|
  {
    Abs((beats[i] - beats[i - 1]) - expectedGap) > Tolerance
  }

  /** The off indices among 1 .. n - 1, in the order the scan visits them. */
  function OffBeatsBelow(beats: seq<real>, expectedGap: real, n: nat): seq<nat>
    requires n <= |beats|
  {
    if n <= 1 then []
    else OffBeatsBelow(beats, expectedGap, n - 1) + (if Deviates(beats, expectedGap, n - 1) then [n - 1] else [])
  }

  /** The off-beat list the component derives from its beats and expected tempo. */
  function OffBeats(beats: seq<real>, expectedTempo: Option<real>): seq<nat>
  {
    if !TempoSet(expectedTempo) || |beats| <= 1 then []
    else OffBeatsBelow(beats, ExpectedGap(expectedTempo.value), |beats|)
  }

  predicate StrictlyIncreasing(s: seq<nat>) {
    forall i, j | 0 <= i < j < |s| :: s[i] < s[j]
  }

  /** The scan up to `n` flags exactly the deviating indices below `n`, never index 0. */
  lemma {:induction false} OffBeatsBelowMembership(beats: seq<real>, expectedGap: real, n: nat, k: int)
    requires n <= |beats|
    ensures k in OffBeatsBelow(beats, expectedGap, n) <==> 1 <= k < n && Deviates(beats, expectedGap, k)
  {
    if n > 1 {
      OffBeatsBelowMembership(beats, expectedGap, n - 1, k);
    }
  }

  /** The scan emits indices in strictly increasing order, all below `n`. */
  lemma {:induction false} OffBeatsBelowIncreasing(beats: seq<real>, expectedGap: real, n: nat)
    requires n <= |beats|
    ensures StrictlyIncreasing(OffBeatsBelow(beats, expectedGap, n))
    ensures forall k | k in OffBeatsBelow(beats, expectedGap, n) :: k < n
  {
    if n > 1 {
      OffBeatsBelowIncreasing(beats, expectedGap, n - 1);
      var prefix := OffBeatsBelow(beats, expectedGap, n - 1);
      var r := OffBeatsBelow(beats, expectedGap, n);
      forall i, j | 0 <= i < j < |r|
        ensures r[i] < r[j]
      {
        if j < |prefix| {
          assert r[i] == prefix[i] && r[j] == prefix[j];
        } else {
          assert r[j] == n - 1 && r[i] == prefix[i] && prefix[i] in prefix;
        }
      }
    }
  }

  /** The off-beat rule: index `k` is flagged iff a non-zero tempo is set, `k` is a beat other than
      the first, and its gap misses `60 / expectedTempo` by strictly more than 0.1 s. */
  lemma OffBeatsSpec(beats: seq<real>, expectedTempo: Option<real>, k: int)
    ensures k in OffBeats(beats, expectedTempo) <==>
      TempoSet(expectedTempo) && 1 <= k < |beats| && Deviates(beats, ExpectedGap(expectedTempo.value), k)
  {
    if TempoSet(expectedTempo) && |beats| > 1 {
      OffBeatsBelowMembership(beats, ExpectedGap(expectedTempo.value), |beats|, k);
    }
  }

  /** The off-beat list is strictly increasing, so it holds no duplicates. */
  lemma OffBeatsIncreasing(beats: seq<real>, expectedTempo: Option<real>)
    ensures StrictlyIncreasing(OffBeats(beats, expectedTempo))
  {
    if TempoSet(expectedTempo) && |beats| > 1 {
      OffBeatsBelowIncreasing(beats, ExpectedGap(expectedTempo.value), |beats|);
    }
  }

  /** The effect that recomputes the off-beat list (a scan pushing into a fresh list). */
  method ComputeOffBeats(beats: seq<real>, expectedTempo: Option<real>) returns (offBeats: seq<nat>)
    ensures offBeats == OffBeats(beats, expectedTempo)
    ensures !TempoSet(expectedTempo) || |beats| <= 1 ==> offBeats == []
    ensures forall k | k in offBeats :: 1 <= k < |beats|
    ensures StrictlyIncreasing(offBeats)
  {
    if !TempoSet(expectedTempo) || |beats| <= 1 {
      return [];
    }
    var expectedBeatDuration := 60.0 / expectedTempo.value;
    var newOffBeats: seq<nat> := [];
    for i := 1 to |beats|
      invariant newOffBeats == OffBeatsBelow(beats, expectedBeatDuration, i)
    {
      var gap := beats[i] - beats[i - 1];
      if Abs(gap - expectedBeatDuration) > Tolerance {
        newOffBeats := newOffBeats + [i];
      }
    }
    offBeats := newOffBeats;
    OffBeatsIncreasing(beats, expectedTempo);
    forall k | k in offBeats
      ensures 1 <= k < |beats|
    {
      OffBeatsSpec(beats, expectedTempo, k);
    }
  }

  /** A gap that misses the expected one by exactly the tolerance is not flagged; one that misses
      it by more is. At 120 BPM the expected gap is 0.5 s. */
  lemma ToleranceBoundary()
    ensures OffBeats([0.0, 0.6], Some(120.0)) == []
    ensures OffBeats([0.0, 0.65], Some(120.0)) == [1]
  {
    assert ExpectedGap(120.0) == 0.5;
    assert !Deviates([0.0, 0.6], 0.5, 1);
    assert OffBeatsBelow([0.0, 0.6], 0.5, 1) == [];
    assert Deviates([0.0, 0.65], 0.5, 1);
    assert OffBeatsBelow([0.0, 0.65], 0.5, 1) == [];
  }

  /** A beat played too early is flagged too: the rule compares the absolute deviation, so a gap
      of 0.3 s at 120 BPM is off although it is not longer than 60 / 120. */
  lemma EarlyBeatFlagged()
    ensures OffBeats([0.0, 0.3], Some(120.0)) == [1]
  {
    assert ExpectedGap(120.0) == 0.5;
    assert Deviates([0.0, 0.3], 0.5, 1);
    assert OffBeatsBelow([0.0, 0.3], 0.5, 1) == [];
  }

  /** `displayTempo`: "<t> BPM" for a non-empty tempo string, "N/A" for `null` or "". */
  function DisplayTempo(temp: Option<string>): (r: string)
    ensures r == "N/A" <==> !IsSet(temp)
    ensures r != "N/A" ==> |r| > 4 && r[|r| - 4..] == " BPM" && temp == Some(r[..|r| - 4])
  {
    if IsSet(temp) then temp.value + " BPM" else "N/A"
  }

  /** What `parseFloat` returns for the expected-tempo field. */
  datatype ParsedNumber = NaN | Number(value: real)

  /** `isNaN(val) ? null : val`: a value that does not parse leaves no expected tempo. */
  function ParseExpectedTempo(parsed: ParsedNumber): (r: Option<real>)
    ensures r.None? <==> parsed.NaN?
    ensures r.Some? ==> parsed == Number(r.value)
  {
    match parsed
    case NaN => None
    case Number(v) => Some(v)
  }

  /** An expected-tempo entry that does not parse flags no beat, whatever the beats. */
  lemma UnparsedTempoFlagsNothing(beats: seq<real>)
    ensures OffBeats(beats, ParseExpectedTempo(NaN)) == []
  {
  }

  /** What decoding the selected file and running the tempo detector yields. */
  datatype Analysis =
    | DecodeFailed                                           // `arrayBuffer` or `decodeAudioData` threw
    | DetectionFailed(duration: real)                        // decoded, then the detector threw
    | Detected(duration: real, tempo: string, beats: seq<real>)

  /** The component's state (its `useState` slots). */
  class PracticeSessionAudio {
    var audioUrl: Option<string>
    var tempo: Option<string>
    var beats: seq<real>
    var duration: real
    var currentTime: real
    var offBeats: seq<nat>
    var expectedTempo: Option<real>

    /** The off-beat effect has run for the current beats and expected tempo. */
    ghost predicate Valid()
      reads this
    {
      offBeats == OffBeats(beats, expectedTempo)
    }

    constructor ()
      ensures audioUrl == None && tempo == None && beats == [] && offBeats == [] && expectedTempo == None
      ensures duration == 0.0 && currentTime == 0.0
      ensures Valid()
    {
      audioUrl := None;
      tempo := None;
      beats := [];
      duration := 0.0;
      currentTime := 0.0;
      offBeats := [];
      expectedTempo := None;
    }

    /** The off-beat effect, run after a render in which `beats` or `expectedTempo` changed. */
    method OffBeatEffect()
      modifies this`offBeats
      ensures offBeats == OffBeats(beats, expectedTempo)
      ensures Valid()
    {
      offBeats := ComputeOffBeats(beats, expectedTempo);
    }

    /** `handleFileSelect`: show the new file, reset every derived value, then take what decoding
        and detection produced; on a failure the reset values stay. */
    method HandleFileSelect(fileUrl: string, analysis: Analysis)
      modifies this
      ensures audioUrl == Some(fileUrl)
      ensures expectedTempo == None && currentTime == 0.0 && offBeats == []
      ensures duration == (if analysis.DecodeFailed? then 0.0 else analysis.duration)
      ensures tempo == (if analysis.Detected? then Some(analysis.tempo) else None)
      ensures beats == (if analysis.Detected? then analysis.beats else [])
      ensures Valid()
    {
      audioUrl := Some(fileUrl);
      tempo := None;
      beats := [];
      offBeats := [];
      expectedTempo := None;
      duration := 0.0;
      currentTime := 0.0;
      match analysis {
        case DecodeFailed =>
        case DetectionFailed(d) =>
          duration := d;
        case Detected(d, t, b) =>
          duration := d;
          tempo := Some(t);
          beats := b;
      }
      OffBeatEffect();
    }

    /** The expected-tempo field's `onChange`, followed by the off-beat effect: only the expected
        tempo and the off-beat list change; the beats and the detected tempo stay as they were. */
    method HandleExpectedTempoInput(parsed: ParsedNumber)
      modifies this`expectedTempo, this`offBeats
      ensures expectedTempo == ParseExpectedTempo(parsed)
      ensures beats == old(beats) && tempo == old(tempo) && duration == old(duration)
      ensures offBeats == OffBeats(beats, expectedTempo)
      ensures Valid()
    {
      expectedTempo := ParseExpectedTempo(parsed);
      OffBeatEffect();
    }

    /** `handleTimeUpdate`: the player reports its position. */
    method HandleTimeUpdate(time: real)
      modifies this`currentTime
      ensures currentTime == time
    {
      currentTime := time;
    }
  }
}

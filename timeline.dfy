/** The timeline bar: one marker per detected beat, coloured by whether the beat is off, and a
    cursor for the playback position, each placed at a percentage of the clip's duration. */
module Timeline {
  import opened Wrappers
  import PracticeAudio

  datatype Color = Green | Red

  /** A beat marker: its React key, its `left` offset in percent, and its colour. */
  datatype BeatMarker = BeatMarker(key: nat, left: real, color: Color)

  datatype View = View(markers: seq<BeatMarker>, cursorLeft: real)

  /** Offset, in percent of the bar's width, of time `t` on a clip lasting `duration` seconds (not clamped). */
  function Percent(t: real, duration: real): (r: real)
    requires duration != 0.0
    ensures r * duration == 100.0 * t
  {
    t / duration * 100.0
  }

  /** `offBeats.includes(index) ? "green" : "red"` */
  function MarkerColor(offBeats: seq<int>, index: nat): (r: Color)
    ensures r == Green <==> index in offBeats
    ensures r == Red <==> index !in offBeats
  {
    if index in offBeats then Green else Red
  }

  /** The rendered timeline, or nothing for a clip of zero duration. */
  function Render(duration: real, currentTime: real, beats: seq<real>, offBeats: seq<int>): (r: Option<View>)
    ensures r.None? <==> duration == 0.0
    ensures r.Some? ==> |r.value.markers| == |beats|
    ensures r.Some? ==> forall i | 0 <= i < |beats| ::
      r.value.markers[i].key == i && (r.value.markers[i].color == Green <==> i in offBeats)
  {
    if duration == 0.0 then None
    else
      var markers := seq(|beats|, i requires 0 <= i < |beats| =>
        BeatMarker(i, Percent(beats[i], duration), MarkerColor(offBeats, i)));
      Some(View(markers, Percent(currentTime, duration)))
  }

  /** A time within the clip lands within the bar. */
  lemma PercentInRange(t: real, duration: real)
    requires 0.0 < duration && 0.0 <= t <= duration
    ensures 0.0 <= Percent(t, duration) <= 100.0
  {
    assert t / duration <= 1.0 by {
      assert t / duration * duration == t;
    }
  }

  /** Later times sit further right, so markers appear in beat order along the bar. */
  lemma PercentMonotone(t1: real, t2: real, duration: real)
    requires 0.0 < duration && t1 <= t2
    ensures Percent(t1, duration) <= Percent(t2, duration)
  {
    assert t2 / duration - t1 / duration == (t2 - t1) / duration;
  }

  /** The offset determines the time it was computed from: `left / 100 * duration` gives `t` back. */
  lemma PercentRoundTrip(t: real, duration: real)
    requires duration != 0.0
    ensures Percent(t, duration) / 100.0 * duration == t
  {
  }

  /** The markers sit at each beat's percentage and the cursor at the playback position's. */
  lemma RenderPositions(duration: real, currentTime: real, beats: seq<real>, offBeats: seq<int>, i: int)
    requires duration != 0.0 && 0 <= i < |beats|
    ensures Render(duration, currentTime, beats, offBeats).value.markers[i].left == Percent(beats[i], duration)
    ensures Render(duration, currentTime, beats, offBeats).value.cursorLeft == Percent(currentTime, duration)
  {
  }

  /** The entries of `offBeats` that name a beat. */
  function InRange(offBeats: seq<int>, n: nat): (r: seq<int>)
    ensures forall k :: k in r <==> k in offBeats && 0 <= k < n
  {
    if offBeats == [] then []
    else (if 0 <= offBeats[0] < n then [offBeats[0]] else []) + InRange(offBeats[1..], n)
  }

  /** Off-beat indices that name no beat (negative, or past the last beat) change nothing on screen. */
  lemma OutOfRangeOffBeatsIgnored(duration: real, currentTime: real, beats: seq<real>, offBeats: seq<int>)
    ensures Render(duration, currentTime, beats, offBeats) == Render(duration, currentTime, beats, InRange(offBeats, |beats|))
  {
    if duration != 0.0 {
      var a := Render(duration, currentTime, beats, offBeats).value.markers;
      var b := Render(duration, currentTime, beats, InRange(offBeats, |beats|)).value.markers;
      assert |a| == |b|;
      forall i | 0 <= i < |a|
        ensures a[i] == b[i]
      {
        assert (i in offBeats) == (i in InRange(offBeats, |beats|));
      }
      assert a == b;
    }
  }

  /** End to end: with the off-beat list the component derives, a marker is green exactly when its
      beat is not the first one, an expected tempo is set, and the beat's gap misses the expected
      gap by more than 0.1 s. */
  lemma GreenMarksDeviatingBeats(duration: real, currentTime: real, beats: seq<real>, expectedTempo: Option<real>, i: int)
    requires duration != 0.0 && 0 <= i < |beats|
    ensures var view := Render(duration, currentTime, beats, PracticeAudio.OffBeats(beats, expectedTempo)).value;
      view.markers[i].color == Green <==>
        PracticeAudio.TempoSet(expectedTempo) && 1 <= i &&
        PracticeAudio.Deviates(beats, PracticeAudio.ExpectedGap(expectedTempo.value), i)
  {
    PracticeAudio.OffBeatsSpec(beats, expectedTempo, i);
  }
}

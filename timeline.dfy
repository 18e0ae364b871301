/** The timeline panel: fixed demonstration tracks whose clips are placed along the
    lane at ten pixels per second, under a ruler of twenty ticks labelled "00:00" to
    "00:19". Audio clips carry a waveform overlay. */
module TimelineLayout {
  import opened Seqs
  import opened JsText

  datatype MediaKind = Video | Audio | Text

  /** A clip on a track; `start` and `duration` are in seconds. */
  datatype TrackClip = TrackClip(id: string, name: string, start: real, duration: real, kind: MediaKind, color: string)

  datatype Track = Track(id: string, name: string, kind: MediaKind, clips: seq<TrackClip>)

  /** The fixed scale between time and lane position. */
  const PixelsPerSecond: real := 10.0

  /** A clip's CSS `left`, in pixels. */
  function ClipLeft(c: TrackClip): real
  {
    c.start * PixelsPerSecond
  }

  /** A clip's CSS `width`, in pixels. */
  function ClipWidth(c: TrackClip): real
  {
    c.duration * PixelsPerSecond
  }

  /** A clip's right edge lies at its end time scaled, and a clip of positive
      duration has positive width. */
  lemma PlacementSpan(c: TrackClip)
    ensures ClipLeft(c) == c.start * PixelsPerSecond
    ensures ClipLeft(c) + ClipWidth(c) == (c.start + c.duration) * PixelsPerSecond
    ensures c.duration > 0.0 <==> ClipWidth(c) > 0.0
  {
  }

  /** Placement keeps the order of start times. */
  lemma PlacementOrder(a: TrackClip, b: TrackClip)
    ensures a.start < b.start <==> ClipLeft(a) < ClipLeft(b)
    ensures a.start == b.start <==> ClipLeft(a) == ClipLeft(b)
  {
  }

  /** Two clips' half-open time intervals are disjoint exactly when their pixel spans are. */
  lemma PlacementDisjoint(a: TrackClip, b: TrackClip)
    ensures (a.start + a.duration <= b.start || b.start + b.duration <= a.start)
        <==> (ClipLeft(a) + ClipWidth(a) <= ClipLeft(b) || ClipLeft(b) + ClipWidth(b) <= ClipLeft(a))
  {
  }

  /** What a clip is drawn as in its lane. */
  datatype ClipBox = ClipBox(clipId: string, caption: string, color: string, left: real, width: real, waveform: bool)

  /** The clips of one lane, in track order; the waveform is drawn on every clip of an
      audio track. */
  function Lane(t: Track): (boxes: seq<ClipBox>)
    ensures |boxes| == |t.clips|
  {
    Map(t.clips, (c: TrackClip) => ClipBox(c.id, c.name, c.color, ClipLeft(c), ClipWidth(c), t.kind == Audio))
  }

  /** Each box sits where its clip's times put it, and carries a waveform exactly when
      its track is an audio track. */
  lemma LaneBoxesPlaced(t: Track, i: nat)
    requires i < |t.clips|
    ensures Lane(t)[i].left == t.clips[i].start * PixelsPerSecond
    ensures Lane(t)[i].left + Lane(t)[i].width == (t.clips[i].start + t.clips[i].duration) * PixelsPerSecond
    ensures Lane(t)[i].waveform <==> t.kind == Audio
  {
  }

  /** No two clips of a track overlap in time. */
  predicate NoOverlap(clips: seq<TrackClip>)
  {
    forall i, j :: 0 <= i < j < |clips| ==>
      clips[i].start + clips[i].duration <= clips[j].start || clips[j].start + clips[j].duration <= clips[i].start
  }

  /** A lane whose clips do not overlap in time draws boxes that do not overlap. */
  lemma LaneDisjoint(t: Track)
    requires NoOverlap(t.clips)
    ensures forall i, j :: 0 <= i < j < |t.clips| ==>
      Lane(t)[i].left + Lane(t)[i].width <= Lane(t)[j].left || Lane(t)[j].left + Lane(t)[j].width <= Lane(t)[i].left
  {
    forall i, j | 0 <= i < j < |t.clips|
      ensures Lane(t)[i].left + Lane(t)[i].width <= Lane(t)[j].left || Lane(t)[j].left + Lane(t)[j].width <= Lane(t)[i].left
    {
      LaneBoxesPlaced(t, i);
      LaneBoxesPlaced(t, j);
    }
  }

  /** The number of ruler ticks. */
  const RulerTicks: nat := 20

  /** Tick `i` reads "00:" and then `i` with a leading zero below ten. */
  function TickLabel(i: nat): string
  {
    "00:" + (if i < 10 then "0" + NatToString(i) else NatToString(i))
  }

  /** The ruler, left to right. */
  function RulerLabels(): (labels: seq<string>)
    ensures |labels| == RulerTicks
    ensures forall i :: 0 <= i < RulerTicks ==> labels[i] == TickLabel(i)
  {
    seq(RulerTicks, (i: int) requires 0 <= i => TickLabel(i))
  }

  /** Every tick below one hundred is five characters long, "00:" and two digits that
      read back as the tick's index. */
  lemma TickLabelReadsBack(i: nat)
    requires i < 100
    ensures |TickLabel(i)| == 5 && TickLabel(i)[..3] == "00:"
    ensures IsDigits(TickLabel(i)[3..]) && DigitsValue(TickLabel(i)[3..]) == i
  {
    var digits := TickLabel(i)[3..];
    NatToStringRoundTrip(i);
    if i < 10 {
      assert digits == "0" + NatToString(i);
      assert digits[..1] == "0";
    } else {
      assert NatToString(i) == NatToString(i / 10) + [DigitChar(i % 10)];
      assert digits == NatToString(i);
    }
  }

  /** The twenty ruler labels are pairwise different, the first is "00:00" and the
      last "00:19". */
  lemma RulerLabelsDistinct()
    ensures NoDuplicates(RulerLabels())
    ensures RulerLabels()[0] == "00:00" && RulerLabels()[19] == "00:19"
  {
    var labels := RulerLabels();
    forall i, j | 0 <= i < j < |labels| ensures labels[i] != labels[j] {
      TickLabelReadsBack(i);
      TickLabelReadsBack(j);
    }
    assert NatToString(19) == NatToString(1) + [DigitChar(9)];
  }

  /** The demonstration tracks the panel draws. */
  const MockTracks: seq<Track> := [
    Track("t1", "Video 1", Video, [TrackClip("c1", "IMG_4901.MOV", 0.0, 45.0, Video, "bg-blue-500")]),
    Track("t2", "Video 2", Video, [TrackClip("c2", "B_ROLL_BEACH.MP4", 15.0, 20.0, Video, "bg-indigo-500")]),
    Track("t3", "Text", Text, [TrackClip("c3", "Title Overlay", 10.0, 10.0, Text, "bg-purple-500")]),
    Track("t4", "Audio 1", Audio, [TrackClip("c4", "Summer_Hit.mp3", 0.0, 60.0, Audio, "bg-emerald-500")])
  ]

  /** Clips of the track's own kind, starting at or after zero, of positive duration,
      not overlapping. */
  predicate TrackWellFormed(t: Track)
  {
    && (forall c :: c in t.clips ==> c.kind == t.kind && c.start >= 0.0 && c.duration > 0.0)
    && NoOverlap(t.clips)
  }

  /** The demonstration data is consistent, and only the audio track's clip is drawn
      with a waveform. */
  lemma MockTracksWellFormed()
    ensures forall t :: t in MockTracks ==> TrackWellFormed(t)
    ensures forall k :: 0 <= k < |MockTracks| ==>
              forall i :: 0 <= i < |MockTracks[k].clips| ==> (Lane(MockTracks[k])[i].waveform <==> k == 3)
  {
  }
}

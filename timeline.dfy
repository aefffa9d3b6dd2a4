/** The geometry of the timeline panel (src/components/editor/timeline.tsx): the
    ruler and its click-to-seek clamp, the two track rows, and the mapping of
    seconds to pixels for clip boxes and the playhead line. */
module Timeline {
  import opened Types
  import opened Seqs

  /** TOTAL_DURATION: the ruler spans 60 seconds. */
  const RulerSeconds: real := 60.0
  /** PIXELS_PER_SECOND. */
  const PixelsPerSecond: real := 40.0

  /** handleRulerClick: the click's x offset in pixels becomes a playhead time,
      clamped into [0, 60] seconds. */
  function RulerPlayhead(x: real): (p: real)
    ensures 0.0 <= p <= RulerSeconds
    ensures 0.0 <= x <= RulerSeconds * PixelsPerSecond ==> p == x / PixelsPerSecond
    ensures x < 0.0 ==> p == 0.0
    ensures x > RulerSeconds * PixelsPerSecond ==> p == RulerSeconds
  {
    Max(0.0, Min(RulerSeconds, x / PixelsPerSecond))
  }

  /** The playhead line's `left` offset in pixels. */
  function PlayheadLeft(playhead: real): real {
    playhead * PixelsPerSecond
  }

  /** Clicking the ruler puts the playhead line under the cursor whenever the
      click lies on the 2400-pixel ruler, and the clamp is idempotent. */
  lemma ClickPutsLineUnderCursor(x: real)
    ensures 0.0 <= x <= 2400.0 ==> PlayheadLeft(RulerPlayhead(x)) == x
    ensures RulerPlayhead(PlayheadLeft(RulerPlayhead(x))) == RulerPlayhead(x)
  {
  }

  /** One ruler tick: its second, whether it is a major tick, and the caption
      (the number of seconds) that only major ticks carry. */
  datatype Marker = Marker(second: nat, major: bool, caption: Option<nat>)

  /** renderRuler: a counting loop from 0 to 60 inclusive pushing one marker
      per second; every fifth marker is major and labelled. */
  method RenderRuler() returns (markers: seq<Marker>)
    ensures |markers| == 61
    ensures forall i :: 0 <= i < |markers| ==> markers[i].second == i
    ensures forall i :: 0 <= i < |markers| ==> (markers[i].major <==> i % 5 == 0)
    ensures forall i :: 0 <= i < |markers| ==> (markers[i].caption.Some? <==> markers[i].major)
    ensures forall i :: 0 <= i < |markers| && markers[i].caption.Some? ==> markers[i].caption.value == i
  {
    markers := [];
    var i := 0;
    while i <= 60
      invariant 0 <= i <= 61
      invariant |markers| == i
      invariant forall k :: 0 <= k < i ==>
        markers[k] == Marker(k, k % 5 == 0, if k % 5 == 0 then Some(k) else None)
    {
      var isMajor := i % 5 == 0;
      markers := markers + [Marker(i, isMajor, if isMajor then Some(i) else None)];
      i := i + 1;
    }
  }

  /** The rows of the timeline in the order `trackConfig` lists them. */
  const TrackRows: seq<Track> := [VideoTrack, Audio1]

  /** renderTrack for every row: row `k` holds exactly the clips whose track is
      the row's track, in list order. */
  function RenderTracks(clips: seq<Clip>): (rows: seq<seq<Clip>>)
    ensures |rows| == |TrackRows| == 2
    ensures forall k :: 0 <= k < 2 ==>
      forall c :: c in rows[k] <==> c in clips && c.track == TrackRows[k]
  {
    [TrackClips(clips, VideoTrack), TrackClips(clips, Audio1)]
  }

  /** The rows partition the clip list: every clip is drawn in exactly one row
      and the rows hold as many boxes as there are clips. */
  lemma RowsPartitionClips(clips: seq<Clip>)
    ensures var rows := RenderTracks(clips);
      && |rows[0]| + |rows[1]| == |clips|
      && forall c :: c in clips ==> (c in rows[0] <==> c !in rows[1])
  {
    FilterComplement(clips, (c: Clip) => c.track == VideoTrack, (c: Clip) => c.track == Audio1);
  }

  /** Each row keeps list order: the rows of a concatenated clip list are the
      rows of its two parts, concatenated. */
  lemma {:induction false} RowsInListOrder(a: seq<Clip>, b: seq<Clip>)
    ensures forall k :: 0 <= k < 2 ==> RenderTracks(a + b)[k] == RenderTracks(a)[k] + RenderTracks(b)[k]
  {
    FilterAppend(a, b, (c: Clip) => c.track == VideoTrack);
    FilterAppend(a, b, (c: Clip) => c.track == Audio1);
  }

  /** A single clip lands alone in the row of its own track; with
      `RowsInListOrder` this fixes every row's contents and order. */
  lemma RowsOfOneClip(c: Clip)
    ensures forall k :: 0 <= k < 2 ==> RenderTracks([c])[k] == if c.track == TrackRows[k] then [c] else []
  {
    FilterSingle(c, (c: Clip) => c.track == VideoTrack);
    FilterSingle(c, (c: Clip) => c.track == Audio1);
  }

  /** The clip box's `left` and `width` in pixels. */
  datatype Box = Box(left: real, width: real)

  function ClipBox(c: Clip): Box {
    Box(c.start * PixelsPerSecond, c.duration * PixelsPerSecond)
  }

  /** The box spans exactly the clip's interval scaled to pixels: the playhead
      line falls inside the box iff the playhead falls inside the clip, and
      clips that do not overlap in time get boxes that do not overlap. */
  lemma BoxesFollowTime(a: Clip, b: Clip, playhead: real)
    ensures ClipBox(a).left + ClipBox(a).width == End(a) * PixelsPerSecond
    ensures (ClipBox(a).left <= PlayheadLeft(playhead) < ClipBox(a).left + ClipBox(a).width) <==>
      (a.start <= playhead < End(a))
    ensures !Overlaps(a, b) ==>
      !(ClipBox(a).left < ClipBox(b).left + ClipBox(b).width && ClipBox(b).left < ClipBox(a).left + ClipBox(a).width)
  {
  }
}

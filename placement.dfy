/** First-fit placement of a new clip on its track (src/components/editor/editor.tsx,
    handleAddClip) and the store invariant it is meant to keep: clips that share a
    track never overlap. */
module Placement {
  import opened Types
  import opened Seqs

  /** Ascending by start, as the comparator `a.start - b.start` orders them. */
  predicate SortedByStart(t: seq<Clip>) {
    forall i, j :: 0 <= i < j < |t| ==> t[i].start <= t[j].start
  }

  /** Inserts `c` in front of the first element that does not start earlier,
      so that among equal starts the earlier-inserted element stays first. */
  function Insert(c: Clip, t: seq<Clip>): (r: seq<Clip>)
    ensures multiset(r) == multiset(t) + multiset{c}
  {
    if t == [] || c.start <= t[0].start then [c] + t
    else
      assert t == [t[0]] + t[1..];
      [t[0]] + Insert(c, t[1..])
  }

  /** A bound below `c` and every element of `t` stays below the insertion. */
  lemma {:induction false} InsertLowerBound(c: Clip, t: seq<Clip>, b: real)
    requires b <= c.start && forall i :: 0 <= i < |t| ==> b <= t[i].start
    ensures forall k :: 0 <= k < |Insert(c, t)| ==> b <= Insert(c, t)[k].start
  {
    if t != [] && c.start > t[0].start {
      InsertLowerBound(c, t[1..], b);
    }
  }

  /** Inserting into a sorted sequence keeps it sorted. */
  lemma {:induction false} InsertSorted(c: Clip, t: seq<Clip>)
    requires SortedByStart(t)
    ensures SortedByStart(Insert(c, t))
  {
    if t != [] && c.start > t[0].start {
      var tail := t[1..];
      InsertSorted(c, tail);
      InsertLowerBound(c, tail, t[0].start);
      var r := Insert(c, t);
      assert r == [t[0]] + Insert(c, tail);
    }
  }

  /** The stable sort the store applies to a track's clips before scanning:
      a permutation of its input, ascending by start. */
  function SortByStart(s: seq<Clip>): (r: seq<Clip>)
    ensures multiset(r) == multiset(s)
    ensures SortedByStart(r)
    ensures |r| == |s|
  {
    if s == [] then []
    else
      assert s == [s[0]] + s[1..];
      InsertSorted(s[0], SortByStart(s[1..]));
      Insert(s[0], SortByStart(s[1..]))
  }

  /** The scan of handleAddClip over a track sorted by start: starting from
      `cursor`, stop at the first clip that the new clip fits in front of,
      otherwise move the cursor to that clip's end. */
  function FirstFit(t: seq<Clip>, cursor: real, duration: real): real
  {
    if t == [] then cursor
    else if cursor + duration <= t[0].start then cursor
    else FirstFit(t[1..], End(t[0]), duration)
  }

  /** The start the store gives a new clip: first fit from 0 over the clips of
      its track sorted by start. The incoming start plays no part. */
  function PlacedStart(clips: seq<Clip>, c: Clip): real {
    FirstFit(SortByStart(TrackClips(clips, c.track)), 0.0, c.duration)
  }

  /** The clip the store appends: the incoming clip with only its start replaced. */
  function Place(clips: seq<Clip>, c: Clip): Clip {
    c.(start := PlacedStart(clips, c))
  }

  /** Distinct clips of `t` do not overlap. */
  predicate Apart(t: seq<Clip>) {
    forall a, b :: a in t && b in t && a != b ==> !Overlaps(a, b)
  }

  /** The hypotheses under which the scan keeps a track free of overlaps. */
  predicate ScanReady(t: seq<Clip>) {
    SortedByStart(t) && (forall x :: x in t ==> x.duration > 0.0) && Apart(t)
  }

  /** The store invariant: every clip has a positive duration and no two clips
      on the same track overlap. */
  predicate Consistent(clips: seq<Clip>) {
    (forall i :: 0 <= i < |clips| ==> clips[i].duration > 0.0) &&
    (forall i, j :: 0 <= i < j < |clips| && clips[i].track == clips[j].track ==> !Overlaps(clips[i], clips[j]))
  }

  /** The loop of handleAddClip: `newStart` begins at 0; at the first clip with
      `newStart + duration <= clip.start` the loop breaks, otherwise `newStart`
      moves to that clip's end. On a sorted track without overlaps the placed
      interval [newStart, newStart + duration) meets none of the track's clips. */
  method ScanFirstFit(trackClips: seq<Clip>, duration: real) returns (newStart: real)
    ensures newStart == FirstFit(trackClips, 0.0, duration)
    ensures ScanReady(trackClips) ==>
      forall x :: x in trackClips ==> !(x.start < newStart + duration && newStart < End(x))
  {
    newStart := 0.0;
    var i := 0;
    while i < |trackClips|
      invariant 0 <= i <= |trackClips|
      invariant FirstFit(trackClips[i..], newStart, duration) == FirstFit(trackClips, 0.0, duration)
    {
      var clip := trackClips[i];
      if newStart + duration <= clip.start {
        assert FirstFit(trackClips[i..], newStart, duration) == newStart;
        break;
      }
      assert trackClips[i..][1..] == trackClips[i + 1..];
      newStart := clip.start + clip.duration;
      i := i + 1;
    }
    if ScanReady(trackClips) {
      FirstFitClear(trackClips, 0.0, duration);
    }
  }

  /** The scan ends either where it began or at the end of one of the clips. */
  lemma {:induction false} FirstFitIsCursorOrEnd(t: seq<Clip>, cursor: real, duration: real)
    ensures var p := FirstFit(t, cursor, duration);
      p == cursor || exists k :: 0 <= k < |t| && p == End(t[k])
  {
    if t != [] && cursor + duration > t[0].start {
      FirstFitIsCursorOrEnd(t[1..], End(t[0]), duration);
      var p := FirstFit(t[1..], End(t[0]), duration);
      if p != End(t[0]) {
        var k :| 0 <= k < |t[1..]| && p == End(t[1..][k]);
        assert t[1..][k] == t[k + 1];
      }
    }
  }

  /** On a sorted track without overlaps, a later clip ends no earlier than
      the first one, and starts no earlier than the first one ends unless it
      is the same clip. */
  lemma LaterClipEndsLater(t: seq<Clip>, k: nat)
    requires ScanReady(t)
    requires 0 < k < |t|
    ensures End(t[0]) <= End(t[k])
    ensures t[k] != t[0] ==> End(t[0]) <= t[k].start
  {
    assert t[0] in t && t[k] in t;
    assert t[0].start <= t[k].start;
  }

  /** The no-overlap guarantee of the scan: on a sorted track whose clips have
      positive durations and do not overlap, the interval the scan picks for a
      clip of `duration` overlaps none of them, whatever the starting cursor. */
  lemma {:induction false} FirstFitClear(t: seq<Clip>, cursor: real, duration: real)
    requires ScanReady(t)
    ensures var p := FirstFit(t, cursor, duration);
      forall x :: x in t ==> !(x.start < p + duration && p < End(x))
  {
    if t == [] {
    } else if cursor + duration <= t[0].start {
      forall x | x in t
        ensures x.start >= t[0].start
      {
        var k :| 0 <= k < |t| && t[k] == x;
        if k > 0 { assert t[0].start <= t[k].start; }
      }
    } else {
      var rest := t[1..];
      assert SortedByStart(rest) by {
        forall i, j | 0 <= i < j < |rest| ensures rest[i].start <= rest[j].start {
          assert rest[i] == t[i + 1] && rest[j] == t[j + 1];
        }
      }
      FirstFitClear(rest, End(t[0]), duration);
      var p := FirstFit(rest, End(t[0]), duration);
      FirstFitIsCursorOrEnd(rest, End(t[0]), duration);
      if p != End(t[0]) {
        var k :| 0 <= k < |rest| && p == End(rest[k]);
        assert rest[k] == t[k + 1];
        LaterClipEndsLater(t, k + 1);
      }
      assert p >= End(t[0]);
      assert t == [t[0]] + rest;
    }
  }

  /** The clips of one track of a consistent store, sorted by start, satisfy
      the scan's hypotheses. */
  lemma ConsistentTrackReady(clips: seq<Clip>, tr: Track)
    requires Consistent(clips)
    ensures ScanReady(SortByStart(TrackClips(clips, tr)))
  {
    var t := SortByStart(TrackClips(clips, tr));
    forall x | x in t
      ensures x in clips && x.track == tr
    {
      assert x in multiset(TrackClips(clips, tr));
    }
    forall x | x in t
      ensures x.duration > 0.0
    {
      var i :| 0 <= i < |clips| && clips[i] == x;
    }
    forall a, b | a in t && b in t && a != b
      ensures !Overlaps(a, b)
    {
      var i :| 0 <= i < |clips| && clips[i] == a;
      var j :| 0 <= j < |clips| && clips[j] == b;
      if i < j {
        assert !Overlaps(clips[i], clips[j]);
      } else {
        assert !Overlaps(clips[j], clips[i]);
      }
    }
  }

  /** The stated intent of handleAddClip ("Prevent overlap"): in a consistent
      store the placed clip overlaps no clip already on its track. */
  lemma PlacementAvoidsOverlap(clips: seq<Clip>, c: Clip)
    requires Consistent(clips)
    ensures forall x :: x in clips && x.track == c.track ==> !Overlaps(x, Place(clips, c))
  {
    var t := SortByStart(TrackClips(clips, c.track));
    ConsistentTrackReady(clips, c.track);
    FirstFitClear(t, 0.0, c.duration);
    forall x | x in clips && x.track == c.track
      ensures x in t
    {
      assert x in TrackClips(clips, c.track);
      assert x in multiset(t);
    }
  }

  /** Adding a clip of positive duration keeps the store consistent: the
      no-overlap invariant holds after every sequence of adds. */
  lemma AddPreservesConsistency(clips: seq<Clip>, c: Clip)
    requires Consistent(clips)
    requires c.duration > 0.0
    ensures Consistent(clips + [Place(clips, c)])
  {
    PlacementAvoidsOverlap(clips, c);
    var s := clips + [Place(clips, c)];
    forall i, j | 0 <= i < j < |s| && s[i].track == s[j].track
      ensures !Overlaps(s[i], s[j])
    {
      if j == |clips| {
        assert s[i] == clips[i] && s[i] in clips;
      } else {
        assert s[i] == clips[i] && s[j] == clips[j];
      }
    }
  }

  /** A clip of another track, wherever it sits in the list, is not in the
      track's clips. */
  lemma {:induction false} TrackClipsSkipOther(a: seq<Clip>, other: Clip, b: seq<Clip>, tr: Track)
    requires other.track != tr
    ensures TrackClips(a + [other] + b, tr) == TrackClips(a + b, tr)
  {
    var p := (x: Clip) => x.track == tr;
    FilterSingle(other, p);
    FilterAppend(a, [other], p);
    FilterAppend(a + [other], b, p);
    FilterAppend(a, b, p);
    assert Filter(a + [other], p) == Filter(a, p);
  }

  /** Clips on other tracks do not influence where a new clip is placed: a
      clip of another track, wherever it sits in the list, can be dropped. */
  lemma PlacementIgnoresOtherTracks(a: seq<Clip>, other: Clip, b: seq<Clip>, c: Clip)
    requires other.track != c.track
    ensures PlacedStart(a + [other] + b, c) == PlacedStart(a + b, c)
  {
    TrackClipsSkipOther(a, other, b, c.track);
  }

  /** Two clips of one track, already in start order, are scanned as they are. */
  lemma TwoClipTrack(a: Clip, b: Clip, tr: Track)
    requires a.track == b.track == tr && a.start <= b.start
    ensures SortByStart(TrackClips([a, b], tr)) == [a, b]
  {
    assert [a, b][1..] == [b];
    assert [b][1..] == [];
    assert TrackClips([a, b], tr) == [a, b];
    assert SortByStart([b]) == [b];
  }

  /** The scan over two clips: before the first if the new clip fits there,
      else between the two if it fits there, else after the second. */
  lemma ScanTwo(a: Clip, b: Clip, d: real)
    ensures FirstFit([a, b], 0.0, d)
      == if d <= a.start then 0.0 else if End(a) + d <= b.start then End(a) else End(b)
  {
    assert [a, b][1..] == [b];
    assert [b][1..] == [];
    assert FirstFit([b], End(a), d) == if End(a) + d <= b.start then End(a) else FirstFit([], End(b), d);
  }

  /** The worked instance of first fit: with clips at [0,5) and [5,12) on a
      track, a clip of 3 seconds is placed at 12, after the last clip. */
  lemma FirstFitAfterLast(a: Clip, b: Clip, c: Clip)
    requires a.track == b.track == c.track && c.duration == 3.0
    requires a.start == 0.0 && a.duration == 5.0 && b.start == 5.0 && b.duration == 7.0
    ensures PlacedStart([a, b], c) == 12.0
  {
    TwoClipTrack(a, b, c.track);
    ScanTwo(a, b, 3.0);
  }

  /** First fit takes the first gap that is long enough: with clips at [2,5)
      and [10,12), a clip of 3 seconds goes to 5, a clip of 2 seconds to 0. */
  lemma FirstFitFillsGap(a: Clip, b: Clip, c: Clip)
    requires a.track == b.track == c.track
    requires a.start == 2.0 && a.duration == 3.0 && b.start == 10.0 && b.duration == 2.0
    ensures c.duration == 3.0 ==> PlacedStart([a, b], c) == 5.0
    ensures c.duration == 2.0 ==> PlacedStart([a, b], c) == 0.0
  {
    TwoClipTrack(a, b, c.track);
    ScanTwo(a, b, c.duration);
  }

  /** Why the invariant asks for positive durations: a zero-length clip that
      shares its start with a longer clip moves the scan's cursor back, and
      the new clip is placed on top of the longer one. */
  lemma ZeroDurationBreaksPlacement(a: Clip, z: Clip, c: Clip)
    requires a.track == z.track == c.track
    requires a.start == 0.0 && a.duration == 5.0
    requires z.start == 0.0 && z.duration == 0.0
    requires c.duration == 2.0
    ensures PlacedStart([a, z], c) == 0.0
    ensures Overlaps(a, Place([a, z], c))
  {
    TwoClipTrack(a, z, c.track);
    ScanTwo(a, z, 2.0);
  }
}

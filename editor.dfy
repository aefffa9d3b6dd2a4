/** The timeline store of the editor component (src/components/editor/editor.tsx):
    the clip list, the selected clip, the playhead and the active tool, with the
    add, select, update, delete, split and add-text handlers as methods. */
module Editor {
  import opened Types
  import opened Seqs
  import opened Placement

  // ---------------------------------------------------------------- update

  /** `prev.map(c => c.id === updated.id ? updated : c)`. */
  function ReplaceById(clips: seq<Clip>, updated: Clip): (r: seq<Clip>)
    ensures |r| == |clips|
    ensures forall i :: 0 <= i < |clips| ==>
      r[i] == (if clips[i].id == updated.id then updated else clips[i])
  {
    seq(|clips|, i requires 0 <= i < |clips| => if clips[i].id == updated.id then updated else clips[i])
  }

  /** Updating an id that is not in the list changes nothing. */
  lemma UpdateAbsentIsNoop(clips: seq<Clip>, updated: Clip)
    requires forall c :: c in clips ==> c.id != updated.id
    ensures ReplaceById(clips, updated) == clips
  {
    var r := ReplaceById(clips, updated);
    forall i | 0 <= i < |clips| ensures r[i] == clips[i] {
      assert clips[i] in clips;
    }
  }

  /** Updating twice with the same clip is the same as updating once. */
  lemma UpdateIdempotent(clips: seq<Clip>, updated: Clip)
    ensures ReplaceById(ReplaceById(clips, updated), updated) == ReplaceById(clips, updated)
  {
  }

  /** Update does not re-run placement: it can make two clips of a track
      overlap. Clips at [0,5) and [5,10); moving the second to start at 2
      breaks the store invariant. */
  lemma UpdateMayBreakConsistency(a: Clip, b: Clip)
    requires a.id != b.id && a.track == b.track
    requires a.start == 0.0 && a.duration == 5.0 && b.start == 5.0 && b.duration == 5.0
    ensures Consistent([a, b])
    ensures !Consistent(ReplaceById([a, b], b.(start := 2.0)))
  {
    var r := ReplaceById([a, b], b.(start := 2.0));
    assert r[0] == a && r[1] == b.(start := 2.0);
    assert Overlaps(r[0], r[1]);
  }

  // ---------------------------------------------------------------- delete

  /** `prev.filter(c => c.id !== id)`. */
  function RemoveById(clips: seq<Clip>, id: string): (r: seq<Clip>)
    ensures forall c :: c in r <==> c in clips && c.id != id
    ensures |r| <= |clips|
  {
    Filter(clips, (c: Clip) => c.id != id)
  }

  /** Deleting an id no clip has changes nothing. */
  lemma RemoveAbsentIsNoop(clips: seq<Clip>, id: string)
    requires forall c :: c in clips ==> c.id != id
    ensures RemoveById(clips, id) == clips
  {
    FilterAll(clips, (c: Clip) => c.id != id);
  }

  /** Deleting is idempotent: a second delete of the same id changes nothing. */
  lemma DeleteIdempotent(clips: seq<Clip>, id: string)
    ensures RemoveById(RemoveById(clips, id), id) == RemoveById(clips, id)
  {
    RemoveAbsentIsNoop(RemoveById(clips, id), id);
  }

  /** A consistent store is consistent after any filter, so after a delete. */
  lemma {:induction false} FilterPreservesConsistency(clips: seq<Clip>, p: Clip -> bool)
    requires Consistent(clips)
    ensures Consistent(Filter(clips, p))
  {
    if clips != [] {
      assert clips == [clips[0]] + clips[1..];
      ConsistentCons(clips[0], clips[1..]);
      FilterPreservesConsistency(clips[1..], p);
      if p(clips[0]) {
        ConsistentCons(clips[0], Filter(clips[1..], p));
      }
    }
  }

  /** Consistency of a list with a head element, split into its parts. */
  lemma ConsistentCons(x: Clip, r: seq<Clip>)
    ensures Consistent([x] + r) <==>
      x.duration > 0.0 && Consistent(r) &&
      (forall y :: y in r && y.track == x.track ==> !Overlaps(x, y))
  {
    var s := [x] + r;
    if Consistent(s) {
      assert s[0] == x;
      forall i | 0 <= i < |r| ensures r[i].duration > 0.0 {
        assert s[i + 1] == r[i];
      }
      forall i, j | 0 <= i < j < |r| && r[i].track == r[j].track
        ensures !Overlaps(r[i], r[j])
      {
        assert s[i + 1] == r[i] && s[j + 1] == r[j];
      }
      forall y | y in r && y.track == x.track
        ensures !Overlaps(x, y)
      {
        var k :| 0 <= k < |r| && r[k] == y;
        assert s[k + 1] == y;
      }
    }
    if x.duration > 0.0 && Consistent(r) && (forall y :: y in r && y.track == x.track ==> !Overlaps(x, y)) {
      forall i | 0 <= i < |s| ensures s[i].duration > 0.0 {
        if i > 0 { assert s[i] == r[i - 1]; }
      }
      forall i, j | 0 <= i < j < |s| && s[i].track == s[j].track
        ensures !Overlaps(s[i], s[j])
      {
        assert s[j] == r[j - 1];
        if i > 0 {
          assert s[i] == r[i - 1];
        } else {
          assert s[0] == x && r[j - 1] in r;
        }
      }
    }
  }

  /** Appending a clip of positive duration that overlaps no clip of its track
      keeps a store consistent. */
  lemma ConsistentSnoc(s: seq<Clip>, x: Clip)
    requires Consistent(s) && x.duration > 0.0
    requires forall y :: y in s && y.track == x.track ==> !Overlaps(y, x)
    ensures Consistent(s + [x])
  {
    var t := s + [x];
    forall i, j | 0 <= i < j < |t| && t[i].track == t[j].track
      ensures !Overlaps(t[i], t[j])
    {
      assert t[i] == s[i];
      if j == |s| { assert s[i] in s; } else { assert t[j] == s[j]; }
    }
  }

  // ---------------------------------------------------------------- split

  /** The ways handleSplitClip can end: the new list and the two parts, or a
      rejection that leaves the store as it was. */
  datatype SplitOutcome =
    | SplitDone(clips: seq<Clip>, part1: Clip, part2: Clip)
    | NoSuchClip
    | PlayheadOutside

  /** `clips.find(c => c.id === clipId)`: the clip a split acts on. */
  function SplitTarget(clips: seq<Clip>, clipId: string): (r: Option<Clip>)
    ensures r.None? <==> forall c :: c in clips ==> c.id != clipId
    ensures r.Some? ==> r.value in clips && r.value.id == clipId
  {
    Find(clips, (c: Clip) => c.id == clipId)
  }

  /** The two halves of a clip cut at an interior playhead. Part 1 keeps the id,
      the start and every other field; part 2 takes the id `<type>-<stamp>`
      (`stamp` stands for the text of `Date.now()`), starts at the playhead and
      copies every other field. The halves tile the original exactly. */
  function SplitParts(c: Clip, playhead: real, stamp: string): (parts: (Clip, Clip))
    requires c.start < playhead < End(c)
    ensures parts.0 == c.(duration := playhead - c.start)
    ensures parts.1 == c.(id := TypeTag(c.kind) + "-" + stamp, start := playhead, duration := parts.1.duration)
    ensures parts.0.duration + parts.1.duration == c.duration
    ensures End(parts.0) == parts.1.start == playhead
    ensures End(parts.1) == End(c)
    ensures parts.0.duration > 0.0 && parts.1.duration > 0.0
  {
    var part1Duration := playhead - c.start;
    var part2Duration := c.duration - part1Duration;
    (c.(duration := part1Duration),
     c.(id := TypeTag(c.kind) + "-" + stamp, start := playhead, duration := part2Duration))
  }

  /** handleSplitClip on the clip list: unknown ids and playheads outside the
      open interval (start, start + duration) are rejected; otherwise every
      clip with the id is filtered out and the two parts are appended. */
  function SplitClips(clips: seq<Clip>, clipId: string, playhead: real, stamp: string): (r: SplitOutcome)
    ensures r.NoSuchClip? <==> SplitTarget(clips, clipId).None?
    ensures r.PlayheadOutside? <==>
      (SplitTarget(clips, clipId).Some? &&
       (playhead <= SplitTarget(clips, clipId).value.start || playhead >= End(SplitTarget(clips, clipId).value)))
    ensures r.SplitDone? ==>
      var c := SplitTarget(clips, clipId).value;
      && r.clips == RemoveById(clips, clipId) + [r.part1, r.part2]
      && r.part1.id == clipId && r.part1.start == c.start
      && r.part2.start == playhead
      && r.part1.duration + r.part2.duration == c.duration
      && End(r.part1) == r.part2.start
      && c.start < playhead < End(c)
      && (r.part1, r.part2) == SplitParts(c, playhead, stamp)
  {
    var found := SplitTarget(clips, clipId);
    if found.None? then NoSuchClip
    else
      var c := found.value;
      if playhead <= c.start || playhead >= c.start + c.duration then PlayheadOutside
      else
        var parts := SplitParts(c, playhead, stamp);
        SplitDone(RemoveById(clips, clipId) + [parts.0, parts.1], parts.0, parts.1)
  }

  /** The split point must be strictly inside the clip: a playhead at the
      clip's start or end is rejected, one at its midpoint is accepted. */
  lemma SplitBoundaries(clips: seq<Clip>, clipId: string, stamp: string)
    requires SplitTarget(clips, clipId).Some?
    ensures var c := SplitTarget(clips, clipId).value;
      && SplitClips(clips, clipId, c.start, stamp).PlayheadOutside?
      && SplitClips(clips, clipId, End(c), stamp).PlayheadOutside?
      && (c.duration > 0.0 ==> SplitClips(clips, clipId, c.start + c.duration / 2.0, stamp).SplitDone?)
  {
  }

  /** Splitting keeps the store consistent: both parts lie inside the original
      interval, meet at the playhead, and have positive durations. */
  lemma SplitPreservesConsistency(clips: seq<Clip>, clipId: string, playhead: real, stamp: string)
    requires Consistent(clips)
    requires SplitClips(clips, clipId, playhead, stamp).SplitDone?
    ensures Consistent(SplitClips(clips, clipId, playhead, stamp).clips)
  {
    var r := SplitClips(clips, clipId, playhead, stamp);
    var c := SplitTarget(clips, clipId).value;
    var rest := RemoveById(clips, clipId);
    FilterPreservesConsistency(clips, (x: Clip) => x.id != clipId);
    RestApartFromTarget(clips, clipId);
    TiledAppendConsistent(rest, c, r.part1, r.part2);
  }

  /** In a consistent store, the clips left after removing an id overlap no
      clip of that id on the same track. */
  lemma RestApartFromTarget(clips: seq<Clip>, clipId: string)
    requires Consistent(clips)
    requires SplitTarget(clips, clipId).Some?
    ensures var c := SplitTarget(clips, clipId).value;
      forall y :: y in RemoveById(clips, clipId) && y.track == c.track ==> !Overlaps(y, c)
  {
    var c := SplitTarget(clips, clipId).value;
    var k :| 0 <= k < |clips| && clips[k] == c;
    forall y | y in RemoveById(clips, clipId) && y.track == c.track
      ensures !Overlaps(y, c)
    {
      var j :| 0 <= j < |clips| && clips[j] == y;
      assert j != k;
      if j < k { assert !Overlaps(clips[j], clips[k]); } else { assert !Overlaps(clips[k], clips[j]); }
    }
  }

  /** Appending two clips of positive duration, one after the other inside
      the interval of a clip that overlaps nothing on its track, keeps a list
      consistent. */
  lemma TiledAppendConsistent(rest: seq<Clip>, c: Clip, p1: Clip, p2: Clip)
    requires Consistent(rest)
    requires forall y :: y in rest && y.track == c.track ==> !Overlaps(y, c)
    requires p1.track == c.track == p2.track
    requires p1.duration > 0.0 && p2.duration > 0.0
    requires c.start <= p1.start && End(p1) <= p2.start && End(p2) <= End(c)
    ensures Consistent(rest + [p1, p2])
  {
    ConsistentSnoc(rest, p1);
    assert forall y :: y in rest + [p1] ==> y in rest || y == p1;
    ConsistentSnoc(rest + [p1], p2);
    assert rest + [p1] + [p2] == rest + [p1, p2];
  }

  // ---------------------------------------------------------------- the store

  /** The editor component's state: `clips`, `selectedClip`, `playhead` and
      `activeTool`, each updated by replacing its value. */
  class Store {
    var clips: seq<Clip>
    var selected: Option<Clip>
    var playhead: real
    var activeTool: Tool

    /** The initial state: no clips, nothing selected, playhead at 0, select tool. */
    constructor ()
      ensures clips == [] && selected == None && playhead == 0.0 && activeTool == Select
    {
      clips := [];
      selected := None;
      playhead := 0.0;
      activeTool := Select;
    }

    /** handleAddClip: the clip is appended with its start replaced by the
        first-fit placement on its track; nothing else in the list changes. A
        consistent store stays consistent. */
    method AddClip(newClip: Clip)
      modifies this`clips
      ensures clips == old(clips) + [Place(old(clips), newClip)]
      ensures Consistent(old(clips)) && newClip.duration > 0.0 ==> Consistent(clips)
    {
      var trackClips := SortByStart(TrackClips(clips, newClip.track));
      var newStart := ScanFirstFit(trackClips, newClip.duration);
      var finalClip := newClip.(start := newStart);
      if Consistent(clips) && newClip.duration > 0.0 {
        AddPreservesConsistency(clips, newClip);
      }
      clips := clips + [finalClip];
    }

    /** handleSelectClip: with the split tool active, clicking a clip splits
        it instead of selecting it; otherwise the selection becomes `clip`.
        A consistent store stays consistent. */
    method SelectClip(clip: Option<Clip>, stamp: string)
      modifies this`clips, this`selected
      ensures old(activeTool) == Split && clip.Some? ==>
        match SplitClips(old(clips), clip.value.id, playhead, stamp)
        case SplitDone(cs, _, _) => clips == cs && selected == None
        case _ => clips == old(clips) && selected == old(selected)
      ensures !(old(activeTool) == Split && clip.Some?) ==>
        clips == old(clips) && selected == clip
      ensures Consistent(old(clips)) ==> Consistent(clips)
    {
      if activeTool == Split && clip.Some? {
        SplitClip(clip.value.id, stamp);
        return;
      }
      selected := clip;
    }

    /** handleUpdateClip: every clip with the id is replaced, with no overlap
        check; a selection with that id is refreshed. */
    method UpdateClip(updated: Clip)
      modifies this`clips, this`selected
      ensures clips == ReplaceById(old(clips), updated)
      ensures selected == if old(selected).Some? && old(selected).value.id == updated.id
                          then Some(updated) else old(selected)
    {
      clips := ReplaceById(clips, updated);
      if selected.Some? && selected.value.id == updated.id {
        selected := Some(updated);
      }
    }

    /** handleDeleteClip: the id is the argument if given and non-empty, else
        the selection's id; with neither (or an empty id) nothing changes.
        Every clip with the id is removed; the selection is cleared only if it
        has that id. */
    method DeleteClip(clipId: Option<string>)
      modifies this`clips, this`selected
      ensures var id := DeleteTarget(clipId, old(selected));
        if id == "" then clips == old(clips) && selected == old(selected)
        else clips == RemoveById(old(clips), id) &&
             selected == if old(selected).Some? && old(selected).value.id == id then None else old(selected)
      ensures Consistent(old(clips)) ==> Consistent(clips)
    {
      var idToDelete := DeleteTarget(clipId, selected);
      if idToDelete == "" {
        return;
      }
      if Consistent(clips) {
        FilterPreservesConsistency(clips, (c: Clip) => c.id != idToDelete);
      }
      clips := RemoveById(clips, idToDelete);
      if selected.Some? && selected.value.id == idToDelete {
        selected := None;
      }
    }

    /** handleSplitClip at the current playhead; on success the selection is
        cleared, on rejection nothing changes. A consistent store stays
        consistent. */
    method SplitClip(clipId: string, stamp: string)
      modifies this`clips, this`selected
      ensures match SplitClips(old(clips), clipId, playhead, stamp)
        case SplitDone(cs, _, _) => clips == cs && selected == None
        case _ => clips == old(clips) && selected == old(selected)
      ensures Consistent(old(clips)) ==> Consistent(clips)
    {
      var outcome := SplitClips(clips, clipId, playhead, stamp);
      if outcome.SplitDone? {
        if Consistent(clips) {
          SplitPreservesConsistency(clips, clipId, playhead, stamp);
        }
        clips := outcome.clips;
        selected := None;
      }
    }

    /** handleAddText: a five-second text clip at the playhead on the video
        track is added (and so placed by first fit), the selection becomes the
        clip as it was built, before placement, and the tool returns to select.
        A consistent store stays consistent. */
    method AddText(stamp: string)
      modifies this`clips, this`selected, this`activeTool
      ensures var c := NewTextClip(stamp, old(playhead));
        && c.kind == Text && c.track == VideoTrack && c.start == old(playhead) && c.duration == 5.0
        && clips == old(clips) + [Place(old(clips), c)]
        && selected == Some(c)
        && activeTool == Select
      ensures Consistent(old(clips)) ==> Consistent(clips)
    {
      var newClip := NewTextClip(stamp, playhead);
      AddClip(newClip);
      selected := Some(newClip);
      activeTool := Select;
    }

    /** The timeline's `setPlayhead`. */
    method SetPlayhead(value: real)
      modifies this`playhead
      ensures playhead == value
    {
      playhead := value;
    }

    /** The tool buttons' `setActiveTool`. */
    method SetActiveTool(tool: Tool)
      modifies this`activeTool
      ensures activeTool == tool
    {
      activeTool := tool;
    }
  }

  /** `clipId || selectedClip?.id`, with "" standing for a falsy result. */
  function DeleteTarget(clipId: Option<string>, selected: Option<Clip>): (id: string)
  {
    if Truthy(clipId) then clipId.value
    else if selected.Some? then selected.value.id
    else ""
  }

  /** The clip handleAddText builds: a five-second "Your Text Here" at the
      playhead on the video track, 48 px white Inter. */
  function NewTextClip(stamp: string, playhead: real): (c: Clip)
  {
    Clip("text-" + stamp, Text, "New Text", playhead, 5.0, VideoTrack,
         None, None, Some("Your Text Here"), Some(48.0), Some("#FFFFFF"), Some("Inter, sans-serif"))
  }
}

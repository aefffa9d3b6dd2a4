/** The visibility resolver of the live preview (src/components/editor/preview.tsx):
    which text clips and which video clip are shown at the playhead. */
module Preview {
  import opened Types
  import opened Seqs

  /** A clip is on screen at `t` when `t` lies in its half-open interval
      [start, start + duration). The track is not consulted. */
  predicate ActiveAt(c: Clip, t: real) {
    t >= c.start && t < End(c)
  }

  predicate IsVisibleText(c: Clip, t: real) {
    c.kind == Text && ActiveAt(c, t)
  }

  predicate IsActiveVideo(c: Clip, t: real) {
    c.kind == Video && ActiveAt(c, t)
  }

  /** `visibleTextClips`: exactly the text clips active at `t`. */
  function VisibleTextClips(clips: seq<Clip>, t: real): (r: seq<Clip>)
    ensures forall c :: c in r <==> c in clips && c.kind == Text && ActiveAt(c, t)
    ensures |r| <= |clips|
  {
    Filter(clips, (c: Clip) => IsVisibleText(c, t))
  }

  /** `activeVideoClip`: a video clip active at `t`, or none when there is none. */
  function ActiveVideoClip(clips: seq<Clip>, t: real): (r: Option<Clip>)
    ensures r.None? <==> forall c :: c in clips ==> !(c.kind == Video && ActiveAt(c, t))
    ensures r.Some? ==> r.value in clips && r.value.kind == Video && ActiveAt(r.value, t)
  {
    Find(clips, (c: Clip) => IsActiveVideo(c, t))
  }

  /** The source of the `<video>` element: the active video clip's own `src`,
      shown only when it is non-empty. */
  function ShownVideoSource(clips: seq<Clip>, t: real): (r: Option<string>)
    ensures r.Some? ==> r.value != "" && ActiveVideoClip(clips, t).Some? && r == ActiveVideoClip(clips, t).value.src
    ensures r.None? <==> ActiveVideoClip(clips, t).None? || !Truthy(ActiveVideoClip(clips, t).value.src)
  {
    var active := ActiveVideoClip(clips, t);
    if active.Some? && Truthy(active.value.src) then active.value.src else None
  }

  /** Text overlays keep list order: the result for a concatenation is the
      concatenation of the results. */
  lemma VisibleTextInListOrder(a: seq<Clip>, b: seq<Clip>, t: real)
    ensures VisibleTextClips(a + b, t) == VisibleTextClips(a, t) + VisibleTextClips(b, t)
  {
    FilterAppend(a, b, (c: Clip) => IsVisibleText(c, t));
  }

  /** The active video is the first active video clip in list order. */
  lemma ActiveVideoIsFirst(clips: seq<Clip>, t: real, i: nat)
    requires i < |clips| && clips[i].kind == Video && ActiveAt(clips[i], t)
    requires forall j :: 0 <= j < i ==> !(clips[j].kind == Video && ActiveAt(clips[j], t))
    ensures ActiveVideoClip(clips, t) == Some(clips[i])
  {
    FindFirst(clips, (c: Clip) => IsActiveVideo(c, t), i);
  }

  /** The interval is half-open: a clip of positive duration is shown at its
      start and no longer at its end. */
  lemma ShownFromStartUntilEnd(clips: seq<Clip>, c: Clip)
    requires c in clips && c.duration > 0.0
    ensures c.kind == Text ==> c in VisibleTextClips(clips, c.start)
    ensures c !in VisibleTextClips(clips, End(c))
    ensures c.kind == Video ==> ActiveVideoClip(clips, c.start).Some?
    ensures ActiveVideoClip(clips, End(c)) != Some(c)
  {
  }

  /** Only the first active video counts: if it has no source, nothing is
      shown even when a later active video clip has one. */
  lemma SourcelessActiveVideoHidesLater(a: Clip, b: Clip, t: real)
    requires a.kind == Video && ActiveAt(a, t) && a.src == None
    requires b.kind == Video && ActiveAt(b, t) && Truthy(b.src)
    ensures ShownVideoSource([a, b], t) == None
  {
    FindFirst([a, b], (c: Clip) => IsActiveVideo(c, t), 0);
  }

  /** A timeline with a video clip at [0,5) and a text clip at [1,3): at 2 the
      video and the text are shown, at 6 neither. */
  lemma PreviewScenario(v: Clip, x: Clip)
    requires v.kind == Video && v.start == 0.0 && v.duration == 5.0
    requires x.kind == Text && x.start == 1.0 && x.duration == 2.0
    ensures ActiveVideoClip([v, x], 2.0) == Some(v)
    ensures VisibleTextClips([v, x], 2.0) == [x]
    ensures ActiveVideoClip([v, x], 6.0) == None
    ensures VisibleTextClips([v, x], 6.0) == []
  {
    FindFirst([v, x], (c: Clip) => IsActiveVideo(c, 2.0), 0);
    FilterNone([v, x], (c: Clip) => IsVisibleText(c, 6.0));
    assert [v, x][1..] == [x];
    assert [x][1..] == [];
  }
}

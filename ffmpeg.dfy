/** The export compositor (src/lib/ffmpeg.ts): the part of `exportVideo` that
    lowers the clip list into the encoder's inputs, its filter graph and its
    output options, plus the file-name sanitiser and the drawtext escaping.
    The filter graph is a typed list of nodes rather than the joined string;
    how numbers are printed inside it is left abstract. */
module Export {
  import opened Types
  import opened Seqs

  // ------------------------------------------------------- file names

  /** The characters `getSafeFilename` keeps: [A-Za-z0-9], '-', '_' and '.'. */
  predicate SafeChar(ch: char) {
    ('a' <= ch <= 'z') || ('A' <= ch <= 'Z') || ('0' <= ch <= '9') || ch == '-' || ch == '_' || ch == '.'
  }

  /** `replace(/[^a-zA-Z0-9-_\.]/g, '_')`. */
  function Sanitize(s: string): (r: string)
    ensures |r| == |s|
    ensures forall i :: 0 <= i < |s| ==> r[i] == (if SafeChar(s[i]) then s[i] else '_')
  {
    if s == [] then []
    else [if SafeChar(s[0]) then s[0] else '_'] + Sanitize(s[1..])
  }

  /** getSafeFilename: sanitised, then cut to its first 50 characters. */
  function SafeFilename(text: string): (r: string)
    ensures |r| == if |text| < 50 then |text| else 50
    ensures forall i :: 0 <= i < |r| ==> r[i] == (if SafeChar(text[i]) then text[i] else '_')
    ensures forall i :: 0 <= i < |r| ==> SafeChar(r[i])
  {
    var clean := Sanitize(text);
    if |clean| <= 50 then clean else clean[..50]
  }

  /** A safe name is its own safe name. */
  lemma SafeFilenameIdempotent(text: string)
    ensures SafeFilename(SafeFilename(text)) == SafeFilename(text)
  {
    var once := SafeFilename(text);
    var twice := SafeFilename(once);
    assert |twice| == |once|;
    forall i | 0 <= i < |once| ensures twice[i] == once[i] {
      assert SafeChar(once[i]);
    }
  }

  // ------------------------------------------------------- drawtext escaping

  /** What a single quote becomes: the six characters ' \ \ \ ' '. */
  const QuoteEscape: string := ['\'', '\\', '\\', '\\', '\'', '\'']
  /** What a colon becomes: the three characters \ \ :. */
  const ColonEscape: string := ['\\', '\\', ':']

  /** `replace(/'/g, ...)`: the first pass. */
  function ReplaceQuotes(s: string): string {
    if s == [] then []
    else (if s[0] == '\'' then QuoteEscape else [s[0]]) + ReplaceQuotes(s[1..])
  }

  /** `replace(/:/g, ...)`: the second pass. */
  function ReplaceColons(s: string): string {
    if s == [] then []
    else (if s[0] == ':' then ColonEscape else [s[0]]) + ReplaceColons(s[1..])
  }

  /** The escaping applied to a text clip's content at line 87: quotes first,
      then colons. */
  function EscapeText(s: string): string {
    ReplaceColons(ReplaceQuotes(s))
  }

  /** The reference definition: each character escaped on its own. */
  function EscapeChar(ch: char): string {
    if ch == '\'' then QuoteEscape else if ch == ':' then ColonEscape else [ch]
  }

  function EscapeEach(s: string): string {
    if s == [] then [] else EscapeChar(s[0]) + EscapeEach(s[1..])
  }

  function Occurrences(s: string, ch: char): nat {
    if s == [] then 0 else (if s[0] == ch then 1 else 0) + Occurrences(s[1..], ch)
  }

  lemma {:induction false} ReplaceColonsAppend(a: string, b: string)
    ensures ReplaceColons(a + b) == ReplaceColons(a) + ReplaceColons(b)
  {
    if a == [] {
      assert a + b == b;
    } else {
      assert (a + b)[0] == a[0];
      assert (a + b)[1..] == a[1..] + b;
      ReplaceColonsAppend(a[1..], b);
    }
  }

  /** The two passes do not interfere, because the quote escape holds no
      colon: escaping in two passes equals escaping character by character. */
  lemma {:induction false} EscapeTextIsPerCharacter(s: string)
    ensures EscapeText(s) == EscapeEach(s)
  {
    if s != [] {
      EscapeTextIsPerCharacter(s[1..]);
      var head := if s[0] == '\'' then QuoteEscape else [s[0]];
      ReplaceColonsAppend(head, ReplaceQuotes(s[1..]));
      if s[0] == '\'' {
        assert ReplaceColons(QuoteEscape) == QuoteEscape by {
          assert QuoteEscape == ['\''] + QuoteEscape[1..];
          assert QuoteEscape[1..] == ['\\'] + QuoteEscape[2..];
          assert QuoteEscape[2..] == ['\\'] + QuoteEscape[3..];
          assert QuoteEscape[3..] == ['\\'] + QuoteEscape[4..];
          assert QuoteEscape[4..] == ['\''] + QuoteEscape[5..];
          assert QuoteEscape[5..] == ['\''] + [];
        }
      } else {
        assert [s[0]][1..] == [];
      }
    }
  }

  /** Each quote adds five characters and each colon two. */
  lemma {:induction false} EscapeLength(s: string)
    ensures |EscapeText(s)| == |s| + 5 * Occurrences(s, '\'') + 2 * Occurrences(s, ':')
  {
    EscapeTextIsPerCharacter(s);
    EachLength(s);
  }

  lemma {:induction false} EachLength(s: string)
    ensures |EscapeEach(s)| == |s| + 5 * Occurrences(s, '\'') + 2 * Occurrences(s, ':')
  {
    if s != [] {
      EachLength(s[1..]);
    }
  }

  /** Text without quotes or colons passes through unchanged. */
  lemma {:induction false} EscapePlainText(s: string)
    requires forall i :: 0 <= i < |s| ==> s[i] != '\'' && s[i] != ':'
    ensures EscapeText(s) == s
  {
    EscapeTextIsPerCharacter(s);
    EachPlain(s);
  }

  lemma {:induction false} EachPlain(s: string)
    requires forall i :: 0 <= i < |s| ==> s[i] != '\'' && s[i] != ':'
    ensures EscapeEach(s) == s
  {
    if s != [] {
      assert forall i :: 0 <= i < |s[1..]| ==> s[1..][i] == s[i + 1];
      EachPlain(s[1..]);
      assert s == [s[0]] + s[1..];
    }
  }

  // ------------------------------------------------------- partition and duration

  /** `clips.filter(c => c.type === kind)`. */
  function ClipsOfType(clips: seq<Clip>, kind: ClipType): (r: seq<Clip>)
    ensures forall c :: c in r <==> c in clips && c.kind == kind
    ensures |r| <= |clips|
  {
    Filter(clips, (c: Clip) => c.kind == kind)
  }

  /** The three lists partition the clips: every clip is in exactly one, so
      their lengths add up to the whole. */
  lemma {:induction false} TypesPartitionClips(clips: seq<Clip>)
    ensures |ClipsOfType(clips, Video)| + |ClipsOfType(clips, Audio)| + |ClipsOfType(clips, Text)| == |clips|
  {
    if clips != [] {
      TypesPartitionClips(clips[1..]);
    }
  }

  /** `Math.max(...clips.map(c => c.start + c.duration), 0)`: the latest clip
      end, never below 0. */
  function TotalDuration(clips: seq<Clip>): (d: real)
    ensures d >= 0.0
    ensures forall c :: c in clips ==> End(c) <= d
    ensures d == 0.0 || exists c :: c in clips && End(c) == d
  {
    if clips == [] then 0.0
    else
      var rest := TotalDuration(clips[1..]);
      assert forall c :: c in clips ==> c == clips[0] || c in clips[1..];
      Max(End(clips[0]), rest)
  }

  // ------------------------------------------------------- inputs

  /** The inputs registered with the encoder: the `-i` file names, and the
      stream labels the loop records (videos from 0, audios offset by the
      videos registered before them). */
  datatype Registration = Registration(files: seq<string>, videoStreams: seq<nat>, audioStreams: seq<nat>)

  /** The file a clip is written to: getSafeFilename(`${id}-${name}`). */
  function InputFileName(c: Clip): string {
    SafeFilename(c.id + "-" + c.name)
  }

  /** `if (clip.src)`: the clip has a non-empty source and so gets an input. */
  predicate HasSrc(c: Clip) { Truthy(c.src) }

  /** One turn of the registration loop: a clip without a truthy `src`
      registers nothing. */
  function RegisterStep(r: Registration, c: Clip): Registration {
    if !HasSrc(c) then r
    else
      var files := r.files + [InputFileName(c)];
      if c.kind == Video then Registration(files, r.videoStreams + [|r.videoStreams|], r.audioStreams)
      else if c.kind == Audio then Registration(files, r.videoStreams, r.audioStreams + [|r.audioStreams| + |r.videoStreams|])
      else Registration(files, r.videoStreams, r.audioStreams)
  }

  /** The registration loop continued from `r` over the clips `s`. */
  function RegisterFrom(r: Registration, s: seq<Clip>): Registration
    decreases |s|
  {
    if s == [] then r else RegisterFrom(RegisterStep(r, s[0]), s[1..])
  }

  const NoInputs := Registration([], [], [])

  /** The registration loop over a list of clips. */
  function Register(s: seq<Clip>): Registration {
    RegisterFrom(NoInputs, s)
  }

  /** The clips the loop registers, in order: those with a truthy `src`. */
  function Sourced(s: seq<Clip>): seq<Clip> {
    if s == [] then [] else (if HasSrc(s[0]) then [s[0]] else []) + Sourced(s[1..])
  }

  function FileNames(s: seq<Clip>): (r: seq<string>)
    ensures |r| == |s|
  {
    if s == [] then [] else [InputFileName(s[0])] + FileNames(s[1..])
  }

  /** Entry i of the file list is the file of clip i. */
  lemma {:induction false} FileNameAt(s: seq<Clip>, i: nat)
    requires i < |s|
    ensures FileNames(s)[i] == InputFileName(s[i])
  {
    if i > 0 {
      FileNameAt(s[1..], i - 1);
    }
  }

  /** The stream labels from, from + 1, ..., from + n - 1. */
  function Numbered(from: nat, n: nat): (r: seq<nat>)
    decreases n
    ensures |r| == n
  {
    if n == 0 then [] else [from] + Numbered(from + 1, n - 1)
  }

  /** Label j of the run is from + j. */
  lemma {:induction false} NumberedAt(from: nat, n: nat, j: nat)
    requires j < n
    ensures Numbered(from, n)[j] == from + j
    decreases n
  {
    if j > 0 {
      NumberedAt(from + 1, n - 1, j - 1);
    }
  }

  /** One step of the file list: the first clip's file, if it has a source,
      comes before the files of the rest. */
  lemma {:induction false} SourcedFileNames(s: seq<Clip>)
    requires s != []
    ensures FileNames(Sourced(s))
      == (if HasSrc(s[0]) then [InputFileName(s[0])] else []) + FileNames(Sourced(s[1..]))
    ensures |Sourced(s)| == (if HasSrc(s[0]) then 1 else 0) + |Sourced(s[1..])|
  {
    var rest := Sourced(s[1..]);
    if HasSrc(s[0]) {
      assert Sourced(s) == [s[0]] + rest;
      assert ([s[0]] + rest)[0] == s[0];
      assert ([s[0]] + rest)[1..] == rest;
    } else {
      assert Sourced(s) == [] + rest;
      assert [] + rest == rest;
    }
  }

  /** Appending one label and then the run after it is appending the run
      that starts with that label. */
  lemma NumberedStep(s: seq<nat>, from: nat, n: nat)
    ensures (s + [from]) + Numbered(from + 1, n) == s + Numbered(from, n + 1)
  {
    assert Numbered(from, n + 1) == [from] + Numbered(from + 1, n);
  }

  /** Continuing the loop over two lists is continuing over the first, then
      over the second. */
  lemma {:induction false} RegisterFromAppend(r: Registration, v: seq<Clip>, a: seq<Clip>)
    ensures RegisterFrom(r, v + a) == RegisterFrom(RegisterFrom(r, v), a)
    decreases |v|
  {
    if v == [] {
      assert v + a == a;
    } else {
      assert (v + a)[0] == v[0];
      assert (v + a)[1..] == v[1..] + a;
      RegisterFromAppend(RegisterStep(r, v[0]), v[1..], a);
    }
  }

  /** Whatever their kind, the loop appends the file of every clip with a
      source, in order. */
  lemma {:induction false} RegisterFiles(r: Registration, s: seq<Clip>)
    ensures RegisterFrom(r, s).files == r.files + FileNames(Sourced(s))
    decreases |s|
  {
    if s != [] {
      var next := RegisterStep(r, s[0]);
      RegisterFiles(next, s[1..]);
      SourcedFileNames(s);
      if HasSrc(s[0]) {
        assert next.files == r.files + [InputFileName(s[0])];
        assert RegisterFrom(r, s).files == (r.files + [InputFileName(s[0])]) + FileNames(Sourced(s[1..]));
      }
    }
  }

  /** Over video clips: the video streams go on counting, one per clip with a
      source, and the audio streams are untouched. */
  lemma {:induction false} RegisterVideos(r: Registration, v: seq<Clip>)
    requires forall i :: 0 <= i < |v| ==> v[i].kind == Video
    ensures var q := RegisterFrom(r, v);
      && q.videoStreams == r.videoStreams + Numbered(|r.videoStreams|, |Sourced(v)|)
      && q.audioStreams == r.audioStreams
    decreases |v|
  {
    if v != [] {
      var next := RegisterStep(r, v[0]);
      RegisterVideos(next, v[1..]);
      SourcedFileNames(v);
      assert RegisterFrom(r, v) == RegisterFrom(next, v[1..]);
      if HasSrc(v[0]) {
        var from := |r.videoStreams|;
        var n := |Sourced(v[1..])|;
        VideoStep(r, v[0]);
        NumberedStep(r.videoStreams, from, n);
      } else {
        assert next == r;
      }
    }
  }

  /** One turn of the loop on a video clip with a source. */
  lemma VideoStep(r: Registration, c: Clip)
    requires c.kind == Video && HasSrc(c)
    ensures RegisterStep(r, c)
      == Registration(r.files + [InputFileName(c)], r.videoStreams + [|r.videoStreams|], r.audioStreams)
  {
  }

  /** Over audio clips: the video streams are untouched, and each audio clip
      with a source gets a stream numbered after every stream registered
      before it, `from` being the count of those. */
  lemma {:induction false} RegisterAudios(r: Registration, a: seq<Clip>, from: nat)
    requires forall j :: 0 <= j < |a| ==> a[j].kind == Audio
    requires from == |r.videoStreams| + |r.audioStreams|
    ensures RegisterFrom(r, a).videoStreams == r.videoStreams
    ensures RegisterFrom(r, a).audioStreams == r.audioStreams + Numbered(from, |Sourced(a)|)
    decreases |a|
  {
    if a != [] {
      var next := RegisterStep(r, a[0]);
      SourcedFileNames(a);
      if HasSrc(a[0]) {
        assert RegisterFrom(r, a) == RegisterFrom(next, a[1..]);
        AudioStep(r, a[0]);
        RegisterAudios(next, a[1..], from + 1);
        NumberedStep(r.audioStreams, from, |Sourced(a[1..])|);
      } else {
        assert next == r;
        assert RegisterFrom(r, a) == RegisterFrom(r, a[1..]);
        RegisterAudios(r, a[1..], from);
      }
    }
  }

  /** One turn of the loop on an audio clip with a source. */
  lemma AudioStep(r: Registration, c: Clip)
    requires c.kind == Audio && HasSrc(c)
    ensures RegisterStep(r, c)
      == Registration(r.files + [InputFileName(c)], r.videoStreams, r.audioStreams + [|r.videoStreams| + |r.audioStreams|])
  {
  }

  /** The inputs for the video clips followed by the audio clips: the files
      of the video clips with a source, then those of the audio clips with a
      source; the video streams are numbered 0, 1, ... and the audio streams
      carry on after the last registered video. */
  lemma {:induction false} RegisterVideosThenAudios(v: seq<Clip>, a: seq<Clip>)
    requires forall i :: 0 <= i < |v| ==> v[i].kind == Video
    requires forall j :: 0 <= j < |a| ==> a[j].kind == Audio
    ensures var q := Register(v + a); var sv := Sourced(v); var sa := Sourced(a);
      && q.files == FileNames(sv) + FileNames(sa)
      && q.videoStreams == Numbered(0, |sv|)
      && q.audioStreams == Numbered(|sv|, |sa|)
  {
    RegisterFromAppend(NoInputs, v, a);
    RegisterVideos(NoInputs, v);
    RegisterFiles(NoInputs, v);
    var mid := RegisterFrom(NoInputs, v);
    assert mid.files == FileNames(Sourced(v));
    assert mid.videoStreams == Numbered(0, |Sourced(v)|);
    assert mid.audioStreams == [];
    RegisterAudios(mid, a, |Sourced(v)|);
    RegisterFiles(mid, a);
    assert Register(v + a) == RegisterFrom(mid, a);
  }

  // ------------------------------------------------------- the filter graph

  /** The link labels of the graph: [base], [v<i>], [vt<i>], [a<i>], [aout]. */
  datatype Label = BaseOut | VideoOut(index: nat) | TextOut(index: nat) | AudioOut(index: nat) | MixOut

  /** How a node names its visual input: `[label]`, or the bare label text
      that the drawtext filters are given. */
  datatype Pad = Bracketed(link: Label) | Bare(link: Label)

  /** One filter of `-filter_complex`. `from` and `until` are the bounds of
      the `enable='between(t,from,until)'` gate. */
  datatype Node =
    | Base(width: nat, height: nat, color: string, duration: real, out: Label)
    | Overlay(input: Pad, stream: nat, from: real, until: real, out: Label)
    | DrawText(input: Pad, text: string, fontFile: Option<string>, fontSize: real, fontColor: string,
               from: real, until: real, out: Label)
    | ADelay(stream: nat, delayMs: real, out: Label)
    | AMix(inputs: seq<Label>, count: nat, out: Label)

  /** FONT_MAP: the font files for the four font families the editor offers. */
  const FontMap: map<string, string> := map[
    "Inter, sans-serif" := "/Inter-Regular.ttf",
    "Roboto, sans-serif" := "/Roboto-Regular.ttf",
    "Lobster, cursive" := "/Lobster-Regular.ttf",
    "\"Courier Prime\", monospace" := "/CourierPrime-Regular.ttf"]

  /** `FONT_MAP[fontFamily]`; None where the source reads `undefined`. */
  function FontFile(family: string): Option<string> {
    if family in FontMap then Some(FontMap[family]) else None
  }

  /** `color=s=1080x1920:c=black:d=<total>[base]`. */
  function BaseNode(total: real): Node {
    Base(1080, 1920, "black", total, BaseOut)
  }

  /** The overlay chain: node i reads the previous output and input i, and is
      gated on video clip i's interval. Input i is the clip's position among
      all video clips, registered or not. */
  function OverlayNodes(videos: seq<Clip>): (r: seq<Node>)
    ensures |r| == |videos|
  {
    seq(|videos|, i requires 0 <= i < |videos| =>
      Overlay(Bracketed(if i == 0 then BaseOut else VideoOut(i - 1)), i, videos[i].start, End(videos[i]), VideoOut(i)))
  }

  /** `clip.text && clip.fontFamily && clip.fontSize && clip.color`. */
  predicate Drawable(c: Clip) {
    Truthy(c.text) && Truthy(c.fontFamily) && c.fontSize.Some? && c.fontSize.value != 0.0 && Truthy(c.color)
  }

  function DrawTextNode(c: Clip, last: Label, index: nat): Node
    requires Drawable(c)
  {
    DrawText(Bare(last), EscapeText(c.text.value), FontFile(c.fontFamily.value), c.fontSize.value,
             c.color.value, c.start, End(c), TextOut(index))
  }

  /** The text loop: text clip `index` that is drawable appends a drawtext
      node fed by the current last output and becomes the last output; the
      others are skipped. Returns the nodes and the final last output. */
  function TextChain(texts: seq<Clip>, start: Label): (seq<Node>, Label) {
    if texts == [] then ([], start)
    else
      var prev := TextChain(texts[..|texts| - 1], start);
      var i := |texts| - 1;
      if Drawable(texts[i]) then (prev.0 + [DrawTextNode(texts[i], prev.1, i)], TextOut(i))
      else prev
  }

  /** The audio stage: one delay per audio clip, reading input
      `videoCount + index` and delaying both channels by start * 1000 ms,
      then one mix of all of them; nothing at all when there is no audio clip. */
  function AudioNodes(videoCount: nat, audios: seq<Clip>): (r: seq<Node>)
    ensures |r| == if |audios| == 0 then 0 else |audios| + 1
  {
    if |audios| == 0 then []
    else DelayNodes(videoCount, audios) + [MixNode(|audios|)]
  }

  function DelayNodes(videoCount: nat, audios: seq<Clip>): (r: seq<Node>)
    ensures |r| == |audios|
  {
    seq(|audios|, j requires 0 <= j < |audios| => ADelay(videoCount + j, audios[j].start * 1000.0, AudioOut(j)))
  }

  function MixNode(n: nat): Node {
    AMix(seq(n, j requires 0 <= j < n => AudioOut(j)), n, MixOut)
  }

  /** The output of the overlay chain: the last overlay, or the base. */
  function LastOverlay(videos: seq<Clip>): Label {
    if |videos| == 0 then BaseOut else VideoOut(|videos| - 1)
  }

  /** The filters of `-filter_complex`, in order: the base, the overlays, the
      drawtexts and the audio stage. */
  function Graph(videos: seq<Clip>, texts: seq<Clip>, audios: seq<Clip>, total: real): seq<Node> {
    VisualChain(videos, texts, total) + AudioNodes(|videos|, audios)
  }

  /** The base, the overlays and the drawtexts, in the order they are pushed. */
  function VisualChain(videos: seq<Clip>, texts: seq<Clip>, total: real): (r: seq<Node>)
    ensures |r| == 1 + |videos| + |TextChain(texts, LastOverlay(videos)).0|
  {
    [BaseNode(total)] + OverlayNodes(videos) + TextChain(texts, LastOverlay(videos)).0
  }

  /** The encoder invocation without the I/O: the registered inputs, the
      filters, the `-map` outputs and the output options. */
  datatype Plan = Plan(
    inputs: Registration,
    filters: seq<Node>,
    videoMap: Label,
    audioMap: Option<Label>,
    audioCodec: Option<string>,
    videoCodec: string,
    preset: string,
    duration: real,
    output: string)

  /** What exportVideo builds from a clip list. */
  function ExportPlan(clips: seq<Clip>): Plan {
    var videos := ClipsOfType(clips, Video);
    var audios := ClipsOfType(clips, Audio);
    var texts := ClipsOfType(clips, Text);
    var total := TotalDuration(clips);
    Plan(
      Register(videos + audios),
      Graph(videos, texts, audios, total),
      TextChain(texts, LastOverlay(videos)).1,
      if |audios| > 0 then Some(MixOut) else None,
      if |audios| > 0 then Some("aac") else None,
      "libx264",
      "ultrafast",
      total,
      "output.mp4")
  }

  /** The text chain has one node per drawable text clip. */
  lemma {:induction false} TextChainCount(texts: seq<Clip>, start: Label)
    ensures |TextChain(texts, start).0| == |Filter(texts, Drawable)|
  {
    if texts != [] {
      TextChainCount(texts[..|texts| - 1], start);
      FilterSnoc(texts, Drawable);
    }
  }

  /** The text chain is linear: each node is a drawtext, the first reads the
      chain's start, every other reads the previous node's output, and the
      chain's last output is its last node's output, or the start when nothing
      is drawn. */
  lemma {:induction false} TextChainLinks(texts: seq<Clip>, start: Label)
    ensures var nodes := TextChain(texts, start).0;
      && TextChain(texts, start).1 == (if |nodes| == 0 then start else nodes[|nodes| - 1].out)
      && (forall k :: 0 <= k < |nodes| ==> nodes[k].DrawText?)
      && (|nodes| > 0 ==> nodes[0].input == Bare(start))
      && (forall k :: 0 < k < |nodes| ==> nodes[k].input == Bare(nodes[k - 1].out))
  {
    if texts != [] {
      var init := texts[..|texts| - 1];
      TextChainLinks(init, start);
    }
  }

  /** Node k of the text chain draws the k-th drawable text clip: its escaped
      text, over its interval, in the font file of its family, with its font
      size and color. */
  lemma {:induction false} TextChainContent(texts: seq<Clip>, start: Label)
    ensures var nodes := TextChain(texts, start).0; var drawn := Filter(texts, Drawable);
      |nodes| == |drawn| &&
      forall k :: 0 <= k < |nodes| ==>
        && drawn[k].text.Some? && drawn[k].fontSize.Some? && drawn[k].color.Some?
        && nodes[k].DrawText?
        && nodes[k].text == EscapeText(drawn[k].text.value)
        && drawn[k].fontFamily.Some? && nodes[k].fontFile == FontFile(drawn[k].fontFamily.value)
        && nodes[k].fontSize == drawn[k].fontSize.value
        && nodes[k].fontColor == drawn[k].color.value
        && nodes[k].from == drawn[k].start && nodes[k].until == End(drawn[k])
  {
    TextChainCount(texts, start);
    if texts != [] {
      var init := texts[..|texts| - 1];
      TextChainContent(init, start);
      FilterSnoc(texts, Drawable);
      var drawn := Filter(texts, Drawable);
      assert forall k :: 0 <= k < |drawn| ==> drawn[k] in drawn;
    }
  }

  // ------------------------------------------------------- properties of the plan

  /** The graph's length, and its first node, the base. */
  lemma GraphLength(videos: seq<Clip>, texts: seq<Clip>, audios: seq<Clip>, total: real)
    ensures var g := Graph(videos, texts, audios, total);
      && |g| == 1 + |videos| + |TextChain(texts, LastOverlay(videos)).0| + |AudioNodes(|videos|, audios)|
      && g[0] == BaseNode(total)
  {
  }

  /** Nodes 1 to (number of video clips) are the overlays. */
  lemma GraphAtOverlay(videos: seq<Clip>, texts: seq<Clip>, audios: seq<Clip>, total: real, k: int)
    requires 1 <= k <= |videos|
    ensures k < |Graph(videos, texts, audios, total)|
    ensures Graph(videos, texts, audios, total)[k] == OverlayNodes(videos)[k - 1]
  {
    var g := Graph(videos, texts, audios, total);
    var front := [BaseNode(total)] + OverlayNodes(videos);
    assert g == front + (TextChain(texts, LastOverlay(videos)).0 + AudioNodes(|videos|, audios));
    assert front[k] == OverlayNodes(videos)[k - 1];
  }

  /** The drawtexts follow the overlays. */
  lemma GraphAtText(videos: seq<Clip>, texts: seq<Clip>, audios: seq<Clip>, total: real, k: int)
    requires |videos| < k <= |videos| + |TextChain(texts, LastOverlay(videos)).0|
    ensures k < |Graph(videos, texts, audios, total)|
    ensures Graph(videos, texts, audios, total)[k] == TextChain(texts, LastOverlay(videos)).0[k - 1 - |videos|]
  {
    var g := Graph(videos, texts, audios, total);
    var text := TextChain(texts, LastOverlay(videos)).0;
    var front := [BaseNode(total)] + OverlayNodes(videos) + text;
    assert g == front + AudioNodes(|videos|, audios);
    assert front[k] == text[k - 1 - |videos|];
  }

  /** The audio nodes come last. */
  lemma GraphAtAudio(videos: seq<Clip>, texts: seq<Clip>, audios: seq<Clip>, total: real, j: int)
    requires 0 <= j < |AudioNodes(|videos|, audios)|
    ensures var k := 1 + |videos| + |TextChain(texts, LastOverlay(videos)).0| + j;
      && k < |Graph(videos, texts, audios, total)|
      && Graph(videos, texts, audios, total)[k] == AudioNodes(|videos|, audios)[j]
  {
    var front := VisualChain(videos, texts, total);
    var audio := AudioNodes(|videos|, audios);
    assert Graph(videos, texts, audios, total) == front + audio;
    assert (front + audio)[|front| + j] == audio[j];
  }

  /** Delay j reads input videoCount + j. */
  lemma DelayAt(videoCount: nat, audios: seq<Clip>, j: nat)
    requires j < |audios|
    ensures AudioNodes(videoCount, audios)[j] == ADelay(videoCount + j, audios[j].start * 1000.0, AudioOut(j))
  {
    assert AudioNodes(videoCount, audios) == DelayNodes(videoCount, audios) + [MixNode(|audios|)];
  }

  /** The audio stage on its own: one delay per audio clip, then the mix. */
  lemma AudioNodesShape(videoCount: nat, audios: seq<Clip>)
    ensures var audio := AudioNodes(videoCount, audios);
      && (forall k :: 0 <= k < |audio| ==> audio[k].ADelay? || audio[k].AMix?)
      && (forall j :: 0 <= j < |audios| ==>
            audio[j] == ADelay(videoCount + j, audios[j].start * 1000.0, AudioOut(j)))
      && (|audios| > 0 ==> audio[|audios|] == MixNode(|audios|))
  {
    if |audios| > 0 {
      assert AudioNodes(videoCount, audios) == DelayNodes(videoCount, audios) + [MixNode(|audios|)];
    }
  }

  /** The visual part of the graph is one linear chain: the black base first,
      then one overlay per video clip, reading input i (the clip's position
      among the video clips) over the clip's interval, then the drawtexts;
      every node reads the previous node's output, and the chain ends in the
      text chain's last output. */
  lemma GraphVisualChain(videos: seq<Clip>, texts: seq<Clip>, audios: seq<Clip>, total: real)
    ensures var g := Graph(videos, texts, audios, total); var text := TextChain(texts, LastOverlay(videos));
      var chain := |videos| + |text.0|;
      && |g| > chain
      && g[0] == Base(1080, 1920, "black", total, BaseOut)
      && (forall k :: 1 <= k <= |videos| ==>
            && g[k].Overlay?
            && g[k].input == Bracketed(g[k - 1].out)
            && g[k].stream == k - 1
            && g[k].from == videos[k - 1].start && g[k].until == End(videos[k - 1]))
      && (forall k :: |videos| < k <= chain ==> g[k].DrawText? && g[k].input == Bare(g[k - 1].out))
      && text.1 == g[chain].out
  {
    var g := Graph(videos, texts, audios, total);
    var V := |videos|;
    var T := |TextChain(texts, LastOverlay(videos)).0|;
    GraphLength(videos, texts, audios, total);
    forall k | 1 <= k <= V
      ensures g[k].Overlay? && g[k].input == Bracketed(g[k - 1].out) && g[k].stream == k - 1
      ensures g[k].from == videos[k - 1].start && g[k].until == End(videos[k - 1])
    {
      OverlayLinkAt(videos, texts, audios, total, k);
    }
    forall k | V < k <= V + T
      ensures g[k].DrawText? && g[k].input == Bare(g[k - 1].out)
    {
      TextLinkAt(videos, texts, audios, total, k);
    }
    ChainEnd(videos, texts, audios, total);
  }

  /** Node V is the overlay chain's output: the last overlay, or the base. */
  lemma OverlayEnd(videos: seq<Clip>, texts: seq<Clip>, audios: seq<Clip>, total: real)
    ensures |videos| < |Graph(videos, texts, audios, total)|
    ensures Graph(videos, texts, audios, total)[|videos|].out == LastOverlay(videos)
  {
    GraphLength(videos, texts, audios, total);
    if |videos| > 0 {
      GraphAtOverlay(videos, texts, audios, total, |videos|);
    }
  }

  /** Overlay k reads node k - 1 and input k - 1 over video clip k - 1's interval. */
  lemma OverlayLinkAt(videos: seq<Clip>, texts: seq<Clip>, audios: seq<Clip>, total: real, k: int)
    requires 1 <= k <= |videos|
    ensures var g := Graph(videos, texts, audios, total);
      && k < |g| && g[k].Overlay? && g[k].input == Bracketed(g[k - 1].out) && g[k].stream == k - 1
      && g[k].from == videos[k - 1].start && g[k].until == End(videos[k - 1])
  {
    GraphLength(videos, texts, audios, total);
    GraphAtOverlay(videos, texts, audios, total, k);
    if k > 1 {
      GraphAtOverlay(videos, texts, audios, total, k - 1);
    }
  }

  /** Drawtext k reads node k - 1 by its bare label. */
  lemma TextLinkAt(videos: seq<Clip>, texts: seq<Clip>, audios: seq<Clip>, total: real, k: int)
    requires |videos| < k <= |videos| + |TextChain(texts, LastOverlay(videos)).0|
    ensures var g := Graph(videos, texts, audios, total);
      && k < |g| && g[k].DrawText? && g[k].input == Bare(g[k - 1].out)
  {
    var V := |videos|;
    var text := TextChain(texts, LastOverlay(videos)).0;
    TextChainLinks(texts, LastOverlay(videos));
    GraphAtText(videos, texts, audios, total, k);
    if k > V + 1 {
      GraphAtText(videos, texts, audios, total, k - 1);
      assert text[k - 1 - V].input == Bare(text[k - 2 - V].out);
    } else {
      OverlayEnd(videos, texts, audios, total);
    }
  }

  /** The base comes first and the chain ends in the text chain's output. */
  lemma ChainEnd(videos: seq<Clip>, texts: seq<Clip>, audios: seq<Clip>, total: real)
    ensures var g := Graph(videos, texts, audios, total); var text := TextChain(texts, LastOverlay(videos));
      && |g| > |videos| + |text.0|
      && g[0] == Base(1080, 1920, "black", total, BaseOut)
      && text.1 == g[|videos| + |text.0|].out
  {
    var T := |TextChain(texts, LastOverlay(videos)).0|;
    GraphLength(videos, texts, audios, total);
    TextChainLinks(texts, LastOverlay(videos));
    if T > 0 {
      GraphAtText(videos, texts, audios, total, |videos| + T);
    } else {
      OverlayEnd(videos, texts, audios, total);
    }
  }

  /** The audio stage: the audio nodes are exactly the nodes after the visual
      chain: one delay per audio clip, reading input
      (number of video clips) + j and delayed by its start in milliseconds,
      then a mix whose inputs are the delays' outputs. */
  lemma GraphAudioStage(videos: seq<Clip>, texts: seq<Clip>, audios: seq<Clip>, total: real, chain: int)
    requires chain == |videos| + |TextChain(texts, LastOverlay(videos)).0|
    ensures var g := Graph(videos, texts, audios, total);
      && |g| == 1 + chain + (if |audios| == 0 then 0 else |audios| + 1)
      && (forall k :: 0 <= k < |g| ==> ((g[k].ADelay? || g[k].AMix?) <==> k > chain))
      && (forall j :: 0 <= j < |audios| ==>
            g[1 + chain + j] == ADelay(|videos| + j, audios[j].start * 1000.0, AudioOut(j)))
      && (|audios| > 0 ==>
            var mix := g[|g| - 1];
            && mix.AMix? && mix.count == |audios| == |mix.inputs| && mix.out == MixOut
            && forall j :: 0 <= j < |audios| ==> mix.inputs[j] == g[1 + chain + j].out)
  {
    var front := VisualChain(videos, texts, total);
    assert Graph(videos, texts, audios, total) == front + AudioNodes(|videos|, audios);
    VisualChainHasNoAudio(videos, texts, total);
    AudioTail(front, |videos|, audios, chain, Graph(videos, texts, audios, total));
  }

  /** The visual chain holds no audio node. */
  lemma VisualChainHasNoAudio(videos: seq<Clip>, texts: seq<Clip>, total: real)
    ensures var front := VisualChain(videos, texts, total);
      forall k :: 0 <= k < |front| ==> !front[k].ADelay? && !front[k].AMix?
  {
    var text := TextChain(texts, LastOverlay(videos)).0;
    TextChainLinks(texts, LastOverlay(videos));
    var front := VisualChain(videos, texts, total);
    forall k | 0 <= k < |front| ensures !front[k].ADelay? && !front[k].AMix? {
      if 0 < k <= |videos| {
        assert front[k] == OverlayNodes(videos)[k - 1];
      } else if k > |videos| {
        assert front[k] == text[k - 1 - |videos|];
      }
    }
  }

  /** The audio nodes appended after a chain that holds none: the delays and
      the mix are exactly the nodes past the chain, delay j reads input
      (videoCount + j), and the mix reads every delay's output in order. */
  lemma AudioTail(front: seq<Node>, videoCount: nat, audios: seq<Clip>, chain: int, g: seq<Node>)
    requires |front| == chain + 1
    requires forall k :: 0 <= k < |front| ==> !front[k].ADelay? && !front[k].AMix?
    requires g == front + AudioNodes(videoCount, audios)
    ensures
      && |g| == 1 + chain + (if |audios| == 0 then 0 else |audios| + 1)
      && (forall k :: 0 <= k < |g| ==> ((g[k].ADelay? || g[k].AMix?) <==> k > chain))
      && (forall j :: 0 <= j < |audios| ==>
            g[1 + chain + j] == ADelay(videoCount + j, audios[j].start * 1000.0, AudioOut(j)))
      && (|audios| > 0 ==>
            var mix := g[|g| - 1];
            && mix.AMix? && mix.count == |audios| == |mix.inputs| && mix.out == MixOut
            && forall j :: 0 <= j < |audios| ==> mix.inputs[j] == g[1 + chain + j].out)
  {
    var audio := AudioNodes(videoCount, audios);
    AudioNodesShape(videoCount, audios);
    forall k | 0 <= k < |g| ensures (g[k].ADelay? || g[k].AMix?) <==> k > chain {
      if k > chain {
        assert g[k] == audio[k - |front|];
      } else {
        assert g[k] == front[k];
      }
    }
    forall j | 0 <= j < |audios|
      ensures g[1 + chain + j] == ADelay(videoCount + j, audios[j].start * 1000.0, AudioOut(j))
    {
      assert g[|front| + j] == audio[j];
    }
    if |audios| > 0 {
      assert g[|g| - 1] == audio[|audios|] == MixNode(|audios|);
    }
  }

  /** For a whole clip list: the base lasts the total duration, there is one
      overlay per video clip and one drawtext per drawable text clip, and the
      mapped video is the last node of that chain (the base when it is alone). */
  lemma PlanVisualChain(clips: seq<Clip>)
    ensures var p := ExportPlan(clips);
      var chain := |ClipsOfType(clips, Video)| + |Filter(ClipsOfType(clips, Text), Drawable)|;
      && |p.filters| > chain
      && p.filters[0] == Base(1080, 1920, "black", p.duration, BaseOut)
      && (forall k :: 1 <= k <= chain ==>
            (p.filters[k].Overlay? || p.filters[k].DrawText?) && p.filters[k].input.link == p.filters[k - 1].out)
      && p.videoMap == p.filters[chain].out
  {
    var videos := ClipsOfType(clips, Video);
    var texts := ClipsOfType(clips, Text);
    TextChainCount(texts, LastOverlay(videos));
    GraphVisualChain(videos, texts, ClipsOfType(clips, Audio), TotalDuration(clips));
  }

  /** For a whole clip list: a mapped audio output and the aac codec exist
      exactly when some clip is an audio clip, and the audio nodes come after
      the visual chain. */
  lemma PlanAudioStage(clips: seq<Clip>)
    ensures var p := ExportPlan(clips); var audios := ClipsOfType(clips, Audio);
      var chain := |ClipsOfType(clips, Video)| + |Filter(ClipsOfType(clips, Text), Drawable)|;
      && (p.audioMap.Some? <==> exists c :: c in clips && c.kind == Audio)
      && (p.audioCodec.Some? <==> p.audioMap.Some?)
      && (p.audioMap.Some? ==> p.audioMap == Some(p.filters[|p.filters| - 1].out))
      && |p.filters| == 1 + chain + (if |audios| == 0 then 0 else |audios| + 1)
      && (forall k :: 0 <= k < |p.filters| ==> ((p.filters[k].ADelay? || p.filters[k].AMix?) <==> k > chain))
  {
    var videos := ClipsOfType(clips, Video);
    var texts := ClipsOfType(clips, Text);
    var audios := ClipsOfType(clips, Audio);
    TextChainCount(texts, LastOverlay(videos));
    GraphAudioStage(videos, texts, audios, TotalDuration(clips), |videos| + |TextChain(texts, LastOverlay(videos)).0|);
    if |audios| > 0 {
      assert audios[0] in audios;
    } else {
      assert forall c :: c in clips && c.kind == Audio ==> c in audios;
    }
  }

  /** The registered inputs, in the order the graph numbers them. */
  lemma PlanInputs(clips: seq<Clip>)
    ensures var p := ExportPlan(clips);
      var sv := Sourced(ClipsOfType(clips, Video)); var sa := Sourced(ClipsOfType(clips, Audio));
      && p.inputs.files == FileNames(sv) + FileNames(sa)
      && p.inputs.videoStreams == Numbered(0, |sv|)
      && p.inputs.audioStreams == Numbered(|sv|, |sa|)
  {
    var videos := ClipsOfType(clips, Video);
    var audios := ClipsOfType(clips, Audio);
    assert forall i :: 0 <= i < |videos| ==> videos[i] in videos;
    assert forall j :: 0 <= j < |audios| ==> audios[j] in audios;
    RegisterVideosThenAudios(videos, audios);
  }

  /** With every clip sourced, the loop registers all of them. */
  lemma {:induction false} SourcedAll(s: seq<Clip>)
    requires forall i :: 0 <= i < |s| ==> HasSrc(s[i])
    ensures Sourced(s) == s
  {
    if s != [] {
      SourcedAll(s[1..]);
      assert s == [s[0]] + s[1..];
    }
  }

  /** The stream each overlay and each delay reads: overlay k reads input
      k - 1, delay j reads input (number of video clips) + j. */
  lemma GraphStreams(videos: seq<Clip>, texts: seq<Clip>, audios: seq<Clip>, total: real)
    ensures var g := Graph(videos, texts, audios, total);
      var chain := |videos| + |TextChain(texts, LastOverlay(videos)).0|;
      && |g| == 1 + chain + (if |audios| == 0 then 0 else |audios| + 1)
      && (forall k :: 1 <= k <= |videos| ==> g[k].Overlay? && g[k].stream == k - 1)
      && (forall k :: chain < k <= chain + |audios| ==> g[k].ADelay? && g[k].stream == |videos| + (k - 1 - chain))
  {
    GraphVisualChain(videos, texts, audios, total);
    GraphAudioStage(videos, texts, audios, total, |videos| + |TextChain(texts, LastOverlay(videos)).0|);
  }

  /** With every clip sourced, the files are those of all the video clips and
      then all the audio clips, and the streams count through them. */
  lemma RegisterAllSourced(videos: seq<Clip>, audios: seq<Clip>)
    requires forall i :: 0 <= i < |videos| ==> videos[i].kind == Video && HasSrc(videos[i])
    requires forall j :: 0 <= j < |audios| ==> audios[j].kind == Audio && HasSrc(audios[j])
    ensures var r := Register(videos + audios);
      && |r.files| == |videos| + |audios|
      && (forall i :: 0 <= i < |videos| ==> r.files[i] == InputFileName(videos[i]))
      && (forall j :: 0 <= j < |audios| ==> r.files[|videos| + j] == InputFileName(audios[j]))
      && |r.videoStreams| == |videos| && |r.audioStreams| == |audios|
      && (forall i :: 0 <= i < |videos| ==> r.videoStreams[i] == i)
      && (forall j :: 0 <= j < |audios| ==> r.audioStreams[j] == |videos| + j)
  {
    SourcedAll(videos);
    SourcedAll(audios);
    RegisterVideosThenAudios(videos, audios);
    var r := Register(videos + audios);
    forall i | 0 <= i < |videos| ensures r.videoStreams[i] == i {
      NumberedAt(0, |videos|, i);
    }
    forall j | 0 <= j < |audios| ensures r.audioStreams[j] == |videos| + j {
      NumberedAt(|videos|, |audios|, j);
    }
    var files := r.files;
    forall i | 0 <= i < |videos| ensures files[i] == InputFileName(videos[i]) {
      FileNameAt(videos, i);
    }
    forall j | 0 <= j < |audios| ensures files[|videos| + j] == InputFileName(audios[j]) {
      FileNameAt(audios, j);
    }
  }

  /** A registration that lists the files of the video clips, then those of
      the audio clips, and numbers the streams through them. */
  predicate ListsAllFiles(r: Registration, videos: seq<Clip>, audios: seq<Clip>) {
    && |r.files| == |videos| + |audios|
    && |r.videoStreams| == |videos| && |r.audioStreams| == |audios|
    && (forall i :: 0 <= i < |videos| ==> r.files[i] == InputFileName(videos[i]))
    && (forall j :: 0 <= j < |audios| ==> r.files[|videos| + j] == InputFileName(audios[j]))
    && (forall i :: 0 <= i < |videos| ==> r.videoStreams[i] == i)
    && (forall j :: 0 <= j < |audios| ==> r.audioStreams[j] == |videos| + j)
  }

  /** Against such a registration, overlay k reads the file of video clip k - 1. */
  lemma OverlayReadsFile(videos: seq<Clip>, texts: seq<Clip>, audios: seq<Clip>, total: real, r: Registration, k: int)
    requires ListsAllFiles(r, videos, audios)
    requires 1 <= k <= |videos|
    ensures var g := Graph(videos, texts, audios, total);
      && k < |g| && g[k].Overlay? && g[k].stream == r.videoStreams[k - 1] < |r.files|
      && r.files[g[k].stream] == InputFileName(videos[k - 1])
  {
    GraphAtOverlay(videos, texts, audios, total, k);
    var o := OverlayNodes(videos)[k - 1];
    assert o.Overlay? && o.stream == k - 1;
    assert r.videoStreams[k - 1] == k - 1;
    assert r.files[k - 1] == InputFileName(videos[k - 1]);
  }

  /** Against such a registration, delay j reads the file of audio clip j. */
  lemma DelayReadsFile(videos: seq<Clip>, texts: seq<Clip>, audios: seq<Clip>, total: real, r: Registration,
                       j: int, chain: int)
    requires ListsAllFiles(r, videos, audios)
    requires 0 <= j < |audios|
    requires chain == |videos| + |TextChain(texts, LastOverlay(videos)).0|
    ensures var g := Graph(videos, texts, audios, total);
      && 1 + chain + j < |g| && g[1 + chain + j].ADelay? && g[1 + chain + j].stream == r.audioStreams[j] < |r.files|
      && r.files[g[1 + chain + j].stream] == InputFileName(audios[j])
  {
    DelayInGraph(videos, texts, audios, total, j);
    assert r.audioStreams[j] == |videos| + j;
    assert r.files[|videos| + j] == InputFileName(audios[j]);
  }

  /** Delay j is node 1 + chain + j of the graph and reads input
      (number of video clips) + j. */
  lemma DelayInGraph(videos: seq<Clip>, texts: seq<Clip>, audios: seq<Clip>, total: real, j: int)
    requires 0 <= j < |audios|
    ensures var g := Graph(videos, texts, audios, total);
      var chain := |videos| + |TextChain(texts, LastOverlay(videos)).0|;
      && 1 + chain + j < |g|
      && g[1 + chain + j] == ADelay(|videos| + j, audios[j].start * 1000.0, AudioOut(j))
  {
    var chain := |videos| + |TextChain(texts, LastOverlay(videos)).0|;
    GraphAtAudio(videos, texts, audios, total, j);
    DelayAt(|videos|, audios, j);
  }

  /** For a plan built from video, text and audio lists in which every video
      and audio clip has a source (see `OfTypeSourced` and `PlanOfParts` for
      the link to a whole clip list): the graph has `chain` visual nodes after
      the base, then the audio stage; overlay k reads the file of video clip
      k - 1 and delay j, right after the visual chain, the file of audio clip j. */
  lemma InputsAlignedWhenAllSourced(videos: seq<Clip>, texts: seq<Clip>, audios: seq<Clip>, total: real, p: Plan, chain: int)
    requires forall i :: 0 <= i < |videos| ==> videos[i].kind == Video && HasSrc(videos[i])
    requires forall j :: 0 <= j < |audios| ==> audios[j].kind == Audio && HasSrc(audios[j])
    requires p.inputs == Register(videos + audios) && p.filters == Graph(videos, texts, audios, total)
    requires chain == |videos| + |Filter(texts, Drawable)|
    ensures
      && |p.filters| == 1 + chain + (if |audios| == 0 then 0 else |audios| + 1)
      && (forall k :: 1 <= k <= |videos| ==>
            && p.filters[k].Overlay? && p.filters[k].stream < |p.inputs.files|
            && p.inputs.files[p.filters[k].stream] == InputFileName(videos[k - 1]))
      && (forall j :: 0 <= j < |audios| ==>
            && p.filters[1 + chain + j].ADelay? && p.filters[1 + chain + j].stream < |p.inputs.files|
            && p.inputs.files[p.filters[1 + chain + j].stream] == InputFileName(audios[j]))
  {
    PlanLength(videos, texts, audios, total, p, chain);
    PlanOverlaysRead(videos, texts, audios, total, p);
    PlanDelaysRead(videos, texts, audios, total, p, chain);
  }

  /** The overlay half of `InputsAlignedWhenAllSourced`. */
  lemma PlanOverlaysRead(videos: seq<Clip>, texts: seq<Clip>, audios: seq<Clip>, total: real, p: Plan)
    requires forall i :: 0 <= i < |videos| ==> videos[i].kind == Video && HasSrc(videos[i])
    requires forall j :: 0 <= j < |audios| ==> audios[j].kind == Audio && HasSrc(audios[j])
    requires p.inputs == Register(videos + audios) && p.filters == Graph(videos, texts, audios, total)
    ensures (forall k :: 1 <= k <= |videos| ==>
          && p.filters[k].Overlay? && p.filters[k].stream < |p.inputs.files|
          && p.inputs.files[p.filters[k].stream] == InputFileName(videos[k - 1]))
  {
    forall k | 1 <= k <= |videos|
      ensures && p.filters[k].Overlay? && p.filters[k].stream < |p.inputs.files|
              && p.inputs.files[p.filters[k].stream] == InputFileName(videos[k - 1])
    {
      PlanOverlayReads(videos, texts, audios, total, p, k);
    }
  }

  /** The delay half of `InputsAlignedWhenAllSourced`. */
  lemma {:induction false} PlanDelaysRead(videos: seq<Clip>, texts: seq<Clip>, audios: seq<Clip>, total: real, p: Plan, chain: int)
    requires forall i :: 0 <= i < |videos| ==> videos[i].kind == Video && HasSrc(videos[i])
    requires forall j :: 0 <= j < |audios| ==> audios[j].kind == Audio && HasSrc(audios[j])
    requires p.inputs == Register(videos + audios) && p.filters == Graph(videos, texts, audios, total)
    requires chain == |videos| + |Filter(texts, Drawable)|
    requires |p.filters| == 1 + chain + (if |audios| == 0 then 0 else |audios| + 1)
    ensures (forall j :: 0 <= j < |audios| ==>
          && p.filters[1 + chain + j].ADelay? && p.filters[1 + chain + j].stream < |p.inputs.files|
          && p.inputs.files[p.filters[1 + chain + j].stream] == InputFileName(audios[j]))
  {
    forall j | 0 <= j < |audios|
      ensures && p.filters[1 + chain + j].ADelay? && p.filters[1 + chain + j].stream < |p.inputs.files|
              && p.inputs.files[p.filters[1 + chain + j].stream] == InputFileName(audios[j])
    {
      PlanDelayReads(videos, texts, audios, total, p, j, chain);
    }
  }

  /** The graph's length in terms of the drawable text clips. */
  lemma PlanLength(videos: seq<Clip>, texts: seq<Clip>, audios: seq<Clip>, total: real, p: Plan, chain: int)
    requires p.filters == Graph(videos, texts, audios, total)
    requires chain == |videos| + |Filter(texts, Drawable)|
    ensures |p.filters| == 1 + chain + (if |audios| == 0 then 0 else |audios| + 1)
  {
    TextChainCount(texts, LastOverlay(videos));
    GraphLength(videos, texts, audios, total);
  }

  /** Overlay k of such a plan reads the file of video clip k - 1. */
  lemma PlanOverlayReads(videos: seq<Clip>, texts: seq<Clip>, audios: seq<Clip>, total: real, p: Plan, k: int)
    requires forall i :: 0 <= i < |videos| ==> videos[i].kind == Video && HasSrc(videos[i])
    requires forall j :: 0 <= j < |audios| ==> audios[j].kind == Audio && HasSrc(audios[j])
    requires p.inputs == Register(videos + audios) && p.filters == Graph(videos, texts, audios, total)
    requires 1 <= k <= |videos|
    ensures && k < |p.filters| && p.filters[k].Overlay? && p.filters[k].stream < |p.inputs.files|
            && p.inputs.files[p.filters[k].stream] == InputFileName(videos[k - 1])
  {
    RegisterAllSourced(videos, audios);
    OverlayReadsFile(videos, texts, audios, total, p.inputs, k);
  }

  /** Delay j of such a plan reads the file of audio clip j. */
  lemma PlanDelayReads(videos: seq<Clip>, texts: seq<Clip>, audios: seq<Clip>, total: real, p: Plan, j: int, chain: int)
    requires forall i :: 0 <= i < |videos| ==> videos[i].kind == Video && HasSrc(videos[i])
    requires forall j :: 0 <= j < |audios| ==> audios[j].kind == Audio && HasSrc(audios[j])
    requires p.inputs == Register(videos + audios) && p.filters == Graph(videos, texts, audios, total)
    requires 0 <= j < |audios|
    requires chain == |videos| + |Filter(texts, Drawable)|
    ensures && 1 + chain + j < |p.filters| && p.filters[1 + chain + j].ADelay?
            && p.filters[1 + chain + j].stream < |p.inputs.files|
            && p.inputs.files[p.filters[1 + chain + j].stream] == InputFileName(audios[j])
  {
    TextChainCount(texts, LastOverlay(videos));
    RegisterAllSourced(videos, audios);
    DelayReadsFile(videos, texts, audios, total, p.inputs, j, chain);
  }

  /** When every non-text clip has a source, so does every clip of the
      video list and of the audio list. */
  lemma OfTypeSourced(clips: seq<Clip>, kind: ClipType)
    requires kind != Text
    requires forall c :: c in clips && c.kind != Text ==> HasSrc(c)
    ensures var r := ClipsOfType(clips, kind);
      forall i :: 0 <= i < |r| ==> r[i].kind == kind && HasSrc(r[i])
  {
    var r := ClipsOfType(clips, kind);
    assert forall i :: 0 <= i < |r| ==> r[i] in r;
  }

  /** The plan's parts in terms of the clips of each kind. */
  lemma PlanOfParts(clips: seq<Clip>, videos: seq<Clip>, texts: seq<Clip>, audios: seq<Clip>)
    requires ClipsOfType(clips, Video) == videos && ClipsOfType(clips, Text) == texts
    requires ClipsOfType(clips, Audio) == audios
    ensures ExportPlan(clips).inputs == Register(videos + audios)
    ensures ExportPlan(clips).filters == Graph(videos, texts, audios, TotalDuration(clips))
    ensures ExportPlan(clips).videoMap == TextChain(texts, LastOverlay(videos)).1
    ensures ExportPlan(clips).audioMap == (if |audios| > 0 then Some(MixOut) else None)
  {
  }

  /** For a whole clip list in which every video and audio clip has a source,
      overlay k of the export plan reads the file of the k-th video clip in
      list order. */
  lemma {:induction false} ExportOverlaysReadOwnFiles(clips: seq<Clip>)
    requires forall c :: c in clips && c.kind != Text ==> HasSrc(c)
    ensures var p, videos := ExportPlan(clips), ClipsOfType(clips, Video);
      forall k :: 1 <= k <= |videos| ==>
        && k < |p.filters| && p.filters[k].Overlay? && p.filters[k].stream < |p.inputs.files|
        && p.inputs.files[p.filters[k].stream] == InputFileName(videos[k - 1])
  {
    var videos, texts, audios := ClipsOfType(clips, Video), ClipsOfType(clips, Text), ClipsOfType(clips, Audio);
    OfTypeSourced(clips, Video);
    OfTypeSourced(clips, Audio);
    PlanOfParts(clips, videos, texts, audios);
    PlanOverlaysRead(videos, texts, audios, TotalDuration(clips), ExportPlan(clips));
  }

  /** The type filter on one clip. */
  lemma OfTypeOne(a: Clip, kind: ClipType)
    ensures ClipsOfType([a], kind) == if a.kind == kind then [a] else []
  {
    assert [a][1..] == [];
  }

  /** The type filter on two clips. */
  lemma OfTypeTwo(a: Clip, b: Clip, kind: ClipType)
    ensures ClipsOfType([a, b], kind) == (if a.kind == kind then [a] else []) + (if b.kind == kind then [b] else [])
  {
    assert [a, b][1..] == [b];
    OfTypeOne(b, kind);
  }

  /** The registration loop over one clip is one turn. */
  lemma RegisterOne(a: Clip)
    ensures Register([a]) == RegisterStep(NoInputs, a)
  {
    assert [a][1..] == [];
    assert RegisterFrom(NoInputs, [a]) == RegisterFrom(RegisterStep(NoInputs, a), []);
  }

  /** The registration loop over two clips is two turns. */
  lemma RegisterTwo(a: Clip, b: Clip)
    ensures Register([a, b]) == RegisterStep(RegisterStep(NoInputs, a), b)
  {
    assert [a, b][1..] == [b];
    assert [b][1..] == [];
    var r1 := RegisterStep(NoInputs, a);
    assert RegisterFrom(NoInputs, [a, b]) == RegisterFrom(r1, [b]);
    assert RegisterFrom(r1, [b]) == RegisterFrom(RegisterStep(r1, b), []);
  }

  /** A video clip without a source still takes an overlay, and the overlay
      indices count it: with a source-less video clip before a sourced one,
      the first overlay, gated on the source-less clip's interval, reads the
      sourced clip's file, and the second overlay reads input 1, which does
      not exist. */
  lemma SourcelessVideoShiftsOverlays(v0: Clip, v1: Clip)
    requires v0.kind == Video && !HasSrc(v0)
    requires v1.kind == Video && HasSrc(v1)
    ensures var p := ExportPlan([v0, v1]);
      && p.inputs.files == [InputFileName(v1)]
      && |p.filters| == 3
      && p.filters[1].Overlay? && p.filters[1].stream == 0 && p.filters[1].from == v0.start
      && p.filters[2].Overlay? && p.filters[2].stream == 1 == |p.inputs.files|
  {
    var clips := [v0, v1];
    OfTypeTwo(v0, v1, Video);
    OfTypeTwo(v0, v1, Audio);
    OfTypeTwo(v0, v1, Text);
    PlanOfParts(clips, clips, [], []);
    assert clips + [] == clips;
    RegisterTwo(v0, v1);
    assert RegisterStep(NoInputs, v0) == NoInputs;
    var total := TotalDuration(clips);
    assert TextChain([], LastOverlay(clips)).0 == [];
    GraphLength(clips, [], [], total);
    GraphAtOverlay(clips, [], [], total, 1);
    GraphAtOverlay(clips, [], [], total, 2);
  }

  /** The delay indices count the video clips, not the registered inputs: with
      a source-less video clip and a sourced audio clip, the only input is the
      audio file, the registration loop labels it stream 0, the overlay reads
      that audio file as video, and the delay reads input 1, which does not
      exist. */
  lemma SourcelessVideoShiftsAudio(v0: Clip, a0: Clip)
    requires v0.kind == Video && !HasSrc(v0)
    requires a0.kind == Audio && HasSrc(a0)
    ensures var p := ExportPlan([v0, a0]);
      && p.inputs.files == [InputFileName(a0)]
      && p.inputs.audioStreams == [0]
      && |p.filters| == 4
      && p.filters[1].Overlay? && p.filters[1].stream == 0
      && p.filters[2].ADelay? && p.filters[2].stream == 1 == |p.inputs.files|
  {
    var clips := [v0, a0];
    OfTypeTwo(v0, a0, Video);
    OfTypeTwo(v0, a0, Audio);
    OfTypeTwo(v0, a0, Text);
    PlanOfParts(clips, [v0], [], [a0]);
    assert [v0] + [a0] == clips;
    RegisterTwo(v0, a0);
    assert RegisterStep(NoInputs, v0) == NoInputs;
    assert RegisterStep(NoInputs, a0) == Registration([InputFileName(a0)], [], [0]);
    var total := TotalDuration(clips);
    assert TextChain([], LastOverlay([v0])).0 == [];
    GraphLength([v0], [], [a0], total);
    GraphAtOverlay([v0], [], [a0], total, 1);
    GraphAtAudio([v0], [], [a0], total, 0);
    DelayAt(1, [a0], 0);
  }

  /** The audio carried by a video clip is never used: a lone sourced video
      clip is registered as an input, but the graph has no audio node and no
      audio output is mapped. */
  lemma VideoSoundIsDropped(v: Clip)
    requires v.kind == Video && HasSrc(v)
    ensures var p := ExportPlan([v]);
      && p.inputs.files == [InputFileName(v)]
      && |p.filters| == 2
      && (forall k :: 0 <= k < |p.filters| ==> !p.filters[k].ADelay? && !p.filters[k].AMix?)
      && p.audioMap == None && p.audioCodec == None
  {
    assert [v][1..] == [];
    OfTypeOne(v, Video);
    OfTypeOne(v, Audio);
    OfTypeOne(v, Text);
    assert [v] + [] == [v];
    RegisterOne(v);
    GraphAudioStage([v], [], [], TotalDuration([v]), |[v]| + |TextChain([], LastOverlay([v])).0|);
  }

  /** A five-second video clip with a caption from 1 s to 3 s: the graph is
      base, overlay, drawtext in that order, the caption is drawn over the
      video, the mapped output is the drawtext's, and there is no audio. */
  lemma ExportScenario(v: Clip, x: Clip)
    requires v.kind == Video && v.start == 0.0 && v.duration == 5.0 && HasSrc(v)
    requires x.kind == Text && x.start == 1.0 && x.duration == 2.0
    requires x.text == Some("Hello") && x.fontFamily == Some("Inter, sans-serif")
    requires x.fontSize == Some(48.0) && x.color == Some("#FFFFFF")
    ensures var p := ExportPlan([v, x]);
      && p.filters == [
           Base(1080, 1920, "black", 5.0, BaseOut),
           Overlay(Bracketed(BaseOut), 0, 0.0, 5.0, VideoOut(0)),
           DrawText(Bare(VideoOut(0)), "Hello", Some("/Inter-Regular.ttf"), 48.0, "#FFFFFF", 1.0, 3.0, TextOut(0))]
      && p.videoMap == TextOut(0)
      && p.audioMap == None && p.audioCodec == None
      && p.duration == 5.0
      && p.inputs.files == [InputFileName(v)]
  {
    ScenarioPlan(v, x);
    ScenarioGraph(v, x);
    RegisterOne(v);
  }

  /** The plan of the scenario, in terms of its one video clip and its one
      text clip. */
  lemma ScenarioPlan(v: Clip, x: Clip)
    requires v.kind == Video && v.start == 0.0 && v.duration == 5.0
    requires x.kind == Text && x.start == 1.0 && x.duration == 2.0
    ensures ExportPlan([v, x]) == Plan(Register([v]), Graph([v], [x], [], 5.0), TextChain([x], LastOverlay([v])).1,
                                       None, None, "libx264", "ultrafast", 5.0, "output.mp4")
  {
    var clips := [v, x];
    OfTypeTwo(v, x, Video);
    OfTypeTwo(v, x, Audio);
    OfTypeTwo(v, x, Text);
    assert ClipsOfType(clips, Video) == [v];
    assert ClipsOfType(clips, Audio) == [];
    assert ClipsOfType(clips, Text) == [x];
    assert [v] + [] == [v];
    ScenarioDuration(v, x);
  }

  /** The text loop over one clip. */
  lemma TextChainOne(c: Clip, start: Label)
    ensures TextChain([c], start) == if Drawable(c) then ([DrawTextNode(c, start, 0)], TextOut(0)) else ([], start)
  {
    assert [c][..0] == [];
    assert TextChain([c][..0], start) == ([], start);
    if Drawable(c) {
      assert [] + [DrawTextNode(c, start, 0)] == [DrawTextNode(c, start, 0)];
    }
  }

  /** The scenario lasts until its video clip ends. */
  lemma ScenarioDuration(v: Clip, x: Clip)
    requires End(v) == 5.0 && End(x) == 3.0
    ensures TotalDuration([v, x]) == 5.0
  {
    assert [v, x][1..] == [x];
    assert [x][1..] == [];
  }

  /** The scenario's caption is drawable and gives this drawtext node. */
  lemma ScenarioDrawText(x: Clip)
    requires x.kind == Text && x.start == 1.0 && x.duration == 2.0
    requires x.text == Some("Hello") && x.fontFamily == Some("Inter, sans-serif")
    requires x.fontSize == Some(48.0) && x.color == Some("#FFFFFF")
    ensures Drawable(x)
    ensures DrawTextNode(x, VideoOut(0), 0)
      == DrawText(Bare(VideoOut(0)), "Hello", Some("/Inter-Regular.ttf"), 48.0, "#FFFFFF", 1.0, 3.0, TextOut(0))
  {
    EscapePlainText("Hello");
    assert FontFile("Inter, sans-serif") == Some("/Inter-Regular.ttf");
  }

  /** The scenario's text chain is its one drawtext. */
  lemma ScenarioTextChain(x: Clip)
    requires x.kind == Text && x.start == 1.0 && x.duration == 2.0
    requires x.text == Some("Hello") && x.fontFamily == Some("Inter, sans-serif")
    requires x.fontSize == Some(48.0) && x.color == Some("#FFFFFF")
    ensures TextChain([x], VideoOut(0))
      == ([DrawText(Bare(VideoOut(0)), "Hello", Some("/Inter-Regular.ttf"), 48.0, "#FFFFFF", 1.0, 3.0, TextOut(0))], TextOut(0))
  {
    ScenarioDrawText(x);
    TextChainOne(x, VideoOut(0));
  }

  /** The scenario's overlay chain is its one overlay. */
  lemma ScenarioOverlay(v: Clip)
    requires v.kind == Video && v.start == 0.0 && v.duration == 5.0
    ensures LastOverlay([v]) == VideoOut(0)
    ensures OverlayNodes([v]) == [Overlay(Bracketed(BaseOut), 0, 0.0, 5.0, VideoOut(0))]
  {
  }

  /** The scenario's graph, node by node. */
  lemma ScenarioGraph(v: Clip, x: Clip)
    requires v.kind == Video && v.start == 0.0 && v.duration == 5.0
    requires x.kind == Text && x.start == 1.0 && x.duration == 2.0
    requires x.text == Some("Hello") && x.fontFamily == Some("Inter, sans-serif")
    requires x.fontSize == Some(48.0) && x.color == Some("#FFFFFF")
    ensures Graph([v], [x], [], 5.0) == [
           Base(1080, 1920, "black", 5.0, BaseOut),
           Overlay(Bracketed(BaseOut), 0, 0.0, 5.0, VideoOut(0)),
           DrawText(Bare(VideoOut(0)), "Hello", Some("/Inter-Regular.ttf"), 48.0, "#FFFFFF", 1.0, 3.0, TextOut(0))]
    ensures TextChain([x], LastOverlay([v])).1 == TextOut(0)
  {
    var drawn := DrawText(Bare(VideoOut(0)), "Hello", Some("/Inter-Regular.ttf"), 48.0, "#FFFFFF", 1.0, 3.0, TextOut(0));
    ScenarioTextChain(x);
    var overlay := Overlay(Bracketed(BaseOut), 0, 0.0, 5.0, VideoOut(0));
    ScenarioOverlay(v);
    var base := Base(1080, 1920, "black", 5.0, BaseOut);
    assert VisualChain([v], [x], 5.0) == [base] + [overlay] + [drawn];
    assert Graph([v], [x], [], 5.0) == VisualChain([v], [x], 5.0) + [];
  }

  /** The input registration loop of exportVideo over the video clips
      followed by the audio clips. */
  method RegisterInputs(media: seq<Clip>) returns (reg: Registration)
    ensures reg == Register(media)
  {
    var inputFiles: seq<string> := [];
    var videoInputs: seq<nat> := [];
    var audioInputs: seq<nat> := [];
    var m := 0;
    while m < |media|
      invariant 0 <= m <= |media|
      invariant RegisterFrom(Registration(inputFiles, videoInputs, audioInputs), media[m..]) == Register(media)
    {
      var clip := media[m];
      assert media[m..][1..] == media[m + 1..];
      if HasSrc(clip) {
        inputFiles := inputFiles + [InputFileName(clip)];
        if clip.kind == Video {
          videoInputs := videoInputs + [|videoInputs|];
        }
        if clip.kind == Audio {
          audioInputs := audioInputs + [|audioInputs| + |videoInputs|];
        }
      }
      m := m + 1;
    }
    reg := Registration(inputFiles, videoInputs, audioInputs);
  }

  /** The overlay loop: returns the overlay filters and the last output label. */
  method OverlayLoop(videoClips: seq<Clip>) returns (filters: seq<Node>, lastVideoOutput: Label)
    ensures filters == OverlayNodes(videoClips)
    ensures lastVideoOutput == LastOverlay(videoClips)
  {
    filters := [];
    lastVideoOutput := BaseOut;
    var index := 0;
    while index < |videoClips|
      invariant 0 <= index <= |videoClips|
      invariant filters == OverlayNodes(videoClips)[..index]
      invariant lastVideoOutput == if index == 0 then BaseOut else VideoOut(index - 1)
    {
      var clip := videoClips[index];
      filters := filters + [Overlay(Bracketed(lastVideoOutput), index, clip.start, clip.start + clip.duration, VideoOut(index))];
      lastVideoOutput := VideoOut(index);
      index := index + 1;
    }
  }

  /** The text loop: returns the drawtext filters and the new last output. */
  method TextLoop(textClips: seq<Clip>, lastOverlay: Label) returns (filters: seq<Node>, lastVideoOutput: Label)
    ensures (filters, lastVideoOutput) == TextChain(textClips, lastOverlay)
  {
    filters := [];
    lastVideoOutput := lastOverlay;
    var index := 0;
    while index < |textClips|
      invariant 0 <= index <= |textClips|
      invariant (filters, lastVideoOutput) == TextChain(textClips[..index], lastOverlay)
    {
      var clip := textClips[index];
      assert textClips[..index + 1][..index] == textClips[..index];
      if Drawable(clip) {
        var escapedText := EscapeText(clip.text.value);
        filters := filters + [DrawText(Bare(lastVideoOutput), escapedText, FontFile(clip.fontFamily.value),
          clip.fontSize.value, clip.color.value, clip.start, clip.start + clip.duration, TextOut(index))];
        lastVideoOutput := TextOut(index);
      }
      index := index + 1;
    }
    assert textClips[..index] == textClips;
  }

  /** The audio stage: the delay loop and the mix, only when there is audio. */
  method AudioLoop(videoCount: nat, audioClips: seq<Clip>) returns (filters: seq<Node>)
    ensures filters == AudioNodes(videoCount, audioClips)
  {
    filters := [];
    if |audioClips| > 0 {
      var index := 0;
      while index < |audioClips|
        invariant 0 <= index <= |audioClips|
        invariant filters == DelayNodes(videoCount, audioClips)[..index]
      {
        var clip := audioClips[index];
        filters := filters + [ADelay(videoCount + index, clip.start * 1000.0, AudioOut(index))];
        index := index + 1;
      }
      filters := filters + [MixNode(|audioClips|)];
    }
  }

  /** The body of exportVideo from the type filters to the assembled command;
      the file writes, the engine and the progress callbacks are not part of it. */
  method BuildExport(clips: seq<Clip>) returns (plan: Plan)
    ensures plan == ExportPlan(clips)
  {
    var videoClips := ClipsOfType(clips, Video);
    var audioClips := ClipsOfType(clips, Audio);
    var textClips := ClipsOfType(clips, Text);
    var totalDuration := TotalDuration(clips);
    var inputs := RegisterInputs(videoClips + audioClips);
    var overlays, lastOverlay := OverlayLoop(videoClips);
    var texts, lastVideoOutput := TextLoop(textClips, lastOverlay);
    var audio := AudioLoop(|videoClips|, audioClips);
    var audioMap: Option<Label> := None;
    var audioCodec: Option<string> := None;
    if |audioClips| > 0 {
      audioMap := Some(MixOut);
      audioCodec := Some("aac");
    }
    plan := Plan(inputs, [BaseNode(totalDuration)] + overlays + texts + audio, lastVideoOutput,
                 audioMap, audioCodec, "libx264", "ultrafast", totalDuration, "output.mp4");
  }
}

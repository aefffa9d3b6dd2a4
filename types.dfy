/** The shared data model of the editor: the clip record, its tag enumerations
    (which the source spells as string-literal unions) and the editor's tool. */
module Types {

  datatype Option<+T> = None | Some(value: T)

  /** The three kinds of clip; the source writes them as the strings
      "video", "audio" and "text". */
  datatype ClipType = Video | Audio | Text

  /** The two timeline rows; the source writes them as "video" and "audio1". */
  datatype Track = VideoTrack | Audio1

  /** The editor's tools. */
  datatype Tool = Select | Split | TextTool | Effects | Ai | Upload

  /** One timeline element. Times are seconds. `src` is not declared by the
      source's record type but is read by the preview and the exporter, so it
      is part of the model; every field marked optional there is an Option. */
  datatype Clip = Clip(
    id: string,
    kind: ClipType,
    name: string,
    start: real,
    duration: real,
    track: Track,
    src: Option<string>,
    volume: Option<real>,
    text: Option<string>,
    fontSize: Option<real>,
    color: Option<string>,
    fontFamily: Option<string>)

  /** The end of a clip's half-open interval [start, start + duration). */
  function End(c: Clip): real {
    c.start + c.duration
  }

  /** `Math.max` and `Math.min` on two times. */
  function Max(a: real, b: real): real { if a >= b then a else b }

  function Min(a: real, b: real): real { if a <= b then a else b }

  /** Two clips' half-open intervals share at least one instant. */
  predicate Overlaps(a: Clip, b: Clip) {
    a.start < End(b) && b.start < End(a)
  }

  /** JavaScript truthiness of an optional string field: present and not "". */
  predicate Truthy(s: Option<string>) {
    s.Some? && s.value != ""
  }

  function TypeTag(k: ClipType): string {
    match k
    case Video => "video"
    case Audio => "audio"
    case Text => "text"
  }

  /** Reads a type tag back; exactly the three tags are accepted. */
  function ParseType(s: string): (r: Option<ClipType>)
    ensures r.Some? <==> s == "video" || s == "audio" || s == "text"
    ensures r.Some? ==> TypeTag(r.value) == s
  {
    if s == "video" then Some(Video)
    else if s == "audio" then Some(Audio)
    else if s == "text" then Some(Text)
    else None
  }

  function TrackTag(t: Track): string {
    match t
    case VideoTrack => "video"
    case Audio1 => "audio1"
  }

  /** Reads a track tag back; exactly the two tags are accepted. */
  function ParseTrack(s: string): (r: Option<Track>)
    ensures r.Some? <==> s == "video" || s == "audio1"
    ensures r.Some? ==> TrackTag(r.value) == s
  {
    if s == "video" then Some(VideoTrack)
    else if s == "audio1" then Some(Audio1)
    else None
  }

  function ToolTag(t: Tool): string {
    match t
    case Select => "select"
    case Split => "split"
    case TextTool => "text"
    case Effects => "effects"
    case Ai => "ai"
    case Upload => "upload"
  }

  /** Reads a tool tag back; exactly the six tags are accepted. */
  function ParseTool(s: string): (r: Option<Tool>)
    ensures r.Some? <==> s in ["select", "split", "text", "effects", "ai", "upload"]
    ensures r.Some? ==> ToolTag(r.value) == s
  {
    if s == "select" then Some(Select)
    else if s == "split" then Some(Split)
    else if s == "text" then Some(TextTool)
    else if s == "effects" then Some(Effects)
    else if s == "ai" then Some(Ai)
    else if s == "upload" then Some(Upload)
    else None
  }

  /** Each tag denotes exactly one value: the tag maps are injective and
      parsing inverts them. */
  lemma TagsRoundTrip(k: ClipType, t: Track, tool: Tool)
    ensures ParseType(TypeTag(k)) == Some(k)
    ensures ParseTrack(TrackTag(t)) == Some(t)
    ensures ParseTool(ToolTag(tool)) == Some(tool)
  {
  }
}

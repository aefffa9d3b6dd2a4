# AI2edit core in Dafny

This project is a Dafny model of the core of AI2edit, a browser-based vertical
video editor. It covers five parts:

- **Data model** (`types.dfy`, module `Types`). This is the `Clip` record of
  `src/lib/types.ts`, with its type, track and tool tags. The optional `src`
  field is included because the export builder and the preview read it.
- **Timeline store** (`placement.dfy` and `editor.dfy`, modules `Placement` and
  `Editor`). This is the state of `src/components/editor/editor.tsx`: the clip
  list, the selected clip, the playhead and the active tool.
  - The state is the class `Editor.Store`. Its handlers are methods: add, with
    first-fit placement on the clip's track; select; update; delete; split at
    the playhead; add text.
  - Each method is proved against a pure function of the old state.
  - The store invariant `Consistent` holds when every clip has a positive
    duration and no two clips on one track overlap. Add, delete and split
    preserve it. Update can break it.
- **Visibility resolver** (`preview.dfy`, module `Preview`). This is
  `src/components/editor/preview.tsx`: which text clips are overlaid at the
  playhead, and which video clip and source are shown.
- **Timeline geometry** (`timeline.dfy`, module `Timeline`). This is
  `src/components/editor/timeline.tsx`, covering:
  - the 60-second ruler and its 61 markers;
  - click-to-seek with clamping;
  - the two track rows;
  - the seconds-to-pixels mapping, at 40 px/s, for clip boxes and the
    playhead line.
- **Export plan builder** (`ffmpeg.dfy`, module `Export`). This is the pure
  part of `exportVideo` in `src/lib/ffmpeg.ts`: the type filters, the total
  duration, and input registration with safe file names. It also builds the
  `-filter_complex` graph and the output options.
  - The graph is a typed intermediate form (`Node`, `Label`, `Plan`), not a
    string. Its parts are the black 1080x1920 base, the overlay chain, the
    drawtext chain and the audio delays with their mix.
  - The loops are methods, proved equal to the functional definition
    `ExportPlan`.
  - The lemmas describe the graph's shape and which registered file each
    filter reads. They also cover the builder's behaviour with clips that have
    no source: that behaviour is kept exactly as written.

`seqs.dfy` (module `Seqs`) holds the list operations the components share:
`filter`, `find`, and selecting the clips of one track.

Times are real numbers, and clip intervals are half-open: `[start, start + duration)`.
JavaScript truthiness of an optional string is "present and non-empty".
`Date.now()`, used to make clip ids, becomes a `stamp` parameter.

The model follows the code in these points:

- Updating an unknown id is a silent no-op; no error is reported.
- A split removes every clip with the id and appends both parts at the end of
  the list.
- A split with an unknown id, or with the playhead outside the clip, leaves the
  store unchanged and reports no error value.
- A video or audio clip without a source is not skipped by the filter graph.
  Only its input file is skipped, so the stream indices of the following
  filters shift.
- The no-overlap guarantee of add holds only when every clip has a positive
  duration (`Placement.ZeroDurationBreaksPlacement`).

## Model

| member | source | states |
|---|---|---|
| Types.ParseType | src/lib/types.ts:5 | A tag parses exactly when it is one of "video", "audio", "text", and the parsed type prints back to the same tag |
| Types.ParseTrack | src/lib/types.ts:9 | Exactly "video" and "audio1" parse, and each parsed track prints back to its tag |
| Types.ParseTool | src/lib/types.ts:1 | Exactly the six tool names parse, and each parsed tool prints back to its name |
| Types.TagsRoundTrip | src/lib/types.ts:1-9 | Every type, track and tool survives printing and parsing, so the tag maps are injective |
| Seqs.Filter | src/lib/ffmpeg.ts:50-52 | `filter` keeps exactly the elements that satisfy the predicate, and is never longer than its input |
| Seqs.FilterAppend | src/components/editor/preview.tsx:15-19 | Filtering a concatenation is concatenating the filtered parts, so list order is preserved |
| Seqs.FilterComplement | src/components/editor/timeline.tsx:60 | A predicate and its complement split a list: the two filtered lengths add up to the whole |
| Seqs.FilterIdempotent | src/components/editor/editor.tsx:64 | Filtering twice by the same predicate gives the same list as filtering once |
| Seqs.Find | src/components/editor/preview.tsx:21-25 | `find` returns nothing exactly when no element satisfies the predicate; otherwise it returns a member that satisfies it |
| Seqs.FindFirst | src/components/editor/preview.tsx:21-25 | `find` returns the satisfying element with the least index |
| Seqs.TrackClips | src/components/editor/editor.tsx:29 | The clips of a track are exactly the listed clips whose track field is that track |
| Placement.SortByStart | src/components/editor/editor.tsx:29 | The sort by start is a permutation of its input (same multiset) and is ordered by start |
| Placement.ScanFirstFit | src/components/editor/editor.tsx:30-37 | The placement loop computes the first-fit start. On a sorted track of positive-length, pairwise disjoint clips, the placed interval meets none of them |
| Placement.FirstFitIsCursorOrEnd | src/components/editor/editor.tsx:30-36 | The placed start is either 0 or the end of one of the track's clips |
| Placement.FirstFitClear | src/components/editor/editor.tsx:30-36 | For any starting cursor, the first-fit interval overlaps no clip of a sorted, disjoint track of positive-length clips |
| Placement.ConsistentTrackReady | src/components/editor/editor.tsx:29 | In a consistent store, the sorted clips of any track meet the scan's hypotheses |
| Placement.PlacementAvoidsOverlap | src/components/editor/editor.tsx:28-37 | In a consistent store, the placed clip overlaps no clip of its own track |
| Placement.AddPreservesConsistency | src/components/editor/editor.tsx:25-40 | Appending the placed clip to a consistent store, when its duration is positive, leaves the store consistent |
| Placement.TrackClipsSkipOther | src/components/editor/editor.tsx:29 | A clip of another track, at any position in the list, is not among the track's clips |
| Placement.PlacementIgnoresOtherTracks | src/components/editor/editor.tsx:29 | A clip on another track, at any position in the list, has no effect on where a new clip is placed |
| Placement.ScanTwo | src/components/editor/editor.tsx:31-36 | On a two-clip track the scan gives 0 if the clip fits before the first, else the first's end if it fits in the gap, else the second's end |
| Placement.FirstFitAfterLast | src/components/editor/editor.tsx:30-37 | With clips at [0,5) and [5,12), a 3-second clip is placed at 12 |
| Placement.FirstFitFillsGap | src/components/editor/editor.tsx:30-37 | With clips at [2,5) and [10,12), a 3-second clip goes into the gap at 5, and a 2-second clip goes in front at 0 |
| Placement.ZeroDurationBreaksPlacement | src/components/editor/editor.tsx:31-36 | A zero-length clip sharing a start with a longer clip resets the cursor, so the placed clip overlaps the longer one |
| Editor.ReplaceById | src/components/editor/editor.tsx:52 | Update keeps the list's length, replaces every clip with the updated id, and leaves every other position as it was |
| Editor.UpdateAbsentIsNoop | src/components/editor/editor.tsx:52 | Updating an id that no clip has leaves the list unchanged |
| Editor.UpdateIdempotent | src/components/editor/editor.tsx:52 | Applying the same update twice is the same as applying it once |
| Editor.UpdateMayBreakConsistency | src/components/editor/editor.tsx:51-56 | Update does not re-place: moving a clip from [5,10) to start at 2 makes it overlap [0,5) on the same track |
| Editor.RemoveById | src/components/editor/editor.tsx:64 | After a delete, exactly the clips whose id differs remain, and the list never grows |
| Editor.RemoveAbsentIsNoop | src/components/editor/editor.tsx:64 | Deleting an id that no clip has leaves the list unchanged |
| Editor.DeleteIdempotent | src/components/editor/editor.tsx:64 | A second delete of the same id changes nothing |
| Editor.FilterPreservesConsistency | src/components/editor/editor.tsx:64 | Removing clips from a consistent store leaves it consistent |
| Editor.ConsistentCons | src/components/editor/editor.tsx:39 | A list with a head clip is consistent iff the head has positive duration, the rest is consistent, and the head overlaps no clip of its track in the rest |
| Editor.ConsistentSnoc | src/components/editor/editor.tsx:39 | Appending a positive-length clip that overlaps nothing on its track keeps a store consistent |
| Editor.SplitTarget | src/components/editor/editor.tsx:72-73 | The split target is missing exactly when no clip has the id; otherwise it is a listed clip with that id |
| Editor.SplitParts | src/components/editor/editor.tsx:80-94 | Part 1 keeps the id, the start and all other fields. Part 2 gets id `<type>-<stamp>`, starts at the playhead and copies the rest. The parts meet at the playhead, span the original, and have positive durations |
| Editor.SplitClips | src/components/editor/editor.tsx:71-97 | A split is rejected iff the id is unknown, or iff the playhead is at or outside the clip's bounds. On success, the list is the id-filtered list plus the two parts, and the durations add up to the original. The two parts are exactly `SplitParts` of the target at the playhead |
| Editor.SplitBoundaries | src/components/editor/editor.tsx:75 | Splitting at a clip's start or end is rejected, and splitting at its midpoint succeeds |
| Editor.SplitPreservesConsistency | src/components/editor/editor.tsx:80-96 | A successful split of a consistent store leaves it consistent |
| Editor.Store.constructor | src/components/editor/editor.tsx:19-22 | The store starts with no clips, no selection, the playhead at 0 and the select tool |
| Editor.Store.AddClip | src/components/editor/editor.tsx:25-40 | Add appends the clip with its start replaced by the first-fit placement and changes nothing else. A consistent store stays consistent when the duration is positive |
| Editor.Store.SelectClip | src/components/editor/editor.tsx:42-49 | With the split tool and a clip, selecting splits that clip at the playhead. Otherwise the selection becomes the argument and the clips stay as they were. A consistent store stays consistent |
| Editor.Store.UpdateClip | src/components/editor/editor.tsx:51-56 | Update replaces the clips with the id. A selection with that id is refreshed to the updated clip, and any other selection is kept |
| Editor.Store.DeleteClip | src/components/editor/editor.tsx:58-69 | With no usable id nothing changes. Otherwise every clip with the id is removed, and the selection is cleared only if it had that id. Consistency is preserved |
| Editor.Store.SplitClip | src/components/editor/editor.tsx:71-99 | On success the clips are the split outcome's list and the selection is cleared. On rejection nothing changes. Consistency is preserved |
| Editor.Store.AddText | src/components/editor/editor.tsx:101-117 | A five-second text clip at the playhead on the video track is appended with its placed start. The selection becomes the clip as built, before placement, and the tool returns to select. A consistent store stays consistent |
| Editor.Store.SetPlayhead | src/components/editor/editor.tsx:22 | The playhead takes the given value |
| Editor.Store.SetActiveTool | src/components/editor/editor.tsx:132 | The active tool takes the given value |
| Preview.VisibleTextClips | src/components/editor/preview.tsx:15-19 | The overlaid texts are exactly the text clips whose half-open interval contains the playhead |
| Preview.ActiveVideoClip | src/components/editor/preview.tsx:21-25 | There is no active video iff no video clip contains the playhead. Otherwise the active video is a video clip containing it |
| Preview.ShownVideoSource | src/components/editor/preview.tsx:31-34 | The shown source is the active (first active) video clip's own `src`, and it is shown exactly when that `src` is non-empty |
| Preview.VisibleTextInListOrder | src/components/editor/preview.tsx:15-19 | The overlaid texts keep list order: the result for a concatenation is the concatenation of the results |
| Preview.ActiveVideoIsFirst | src/components/editor/preview.tsx:21-25 | The active video is the first video clip in list order that contains the playhead |
| Preview.ShownFromStartUntilEnd | src/components/editor/preview.tsx:17-18 | A clip is visible at its start and no longer visible at its end |
| Preview.SourcelessActiveVideoHidesLater | src/components/editor/preview.tsx:31 | If the first active video has no source, nothing is shown, even when a later active video has one |
| Preview.PreviewScenario | src/components/editor/preview.tsx:15-25 | With a video at [0,5) and a text at [1,3), both show at 2 and neither shows at 6 |
| Timeline.RulerPlayhead | src/components/editor/timeline.tsx:85-90 | A ruler click yields a playhead in [0, 60]: x/40 on the ruler, 0 left of it, 60 right of it |
| Timeline.ClickPutsLineUnderCursor | src/components/editor/timeline.tsx:88-89 | For a click on the 2400-pixel ruler, the playhead line is drawn exactly under the cursor, and clamping an already clamped time changes nothing |
| Timeline.RenderRuler | src/components/editor/timeline.tsx:26-42 | The ruler has 61 markers for seconds 0 to 60. Every fifth marker is major, and only major markers carry a caption, equal to their second |
| Timeline.RenderTracks | src/components/editor/timeline.tsx:53-60 | There are two rows, video then audio1, and each row holds exactly the clips of its track |
| Timeline.RowsInListOrder | src/components/editor/timeline.tsx:60 | Each row keeps the clips in list order: the rows of a concatenated list are the rows of its parts, concatenated |
| Timeline.RowsOfOneClip | src/components/editor/timeline.tsx:60 | A single clip is drawn alone in the row of its own track and in no other row |
| Timeline.RowsPartitionClips | src/components/editor/timeline.tsx:108 | Every clip is drawn in exactly one row, and the rows together hold as many boxes as there are clips |
| Timeline.BoxesFollowTime | src/components/editor/timeline.tsx:68-71 | A box spans the clip's interval scaled to pixels. The playhead line is inside a box iff the playhead is inside the clip, and clips that do not overlap in time get boxes that do not overlap |
| Export.Sanitize | src/lib/ffmpeg.ts:42 | Sanitising keeps the length, keeps letters, digits, '-', '_' and '.', and turns every other character into '_' |
| Export.SafeFilename | src/lib/ffmpeg.ts:41-43 | A safe name is at most 50 characters long, is a prefix of the sanitised text, and holds only safe characters |
| Export.SafeFilenameIdempotent | src/lib/ffmpeg.ts:41-43 | A safe name is its own safe name |
| Export.ReplaceColonsAppend | src/lib/ffmpeg.ts:87 | The colon pass distributes over concatenation |
| Export.EscapeTextIsPerCharacter | src/lib/ffmpeg.ts:87 | The two escape passes (quotes, then colons) equal escaping each character on its own, so the colon pass never touches the quote escapes |
| Export.EscapeLength | src/lib/ffmpeg.ts:87 | Escaping adds five characters per quote and two per colon |
| Export.EscapePlainText | src/lib/ffmpeg.ts:87 | Text with no quotes or colons is unchanged by escaping |
| Export.ClipsOfType | src/lib/ffmpeg.ts:50-52 | Each type list holds exactly the clips of that type |
| Export.TypesPartitionClips | src/lib/ffmpeg.ts:50-52 | The video, audio and text lists together account for every clip exactly once |
| Export.TotalDuration | src/lib/ffmpeg.ts:53 | The total duration is at least 0 and at least every clip's end. It is 0 or some clip's end |
| Export.RegisterFiles | src/lib/ffmpeg.ts:61-65 | The registration loop appends the safe file name of every clip with a truthy `src`, in order, and of no other clip |
| Export.RegisterVideos | src/lib/ffmpeg.ts:61-66 | Over video clips, the video stream labels count on by one per sourced clip, and the audio labels are untouched |
| Export.RegisterAudios | src/lib/ffmpeg.ts:61-67 | Over audio clips, each sourced clip gets the next label after all labels registered so far, and the video labels are untouched |
| Export.RegisterVideosThenAudios | src/lib/ffmpeg.ts:61-69 | The files are those of the sourced videos, then those of the sourced audios. Video labels run 0..n-1, and audio labels continue from n, where n is the number of sourced videos |
| Export.RegisterAllSourced | src/lib/ffmpeg.ts:61-69 | When every clip has a source, file i is video clip i's, file V+j is audio clip j's, and the labels count through them |
| Export.TextChainCount | src/lib/ffmpeg.ts:82-92 | The text loop emits one drawtext per text clip whose text, font family, font size and color are all truthy |
| Export.TextChainLinks | src/lib/ffmpeg.ts:82-92 | The drawtexts form a chain. The first reads the overlay chain's output by bare label, each later one reads the previous output, and the last output is the final one (the start when none is drawn) |
| Export.TextChainContent | src/lib/ffmpeg.ts:82-92 | Drawtext k draws the k-th drawable text clip: its escaped text, the font file its family maps to, its font size and color, gated on its interval |
| Export.AudioNodesShape | src/lib/ffmpeg.ts:96-105 | The audio stage is one delay per audio clip, reading input (video count + j) delayed by start*1000 ms, followed by one mix of all of them. It is empty when there is no audio |
| Export.GraphVisualChain | src/lib/ffmpeg.ts:72-92 | The graph starts with the black 1080x1920 base of the total duration. Then come one overlay per video clip, each reading the previous node and input i over clip i's interval, and then the drawtexts, each reading the previous node |
| Export.GraphAudioStage | src/lib/ffmpeg.ts:96-105 | The delays and the mix are exactly the nodes after the visual chain. Delay j reads input (video count + j), and the mix counts the audio clips and reads every delay's output in order |
| Export.GraphStreams | src/lib/ffmpeg.ts:75-100 | Overlay k reads input k-1, and delay j reads input (number of video clips) + j |
| Export.PlanVisualChain | src/lib/ffmpeg.ts:72-110 | For any clip list, every visual node reads the previous node's output, and the mapped video output is the end of that chain |
| Export.PlanAudioStage | src/lib/ffmpeg.ts:96-116 | An audio output is mapped, with the aac codec, iff some clip is audio; the mapped output is the mix; audio nodes appear exactly after the visual chain |
| Export.PlanInputs | src/lib/ffmpeg.ts:55-69 | The plan's inputs are the files of the sourced videos and then the sourced audios, with video labels 0.. and audio labels after them |
| Export.InputsAlignedWhenAllSourced | src/lib/ffmpeg.ts:61-100 | When every video and audio clip has a source, overlay k reads the file of video clip k-1, and delay j reads the file of audio clip j |
| Export.OfTypeSourced | src/lib/ffmpeg.ts:50-51 | If every non-text clip has a source, so does every clip in the video list and in the audio list |
| Export.ExportOverlaysReadOwnFiles | src/lib/ffmpeg.ts:61-79 | For a whole clip list in which every video and audio clip has a source, overlay k of the export plan reads the file of the k-th video clip in list order |
| Export.PlanOfParts | src/lib/ffmpeg.ts:50-116 | The plan's inputs, graph, video map and audio map are determined by the three type lists and the total duration |
| Export.SourcelessVideoShiftsOverlays | src/lib/ffmpeg.ts:61-79 | A video clip without a source still gets an overlay. The first overlay then reads the other video's file over the wrong interval, and the second reads a missing input |
| Export.SourcelessVideoShiftsAudio | src/lib/ffmpeg.ts:61-100 | With a source-less video and a sourced audio, the audio file is input 0. The overlay reads it as video, and the delay reads the missing input 1 |
| Export.VideoSoundIsDropped | src/lib/ffmpeg.ts:96-116 | A sourced video alone is registered, but the graph has no audio node and no audio output or codec is set |
| Export.ExportScenario | src/lib/ffmpeg.ts:72-118 | A 5-second video with a caption from 1 to 3 s gives the graph base, overlay, drawtext. The mapped output is the drawtext's, there is no audio, and the duration is 5 |
| Export.RegisterInputs | src/lib/ffmpeg.ts:61-69 | The registration loop computes the registration defined by `Register` |
| Export.OverlayLoop | src/lib/ffmpeg.ts:72-79 | The overlay loop emits the overlay chain and ends with the last overlay's label, or base when there is no video |
| Export.TextLoop | src/lib/ffmpeg.ts:82-92 | The text loop emits the drawtext chain and its final output label |
| Export.AudioLoop | src/lib/ffmpeg.ts:96-105 | The audio loop emits the delays and the mix, or nothing when there is no audio |
| Export.BuildExport | src/lib/ffmpeg.ts:50-118 | The export builder produces exactly `ExportPlan(clips)`, the plan the lemmas above describe |

## Left out

- The drawtext position: ffmpeg.ts:89 always centres the text with `x=(w-text_w)/2:y=(h-text_h)/2`. That is a constant, so the `DrawText` node carries no position.
- The FFmpeg engine and all I/O: loading the WebAssembly core, fetching fonts,
  `writeFile`/`fetchFile` of each input, `exec`, `readFile`, the output blob,
  progress callbacks and console logging. The plan the engine would run is
  modelled; running it is not.
- The textual form of the command. The filter graph is a typed `Node`
  sequence, not the `;`-joined string. Numbers are reals, not JavaScript's
  decimal formatting. adelay's value, identical on both channels, is stored
  once as `delayMs`.
- The `videoInputs` and `audioInputs` label strings become the natural-number
  lists `videoStreams` and `audioStreams`. The graph never reads them.
- `FONT_MAP[fontFamily]` for an unknown family (`undefined` in the string) is
  `None`.
- Floating point: times are unbounded reals. NaN, infinities and rounding are
  not modelled. The `fontSize` truthiness test ignores NaN.
- Toast notifications are not modelled, since they do not change editor
  state.
- React rendering: the handlers run as sequential methods on one store. Stale
  closures and batched state updates are not modelled. Both `clips` and
  `prev` are the current list.
- The header's refusal to export an empty timeline lives outside the builder.
  `BuildExport` accepts any list, including the empty one.
- The UI-only parts of the timeline are not modelled: icons, selection
  highlighting, and clearing the selection by clicking an empty row. The same
  holds for the preview's styling of text overlays, the properties, upload and
  AI panels, and the AI flows.
- `src` is not declared in `src/lib/types.ts`, but `src/lib/ffmpeg.ts` and
  `src/components/editor/preview.tsx` read it. It is modelled as an optional
  string on `Clip`.
- Export.Sanitize: works on Unicode scalar values, while the regular-expression
  replace works on UTF-16 code units. A character outside the Basic
  Multilingual Plane (an emoji in a file name, say) becomes one '_' here and
  two '_' in the code.
- Export.SafeFilename: the 50-character cut counts Unicode scalar values,
  while `substring(0, 50)` counts UTF-16 code units of the text already
  sanitised. Each character outside the Basic Multilingual Plane is two '_' in
  the code and one here, so the cut lands later in the input here.
- Placement.PlacementAvoidsOverlap: requires a consistent store, which
  includes positive durations, not merely disjoint intervals. A zero-length
  clip defeats the scan (`Placement.ZeroDurationBreaksPlacement`).
- Editor.Store.AddClip: preserves consistency only when the added clip has a
  positive duration. Nothing in the handler enforces that.
- Placement.SortByStart: states sortedness and permutation but not
  stability. Under the store invariant, no two clips of a track share a
  start, so the order among equal starts does not affect placement.

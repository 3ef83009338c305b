/** The caption editor: a video with a progress bar, one mark per caption
    placed at the caption's start time, and add/edit/delete of captions. Every
    change of the caption list is reported to the owner as the new list. */
module CaptionEditor {
  import opened Wrappers
  import opened Rounding
  import opened Captions
  import CaptionMark

  /** The duration, in seconds, assumed until the video's metadata is known. */
  const DefaultDuration: real := 10.0

  datatype Editor = Editor(duration: real, captions: seq<Caption>)

  /** A new editor holds the captions it was given and the default duration. */
  function Init(initial: seq<Caption>): (e: Editor)
    ensures e.captions == initial
    ensures e.duration == DefaultDuration
  {
    Editor(DefaultDuration, initial)
  }

  /** The metadata of the video element at mount time. */
  datatype VideoMeta = VideoMeta(readyState: int, duration: real)

  /** Mount effect: with metadata already loaded the duration is taken as is
      (even when it is zero); otherwise the editor waits for `loadedmetadata`. */
  function OnMount(e: Editor, video: Option<VideoMeta>): (r: Editor)
    ensures r.captions == e.captions
    ensures video.Some? && video.value.readyState > 0 ==> r.duration == video.value.duration
    ensures !(video.Some? && video.value.readyState > 0) ==> r == e
  {
    if video.Some? && video.value.readyState > 0 then e.(duration := video.value.duration) else e
  }

  /** `loadedmetadata` handler: the duration is replaced only by a truthy
      (non-zero) video duration. */
  function OnLoadedMetadata(e: Editor, videoDuration: real): (r: Editor)
    ensures r.captions == e.captions
    ensures r.duration == e.duration || r.duration == videoDuration
    ensures r.duration != e.duration ==> videoDuration != 0.0
    ensures videoDuration != 0.0 ==> r.duration == videoDuration
  {
    if videoDuration != 0.0 then e.(duration := videoDuration) else e
  }

  /** The duration is the default until metadata arrives, then the video's own
      duration, and a zero duration from the event keeps the default. */
  lemma DurationLifecycle(initial: seq<Caption>, d: real)
    ensures OnMount(Init(initial), None).duration == DefaultDuration
    ensures OnMount(Init(initial), Some(VideoMeta(1, d))).duration == d
    ensures OnLoadedMetadata(Init(initial), 0.0).duration == DefaultDuration
    ensures d != 0.0 ==> OnLoadedMetadata(Init(initial), d).duration == d
  {
  }

  /** The start time of a caption added now: the video's current time rounded
      to two decimals, or 0 without a video. */
  function NewCaptionTime(currentTime: Option<real>): (t: real)
    ensures currentTime.None? ==> t == 0.0
    ensures currentTime.Some? ==> currentTime.value - 0.005 < t <= currentTime.value + 0.005
    ensures IsHundredths(t)
    ensures currentTime.Some? && currentTime.value >= 0.0 ==> t >= 0.0
  {
    if currentTime.None? then 0.0
    else
      RoundNonNegative(currentTime.value);
      RoundHundredths(currentTime.value)
  }

  /** The horizontal position of a mark, as a percentage of the progress bar:
      the start time clamped into [0, duration], over the duration. `None` is
      the `NaN` of a zero duration. The caption itself is not changed. */
  function MarkLeft(startTime: real, duration: real): (r: Option<real>)
    ensures r.Some? <==> duration != 0.0
    ensures duration > 0.0 ==> 0.0 <= r.value <= 100.0
    ensures duration > 0.0 && 0.0 <= startTime <= duration ==> r.value == startTime / duration * 100.0
    ensures duration > 0.0 && startTime <= 0.0 ==> r.value == 0.0
    ensures duration > 0.0 && startTime >= duration ==> r.value == 100.0
  {
    var clamped := if startTime < 0.0 then 0.0 else if startTime > duration then duration else startTime;
    if duration == 0.0 then None else Some(clamped / duration * 100.0)
  }

  /** Marks keep the order of the start times they stand for. */
  lemma MarkLeftMonotone(s: real, t: real, duration: real)
    requires duration > 0.0
    requires s <= t
    ensures MarkLeft(s, duration).value <= MarkLeft(t, duration).value
  {
    var cs := if s < 0.0 then 0.0 else if s > duration then duration else s;
    var ct := if t < 0.0 then 0.0 else if t > duration then duration else t;
    assert cs <= ct;
    DivMonotone(cs, ct, duration);
    MulMonotone(cs / duration, ct / duration, 100.0);
  }

  /** One `<source>` of the video. */
  datatype Source = Source(mediaType: string, src: string)

  /** What the editor draws: the video sources and, for each caption in list
      order, its mark position. */
  datatype EditorView = EditorView(sources: seq<Source>, marks: seq<Option<real>>)

  /** The editor draws nothing unless `videoProp.sources` is an array
      (`None` stands for a missing or non-array value). */
  function Render(sources: Option<seq<Source>>, e: Editor): (r: Option<EditorView>)
    ensures r.Some? <==> sources.Some?
    ensures r.Some? ==> r.value.sources == sources.value
    ensures r.Some? ==> |r.value.marks| == |e.captions|
    ensures r.Some? ==> forall i :: 0 <= i < |e.captions| ==>
      r.value.marks[i] == MarkLeft(e.captions[i].startTime, e.duration)
  {
    if sources.None? then None
    else Some(EditorView(sources.value, seq(|e.captions|, i requires 0 <= i < |e.captions| => MarkLeft(e.captions[i].startTime, e.duration))))
  }

  /** The editor after a change, and the list it reports to `onChange`. */
  datatype Outcome = Outcome(editor: Editor, reported: seq<Caption>)

  /** The mark at `index` reported `change`: `null` deletes that caption,
      anything else replaces it. */
  function OnMarkChange(e: Editor, index: nat, change: Option<Caption>): (o: Outcome)
    requires index < |e.captions|
    ensures o.reported == o.editor.captions
    ensures o.editor.duration == e.duration
    ensures change.None? ==> o.editor.captions == RemoveAt(e.captions, index)
    ensures change.Some? ==> o.editor.captions == ReplaceAt(e.captions, index, change.value)
  {
    var cs := if change.None? then RemoveAt(e.captions, index) else ReplaceAt(e.captions, index, change.value);
    Outcome(e.(captions := cs), cs)
  }

  /** The add button produced `c`: it goes at the end of the list. */
  function OnAdd(e: Editor, c: Caption): (o: Outcome)
    ensures o.reported == o.editor.captions
    ensures o.editor.duration == e.duration
    ensures o.editor.captions == Append(e.captions, c)
  {
    var cs := Append(e.captions, c);
    Outcome(e.(captions := cs), cs)
  }

  /** A mark's report, fed to the editor at the mark's own index: a delete
      confirm removes exactly that caption, an edit confirm replaces exactly
      that caption, and the other captions keep their relative order. */
  lemma MarkConfirmUpdatesOwnCaption(e: Editor, index: nat, c: Caption)
    requires index < |e.captions|
    ensures var t := CaptionMark.Step(CaptionMark.Delete, CaptionMark.DeleteConfirm);
      t.emission.Changed? &&
      |OnMarkChange(e, index, t.emission.change).editor.captions| == |e.captions| - 1
    ensures var t := CaptionMark.Step(CaptionMark.Edit, CaptionMark.EditConfirm(c));
      t.emission.Changed? &&
      var cs := OnMarkChange(e, index, t.emission.change).editor.captions;
      |cs| == |e.captions| && cs[index] == c &&
      forall j :: 0 <= j < |cs| && j != index ==> cs[j] == e.captions[j]
  {
  }

  /** Adding a caption and then deleting it through its mark restores the
      list reported before the add. */
  lemma AddThenDeleteRestores(e: Editor, c: Caption)
    ensures var added := OnAdd(e, c).editor;
      OnMarkChange(added, |e.captions|, None).editor == e
  {
    RemoveUndoesAppend(e.captions, c);
  }
}

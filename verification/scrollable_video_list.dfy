/** The CMS list of scroll-driven videos: the input hook that copies the
    chosen video URL into the caption editor's stored state, the props handed
    to the embed-code generator, and the preview link. */
module ScrollableVideoList {
  import opened Wrappers
  import opened Json

  const EditorStateKey: string := "editorState"
  const VideoSrcKey: string := "videoSrc"
  const VideoDurationKey: string := "videoDuration"
  const CaptionsKey: string := "captions"
  const DarkTheme: string := "dark_mode"
  const PreviewPath: string := "/demo/scrollable-videos/"

  /** The URL fields of an update: `None` for a field the update leaves out. */
  datatype InputData = InputData(videoSrc: Option<string>, mobileVideoSrc: Option<string>)

  /** `inputData.videoSrc || inputData.mobileVideoSrc`, kept only when set. */
  function ChosenSource(input: InputData): (r: Option<string>)
    ensures r.Some? <==> StrTruthy(input.videoSrc) || StrTruthy(input.mobileVideoSrc)
    ensures StrTruthy(input.videoSrc) ==> r == input.videoSrc
    ensures !StrTruthy(input.videoSrc) && r.Some? ==> r == input.mobileVideoSrc
    ensures r.Some? ==> r.value != ""
  {
    if StrTruthy(input.videoSrc) then input.videoSrc
    else if StrTruthy(input.mobileVideoSrc) then input.mobileVideoSrc
    else None
  }

  /** `resolveInput`: with a chosen source the resolved data gets the stored
      editor state with only `videoSrc` overwritten; without one it is
      returned unchanged. `itemEditorState` is `None` when the item or its
      editor state is absent or `null`. */
  function ResolveInput(input: InputData, itemEditorState: Option<Object>, resolved: Object): (r: Object)
    ensures ChosenSource(input).None? ==> r == resolved
    ensures ChosenSource(input).Some? ==>
      && r.Keys == resolved.Keys + {EditorStateKey}
      && (forall k :: k in resolved && k != EditorStateKey ==> r[k] == resolved[k])
      && r[EditorStateKey].JObj?
      && var es := r[EditorStateKey].fields;
         && es.Keys == OrEmpty(itemEditorState).Keys + {VideoSrcKey}
         && es[VideoSrcKey] == JStr(ChosenSource(input).value)
         && forall k :: k in OrEmpty(itemEditorState) && k != VideoSrcKey ==> es[k] == OrEmpty(itemEditorState)[k]
  {
    var videoSrc := ChosenSource(input);
    if videoSrc.Some? then
      resolved[EditorStateKey := JObj(Assign(OrEmpty(itemEditorState), map[VideoSrcKey := JStr(videoSrc.value)]))]
    else resolved
  }

  /** `darkMode` of the embed: exactly the dark theme. */
  function DarkMode(theme: Option<string>): bool {
    theme == Some(DarkTheme)
  }

  /** A stored item as the virtual fields see it. */
  datatype Item = Item(id: string, editorState: Option<Object>, theme: Option<string>, secondsPer100vh: Option<real>)

  datatype VideoProps = VideoProps(src: Option<Json>, duration: Option<Json>)

  /** Props for the scroll-driven video embed; `None` is `undefined`. */
  datatype EmbedProps = EmbedProps(video: VideoProps, captions: Option<Json>, darkMode: bool, secondsPer100vh: Option<real>)

  /** The embed props of an item: video source and duration and the captions
      come from the editor state as stored. Without an editor state the
      property access throws. */
  function EmbedPropsOf(item: Item): (r: Result<EmbedProps>)
    ensures r.Failure? <==> item.editorState.None?
    ensures r.Success? ==>
      var es := item.editorState.value;
      && r.value.video.src == Get(es, VideoSrcKey)
      && r.value.video.duration == Get(es, VideoDurationKey)
      && r.value.captions == Get(es, CaptionsKey)
      && (r.value.darkMode <==> item.theme == Some(DarkTheme))
      && r.value.secondsPer100vh == item.secondsPer100vh
  {
    if item.editorState.None? then Failure("editorState is undefined")
    else
      var es := item.editorState.value;
      Success(EmbedProps(VideoProps(Get(es, VideoSrcKey), Get(es, VideoDurationKey)),
                         Get(es, CaptionsKey), DarkMode(item.theme), item.secondsPer100vh))
  }

  /** Saving a new video URL and then building the embed: the embed plays the
      chosen URL and keeps the captions and duration stored before. */
  lemma ResolveThenEmbedKeepsCaptions(input: InputData, stored: Object, resolved: Object,
                                      id: string, theme: Option<string>, spv: Option<real>)
    requires ChosenSource(input).Some?
    ensures var saved := ResolveInput(input, Some(stored), resolved)[EditorStateKey].fields;
      var r := EmbedPropsOf(Item(id, Some(saved), theme, spv));
      && r.Success?
      && r.value.video.src == Some(JStr(ChosenSource(input).value))
      && r.value.captions == Get(stored, CaptionsKey)
      && r.value.video.duration == Get(stored, VideoDurationKey)
  {
  }

  /** Resolving twice with the same input equals resolving once: the second
      pass overwrites `videoSrc` with the same value. */
  lemma ResolveInputIdempotent(input: InputData, stored: Object, resolved: Object)
    requires ChosenSource(input).Some?
    ensures var once := ResolveInput(input, Some(stored), resolved);
      ResolveInput(input, Some(once[EditorStateKey].fields), once) == once
  {
    var once := ResolveInput(input, Some(stored), resolved);
    var es := once[EditorStateKey].fields;
    assert Assign(es, map[VideoSrcKey := JStr(ChosenSource(input).value)]) == es;
  }

  /** The preview link of an item. */
  datatype Preview = Preview(href: string, linkLabel: string, buttonLabel: string)

  function PreviewOf(id: string): (r: Preview)
    ensures |r.href| == |PreviewPath| + |id|
    ensures r.href[..|PreviewPath|] == PreviewPath
    ensures r.href[|PreviewPath|..] == id
    ensures r.buttonLabel == "Preview"
  {
    Preview(PreviewPath + id, "捲動式影片預覽", "Preview")
  }

  /** Distinct items have distinct preview links. */
  lemma PreviewHrefInjective(a: string, b: string)
    requires PreviewOf(a).href == PreviewOf(b).href
    ensures a == b
  {
    assert a == PreviewOf(a).href[|PreviewPath|..];
  }
}

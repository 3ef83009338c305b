# Scroll-driven captions, their editor and CMS plumbing — a Dafny model

This project models the sequential logic under a newsroom's scroll-telling
components and their CMS lists:

- the caption editor of the scroll-driven video: captions are a plain
  positional list (append, replace at an index, delete at an index), marks are
  placed by clamping start times into the video's duration, and the duration
  starts at 10 seconds until the video's metadata arrives;
- the caption mark, a four-mode state machine (default, tooltip, edit, delete)
  that reports an edited caption or a deletion (`null`) on confirm;
- the scroll-driven video: scroll progress becomes a video time rounded to
  hundredths (not while the video is seeking), each caption becomes a section
  placed at `round(startTime / secondsPer100vh, 2) × innerHeight`, the source
  is chosen by viewport width, and sections get ids, keys and layout defaults;
- the CMS input hooks and embed props of the scroll-driven video list and the
  scroll-driven 3D model list, and the camera-helper field. They are merges of
  JSON objects where the later key wins (`Object.assign`), with defaults
  filled in and the `image` key removed from every point of interest;
- font selection in the Hong Kong street-font 3D scene: font to camera point,
  clicked point to font, hiding and showing Group models, the parent-chain walk
  to the object under the Scene, the opacities of the font illustrations, and
  the filtering of loaded models;
- the page-wide muted flag shared by karaoke blocks, and the hint that
  toggles it.

Files and modules: `wrappers.dfy` (Option, Result), `json.dfy` (JSON values,
JavaScript truthiness, `Object.assign`), `rounding.dfy` (rounding to
hundredths), `captions.dfy`, `caption_mark.dfy`, `caption_editor.dfy`,
`scrollable_video.dfy`, `scrollable_video_list.dfy`,
`scrollable_three_model_list.dfy`, `three_story_controls_field.dfy`,
`hong_kong_fonts.dfy`, `muted_hint.dfy`.

Modelling conventions. Times and pixel sizes are `real`. JavaScript's
`undefined` and `null` for a missing field are `None`. A string is truthy when
it is present and non-empty. A thrown `TypeError` is a `Failure`.
`Math.round(x * 100) / 100` and `Number(x.toFixed(2))` are both
`Rounding.RoundHundredths`, which computes `floor(100·x + ½) / 100`. For the
non-negative values the code rounds, the two JavaScript forms agree up to
floating point. `JSON.parse` is a function parameter, and a stringified value
is kept as the JSON value itself. React state updates are pure transition
functions from the old state to the new one. The browser-side inputs (window
size, the video element's `seeking`/`readyState`/`duration`, the raycast hit,
the global muted slot) are parameters.

Facts about the code that shape the model:

- Captions are a positional list: never sorted, no ids looked up, no errors,
  no resolver for the active caption. Captions are appended and addressed by
  position.
- The scroll handler does not clamp the progress. The video time is
  `round(progress × duration, 2)` as computed. It stays within the rounded
  axis only for progress in [0, 1] (`ScrollableVideo.ScrollTimeInRange`).
- Once the video's metadata has arrived (`readyState` above HAVE_NOTHING),
  assigning its `currentTime` starts a seek, so the element reports `seeking`
  until the browser finishes it and updates in between are dropped
  (`ScrollableVideo.UpdateDuringSeekIsDropped`). Before that no seek starts,
  and every update writes its own time
  (`ScrollableVideo.UpdateBeforeMetadataWritesAgain`).
- Deleting a caption from its mark returns the mark to the default mode.
  The list then shrinks by one, and index-keyed marks are re-rendered.

## Model

| member | source | states |
|---|---|---|
| Captions.Append | packages/scrollable-video/src/editor/index.tsx:239-244 | adding appends: length grows by one, earlier captions unchanged, the new caption last |
| Captions.ReplaceAt | packages/scrollable-video/src/editor/index.tsx:205-209 | editing index i changes only element i; length and every other element unchanged |
| Captions.RemoveAt | packages/scrollable-video/src/editor/index.tsx:198-203 | deleting index i drops one element; earlier captions stay, later ones shift down one place in order |
| Captions.RemoveIsPermutationMinusOne | packages/scrollable-video/src/editor/index.tsx:198-203 | deletion loses exactly the deleted caption (multiset of captions minus that one) |
| Captions.RemoveUndoesAppend | packages/scrollable-video/src/editor/index.tsx:196-244 | deleting the caption just appended restores the list |
| Captions.ReplaceLaws | packages/scrollable-video/src/editor/index.tsx:205 | writing back the old caption is a no-op; a second edit of an index overrides the first |
| Captions.RemoveAfterReplace | packages/scrollable-video/src/editor/index.tsx:196-210 | editing then deleting a caption equals deleting it |
| CaptionEditor.Init | packages/scrollable-video/src/editor/index.tsx:70-91 | the editor starts with the given captions and the 10-second default duration |
| CaptionEditor.OnMount | packages/scrollable-video/src/editor/index.tsx:103-110 | with metadata already loaded the video's duration is taken as is; otherwise nothing changes yet |
| CaptionEditor.OnLoadedMetadata | packages/scrollable-video/src/editor/index.tsx:96-101 | the metadata event replaces the duration only with a truthy (non-zero) duration; captions untouched |
| CaptionEditor.DurationLifecycle | packages/scrollable-video/src/editor/index.tsx:90-107 | duration is 10 until metadata, then the video's; a zero duration from the event keeps 10 |
| CaptionEditor.NewCaptionTime | packages/scrollable-video/src/editor/index.tsx:236-238 | a new caption's time is the current time rounded to hundredths (within 0.005, on the grid, non-negative), or 0 without a video |
| CaptionEditor.MarkLeft | packages/scrollable-video/src/editor/index.tsx:181-190 | mark position is the start time clamped into [0, duration] as a percentage; within [0, 100] for positive duration; NaN (None) exactly for zero duration |
| CaptionEditor.MarkLeftMonotone | packages/scrollable-video/src/editor/index.tsx:181-190 | marks keep the order of their start times |
| CaptionEditor.Render | packages/scrollable-video/src/editor/index.tsx:173-214 | nothing is drawn unless `sources` is an array; otherwise one mark per caption in list order, captions unmodified |
| CaptionEditor.OnMarkChange | packages/scrollable-video/src/editor/index.tsx:196-210 | a mark's `null` deletes its caption, a caption replaces it; the new list is what is reported to `onChange` |
| CaptionEditor.OnAdd | packages/scrollable-video/src/editor/index.tsx:239-244 | the added caption goes last and the new list is reported to `onChange` |
| CaptionEditor.MarkConfirmUpdatesOwnCaption | packages/cms/lists/views/scrollable-video-editor/mark.tsx:84-112 | a mark's delete confirm removes exactly its caption; its edit confirm replaces exactly its caption |
| CaptionEditor.AddThenDeleteRestores | packages/scrollable-video/src/editor/index.tsx:196-244 | adding a caption then deleting it through its mark restores the editor |
| CaptionMark.ViewOf | packages/cms/lists/views/scrollable-video-editor/mark.tsx:43-118 | the delete dialog is open iff mode is delete, the caption input shown iff mode is edit, the bare mark icon iff mode is default |
| CaptionMark.UnknownModeActsAsDefault | packages/cms/lists/views/scrollable-video-editor/mark.tsx:45-76 | any mode string other than the four draws the same icons as default |
| CaptionMark.Step | packages/cms/lists/views/scrollable-video-editor/mark.tsx:41-112 | the mark icon moves default to tooltip; the edit icon leads to edit and the delete icon to delete; delete confirm reports null, edit confirm reports the caption, both back to default; both cancels return to default and report nothing; hidden controls do nothing |
| CaptionMark.RunReportsOnlyConfirms | packages/cms/lists/views/scrollable-video-editor/mark.tsx:84-112 | over any run, reports are at most the confirms and every reported caption came from an edit confirm |
| CaptionMark.ConfirmNeedsTwoPriorClicks | packages/cms/lists/views/scrollable-video-editor/mark.tsx:41-76 | from the initial default mode no report can happen within two actions |
| ScrollableVideo.ScrollTime | packages/scrollable-video/src/v2/index.tsx:197 | the video time is progress × duration rounded to hundredths |
| ScrollableVideo.OnUpdate | packages/scrollable-video/src/v2/index.tsx:195-207 | the time is set only with a video that is not seeking, else nothing changes; the write leaves the video seeking exactly when its readyState is above HAVE_NOTHING; the debug time follows only in debug mode |
| ScrollableVideo.ScrollTimeInRange | packages/scrollable-video/src/v2/index.tsx:195-198 | for progress in [0, 1] the time lies in [0, rounded duration] |
| ScrollableVideo.ScrollTimeMonotone | packages/scrollable-video/src/v2/index.tsx:195-198 | within [0, 1], the time never moves back as progress grows |
| ScrollableVideo.UpdateDuringSeekIsDropped | packages/scrollable-video/src/v2/index.tsx:195-207 | with metadata loaded, an update arriving while the seek started by the previous write is running changes nothing, whatever its progress |
| ScrollableVideo.UpdateBeforeMetadataWritesAgain | packages/scrollable-video/src/v2/index.tsx:195-207 | before metadata no seek starts, so a second update writes again and its time wins |
| ScrollableVideo.PickVideoSource | packages/scrollable-video/src/v2/index.tsx:273-285 | width ≥ 768 prefers src, width < 768 prefers mobileSrc, each falling back to the other |
| ScrollableVideo.PickedSourceIsSetWhenAnyIs | packages/scrollable-video/src/v2/index.tsx:273-285 | if either source is set, a set source is picked |
| ScrollableVideo.ViewportHeights | packages/scrollable-video/src/v2/index.tsx:342 | a start time becomes a count of viewport heights rounded to hundredths, within half a hundredth of time / secondsPer100vh |
| ScrollableVideo.Offset | packages/scrollable-video/src/v2/index.tsx:341-343 | a section offset is viewport heights rounded to hundredths times innerHeight; non-finite exactly when secondsPer100vh is 0 |
| ScrollableVideo.OffsetOrder | packages/scrollable-video/src/v2/index.tsx:340-384 | sections keep the order of their start times and start at or below the top |
| ScrollableVideo.SectionFor | packages/scrollable-video/src/v2/index.tsx:340-380 | id `section-<id>` only for a set id, key falls back to the index, narrow unless `wide`, alignment defaults to `left`, buttons only when not read-only and they report the caption's own index |
| ScrollableVideo.Sections | packages/scrollable-video/src/v2/index.tsx:340-381 | one section per caption, in caption order |
| ScrollableVideo.DistinctIdsGiveDistinctKeys | packages/scrollable-video/src/v2/index.tsx:344-345 | captions with distinct set ids get distinct React keys |
| ScrollableVideo.WithDefaults | packages/scrollable-video/src/v2/index.tsx:147-157 | omitted props default to no captions, light mode, 1.5 s per viewport height and read-only |
| ScrollableVideo.OnResize | packages/scrollable-video/src/v2/index.tsx:293-318 | resize re-picks the source, sets the overflow height to the overflow when it is positive, and records the window size only when the width changed |
| ScrollableVideo.OverflowNeverNegative | packages/scrollable-video/src/v2/index.tsx:166-302 | the overflow height never becomes negative |
| ScrollableVideo.Render | packages/scrollable-video/src/v2/index.tsx:336-386 | nothing renders while innerWidth is 0; otherwise section i is `SectionFor` of caption i, for every caption in order, in a container as tall as the duration's offset |
| ScrollableVideo.SectionsInsideContainer | packages/scrollable-video/src/v2/index.tsx:340-384 | every caption starting within the video sits inside the sections container |
| ScrollableVideo.FirstResizeEnablesRendering | packages/scrollable-video/src/v2/index.tsx:158-338 | nothing renders before the first resize handler; after one with a non-zero width the component draws |
| ScrollableVideoList.ChosenSource | packages/cms/lists/scrollable-video.ts:144-145 | the source is `videoSrc` if set, else `mobileVideoSrc` if set, else none |
| ScrollableVideoList.ResolveInput | packages/cms/lists/scrollable-video.ts:143-152 | with a source, editorState is the stored one with only `videoSrc` overwritten and other keys preserved; without one, resolvedData is unchanged |
| ScrollableVideoList.ResolveInputIdempotent | packages/cms/lists/scrollable-video.ts:143-152 | resolving twice with the same input equals resolving once |
| ScrollableVideoList.EmbedPropsOf | packages/cms/lists/scrollable-video.ts:69-87 | embed props take video src and duration from editorState and pass the captions through; a missing editorState throws |
| ScrollableVideoList.ResolveThenEmbedKeepsCaptions | packages/cms/lists/scrollable-video.ts:72-152 | after saving a new source, the embed plays it and keeps the captions and duration stored before |
| ScrollableVideoList.PreviewOf | packages/cms/lists/scrollable-video.ts:103-109 | the preview href is `/demo/scrollable-videos/` followed by the id |
| ScrollableVideoList.PreviewHrefInjective | packages/cms/lists/scrollable-video.ts:105 | distinct items have distinct preview links |
| ScrollableThreeModelList.ResolveInput | packages/cms/lists/scrollable-three-model.ts:72-94 | with a model URL the data is defaults, then stored keys, then `modelObjs = [{url}]`; without one resolvedData is unchanged |
| ScrollableThreeModelList.ResolveInputFillsDefaults | packages/cms/lists/scrollable-three-model.ts:75-90 | with nothing stored, the data is exactly the three defaults with `modelObjs` pointing at the URL |
| ScrollableThreeModelList.StripImage | packages/cms/lists/scrollable-three-model.ts:37-38 | a POI loses exactly its `image` key, every other key unchanged |
| ScrollableThreeModelList.StripImageLaws | packages/cms/lists/scrollable-three-model.ts:37-38 | stripping is idempotent and putting the image back restores the POI |
| ScrollableThreeModelList.StripPois | packages/cms/lists/scrollable-three-model.ts:35-39 | undefined/null pois stay undefined; an array of objects keeps its length and order with each POI stripped; anything else fails, as `.map` on a non-array throws |
| ScrollableThreeModelList.EmbedCode | packages/cms/lists/scrollable-three-model.ts:33-47 | the embed code is a comment naming the item followed by the generator's output on the stripped props; it fails exactly when the data is missing or its `pois` is neither nullish nor an array of objects |
| ScrollableThreeModelList.EmbedCodeNamesItem | packages/cms/lists/scrollable-three-model.ts:46 | the item name can be read back from the head of the embed code |
| ThreeStoryControlsField.PropOf | packages/cms/lists/views/three-story-controls/index.tsx:12-14 | the props are the parsed value when it is set, else the empty object |
| ThreeStoryControlsField.Init | packages/cms/lists/views/three-story-controls/index.tsx:12-15 | the field starts with the parsed props and remembers the value |
| ThreeStoryControlsField.Rerender | packages/cms/lists/views/three-story-controls/index.tsx:21-24 | a changed value is re-parsed and recorded; an equal value leaves the state unchanged |
| ThreeStoryControlsField.RerenderSettles | packages/cms/lists/views/three-story-controls/index.tsx:12-24 | after a render the state is as if initialised with that value, so a repeat render is a no-op |
| ThreeStoryControlsField.ModelObjs | packages/cms/lists/views/three-story-controls/index.tsx:43 | missing or falsy `modelObjs` defaults to the empty list |
| ThreeStoryControlsField.Pois | packages/cms/lists/views/three-story-controls/index.tsx:44 | missing or falsy `pois` defaults to the empty list |
| ThreeStoryControlsField.OnChange | packages/cms/lists/views/three-story-controls/index.tsx:61-66 | reports `{modelObjs}` merged with the value, the value's keys winning, only when the callback is a function |
| ThreeStoryControlsField.ReportRoundTrip | packages/cms/lists/views/three-story-controls/index.tsx:43-66 | a reported value stored and parsed back keeps the shown models (unless replaced) and the reported POIs |
| HongKongFonts.PoiIndex | packages/three-hong-kong-project/src/react-components/index.tsx:383-430 | BLOW_UP→1, LEE_HON_KONG_KAI→2, LEE_HON_TUNG_KAI→3, PRISON→4, no selection→0 |
| HongKongFonts.PoiIndexInjective | packages/three-hong-kong-project/src/react-components/index.tsx:383-430 | different selections go to different points of interest |
| HongKongFonts.PointToFont | packages/three-hong-kong-project/src/react-components/index.tsx:515-532 | a point name maps to the font with that point, and no other name maps to a font |
| HongKongFonts.PointToFontRoundTrip | packages/three-hong-kong-project/src/react-components/index.tsx:63-68 | every font's point name maps back to that font |
| HongKongFonts.OnClick | packages/three-hong-kong-project/src/react-components/index.tsx:506-534 | a clicked point selects its font; no hit or an unknown name leaves the selection unchanged |
| HongKongFonts.HideOtherGroups | packages/three-hong-kong-project/src/react-components/index.tsx:385-392 | every Group named differently is hidden; non-Groups and the matching Group are untouched |
| HongKongFonts.ShowAllGroups | packages/three-hong-kong-project/src/react-components/index.tsx:443-447 | every Group is shown; non-Groups are untouched |
| HongKongFonts.OnSelect | packages/three-hong-kong-project/src/react-components/index.tsx:381-433 | a selected font hides the other Groups and goes to its POI; no selection leaves the scene and goes to POI 0 |
| HongKongFonts.SelectionLeavesOnlyItsFont | packages/three-hong-kong-project/src/react-components/index.tsx:383-427 | after a selection, a Group is drawn iff it was drawn and carries the font's name |
| HongKongFonts.OnControlsUpdate | packages/three-hong-kong-project/src/react-components/index.tsx:436-449 | progress > 0.9 towards POI 0 shows all Groups; any other update changes nothing |
| HongKongFonts.OverviewUndoesSelection | packages/three-hong-kong-project/src/react-components/index.tsx:381-449 | returning to the overview after a selection gives the scene with all Groups shown |
| HongKongFonts.GetRootParent | packages/three-hong-kong-project/src/react-components/index.tsx:641-646 | the result is the first ancestor-or-self whose parent is absent or the Scene |
| HongKongFonts.LayoutAsWrittenMisplacesPrison | packages/three-hong-kong-project/src/react-components/index.tsx:552-554 | as written, selecting Prison shows no illustration and LEE_HON_TUNG_KAI shows two |
| HongKongFonts.LayoutAsWritten | packages/three-hong-kong-project/src/react-components/index.tsx:543-556 | each opacity is 0 or 1; the first three illustrations are shown iff their own font is selected, the Prison one iff LEE_HON_TUNG_KAI is |
| HongKongFonts.Layout | packages/three-hong-kong-project/src/react-components/index.tsx:543-556 | each opacity is 0 or 1, and an illustration is shown (1) iff its own font is selected |
| HongKongFonts.LayoutAsWrittenAgreesElsewhere | packages/three-hong-kong-project/src/react-components/index.tsx:543-556 | the written layout equals the corrected one except for Prison and LEE_HON_TUNG_KAI |
| HongKongFonts.LayoutShowsExactlySelected | packages/three-hong-kong-project/src/react-components/index.tsx:543-556 | exactly one illustration is shown with a font selected, none without |
| HongKongFonts.Loaded | packages/three-hong-kong-project/src/react-components/index.tsx:558-569 | only models whose data loaded are kept, each tagged with its user data |
| HongKongFonts.LoadedAppend | packages/three-hong-kong-project/src/react-components/index.tsx:558-569 | filtering distributes over concatenation, so the kept models stay in order |
| HongKongFonts.LoadedKeepsEveryLoadedModel | packages/three-hong-kong-project/src/react-components/index.tsx:558-569 | every model whose data loaded is kept |
| MutedHint.InitialMuted | packages/karaoke/src/twreporter/hint.js:16-17 | the local flag starts at `initialValue`, muted when omitted |
| MutedHint.SyncFromGlobal | packages/karaoke/src/twreporter/hint.js:18-24 | after a render a boolean in the global slot is adopted, anything else keeps the local flag |
| MutedHint.SetMuted | packages/karaoke/src/twreporter/hint.js:25-30 | `setMuted(b)` makes the global slot and the local flag both b |
| MutedHint.ViewOf | packages/karaoke/src/twreporter/hint.js:42-57 | hint text, button label and icon are a function of muted alone |
| MutedHint.ViewOfInjective | packages/karaoke/src/twreporter/hint.js:42-57 | the view tells muted and unmuted apart |
| MutedHint.OnClick | packages/karaoke/src/twreporter/hint.js:49-54 | a click flips muted; the Safari workaround runs iff switching from muted to unmuted |
| MutedHint.ClickOn | packages/karaoke/src/twreporter/hint.js:25-54 | a click in one block writes the global slot and its own copy; other blocks keep theirs until they render |
| MutedHint.RenderAll | packages/karaoke/src/twreporter/hint.js:18-24 | a render pass syncs every block from the global slot |
| MutedHint.ClickReachesEveryBlock | packages/karaoke/src/twreporter/hint.js:7-33 | after a click and a render pass every block holds the new flag |
| MutedHint.TwoClicksRestore | packages/karaoke/src/twreporter/hint.js:16-54 | on an agreed page two clicks with renders between restore the page |
| Json.Assign | packages/cms/lists/scrollable-video.ts:146-148 | `Object.assign`: all keys of both, the later source winning on shared keys |
| Rounding.RoundHundredths | packages/scrollable-video/src/v2/index.tsx:342 | rounding lands on the hundredths grid within half a hundredth |
| Rounding.RoundMonotone | packages/scrollable-video/src/v2/index.tsx:342 | rounding preserves order |

## Findings

| source | as written | input that shows it | evidently intended | confidence | as-written member | corrected member |
|---|---|---|---|---|---|---|
| packages/three-hong-kong-project/src/react-components/index.tsx:552-554 | the Prison illustration's opacity tests `selectedFont === FontName.LEE_HON_TUNG_KAI` | selecting Prison shows no illustration; selecting LEE_HON_TUNG_KAI shows two | the Prison illustration keyed on `FontName.PRISON` | high; not executed | HongKongFonts.LayoutAsWrittenMisplacesPrison | HongKongFonts.Layout |

## Left out

- Rendering and effects: styled-components CSS, GSAP ScrollTrigger set-up and teardown, three.js scene, renderer, camera rig and raycaster, DraftRenderer, icons, and dialogs beyond their open/closed state. These are rendering, not logic.
- Timers and listeners: the 300 ms resize debounce, the 100 ms update debounce and resize throttle, `requestAnimationFrame` loops, and listener registration and cleanup. Each handler is modelled as one call.
- Media side effects: `play()`/`pause()` promises, the iOS touch fix, the editor's progress-bar click and `timeupdate` handlers, and the play/pause buttons. These are browser side effects with swallowed errors. `MutedHint.OnClick` only says whether `safariWorkaround` runs.
- Query-string debug mode: how the debug flag is read from the URL is left out. `debugMode` is an input.
- Embed-code generation: `embedCodeGen.buildEmbeddedCode`, `buildScrollableThreeModelEmbedCode` and `loadWebpackAssets` are foreign. The 3D embed takes the generator as a function parameter, and the video embed stops at the props.
- Server and other lists: the server configuration, the karaoke list, the list field labels and the access rules are configuration, not logic.
- The add-caption button and the caption input dialog are not part of this model. `CaptionEditor.OnAdd` takes the caption the button builds, and `CaptionEditor.NewCaptionTime` gives its start time.
- Floating point: `NaN`, infinities, `-0` and IEEE-754 rounding are not modelled. A zero divisor gives `None`, and video durations and times are reals.
- ScrollableThreeModelList.StripPois: a POI that is not a JSON object fails here. JavaScript would spread a number or boolean to `{}` and a string to its index keys, and only `null` throws.
- ScrollableVideoList.ResolveInput: a stored `editorState` is taken to be an object or absent. `Object.assign` would copy index keys from a stored string or array, and that is not modelled.
- ScrollableThreeModelList.ResolveInput: a stored `cameraHelperData` is taken to be an object or absent. `Object.assign` would copy index keys from a stored string or array, and that is not modelled.
- HongKongFonts.Loaded: `data` is either a loaded model or `null`. The code's `!== null` filter would keep an `undefined` entry, and that case is not modelled.
- HongKongFonts: the selected font is `None` or one of the four fonts. The component stores no other string, so its `default` branches are covered by `None`.

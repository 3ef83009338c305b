/** The scroll-driven video: scroll progress through the caption sections sets
    the video time, each caption is laid out as a section at a height derived
    from its start time, and the video source is chosen by viewport width. */
module ScrollableVideo {
  import opened Wrappers
  import opened Json
  import opened Rounding
  import opened Captions

  /** Seconds of video per viewport height of scrolling, when not given. */
  const DefaultSecondsPer100vh: real := 1.5

  /** Viewport width, in pixels, from which the desktop source is preferred. */
  const DesktopMinWidth: int := 768

  // ---------------------------------------------------------------------
  // Scroll progress to video time

  /** The video element as the scroll handler sees it. `readyState` 0 is
      HAVE_NOTHING: no metadata has arrived yet. */
  datatype VideoElement = VideoElement(currentTime: real, seeking: bool, readyState: int)

  datatype Player = Player(video: Option<VideoElement>, debugMode: bool, debugTime: real)

  /** The video time for a scroll progress: `progress * duration` rounded to
      hundredths. */
  function ScrollTime(progress: real, duration: real): (t: real)
    ensures progress * duration - 0.005 < t <= progress * duration + 0.005
    ensures IsHundredths(t)
  {
    RoundHundredths(progress * duration)
  }

  /** The ScrollTrigger `onUpdate` handler. The video time is set only when
      there is a video element that is not seeking; otherwise nothing changes.
      Assigning `currentTime` starts a seek once metadata has arrived
      (`readyState` above HAVE_NOTHING), so the element is seeking afterwards
      until the browser finishes it; before that the browser only records the
      start position and starts no seek. The debug time follows the video
      time only in debug mode. */
  function OnUpdate(p: Player, progress: real, duration: real): (r: Player)
    ensures r.debugMode == p.debugMode
    ensures p.video.None? || p.video.value.seeking ==> r == p
    ensures p.video.Some? && !p.video.value.seeking ==>
      r.video == Some(VideoElement(ScrollTime(progress, duration), p.video.value.readyState > 0,
                                   p.video.value.readyState))
    ensures r.debugTime != p.debugTime ==> p.debugMode && r.debugTime == ScrollTime(progress, duration)
    ensures p.debugMode && p.video.Some? && !p.video.value.seeking ==> r.debugTime == r.video.value.currentTime
  {
    if p.video.Some? && !p.video.value.seeking then
      var time := ScrollTime(progress, duration);
      var v := p.video.value;
      Player(Some(VideoElement(time, v.readyState > 0, v.readyState)), p.debugMode,
             if p.debugMode then time else p.debugTime)
    else p
  }

  /** Within the scroll span (progress in [0, 1]) the time stays on the
      rounded video axis. */
  lemma ScrollTimeInRange(progress: real, duration: real)
    requires 0.0 <= progress <= 1.0
    requires duration >= 0.0
    ensures 0.0 <= ScrollTime(progress, duration) <= RoundHundredths(duration)
  {
    var a, b := ProductsOrdered(progress, 1.0, duration);
    RoundNonNegative(a);
    RoundMonotone(a, duration);
  }

  /** Scrolling further never moves the video back. */
  lemma ScrollTimeMonotone(progress: real, later: real, duration: real)
    requires 0.0 <= progress <= later <= 1.0
    requires duration >= 0.0
    ensures ScrollTime(progress, duration) <= ScrollTime(later, duration)
  {
    var a, b := ProductsOrdered(progress, later, duration);
    RoundMonotone(a, b);
  }

  /** The two products `p * d` and `q * d`, in order and within [0, d]. */
  lemma ProductsOrdered(p: real, q: real, d: real) returns (a: real, b: real)
    requires 0.0 <= p <= q <= 1.0 && d >= 0.0
    ensures a == p * d && b == q * d
    ensures 0.0 <= a <= b <= d
  {
    a, b := p * d, q * d;
    MulNonNegative(p, d);
    MulNonNegative(q - p, d);
    MulNonNegative(1.0 - q, d);
    assert b - a == (q - p) * d;
    assert d - b == (1.0 - q) * d;
  }

  lemma MulNonNegative(a: real, b: real)
    requires a >= 0.0 && b >= 0.0
    ensures a * b >= 0.0
  {
  }

  /** Once metadata has arrived, an update that comes while the seek started
      by the previous one is still running is dropped, whatever its progress. */
  lemma UpdateDuringSeekIsDropped(p: Player, progress: real, next: real, duration: real)
    requires p.video.Some? ==> p.video.value.readyState > 0
    ensures OnUpdate(OnUpdate(p, progress, duration), next, duration) == OnUpdate(p, progress, duration)
  {
  }

  /** Before metadata has arrived no seek starts, so every update writes its
      own time: the last one wins. */
  lemma UpdateBeforeMetadataWritesAgain(p: Player, progress: real, next: real, duration: real)
    requires p.video.Some? && !p.video.value.seeking && p.video.value.readyState <= 0
    ensures OnUpdate(OnUpdate(p, progress, duration), next, duration) == OnUpdate(p, next, duration)
    ensures OnUpdate(OnUpdate(p, progress, duration), next, duration).video.value.currentTime
         == ScrollTime(next, duration)
  {
  }

  // ---------------------------------------------------------------------
  // Source selection

  /** `pickVideoSource`: the desktop source on wide viewports and the mobile
      source on narrow ones, each falling back to the other when empty. */
  function PickVideoSource(viewportWidth: int, src: Option<string>, mobileSrc: Option<string>): (r: Option<string>)
    ensures r == src || r == mobileSrc
    ensures viewportWidth >= DesktopMinWidth && StrTruthy(src) ==> r == src
    ensures viewportWidth < DesktopMinWidth && StrTruthy(mobileSrc) ==> r == mobileSrc
    ensures !StrTruthy(mobileSrc) && StrTruthy(src) ==> r == src
    ensures !StrTruthy(src) ==> r == mobileSrc
  {
    if viewportWidth >= DesktopMinWidth && StrTruthy(src) then src
    else if viewportWidth < DesktopMinWidth && StrTruthy(mobileSrc) then mobileSrc
    else if StrTruthy(src) then src
    else mobileSrc
  }

  /** Whenever either source is set, a set source is picked. */
  lemma PickedSourceIsSetWhenAnyIs(viewportWidth: int, src: Option<string>, mobileSrc: Option<string>)
    requires StrTruthy(src) || StrTruthy(mobileSrc)
    ensures StrTruthy(PickVideoSource(viewportWidth, src, mobileSrc))
  {
  }

  // ---------------------------------------------------------------------
  // Section layout

  /** The number of viewport heights of scrolling a time on the video axis
      stands for, rounded to hundredths (`Math.round(t / secondsPer100vh * 100) / 100`). */
  function ViewportHeights(t: real, secondsPer100vh: real): (r: real)
    requires secondsPer100vh != 0.0
    ensures t / secondsPer100vh - 0.005 < r <= t / secondsPer100vh + 0.005
    ensures IsHundredths(r)
  {
    RoundHundredths(t / secondsPer100vh)
  }

  /** A vertical offset in pixels for a time on the video axis: its viewport
      heights times the viewport height. `None` is the non-finite value of a
      zero `secondsPer100vh`. */
  function Offset(t: real, secondsPer100vh: real, innerHeight: real): (r: Option<real>)
    ensures r.Some? <==> secondsPer100vh != 0.0
    ensures r.Some? ==> r.value == ViewportHeights(t, secondsPer100vh) * innerHeight
  {
    if secondsPer100vh == 0.0 then None
    else Some(ViewportHeights(t, secondsPer100vh) * innerHeight)
  }

  /** A section starting within the video lies inside the sections container,
      whose height is the offset of the duration, and sections keep the order
      of their start times. */
  lemma OffsetOrder(s: real, t: real, secondsPer100vh: real, innerHeight: real)
    requires secondsPer100vh > 0.0 && innerHeight >= 0.0
    requires s <= t
    ensures Offset(s, secondsPer100vh, innerHeight).value <= Offset(t, secondsPer100vh, innerHeight).value
    ensures s >= 0.0 ==> Offset(s, secondsPer100vh, innerHeight).value >= 0.0
  {
    var x := s / secondsPer100vh;
    var y := t / secondsPer100vh;
    DivMonotone(s, t, secondsPer100vh);
    RoundMonotone(x, y);
    assert ViewportHeights(s, secondsPer100vh) <= ViewportHeights(t, secondsPer100vh);
    MulMonotone(ViewportHeights(s, secondsPer100vh), ViewportHeights(t, secondsPer100vh), innerHeight);
    if s >= 0.0 {
      assert x >= 0.0;
      RoundNonNegative(x);
      MulMonotone(0.0, ViewportHeights(s, secondsPer100vh), innerHeight);
    }
  }

  /** React key of a section: its DOM id when it has one, else its index. */
  datatype SectionKey = ById(sectionId: string) | ByIndex(index: nat)

  /** The edit and remove buttons of a section and the index they report. */
  datatype Buttons = Buttons(editIndex: nat, removeIndex: nat)

  datatype Section = Section(
    id: Option<string>,
    key: SectionKey,
    narrowWidth: bool,
    darkMode: bool,
    alignment: string,
    top: Option<real>,
    isLast: bool,
    buttons: Option<Buttons>,
    body: Json)

  const SectionIdPrefix: string := "section-"

  /** The section for the caption at `idx` of `count` captions. */
  function SectionFor(c: Caption, idx: nat, count: nat, darkMode: bool,
                      secondsPer100vh: real, innerHeight: real, readOnly: bool): (s: Section)
    ensures s.id.Some? <==> StrTruthy(c.id)
    ensures s.id.Some? ==> s.id.value == SectionIdPrefix + c.id.value && s.key == ById(s.id.value)
    ensures s.id.None? ==> s.key == ByIndex(idx)
    ensures s.narrowWidth <==> c.width != Some("wide")
    ensures s.alignment == (if c.alignment.Some? then c.alignment.value else "left")
    ensures s.darkMode == darkMode && s.body == c.body
    ensures s.top == Offset(c.startTime, secondsPer100vh, innerHeight)
    ensures s.isLast <==> idx == count - 1
    ensures s.buttons.Some? <==> !readOnly
    ensures s.buttons.Some? ==> s.buttons.value == Buttons(idx, idx)
  {
    var sectionId := if StrTruthy(c.id) then Some(SectionIdPrefix + c.id.value) else None;
    Section(
      sectionId,
      if sectionId.Some? then ById(sectionId.value) else ByIndex(idx),
      c.width != Some("wide"),
      darkMode,
      c.alignment.GetOr("left"),
      Offset(c.startTime, secondsPer100vh, innerHeight),
      idx == count - 1,
      if readOnly then None else Some(Buttons(idx, idx)),
      c.body)
  }

  /** The sections of all captions, in caption order. */
  function Sections(cs: seq<Caption>, darkMode: bool, secondsPer100vh: real,
                    innerHeight: real, readOnly: bool): (r: seq<Section>)
    ensures |r| == |cs|
    ensures forall i :: 0 <= i < |cs| ==>
      r[i] == SectionFor(cs[i], i, |cs|, darkMode, secondsPer100vh, innerHeight, readOnly)
  {
    seq(|cs|, i requires 0 <= i < |cs| =>
      SectionFor(cs[i], i, |cs|, darkMode, secondsPer100vh, innerHeight, readOnly))
  }

  /** Captions whose set ids are pairwise distinct get pairwise distinct
      React keys. */
  lemma DistinctIdsGiveDistinctKeys(cs: seq<Caption>, darkMode: bool, secondsPer100vh: real,
                                    innerHeight: real, readOnly: bool, i: nat, j: nat)
    requires forall a, b :: 0 <= a < b < |cs| && StrTruthy(cs[a].id) && StrTruthy(cs[b].id) ==> cs[a].id != cs[b].id
    requires i < j < |cs|
    ensures Sections(cs, darkMode, secondsPer100vh, innerHeight, readOnly)[i].key
         != Sections(cs, darkMode, secondsPer100vh, innerHeight, readOnly)[j].key
  {
    var ss := Sections(cs, darkMode, secondsPer100vh, innerHeight, readOnly);
    if ss[i].key.ById? && ss[j].key.ById? {
      assert ss[i].key.sectionId == SectionIdPrefix + cs[i].id.value;
      assert ss[j].key.sectionId == SectionIdPrefix + cs[j].id.value;
      if ss[i].key == ss[j].key {
        PrefixCancel(SectionIdPrefix, cs[i].id.value, cs[j].id.value);
      }
    }
  }

  lemma PrefixCancel(p: string, a: string, b: string)
    requires p + a == p + b
    ensures a == b
  {
    assert a == (p + a)[|p|..];
    assert b == (p + b)[|p|..];
  }

  // ---------------------------------------------------------------------
  // Props, viewport and rendering

  /** The component's props before defaults; `None` is an omitted prop. */
  datatype PropsInput = PropsInput(
    captions: Option<seq<Caption>>,
    darkMode: Option<bool>,
    secondsPer100vh: Option<real>,
    readOnly: Option<bool>)

  datatype Props = Props(captions: seq<Caption>, darkMode: bool, secondsPer100vh: real, readOnly: bool)

  /** Omitted props default to no captions, light mode, 1.5 seconds per
      viewport height and read-only; given props are kept. */
  function WithDefaults(p: PropsInput): (r: Props)
    ensures p.captions.None? ==> r.captions == []
    ensures p.darkMode.None? ==> !r.darkMode
    ensures p.secondsPer100vh.None? ==> r.secondsPer100vh == DefaultSecondsPer100vh
    ensures p.readOnly.None? ==> r.readOnly
    ensures p.captions.Some? ==> r.captions == p.captions.value
    ensures p.darkMode.Some? ==> r.darkMode == p.darkMode.value
    ensures p.secondsPer100vh.Some? ==> r.secondsPer100vh == p.secondsPer100vh.value
    ensures p.readOnly.Some? ==> r.readOnly == p.readOnly.value
  {
    Props(p.captions.GetOr([]), p.darkMode.GetOr(false),
          p.secondsPer100vh.GetOr(DefaultSecondsPer100vh), p.readOnly.GetOr(true))
  }

  /** The component's layout state: the recorded window size, the picked
      source and the extra height given to an overflowing last section. */
  datatype Layout = Layout(innerWidth: int, innerHeight: real, pickedSource: Option<string>, overflowHeight: real)

  const InitialLayout: Layout := Layout(0, 0.0, Some(""), 0.0)

  /** The (debounced) resize handler. `overflow` is how far the last section
      sticks out below the container, `None` when either element is missing.
      The window size is recorded only when the width changed. */
  function OnResize(l: Layout, width: int, height: real, src: Option<string>, mobileSrc: Option<string>,
                    overflow: Option<real>): (r: Layout)
    ensures r.pickedSource == PickVideoSource(width, src, mobileSrc)
    ensures r.innerWidth == width
    ensures r.innerHeight == (if width != l.innerWidth then height else l.innerHeight)
    ensures r.overflowHeight == l.overflowHeight || (overflow == Some(r.overflowHeight) && r.overflowHeight > 0.0)
    ensures overflow.Some? && overflow.value > 0.0 ==> r.overflowHeight == overflow.value
  {
    var overflowHeight := if overflow.Some? && overflow.value > 0.0 then overflow.value else l.overflowHeight;
    var w := if width != l.innerWidth then (width, height) else (l.innerWidth, l.innerHeight);
    Layout(w.0, w.1, PickVideoSource(width, src, mobileSrc), overflowHeight)
  }

  /** The overflow height starts at zero and never becomes negative. */
  lemma OverflowNeverNegative(l: Layout, width: int, height: real, src: Option<string>, mobileSrc: Option<string>,
                              overflow: Option<real>)
    requires l.overflowHeight >= 0.0
    ensures OnResize(l, width, height, src, mobileSrc, overflow).overflowHeight >= 0.0
  {
  }

  /** What the component draws. */
  datatype Rendered = Rendered(sections: seq<Section>, sectionsHeight: Option<real>, overflowHeight: real)

  /** Nothing is drawn while the recorded window width is 0; otherwise the
      sections of all captions and a container as tall as the video's offset. */
  function Render(l: Layout, p: Props, duration: real): (r: Option<Rendered>)
    ensures r.None? <==> l.innerWidth == 0
    ensures r.Some? ==> |r.value.sections| == |p.captions|
    ensures r.Some? ==> forall i :: 0 <= i < |p.captions| ==>
      r.value.sections[i] == SectionFor(p.captions[i], i, |p.captions|, p.darkMode,
                                        p.secondsPer100vh, l.innerHeight, p.readOnly)
    ensures r.Some? ==> r.value.sectionsHeight == Offset(duration, p.secondsPer100vh, l.innerHeight)
    ensures r.Some? ==> r.value.overflowHeight == l.overflowHeight
  {
    if l.innerWidth == 0 then None
    else Some(Rendered(Sections(p.captions, p.darkMode, p.secondsPer100vh, l.innerHeight, p.readOnly),
                       Offset(duration, p.secondsPer100vh, l.innerHeight), l.overflowHeight))
  }

  /** With a positive `secondsPer100vh`, every section whose caption starts
      within the video sits inside the sections container. */
  lemma SectionsInsideContainer(l: Layout, p: Props, duration: real, i: nat)
    requires p.secondsPer100vh > 0.0 && l.innerHeight >= 0.0
    requires l.innerWidth != 0
    requires i < |p.captions|
    requires 0.0 <= p.captions[i].startTime <= duration
    ensures var r := Render(l, p, duration).value;
      0.0 <= r.sections[i].top.value <= r.sectionsHeight.value
  {
    OffsetOrder(p.captions[i].startTime, duration, p.secondsPer100vh, l.innerHeight);
  }

  /** The first resize after mount records a non-zero width, and from then on
      the component draws. */
  lemma FirstResizeEnablesRendering(width: int, height: real, src: Option<string>, mobileSrc: Option<string>,
                                    overflow: Option<real>, p: Props, duration: real)
    requires width != 0
    ensures Render(InitialLayout, p, duration).None?
    ensures Render(OnResize(InitialLayout, width, height, src, mobileSrc, overflow), p, duration).Some?
  {
  }
}

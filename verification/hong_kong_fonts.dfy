/** Font selection in the Hong Kong street-font 3D scene: clicking a point
    selects its font, a selected font hides the other font models and flies
    the camera to that font's point of interest, returning to the overview
    shows every model again, and the matching font illustration fades in. */
module HongKongFonts {
  import opened Wrappers

  datatype Font = BlowUp | LeeHonKongKai | LeeHonTungKai | Prison

  /** The name of a font's model (`FontName`). */
  function FontName(f: Font): string {
    match f
    case BlowUp => "香港北魏"
    case LeeHonKongKai => "一體成型字"
    case LeeHonTungKai => "勾通字"
    case Prison => "監獄體"
  }

  /** The name of a font's clickable point model (`PointName`). */
  function PointName(f: Font): string {
    match f
    case BlowUp => "blow-up-point"
    case LeeHonKongKai => "lee-hon-kong-kai-point"
    case LeeHonTungKai => "lee-hon-tung-kai-point"
    case Prison => "prison-point"
  }

  /** The selected font; `None` is the empty string the component uses for
      "no font selected" (it never stores any other string). */
  type Selection = Option<Font>

  /** The camera point of interest for a selection: 0 is the overview. */
  function PoiIndex(sel: Selection): (i: nat)
    ensures i == 0 <==> sel.None?
    ensures sel == Some(BlowUp) ==> i == 1
    ensures sel == Some(LeeHonKongKai) ==> i == 2
    ensures sel == Some(LeeHonTungKai) ==> i == 3
    ensures sel == Some(Prison) ==> i == 4
  {
    match sel
    case None => 0
    case Some(BlowUp) => 1
    case Some(LeeHonKongKai) => 2
    case Some(LeeHonTungKai) => 3
    case Some(Prison) => 4
  }

  /** Different selections fly to different points of interest. */
  lemma PoiIndexInjective(a: Selection, b: Selection)
    requires PoiIndex(a) == PoiIndex(b)
    ensures a == b
  {
  }

  /** The font whose point model has this name, if any. */
  function PointToFont(name: string): (r: Option<Font>)
    ensures r.Some? ==> PointName(r.value) == name
    ensures r.None? ==> forall f: Font :: PointName(f) != name
  {
    if name == PointName(BlowUp) then Some(BlowUp)
    else if name == PointName(LeeHonKongKai) then Some(LeeHonKongKai)
    else if name == PointName(LeeHonTungKai) then Some(LeeHonTungKai)
    else if name == PointName(Prison) then Some(Prison)
    else None
  }

  /** Point names identify their fonts. */
  lemma PointToFontRoundTrip(f: Font)
    ensures PointToFont(PointName(f)) == Some(f)
  {
  }

  /** A click whose first hit has a root object named `hitName` (`None` when
      nothing was hit): a point selects its font, anything else keeps the
      selection. */
  function OnClick(sel: Selection, hitName: Option<string>): (r: Selection)
    ensures hitName.Some? && PointToFont(hitName.value).Some? ==> r == PointToFont(hitName.value)
    ensures hitName.None? || PointToFont(hitName.value).None? ==> r == sel
  {
    if hitName.Some? then
      match PointToFont(hitName.value)
      case Some(f) => Some(f)
      case None => sel
    else sel
  }

  // ---------------------------------------------------------------------
  // Scene objects

  /** A direct child of the scene: its three.js type, the name in its user
      data and whether it is drawn. */
  datatype SceneChild = SceneChild(kind: string, name: string, visible: bool)

  predicate IsGroup(o: SceneChild) {
    o.kind == "Group"
  }

  /** Hide every Group not named `name`; other objects are untouched. */
  function HideOtherGroups(children: seq<SceneChild>, name: string): (r: seq<SceneChild>)
    ensures |r| == |children|
    ensures forall i :: 0 <= i < |r| ==> r[i].kind == children[i].kind && r[i].name == children[i].name
    ensures forall i :: 0 <= i < |r| ==>
      (r[i].visible <==> children[i].visible && (!IsGroup(children[i]) || children[i].name == name))
  {
    seq(|children|, i requires 0 <= i < |children| =>
      if IsGroup(children[i]) && children[i].name != name then children[i].(visible := false) else children[i])
  }

  /** Show every Group; other objects are untouched. */
  function ShowAllGroups(children: seq<SceneChild>): (r: seq<SceneChild>)
    ensures |r| == |children|
    ensures forall i :: 0 <= i < |r| ==> r[i].kind == children[i].kind && r[i].name == children[i].name
    ensures forall i :: 0 <= i < |r| ==> (r[i].visible <==> IsGroup(children[i]) || children[i].visible)
  {
    seq(|children|, i requires 0 <= i < |children| =>
      if IsGroup(children[i]) then children[i].(visible := true) else children[i])
  }

  /** The selection effect: the scene after hiding, and the point of interest
      the camera goes to. With no font selected the scene is untouched. */
  function OnSelect(children: seq<SceneChild>, sel: Selection): (r: (seq<SceneChild>, nat))
    ensures r.1 == PoiIndex(sel)
    ensures sel.None? ==> r.0 == children
    ensures sel.Some? ==> r.0 == HideOtherGroups(children, FontName(sel.value))
  {
    match sel
    case None => (children, 0)
    case Some(f) => (HideOtherGroups(children, FontName(f)), PoiIndex(sel))
  }

  /** After a selection, the only Groups still drawn are the selected font's
      (those that were drawn before). */
  lemma SelectionLeavesOnlyItsFont(children: seq<SceneChild>, f: Font, i: nat)
    requires i < |children|
    requires IsGroup(children[i])
    ensures OnSelect(children, Some(f)).0[i].visible <==> children[i].visible && children[i].name == FontName(f)
  {
  }

  /** Progress of the camera controls' transition and the point it heads to. */
  datatype UpdateEvent = UpdateEvent(progress: real, upcomingIndex: int)

  /** The `update` handler: nearly arriving at the overview shows every
      Group; every other update changes nothing. */
  function OnControlsUpdate(children: seq<SceneChild>, e: UpdateEvent): (r: seq<SceneChild>)
    ensures e.progress > 0.9 && e.upcomingIndex == 0 ==> r == ShowAllGroups(children)
    ensures !(e.progress > 0.9 && e.upcomingIndex == 0) ==> r == children
  {
    if e.progress > 0.9 && e.upcomingIndex == 0 then ShowAllGroups(children) else children
  }

  /** Going back to the overview undoes what a selection hid: after it, the
      scene is the scene with all Groups shown, whatever font was selected. */
  lemma OverviewUndoesSelection(children: seq<SceneChild>, f: Font)
    ensures OnControlsUpdate(OnSelect(children, Some(f)).0, UpdateEvent(1.0, 0)) == ShowAllGroups(children)
  {
    var hidden := OnSelect(children, Some(f)).0;
    var a := ShowAllGroups(hidden);
    var b := ShowAllGroups(children);
    assert |a| == |b|;
    forall i | 0 <= i < |a|
      ensures a[i] == b[i]
    {
    }
  }

  // ---------------------------------------------------------------------
  // Parent chain

  /** A three.js object with its chain of parents. */
  datatype Obj = Obj(kind: string, name: string, parent: Option<Obj>)

  /** The `k`-th ancestor of `o` (0 is `o` itself), if the chain is that long. */
  function Ancestor(o: Obj, k: nat): Option<Obj>
    decreases k
  {
    if k == 0 then Some(o)
    else if o.parent.None? then None
    else Ancestor(o.parent.value, k - 1)
  }

  /** Where the walk stops: no parent, or a parent that is the Scene. */
  predicate IsRoot(o: Obj) {
    o.parent.None? || o.parent.value.kind == "Scene"
  }

  /** `getRootParent`: the first ancestor-or-self that is a root, i.e. the
      object under the Scene that the clicked mesh belongs to. */
  function GetRootParent(o: Obj): (r: Obj)
    ensures IsRoot(r)
    ensures exists k: nat :: Ancestor(o, k) == Some(r) && forall j: nat :: j < k ==> Ancestor(o, j).Some? && !IsRoot(Ancestor(o, j).value)
    decreases o
  {
    if IsRoot(o) then
      assert Ancestor(o, 0) == Some(o);
      o
    else
      var r := GetRootParent(o.parent.value);
      var k: nat :| Ancestor(o.parent.value, k) == Some(r) && forall j: nat :: j < k ==> Ancestor(o.parent.value, j).Some? && !IsRoot(Ancestor(o.parent.value, j).value);
      assert Ancestor(o, k + 1) == Some(r);
      assert forall j: nat :: 0 < j < k + 1 ==> Ancestor(o, j) == Ancestor(o.parent.value, j - 1);
      r
  }

  // ---------------------------------------------------------------------
  // Font illustrations

  /** Opacity of the four font illustrations, in the order the page stacks
      them. */
  datatype Opacities = Opacities(blowUp: int, leeHonKongKai: int, leeHonTungKai: int, prison: int)

  /** Every illustration is either fully shown (1) or hidden (0). */
  predicate IsShownOrHidden(o: Opacities) {
    && 0 <= o.blowUp <= 1 && 0 <= o.leeHonKongKai <= 1
    && 0 <= o.leeHonTungKai <= 1 && 0 <= o.prison <= 1
  }

  function OpacityFor(sel: Selection, f: Font): int {
    if sel == Some(f) then 1 else 0
  }

  /** The layout as written: the Prison illustration is keyed on
      LEE_HON_TUNG_KAI instead of PRISON. */
  function LayoutAsWritten(sel: Selection): (r: Opacities)
    ensures IsShownOrHidden(r)
    ensures (r.blowUp == 1 <==> sel == Some(BlowUp)) && (r.leeHonKongKai == 1 <==> sel == Some(LeeHonKongKai))
    ensures (r.leeHonTungKai == 1 <==> sel == Some(LeeHonTungKai)) && (r.prison == 1 <==> sel == Some(LeeHonTungKai))
  {
    Opacities(OpacityFor(sel, BlowUp), OpacityFor(sel, LeeHonKongKai), OpacityFor(sel, LeeHonTungKai),
              OpacityFor(sel, LeeHonTungKai))
  }

  /** As written, selecting Prison shows no illustration, and selecting
      LEE_HON_TUNG_KAI shows two at once. */
  lemma LayoutAsWrittenMisplacesPrison()
    ensures LayoutAsWritten(Some(Prison)) == Opacities(0, 0, 0, 0)
    ensures LayoutAsWritten(Some(LeeHonTungKai)).leeHonTungKai == 1
    ensures LayoutAsWritten(Some(LeeHonTungKai)).prison == 1
  {
  }

  /** The layout with each illustration keyed on its own font. */
  function Layout(sel: Selection): (r: Opacities)
    ensures IsShownOrHidden(r)
    ensures (r.blowUp == 1 <==> sel == Some(BlowUp)) && (r.leeHonKongKai == 1 <==> sel == Some(LeeHonKongKai))
    ensures (r.leeHonTungKai == 1 <==> sel == Some(LeeHonTungKai)) && (r.prison == 1 <==> sel == Some(Prison))
  {
    Opacities(OpacityFor(sel, BlowUp), OpacityFor(sel, LeeHonKongKai), OpacityFor(sel, LeeHonTungKai),
              OpacityFor(sel, Prison))
  }

  /** The number of illustrations drawn opaque. */
  function Shown(o: Opacities): int {
    o.blowUp + o.leeHonKongKai + o.leeHonTungKai + o.prison
  }

  /** The written layout agrees with the corrected one on every selection
      except the two the quirk touches. */
  lemma LayoutAsWrittenAgreesElsewhere(sel: Selection)
    requires sel != Some(Prison) && sel != Some(LeeHonTungKai)
    ensures LayoutAsWritten(sel) == Layout(sel)
  {
  }

  /** With the corrected layout exactly one illustration is shown when a font
      is selected and none otherwise. */
  lemma LayoutShowsExactlySelected(sel: Selection)
    ensures Shown(Layout(sel)) == (if sel.Some? then 1 else 0)
  {
    match sel
    case None =>
      assert Layout(sel) == Opacities(0, 0, 0, 0);
    case Some(BlowUp) =>
      assert Layout(sel) == Opacities(1, 0, 0, 0);
    case Some(LeeHonKongKai) =>
      assert Layout(sel) == Opacities(0, 1, 0, 0);
    case Some(LeeHonTungKai) =>
      assert Layout(sel) == Opacities(0, 0, 1, 0);
    case Some(Prison) =>
      assert Layout(sel) == Opacities(0, 0, 0, 1);
  }

  // ---------------------------------------------------------------------
  // Loaded models

  /** A loaded model file: `data` is `null` when loading failed, and its
      scene gets the configured user data. */
  datatype Gltf = Gltf(sceneName: string, userData: string)
  datatype ModelObj = ModelObj(data: Option<Gltf>, userData: string)

  /** A loaded model's scene tagged with its configured user data. */
  function Tagged(o: ModelObj): Gltf
    requires o.data.Some?
  {
    o.data.value.(userData := o.userData)
  }

  /** What one entry contributes: its tagged scene, or nothing if it failed. */
  function Head(o: ModelObj): seq<Gltf> {
    if o.data.Some? then [Tagged(o)] else []
  }

  /** `g` is the tagged scene of some loaded entry of `objs`. */
  ghost predicate LoadedFrom(objs: seq<ModelObj>, g: Gltf) {
    exists i :: 0 <= i < |objs| && objs[i].data.Some? && g == Tagged(objs[i])
  }

  /** `onModelsLoaded`: the loaded models, each tagged with its user data,
      in configuration order, skipping the failed ones. */
  function Loaded(objs: seq<ModelObj>): (r: seq<Gltf>)
    ensures |r| <= |objs|
    ensures forall g :: g in r ==> LoadedFrom(objs, g)
    decreases |objs|
  {
    if objs == [] then []
    else
      var rest := Loaded(objs[1..]);
      var head := Head(objs[0]);
      forall g | g in rest
        ensures LoadedFrom(objs, g)
      {
        var i :| 0 <= i < |objs[1..]| && objs[1..][i].data.Some? && g == Tagged(objs[1..][i]);
        assert objs[i + 1] == objs[1..][i];
      }
      head + rest
  }

  /** Loading distributes over concatenation, so the kept models appear in
      configuration order. */
  lemma {:induction false} LoadedAppend(a: seq<ModelObj>, b: seq<ModelObj>)
    ensures Loaded(a + b) == Loaded(a) + Loaded(b)
    decreases |a|
  {
    if a == [] {
      assert a + b == b;
    } else {
      var ab := a + b;
      assert ab[0] == a[0];
      assert ab[1..] == a[1..] + b;
      LoadedAppend(a[1..], b);
      calc {
        Loaded(ab);
        Head(a[0]) + Loaded(a[1..] + b);
        Head(a[0]) + (Loaded(a[1..]) + Loaded(b));
        (Head(a[0]) + Loaded(a[1..])) + Loaded(b);
        Loaded(a) + Loaded(b);
      }
    }
  }

  /** Every model that loaded is kept. */
  lemma {:induction false} LoadedKeepsEveryLoadedModel(objs: seq<ModelObj>, i: nat)
    requires i < |objs| && objs[i].data.Some?
    ensures Tagged(objs[i]) in Loaded(objs)
    decreases i
  {
    if i > 0 {
      LoadedKeepsEveryLoadedModel(objs[1..], i - 1);
      assert objs[1..][i - 1] == objs[i];
    }
  }
}

/** The CMS list of scroll-driven 3D models: the input hook that merges the
    model URL into the stored camera-helper data over its defaults, and the
    embed code, whose points of interest are stripped of their images. */
module ScrollableThreeModelList {
  import opened Wrappers
  import opened Json

  const CameraHelperDataKey: string := "cameraHelperData"
  const ModelObjsKey: string := "modelObjs"
  const PlainPoisKey: string := "plainPois"
  const PoisKey: string := "pois"
  const AnimationClipKey: string := "animationClip"
  const ImageKey: string := "image"
  const UrlKey: string := "url"

  /** The defaults the stored camera-helper data is merged over. */
  const Defaults: Object := map[ModelObjsKey := JArr([]), PlainPoisKey := JArr([]), AnimationClipKey := JNull]

  /** The `modelObjs` entry that points at `modelSrc`. */
  function ModelObjsFor(modelSrc: string): Json {
    JArr([JObj(map[UrlKey := JStr(modelSrc)])])
  }

  /** `resolveInput`: with a model URL in the update, the resolved data gets
      the defaults, overridden by the stored camera-helper data, overridden
      by a `modelObjs` holding just that URL; without one it is returned
      unchanged. */
  function ResolveInput(modelSrc: Option<string>, itemData: Option<Object>, resolved: Object): (r: Object)
    ensures !StrTruthy(modelSrc) ==> r == resolved
    ensures StrTruthy(modelSrc) ==>
      && r.Keys == resolved.Keys + {CameraHelperDataKey}
      && (forall k :: k in resolved && k != CameraHelperDataKey ==> r[k] == resolved[k])
      && r[CameraHelperDataKey].JObj?
      && var d := r[CameraHelperDataKey].fields;
         && d.Keys == Defaults.Keys + OrEmpty(itemData).Keys
         && d[ModelObjsKey] == ModelObjsFor(modelSrc.value)
         && (forall k :: k in OrEmpty(itemData) && k != ModelObjsKey ==> d[k] == OrEmpty(itemData)[k])
         && (forall k :: k in Defaults && k !in OrEmpty(itemData) && k != ModelObjsKey ==> d[k] == Defaults[k])
  {
    if StrTruthy(modelSrc) then
      var merged := Assign(Assign(Defaults, OrEmpty(itemData)), map[ModelObjsKey := ModelObjsFor(modelSrc.value)]);
      resolved[CameraHelperDataKey := JObj(merged)]
    else resolved
  }

  /** Stored data lacking every default key gets all three defaults, with
      `modelObjs` pointing at the new URL. */
  lemma ResolveInputFillsDefaults(modelSrc: string, resolved: Object)
    requires modelSrc != ""
    ensures var d := ResolveInput(Some(modelSrc), None, resolved)[CameraHelperDataKey].fields;
      d == map[ModelObjsKey := ModelObjsFor(modelSrc), PlainPoisKey := JArr([]), AnimationClipKey := JNull]
  {
  }

  /** `{ image, ...rest } = poi`: the point of interest without its image. */
  function StripImage(poi: Object): (r: Object)
    ensures r.Keys == poi.Keys - {ImageKey}
    ensures forall k :: k in r ==> r[k] == poi[k]
  {
    poi - {ImageKey}
  }

  /** Stripping keeps everything but the image: putting the image back
      restores the point, and stripping twice is stripping once. */
  lemma StripImageLaws(poi: Object)
    ensures StripImage(StripImage(poi)) == StripImage(poi)
    ensures ImageKey in poi ==> StripImage(poi)[ImageKey := poi[ImageKey]] == poi
    ensures ImageKey !in poi ==> StripImage(poi) == poi
  {
  }

  /** A JSON array whose every element is an object. */
  predicate IsObjectArray(v: Json) {
    v.JArr? && forall i :: 0 <= i < |v.items| ==> v.items[i].JObj?
  }

  /** `pois?.map(...)` on the stored `pois`: `undefined` and `null` give
      `undefined`, an array of objects gives each object without its image,
      anything else fails. */
  function StripPois(pois: Option<Json>): (r: Result<Option<seq<Object>>>)
    ensures r.Failure? <==> !(pois.None? || pois == Some(JNull) || IsObjectArray(pois.value))
    ensures (pois.None? || pois == Some(JNull)) ==> r == Success(None)
    ensures r.Success? && r.value.Some? ==>
      && pois.Some? && pois.value.JArr?
      && |r.value.value| == |pois.value.items|
      && forall i :: 0 <= i < |pois.value.items| ==>
           pois.value.items[i].JObj? && r.value.value[i] == StripImage(pois.value.items[i].fields)
    ensures pois.Some? && IsObjectArray(pois.value) ==> r.Success? && r.value.Some?
  {
    if pois.None? || pois == Some(JNull) then Success(None)
    else if IsObjectArray(pois.value) then
      var items := pois.value.items;
      Success(Some(seq(|items|, i requires 0 <= i < |items| => StripImage(items[i].fields))))
    else Failure("pois is not an array of objects")
  }

  /** What the embed-code generator receives; `None` is `undefined`. */
  datatype EmbedProps = EmbedProps(modelObjs: Option<Json>, pois: Option<seq<Object>>, animationClip: Option<Json>)

  const CommentOpen: string := "<!-- 捲動式 3D 模型："
  const CommentClose: string := " -->"

  /** The embed code of an item named `name`: a comment naming the item,
      followed by what the (foreign) generator `generate` makes of the props.
      Without camera-helper data the destructuring throws. */
  function EmbedCode(name: string, data: Option<Object>, generate: EmbedProps -> string): (r: Result<string>)
    ensures r.Failure? <==> data.None? || StripPois(Get(data.value, PoisKey)).Failure?
    ensures r.Success? ==>
      var p := StripPois(Get(data.value, PoisKey));
      && p.Success?
      && r.value == CommentOpen + name + CommentClose
           + generate(EmbedProps(Get(data.value, ModelObjsKey), p.value, Get(data.value, AnimationClipKey)))
  {
    if data.None? then Failure("cameraHelperData is undefined")
    else
      var d := data.value;
      var pois := StripPois(Get(d, PoisKey));
      if pois.Failure? then Failure(pois.error)
      else Success(CommentOpen + name + CommentClose
                   + generate(EmbedProps(Get(d, ModelObjsKey), pois.value, Get(d, AnimationClipKey))))
  }

  /** The item name can be read back from the head of the embed code. */
  lemma EmbedCodeNamesItem(name: string, data: Object, generate: EmbedProps -> string)
    requires EmbedCode(name, Some(data), generate).Success?
    ensures var code := EmbedCode(name, Some(data), generate).value;
      && |code| >= |CommentOpen| + |name| + |CommentClose|
      && code[..|CommentOpen|] == CommentOpen
      && code[|CommentOpen|..|CommentOpen| + |name|] == name
  {
  }
}

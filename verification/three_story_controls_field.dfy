/** The CMS field that edits camera-helper data: it keeps the parsed field
    value as the helper's props, re-parses when the stored value changes, and
    reports the helper's changes merged over the current `modelObjs`.
    `JSON.parse` is a parameter; `JSON.stringify` is left as the value. */
module ThreeStoryControlsField {
  import opened Wrappers
  import opened Json

  const ModelObjsKey: string := "modelObjs"
  const PoisKey: string := "pois"

  /** The field's props (`cameraHelperProp`) and the value they were parsed
      from (`prevValue`). */
  datatype FieldState = FieldState(prop: Json, prevValue: Option<string>)

  /** The props parsed from a stored value; an empty or missing value gives
      the empty object. */
  function PropOf(value: Option<string>, parse: string -> Json): (r: Json)
    ensures StrTruthy(value) ==> r == parse(value.value)
    ensures !StrTruthy(value) ==> r == JObj(map[])
  {
    if StrTruthy(value) then parse(value.value) else JObj(map[])
  }

  function Init(value: Option<string>, parse: string -> Json): (s: FieldState)
    ensures s.prevValue == value
    ensures s.prop == PropOf(value, parse)
  {
    FieldState(PropOf(value, parse), value)
  }

  /** A render with the current stored value: a value different from the one
      last parsed is parsed again and recorded; the same value changes
      nothing. */
  function Rerender(s: FieldState, value: Option<string>, parse: string -> Json): (r: FieldState)
    ensures r.prevValue == value
    ensures value == s.prevValue ==> r == s
    ensures value != s.prevValue ==> r.prop == PropOf(value, parse)
  {
    if value != s.prevValue then FieldState(PropOf(value, parse), value) else s
  }

  /** After any render the props are those parsed from the value rendered
      last, whatever happened before, so a second render with the same value
      is a no-op. */
  lemma RerenderSettles(s: FieldState, value: Option<string>, parse: string -> Json)
    requires s == Init(s.prevValue, parse)
    ensures Rerender(s, value, parse) == Init(value, parse)
    ensures Rerender(Rerender(s, value, parse), value, parse) == Rerender(s, value, parse)
  {
  }

  /** `cameraHelperProp?.modelObjs || []`. */
  function ModelObjs(prop: Json): (r: Json)
    ensures Prop(prop, ModelObjsKey).Some? && Truthy(Prop(prop, ModelObjsKey).value) ==> r == prop.fields[ModelObjsKey]
    ensures !(Prop(prop, ModelObjsKey).Some? && Truthy(Prop(prop, ModelObjsKey).value)) ==> r == JArr([])
  {
    OrElse(Prop(prop, ModelObjsKey), JArr([]))
  }

  /** `cameraHelperProp?.pois || []`. */
  function Pois(prop: Json): (r: Json)
    ensures Prop(prop, PoisKey).Some? && Truthy(Prop(prop, PoisKey).value) ==> r == prop.fields[PoisKey]
    ensures !(Prop(prop, PoisKey).Some? && Truthy(Prop(prop, PoisKey).value)) ==> r == JArr([])
  {
    OrElse(Prop(prop, PoisKey), JArr([]))
  }

  /** The helper reported `value`: the field reports `{modelObjs}` merged
      with it, the helper's keys winning, and only when the field has an
      `onChange` callback. */
  function OnChange(hasCallback: bool, modelObjs: Json, value: Object): (r: Option<Json>)
    ensures r.Some? <==> hasCallback
    ensures r.Some? ==> r.value.JObj?
    ensures r.Some? ==> r.value.fields.Keys == value.Keys + {ModelObjsKey}
    ensures r.Some? ==> forall k :: k in value ==> r.value.fields[k] == value[k]
    ensures r.Some? && ModelObjsKey !in value ==> r.value.fields[ModelObjsKey] == modelObjs
  {
    if hasCallback then Some(JObj(Assign(map[ModelObjsKey := modelObjs], value))) else None
  }

  /** When the reported value is stored and parsed back, the field's props
      keep the models it showed (unless the helper reported its own) and take
      the helper's points of interest. */
  lemma ReportRoundTrip(s: FieldState, value: Object, stored: string, parse: string -> Json)
    requires stored != "" && Some(stored) != s.prevValue
    requires OnChange(true, ModelObjs(s.prop), value) == Some(parse(stored))
    ensures var r := Rerender(s, Some(stored), parse);
      && (ModelObjsKey !in value ==> ModelObjs(r.prop) == ModelObjs(s.prop))
      && (PoisKey in value ==> Pois(r.prop) == OrElse(Some(value[PoisKey]), JArr([])))
  {
    var r := Rerender(s, Some(stored), parse);
    assert r.prop == parse(stored);
  }
}

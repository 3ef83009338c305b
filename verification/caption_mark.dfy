/** The caption mark on the editor's progress bar: a four-mode state machine
    driven by icon clicks and by the confirm/cancel actions of the delete
    dialog and the caption input, which reports a change of its caption
    (`onChange(caption)`) or its deletion (`onChange(null)`). */
module CaptionMark {
  import opened Wrappers
  import opened Captions

  datatype Mode = Default | Tooltip | Edit | Delete

  /** The string each mode is stored as (`modes` in the component). */
  function ModeName(m: Mode): string {
    match m
    case Default => "default"
    case Tooltip => "tooltip"
    case Edit => "edit"
    case Delete => "delete"
  }

  /** The initial mode of every mark. */
  const InitialMode: Mode := Default

  /** Which icons are drawn. */
  datatype Icons = MarkIconOnly | EditAndDeleteIcons

  /** The icon `switch` on the stored mode string: the three non-default modes
      share one case, and `'default'` and every other string fall to the
      default case. */
  function IconsFor(mode: string): Icons {
    if mode == "tooltip" || mode == "delete" || mode == "edit" then EditAndDeleteIcons
    else MarkIconOnly
  }

  /** What the mark shows in a mode. */
  datatype View = View(icons: Icons, deleteDialogOpen: bool, captionInputShown: bool)

  function ViewOf(m: Mode): (v: View)
    ensures v.icons == MarkIconOnly <==> m == Default
    ensures v.deleteDialogOpen <==> m == Delete
    ensures v.captionInputShown <==> m == Edit
  {
    View(IconsFor(ModeName(m)), m == Delete, m == Edit)
  }

  /** A string the component never stores draws the same icons as `'default'`. */
  lemma UnknownModeActsAsDefault(s: string)
    requires forall m: Mode :: s != ModeName(m)
    ensures IconsFor(s) == IconsFor(ModeName(Default))
  {
    assert s != ModeName(Tooltip) && s != ModeName(Edit) && s != ModeName(Delete);
  }

  /** User actions on the mark. */
  datatype Event =
    | MarkIconClick
    | EditIconClick
    | DeleteIconClick
    | DeleteConfirm
    | DeleteCancel
    | EditConfirm(caption: Caption)
    | EditCancel

  /** An action is possible only when its control is on screen. */
  predicate Enabled(v: View, e: Event) {
    match e
    case MarkIconClick => v.icons == MarkIconOnly
    case EditIconClick => v.icons == EditAndDeleteIcons
    case DeleteIconClick => v.icons == EditAndDeleteIcons
    case DeleteConfirm => v.deleteDialogOpen
    case DeleteCancel => v.deleteDialogOpen
    case EditConfirm(_) => v.captionInputShown
    case EditCancel => v.captionInputShown
  }

  /** What the mark reports to its owner: nothing, or `onChange(change)`
      where `None` is `null` (delete). */
  datatype Emission = Silent | Changed(change: Option<Caption>)

  datatype Transition = Transition(mode: Mode, emission: Emission)

  /** One action. An action whose control is not on screen changes nothing. */
  function Step(m: Mode, e: Event): (t: Transition)
    ensures !Enabled(ViewOf(m), e) ==> t == Transition(m, Silent)
    ensures t.emission.Changed? ==> t.mode == Default
    ensures t.emission == Changed(None) <==> m == Delete && e == DeleteConfirm
    ensures (exists c :: t.emission == Changed(Some(c))) <==> m == Edit && e.EditConfirm?
    ensures m == Edit && e.EditConfirm? ==> t.emission == Changed(Some(e.caption))
    ensures t.mode == Tooltip <==>
      (m == Tooltip && !(e.EditIconClick? || e.DeleteIconClick?)) || (m == Default && e == MarkIconClick)
    ensures Enabled(ViewOf(m), e) && e == EditIconClick ==> t == Transition(Edit, Silent)
    ensures Enabled(ViewOf(m), e) && e == DeleteIconClick ==> t == Transition(Delete, Silent)
    ensures Enabled(ViewOf(m), e) && (e == DeleteCancel || e == EditCancel) ==> t == Transition(Default, Silent)
  {
    if !Enabled(ViewOf(m), e) then Transition(m, Silent)
    else
      match e
      case MarkIconClick => Transition(Tooltip, Silent)
      case EditIconClick => Transition(Edit, Silent)
      case DeleteIconClick => Transition(Delete, Silent)
      case DeleteConfirm => Transition(Default, Changed(None))
      case DeleteCancel => Transition(Default, Silent)
      case EditConfirm(c) => Transition(Default, Changed(Some(c)))
      case EditCancel => Transition(Default, Silent)
  }

  /** The changes reported over a run of actions, in order, and the final mode. */
  datatype Run = Run(mode: Mode, changes: seq<Option<Caption>>)

  function RunEvents(m: Mode, es: seq<Event>): Run
    decreases |es|
  {
    if es == [] then Run(m, [])
    else
      var t := Step(m, es[0]);
      var rest := RunEvents(t.mode, es[1..]);
      if t.emission.Changed? then Run(rest.mode, [t.emission.change] + rest.changes)
      else rest
  }

  /** Number of confirm actions in a run. */
  function Confirms(es: seq<Event>): nat {
    if es == [] then 0
    else (if es[0] == DeleteConfirm || es[0].EditConfirm? then 1 else 0) + Confirms(es[1..])
  }

  /** Each confirm reports at most once, cancels never report, and every
      caption reported as edited is one an edit confirm carried. */
  lemma {:induction false} RunReportsOnlyConfirms(m: Mode, es: seq<Event>)
    ensures |RunEvents(m, es).changes| <= Confirms(es)
    ensures forall c :: Some(c) in RunEvents(m, es).changes ==> EditConfirm(c) in es
    decreases |es|
  {
    if es != [] {
      var t := Step(m, es[0]);
      RunReportsOnlyConfirms(t.mode, es[1..]);
      assert es == [es[0]] + es[1..];
      forall c | Some(c) in RunEvents(m, es).changes
        ensures EditConfirm(c) in es
      {
        if t.emission.Changed? && t.emission.change == Some(c) {
          assert es[0] == EditConfirm(c);
        } else {
          assert Some(c) in RunEvents(t.mode, es[1..]).changes;
        }
      }
    }
  }

  /** From the initial mode a mark needs at least two actions (open the
      tooltip, pick an icon) before a confirm can report anything. */
  lemma ConfirmNeedsTwoPriorClicks(e1: Event, e2: Event)
    ensures Step(InitialMode, e1).emission == Silent
    ensures Step(Step(InitialMode, e1).mode, e2).emission == Silent
  {
  }
}

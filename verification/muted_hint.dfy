/** The page-wide muted flag shared by every karaoke block on a page, and the
    hint that toggles it. Each block keeps a local copy of the flag that it
    re-reads from a global slot after each of its renders; writes go to both. */
module MutedHint {
  import opened Wrappers
  import opened Json

  /** The value found at `window.__twreporter_story_telling_muted_controller?.muted`,
      `None` when there is none. */
  type GlobalSlot = Option<Json>

  /** The local flag of a new block: `initialValue`, muted when omitted. */
  function InitialMuted(initialValue: Option<bool>): (r: bool)
    ensures initialValue.None? ==> r
    ensures initialValue.Some? ==> r == initialValue.value
  {
    initialValue.GetOr(true)
  }

  /** The effect after a render: a boolean in the global slot is adopted,
      anything else leaves the local flag as it is. */
  function SyncFromGlobal(local: bool, slot: GlobalSlot): (r: bool)
    ensures slot.Some? && slot.value.JBool? ==> r == slot.value.b
    ensures !(slot.Some? && slot.value.JBool?) ==> r == local
  {
    if slot.Some? && slot.value.JBool? then slot.value.b else local
  }

  /** The flag as one block holds it: the global slot and its local copy. */
  datatype Shared = Shared(slot: GlobalSlot, local: bool)

  /** `setMuted(b)`: the global slot and the local flag both become `b`. */
  function SetMuted(b: bool): (r: Shared)
    ensures r.slot == Some(JBool(b)) && r.local == b
    ensures SyncFromGlobal(!b, r.slot) == b
  {
    Shared(Some(JBool(b)), b)
  }

  /** What the hint shows. */
  datatype Icon = SoundIcon | MuteIcon
  datatype HintView = HintView(text: string, buttonLabel: string, buttonClass: string, icon: Icon)

  const MutedText: string := "本文含聲音敘事，開啟聲音以獲得完整閱讀體驗"
  const UnmutedText: string := "已開啟本篇文章的聲音"

  /** The hint text and button are a function of the flag alone. */
  function ViewOf(muted: bool): (v: HintView)
    ensures v.text == (if muted then MutedText else UnmutedText)
    ensures v.buttonLabel == (if muted then "開啟聲音" else "關閉聲音")
    ensures v.icon == (if muted then SoundIcon else MuteIcon)
  {
    if muted then HintView(MutedText, "開啟聲音", "dark", SoundIcon)
    else HintView(UnmutedText, "關閉聲音", "light", MuteIcon)
  }

  /** The view tells the two states apart. */
  lemma ViewOfInjective(a: bool, b: bool)
    requires ViewOf(a) == ViewOf(b)
    ensures a == b
  {
  }

  /** A click on the hint's button: the flag flips, and the Safari workaround
      runs exactly when sound is being switched on. */
  datatype Click = Click(after: Shared, workaround: bool)

  function OnClick(muted: bool): (c: Click)
    ensures c.after.local == !muted && c.after.slot == Some(JBool(!muted))
    ensures c.workaround <==> muted
  {
    Click(SetMuted(!muted), muted)
  }

  /** A page: the global slot and the local flag of every block on it. */
  datatype Page = Page(slot: GlobalSlot, locals: seq<bool>)

  /** Block `i` is clicked: it writes the flipped flag to the slot and to its
      own copy; the other blocks keep their copies until they render. */
  function ClickOn(p: Page, i: nat): (r: Page)
    requires i < |p.locals|
    ensures |r.locals| == |p.locals|
    ensures r.slot == Some(JBool(!p.locals[i])) && r.locals[i] == !p.locals[i]
    ensures forall j :: 0 <= j < |p.locals| && j != i ==> r.locals[j] == p.locals[j]
  {
    var c := OnClick(p.locals[i]);
    Page(c.after.slot, p.locals[i := c.after.local])
  }

  /** Every block renders once and runs its sync effect. */
  function RenderAll(p: Page): (r: Page)
    ensures r.slot == p.slot && |r.locals| == |p.locals|
    ensures forall j :: 0 <= j < |p.locals| ==> r.locals[j] == SyncFromGlobal(p.locals[j], p.slot)
  {
    Page(p.slot, seq(|p.locals|, j requires 0 <= j < |p.locals| => SyncFromGlobal(p.locals[j], p.slot)))
  }

  /** The page agrees with itself: every block holds what the slot holds. */
  predicate Agreed(p: Page) {
    p.slot.Some? && p.slot.value.JBool? && forall j :: 0 <= j < |p.locals| ==> p.locals[j] == p.slot.value.b
  }

  /** Muting or unmuting in one block reaches every block by their next
      render: the whole page then holds the new flag. */
  lemma ClickReachesEveryBlock(p: Page, i: nat)
    requires i < |p.locals|
    ensures Agreed(RenderAll(ClickOn(p, i)))
    ensures RenderAll(ClickOn(p, i)).slot == Some(JBool(!p.locals[i]))
  {
  }

  /** On an agreed page, two clicks (on any blocks) with renders in between
      bring the page back to where it was. */
  lemma TwoClicksRestore(p: Page, i: nat, j: nat)
    requires Agreed(p)
    requires i < |p.locals| && j < |p.locals|
    ensures RenderAll(ClickOn(RenderAll(ClickOn(p, i)), j)) == p
  {
    var q := RenderAll(ClickOn(p, i));
    var r := RenderAll(ClickOn(q, j));
    assert r.locals == p.locals;
  }
}

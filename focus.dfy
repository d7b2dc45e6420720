/** `useFocus`: opening the floating element while its reference has focus,
    with the `:focus-visible` heuristics for Safari on macOS, and closing it
    when focus moves elsewhere (after a timer that lets the window's blur
    listener run first). */
module Focus {
  import opened Common
  import opened Props
  import opened DomUtils

  /** The visibility check of `onFocus`: without `visibleOnly`, or for a
      target that is not an element, it passes; on Safari for macOS with no
      `relatedTarget` it needs keyboard modality or a typeable target;
      otherwise `matchesFocusVisible`, which always holds. */
  predicate FocusVisible(visibleOnly: bool, macSafari: bool, target: Option<Target>,
                         relatedTargetPresent: bool, keyboardModality: bool)
  {
    if visibleOnly && target.Some? && target.value.IsElement() then
      if macSafari && !relatedTargetPresent then keyboardModality || IsTypeableElement(Some(target.value.element))
      else true
    else true
  }

  /** The heuristic only ever rejects on Safari for macOS, only without a
      `relatedTarget`, and never a typeable target or keyboard focus. */
  lemma FocusVisibleCases(visibleOnly: bool, macSafari: bool, target: Option<Target>,
                          relatedTargetPresent: bool, keyboardModality: bool)
    ensures !FocusVisible(visibleOnly, macSafari, target, relatedTargetPresent, keyboardModality) <==>
      visibleOnly && macSafari && !relatedTargetPresent && target.Some? && target.value.IsElement() &&
      !keyboardModality && !IsTypeableElement(Some(target.value.element))
  {
  }

  class FocusHook {
    const ctx: FloatingContext
    const enabled: bool
    const visibleOnly: bool
    /** `isMacSafari()`, read from the browser. */
    const macSafari: bool

    /** The window listeners the effect registered: `blur`, and the
        modality listeners on Safari for macOS. */
    var windowListening: bool
    var modalityListening: bool

    var blockFocus: bool
    var timeout: int
    var keyboardModality: bool
    /** Pending blur timers by handle, with the `relatedTarget` each
        captured, and the next handle to issue. */
    var timers: map<int, Option<NodeId>>
    var nextHandle: int

    /** Handles are positive and increasing, and at most one blur timer, the
        last one armed, is pending. */
    ghost predicate Valid()
      reads this
    {
      && nextHandle >= 1 && timeout < nextHandle
      && (forall h :: h in timers ==> 0 < h < nextHandle && h == timeout)
      && (modalityListening ==> windowListening)
    }

    constructor (ctx: FloatingContext, enabled: bool, visibleOnly: bool, macSafari: bool, referencePresent: bool)
      ensures Valid()
      ensures this.ctx == ctx && this.enabled == enabled && this.visibleOnly == visibleOnly && this.macSafari == macSafari
      ensures windowListening == (enabled && referencePresent) && modalityListening == (windowListening && macSafari)
      ensures !blockFocus && timeout == -1 && keyboardModality && timers == map[]
    {
      this.ctx := ctx;
      this.enabled := enabled;
      this.visibleOnly := visibleOnly;
      this.macSafari := macSafari;
      windowListening := enabled && referencePresent;
      modalityListening := enabled && referencePresent && macSafari;
      blockFocus := false;
      timeout := -1;
      keyboardModality := true;
      timers := map[];
      nextHandle := 1;
    }

    /** The window's `blur`: blocks the next focus when the element is
        closed and the reference (an HTML element) is the active element,
        so that returning to the tab does not open it. */
    method OnWindowBlur(referenceIsHTMLElement: bool, referenceIsActive: bool)
      requires Valid() && windowListening
      modifies this
      ensures Valid()
      ensures blockFocus == (old(blockFocus) || (!ctx.open && referenceIsHTMLElement && referenceIsActive))
      ensures timeout == old(timeout) && timers == old(timers) && keyboardModality == old(keyboardModality)
      ensures windowListening == old(windowListening) && modalityListening == old(modalityListening)
      ensures nextHandle == old(nextHandle)
    {
      if !ctx.open && referenceIsHTMLElement && referenceIsActive {
        blockFocus := true;
      }
    }

    /** The window's capturing `keydown` (Safari for macOS). */
    method OnWindowKeyDown()
      requires Valid() && modalityListening
      modifies this
      ensures Valid()
      ensures keyboardModality
      ensures blockFocus == old(blockFocus) && timeout == old(timeout) && timers == old(timers)
      ensures windowListening == old(windowListening) && modalityListening == old(modalityListening)
      ensures nextHandle == old(nextHandle)
    {
      keyboardModality := true;
    }

    /** The window's capturing `pointerdown` (Safari for macOS). */
    method OnWindowPointerDown()
      requires Valid() && modalityListening
      modifies this
      ensures Valid()
      ensures !keyboardModality
      ensures blockFocus == old(blockFocus) && timeout == old(timeout) && timers == old(timers)
      ensures windowListening == old(windowListening) && modalityListening == old(modalityListening)
      ensures nextHandle == old(nextHandle)
    {
      keyboardModality := false;
    }

    /** The reference's `onMouseLeave`: unblocks focus. */
    method OnMouseLeave()
      requires Valid()
      modifies this
      ensures Valid()
      ensures !blockFocus
      ensures keyboardModality == old(keyboardModality) && timeout == old(timeout) && timers == old(timers)
      ensures windowListening == old(windowListening) && modalityListening == old(modalityListening)
      ensures nextHandle == old(nextHandle)
    {
      blockFocus := false;
    }

    /** The reference's `onFocus`: nothing while focus is blocked or when the
        visibility check fails; otherwise opens with reason `focus`.  No cell
        of the hook changes. */
    method OnFocus(target: Option<Target>, relatedTargetPresent: bool)
      modifies ctx
      ensures var opens := !blockFocus && FocusVisible(visibleOnly, macSafari, target, relatedTargetPresent, keyboardModality);
        if opens then ctx.open && ctx.reason == Some(Reason.Focus)
        else ctx.open == old(ctx.open) && ctx.reason == old(ctx.reason)
    {
      if blockFocus {
        return;
      }
      if visibleOnly && target.Some? && target.value.IsElement() {
        if macSafari && !relatedTargetPresent {
          if !keyboardModality && !IsTypeableElement(Some(target.value.element)) {
            return;
          }
        }
      }
      ctx.SetOpen(true, Reason.Focus);
    }

    /** The reference's `onBlur`: unblocks focus, cancels the pending blur
        timer and arms a new one that remembers the `relatedTarget`; so
        exactly one blur timer is pending afterwards. */
    method OnBlur(relatedTarget: Option<NodeId>)
      requires Valid()
      modifies this
      ensures Valid()
      ensures !blockFocus
      ensures timeout == old(nextHandle) && nextHandle == old(nextHandle) + 1
      ensures timers == map[timeout := relatedTarget]
      ensures keyboardModality == old(keyboardModality)
      ensures windowListening == old(windowListening) && modalityListening == old(modalityListening)
    {
      assert forall k :: k in timers ==> k == timeout && k > 0;
      blockFocus := false;
      if timeout > 0 {
        timers := timers - {timeout};
        timeout := -1;
      }
      assert timers.Keys == {};
      assert timers == map[];
      var h := nextHandle;
      nextHandle := nextHandle + 1;
      timers := timers[h := relatedTarget];
      timeout := h;
    }

    /** The blur timer fires, with the document's active element at that
        moment: the element stays open when focus left the page (no
        `relatedTarget` and the reference still active) or when focus is
        within the floating or reference element; otherwise it closes with
        reason `focus`. */
    method FireBlurTimer(h: int, activeElement: Option<NodeId>, reference: Option<NodeId>, floating: Option<NodeId>,
                         within: (NodeId, NodeId) -> bool)
      requires Valid() && h in timers
      modifies this, ctx
      ensures Valid()
      ensures timers == map[] && timeout == old(timeout) && nextHandle == old(nextHandle)
      ensures blockFocus == old(blockFocus) && keyboardModality == old(keyboardModality)
      ensures windowListening == old(windowListening) && modalityListening == old(modalityListening)
      ensures var keep := (old(timers[h]).None? && activeElement == reference) ||
                          Contains(within, floating, activeElement) || Contains(within, reference, activeElement);
        if keep then ctx.open == old(ctx.open) && ctx.reason == old(ctx.reason)
        else !ctx.open && ctx.reason == Some(Reason.Focus)
    {
      assert forall k :: k in timers ==> k == h;
      var relatedTarget := timers[h];
      timers := timers - {h};
      assert timers.Keys == {};
      assert timers == map[];
      if relatedTarget.None? && activeElement == reference {
        return;
      }
      if Contains(within, floating, activeElement) || Contains(within, reference, activeElement) {
        return;
      }
      ctx.SetOpen(false, Reason.Focus);
    }

    /** The effect's teardown: the window listeners are removed; a pending
        blur timer is not cancelled. */
    method Dispose()
      requires Valid()
      modifies this
      ensures Valid()
      ensures !windowListening && !modalityListening
      ensures blockFocus == old(blockFocus) && timeout == old(timeout) && timers == old(timers)
      ensures keyboardModality == old(keyboardModality) && nextHandle == old(nextHandle)
    {
      windowListening := false;
      modalityListening := false;
    }

    /** `enabled ? { reference } : {}`. */
    function Contract(): (r: ElementProps)
      ensures !enabled ==> r == NoElementProps
      ensures enabled ==> r.reference.Props? && r.floating.NoProps? && r.item.NoProps?
    {
      HookProps(enabled,
        Props([("onMouseLeave", Fn(MouseLeaveHandler)), ("onFocus", Fn(FocusHandler)), ("onBlur", Fn(BlurHandler))]),
        NoProps, NoProps)
    }
  }

  /** Handlers of the hook, by identity. */
  const MouseLeaveHandler: nat := 600
  const FocusHandler: nat := 601
  const BlurHandler: nat := 602

  /** Leaving the tab while the closed reference has focus blocks the focus
      event of coming back; a mouseleave unblocks it again. */
  method ReturnToTabStaysClosed(target: Option<Target>) returns (openOnReturn: bool, openAfterUnblock: bool)
    ensures !openOnReturn && openAfterUnblock
  {
    var ctx := new FloatingContext(false);
    var hook := new FocusHook(ctx, true, false, false, true);
    hook.OnWindowBlur(true, true);
    hook.OnFocus(target, false);
    openOnReturn := ctx.open;
    hook.OnMouseLeave();
    hook.OnFocus(target, false);
    openAfterUnblock := ctx.open;
  }
}

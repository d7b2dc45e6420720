/** `useClick`: opening and closing the floating element by clicking its
    reference (or pressing it, for `event: 'mousedown'`), and by Enter and
    Space on the keyboard. */
module Click {
  import opened Common
  import opened Props
  import opened DomUtils

  /** The `event` option: which mouse event toggles. */
  datatype ClickEvent = ClickEvt | MouseDownEvt

  /** `isButtonTarget` / `isAnchorTarget`: an HTML element with that exact tag. */
  predicate IsTagTarget(target: Option<Target>, tag: string) {
    target.Some? && target.value.IsHTMLElement() && target.value.element.tagName == tag
  }

  /** The state an accepted activation leaves `open` in: closed when it was
      open and toggling is on, open otherwise. */
  function Activated(wasOpen: bool, toggle: bool): (r: bool)
    ensures toggle ==> r == !wasOpen
    ensures !toggle ==> r
    ensures !wasOpen ==> r
  {
    !(wasOpen && toggle)
  }

  class ClickHook {
    const ctx: FloatingContext
    const enabled: bool
    const eventOption: ClickEvent
    const toggle: bool
    const ignoreMouse: bool
    const keyboardHandlers: bool
    const stickIfOpen: bool

    var pointerType: Option<string>
    var didKeyDown: bool

    /** Defaults: `event: 'click'`, `toggle`, `keyboardHandlers` and
        `stickIfOpen` on, `ignoreMouse` off. */
    constructor (ctx: FloatingContext, enabled: bool, eventOption: ClickEvent, toggle: bool,
                 ignoreMouse: bool, keyboardHandlers: bool, stickIfOpen: bool)
      ensures this.ctx == ctx && this.enabled == enabled && this.eventOption == eventOption
      ensures this.toggle == toggle && this.ignoreMouse == ignoreMouse
      ensures this.keyboardHandlers == keyboardHandlers && this.stickIfOpen == stickIfOpen
      ensures pointerType == None && !didKeyDown
    {
      this.ctx := ctx;
      this.enabled := enabled;
      this.eventOption := eventOption;
      this.toggle := toggle;
      this.ignoreMouse := ignoreMouse;
      this.keyboardHandlers := keyboardHandlers;
      this.stickIfOpen := stickIfOpen;
      pointerType := None;
      didKeyDown := false;
    }

    /** One accepted activation: close if open and toggling, open otherwise,
        with reason `click`. */
    method Activate()
      modifies ctx
      ensures ctx.open == Activated(old(ctx.open), toggle) && ctx.reason == Some(Reason.Click)
    {
      if ctx.open && toggle {
        ctx.SetOpen(false, Reason.Click);
      } else {
        ctx.SetOpen(true, Reason.Click);
      }
    }

    /** `onPointerDown`: remembers the pointer type. */
    method OnPointerDown(pt: Option<string>)
      modifies this
      ensures pointerType == pt && didKeyDown == old(didKeyDown)
    {
      pointerType := pt;
    }

    /** `onMouseDown`: only the main button, only for `event: 'mousedown'`,
        and not for a mouse with `ignoreMouse`.  Opening prevents the default
        action (which would move focus). */
    method OnMouseDown(button: int) returns (prevented: bool)
      modifies ctx
      ensures var accepted := button == 0 && eventOption == MouseDownEvt &&
                              !(IsMouseLikePointerType(pointerType, true) && ignoreMouse);
        && prevented == (accepted && !(old(ctx.open) && toggle))
        && if accepted then ctx.open == Activated(old(ctx.open), toggle) && ctx.reason == Some(Reason.Click)
           else ctx.open == old(ctx.open) && ctx.reason == old(ctx.reason)
    {
      prevented := false;
      if button != 0 {
        return;
      }
      if eventOption == ClickEvt {
        return;
      }
      if IsMouseLikePointerType(pointerType, true) && ignoreMouse {
        return;
      }
      if ctx.open && toggle {
        ctx.SetOpen(false, Reason.Click);
      } else {
        prevented := true;
        ctx.SetOpen(true, Reason.Click);
      }
    }

    /** `onClick`: with `event: 'mousedown'` a click that follows a pointer
        press only forgets the pointer type (the press already toggled);
        otherwise the click toggles, unless it is a mouse with `ignoreMouse`. */
    method OnClick()
      modifies this, ctx
      ensures didKeyDown == old(didKeyDown)
      ensures var swallowed := eventOption == MouseDownEvt && TruthyStr(old(pointerType));
        var accepted := !swallowed && !(IsMouseLikePointerType(old(pointerType), true) && ignoreMouse);
        && pointerType == (if swallowed then None else old(pointerType))
        && if accepted then ctx.open == Activated(old(ctx.open), toggle) && ctx.reason == Some(Reason.Click)
           else ctx.open == old(ctx.open) && ctx.reason == old(ctx.reason)
    {
      if eventOption == MouseDownEvt && TruthyStr(pointerType) {
        pointerType := None;
        return;
      }
      if IsMouseLikePointerType(pointerType, true) && ignoreMouse {
        return;
      }
      Activate();
    }

    /** `onKeyDown`: forgets the pointer type; unless the event was already
        prevented, keyboard handling is off, or the target is a button: Space
        arms the keyup (and is prevented, to stop scrolling) unless the
        reference is typeable, and Enter toggles unless the target is an
        anchor. */
    method OnKeyDown(ev: KeyEvent, target: Option<Target>, domReference: Option<Element>) returns (prevented: bool)
      modifies this, ctx
      ensures pointerType == None
      ensures var handled := !ev.defaultPrevented && keyboardHandlers && !IsTagTarget(target, "BUTTON");
        var arms := handled && ev.key == " " && !IsTypeableElement(domReference);
        var enter := handled && !IsTagTarget(target, "A") && ev.key == "Enter";
        && prevented == arms
        && didKeyDown == (arms || old(didKeyDown))
        && if enter then ctx.open == Activated(old(ctx.open), toggle) && ctx.reason == Some(Reason.Click)
           else ctx.open == old(ctx.open) && ctx.reason == old(ctx.reason)
    {
      prevented := false;
      pointerType := None;
      if ev.defaultPrevented || !keyboardHandlers || IsTagTarget(target, "BUTTON") {
        return;
      }
      if ev.key == " " && !IsTypeableElement(domReference) {
        prevented := true;
        didKeyDown := true;
      }
      if IsTagTarget(target, "A") {
        return;
      }
      if ev.key == "Enter" {
        Activate();
      }
    }

    /** `onKeyUp`: a Space keyup toggles only after an armed Space keydown,
        and disarms it; a typeable reference, a button target, a prevented
        event or disabled keyboard handling ignore it. */
    method OnKeyUp(ev: KeyEvent, target: Option<Target>, domReference: Option<Element>)
      modifies this, ctx
      ensures pointerType == old(pointerType)
      ensures var fires := !ev.defaultPrevented && keyboardHandlers && !IsTagTarget(target, "BUTTON") &&
                           !IsTypeableElement(domReference) && ev.key == " " && old(didKeyDown);
        && didKeyDown == (old(didKeyDown) && !fires)
        && if fires then ctx.open == Activated(old(ctx.open), toggle) && ctx.reason == Some(Reason.Click)
           else ctx.open == old(ctx.open) && ctx.reason == old(ctx.reason)
    {
      if ev.defaultPrevented || !keyboardHandlers || IsTagTarget(target, "BUTTON") ||
         IsTypeableElement(domReference) {
        return;
      }
      if ev.key == " " && didKeyDown {
        didKeyDown := false;
        Activate();
      }
    }

    /** Space pressed and released on the reference: exactly one activation
        when keyboard handling is on, the target is not a button and the
        reference is not typeable (an anchor target included); no change
        otherwise.  Either way the keyup is left disarmed when it fired. */
    method SpacePress(down: KeyEvent, up: KeyEvent, target: Option<Target>, domReference: Option<Element>)
      requires down.key == " " && up.key == " " && !down.defaultPrevented && !up.defaultPrevented
      requires !didKeyDown
      modifies this, ctx
      ensures var activates := keyboardHandlers && !IsTagTarget(target, "BUTTON") && !IsTypeableElement(domReference);
        && !didKeyDown
        && if activates then ctx.open == Activated(old(ctx.open), toggle) && ctx.reason == Some(Reason.Click)
           else ctx.open == old(ctx.open) && ctx.reason == old(ctx.reason)
    {
      var _ := OnKeyDown(down, target, domReference);
      OnKeyUp(up, target, domReference);
    }

    /** `{ reference: enabled ? {...} : undefined }`. */
    function Contract(): (r: ElementProps)
      ensures r.floating.NoProps? && r.item.NoProps?
      ensures r.reference.NoProps? <==> !enabled
    {
      ElementProps(
        if enabled then Props([("onPointerDown", Fn(PointerDownHandler)), ("onMouseDown", Fn(MouseDownHandler)),
                               ("onClick", Fn(ClickHandler)), ("onKeyDown", Fn(KeyDownHandler)),
                               ("onKeyUp", Fn(KeyUpHandler))])
        else NoProps,
        NoProps, NoProps)
    }
  }

  /** Handlers of the hook, by identity. */
  const PointerDownHandler: nat := 300
  const MouseDownHandler: nat := 301
  const ClickHandler: nat := 302
  const KeyDownHandler: nat := 303
  const KeyUpHandler: nat := 304
}

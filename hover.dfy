/** `useHover`: opening the floating element while the pointer is over its
    reference, with open and close delays, a "rest" delay, and an optional
    `handleClose` handler (such as a safe polygon) that decides when to close
    after the pointer leaves.  Timers are explicit: `timers` holds the pending
    callbacks by handle, and `FireTimer` runs one. */
module Hover {
  import opened Common
  import opened Props
  import opened DomUtils

  datatype DelayProp = OpenDelay | CloseDelay

  /** What a `delay` function returns when called. */
  datatype DelayResult = ResultNum(n: int) | ResultObj(open: Option<int>, close: Option<int>) | ResultNone

  /** The `delay` option: a number, a function, an `{open, close}` object, or
      nothing. */
  datatype Delay =
    | DelayNum(n: int)
    | DelayFn(result: DelayResult)
    | DelayObj(open: Option<int>, close: Option<int>)
    | DelayNone

  function Field(open: Option<int>, close: Option<int>, prop: DelayProp): Option<int> {
    if prop == OpenDelay then open else close
  }

  /** `getDelay`: zero for a pointer that is known and not mouse-like;
      otherwise the number, the function's number or its `[prop]`, or the
      object's `[prop]` (`None` is `undefined`). */
  function GetDelay(value: Delay, prop: DelayProp, pointerType: Option<string>): (r: Option<int>)
    ensures TruthyStr(pointerType) && !IsMouseLikePointerType(pointerType, false) ==> r == Some(0)
    ensures !TruthyStr(pointerType) || IsMouseLikePointerType(pointerType, false) ==>
      match value
      case DelayNum(n) => r == Some(n)
      case DelayFn(ResultNum(n)) => r == Some(n)
      case DelayFn(ResultObj(o, c)) => r == (if prop == OpenDelay then o else c)
      case DelayFn(ResultNone) => r == None
      case DelayObj(o, c) => r == (if prop == OpenDelay then o else c)
      case DelayNone => r == None
  {
    if TruthyStr(pointerType) && !IsMouseLikePointerType(pointerType, false) then Some(0)
    else
      match value
      case DelayNum(n) => Some(n)
      case DelayFn(res) =>
        (match res
         case ResultNum(n) => Some(n)
         case ResultObj(o, c) => Field(o, c, prop)
         case ResultNone => None)
      case DelayObj(o, c) => Field(o, c, prop)
      case DelayNone => None
  }

  /** JavaScript truthiness of a delay: `undefined` and `0` are falsy. */
  predicate DelayTruthy(d: Option<int>) { d.Some? && d.value != 0 }

  /** For a mouse, a pen or an unknown pointer, the delay does not depend on
      the pointer type; a single number (given directly or returned by the
      function) is both the open and the close delay. */
  lemma DelayPointerIndependent(value: Delay, prop: DelayProp, pointerType: Option<string>)
    requires !TruthyStr(pointerType) || IsMouseLikePointerType(pointerType, false)
    ensures GetDelay(value, prop, pointerType) == GetDelay(value, prop, None)
    ensures value.DelayNum? || (value.DelayFn? && value.result.ResultNum?) ==>
      GetDelay(value, OpenDelay, pointerType) == GetDelay(value, CloseDelay, pointerType)
  {
  }

  /** Touch input never waits, whatever the delay option says. */
  lemma TouchNeverWaits(value: Delay, prop: DelayProp)
    ensures !DelayTruthy(GetDelay(value, prop, Some("touch")))
  {
    assert TruthyStr(Some("touch")) && !IsMouseLikePointerType(Some("touch"), false);
  }

  /** The `restMs` option: a number or a function returning one. */
  datatype RestMs = RestNum(n: int) | RestFn(result: int)

  /** `getRestMs`. */
  function GetRestMs(value: RestMs): int {
    match value
    case RestNum(n) => n
    case RestFn(r) => r
  }

  /** A pending timer callback. */
  datatype TimerTask =
    | OpenIfClosed        // the open delay of the reference mouseenter
    | CloseWith(why: Reason)  // the close delay of `closeWithDelay`
    | RestOpen            // `handleMouseMove` after the rest delay

  /** `clearTimeoutIfSet` on one handle cell: a positive handle is cancelled
      and the cell reset to -1; any other value is left as it is. */
  function ClearIfSet(handle: int, timers: map<int, TimerTask>): (r: (int, map<int, TimerTask>))
    ensures r.0 <= 0 || r.0 == handle
    ensures handle > 0 ==> r.0 == -1 && handle !in r.1
    ensures handle <= 0 ==> r == (handle, timers)
    ensures forall k :: k in timers && k != handle ==> k in r.1 && r.1[k] == timers[k]
    ensures forall k :: k in r.1 ==> k in timers
  {
    if handle > 0 then (-1, timers - {handle}) else (handle, timers)
  }

  /** All cells of the hook, for stating what a handler leaves unchanged. */
  datatype HoverCells = HoverCells(
    listening: bool, floatingListening: bool, moveArmed: bool,
    pointerType: Option<string>, timeout: int, restTimeout: int,
    blockMouseMove: bool, restTimeoutPending: bool, handlerActive: bool,
    timers: map<int, TimerTask>, nextHandle: int)

  class HoverHook {
    const ctx: FloatingContext
    const enabled: bool
    const delay: Delay
    const handleClose: bool
    const mouseOnly: bool
    const restMs: RestMs
    const move: bool

    /** The listeners the effect registered: on the reference element, on
        the floating element, and the once-only `mousemove` on the reference. */
    var listening: bool
    var floatingListening: bool
    var moveArmed: bool

    var pointerType: Option<string>
    var timeout: int
    var restTimeout: int
    var blockMouseMove: bool
    var restTimeoutPending: bool
    /** `handlerRef` holds the `handleClose` handler. */
    var handlerActive: bool

    /** Pending timer callbacks by handle, and the next handle to issue. */
    var timers: map<int, TimerTask>
    var nextHandle: int

    ghost function Cells(): HoverCells
      reads this
    {
      HoverCells(listening, floatingListening, moveArmed, pointerType, timeout, restTimeout,
                 blockMouseMove, restTimeoutPending, handlerActive, timers, nextHandle)
    }

    /** Handles are positive and issued in increasing order, so a new one is
        never pending. */
    ghost predicate Valid()
      reads this
    {
      && nextHandle >= 1
      && (forall h :: h in timers ==> 0 < h < nextHandle)
      && timeout < nextHandle && restTimeout < nextHandle
      && (floatingListening ==> listening) && (moveArmed ==> listening)
    }

    /** The effect registers the listeners when the hook is enabled and the
        reference is an element; the floating ones also need a floating
        element, the once-only `mousemove` needs `move`. */
    constructor (ctx: FloatingContext, enabled: bool, delay: Delay, handleClose: bool, mouseOnly: bool,
                 restMs: RestMs, move: bool, referenceIsElement: bool, floatingPresent: bool)
      ensures Valid()
      ensures this.ctx == ctx && this.enabled == enabled && this.delay == delay && this.handleClose == handleClose
      ensures this.mouseOnly == mouseOnly && this.restMs == restMs && this.move == move
      ensures listening == (enabled && referenceIsElement)
      ensures floatingListening == (listening && floatingPresent) && moveArmed == (listening && move)
      ensures pointerType == None && timeout == -1 && restTimeout == -1
      ensures blockMouseMove && !restTimeoutPending && !handlerActive && timers == map[]
    {
      this.ctx := ctx;
      this.enabled := enabled;
      this.delay := delay;
      this.handleClose := handleClose;
      this.mouseOnly := mouseOnly;
      this.restMs := restMs;
      this.move := move;
      listening := enabled && referenceIsElement;
      floatingListening := enabled && referenceIsElement && floatingPresent;
      moveArmed := enabled && referenceIsElement && move;
      pointerType := None;
      timeout := -1;
      restTimeout := -1;
      blockMouseMove := true;
      restTimeoutPending := false;
      handlerActive := false;
      timers := map[];
      nextHandle := 1;
    }

    /** `window.setTimeout`: a fresh positive handle for the callback. */
    method ScheduleTimer(task: TimerTask) returns (h: int)
      requires Valid()
      modifies this
      ensures Valid()
      ensures h == old(nextHandle) && h > 0 && h !in old(timers)
      ensures Cells() == old(Cells()).(timers := old(timers)[h := task], nextHandle := old(nextHandle) + 1)
    {
      h := nextHandle;
      timers := timers[h := task];
      nextHandle := nextHandle + 1;
    }

    /** `clearTimeoutIfSet(timeoutRef)`. */
    method ClearTimeoutIfSet()
      requires Valid()
      modifies this
      ensures Valid()
      ensures Cells() == old(Cells()).(timeout := ClearIfSet(old(timeout), old(timers)).0,
                                       timers := ClearIfSet(old(timeout), old(timers)).1)
    {
      if timeout > 0 {
        timers := timers - {timeout};
        timeout := -1;
      }
    }

    /** `clearTimeoutIfSet(restTimeoutRef)`. */
    method ClearRestTimeoutIfSet()
      requires Valid()
      modifies this
      ensures Valid()
      ensures Cells() == old(Cells()).(restTimeout := ClearIfSet(old(restTimeout), old(timers)).0,
                                       timers := ClearIfSet(old(restTimeout), old(timers)).1)
    {
      if restTimeout > 0 {
        timers := timers - {restTimeout};
        restTimeout := -1;
      }
    }

    /** The reference's `onPointerDown` and `onPointerEnter`. */
    method RecordPointerType(pt: Option<string>)
      requires Valid()
      modifies this
      ensures Valid()
      ensures Cells() == old(Cells()).(pointerType := pt)
    {
      pointerType := pt;
    }

    /** What a reference mouseenter does, with the once-only listener's
        flag left as `moveArmedAfter`. */
    twostate predicate EnterEffect(moveArmedAfter: bool)
      reads this, ctx
    {
      var cleared := ClearIfSet(old(timeout), old(timers));
      var skip := (mouseOnly && !IsMouseLikePointerType(pointerType, false)) ||
                  (GetRestMs(restMs) > 0 && !DelayTruthy(GetDelay(delay, OpenDelay, None)));
      var delayed := !skip && DelayTruthy(GetDelay(delay, OpenDelay, pointerType));
      && (if delayed
          then Cells() == old(Cells()).(moveArmed := moveArmedAfter, blockMouseMove := false, timeout := old(nextHandle),
                                        timers := cleared.1[old(nextHandle) := OpenIfClosed],
                                        nextHandle := old(nextHandle) + 1)
          else Cells() == old(Cells()).(moveArmed := moveArmedAfter, blockMouseMove := false,
                                        timeout := cleared.0, timers := cleared.1))
      && (if !skip && !delayed && !old(ctx.open) then ctx.open && ctx.reason == Some(Hover)
          else ctx.open == old(ctx.open) && ctx.reason == old(ctx.reason))
    }

    /** `onReferenceMouseEnter`: cancels the pending timeout and unblocks
        `onMouseMove`; then, unless the pointer is not mouse-like under
        `mouseOnly` or a rest delay without an open delay is configured,
        opens after the open delay (or at once).  An open element is never
        written. */
    method OnReferenceMouseEnter()
      requires Valid() && listening
      modifies this, ctx
      ensures Valid()
      ensures EnterEffect(old(moveArmed))
    {
      ClearTimeoutIfSet();
      blockMouseMove := false;
      EnterDecide();
    }

    /** The part of a mouseenter after the pending timeout is cancelled:
        skip, schedule the open timer, or open at once. */
    method EnterDecide()
      requires Valid()
      modifies this, ctx
      ensures Valid()
      ensures var skip := (mouseOnly && !IsMouseLikePointerType(pointerType, false)) ||
                          (GetRestMs(restMs) > 0 && !DelayTruthy(GetDelay(delay, OpenDelay, None)));
        var delayed := !skip && DelayTruthy(GetDelay(delay, OpenDelay, pointerType));
        && (if delayed
            then Cells() == old(Cells()).(timeout := old(nextHandle), timers := old(timers)[old(nextHandle) := OpenIfClosed],
                                          nextHandle := old(nextHandle) + 1)
            else Cells() == old(Cells()))
        && (if !skip && !delayed && !old(ctx.open) then ctx.open && ctx.reason == Some(Hover)
            else ctx.open == old(ctx.open) && ctx.reason == old(ctx.reason))
    {
      if (mouseOnly && !IsMouseLikePointerType(pointerType, false)) ||
         (GetRestMs(restMs) > 0 && !DelayTruthy(GetDelay(delay, OpenDelay, None))) {
        return;
      }
      var openDelay := GetDelay(delay, OpenDelay, pointerType);
      if DelayTruthy(openDelay) {
        var h := ScheduleTimer(OpenIfClosed);
        timeout := h;
      } else {
        if !ctx.open {
          ctx.SetOpen(true, Hover);
        }
      }
    }

    /** The once-only `mousemove` listener (with `move`): the first move over
        the reference acts as a mouseenter, and the listener is gone after it. */
    method OnReferenceFirstMove()
      requires Valid() && moveArmed
      modifies this, ctx
      ensures Valid()
      ensures EnterEffect(false)
    {
      moveArmed := false;
      OnReferenceMouseEnter();
    }

    /** The start of a reference mouseleave: the `handleClose` handler is
        removed and the rest timer cancelled. */
    method LeaveStart()
      requires Valid()
      modifies this
      ensures Valid()
      ensures var rest := ClearIfSet(old(restTimeout), old(timers));
        Cells() == old(Cells()).(restTimeout := rest.0, timers := rest.1, restTimeoutPending := false,
                                 handlerActive := false)
    {
      handlerActive := false;
      ClearRestTimeoutIfSet();
      restTimeoutPending := false;
    }

    /** `onReferenceMouseLeave` AS WRITTEN: removes the `handleClose`
        handler, cancels the rest timer; with `handleClose`, cancels the
        open timer only while closed and installs a new handler; otherwise
        closes (unless a touch pointer left into the floating element) but
        leaves a pending open timer in place. */
    method OnReferenceMouseLeaveAsWritten(relatedInFloating: bool)
      requires Valid() && listening
      modifies this, ctx
      ensures Valid()
      ensures var rest := ClearIfSet(old(restTimeout), old(timers));
        var afterRest := old(Cells()).(restTimeout := rest.0, timers := rest.1, restTimeoutPending := false);
        var shouldClose := old(pointerType) != Some("touch") || !relatedInFloating;
        if handleClose then
          && ctx.open == old(ctx.open) && ctx.reason == old(ctx.reason)
          && if old(ctx.open) then Cells() == afterRest.(handlerActive := true)
             else Cells() == afterRest.(handlerActive := true, timeout := ClearIfSet(old(timeout), rest.1).0,
                                        timers := ClearIfSet(old(timeout), rest.1).1)
        else
          && Cells() == afterRest.(handlerActive := false)
          && if shouldClose then !ctx.open && ctx.reason == Some(Hover)
             else ctx.open == old(ctx.open) && ctx.reason == old(ctx.reason)
    {
      LeaveStart();
      if handleClose {
        if !ctx.open {
          ClearTimeoutIfSet();
        }
        handlerActive := true;
        return;
      }
      var shouldClose := pointerType != Some("touch") || !relatedInFloating;
      if shouldClose {
        ctx.SetOpen(false, Hover);
      }
    }

    /** `onReferenceMouseLeave`, corrected: as written, except that closing
        also cancels the pending timeout, so an open delay that has not
        elapsed cannot reopen the element after the pointer has left. */
    method OnReferenceMouseLeave(relatedInFloating: bool)
      requires Valid() && listening
      modifies this, ctx
      ensures Valid()
      ensures var rest := ClearIfSet(old(restTimeout), old(timers));
        var afterRest := old(Cells()).(restTimeout := rest.0, timers := rest.1, restTimeoutPending := false);
        var afterBoth := afterRest.(timeout := ClearIfSet(old(timeout), rest.1).0,
                                    timers := ClearIfSet(old(timeout), rest.1).1);
        var shouldClose := old(pointerType) != Some("touch") || !relatedInFloating;
        if handleClose then
          && ctx.open == old(ctx.open) && ctx.reason == old(ctx.reason)
          && if old(ctx.open) then Cells() == afterRest.(handlerActive := true)
             else Cells() == afterBoth.(handlerActive := true)
        else if shouldClose then
          && Cells() == afterBoth.(handlerActive := false)
          && !ctx.open && ctx.reason == Some(Hover)
        else
          && Cells() == afterRest.(handlerActive := false)
          && ctx.open == old(ctx.open) && ctx.reason == old(ctx.reason)
    {
      LeaveStart();
      if handleClose {
        if !ctx.open {
          ClearTimeoutIfSet();
        }
        handlerActive := true;
        return;
      }
      var shouldClose := pointerType != Some("touch") || !relatedInFloating;
      if shouldClose {
        ClearTimeoutIfSet();
        ctx.SetOpen(false, Hover);
      }
    }

    /** `onClose` of the `handleClose` handler: removes the handler and
        closes with reason `safe-polygon`. */
    method SafePolygonClose()
      requires Valid()
      modifies this, ctx
      ensures Valid()
      ensures Cells() == old(Cells()).(handlerActive := false)
      ensures !ctx.open && ctx.reason == Some(SafePolygon)
    {
      handlerActive := false;
      ctx.SetOpen(false, SafePolygon);
    }

    /** `onFloatingMouseEnter`: cancels the pending timeout. */
    method OnFloatingMouseEnter()
      requires Valid() && floatingListening
      modifies this
      ensures Valid()
      ensures Cells() == old(Cells()).(timeout := ClearIfSet(old(timeout), old(timers)).0,
                                       timers := ClearIfSet(old(timeout), old(timers)).1)
    {
      ClearTimeoutIfSet();
    }

    /** `onFloatingMouseLeave`, i.e. `closeWithDelay(event, false)`: with a
        (truthy) close delay, a close timer replaces the handle in the
        timeout cell; without one nothing happens, since the else branch is
        switched off. */
    method OnFloatingMouseLeave()
      requires Valid() && floatingListening
      modifies this
      ensures Valid()
      ensures if DelayTruthy(GetDelay(delay, CloseDelay, pointerType))
        then Cells() == old(Cells()).(timeout := old(nextHandle), timers := old(timers)[old(nextHandle) := CloseWith(Hover)],
                                      nextHandle := old(nextHandle) + 1)
        else Cells() == old(Cells())
    {
      var closeDelay := GetDelay(delay, CloseDelay, pointerType);
      if DelayTruthy(closeDelay) {
        var h := ScheduleTimer(CloseWith(Hover));
        timeout := h;
      }
    }

    /** `handleMouseMove`: opens once the rest delay has passed, unless a
        mouseenter has not yet unblocked it or the element is already open. */
    method HandleMouseMove()
      modifies ctx
      ensures if !blockMouseMove && !old(ctx.open) then ctx.open && ctx.reason == Some(Hover)
              else ctx.open == old(ctx.open) && ctx.reason == old(ctx.reason)
    {
      if !blockMouseMove && !ctx.open {
        ctx.SetOpen(true, Hover);
      }
    }

    /** The reference's `onMouseMove`: nothing under `mouseOnly` for a
        pointer that is not mouse-like, while open, or without a rest delay;
        while the rest timer is pending, moves shorter than the tremor
        threshold are ignored; otherwise the rest timer restarts (touch
        opens at once). */
    method OnMouseMove(movementX: int, movementY: int)
      requires Valid()
      modifies this, ctx
      ensures Valid()
      ensures var ignored := (mouseOnly && !IsMouseLikePointerType(old(pointerType), false)) ||
                             old(ctx.open) || GetRestMs(restMs) == 0 ||
                             (old(restTimeoutPending) && movementX * movementX + movementY * movementY < 2);
        var rest := ClearIfSet(old(restTimeout), old(timers));
        if ignored then Cells() == old(Cells()) && ctx.open == old(ctx.open) && ctx.reason == old(ctx.reason)
        else if old(pointerType) == Some("touch") then
          && Cells() == old(Cells()).(restTimeout := rest.0, timers := rest.1)
          && (if !blockMouseMove then ctx.open && ctx.reason == Some(Hover)
              else !ctx.open && ctx.reason == old(ctx.reason))
        else
          && Cells() == old(Cells()).(restTimeout := old(nextHandle), timers := rest.1[old(nextHandle) := RestOpen],
                                      nextHandle := old(nextHandle) + 1, restTimeoutPending := true)
          && ctx.open == old(ctx.open) && ctx.reason == old(ctx.reason)
    {
      if mouseOnly && !IsMouseLikePointerType(pointerType, false) {
        return;
      }
      if ctx.open || GetRestMs(restMs) == 0 {
        return;
      }
      if restTimeoutPending && movementX * movementX + movementY * movementY < 2 {
        return;
      }
      RestartRest();
    }

    /** A move that counts: the rest timer is cancelled; a touch pointer
        runs `handleMouseMove` at once, any other restarts the rest timer. */
    method RestartRest()
      requires Valid()
      modifies this, ctx
      ensures Valid()
      ensures var rest := ClearIfSet(old(restTimeout), old(timers));
        if old(pointerType) == Some("touch") then
          && Cells() == old(Cells()).(restTimeout := rest.0, timers := rest.1)
          && (if !blockMouseMove && !old(ctx.open) then ctx.open && ctx.reason == Some(Hover)
              else ctx.open == old(ctx.open) && ctx.reason == old(ctx.reason))
        else
          && Cells() == old(Cells()).(restTimeout := old(nextHandle), timers := rest.1[old(nextHandle) := RestOpen],
                                      nextHandle := old(nextHandle) + 1, restTimeoutPending := true)
          && ctx.open == old(ctx.open) && ctx.reason == old(ctx.reason)
    {
      ClearRestTimeoutIfSet();
      if pointerType == Some("touch") {
        HandleMouseMove();
      } else {
        restTimeoutPending := true;
        var h := ScheduleTimer(RestOpen);
        restTimeout := h;
      }
    }

    /** A pending timer fires: its callback runs once and is no longer
        pending.  The handle cells are not reset. */
    method FireTimer(h: int)
      requires Valid() && h in timers
      modifies this, ctx
      ensures Valid()
      ensures Cells() == old(Cells()).(timers := old(timers) - {h})
      ensures match old(timers[h])
        case OpenIfClosed =>
          if !old(ctx.open) then ctx.open && ctx.reason == Some(Hover)
          else ctx.open == old(ctx.open) && ctx.reason == old(ctx.reason)
        case CloseWith(why) => !ctx.open && ctx.reason == Some(why)
        case RestOpen =>
          if !blockMouseMove && !old(ctx.open) then ctx.open && ctx.reason == Some(Hover)
          else ctx.open == old(ctx.open) && ctx.reason == old(ctx.reason)
    {
      var task := timers[h];
      timers := timers - {h};
      match task {
        case OpenIfClosed =>
          if !ctx.open {
            ctx.SetOpen(true, Hover);
          }
        case CloseWith(why) =>
          ctx.SetOpen(false, why);
        case RestOpen =>
          HandleMouseMove();
      }
    }

    /** The effect's teardown: listeners removed and the `handleClose`
        handler unbound; pending timers are not cancelled. */
    method Dispose()
      requires Valid()
      modifies this
      ensures Valid()
      ensures Cells() == old(Cells()).(listening := false, floatingListening := false, moveArmed := false,
                                       handlerActive := false)
    {
      listening := false;
      floatingListening := false;
      moveArmed := false;
      handlerActive := false;
    }

    /** `enabled ? { reference } : {}`. */
    function Contract(): (r: ElementProps)
      ensures !enabled ==> r == NoElementProps
      ensures enabled ==> r.reference.Props? && r.floating.NoProps? && r.item.NoProps?
    {
      HookProps(enabled,
        Props([("onPointerDown", Fn(PointerDownHandler)), ("onPointerEnter", Fn(PointerEnterHandler)),
               ("onMouseMove", Fn(MouseMoveHandler))]),
        NoProps, NoProps)
    }
  }

  /** Handlers of the hook, by identity. */
  const PointerDownHandler: nat := 400
  const PointerEnterHandler: nat := 401
  const MouseMoveHandler: nat := 402

  /** As written, with an open delay: the pointer enters the reference and
      leaves it before the delay elapses; the leave closes (the element stays
      closed), but the open timer is still pending and, when it fires, opens
      the element although the pointer is gone. */
  method OpenTimerOutlivesLeaveAsWritten() returns (openAfterLeave: bool, openAfterTimer: bool)
    ensures !openAfterLeave && openAfterTimer
  {
    var ctx := new FloatingContext(false);
    var hook := new HoverHook(ctx, true, DelayNum(500), false, false, RestNum(0), true, true, true);
    hook.OnReferenceMouseEnter();
    var h := hook.timeout;
    hook.OnReferenceMouseLeaveAsWritten(false);
    openAfterLeave := ctx.open;
    hook.FireTimer(h);
    openAfterTimer := ctx.open;
  }

  /** Corrected, on the same input: after the leave the element is closed
      and no timer is pending, so nothing can reopen it. */
  method OpenTimerCancelledByLeave() returns (openAfterLeave: bool, pending: set<int>)
    ensures !openAfterLeave && pending == {}
  {
    var ctx := new FloatingContext(false);
    var hook := new HoverHook(ctx, true, DelayNum(500), false, false, RestNum(0), true, true, true);
    hook.OnReferenceMouseEnter();
    hook.OnReferenceMouseLeave(false);
    openAfterLeave := ctx.open;
    pending := hook.timers.Keys;
  }
}
